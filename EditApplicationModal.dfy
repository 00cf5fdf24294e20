/**
 * The edit dialog: opening it on an application fills the form from the
 * record; saving sends every editable column back.  The outcome of the
 * `updateApplication` call is a parameter; `onSave` and closing the dialog
 * are flags.  How the stored date is read back into the date picker is a
 * parameter (`Dates.DateReading`): the code as written reads it on the
 * local clock.
 */
module EditApplicationModal {
  import opened Wrappers
  import opened Dates
  import opened Database
  import opened Text
  import opened ApplicationForm

  const SaveFailed := "Error al guardar los cambios. Intenta de nuevo."

  /**
   * The prefill: every column into its field, null optional text as "",
   * amounts as their decimal text, a null currency as USD and a null period
   * as monthly.
   */
  function Prefill(app: Application): (f: FormData)
    ensures f.companyName == app.companyName && f.positionTitle == app.positionTitle && f.platform == app.platform
    ensures f.platformOther == OrEmpty(app.platformOther) && f.status == app.status
    ensures ParseAmount(f.salaryMin) == app.salaryMin && ParseAmount(f.salaryMax) == app.salaryMax
    ensures f.salaryCurrency == (if app.salaryCurrency.Some? then app.salaryCurrency.value else USD)
    ensures f.salaryPeriod == (if app.salaryPeriod.Some? then app.salaryPeriod.value else Mensual)
    ensures f.salaryNotSpecified == app.salaryNotSpecified && f.isPriority == app.isPriority
    ensures f.locationType == app.locationType
    ensures f.locationCity == OrEmpty(app.locationCity) && f.jobUrl == OrEmpty(app.jobUrl)
    ensures f.personalNotes == OrEmpty(app.personalNotes)
  {
    FormData(
      companyName := app.companyName,
      positionTitle := app.positionTitle,
      platform := app.platform,
      platformOther := OrEmpty(app.platformOther),
      status := app.status,
      salaryMin := AmountText(app.salaryMin),
      salaryMax := AmountText(app.salaryMax),
      salaryCurrency := if app.salaryCurrency.Some? then app.salaryCurrency.value else USD,
      salaryPeriod := if app.salaryPeriod.Some? then app.salaryPeriod.value else Mensual,
      salaryNotSpecified := app.salaryNotSpecified,
      locationType := app.locationType,
      locationCity := OrEmpty(app.locationCity),
      jobUrl := OrEmpty(app.jobUrl),
      personalNotes := OrEmpty(app.personalNotes),
      isPriority := app.isPriority)
  }

  /**
   * The update `handleSubmit` sends: every editable column, the chosen
   * date, or the stored date when none is chosen.
   */
  function UpdatePayload(f: FormData, date: Option<AppDate>, stored: AppDate): (u: ApplicationUpdate)
    ensures u.companyName == Set(f.companyName) && u.positionTitle == Set(f.positionTitle)
    ensures u.platform == Set(f.platform)
    ensures date.None? ==> u.changes.applicationDate == Set(stored)
    ensures date.Some? ==> u.changes.applicationDate == Set(date.value)
    ensures u.changes == FormChanges(f, if date.Some? then date.value else stored)
  {
    ApplicationUpdate(Set(f.companyName), Set(f.positionTitle), Set(f.platform),
                      FormChanges(f, if date.Some? then date.value else stored))
  }

  /** The date the picker holds after the prefill. */
  function PrefillDate(app: Application, reading: DateReading): AppDate {
    ReadDate(app.applicationDate, reading)
  }

  /**
   * A record round-trips through the dialog when its optional text columns
   * are each null or non-empty, its free-text platform is present exactly
   * for "otro", and its currency and period are set: the form's strings then
   * carry exactly the information of the columns.
   */
  predicate RoundTrips(app: Application) {
    && (app.platformOther.Some? <==> app.platform == "otro")
    && (app.platformOther.Some? ==> app.platformOther.value != "")
    && (app.locationCity.Some? ==> app.locationCity.value != "")
    && (app.jobUrl.Some? ==> app.jobUrl.value != "")
    && (app.personalNotes.Some? ==> app.personalNotes.value != "")
    && app.salaryCurrency.Some? && app.salaryPeriod.Some?
  }

  /**
   * Opening the dialog on a record and saving without touching anything
   * leaves the record as it was, when the date is read as a calendar date.
   */
  lemma PrefillSubmitRoundTrip(app: Application)
    requires RoundTrips(app)
    ensures var f := Prefill(app);
            ApplyUpdate(app, UpdatePayload(f, Some(PrefillDate(app, CalendarDate)), app.applicationDate)) == app
  {
    var date := Some(PrefillDate(app, CalendarDate));
    var r := ApplyUpdate(app, UpdatePayload(Prefill(app), date, app.applicationDate));
    PrefillSubmitKeepsColumns(app, date);
    assert r.platformOther == app.platformOther by {
      OrNullOrEmpty(app.platformOther);
    }
    assert r.salaryCurrency == app.salaryCurrency && r.salaryPeriod == app.salaryPeriod;
    assert r.applicationDate == app.applicationDate;
  }

  /**
   * Without the conditions the round trip fails: a null currency or period
   * comes back as USD or monthly, and "otro" without free text comes back
   * with an empty free text.
   */
  lemma SaveFillsDefaults(app: Application, date: Option<AppDate>)
    ensures var r := ApplyUpdate(app, UpdatePayload(Prefill(app), date, app.applicationDate));
            && (app.salaryCurrency.None? ==> r.salaryCurrency == Some(USD))
            && (app.salaryPeriod.None? ==> r.salaryPeriod == Some(Mensual))
            && (app.platform == "otro" && app.platformOther.None? ==> r.platformOther == Some(""))
            && (app.platform != "otro" ==> r.platformOther.None?)
  {
  }

  /**
   * The columns the dialog reproduces for any record whose optional text
   * columns are null or non-empty, whatever its other columns hold.
   */
  lemma PrefillSubmitKeepsColumns(app: Application, date: Option<AppDate>)
    requires app.locationCity.Some? ==> app.locationCity.value != ""
    requires app.jobUrl.Some? ==> app.jobUrl.value != ""
    requires app.personalNotes.Some? ==> app.personalNotes.value != ""
    ensures var r := ApplyUpdate(app, UpdatePayload(Prefill(app), date, app.applicationDate));
            && r.companyName == app.companyName && r.positionTitle == app.positionTitle
            && r.platform == app.platform && r.status == app.status
            && r.salaryNotSpecified == app.salaryNotSpecified && r.isPriority == app.isPriority
            && r.locationType == app.locationType && r.locationCity == app.locationCity
            && r.jobUrl == app.jobUrl && r.personalNotes == app.personalNotes
            && r.salaryMin == app.salaryMin && r.salaryMax == app.salaryMax
  {
    OrNullOrEmpty(app.locationCity);
    OrNullOrEmpty(app.jobUrl);
    OrNullOrEmpty(app.personalNotes);
  }

  /**
   * As written, on a clock at UTC-6, opening the dialog on a record dated
   * 1 March 2024 and saving it untouched stores 29 February 2024: the date
   * slips back a day with every save.
   */
  lemma SaveShiftsDateBack(app: Application)
    requires app.applicationDate == AppDate(2024, 2, 1)
    ensures var u := UpdatePayload(Prefill(app), Some(PrefillDate(app, LocalClock(-360))), app.applicationDate);
            ApplyUpdate(app, u).applicationDate == AppDate(2024, 1, 29)
  {
    var d := PrefillDate(app, LocalClock(-360));
    assert IsLeapYear(2024);
    assert d == AppDate(2024, 1, 29);
    var u := UpdatePayload(Prefill(app), Some(d), app.applicationDate);
    assert u.changes.applicationDate == Set(d);
  }

  /** At any clock west of UTC the saved date is the day before; at UTC or east of it, the stored date. */
  lemma SavedDateOnLocalClock(app: Application, offset: int)
    requires ValidDate(app.applicationDate) && RealisticOffset(offset)
    ensures var u := UpdatePayload(Prefill(app), Some(PrefillDate(app, LocalClock(offset))), app.applicationDate);
            var saved := ApplyUpdate(app, u).applicationDate;
            && (offset < 0 ==> saved == PreviousDay(app.applicationDate))
            && (offset >= 0 ==> saved == app.applicationDate)
  {
    var d := PrefillDate(app, LocalClock(offset));
    assert d == LocalDateOfUtcMidnight(app.applicationDate, offset);
    var u := UpdatePayload(Prefill(app), Some(d), app.applicationDate);
    assert u.changes.applicationDate == Set(d);
  }

  class EditApplicationModalState {
    const form: FormState
    var date: Option<AppDate>
    var error: Option<string>
    var isSubmitting: bool
    var open: bool
    var saved: bool

    constructor(open: bool)
      ensures fresh(form) && form.data == InitialForm
      ensures date.None? && error.None? && !isSubmitting && this.open == open && !saved
    {
      form := new FormState();
      date := None;
      error := None;
      isSubmitting := false;
      this.open := open;
      saved := false;
    }

    /**
     * The effect that runs when the dialog opens on an application: the
     * form, the picker's date and the error are replaced; with no
     * application or a closed dialog nothing changes.
     */
    method LoadApplication(application: Option<Application>, reading: DateReading)
      modifies this, form
      ensures application.Some? && open ==>
                form.data == Prefill(application.value)
                && date == Some(PrefillDate(application.value, reading)) && error.None?
      ensures !(application.Some? && open) ==> form.data == old(form.data) && date == old(date) && error == old(error)
      ensures open == old(open) && saved == old(saved) && isSubmitting == old(isSubmitting)
    {
      if application.Some? && open {
        form.Replace(Prefill(application.value));
        date := Some(PrefillDate(application.value, reading));
        error := None;
      }
    }

    /**
     * The calendar's `onSelect`, wired straight to `setDate`: a picked day
     * replaces the date, and clicking the picked day again clears it, so
     * that the save keeps the stored date.
     */
    method SelectDate(d: Option<AppDate>)
      modifies this
      ensures date == d
      ensures form.data == old(form.data)
      ensures error == old(error) && isSubmitting == old(isSubmitting)
      ensures open == old(open) && saved == old(saved)
    {
      date := d;
    }

    /**
     * `handleSubmit`: with no application nothing happens; otherwise the
     * update goes out, and on success `onSave` runs and the dialog closes,
     * on failure the error shows and the dialog stays open.
     */
    method HandleSubmit(application: Option<Application>, outcome: Result<Application, string>)
      returns (sent: Option<(string, ApplicationUpdate)>)
      modifies this
      ensures form.data == old(form.data) && date == old(date)
      ensures application.None? ==>
                sent.None? && error == old(error) && open == old(open)
                && saved == old(saved) && isSubmitting == old(isSubmitting)
      ensures application.Some? ==>
                && sent == Some((application.value.id,
                                 UpdatePayload(form.data, date, application.value.applicationDate)))
                && !isSubmitting
                && (outcome.Ok? ==> error.None? && saved && !open)
                && (outcome.Err? ==> error == Some(SaveFailed) && saved == old(saved) && open == old(open))
    {
      if application.None? {
        return None;
      }
      var app := application.value;
      isSubmitting := true;
      error := None;
      sent := Some((app.id, UpdatePayload(form.data, date, app.applicationDate)));
      match outcome {
        case Ok(_) =>
          saved := true;
          open := false;
        case Err(_) =>
          error := Some(SaveFailed);
      }
      isSubmitting := false;
    }
  }
}
