/**
 * The "new application" page: the form, the chosen date, the error line
 * and the submitting flag, and what a submit sends.  The wallet address is
 * a parameter, and so is the outcome of the `createApplication` call;
 * navigation to the list is a flag.
 */
module NewApplicationForm {
  import opened Wrappers
  import opened Dates
  import opened Database
  import opened ApplicationForm
  import ApplicationsContext

  const WalletRequired := "Debes conectar tu wallet para guardar postulaciones"
  const RequiredFields := "Por favor completa los campos obligatorios"
  const SaveFailed := "Error al guardar la postulación. Intenta de nuevo."

  /** The three required fields are filled in. */
  predicate RequiredFilled(f: FormData) {
    f.companyName != "" && f.positionTitle != "" && f.platform != ""
  }

  /**
   * The argument of `createApplication`: the three required fields and every
   * optional column.  The owner is left empty here; the provider puts the
   * connected wallet in its place.
   */
  function InsertPayload(f: FormData, date: AppDate): (p: ApplicationInsert)
    ensures p.walletAddress == ""
    ensures p.companyName == f.companyName && p.positionTitle == f.positionTitle && p.platform == f.platform
    ensures p.changes == FormChanges(f, date)
  {
    ApplicationInsert("", f.companyName, f.positionTitle, f.platform, FormChanges(f, date))
  }

  class NewApplicationFormState {
    const form: FormState
    var date: Option<AppDate>
    var error: Option<string>
    var isSubmitting: bool
    var navigated: bool

    /** The page as opened on `today`: the initial form and today's date. */
    constructor(today: AppDate)
      ensures fresh(form) && form.data == InitialForm
      ensures date == Some(today) && error.None? && !isSubmitting && !navigated
    {
      form := new FormState();
      date := Some(today);
      error := None;
      isSubmitting := false;
      navigated := false;
    }

    /**
     * The calendar's `onSelect`, which receives the picked day, or nothing
     * when the picked day is clicked again: only a day replaces the date, so
     * a deselect keeps the date chosen before.
     */
    method SelectDate(d: Option<AppDate>)
      modifies this
      ensures d.Some? ==> date == d
      ensures d.None? ==> date == old(date)
      ensures form.data == old(form.data)
      ensures error == old(error) && isSubmitting == old(isSubmitting) && navigated == old(navigated)
    {
      if d.Some? {
        date := d;
      }
    }

    /**
     * `handleSubmit`: without a wallet, the wallet error and nothing sent;
     * then, with a required field empty, the required-fields error and
     * nothing sent; otherwise the payload is sent with the chosen date (or
     * `today`), and on success the page moves to the list, on failure the
     * save error shows.  The submitting flag is down again at the end.
     */
    method HandleSubmit(address: Option<string>, today: AppDate, outcome: Result<Application, string>)
      returns (sent: Option<ApplicationInsert>)
      modifies this
      ensures form.data == old(form.data) && date == old(date)
      ensures !ApplicationsContext.Connected(address) ==>
                sent.None? && error == Some(WalletRequired)
                && isSubmitting == old(isSubmitting) && navigated == old(navigated)
      ensures ApplicationsContext.Connected(address) && !RequiredFilled(form.data) ==>
                sent.None? && error == Some(RequiredFields)
                && isSubmitting == old(isSubmitting) && navigated == old(navigated)
      ensures ApplicationsContext.Connected(address) && RequiredFilled(form.data) ==>
                && sent == Some(InsertPayload(form.data, if date.Some? then date.value else today))
                && !isSubmitting
                && (outcome.Ok? ==> error.None? && navigated)
                && (outcome.Err? ==> error == Some(SaveFailed) && navigated == old(navigated))
    {
      if !ApplicationsContext.Connected(address) {
        error := Some(WalletRequired);
        return None;
      }
      if !RequiredFilled(form.data) {
        error := Some(RequiredFields);
        return None;
      }
      isSubmitting := true;
      error := None;
      var day := if date.Some? then date.value else today;
      sent := Some(InsertPayload(form.data, day));
      match outcome {
        case Ok(_) =>
          navigated := true;
        case Err(_) =>
          error := Some(SaveFailed);
      }
      isSubmitting := false;
    }
  }

  /**
   * The page's submit wired to the provider, as the page calls it: the
   * page's guards run first, and only a form that passes them reaches
   * `createApplication`, whose insert then carries the provider's wallet
   * and the three required fields, all non-empty.  The page and the
   * provider see the same connected wallet.
   */
  method SubmitToProvider(page: NewApplicationFormState, provider: ApplicationsContext.ApplicationsProvider,
                          today: AppDate, reply: Result<Application, string>)
    returns (requests: seq<ApplicationsContext.Request>)
    modifies page, provider
    ensures page.form.data == old(page.form.data) && page.date == old(page.date)
    ensures !(ApplicationsContext.Connected(provider.walletAddress) && RequiredFilled(page.form.data)) ==>
              requests == [] && provider.applications == old(provider.applications) && page.navigated == old(page.navigated)
    ensures !ApplicationsContext.Connected(provider.walletAddress) ==> page.error == Some(WalletRequired)
    ensures ApplicationsContext.Connected(provider.walletAddress) && !RequiredFilled(page.form.data) ==>
              page.error == Some(RequiredFields)
    ensures ApplicationsContext.Connected(provider.walletAddress) && RequiredFilled(page.form.data) ==>
              && |requests| == 1 && requests[0].InsertRow?
              && requests[0].row.walletAddress == provider.walletAddress.value
              && requests[0].row.walletAddress != ""
              && requests[0].row.companyName != ""
              && requests[0].row.positionTitle != ""
              && requests[0].row.platform != ""
              && requests[0].row.changes == FormChanges(page.form.data, if page.date.Some? then page.date.value else today)
    ensures ApplicationsContext.Connected(provider.walletAddress) && RequiredFilled(page.form.data) && reply.Ok? ==>
              provider.applications == [reply.value] + old(provider.applications) && page.navigated && page.error.None?
    ensures ApplicationsContext.Connected(provider.walletAddress) && RequiredFilled(page.form.data) && reply.Err? ==>
              provider.applications == old(provider.applications) && page.error == Some(SaveFailed)
  {
    var wallet := provider.walletAddress;
    if !(ApplicationsContext.Connected(wallet) && RequiredFilled(page.form.data)) {
      var _ := page.HandleSubmit(wallet, today, Err(ApplicationsContext.WalletNotConnected));
      return [];
    }
    var day := if page.date.Some? then page.date.value else today;
    var outcome;
    requests, outcome := provider.CreateApplication(InsertPayload(page.form.data, day), reply);
    var _ := page.HandleSubmit(wallet, today, outcome);
  }
}
