/**
 * The form state shared by the "new application" page and the edit
 * dialog: the same fifteen fields with the same defaults, the same input
 * and select handlers, and the same mapping from form strings to column
 * values.
 */
module ApplicationForm {
  import opened Wrappers
  import opened Dates
  import opened Database
  import opened Text

  /** `formData`: every input holds a string, except the select values and the two checkboxes. */
  datatype FormData = FormData(
    companyName: string,
    positionTitle: string,
    platform: string,
    platformOther: string,
    status: Status,
    salaryMin: string,
    salaryMax: string,
    salaryCurrency: Currency,
    salaryPeriod: Period,
    salaryNotSpecified: bool,
    locationType: Option<LocationType>,   // `""` when none is chosen
    locationCity: string,
    jobUrl: string,
    personalNotes: string,
    isPriority: bool)

  /** The form as first shown. */
  const InitialForm := FormData("", "", "", "", Pendiente, "", "", USD, Mensual, false, None, "", "", "", false)

  /** The initial form: nothing typed, status "pendiente", USD per month, neither box ticked. */
  lemma InitialDefaults()
    ensures InitialForm.status == Pendiente && InitialForm.salaryCurrency == USD && InitialForm.salaryPeriod == Mensual
    ensures !InitialForm.salaryNotSpecified && !InitialForm.isPriority && InitialForm.locationType.None?
    ensures forall n :: GetText(InitialForm, n) == ""
  {
    forall n ensures GetText(InitialForm, n) == "" {
      match n
      case CompanyNameInput =>
      case PositionTitleInput =>
      case PlatformOtherInput =>
      case SalaryMinInput =>
      case SalaryMaxInput =>
      case LocationCityInput =>
      case JobUrlInput =>
      case PersonalNotesInput =>
    }
  }

  /** The `name` of a text input or text area. */
  datatype TextInput =
    | CompanyNameInput | PositionTitleInput | PlatformOtherInput
    | SalaryMinInput | SalaryMaxInput | LocationCityInput | JobUrlInput | PersonalNotesInput

  /** The `name` of a checkbox. */
  datatype Checkbox = SalaryNotSpecifiedBox | IsPriorityBox

  /** A change event: a text input with its new value, or a checkbox with its new state. */
  datatype InputChange = TextChanged(input: TextInput, value: string) | BoxChanged(box: Checkbox, checked: bool)

  /** A `handleSelectChange(name, value)` call, one case per select of the form. */
  datatype Selection =
    | PlatformSelected(platform: string)
    | StatusSelected(status: Status)
    | CurrencySelected(currency: Currency)
    | PeriodSelected(period: Period)
    | LocationSelected(location: LocationType)

  function GetText(f: FormData, n: TextInput): string {
    match n
    case CompanyNameInput => f.companyName
    case PositionTitleInput => f.positionTitle
    case PlatformOtherInput => f.platformOther
    case SalaryMinInput => f.salaryMin
    case SalaryMaxInput => f.salaryMax
    case LocationCityInput => f.locationCity
    case JobUrlInput => f.jobUrl
    case PersonalNotesInput => f.personalNotes
  }

  function GetBox(f: FormData, b: Checkbox): bool {
    match b
    case SalaryNotSpecifiedBox => f.salaryNotSpecified
    case IsPriorityBox => f.isPriority
  }

  /** Two forms that agree on every select. */
  predicate SameChoices(f: FormData, g: FormData) {
    && f.platform == g.platform && f.status == g.status && f.salaryCurrency == g.salaryCurrency
    && f.salaryPeriod == g.salaryPeriod && f.locationType == g.locationType
  }

  /** `{ ...prev, [name]: value }` for an input change. */
  function ApplyInput(f: FormData, e: InputChange): (r: FormData)
    ensures SameChoices(f, r)
    ensures e.TextChanged? ==> GetText(r, e.input) == e.value
    ensures forall n :: (e.BoxChanged? || n != e.input) ==> GetText(r, n) == GetText(f, n)
    ensures e.BoxChanged? ==> GetBox(r, e.box) == e.checked
    ensures forall b :: (e.TextChanged? || b != e.box) ==> GetBox(r, b) == GetBox(f, b)
  {
    match e
    case TextChanged(n, v) =>
      (match n
       case CompanyNameInput => f.(companyName := v)
       case PositionTitleInput => f.(positionTitle := v)
       case PlatformOtherInput => f.(platformOther := v)
       case SalaryMinInput => f.(salaryMin := v)
       case SalaryMaxInput => f.(salaryMax := v)
       case LocationCityInput => f.(locationCity := v)
       case JobUrlInput => f.(jobUrl := v)
       case PersonalNotesInput => f.(personalNotes := v))
    case BoxChanged(b, c) =>
      (match b
       case SalaryNotSpecifiedBox => f.(salaryNotSpecified := c)
       case IsPriorityBox => f.(isPriority := c))
  }

  /** `{ ...prev, [name]: value }` for a select. */
  function ApplySelection(f: FormData, s: Selection): (r: FormData)
    ensures forall n :: GetText(r, n) == GetText(f, n)
    ensures forall b :: GetBox(r, b) == GetBox(f, b)
    ensures s.PlatformSelected? ==> r == f.(platform := s.platform)
    ensures s.StatusSelected? ==> r == f.(status := s.status)
    ensures s.CurrencySelected? ==> r == f.(salaryCurrency := s.currency)
    ensures s.PeriodSelected? ==> r == f.(salaryPeriod := s.period)
    ensures s.LocationSelected? ==> r == f.(locationType := Some(s.location))
  {
    match s
    case PlatformSelected(p) => f.(platform := p)
    case StatusSelected(st) => f.(status := st)
    case CurrencySelected(c) => f.(salaryCurrency := c)
    case PeriodSelected(p) => f.(salaryPeriod := p)
    case LocationSelected(l) => f.(locationType := Some(l))
  }

  /** Making the same change twice is making it once. */
  lemma InputIdempotent(f: FormData, e: InputChange)
    ensures ApplyInput(ApplyInput(f, e), e) == ApplyInput(f, e)
  {
  }

  /** Two forms that agree on every text field, every checkbox and every select are the same form. */
  lemma FormExtensionality(f: FormData, g: FormData)
    requires forall n :: GetText(f, n) == GetText(g, n)
    requires forall b :: GetBox(f, b) == GetBox(g, b)
    requires SameChoices(f, g)
    ensures f == g
  {
    assert GetText(f, CompanyNameInput) == GetText(g, CompanyNameInput);
    assert GetText(f, PositionTitleInput) == GetText(g, PositionTitleInput);
    assert GetText(f, PlatformOtherInput) == GetText(g, PlatformOtherInput);
    assert GetText(f, SalaryMinInput) == GetText(g, SalaryMinInput);
    assert GetText(f, SalaryMaxInput) == GetText(g, SalaryMaxInput);
    assert GetText(f, LocationCityInput) == GetText(g, LocationCityInput);
    assert GetText(f, JobUrlInput) == GetText(g, JobUrlInput);
    assert GetText(f, PersonalNotesInput) == GetText(g, PersonalNotesInput);
    assert GetBox(f, SalaryNotSpecifiedBox) == GetBox(g, SalaryNotSpecifiedBox);
    assert GetBox(f, IsPriorityBox) == GetBox(g, IsPriorityBox);
  }

  /** Changes to two different fields commute. */
  lemma InputsCommute(f: FormData, e1: InputChange, e2: InputChange)
    requires e1.TextChanged? && e2.TextChanged? ==> e1.input != e2.input
    requires e1.BoxChanged? && e2.BoxChanged? ==> e1.box != e2.box
    ensures ApplyInput(ApplyInput(f, e1), e2) == ApplyInput(ApplyInput(f, e2), e1)
  {
    var g, h := ApplyInput(ApplyInput(f, e1), e2), ApplyInput(ApplyInput(f, e2), e1);
    forall n ensures GetText(g, n) == GetText(h, n) {
    }
    forall b ensures GetBox(g, b) == GetBox(h, b) {
    }
    FormExtensionality(g, h);
  }

  /** A text field as a nullable column: the empty string becomes null. */
  function OrNull(s: string): (r: Option<string>)
    ensures r.None? <==> s == ""
    ensures r.Some? ==> r.value == s
  {
    if s != "" then Some(s) else None
  }

  /** A nullable column as a text field: null becomes the empty string. */
  function OrEmpty(s: Option<string>): (r: string)
    ensures s.None? ==> r == ""
    ensures s.Some? ==> r == s.value
  {
    if s.Some? then s.value else ""
  }

  /** Going from column to field and back keeps a value that is null or non-empty, and only those. */
  lemma OrNullOrEmpty(s: Option<string>)
    ensures OrNull(OrEmpty(s)) == s <==> s.None? || s.value != ""
  {
  }

  /**
   * `s ? parseFloat(s) : null`: an empty field is null; otherwise the
   * number the field starts with, and null when it starts with none
   * (`parseFloat` yields NaN, which is sent as null).
   */
  function ParseAmount(s: string): (r: Option<int>)
    ensures s == "" ==> r.None?
    ensures forall i :: s == ShowInt(i) ==> r == Some(i)
  {
    forall i | s == ShowInt(i) ensures ParseNumber(s) == Some(i) {
      ParseShowInt(i);
    }
    if s != "" then ParseNumber(s) else None
  }

  /** `amount?.toString() || ""`: null becomes the empty string, any number its decimal text. */
  function AmountText(amount: Option<int>): (r: string)
    ensures r == "" <==> amount.None?
    ensures ParseAmount(r) == amount
  {
    if amount.Some? then ShowInt(amount.value) else ""
  }

  /** `platform === "otro" ? platformOther : null`. */
  function PlatformOtherColumn(f: FormData): (r: Option<string>)
    ensures r.Some? <==> f.platform == "otro"
    ensures r.Some? ==> r.value == f.platformOther
  {
    if f.platform == "otro" then Some(f.platformOther) else None
  }

  /**
   * The optional columns both forms send: every column given a value, the
   * free-text platform only for "otro", empty strings as null, amounts
   * parsed, the modality null when none is chosen.
   */
  function FormChanges(f: FormData, date: AppDate): (c: Changes)
    ensures c.platformOther == Set(PlatformOtherColumn(f))
    ensures c.applicationDate == Set(date) && c.status == Set(f.status)
    ensures c.salaryMin == Set(ParseAmount(f.salaryMin)) && c.salaryMax == Set(ParseAmount(f.salaryMax))
    ensures c.salaryCurrency == Set(Some(f.salaryCurrency)) && c.salaryPeriod == Set(Some(f.salaryPeriod))
    ensures c.salaryNotSpecified == Set(f.salaryNotSpecified) && c.isPriority == Set(f.isPriority)
    ensures c.locationType == Set(f.locationType)
    ensures c.locationCity == Set(OrNull(f.locationCity)) && c.jobUrl == Set(OrNull(f.jobUrl))
    ensures c.personalNotes == Set(OrNull(f.personalNotes))
  {
    Changes(
      platformOther := Set(PlatformOtherColumn(f)),
      applicationDate := Set(date),
      status := Set(f.status),
      salaryMin := Set(ParseAmount(f.salaryMin)),
      salaryMax := Set(ParseAmount(f.salaryMax)),
      salaryCurrency := Set(Some(f.salaryCurrency)),
      salaryPeriod := Set(Some(f.salaryPeriod)),
      salaryNotSpecified := Set(f.salaryNotSpecified),
      locationType := Set(f.locationType),
      locationCity := Set(OrNull(f.locationCity)),
      jobUrl := Set(OrNull(f.jobUrl)),
      personalNotes := Set(OrNull(f.personalNotes)),
      isPriority := Set(f.isPriority))
  }

  /** The `formData` state both components keep, and its two change handlers. */
  class FormState {
    var data: FormData

    constructor()
      ensures data == InitialForm
    {
      data := InitialForm;
    }

    /** `handleInputChange`: only the named field changes, to the typed text or the box's state. */
    method HandleInputChange(e: InputChange)
      modifies this
      ensures data == ApplyInput(old(data), e)
    {
      data := ApplyInput(data, e);
    }

    /** `handleSelectChange`: only the selected field changes. */
    method HandleSelectChange(s: Selection)
      modifies this
      ensures data == ApplySelection(old(data), s)
    {
      data := ApplySelection(data, s);
    }

    /** `setFormData(...)` with a whole new form. */
    method Replace(f: FormData)
      modifies this
      ensures data == f
    {
      data := f;
    }
  }
}
