/**
 * The read-only detail view of one application: which rows it shows and
 * how it words the salary, the modality and the platform.
 */
module ApplicationDetailModal {
  import opened Wrappers
  import opened Database
  import AllApplications
  import ApplicationForm

  /**
   * `InfoRow` draws a row only for a truthy value: present and not empty.
   * That is exactly a column the edit dialog saves back as non-null.
   */
  function ShowsInfoRow(value: Option<string>): (shown: bool)
    ensures shown <==> ApplicationForm.OrNull(ApplicationForm.OrEmpty(value)).Some?
    ensures shown ==> ApplicationForm.OrNull(ApplicationForm.OrEmpty(value)) == value
    ensures value.None? ==> !shown
  {
    value.Some? && value.value != ""
  }

  /** What the salary row shows: the "not specified" wording, or a range as the list view builds it. */
  datatype DetailSalary = NotSpecified | Amounts(display: AllApplications.SalaryDisplay)

  /** The wording of `NotSpecified`. */
  const NotSpecifiedText := "No especificado"

  /**
   * `formatSalary` of the detail view: "No especificado" whenever the salary
   * is marked as not specified, whatever the amounts; otherwise nothing when
   * both amounts are falsy, else the range, "min+" or "Hasta max" form.
   */
  function DetailFormatSalary(app: Application): (r: Option<DetailSalary>)
    ensures app.salaryNotSpecified <==> r == Some(NotSpecified)
    ensures r.None? <==> !app.salaryNotSpecified
                         && !AllApplications.Truthy(app.salaryMin) && !AllApplications.Truthy(app.salaryMax)
    ensures r.Some? && r.value.Amounts? ==> r.value.display.currency == AllApplications.CurrencyOrDefault(app.salaryCurrency)
    ensures r.Some? && r.value.Amounts? ==> r.value.display.suffix == AllApplications.PeriodSuffix(app.salaryPeriod)
  {
    if app.salaryNotSpecified then Some(NotSpecified)
    else match AllApplications.FormatSalary(app)
      case None => None
      case Some(d) => Some(Amounts(d))
  }

  /**
   * The detail view and the list view word a specified salary identically;
   * they differ only on a salary marked as not specified, which the list
   * leaves blank and the detail view spells out.
   */
  lemma DetailAgreesWithList(app: Application)
    ensures !app.salaryNotSpecified ==>
              (DetailFormatSalary(app).None? <==> AllApplications.FormatSalary(app).None?)
    ensures !app.salaryNotSpecified && DetailFormatSalary(app).Some? ==>
              DetailFormatSalary(app).value == Amounts(AllApplications.FormatSalary(app).value)
    ensures app.salaryNotSpecified ==> AllApplications.FormatSalary(app).None?
  {
  }

  /** The label of a modality in the `types` record. */
  function LocationLabel(l: LocationType): (text: string)
    ensures text != ""
  {
    match l
    case Remoto => "Remoto"
    case Presencial => "Presencial"
    case Hibrido => "Híbrido"
  }

  /** Distinct modalities get distinct labels. */
  lemma LocationLabelInjective(a: LocationType, b: LocationType)
    requires LocationLabel(a) == LocationLabel(b)
    ensures a == b
  {
  }

  /**
   * `getLocationType`: no modality row when none is stored; otherwise the
   * label of the stored modality (the record holds all three, so the
   * fallback to the raw value never applies).
   */
  function GetLocationType(app: Application): (r: Option<string>)
    ensures r.None? <==> app.locationType.None?
    ensures r.Some? ==> r.value == LocationLabel(app.locationType.value)
    ensures ShowsInfoRow(r) <==> app.locationType.Some?
  {
    match app.locationType
    case None => None
    case Some(l) => Some(LocationLabel(l))
  }

  /**
   * `getPlatformLabel`: the free-text platform when the platform is "otro"
   * and that text is non-empty; otherwise the label of the stored platform,
   * or the stored string itself when it names no known platform.
   */
  function GetPlatformLabel(app: Application): (text: string)
    ensures app.platform == "otro" && ShowsInfoRow(app.platformOther) ==> text == app.platformOther.value
    ensures !(app.platform == "otro" && ShowsInfoRow(app.platformOther)) ==> text == PlatformLabelOf(app.platform)
  {
    if app.platform == "otro" && app.platformOther.Some? && app.platformOther.value != "" then
      app.platformOther.value
    else
      PlatformLabelOf(app.platform)
  }

  /**
   * For a known platform other than "otro" the stored free text never shows;
   * for "otro" without free text the label "Otro" shows.
   */
  lemma {:induction false} KnownPlatformIgnoresOther(app: Application, p: Platform)
    requires app.platform == PlatformName(p)
    ensures p != Otro ==> GetPlatformLabel(app) == PlatformLabel(p)
    ensures p == Otro && !ShowsInfoRow(app.platformOther) ==> GetPlatformLabel(app) == "Otro"
    ensures GetPlatformLabel(app) != ""
  {
    AllPlatformsComplete();
  }
}
