/**
 * The records of the `applications` and `application_timeline` tables, the
 * enumerations the database declares, and the Spanish label tables the
 * dashboard shows for them.
 */
module Database {
  import opened Wrappers
  import opened Dates

  datatype Status =
    | Pendiente
    | EnRevision
    | TeContestaron
    | EntrevistaProgramada
    | Rechazada
    | Aceptada
    | DescartadaPorMi

  datatype Platform =
    | LinkedIn
    | Indeed
    | Computrabajo
    | OccMundial
    | Glassdoor
    | SitioEmpresa
    | EmailDirecto
    | Referido
    | Otro

  datatype Currency = USD | MXN | EUR

  datatype Period = Mensual | Anual

  datatype LocationType = Remoto | Presencial | Hibrido

  const AllStatuses: seq<Status> :=
    [Pendiente, EnRevision, TeContestaron, EntrevistaProgramada, Rechazada, Aceptada, DescartadaPorMi]

  const AllPlatforms: seq<Platform> :=
    [LinkedIn, Indeed, Computrabajo, OccMundial, Glassdoor, SitioEmpresa, EmailDirecto, Referido, Otro]

  /** The value stored in the `status` column. */
  function StatusName(s: Status): string {
    match s
    case Pendiente => "pendiente"
    case EnRevision => "en_revision"
    case TeContestaron => "te_contestaron"
    case EntrevistaProgramada => "entrevista_programada"
    case Rechazada => "rechazada"
    case Aceptada => "aceptada"
    case DescartadaPorMi => "descartada_por_mi"
  }

  /** The value stored in the `platform` column for a known platform. */
  function PlatformName(p: Platform): string {
    match p
    case LinkedIn => "linkedin"
    case Indeed => "indeed"
    case Computrabajo => "computrabajo"
    case OccMundial => "occ_mundial"
    case Glassdoor => "glassdoor"
    case SitioEmpresa => "sitio_empresa"
    case EmailDirecto => "email_directo"
    case Referido => "referido"
    case Otro => "otro"
  }

  function CurrencyName(c: Currency): string {
    match c
    case USD => "USD"
    case MXN => "MXN"
    case EUR => "EUR"
  }

  function LocationName(l: LocationType): string {
    match l
    case Remoto => "remoto"
    case Presencial => "presencial"
    case Hibrido => "hibrido"
  }

  /** Which known platform, if any, a stored `platform` string names. */
  function ParsePlatform(raw: string): (r: Option<Platform>)
    ensures r.Some? ==> PlatformName(r.value) == raw
    ensures r.None? ==> forall p :: PlatformName(p) != raw
  {
    if raw == "linkedin" then Some(LinkedIn)
    else if raw == "indeed" then Some(Indeed)
    else if raw == "computrabajo" then Some(Computrabajo)
    else if raw == "occ_mundial" then Some(OccMundial)
    else if raw == "glassdoor" then Some(Glassdoor)
    else if raw == "sitio_empresa" then Some(SitioEmpresa)
    else if raw == "email_directo" then Some(EmailDirecto)
    else if raw == "referido" then Some(Referido)
    else if raw == "otro" then Some(Otro)
    else None
  }

  /** One job application row. */
  datatype Application = Application(
    id: string,
    walletAddress: string,
    companyName: string,
    positionTitle: string,
    platform: string,               // free text in the row type, a Platform value in practice
    platformOther: Option<string>,
    applicationDate: AppDate,
    status: Status,
    salaryMin: Option<int>,
    salaryMax: Option<int>,
    salaryCurrency: Option<Currency>,
    salaryPeriod: Option<Period>,
    salaryNotSpecified: bool,
    locationType: Option<LocationType>,
    locationCity: Option<string>,
    jobUrl: Option<string>,
    personalNotes: Option<string>,
    isPriority: bool,
    createdAt: string,
    updatedAt: string)

  /** One status-change row of `application_timeline`: the old status may be null, the new one may not. */
  datatype TimelineEntry = TimelineEntry(
    id: string,
    applicationId: string,
    oldStatus: Option<Status>,
    newStatus: Status,
    notes: Option<string>,
    changedAt: string)

  /** A timeline row as inserted: the server assigns the id and the timestamp. */
  datatype TimelineInsert = TimelineInsert(
    applicationId: string,
    oldStatus: Option<Status>,
    newStatus: Status,
    notes: Option<string>)

  /** A key of an insert or update payload: left out of the object, or given a value. */
  datatype Field<+T> = Absent | Set(value: T)

  /**
   * An `applications` insert: the owner and the three descriptive fields are
   * required, every other column may be left to the database.
   */
  datatype ApplicationInsert = ApplicationInsert(
    walletAddress: string,
    companyName: string,
    positionTitle: string,
    platform: string,
    changes: Changes)

  /** An `applications` update: any subset of the editable columns; there is no id and no owner to change. */
  datatype ApplicationUpdate = ApplicationUpdate(
    companyName: Field<string>,
    positionTitle: Field<string>,
    platform: Field<string>,
    changes: Changes)

  /** The optional columns shared by inserts and updates. */
  datatype Changes = Changes(
    platformOther: Field<Option<string>>,
    applicationDate: Field<AppDate>,
    status: Field<Status>,
    salaryMin: Field<Option<int>>,
    salaryMax: Field<Option<int>>,
    salaryCurrency: Field<Option<Currency>>,
    salaryPeriod: Field<Option<Period>>,
    salaryNotSpecified: Field<bool>,
    locationType: Field<Option<LocationType>>,
    locationCity: Field<Option<string>>,
    jobUrl: Field<Option<string>>,
    personalNotes: Field<Option<string>>,
    isPriority: Field<bool>)

  const NoChanges := Changes(Absent, Absent, Absent, Absent, Absent, Absent, Absent, Absent, Absent, Absent, Absent, Absent, Absent)

  /** The patch `updateStatus` sends: `{ status }` and nothing else. */
  function StatusPatch(s: Status): (u: ApplicationUpdate)
    ensures u.changes.status == Set(s)
    ensures u.companyName.Absent? && u.positionTitle.Absent? && u.platform.Absent?
    ensures u.changes == NoChanges.(status := Set(s))
  {
    ApplicationUpdate(Absent, Absent, Absent, NoChanges.(status := Set(s)))
  }

  function Pick<T>(f: Field<T>, current: T): T {
    if f.Set? then f.value else current
  }

  /**
   * The row a store that applies `u` to `app` would return: every given
   * column takes its new value, every other column keeps its old one.
   */
  function ApplyUpdate(app: Application, u: ApplicationUpdate): (r: Application)
    ensures r.id == app.id && r.walletAddress == app.walletAddress
    ensures r.createdAt == app.createdAt
    ensures u.changes.status.Set? ==> r.status == u.changes.status.value
    ensures u.changes.status.Absent? ==> r.status == app.status
  {
    var c := u.changes;
    app.(
      companyName := Pick(u.companyName, app.companyName),
      positionTitle := Pick(u.positionTitle, app.positionTitle),
      platform := Pick(u.platform, app.platform),
      platformOther := Pick(c.platformOther, app.platformOther),
      applicationDate := Pick(c.applicationDate, app.applicationDate),
      status := Pick(c.status, app.status),
      salaryMin := Pick(c.salaryMin, app.salaryMin),
      salaryMax := Pick(c.salaryMax, app.salaryMax),
      salaryCurrency := Pick(c.salaryCurrency, app.salaryCurrency),
      salaryPeriod := Pick(c.salaryPeriod, app.salaryPeriod),
      salaryNotSpecified := Pick(c.salaryNotSpecified, app.salaryNotSpecified),
      locationType := Pick(c.locationType, app.locationType),
      locationCity := Pick(c.locationCity, app.locationCity),
      jobUrl := Pick(c.jobUrl, app.jobUrl),
      personalNotes := Pick(c.personalNotes, app.personalNotes),
      isPriority := Pick(c.isPriority, app.isPriority))
  }

  /** A status patch changes the status and nothing else. */
  lemma StatusPatchChangesOnlyStatus(app: Application, s: Status)
    ensures ApplyUpdate(app, StatusPatch(s)) == app.(status := s)
  {
  }

  /** `statusLabels`: every status has a non-empty Spanish label. */
  function StatusLabel(s: Status): (text: string)
    ensures text != ""
  {
    match s
    case Pendiente => "Pendiente"
    case EnRevision => "En Revisión"
    case TeContestaron => "Te Contestaron"
    case EntrevistaProgramada => "Entrevista Programada"
    case Rechazada => "Rechazada"
    case Aceptada => "Aceptada"
    case DescartadaPorMi => "Descartada por Mí"
  }

  /** `statusConfig[s].label`: the shorter labels of the badges and the chart legend. */
  function StatusConfigLabel(s: Status): (text: string)
    ensures text != ""
  {
    match s
    case Pendiente => "Pendiente"
    case EnRevision => "En Revisión"
    case TeContestaron => "Te Contestaron"
    case EntrevistaProgramada => "Entrevista"
    case Rechazada => "Rechazada"
    case Aceptada => "Aceptada"
    case DescartadaPorMi => "Descartada"
  }

  /** `platformLabels`: every platform has a non-empty label. */
  function PlatformLabel(p: Platform): (text: string)
    ensures text != ""
  {
    match p
    case LinkedIn => "LinkedIn"
    case Indeed => "Indeed"
    case Computrabajo => "Computrabajo"
    case OccMundial => "OCC Mundial"
    case Glassdoor => "Glassdoor"
    case SitioEmpresa => "Sitio de la Empresa"
    case EmailDirecto => "Email Directo"
    case Referido => "Referido"
    case Otro => "Otro"
  }

  /**
   * `platformLabels[raw] || raw`: the label when the stored string names a
   * known platform, the stored string itself when the lookup misses.
   */
  function PlatformLabelOf(raw: string): (text: string)
    ensures (exists p :: PlatformName(p) == raw) ==> text == PlatformLabel(ParsePlatform(raw).value)
    ensures (forall p :: PlatformName(p) != raw) ==> text == raw
  {
    match ParsePlatform(raw)
    case Some(p) => PlatformLabel(p)
    case None => raw
  }

  /** Exactly seven statuses, each listed once. */
  lemma AllStatusesComplete()
    ensures |AllStatuses| == 7
    ensures forall s :: s in AllStatuses
    ensures forall i, j :: 0 <= i < j < |AllStatuses| ==> AllStatuses[i] != AllStatuses[j]
  {
    forall s: Status ensures s in AllStatuses {
      assert s.Pendiente? || s.EnRevision? || s.TeContestaron? || s.EntrevistaProgramada?
          || s.Rechazada? || s.Aceptada? || s.DescartadaPorMi?;
    }
  }

  /** Exactly nine platforms, each listed once, and each stored name parses back to its platform. */
  lemma AllPlatformsComplete()
    ensures |AllPlatforms| == 9
    ensures forall p :: p in AllPlatforms
    ensures forall i, j :: 0 <= i < j < |AllPlatforms| ==> AllPlatforms[i] != AllPlatforms[j]
    ensures forall p :: ParsePlatform(PlatformName(p)) == Some(p)
  {
    forall p: Platform ensures p in AllPlatforms {
      assert p.LinkedIn? || p.Indeed? || p.Computrabajo? || p.OccMundial? || p.Glassdoor?
          || p.SitioEmpresa? || p.EmailDirecto? || p.Referido? || p.Otro?;
    }
  }

  /** Distinct statuses are stored as distinct strings. */
  lemma StatusNameInjective(a: Status, b: Status)
    requires StatusName(a) == StatusName(b)
    ensures a == b
  {
  }
}
