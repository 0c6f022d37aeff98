/** The record shapes of the incident-reporting application (types.ts). */
module Types {

  datatype Option<+T> = None | Some(value: T) {
    /** The wrapped value, or `default` when there is none. */
    function GetOr(default: T): T {
      match this
      case Some(v) => v
      case None => default
    }
  }

  /** The six stored statuses of a notification (`NotificationStatus`). */
  datatype Status = Pending | SentToArea | Analyzing | Completed | Overdue | Archived

  /** `IncidentClassification`. */
  datatype Classification =
    | NonConformity
    | RiskCircumstance
    | NotApplicable
    | NoHarmIncident
    | HarmIncident
    | NearMiss

  /** The six damage grades, from none and not applicable up to death. */
  datatype DamageGrade = Grave | Leve | Moderado | NaoSeAplica | Nenhum | Obito

  datatype Origin = Portal | QrCode | Manual

  datatype Period = DayShift | NightShift

  datatype YesNo = Sim | Nao

  /** One cause/details pair of the Ishikawa diagram. */
  datatype IshikawaDetails = IshikawaDetails(cause: string, details: string)

  /** The six Ishikawa (6M) categories. */
  datatype Ishikawa = Ishikawa(
    maoDeObra: IshikawaDetails,
    maquinas: IshikawaDetails,
    materiais: IshikawaDetails,
    metodos: IshikawaDetails,
    ambiente: IshikawaDetails,
    medida: IshikawaDetails)

  /** The 5W2H action plan plus its objective. */
  datatype ActionPlan = ActionPlan(
    what: string, how: string, why: string, who: string,
    where: string, when: string, cost: string, objective: string)

  /** The fields the public intake form collects and submits. */
  datatype IntakeData = IntakeData(
    origin: Origin,
    incidentDate: string,
    notificationDate: string,
    period: Period,
    reportingSector: string,
    notifiedSector: string,
    incidentType: string,
    classification: Classification,
    damageGrade: DamageGrade,
    identificationMethod: string,
    description: string,
    carePhase: string,
    patientRA: string,
    patientName: string,
    patientDOB: string,
    month: string,
    year: int,
    professionalCategory: string,
    notivisaNotified: YesNo,
    onaNotified: YesNo)

  /** An incident report. `deadline` is a UTC day number (days since the epoch). */
  datatype Notification = Notification(
    id: string,
    notificationNumber: int,
    origin: Origin,
    month: string,
    year: int,
    incidentDate: string,
    notificationDate: string,
    period: Period,
    reportingSector: string,
    notifiedSector: string,
    patientRA: string,
    patientName: string,
    patientDOB: string,
    incidentType: string,
    classification: Classification,
    damageGrade: DamageGrade,
    carePhase: string,
    identificationMethod: string,
    description: string,
    professionalCategory: string,
    isSentToArea: bool,
    farmacoHemoTecno: Option<string>,
    involvedPeople: Option<string>,
    deadline: Option<int>,
    status: Status,
    ishikawa: Option<Ishikawa>,
    actionPlan: Option<ActionPlan>,
    protocolLondonRequired: Option<bool>,
    protocolLondonLink: Option<string>,
    notivisaNotified: YesNo,
    onaNotified: YesNo,
    createdAt: int,
    priorityRequested: Option<bool>,
    closedWithoutAction: Option<bool>)

  /** The submitted form fields carried by a notification. */
  function IntakeOf(n: Notification): IntakeData {
    IntakeData(n.origin, n.incidentDate, n.notificationDate, n.period, n.reportingSector,
               n.notifiedSector, n.incidentType, n.classification, n.damageGrade,
               n.identificationMethod, n.description, n.carePhase, n.patientRA, n.patientName,
               n.patientDOB, n.month, n.year, n.professionalCategory, n.notivisaNotified,
               n.onaNotified)
  }

  datatype Sector = Sector(id: string, name: string, active: bool)

  datatype Role = Role(id: string, name: string, permissions: seq<string>)

  /** `role` holds a role name and `sectors` holds sector names. */
  datatype User = User(id: string, name: string, email: string, role: string,
                       sectors: seq<string>, active: bool)

  /** The month labels of the catalogue, as stored in `Notification.month`. */
  const Months: seq<string> :=
    ["jan.", "fev.", "mar.", "abr.", "mai.", "jun.",
     "jul.", "ago.", "set.", "out.", "nov.", "dez."]

  /** Milliseconds in one day. */
  const DayMs: int := 86400000
}
