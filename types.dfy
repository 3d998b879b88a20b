/** The records and enumerations of the back office (`src/lib/types.ts`), plus the role and
    permission enumerations the pages use. Dates are kept as the ISO strings the pages write. */
module Types {

  datatype Option<T> = None | Some(value: T)

  /** The workflow statuses. In the source each member is a string; `StatusName` gives it. */
  datatype ServiceStatus =
    | STEP_1 | STEP_2 | STEP_3 | STEP_4 | STEP_5 | STEP_6
    | STEP_7 | STEP_7_WAITING | STEP_7_APPROVED | STEP_7_RECUSED | STEP_7_ALMOST
    | STEP_8 | STEP_8_CLIENT_CONFIRMED | STEP_8_CONFIRMED_BY_GOVERNMENT
    | CANCELLED | SUBMITTED | UNDER_ANALYSIS | WAITING_RESPONSE | FOR_DECISION | COMPLETED

  /** The string value of each status member. */
  function StatusName(st: ServiceStatus): string {
    match st
    case STEP_1 => "Passo 1"
    case STEP_2 => "Passo 2"
    case STEP_3 => "Passo 3"
    case STEP_4 => "Passo 4"
    case STEP_5 => "Passo 5"
    case STEP_6 => "Passo 6"
    case STEP_7 => "Passo 7"
    case STEP_7_WAITING => "Passo 7 Esperando"
    case STEP_7_APPROVED => "Passo 7 Aprovado"
    case STEP_7_RECUSED => "Passo 7 Recusado"
    case STEP_7_ALMOST => "Passo 7 Quase"
    case STEP_8 => "Passo 8"
    case STEP_8_CLIENT_CONFIRMED => "Passo 8 Confirmado pelo Cliente"
    case STEP_8_CONFIRMED_BY_GOVERNMENT => "Passo 8 Confirmado pelo Governo"
    case CANCELLED => "Cancelado"
    case SUBMITTED => "Submetido"
    case UNDER_ANALYSIS => "Em an\U{e1}lise"
    case WAITING_RESPONSE => "Aguarda resposta"
    case FOR_DECISION => "Para decis\U{e3}o"
    case COMPLETED => "Conclu\U{ed}do"
  }

  /** The enumeration member whose string value is `s`, if there is one (a stored status may be
      any string). */
  function ParseStatus(s: string): (r: Option<ServiceStatus>)
    ensures r.Some? ==> StatusName(r.value) == s
  {
    if s == "Passo 1" then Some(STEP_1)
    else if s == "Passo 2" then Some(STEP_2)
    else if s == "Passo 3" then Some(STEP_3)
    else if s == "Passo 4" then Some(STEP_4)
    else if s == "Passo 5" then Some(STEP_5)
    else if s == "Passo 6" then Some(STEP_6)
    else if s == "Passo 7" then Some(STEP_7)
    else if s == "Passo 7 Esperando" then Some(STEP_7_WAITING)
    else if s == "Passo 7 Aprovado" then Some(STEP_7_APPROVED)
    else if s == "Passo 7 Recusado" then Some(STEP_7_RECUSED)
    else if s == "Passo 7 Quase" then Some(STEP_7_ALMOST)
    else if s == "Passo 8" then Some(STEP_8)
    else if s == "Passo 8 Confirmado pelo Cliente" then Some(STEP_8_CLIENT_CONFIRMED)
    else if s == "Passo 8 Confirmado pelo Governo" then Some(STEP_8_CONFIRMED_BY_GOVERNMENT)
    else if s == "Cancelado" then Some(CANCELLED)
    else if s == "Submetido" then Some(SUBMITTED)
    else if s == "Em an\U{e1}lise" then Some(UNDER_ANALYSIS)
    else if s == "Aguarda resposta" then Some(WAITING_RESPONSE)
    else if s == "Para decis\U{e3}o" then Some(FOR_DECISION)
    else if s == "Conclu\U{ed}do" then Some(COMPLETED)
    else None
  }

  /** Every status string reads back as its member. */
  lemma ParseStatusName(st: ServiceStatus)
    ensures ParseStatus(StatusName(st)) == Some(st)
  {
    if st.STEP_1? || st.STEP_2? || st.STEP_3? || st.STEP_4? || st.STEP_5? || st.STEP_6? || st.STEP_7? {
      ParseStepName(st);
    } else if st.STEP_7_WAITING? || st.STEP_7_APPROVED? || st.STEP_7_RECUSED? || st.STEP_7_ALMOST? || st.STEP_8? {
      ParseSubStepName(st);
    } else {
      ParseLaterName(st);
    }
  }

  lemma ParseStepName(st: ServiceStatus)
    requires st.STEP_1? || st.STEP_2? || st.STEP_3? || st.STEP_4? || st.STEP_5? || st.STEP_6? || st.STEP_7?
    ensures ParseStatus(StatusName(st)) == Some(st)
  {
    match st
    case STEP_1 => case STEP_2 => case STEP_3 => case STEP_4 => case STEP_5 => case STEP_6 => case STEP_7 =>
  }

  lemma ParseSubStepName(st: ServiceStatus)
    requires st.STEP_7_WAITING? || st.STEP_7_APPROVED? || st.STEP_7_RECUSED? || st.STEP_7_ALMOST? || st.STEP_8?
    ensures ParseStatus(StatusName(st)) == Some(st)
  {
    match st
    case STEP_7_WAITING => case STEP_7_APPROVED => case STEP_7_RECUSED => case STEP_7_ALMOST => case STEP_8 =>
  }

  lemma ParseLaterName(st: ServiceStatus)
    requires !(st.STEP_1? || st.STEP_2? || st.STEP_3? || st.STEP_4? || st.STEP_5? || st.STEP_6? || st.STEP_7?)
    requires !(st.STEP_7_WAITING? || st.STEP_7_APPROVED? || st.STEP_7_RECUSED? || st.STEP_7_ALMOST? || st.STEP_8?)
    ensures ParseStatus(StatusName(st)) == Some(st)
  {
    if st.STEP_8_CLIENT_CONFIRMED? || st.STEP_8_CONFIRMED_BY_GOVERNMENT? || st.CANCELLED? || st.SUBMITTED? {
      ParseStep8Name(st);
    } else {
      ParseReviewName(st);
    }
  }

  lemma ParseStep8Name(st: ServiceStatus)
    requires st.STEP_8_CLIENT_CONFIRMED? || st.STEP_8_CONFIRMED_BY_GOVERNMENT? || st.CANCELLED? || st.SUBMITTED?
    ensures ParseStatus(StatusName(st)) == Some(st)
  {
    match st
    case STEP_8_CLIENT_CONFIRMED => case STEP_8_CONFIRMED_BY_GOVERNMENT => case CANCELLED => case SUBMITTED =>
  }

  lemma ParseReviewName(st: ServiceStatus)
    requires st.UNDER_ANALYSIS? || st.WAITING_RESPONSE? || st.FOR_DECISION? || st.COMPLETED?
    ensures ParseStatus(StatusName(st)) == Some(st)
  {
    match st
    case UNDER_ANALYSIS => case WAITING_RESPONSE => case FOR_DECISION => case COMPLETED =>
  }

  /** The twenty members have pairwise distinct strings, so status and string determine each other. */
  lemma StatusNameInjective(a: ServiceStatus, b: ServiceStatus)
    ensures StatusName(a) == StatusName(b) <==> a == b
  {
    ParseStatusName(a);
    ParseStatusName(b);
  }

  /** A stored status holds member `st` exactly when it reads back as `st`. */
  lemma StatusIs(status: Option<string>, st: ServiceStatus)
    ensures status == Some(StatusName(st)) <==> status.Some? && ParseStatus(status.value) == Some(st)
  {
    ParseStatusName(st);
  }

  // ----- records -----

  datatype User = User(
    id: string,
    fullName: string,
    firstName: Option<string>,
    lastName: Option<string>,
    areaCode: Option<string>,
    phone: Option<string>,
    email: string,
    active: bool,
    createdAt: string,
    updatedAt: Option<string>)

  datatype Person = Person(
    id: string,
    firstName: string,
    lastName: string,
    alternativeNames: Option<string>,
    profession: Option<string>,
    fatherFullName: Option<string>,
    fatherAlternativeNames: Option<string>,
    fatherBirthPlace: Option<string>,
    motherFullName: Option<string>,
    motherAlternativeNames: Option<string>,
    motherBirthPlace: Option<string>,
    civilState: Option<string>,
    nationality: Option<string>,
    birthDate: Option<string>,
    cityPlace: Option<string>,
    statePlace: Option<string>,
    countryPlace: Option<string>,
    gender: Option<string>,
    residenceCountries: Option<string>,
    userId: string,
    createdAt: string,
    updatedAt: Option<string>)

  datatype Address = Address(
    id: string,
    street: Option<string>,
    number: Option<string>,
    complement: Option<string>,
    city: Option<string>,
    state: Option<string>,
    country: Option<string>,
    postalCode: Option<string>,
    serviceId: string,
    createdAt: string,
    updatedAt: Option<string>)

  datatype DocumentType =
    IDENTITY | BIRTH_CERTIFICATE | CRIMINAL_RECORD | RESIDENCE_TITLE | MARRIAGE_CERTIFICATE | OTHER

  datatype Document = Document(
    id: string,
    name: string,
    url: string,
    docType: Option<string>,
    size: Option<nat>,
    uploadedAt: string,
    serviceId: string)

  datatype DocumentAttorney = DocumentAttorney(
    id: string,
    name: string,
    url: string,
    docType: Option<string>,
    uploadedAt: string,
    serviceId: string)

  /** A service request. `status` may be absent or any string, not only a `ServiceStatus`
      value; `isPaidTax` and `isPaidGovernment` are the only mandatory workflow fields. */
  datatype Service = Service(
    id: string,
    status: Option<string>,
    processNumber: Option<string>,
    processPassword: Option<string>,
    entity: Option<string>,
    reference: Option<string>,
    assignedAt: Option<string>,
    isPaidTax: bool,
    paidTaxAt: Option<string>,
    isPaidGovernment: bool,
    paidGovernmentAt: Option<string>,
    paymentReferenceId: Option<string>,
    hasResidenceTitle: Option<bool>,
    hasBirthCertificate: Option<bool>,
    hasCriminalRecord: Option<bool>,
    hasIdentificationDocument: Option<bool>,
    hasBrasilianCriminalRecord: Option<bool>,
    documentPromotion: Option<bool>,
    refuseJustification: Option<string>,
    almostJustification: Option<string>,
    sendSolicitationDate: Option<string>,
    submissionDate: Option<string>,
    createdAt: string,
    updatedAt: Option<string>,
    userId: string,
    personId: Option<string>,
    user: User,
    person: Option<Person>,
    address: Option<Address>,
    documents: Option<seq<Document>>,
    documentsAttorney: Option<seq<DocumentAttorney>>)

  /** `ServiceWithRelations`: a service whose person and both document lists are present. */
  predicate WithRelations(s: Service) {
    s.person.Some? && s.documents.Some? && s.documentsAttorney.Some?
  }

  /** The kind of a lawyer action. */
  datatype LawyerActionType = Approve | Refuse | Almost | AddIrnData

  function LawyerActionName(t: LawyerActionType): string {
    match t
    case Approve => "approve"
    case Refuse => "refuse"
    case Almost => "almost"
    case AddIrnData => "add_irn_data"
  }

  /** The string literal type `"approve" | "refuse" | "almost" | "add_irn_data"`: exactly
      these four strings are action kinds. */
  function ParseLawyerActionType(s: string): (r: Option<LawyerActionType>)
    ensures r.Some? <==> s in {"approve", "refuse", "almost", "add_irn_data"}
    ensures r.Some? ==> LawyerActionName(r.value) == s
  {
    if s == "approve" then Some(Approve)
    else if s == "refuse" then Some(Refuse)
    else if s == "almost" then Some(Almost)
    else if s == "add_irn_data" then Some(AddIrnData)
    else None
  }

  lemma {:induction false} LawyerActionRoundTrip(t: LawyerActionType)
    ensures ParseLawyerActionType(LawyerActionName(t)) == Some(t)
  {
    match t
    case Approve => case Refuse => case Almost => case AddIrnData =>
  }

  datatype LawyerAction = LawyerAction(
    actionType: LawyerActionType,
    serviceId: string,
    notes: Option<string>,
    processNumber: Option<string>,
    entity: Option<string>,
    reference: Option<string>)

  // ----- roles and permissions (imported by the pages from the same module) -----

  /** The four roles: `ROLE_LABELS` is a `Record<UserRole, …>` with exactly these keys. */
  datatype UserRole = ADMIN | BACKOFFICE | ADVOGADA | VISUALIZADOR

  /** The permission tokens: `PERMISSION_LABELS` is a `Record<Permission, …>` with exactly these keys. */
  datatype Permission =
    | VIEW_SERVICES | CREATE_SERVICE | EDIT_SERVICE | DELETE_SERVICE | CHANGE_STATUS
    | VIEW_DOCUMENTS | UPLOAD_DOCUMENTS | DELETE_DOCUMENTS
    | VIEW_USERS | MANAGE_USERS
    | VIEW_ALL_SERVICES | ASSIGN_SERVICES | VIEW_STATISTICS | EXPORT_DATA
    | ACCESS_STEP_1 | ACCESS_STEP_2 | ACCESS_STEP_3 | ACCESS_STEP_4 | ACCESS_STEP_5
    | ACCESS_STEP_6 | ACCESS_STEP_7 | ACCESS_STEP_8
    | ACCESS_CANCELLED | ACCESS_SUBMITTED | ACCESS_UNDER_ANALYSIS
    | ACCESS_WAITING_RESPONSE | ACCESS_FOR_DECISION | ACCESS_COMPLETED

  /** Every role, as the keys of `ROLE_LABELS` enumerate them. */
  const AllRoles: seq<UserRole> := [ADMIN, BACKOFFICE, ADVOGADA, VISUALIZADOR]

  lemma EveryRoleListed(r: UserRole)
    ensures r in AllRoles
  {
    match r
    case ADMIN => case BACKOFFICE => case ADVOGADA => case VISUALIZADOR =>
  }

  /** A role-to-permissions record with an entry for every role, as `ROLE_PERMISSIONS` is
      declared. Its contents are not part of this model: it is always a parameter. */
  type RolePermissionTable = UserRole -> seq<Permission>

  /** The logged-in user record the pages read and write. */
  datatype AuthUser = AuthUser(
    id: string,
    fullName: string,
    email: string,
    password: string,
    role: UserRole,
    active: bool,
    createdAt: string)
}
