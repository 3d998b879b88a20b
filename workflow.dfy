/** The action workflow of the service modal (`src/components/pedidos/service-modal.tsx`).
    Each handler writes the status and its payload fields in one `updateService` call; the
    handlers themselves never look at the current status: only the buttons' `disabled` and
    visibility conditions do. This module holds the pure part: the update the handlers send,
    the buttons' enabling conditions, and the guarded transition built from both. */
module ServiceWorkflow {
  import opened Types

  // ----- the assumed `updateService` -----

  /** The fields a handler may send to `updateService`; `None` means "not supplied". */
  datatype Patch = Patch(
    status: Option<ServiceStatus>,
    almostJustification: Option<string>,
    entity: Option<string>,
    reference: Option<string>,
    isPaidGovernment: Option<bool>,
    paidGovernmentAt: Option<string>,
    processNumber: Option<string>,
    processPassword: Option<string>,
    submissionDate: Option<string>,
    person: Option<Person>)

  const NoChange := Patch(None, None, None, None, None, None, None, None, None, None)

  function Pick<T>(supplied: Option<T>, current: T): T {
    if supplied.Some? then supplied.value else current
  }

  function PickSome<T>(supplied: Option<T>, current: Option<T>): Option<T> {
    if supplied.Some? then Some(supplied.value) else current
  }

  /** `updateService(id, patch)` on the record with that id. The context that implements it is
      not part of this model; it is assumed to overwrite the supplied fields and keep the
      others, and to store the status member as its string. */
  function ApplyUpdate(s: Service, u: Patch): (r: Service)
    ensures r.status == if u.status.Some? then Some(StatusName(u.status.value)) else s.status
    ensures r.almostJustification == if u.almostJustification.Some? then u.almostJustification else s.almostJustification
    ensures r.entity == if u.entity.Some? then u.entity else s.entity
    ensures r.reference == if u.reference.Some? then u.reference else s.reference
    ensures r.isPaidGovernment == if u.isPaidGovernment.Some? then u.isPaidGovernment.value else s.isPaidGovernment
    ensures r.paidGovernmentAt == if u.paidGovernmentAt.Some? then u.paidGovernmentAt else s.paidGovernmentAt
    ensures r.processNumber == if u.processNumber.Some? then u.processNumber else s.processNumber
    ensures r.processPassword == if u.processPassword.Some? then u.processPassword else s.processPassword
    ensures r.submissionDate == if u.submissionDate.Some? then u.submissionDate else s.submissionDate
    ensures r.person == if u.person.Some? then u.person else s.person
    // and every field that is not a workflow field is kept
    ensures r == s.(status := r.status, almostJustification := r.almostJustification, entity := r.entity,
                    reference := r.reference, isPaidGovernment := r.isPaidGovernment,
                    paidGovernmentAt := r.paidGovernmentAt, processNumber := r.processNumber,
                    processPassword := r.processPassword, submissionDate := r.submissionDate,
                    person := r.person)
  {
    s.(status := if u.status.Some? then Some(StatusName(u.status.value)) else s.status,
       almostJustification := PickSome(u.almostJustification, s.almostJustification),
       entity := PickSome(u.entity, s.entity),
       reference := PickSome(u.reference, s.reference),
       isPaidGovernment := Pick(u.isPaidGovernment, s.isPaidGovernment),
       paidGovernmentAt := PickSome(u.paidGovernmentAt, s.paidGovernmentAt),
       processNumber := PickSome(u.processNumber, s.processNumber),
       processPassword := PickSome(u.processPassword, s.processPassword),
       submissionDate := PickSome(u.submissionDate, s.submissionDate),
       person := PickSome(u.person, s.person))
  }

  /** The workflow fields of a service record. */
  datatype Field =
    | StatusField | AlmostJustificationField | EntityField | ReferenceField | IsPaidGovernmentField
    | PaidGovernmentAtField | ProcessNumberField | ProcessPasswordField | SubmissionDateField | PersonField

  /** `b` agrees with `a` on every field outside `fs`. */
  predicate SameExcept(a: Service, b: Service, fs: set<Field>) {
    && (StatusField !in fs ==> b.status == a.status)
    && (AlmostJustificationField !in fs ==> b.almostJustification == a.almostJustification)
    && (EntityField !in fs ==> b.entity == a.entity)
    && (ReferenceField !in fs ==> b.reference == a.reference)
    && (IsPaidGovernmentField !in fs ==> b.isPaidGovernment == a.isPaidGovernment)
    && (PaidGovernmentAtField !in fs ==> b.paidGovernmentAt == a.paidGovernmentAt)
    && (ProcessNumberField !in fs ==> b.processNumber == a.processNumber)
    && (ProcessPasswordField !in fs ==> b.processPassword == a.processPassword)
    && (SubmissionDateField !in fs ==> b.submissionDate == a.submissionDate)
    && (PersonField !in fs ==> b.person == a.person)
    // and every field that is not a workflow field is the same too
    && b == a.(status := b.status, almostJustification := b.almostJustification, entity := b.entity,
               reference := b.reference, isPaidGovernment := b.isPaidGovernment,
               paidGovernmentAt := b.paidGovernmentAt, processNumber := b.processNumber,
               processPassword := b.processPassword, submissionDate := b.submissionDate,
               person := b.person)
  }

  /** An update supplying nothing leaves the record as it is. */
  lemma NoChangeKeepsRecord(s: Service)
    ensures ApplyUpdate(s, NoChange) == s
  {
  }

  /** Sending the same update twice is the same as sending it once. */
  lemma ApplyUpdateIdempotent(s: Service, u: Patch)
    ensures ApplyUpdate(ApplyUpdate(s, u), u) == ApplyUpdate(s, u)
  {
  }

  // ----- JavaScript's `trim`, for ASCII whitespace -----

  predicate IsSpace(c: char) {
    c == ' ' || c == '\t' || c == '\n' || c == '\r' || c == '\U{b}' || c == '\U{c}'
  }

  /** `s.trimStart()`: the suffix left after dropping the leading whitespace. */
  function TrimStart(s: string): (r: string)
    ensures |r| <= |s| && r == s[|s| - |r|..]
    ensures forall i :: 0 <= i < |s| - |r| ==> IsSpace(s[i])
    ensures r == [] || !IsSpace(r[0])
  {
    if |s| == 0 || !IsSpace(s[0]) then s else TrimStart(s[1..])
  }

  /** `s.trimEnd()`: the prefix left after dropping the trailing whitespace. */
  function TrimEnd(s: string): (r: string)
    ensures |r| <= |s| && r == s[..|r|]
    ensures forall i :: |r| <= i < |s| ==> IsSpace(s[i])
    ensures r == [] || !IsSpace(r[|r| - 1])
  {
    if |s| == 0 || !IsSpace(s[|s| - 1]) then s else TrimEnd(s[..|s| - 1])
  }

  function Trim(s: string): string {
    TrimEnd(TrimStart(s))
  }

  /** `!s.trim()`: the note is empty or only whitespace. */
  predicate IsBlank(s: string) {
    Trim(s) == ""
  }

  /** A string is blank exactly when every character of it is whitespace. */
  lemma BlankIffAllSpace(s: string)
    ensures IsBlank(s) <==> forall i :: 0 <= i < |s| ==> IsSpace(s[i])
  {
  }

  /** An `<Input maxLength={n}>`: typing stops at `n` characters. */
  function ClampToMaxLength(s: string, n: nat): (r: string)
    ensures |r| <= n
    ensures |s| <= n ==> r == s
    ensures |s| > n ==> r == s[..n]
  {
    if |s| <= n then s else s[..n]
  }

  /** The IRN form's limits: the entity has 5 digits, the reference 9 digits plus two spaces. */
  const EntityMaxLength: nat := 5
  const ReferenceMaxLength: nat := 11

  // ----- the handlers' effect on the record -----

  /** `handleApprove`: the status becomes STEP_7_APPROVED and nothing else changes. */
  function Approved(s: Service): (r: Service)
    ensures r.status == Some(StatusName(STEP_7_APPROVED))
    ensures SameExcept(s, r, {StatusField})
  {
    ApplyUpdate(s, NoChange.(status := Some(STEP_7_APPROVED)))
  }

  /** `handleAlmost`: a blank note sends nothing; otherwise the status becomes STEP_7_ALMOST and
      the justification the untrimmed note, in one update. */
  function MarkedAlmost(s: Service, note: string): (r: Service)
    ensures IsBlank(note) ==> r == s
    ensures !IsBlank(note) ==>
      && r.status == Some(StatusName(STEP_7_ALMOST))
      && r.almostJustification == Some(note)
      && SameExcept(s, r, {StatusField, AlmostJustificationField})
  {
    if IsBlank(note) then s
    else ApplyUpdate(s, NoChange.(status := Some(STEP_7_ALMOST), almostJustification := Some(note)))
  }

  /** `handleAddIRN`: with an empty entity or reference nothing is sent; otherwise both are stored
      and the status becomes STEP_8, in one update. */
  function WithIrnData(s: Service, entity: string, reference: string): (r: Service)
    ensures entity == "" || reference == "" ==> r == s
    ensures entity != "" && reference != "" ==>
      && r.entity == Some(entity) && r.reference == Some(reference)
      && r.status == Some(StatusName(STEP_8))
      && SameExcept(s, r, {EntityField, ReferenceField, StatusField})
  {
    if entity == "" || reference == "" then s
    else ApplyUpdate(s, NoChange.(entity := Some(entity), reference := Some(reference), status := Some(STEP_8)))
  }

  /** The inline "simulate payment" button: the status becomes STEP_8_CLIENT_CONFIRMED. */
  function PaymentSimulated(s: Service): (r: Service)
    ensures r.status == Some(StatusName(STEP_8_CLIENT_CONFIRMED))
    ensures SameExcept(s, r, {StatusField})
  {
    ApplyUpdate(s, NoChange.(status := Some(STEP_8_CLIENT_CONFIRMED)))
  }

  /** `handleConfirmGovernment`: status, paid flag and payment time in one update. */
  function GovernmentConfirmed(s: Service, now: string): (r: Service)
    ensures r.status == Some(StatusName(STEP_8_CONFIRMED_BY_GOVERNMENT))
    ensures r.isPaidGovernment && r.paidGovernmentAt == Some(now)
    ensures SameExcept(s, r, {StatusField, IsPaidGovernmentField, PaidGovernmentAtField})
  {
    ApplyUpdate(s, NoChange.(status := Some(STEP_8_CONFIRMED_BY_GOVERNMENT), isPaidGovernment := Some(true),
                             paidGovernmentAt := Some(now)))
  }

  /** `handleSubmitProcess`: with an empty number or password nothing is sent; otherwise both,
      the status SUBMITTED and the submission time are stored in one update. */
  function ProcessSubmitted(s: Service, number: string, password: string, now: string): (r: Service)
    ensures number == "" || password == "" ==> r == s
    ensures number != "" && password != "" ==>
      && r.processNumber == Some(number) && r.processPassword == Some(password)
      && r.status == Some(StatusName(SUBMITTED)) && r.submissionDate == Some(now)
      && SameExcept(s, r, {ProcessNumberField, ProcessPasswordField, StatusField, SubmissionDateField})
  {
    if number == "" || password == "" then s
    else ApplyUpdate(s, NoChange.(processNumber := Some(number), processPassword := Some(password),
                                  status := Some(SUBMITTED), submissionDate := Some(now)))
  }

  // ----- the client edit form -----

  /** The seven editable person fields, as the form holds them. */
  datatype ClientForm = ClientForm(
    firstName: string,
    lastName: string,
    profession: string,
    nationality: string,
    birthDate: string,
    fatherFullName: string,
    motherFullName: string)

  /** `value || ""`. */
  function OrEmpty(v: Option<string>): string {
    if v.Some? then v.value else ""
  }

  /** The form's initial values, `service?.person?.field || ""`. */
  function ClientFormOf(s: Service): (f: ClientForm)
    ensures s.person.None? ==> f == ClientForm("", "", "", "", "", "", "")
    ensures s.person.Some? ==>
      var p := s.person.value;
      f == ClientForm(p.firstName, p.lastName, OrEmpty(p.profession), OrEmpty(p.nationality), OrEmpty(p.birthDate),
                      OrEmpty(p.fatherFullName), OrEmpty(p.motherFullName))
  {
    if s.person.None? then ClientForm("", "", "", "", "", "", "")
    else
      var p := s.person.value;
      ClientForm(p.firstName, p.lastName, OrEmpty(p.profession), OrEmpty(p.nationality), OrEmpty(p.birthDate),
                 OrEmpty(p.fatherFullName), OrEmpty(p.motherFullName))
  }

  /** `{...person, ...editableClient}`: the seven fields come from the form (an optional field
      gets the form's string, even an empty one) and every other person field is kept. */
  function Merged(p: Person, f: ClientForm): (q: Person)
    ensures q.firstName == f.firstName && q.lastName == f.lastName
    ensures q.profession == Some(f.profession) && q.nationality == Some(f.nationality)
    ensures q.birthDate == Some(f.birthDate)
    ensures q.fatherFullName == Some(f.fatherFullName) && q.motherFullName == Some(f.motherFullName)
    ensures q == p.(firstName := q.firstName, lastName := q.lastName, profession := q.profession,
                    nationality := q.nationality, birthDate := q.birthDate,
                    fatherFullName := q.fatherFullName, motherFullName := q.motherFullName)
  {
    p.(firstName := f.firstName, lastName := f.lastName, profession := Some(f.profession),
       nationality := Some(f.nationality), birthDate := Some(f.birthDate),
       fatherFullName := Some(f.fatherFullName), motherFullName := Some(f.motherFullName))
  }

  /** `handleSaveClientEdit`: without a person nothing is sent; otherwise only the person changes,
      to the merge of the stored person and the form. */
  function ClientEdited(s: Service, f: ClientForm): (r: Service)
    ensures s.person.None? ==> r == s
    ensures s.person.Some? ==> r.person == Some(Merged(s.person.value, f)) && SameExcept(s, r, {PersonField})
  {
    if s.person.None? then s else ApplyUpdate(s, NoChange.(person := Some(Merged(s.person.value, f))))
  }

  /** Saving the form as it was loaded keeps the names and turns each absent optional field into
      an empty string rather than leaving it absent. */
  lemma UneditedSaveFillsEmptyStrings(s: Service)
    requires s.person.Some? && s.person.value.profession.None?
    ensures ClientEdited(s, ClientFormOf(s)).person.value.firstName == s.person.value.firstName
    ensures ClientEdited(s, ClientFormOf(s)).person.value.profession == Some("")
  {
  }

  // ----- the buttons' enabling conditions -----

  /** Whether the stored status is the member `st` (`service.status === ServiceStatus.X`). */
  predicate StatusEquals(status: Option<string>, st: ServiceStatus) {
    status == Some(StatusName(st))
  }

  /** The "Aprovar" and "Quase Lá" buttons: disabled exactly at STEP_7_APPROVED and STEP_8;
      enabled for every other status, an unknown string or no status at all. */
  predicate ReviewEnabled(status: Option<string>) {
    !(StatusEquals(status, STEP_7_APPROVED) || StatusEquals(status, STEP_8))
  }

  /** The "Dados IRN" button: enabled only at STEP_7_APPROVED. */
  predicate IrnEnabled(status: Option<string>) {
    StatusEquals(status, STEP_7_APPROVED)
  }

  /** The "Simular Pagamento" button: shown only at STEP_8. */
  predicate PaymentOffered(status: Option<string>) {
    StatusEquals(status, STEP_8)
  }

  /** The "Governo Confirmou" button: enabled only at STEP_8_CLIENT_CONFIRMED. */
  predicate GovernmentEnabled(status: Option<string>) {
    StatusEquals(status, STEP_8_CLIENT_CONFIRMED)
  }

  /** The "Processo e Senha" button: enabled only at STEP_8_CONFIRMED_BY_GOVERNMENT. */
  predicate ProcessEnabled(status: Option<string>) {
    StatusEquals(status, STEP_8_CONFIRMED_BY_GOVERNMENT)
  }

  /** The review buttons, read through the enumeration: disabled exactly when the status string
      is that of STEP_7_APPROVED or STEP_8. */
  lemma ReviewEnabledByMember(status: Option<string>)
    ensures ReviewEnabled(status) <==>
      status.None? || ParseStatus(status.value) !in {Some(STEP_7_APPROVED), Some(STEP_8)}
  {
    StatusIs(status, STEP_7_APPROVED);
    StatusIs(status, STEP_8);
  }

  /** The single-status buttons, read through the enumeration. */
  lemma SingleStatusButtonsByMember(status: Option<string>)
    ensures IrnEnabled(status) <==> status.Some? && ParseStatus(status.value) == Some(STEP_7_APPROVED)
    ensures PaymentOffered(status) <==> status.Some? && ParseStatus(status.value) == Some(STEP_8)
    ensures GovernmentEnabled(status) <==> status.Some? && ParseStatus(status.value) == Some(STEP_8_CLIENT_CONFIRMED)
    ensures ProcessEnabled(status) <==> status.Some? && ParseStatus(status.value) == Some(STEP_8_CONFIRMED_BY_GOVERNMENT)
  {
    StatusIs(status, STEP_7_APPROVED);
    StatusIs(status, STEP_8);
    StatusIs(status, STEP_8_CLIENT_CONFIRMED);
    StatusIs(status, STEP_8_CONFIRMED_BY_GOVERNMENT);
  }

  /** At most one of the four forward buttons is enabled at a time. */
  lemma ForwardButtonsExclusive(status: Option<string>)
    ensures IrnEnabled(status) ==> !PaymentOffered(status) && !GovernmentEnabled(status) && !ProcessEnabled(status)
    ensures PaymentOffered(status) ==> !GovernmentEnabled(status) && !ProcessEnabled(status)
    ensures GovernmentEnabled(status) ==> !ProcessEnabled(status)
  {
    StatusNameInjective(STEP_7_APPROVED, STEP_8);
    StatusNameInjective(STEP_7_APPROVED, STEP_8_CLIENT_CONFIRMED);
    StatusNameInjective(STEP_7_APPROVED, STEP_8_CONFIRMED_BY_GOVERNMENT);
    StatusNameInjective(STEP_8, STEP_8_CLIENT_CONFIRMED);
    StatusNameInjective(STEP_8, STEP_8_CONFIRMED_BY_GOVERNMENT);
    StatusNameInjective(STEP_8_CLIENT_CONFIRMED, STEP_8_CONFIRMED_BY_GOVERNMENT);
  }

  // ----- the guarded transition -----

  /** A click on an action button, with what the form holds at that moment. */
  datatype Action =
    | ApproveClick
    | AlmostClick(note: string)
    | IrnClick(entity: string, reference: string)
    | PaymentClick
    | GovernmentClick(now: string)
    | ProcessClick(number: string, password: string, now: string)

  /** Whether the action's button can be clicked at this status. */
  predicate Enabled(status: Option<string>, a: Action) {
    match a
    case ApproveClick => ReviewEnabled(status)
    case AlmostClick(_) => ReviewEnabled(status)
    case IrnClick(_, _) => IrnEnabled(status)
    case PaymentClick => PaymentOffered(status)
    case GovernmentClick(_) => GovernmentEnabled(status)
    case ProcessClick(_, _, _) => ProcessEnabled(status)
  }

  /** What the action's handler does, whatever the status. */
  function Handle(s: Service, a: Action): Service {
    match a
    case ApproveClick => Approved(s)
    case AlmostClick(note) => MarkedAlmost(s, note)
    case IrnClick(entity, reference) => WithIrnData(s, entity, reference)
    case PaymentClick => PaymentSimulated(s)
    case GovernmentClick(now) => GovernmentConfirmed(s, now)
    case ProcessClick(number, password, now) => ProcessSubmitted(s, number, password, now)
  }

  /** A click through the interface: a disabled (or hidden) button does nothing. */
  function Step(s: Service, a: Action): (r: Service)
    ensures !Enabled(s.status, a) ==> r == s
    ensures Enabled(s.status, a) ==> r == Handle(s, a)
  {
    if Enabled(s.status, a) then Handle(s, a) else s
  }

  /** A sequence of clicks, in order. */
  function Run(s: Service, actions: seq<Action>): Service
    decreases |actions|
  {
    if |actions| == 0 then s else Run(Step(s, actions[0]), actions[1..])
  }

  /** Every workflow field. */
  const WorkflowFields: set<Field> :=
    {StatusField, AlmostJustificationField, EntityField, ReferenceField, IsPaidGovernmentField,
     PaidGovernmentAtField, ProcessNumberField, ProcessPasswordField, SubmissionDateField, PersonField}

  lemma StepKeepsOtherFields(s: Service, a: Action)
    ensures SameExcept(s, Step(s, a), WorkflowFields)
  {
  }

  lemma SameExceptTransitive(a: Service, b: Service, c: Service)
    requires SameExcept(a, b, WorkflowFields) && SameExcept(b, c, WorkflowFields)
    ensures SameExcept(a, c, WorkflowFields)
  {
  }

  /** Whatever the clicks, the fields outside the workflow (the applicant, the documents, the
      tax payment, the dates of creation) are never changed. */
  lemma {:induction false} RunKeepsOtherFields(s: Service, actions: seq<Action>)
    ensures SameExcept(s, Run(s, actions), WorkflowFields)
    decreases |actions|
  {
    if |actions| > 0 {
      var s1 := Step(s, actions[0]);
      StepKeepsOtherFields(s, actions[0]);
      RunKeepsOtherFields(s1, actions[1..]);
      SameExceptTransitive(s, s1, Run(s1, actions[1..]));
    }
  }

  // ----- what the buttons keep -----

  /** Entity and reference are both stored and non-empty. */
  predicate HasIrnData(s: Service) {
    s.entity.Some? && s.entity.value != "" && s.reference.Some? && s.reference.value != ""
  }

  /** Process number and password are both stored and non-empty. */
  predicate HasProcessData(s: Service) {
    s.processNumber.Some? && s.processNumber.value != "" && s.processPassword.Some? && s.processPassword.value != ""
  }

  /** STEP_8 or one of the statuses the buttons lead to from it. */
  predicate PastIrn(status: Option<string>) {
    StatusEquals(status, STEP_8) || StatusEquals(status, STEP_8_CLIENT_CONFIRMED)
    || StatusEquals(status, STEP_8_CONFIRMED_BY_GOVERNMENT) || StatusEquals(status, SUBMITTED)
  }

  /** The stage data a record carries for its status: IRN data from STEP_8 on, the government
      payment once confirmed, the process data once submitted, and process data only on top of
      the IRN data and the government payment. */
  predicate PhaseInv(s: Service) {
    && (PastIrn(s.status) ==> HasIrnData(s))
    && (StatusEquals(s.status, STEP_8_CONFIRMED_BY_GOVERNMENT) ==> s.isPaidGovernment)
    && (StatusEquals(s.status, SUBMITTED) ==> HasProcessData(s))
    && (HasProcessData(s) ==> HasIrnData(s) && s.isPaidGovernment)
  }

  /** A STEP_7 status is not one of the statuses past the IRN step. */
  lemma Step7NotPastIrn(st: ServiceStatus)
    requires st == STEP_7 || st == STEP_7_APPROVED || st == STEP_7_ALMOST
    ensures !PastIrn(Some(StatusName(st)))
    ensures !StatusEquals(Some(StatusName(st)), STEP_8_CONFIRMED_BY_GOVERNMENT)
    ensures !StatusEquals(Some(StatusName(st)), SUBMITTED)
  {
    StatusNameInjective(st, STEP_8);
    StatusNameInjective(st, STEP_8_CLIENT_CONFIRMED);
    StatusNameInjective(st, STEP_8_CONFIRMED_BY_GOVERNMENT);
    StatusNameInjective(st, SUBMITTED);
  }

  lemma ReviewKeepsPhaseInv(s: Service, note: string)
    requires PhaseInv(s)
    ensures PhaseInv(Approved(s)) && PhaseInv(MarkedAlmost(s, note))
  {
    Step7NotPastIrn(STEP_7_APPROVED);
    Step7NotPastIrn(STEP_7_ALMOST);
  }

  lemma IrnKeepsPhaseInv(s: Service, entity: string, reference: string)
    requires PhaseInv(s)
    ensures PhaseInv(WithIrnData(s, entity, reference))
  {
    StatusNameInjective(STEP_8, STEP_8_CONFIRMED_BY_GOVERNMENT);
    StatusNameInjective(STEP_8, SUBMITTED);
  }

  lemma PaymentKeepsPhaseInv(s: Service)
    requires PhaseInv(s) && PaymentOffered(s.status)
    ensures PhaseInv(PaymentSimulated(s))
  {
    StatusNameInjective(STEP_8_CLIENT_CONFIRMED, STEP_8_CONFIRMED_BY_GOVERNMENT);
    StatusNameInjective(STEP_8_CLIENT_CONFIRMED, SUBMITTED);
  }

  lemma GovernmentKeepsPhaseInv(s: Service, now: string)
    requires PhaseInv(s) && GovernmentEnabled(s.status)
    ensures PhaseInv(GovernmentConfirmed(s, now))
  {
    StatusNameInjective(STEP_8_CONFIRMED_BY_GOVERNMENT, SUBMITTED);
  }

  lemma ProcessKeepsPhaseInv(s: Service, number: string, password: string, now: string)
    requires PhaseInv(s) && ProcessEnabled(s.status)
    ensures PhaseInv(ProcessSubmitted(s, number, password, now))
  {
  }

  /** A click through an enabled button keeps the stage data in step with the status. */
  lemma StepKeepsPhaseInv(s: Service, a: Action)
    requires PhaseInv(s)
    ensures PhaseInv(Step(s, a))
  {
    if Enabled(s.status, a) {
      match a
      case ApproveClick => ReviewKeepsPhaseInv(s, "");
      case AlmostClick(note) => ReviewKeepsPhaseInv(s, note);
      case IrnClick(entity, reference) => IrnKeepsPhaseInv(s, entity, reference);
      case PaymentClick => PaymentKeepsPhaseInv(s);
      case GovernmentClick(now) => GovernmentKeepsPhaseInv(s, now);
      case ProcessClick(number, password, now) => ProcessKeepsPhaseInv(s, number, password, now);
    }
  }

  /** Whatever the clicks, a record whose stage data matches its status keeps it that way. */
  lemma {:induction false} RunKeepsPhaseInv(s: Service, actions: seq<Action>)
    requires PhaseInv(s)
    ensures PhaseInv(Run(s, actions))
    decreases |actions|
  {
    if |actions| > 0 {
      StepKeepsPhaseInv(s, actions[0]);
      RunKeepsPhaseInv(Step(s, actions[0]), actions[1..]);
    }
  }

  /** The handlers alone do not keep it: submitting the process of a STEP_7 record with no IRN
      data records a submission without IRN data. Only the disabled button prevents it. */
  lemma HandlerBreaksPhaseInv(s: Service, number: string, password: string, now: string)
    requires StatusEquals(s.status, STEP_7) && s.entity.None? && s.processNumber.None?
    requires number != "" && password != ""
    ensures PhaseInv(s)
    ensures !PhaseInv(Handle(s, ProcessClick(number, password, now)))
    ensures !Enabled(s.status, ProcessClick(number, password, now))
    ensures Step(s, ProcessClick(number, password, now)) == s
  {
    Step7NotPastIrn(STEP_7);
  }

  /** The happy path: approve, enter the IRN data, simulate the payment, confirm the government
      payment and submit the process, each through an enabled button and with non-empty form
      values, ends at SUBMITTED with every payload stored. */
  lemma HappyPath(s: Service, entity: string, reference: string, paidAt: string,
                  number: string, password: string, submittedAt: string)
    requires ReviewEnabled(s.status)
    requires entity != "" && reference != "" && number != "" && password != ""
    ensures var r := Run(s, [ApproveClick, IrnClick(entity, reference), PaymentClick,
                             GovernmentClick(paidAt), ProcessClick(number, password, submittedAt)]);
      && r.status == Some(StatusName(SUBMITTED))
      && r.entity == Some(entity) && r.reference == Some(reference)
      && r.isPaidGovernment && r.paidGovernmentAt == Some(paidAt)
      && r.processNumber == Some(number) && r.processPassword == Some(password)
      && r.submissionDate == Some(submittedAt)
  {
    var s1 := Approved(s);
    var s2 := WithIrnData(s1, entity, reference);
    var s3 := PaymentSimulated(s2);
    var s4 := GovernmentConfirmed(s3, paidAt);
    var s5 := ProcessSubmitted(s4, number, password, submittedAt);
    var actions := [ApproveClick, IrnClick(entity, reference), PaymentClick,
                    GovernmentClick(paidAt), ProcessClick(number, password, submittedAt)];
    assert Step(s, actions[0]) == s1;
    assert Step(s1, actions[1]) == s2;
    assert Step(s2, actions[2]) == s3;
    assert Step(s3, actions[3]) == s4;
    assert Step(s4, actions[4]) == s5;
    assert Run(s5, actions[5..]) == s5;
    assert Run(s4, actions[4..]) == s5;
    assert Run(s3, actions[3..]) == s5;
    assert Run(s2, actions[2..]) == s5;
    assert Run(s1, actions[1..]) == s5;
  }

  /** The review buttons stay enabled after submission: approving a SUBMITTED service sends it
      back to STEP_7_APPROVED and re-enables the IRN button. */
  lemma ApproveReopensSubmitted(s: Service)
    requires StatusEquals(s.status, SUBMITTED)
    ensures Enabled(s.status, ApproveClick)
    ensures StatusEquals(Step(s, ApproveClick).status, STEP_7_APPROVED)
    ensures IrnEnabled(Step(s, ApproveClick).status)
  {
    StatusNameInjective(SUBMITTED, STEP_7_APPROVED);
    StatusNameInjective(SUBMITTED, STEP_8);
  }

  /** A "Quase Lá" note of only whitespace is refused even where the button is enabled. */
  lemma BlankNoteRefused(s: Service, note: string)
    requires forall i :: 0 <= i < |note| ==> IsSpace(note[i])
    ensures Step(s, AlmostClick(note)) == s
  {
    BlankIffAllSpace(note);
  }
}
