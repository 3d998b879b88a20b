/** The state of the service modal (`src/components/pedidos/service-modal.tsx`): the service
    record it shows and the form fields its handlers read. Every handler runs whatever the
    status; which buttons are enabled is `ServiceWorkflow.Enabled`. The tab, mini-modal and
    alert state is presentation and is not kept. */
module ServiceModalState {
  import opened Types
  import opened ServiceWorkflow

  class ServiceModal {
    /** The record as `getService(id) || initialService` shows it after each update. */
    var service: Service
    var isEditingClient: bool
    var editableClient: ClientForm
    var almostNote: string
    var entity: string
    var reference: string
    var processNumber: string
    var processPassword: string

    /** Opening the modal: the record in the services store if there is one, else the record
        passed in, which is a `ServiceWithRelations`; the forms start from its values, `|| ""`. */
    constructor (initialService: Service, stored: Option<Service>)
      requires WithRelations(initialService)
      ensures service == (if stored.Some? then stored.value else initialService)
      ensures stored.None? ==> WithRelations(service)
      ensures !isEditingClient && editableClient == ClientFormOf(service)
      ensures almostNote == ""
      ensures entity == OrEmpty(service.entity) && reference == OrEmpty(service.reference)
      ensures processNumber == OrEmpty(service.processNumber) && processPassword == OrEmpty(service.processPassword)
    {
      var s := if stored.Some? then stored.value else initialService;
      service := s;
      isEditingClient := false;
      editableClient := ClientFormOf(s);
      almostNote := "";
      entity := OrEmpty(s.entity);
      reference := OrEmpty(s.reference);
      processNumber := OrEmpty(s.processNumber);
      processPassword := OrEmpty(s.processPassword);
    }

    method StartEditingClient()
      modifies this`isEditingClient
      ensures isEditingClient
    {
      isEditingClient := true;
    }

    /** "Cancelar": leaves edit mode; the form keeps what was typed. */
    method CancelEditingClient()
      modifies this`isEditingClient
      ensures !isEditingClient
    {
      isEditingClient := false;
    }

    method EditClient(form: ClientForm)
      modifies this`editableClient
      ensures editableClient == form
    {
      editableClient := form;
    }

    method HandleSaveClientEdit()
      modifies this`service, this`isEditingClient
      ensures service == ClientEdited(old(service), editableClient)
      ensures isEditingClient == (old(isEditingClient) && old(service).person.None?)
    {
      if service.person.None? {
        return;
      }
      service := ApplyUpdate(service, NoChange.(person := Some(Merged(service.person.value, editableClient))));
      isEditingClient := false;
    }

    method HandleApprove()
      modifies this`service
      ensures service == Approved(old(service))
    {
      service := ApplyUpdate(service, NoChange.(status := Some(STEP_7_APPROVED)));
    }

    method SetAlmostNote(note: string)
      modifies this`almostNote
      ensures almostNote == note
    {
      almostNote := note;
    }

    /** A blank note is refused and kept; an accepted note is sent and the field cleared. */
    method HandleAlmost()
      modifies this`service, this`almostNote
      ensures service == MarkedAlmost(old(service), old(almostNote))
      ensures almostNote == if IsBlank(old(almostNote)) then old(almostNote) else ""
    {
      if IsBlank(almostNote) {
        return;
      }
      service := ApplyUpdate(service, NoChange.(status := Some(STEP_7_ALMOST), almostJustification := Some(almostNote)));
      almostNote := "";
    }

    /** Typing in the entity input, which holds at most five characters. */
    method SetEntity(value: string)
      modifies this`entity
      ensures entity == ClampToMaxLength(value, EntityMaxLength)
    {
      entity := if |value| <= EntityMaxLength then value else value[..EntityMaxLength];
    }

    /** Typing in the reference input, which holds at most eleven characters. */
    method SetReference(value: string)
      modifies this`reference
      ensures reference == ClampToMaxLength(value, ReferenceMaxLength)
    {
      reference := if |value| <= ReferenceMaxLength then value else value[..ReferenceMaxLength];
    }

    method HandleAddIRN()
      modifies this`service
      ensures service == WithIrnData(old(service), entity, reference)
    {
      if entity == "" || reference == "" {
        return;
      }
      service := ApplyUpdate(service, NoChange.(entity := Some(entity), reference := Some(reference), status := Some(STEP_8)));
    }

    method SimulatePayment()
      modifies this`service
      ensures service == PaymentSimulated(old(service))
    {
      service := ApplyUpdate(service, NoChange.(status := Some(STEP_8_CLIENT_CONFIRMED)));
    }

    /** `now` is the value of `new Date().toISOString()` at the click. */
    method HandleConfirmGovernment(now: string)
      modifies this`service
      ensures service == GovernmentConfirmed(old(service), now)
    {
      service := ApplyUpdate(service, NoChange.(status := Some(STEP_8_CONFIRMED_BY_GOVERNMENT),
                                                isPaidGovernment := Some(true), paidGovernmentAt := Some(now)));
    }

    method SetProcessNumber(value: string)
      modifies this`processNumber
      ensures processNumber == value
    {
      processNumber := value;
    }

    method SetProcessPassword(value: string)
      modifies this`processPassword
      ensures processPassword == value
    {
      processPassword := value;
    }

    method HandleSubmitProcess(now: string)
      modifies this`service
      ensures service == ProcessSubmitted(old(service), processNumber, processPassword, now)
    {
      if processNumber == "" || processPassword == "" {
        return;
      }
      service := ApplyUpdate(service, NoChange.(processNumber := Some(processNumber), processPassword := Some(processPassword),
                                                status := Some(SUBMITTED), submissionDate := Some(now)));
    }
  }
}
