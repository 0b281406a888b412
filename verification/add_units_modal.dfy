/** The form that adds supplemental units to a service: its validation, the
    request it sends, and what each server answer does to the modal. The
    server's answer is an input. */
module AddUnitsModal {
  import opened Common

  /** The form: the selected ids as the selects hold them ("" when nothing
      is selected) and the reason text. */
  datatype UnitsForm = UnitsForm(truckId: string, trailerId: string, driverId: string, notes: string)

  const EmptyForm: UnitsForm := UnitsForm("", "", "", "")

  const NoResourceMessage: string := "Debe seleccionar al menos un recurso (tracto, trailer o conductor)"
  const ReasonRequiredMessage: string := "El campo \"Motivo\" es obligatorio"
  const ReasonTooShortMessage: string := "El motivo debe tener al menos 10 caracteres"

  predicate AnyResource(form: UnitsForm) {
    form.truckId != "" || form.trailerId != "" || form.driverId != ""
  }

  /** validateForm: None when the form passes, else the toast it shows. A
      missing resource is reported before anything about the reason. */
  function ValidateForm(form: UnitsForm): (error: Option<string>)
    ensures error.None? <==> AnyResource(form) && |Trim(form.notes)| >= 10
    ensures !AnyResource(form) ==> error == Some(NoResourceMessage)
    ensures AnyResource(form) && Trim(form.notes) == "" ==> error == Some(ReasonRequiredMessage)
    ensures AnyResource(form) && 0 < |Trim(form.notes)| < 10 ==> error == Some(ReasonTooShortMessage)
  {
    if !AnyResource(form) then Some(NoResourceMessage)
    else if Trim(form.notes) == "" then Some(ReasonRequiredMessage)
    else if |Trim(form.notes)| < 10 then Some(ReasonTooShortMessage)
    else None
  }

  /** The request body; an absent id is a property left out of the object. */
  datatype AssignmentPayload = AssignmentPayload(
    truckId: Option<JsNumber>, trailerId: Option<JsNumber>, driverId: Option<JsNumber>,
    notes: string, force: bool)

  /** Number(id) when an id is selected. */
  function SelectedId(text: string): (id: Option<JsNumber>)
    ensures id.None? <==> text == ""
  {
    if text == "" then None else Some(NumberOfText(text))
  }

  /** The payload: trimmed notes, the force flag as given, and only the
      selected ids. */
  function Payload(form: UnitsForm, force: bool): (p: AssignmentPayload)
    ensures p.notes == Trim(form.notes) && p.force == force
    ensures p.truckId.Some? <==> form.truckId != ""
    ensures p.trailerId.Some? <==> form.trailerId != ""
    ensures p.driverId.Some? <==> form.driverId != ""
  {
    AssignmentPayload(SelectedId(form.truckId), SelectedId(form.trailerId), SelectedId(form.driverId),
                      Trim(form.notes), force)
  }

  /** Ids chosen from the selects come back as the same numbers. */
  lemma PayloadCarriesSelectedIds(truck: nat, driver: nat, notes: string, force: bool)
    ensures var p := Payload(UnitsForm(NatToString(truck), "", NatToString(driver), notes), force);
            p.truckId == Some(Finite(truck as real)) && p.trailerId.None?
            && p.driverId == Some(Finite(driver as real))
  {
    NumberOfIdText(truck);
    NumberOfIdText(driver);
  }

  /** What the server answered to the request. */
  datatype ServerAnswer = Accepted | HttpError(status: int, message: Option<string>) | NoResponse

  /** What the user sees after a submit. */
  datatype SubmitOutcome =
    | NotSubmitted(toast: string)          // validation failed; nothing sent
    | Added                                // success: the modal closes
    | ConflictShown                        // 409: the modal stays open with the warning
    | ErrorToast(toast: string)            // any other failure; the modal stays open

  const ValidationFallback: string := "Error de validación"
  const GenericFailure: string := "No se pudieron agregar las unidades. Intente nuevamente."

  /** The modal's state that submits touch. */
  class AddUnitsState {
    var formData: UnitsForm
    var conflictMessage: Option<string>

    constructor ()
      ensures formData == EmptyForm && conflictMessage == None
    {
      formData := EmptyForm;
      conflictMessage := None;
    }

    /** The effect on isOpen: opening clears the warning, closing also
        clears the form. */
    method OpenChanged(isOpen: bool)
      modifies this
      ensures conflictMessage == None
      ensures formData == (if isOpen then old(formData) else EmptyForm)
    {
      if !isOpen {
        formData := EmptyForm;
      }
      conflictMessage := None;
    }

    method SetForm(form: UnitsForm)
      modifies this
      ensures formData == form && conflictMessage == old(conflictMessage)
    {
      formData := form;
    }

    /** handleSubmit(force). A forced resubmission skips validation; a sent
        request is Payload(formData, force); only a 409 leaves a warning,
        holding the server's message. */
    method Submit(force: bool, answer: ServerAnswer) returns (sent: Option<AssignmentPayload>, outcome: SubmitOutcome)
      modifies this
      ensures formData == old(formData)
      ensures !force && ValidateForm(formData).Some? ==>
                sent.None? && outcome == NotSubmitted(ValidateForm(formData).value)
                && conflictMessage == old(conflictMessage)
      ensures force || ValidateForm(formData).None? ==> sent == Some(Payload(formData, force))
      ensures sent.Some? && answer.Accepted? ==> outcome == Added && conflictMessage == None
      ensures sent.Some? && answer.HttpError? && answer.status == 409 ==>
                outcome == ConflictShown && conflictMessage == answer.message
      ensures sent.Some? && answer.HttpError? && answer.status == 400 ==>
                conflictMessage == None
                && outcome == ErrorToast(if answer.message.Some? && answer.message.value != "" then answer.message.value else ValidationFallback)
      ensures sent.Some? && !answer.Accepted? && !(answer.HttpError? && answer.status in {400, 409}) ==>
                conflictMessage == None && outcome == ErrorToast(GenericFailure)
    {
      if !force && ValidateForm(formData).Some? {
        return None, NotSubmitted(ValidateForm(formData).value);
      }
      conflictMessage := None;
      var payload := AssignmentPayload(None, None, None, Trim(formData.notes), force);
      if formData.truckId != "" {
        payload := payload.(truckId := Some(NumberOfText(formData.truckId)));
      }
      if formData.trailerId != "" {
        payload := payload.(trailerId := Some(NumberOfText(formData.trailerId)));
      }
      if formData.driverId != "" {
        payload := payload.(driverId := Some(NumberOfText(formData.driverId)));
      }
      sent := Some(payload);
      match answer {
        case Accepted =>
          outcome := Added;
        case HttpError(status, message) =>
          if status == 409 {
            conflictMessage := message;
            outcome := ConflictShown;
          } else if status == 400 {
            outcome := ErrorToast(if message.Some? && message.value != "" then message.value else ValidationFallback);
          } else {
            outcome := ErrorToast(GenericFailure);
          }
        case NoResponse =>
          outcome := ErrorToast(GenericFailure);
      }
    }
  }

  /** The form's rule matches the backend's: a valid form names at least
      one resource and a reason of ten characters or more once trimmed, so
      its payload notes are ten characters or more. */
  lemma ValidFormPayload(form: UnitsForm, force: bool)
    requires ValidateForm(form).None?
    ensures |Payload(form, force).notes| >= 10
    ensures var p := Payload(form, force); p.truckId.Some? || p.trailerId.Some? || p.driverId.Some?
  {
  }
}
