/** The primary-assignment form: driver and tractor are required, the
    trailer is optional, and a conflict answer turns the submit button into
    a force button. The server's answer is an input. */
module AssignResourcesModal {
  import opened Common

  /** The selects' values ("" when nothing is chosen) and the notes. */
  datatype AssignForm = AssignForm(driverId: string, tractorId: string, trailerId: string, notes: string)

  const EmptyForm: AssignForm := AssignForm("", "", "", "")

  const MissingFieldsMessage: string := "Complete todos los campos obligatorios"
  const AssignFailedMessage: string := "No se pudieron asignar los recursos. Intente nuevamente."

  /** The request body; the trailer is a property left out when none is
      chosen. */
  datatype AssignPayload = AssignPayload(
    driverId: JsNumber, tractorId: JsNumber, trailerId: Option<JsNumber>, notes: string, force: bool)

  /** The payload for a form with driver and tractor chosen: both as
      numbers, the notes untouched, the trailer only when chosen. */
  function Payload(form: AssignForm, force: bool): (p: AssignPayload)
    requires form.driverId != "" && form.tractorId != ""
    ensures p.driverId == NumberOfText(form.driverId) && p.tractorId == NumberOfText(form.tractorId)
    ensures p.trailerId.Some? <==> form.trailerId != ""
    ensures p.trailerId.Some? ==> p.trailerId.value == NumberOfText(form.trailerId)
    ensures p.notes == form.notes && p.force == force
  {
    AssignPayload(NumberOfText(form.driverId), NumberOfText(form.tractorId),
                  if form.trailerId != "" then Some(NumberOfText(form.trailerId)) else None,
                  form.notes, force)
  }

  /** Ids chosen from the selects reach the request as the same numbers. */
  lemma PayloadOfChosenIds(driver: nat, tractor: nat, notes: string, force: bool)
    ensures var p := Payload(AssignForm(NatToString(driver), NatToString(tractor), "", notes), force);
            p == AssignPayload(Finite(driver as real), Finite(tractor as real), None, notes, force)
  {
    NumberOfIdText(driver);
    NumberOfIdText(tractor);
  }

  datatype ServerAnswer = Accepted | HttpError(status: int, message: Option<string>) | NoResponse

  /** The two buttons that submit, and the one that dismisses a warning. */
  datatype Click = ConfirmButton | ForceButton | DismissConflict

  datatype ClickOutcome =
    | NotSubmitted(toast: string)   // driver or tractor missing; nothing sent
    | Assigned                      // success: the modal closes
    | ConflictShown                 // 409: the warning shows the server's message
    | ErrorToast(toast: string)     // any other failure
    | Dismissed                     // the warning was cancelled

  class AssignState {
    var formData: AssignForm
    var conflictMessage: Option<string>

    constructor ()
      ensures formData == EmptyForm && conflictMessage == None
    {
      formData := EmptyForm;
      conflictMessage := None;
    }

    /** The conflict panel, and with it the force button, shows while the
        message is non-empty; the confirm button shows otherwise. */
    predicate ConflictVisible()
      reads this
    {
      conflictMessage.Some? && conflictMessage.value != ""
    }

    predicate Visible(c: Click)
      reads this
    {
      match c
      case ConfirmButton => !ConflictVisible()
      case ForceButton => ConflictVisible()
      case DismissConflict => ConflictVisible()
    }

    /** Opening clears the warning; closing also clears the form. */
    method OpenChanged(isOpen: bool)
      modifies this
      ensures conflictMessage == None && !ConflictVisible()
      ensures formData == (if isOpen then old(formData) else EmptyForm)
    {
      if !isOpen {
        formData := EmptyForm;
      }
      conflictMessage := None;
    }

    method SetForm(form: AssignForm)
      modifies this
      ensures formData == form && conflictMessage == old(conflictMessage)
    {
      formData := form;
    }

    /** handleSubmit(force): the required selects are checked on every
        submit, forced or not. */
    method HandleSubmit(force: bool, answer: ServerAnswer) returns (sent: Option<AssignPayload>, outcome: ClickOutcome)
      modifies this
      ensures formData == old(formData)
      ensures formData.driverId == "" || formData.tractorId == "" ==>
                sent.None? && outcome == NotSubmitted(MissingFieldsMessage) && conflictMessage == old(conflictMessage)
      ensures formData.driverId != "" && formData.tractorId != "" ==> sent == Some(Payload(formData, force))
      ensures sent.Some? && answer.Accepted? ==> outcome == Assigned && conflictMessage == None
      ensures sent.Some? && answer.HttpError? && answer.status == 409 ==>
                outcome == ConflictShown && conflictMessage == answer.message
      ensures sent.Some? && !answer.Accepted? && !(answer.HttpError? && answer.status == 409) ==>
                outcome == ErrorToast(AssignFailedMessage) && conflictMessage == None
      ensures outcome == ConflictShown && answer.HttpError? && answer.message.Some? && answer.message.value != "" ==>
                Visible(ForceButton) && !Visible(ConfirmButton)
    {
      if formData.driverId == "" || formData.tractorId == "" {
        return None, NotSubmitted(MissingFieldsMessage);
      }
      conflictMessage := None;
      var payload := AssignPayload(NumberOfText(formData.driverId), NumberOfText(formData.tractorId), None,
                                   formData.notes, force);
      if formData.trailerId != "" {
        payload := payload.(trailerId := Some(NumberOfText(formData.trailerId)));
      }
      sent := Some(payload);
      if answer.Accepted? {
        outcome := Assigned;
      } else if answer.HttpError? && answer.status == 409 {
        conflictMessage := answer.message;
        outcome := ConflictShown;
      } else {
        outcome := ErrorToast(AssignFailedMessage);
      }
    }

    /** A click on a button on screen. A forced request is sent only from
        the force button, which is there only while a warning shows; the
        confirm button never forces. */
    method OnClick(c: Click, answer: ServerAnswer) returns (sent: Option<AssignPayload>, outcome: ClickOutcome)
      requires Visible(c)
      modifies this
      ensures formData == old(formData)
      ensures sent.Some? ==> (sent.value.force <==> c == ForceButton)
      ensures sent.Some? && sent.value.force ==> old(ConflictVisible())
      ensures c == DismissConflict ==> sent.None? && outcome == Dismissed && conflictMessage == None
      ensures c != DismissConflict && formData.driverId != "" && formData.tractorId != "" ==>
                sent == Some(Payload(formData, c == ForceButton))
    {
      match c {
        case DismissConflict =>
          conflictMessage := None;
          sent, outcome := None, Dismissed;
        case ConfirmButton =>
          sent, outcome := HandleSubmit(false, answer);
        case ForceButton =>
          sent, outcome := HandleSubmit(true, answer);
      }
    }
  }
}
