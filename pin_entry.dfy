/** The PIN form of the ticket scanner: it validates the PIN of the selected event. */
module PinEntry {
  import opened Wrappers
  import opened StorefrontTypes
  import TicketScanner

  /** `validatePin`'s resolved value: whether the PIN was accepted, and the event it is for. */
  datatype PinResult = PinResult(success: bool, event: TicketEvent)

  const InvalidPin := "Virheellinen PIN-koodi"

  class PinForm {
    const event: TicketEvent
    var pin: string
    var error: string
    var loading: bool

    constructor (event: TicketEvent)
      ensures this.event == event && pin == "" && error == "" && !loading
    {
      this.event := event;
      pin := "";
      error := "";
      loading := false;
    }

    method OnChange(value: string)
      modifies this`pin
      ensures pin == value
    {
      pin := value;
    }

    /** `disabled={loading || !pin}` */
    predicate SubmitDisabled()
      reads this
    {
      loading || pin == ""
    }

    /** The start of `handleSubmit`: returns the event id and PIN sent to the backend. */
    method BeginSubmit() returns (request: (string, string))
      modifies this`error, this`loading
      ensures error == "" && loading && SubmitDisabled()
      ensures request == (event.id, pin)
    {
      error := "";
      loading := true;
      request := (event.id, pin);
    }

    /** The end of `handleSubmit`: returns the event passed to `onSuccess`, if it is called. */
    method CompleteSubmit(reply: Result<PinResult, Thrown>) returns (onSuccess: Option<TicketEvent>)
      modifies this`error, this`loading
      ensures !loading
      ensures reply.Success? && reply.value.success ==> onSuccess == Some(reply.value.event) && error == old(error)
      ensures reply.Success? && !reply.value.success ==> onSuccess == None && error == old(error)
      ensures reply.Failure? ==> onSuccess == None && error == InvalidPin
    {
      onSuccess := None;
      match reply {
        case Success(r) =>
          if r.success {
            onSuccess := Some(r.event);
          }
        case Failure(_) =>
          error := InvalidPin;
      }
      loading := false;
    }
  }

  /** A PIN login: the scanner's session is the event the backend returned, not the event the
      form was opened for; a rejected PIN leaves the PIN entry view and shows no error. */
  method Login(scanner: TicketScanner.Scanner, form: PinForm, reply: Result<PinResult, Thrown>)
    returns (request: (string, string))
    requires scanner.session.None? && scanner.selectedEvent == Some(form.event)
    modifies scanner, form
    ensures request == (form.event.id, old(form.pin))
    ensures reply.Success? && reply.value.success ==>
      scanner.CurrentView() == TicketScanner.Dashboard(TicketScanner.ScannerSession(reply.value.event.id, reply.value.event.name))
    ensures reply.Success? && !reply.value.success ==>
      scanner.CurrentView() == TicketScanner.PinEntryView(form.event) && form.error == ""
    ensures reply.Failure? ==> scanner.CurrentView() == TicketScanner.PinEntryView(form.event) && form.error == InvalidPin
    ensures !form.loading
  {
    request := form.BeginSubmit();
    var onSuccess := form.CompleteSubmit(reply);
    if onSuccess.Some? {
      scanner.HandlePinSuccess(onSuccess.value);
    }
  }
}
