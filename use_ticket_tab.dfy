/** The scanner tab that uses up a ticket of the logged-in event, from a QR scan or a typed code. */
module UseTicketTab {
  import opened Wrappers
  import opened Text
  import opened StorefrontTypes

  /** `useTicket`'s response. */
  datatype UseResponse = UseResponse(success: bool, message: string, ticket: PurchasedTicket)

  /** The code and event id sent to `useTicket`. */
  datatype UseRequest = UseRequest(code: string, eventId: string)

  const UseFailed := "Lippua ei löytynyt tai virhe lipun käytössä"

  class UseTab {
    const eventId: string
    var result: Option<UseResponse>
    var loading: bool
    var manualCode: string
    var error: string

    constructor (eventId: string)
      ensures this.eventId == eventId && result == None && !loading && manualCode == "" && error == ""
    {
      this.eventId := eventId;
      result := None;
      loading := false;
      manualCode := "";
      error := "";
    }

    /** The result card replaces the scanner and the form exactly when there is a result. */
    predicate ShowsResult()
      reads this
    {
      result.Some?
    }

    /** The QR scanner is paused while a call is in flight. */
    predicate ScannerPaused()
      reads this
    {
      loading
    }

    /** `disabled={loading || !manualCode.trim()}` */
    predicate SubmitDisabled()
      reads this
    {
      loading || IsBlank(manualCode)
    }

    method OnChange(value: string)
      modifies this`manualCode
      ensures manualCode == value
    {
      manualCode := value;
    }

    /** The start of `handleUseTicket`: loading, with the error and the previous result cleared. */
    method BeginUseTicket(code: string) returns (request: UseRequest)
      modifies this`loading, this`error, this`result
      ensures loading && error == "" && result == None
      ensures ScannerPaused() && SubmitDisabled() && !ShowsResult()
      ensures request == UseRequest(code, eventId)
    {
      loading := true;
      error := "";
      result := None;
      request := UseRequest(code, eventId);
    }

    /** The end of `handleUseTicket`: the response is shown, or the fixed error. */
    method CompleteUseTicket(reply: Result<UseResponse, Thrown>)
      modifies this`loading, this`error, this`result
      ensures !loading && !ScannerPaused()
      ensures reply.Success? ==> result == Some(reply.value) && error == old(error) && ShowsResult()
      ensures reply.Failure? ==> result == old(result) && error == UseFailed
    {
      match reply {
        case Success(r) => result := Some(r);
        case Failure(_) => error := UseFailed;
      }
      loading := false;
    }

    /** `handleScan`: a scan while a call is in flight is ignored. */
    method HandleScan(code: string) returns (request: Option<UseRequest>)
      modifies this`loading, this`error, this`result
      ensures old(loading) ==> request == None && unchanged(this)
      ensures !old(loading) ==> request == Some(UseRequest(code, eventId)) && loading && error == "" && result == None
    {
      if !loading {
        var r := BeginUseTicket(code);
        request := Some(r);
      } else {
        request := None;
      }
    }

    /** `handleManualSubmit`: the trimmed code, unless it is blank. */
    method HandleManualSubmit() returns (request: Option<UseRequest>)
      modifies this`loading, this`error, this`result
      ensures IsBlank(manualCode) ==> request == None && unchanged(this)
      ensures !IsBlank(manualCode) ==>
        (request == Some(UseRequest(Trim(manualCode), eventId)) && loading && error == "" && result == None)
    {
      if !IsBlank(manualCode) {
        var r := BeginUseTicket(Trim(manualCode));
        request := Some(r);
      } else {
        request := None;
      }
    }

    /** `handleReset` */
    method HandleReset()
      modifies this`result, this`error, this`manualCode
      ensures result == None && error == "" && manualCode == ""
      ensures !ShowsResult()
    {
      result := None;
      error := "";
      manualCode := "";
    }
  }

  /** A typed code is sent trimmed, so a padded code and its trimmed form send the same request. */
  method TrimmedCodeSent(tab: UseTab, code: string) returns (request: Option<UseRequest>)
    requires !IsBlank(code)
    modifies tab
    ensures request == Some(UseRequest(Trim(code), tab.eventId))
    ensures request == Some(UseRequest(Trim(Trim(code)), tab.eventId))
  {
    tab.OnChange(code);
    request := tab.HandleManualSubmit();
    TrimIdempotent(code);
  }
}
