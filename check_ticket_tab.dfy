/** The scanner tab that looks a ticket up without using it. */
module CheckTicketTab {
  import opened Wrappers
  import opened Text
  import opened StorefrontTypes

  const NotFound := "Lippua ei löytynyt"

  /** The result card marks success exactly for a valid ticket. */
  predicate IsSuccess(t: PurchasedTicket) {
    t.status == "VALID"
  }

  class CheckTab {
    var ticket: Option<PurchasedTicket>
    var loading: bool
    var manualCode: string
    var error: string

    constructor ()
      ensures ticket == None && !loading && manualCode == "" && error == ""
    {
      ticket := None;
      loading := false;
      manualCode := "";
      error := "";
    }

    predicate ShowsResult()
      reads this
    {
      ticket.Some?
    }

    /** The `success` flag the result card gets. */
    predicate ResultSuccess()
      requires ShowsResult()
      reads this
    {
      IsSuccess(ticket.value)
    }

    predicate SubmitDisabled()
      reads this
    {
      loading || IsBlank(manualCode)
    }

    method OnChange(value: string)
      modifies this`manualCode
      ensures manualCode == value
    {
      manualCode := value;
    }

    /** The start of `checkTicket`; returns the code sent to `getTicket`. */
    method BeginCheck(code: string) returns (request: string)
      modifies this`loading, this`error, this`ticket
      ensures loading && error == "" && ticket == None && request == code
      ensures SubmitDisabled() && !ShowsResult()
    {
      loading := true;
      error := "";
      ticket := None;
      request := code;
    }

    /** The end of `checkTicket`: the found ticket, or the not-found error. */
    method CompleteCheck(reply: Result<PurchasedTicket, Thrown>)
      modifies this`loading, this`error, this`ticket
      ensures !loading
      ensures reply.Success? ==>
        (ticket == Some(reply.value) && error == old(error) && ShowsResult()
         && (ResultSuccess() <==> reply.value.status == "VALID"))
      ensures reply.Failure? ==> ticket == old(ticket) && error == NotFound
    {
      match reply {
        case Success(t) => ticket := Some(t);
        case Failure(_) => error := NotFound;
      }
      loading := false;
    }

    /** `handleScan`: ignored while a check is in flight. */
    method HandleScan(code: string) returns (request: Option<string>)
      modifies this`loading, this`error, this`ticket
      ensures old(loading) ==> request == None && unchanged(this)
      ensures !old(loading) ==> request == Some(code) && loading && error == "" && ticket == None
    {
      if !loading {
        var r := BeginCheck(code);
        request := Some(r);
      } else {
        request := None;
      }
    }

    /** `handleManualSubmit`: the trimmed code, unless it is blank. */
    method HandleManualSubmit() returns (request: Option<string>)
      modifies this`loading, this`error, this`ticket
      ensures IsBlank(manualCode) ==> request == None && unchanged(this)
      ensures !IsBlank(manualCode) ==>
        (request == Some(Trim(manualCode)) && loading && error == "" && ticket == None)
    {
      if !IsBlank(manualCode) {
        var r := BeginCheck(Trim(manualCode));
        request := Some(r);
      } else {
        request := None;
      }
    }

    method HandleReset()
      modifies this`ticket, this`error, this`manualCode
      ensures ticket == None && error == "" && manualCode == "" && !ShowsResult()
    {
      ticket := None;
      error := "";
      manualCode := "";
    }
  }

  /** A scan that arrives while a check is in flight does not start a second check; once the
      first completes, the next scan does. */
  method ScanDuringCheck(tab: CheckTab, first: string, second: string, reply: Result<PurchasedTicket, Thrown>)
    returns (ignored: Option<string>, next: Option<string>)
    requires !tab.loading
    modifies tab
    ensures ignored == None && next == Some(second)
  {
    var started := tab.HandleScan(first);
    ignored := tab.HandleScan(second);
    tab.CompleteCheck(reply);
    next := tab.HandleScan(second);
  }
}
