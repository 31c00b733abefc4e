/**
  The ticket scanner's top-level view machine: the event list, PIN entry for a selected event,
  and the dashboard of a logged-in session kept in the browser's session storage.
*/
module TicketScanner {
  import opened Wrappers
  import opened StorefrontTypes

  /** `ScannerSession` */
  datatype ScannerSession = ScannerSession(eventId: string, eventName: string)

  /** `JSON.parse` of the stored entry: the parsed value (`null` is `None`), or a parse error. */
  datatype ParseResult = Parsed(value: Option<ScannerSession>) | Invalid

  /** The view rendered. */
  datatype View = Dashboard(session: ScannerSession) | PinEntryView(event: TicketEvent) | EventList

  class Scanner {
    var session: Option<ScannerSession>
    var selectedEvent: Option<TicketEvent>
    /** The "scanner-session" entry of session storage, as the stored session. */
    var stored: Option<ScannerSession>
    /** Whether the entry holds text that is not the encoding of a session. */
    var storedText: Option<string>

    /** At most one form of the stored entry. */
    ghost predicate Valid()
      reads this
    {
      !(stored.Some? && storedText.Some?)
    }

    /** Mounting with whatever session storage holds. */
    constructor (stored: Option<ScannerSession>, storedText: Option<string>)
      requires !(stored.Some? && storedText.Some?)
      ensures Valid() && session == None && selectedEvent == None
      ensures this.stored == stored && this.storedText == storedText
    {
      session := None;
      selectedEvent := None;
      this.stored := stored;
      this.storedText := storedText;
    }

    function CurrentView(): (v: View)
      reads this
      ensures session.Some? ==> v == Dashboard(session.value)
      ensures session.None? && selectedEvent.Some? ==> v == PinEntryView(selectedEvent.value)
      ensures session.None? && selectedEvent.None? ==> v == EventList
    {
      match session
      case Some(s) => Dashboard(s)
      case None =>
        match selectedEvent
        case Some(e) => PinEntryView(e)
        case None => EventList
    }

    /** The mount effect. A stored session (what `handlePinSuccess` wrote) is restored; other
        non-empty text is parsed (`parsed`), and a parse error removes the entry. */
    method Restore(parsed: ParseResult)
      requires Valid()
      modifies this`session, this`stored, this`storedText
      ensures Valid() && unchanged(this`stored)
      ensures old(stored).Some? ==> session == old(stored) && storedText == old(storedText)
      ensures old(storedText).Some? && old(storedText).value != "" && parsed.Parsed? ==>
        session == parsed.value && storedText == old(storedText)
      ensures old(storedText).Some? && old(storedText).value != "" && parsed.Invalid? ==>
        session == old(session) && storedText == None
      ensures old(stored).None? && (old(storedText).None? || old(storedText).value == "") ==>
        session == old(session) && storedText == old(storedText)
    {
      if stored.Some? {
        session := stored;
      } else if storedText.Some? && storedText.value != "" {
        match parsed
        case Parsed(v) => session := v;
        case Invalid => storedText := None;
      }
    }

    /** `handleEventSelect`: only the selected event changes. */
    method HandleEventSelect(event: TicketEvent)
      modifies this`selectedEvent
      ensures selectedEvent == Some(event)
    {
      selectedEvent := Some(event);
    }

    /** `handlePinSuccess`: the event the backend returned becomes the stored and current
        session, and the selection is cleared. */
    method HandlePinSuccess(event: TicketEvent)
      modifies this
      ensures Valid()
      ensures session == Some(ScannerSession(event.id, event.name)) && stored == session
      ensures selectedEvent == None && storedText == None
      ensures CurrentView() == Dashboard(ScannerSession(event.id, event.name))
    {
      var newSession := ScannerSession(event.id, event.name);
      stored := Some(newSession);
      storedText := None;
      session := Some(newSession);
      selectedEvent := None;
    }

    /** `handleBack`: only the selection is cleared. */
    method HandleBack()
      modifies this`selectedEvent
      ensures selectedEvent == None
      ensures session.None? ==> CurrentView() == EventList
    {
      selectedEvent := None;
    }

    /** `handleLogout`: the stored entry is removed and both fields are cleared. */
    method HandleLogout()
      modifies this
      ensures Valid()
      ensures session == None && selectedEvent == None && stored == None && storedText == None
      ensures CurrentView() == EventList
    {
      stored := None;
      storedText := None;
      session := None;
      selectedEvent := None;
    }
  }

  /** A session written by a PIN login survives a reload: mounting again restores it. */
  method ReloadRestores(event: TicketEvent, parsed: ParseResult) returns (view: View)
    ensures view == Dashboard(ScannerSession(event.id, event.name))
  {
    var scanner := new Scanner(None, None);
    scanner.HandlePinSuccess(event);
    var reloaded := new Scanner(scanner.stored, scanner.storedText);
    reloaded.Restore(parsed);
    view := reloaded.CurrentView();
  }
}
