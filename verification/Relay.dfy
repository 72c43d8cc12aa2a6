/** Cross-replica dispatch (internal/agent/relay.go): the replica that holds the agent serves the
    dispatch with its own bridge and publishes what happens; the requesting replica's wait loop turns
    the published messages back into callbacks and an outcome. */
module Relay {
  import opened Util
  import opened Binary
  import opened Bridge

  /** What is published on a reply channel, field by field. */
  datatype RelayMessage = RelayMessage(
    progress: Option<Progress>,
    binaryHeader: Option<Header>,
    binaryData: seq<byte>,
    result: Option<Result>,
    err: string)

  /** A payload on the wire: the encoding of a message, or bytes that do not decode. */
  datatype Raw = Encoded(message: RelayMessage) | Garbage

  /** handleRelayMessage on an open channel. */
  function HandleRaw(raw: Raw): Handled {
    match raw
    case Garbage => Nothing
    case Encoded(m) =>
      if m.err != "" then Decides(Failed(Remote(m.err)))
      else if m.result.Some? then Decides(Returned(m.result.value))
      else if m.progress.Some? then Calls(OnProgress(m.progress.value))
      else if m.binaryHeader.Some? then Calls(OnBinary(m.binaryHeader.value, m.binaryData))
      else Nothing
  }

  // ---------------------------------------------------------------- the requester's loop

  datatype RelaySignal = Event(signal: Signal<Raw>) | FirstTimeout

  const NO_RESPONSE: Outcome := Failed(NoResponse)

  /** The select after a cancel does not listen to the first-message timer. */
  function RelayAfterCancel(listening: bool, script: seq<RelaySignal>): Trace {
    if script == [] then Trace([], 0, 0, None)
    else
      match script[0]
      case FirstTimeout => Later([], 0, RelayAfterCancel(listening, script[1..]))
      case Event(Cancelled(_)) => Later([], 0, RelayAfterCancel(listening, script[1..]))
      case Event(GraceElapsed) => Trace([], 0, 1, Some(CONTEXT_DONE))
      case Event(s) => Trace(CallbackOf(HandleRaw, listening, s), 0, 1, Some(LastWord(HandleRaw, s)))
  }

  /** waitForRelayResult; got is its gotFirstMessage flag. */
  function RelayWait(got: bool, listening: bool, script: seq<RelaySignal>): Trace
    decreases |script|
  {
    if script == [] then Trace([], 0, 0, None)
    else
      var rest := script[1..];
      match script[0]
      case FirstTimeout => if got then Later([], 0, RelayWait(got, listening, rest)) else Trace([], 1, 1, Some(NO_RESPONSE))
      case Event(Cancelled(_)) => Later([], 1, RelayAfterCancel(listening, rest))
      case Event(GraceElapsed) => Later([], 0, RelayWait(got, listening, rest))
      case Event(s) =>
        var r := Reaction(HandleRaw, s);
        if r.Decides? then Trace([], 0, 1, Some(r.outcome))
        else Later(CallbackOf(HandleRaw, listening, s), 0, RelayWait(true, listening, rest))
  }

  /** An event that neither decides nor cancels leaves the loop waiting on the rest. */
  lemma RelayStep(got: bool, listening: bool, script: seq<RelaySignal>, callbacks: seq<Callback>, i: nat)
    requires script != []
    requires script[0].FirstTimeout? ==> got
    requires script[0].Event? ==> !script[0].signal.Cancelled? && !Reaction(HandleRaw, script[0].signal).Decides?
    ensures var more := if script[0].Event? then CallbackOf(HandleRaw, listening, script[0].signal) else [];
            var nextGot := got || (script[0].Event? && IsMessage(script[0].signal));
            Extended(RelayWait(got, listening, script), callbacks, i)
            == Extended(RelayWait(nextGot, listening, script[1..]), callbacks + more, i + 1)
  {
    var more := if script[0].Event? then CallbackOf(HandleRaw, listening, script[0].signal) else [];
    var nextGot := got || (script[0].Event? && IsMessage(script[0].signal));
    ExtendedLater(RelayWait(nextGot, listening, script[1..]), callbacks, more, i);
  }

  method WaitForRelayResult(listening: bool, script: seq<RelaySignal>) returns (t: Trace)
    ensures t == RelayWait(false, listening, script)
  {
    var callbacks: seq<Callback> := [];
    var got := false;
    var i := 0;
    ghost var whole := RelayWait(false, listening, script);
    ghost var left := script;
    while i < |script|
      invariant 0 <= i <= |script|
      invariant left == script[i..] && whole == Extended(RelayWait(got, listening, left), callbacks, i)
    {
      assert left[0] == script[i] && left[1..] == script[i + 1..];
      match script[i] {
        case FirstTimeout =>
          if !got {
            return Extended(Trace([], 1, 1, Some(NO_RESPONSE)), callbacks, i);
          }
          RelayStep(got, listening, left, callbacks, i);
          assert callbacks + [] == callbacks;
        case Event(s) =>
          if s.Cancelled? {
            var u := RelayWaitOutCancel(listening, script[i + 1..]);
            return Extended(Later([], 1, u), callbacks, i);
          }
          var r := Reaction(HandleRaw, s);
          if r.Decides? {
            return Extended(Trace([], 0, 1, Some(r.outcome)), callbacks, i);
          }
          RelayStep(got, listening, left, callbacks, i);
          got := got || IsMessage(s);
          callbacks := callbacks + if r.Calls? && listening then [r.callback] else [];
      }
      left := left[1..];
      i := i + 1;
    }
    t := Trace(callbacks, 0, |script|, None);
  }

  method RelayWaitOutCancel(listening: bool, script: seq<RelaySignal>) returns (t: Trace)
    ensures t == RelayAfterCancel(listening, script)
  {
    var i := 0;
    while i < |script| && (script[i].FirstTimeout? || script[i].signal.Cancelled?)
      invariant 0 <= i <= |script|
      invariant RelayAfterCancel(listening, script) == Extended(RelayAfterCancel(listening, script[i..]), [], i)
    {
      assert script[i..][1..] == script[i + 1..];
      i := i + 1;
    }
    if i == |script| {
      return Trace([], 0, |script|, None);
    }
    match Reaction(HandleRaw, script[i].signal) {
      case Decides(outcome) => t := Trace([], 0, i + 1, Some(outcome));
      case Calls(c) => t := Trace(if listening then [c] else [], 0, i + 1, Some(CONTEXT_DONE));
      case Nothing => t := Trace([], 0, i + 1, Some(CONTEXT_DONE));
    }
  }

  // ---------------------------------------------------------------- it refines the local loop

  /** The script as the local loop would see it: no first-message timer; a cancel always goes out. */
  function Events(script: seq<RelaySignal>): seq<Signal<Raw>> {
    if script == [] then []
    else (match script[0]
          case FirstTimeout => []
          case Event(Cancelled(_)) => [Cancelled(true)]
          case Event(s) => [s]) + Events(script[1..])
  }

  /** The timer fires before any message has arrived and before a cancellation. */
  predicate TimesOut(script: seq<RelaySignal>) {
    script != [] && match script[0]
                    case FirstTimeout => true
                    case Event(GraceElapsed) => TimesOut(script[1..])
                    case Event(_) => false
  }

  lemma EventsTail(script: seq<RelaySignal>)
    requires script != []
    ensures script[0].FirstTimeout? ==> Events(script) == Events(script[1..])
    ensures script[0].Event? ==> |Events(script)| > 0 && Events(script)[1..] == Events(script[1..])
  {
  }

  ghost predicate SameConduct(t: Trace, u: Trace) {
    t.callbacks == u.callbacks && t.cancels == u.cancels && t.outcome == u.outcome
  }

  lemma {:induction false} RelayAfterCancelRefines(listening: bool, script: seq<RelaySignal>)
    ensures SameConduct(RelayAfterCancel(listening, script), AfterCancel(HandleRaw, listening, Events(script)))
  {
    if script != [] {
      RelayAfterCancelRefines(listening, script[1..]);
      EventsTail(script);
    }
  }

  /** Once a message has arrived, or if the timer does not get there first, the relayed wait behaves
      as the local wait loop does, with the relay's decoder in place of the bridge's. */
  lemma {:induction false} RelayRefines(got: bool, listening: bool, script: seq<RelaySignal>)
    requires got || !TimesOut(script)
    ensures SameConduct(RelayWait(got, listening, script), Wait(HandleRaw, listening, Events(script)))
    decreases |script|
  {
    if script != [] {
      var rest := script[1..];
      EventsTail(script);
      match script[0] {
        case FirstTimeout => RelayRefines(got, listening, rest);
        case Event(Cancelled(_)) => RelayAfterCancelRefines(listening, rest);
        case Event(GraceElapsed) => RelayRefines(got, listening, rest);
        case Event(s) => RelayRefines(true, listening, rest);
      }
    }
  }

  /** The first-message timeout ends the dispatch exactly when it fires before any message has arrived
      and before a cancellation; a message that does not even decode is enough to rule it out. */
  lemma TimeoutOnlyBeforeFirstMessage(listening: bool, script: seq<RelaySignal>)
    ensures RelayWait(false, listening, script).outcome == Some(NO_RESPONSE) <==> TimesOut(script)
  {
    if TimesOut(script) {
      TimeoutWins(listening, script);
    } else {
      RelayRefines(false, listening, script);
      EveryScript(HandleRaw, listening, Events(script));
    }
  }

  /** Nothing but events that the loop ignores comes before such a timeout. */
  lemma {:induction false} TimesOutIff(script: seq<RelaySignal>)
    ensures TimesOut(script) <==>
            exists i :: 0 <= i < |script| && script[i].FirstTimeout? && forall j :: 0 <= j < i ==> script[j] == Event(GraceElapsed)
  {
    if script != [] && script[0] == Event(GraceElapsed) {
      var rest := script[1..];
      TimesOutIff(rest);
      if TimesOut(rest) {
        var i :| 0 <= i < |rest| && rest[i].FirstTimeout? && forall j :: 0 <= j < i ==> rest[j] == Event(GraceElapsed);
        assert script[i + 1] == rest[i] && forall j :: 0 < j < i + 1 ==> script[j] == rest[j - 1];
      }
      if i :| 0 <= i < |script| && script[i].FirstTimeout? && forall j :: 0 <= j < i ==> script[j] == Event(GraceElapsed) {
        assert rest[i - 1] == script[i] && forall j :: 0 <= j < i - 1 ==> rest[j] == script[j + 1];
      }
    }
  }

  lemma {:induction false} TimeoutWins(listening: bool, script: seq<RelaySignal>)
    requires TimesOut(script)
    ensures RelayWait(false, listening, script).outcome == Some(NO_RESPONSE)
    ensures RelayWait(false, listening, script).callbacks == [] && RelayWait(false, listening, script).cancels == 1
  {
    if !script[0].FirstTimeout? {
      TimeoutWins(listening, script[1..]);
    }
  }

  // ---------------------------------------------------------------- what a published message does

  /** The outcome that an event decides, by the fields of the message: an error text first, then a
      result; and the closing of the subscription. */
  function RelayAnswer(s: Signal<Raw>): Option<Outcome> {
    match s
    case Closed => Some(Failed(ConnectionClosed))
    case Received(Encoded(m)) =>
      if m.err != "" then Some(Failed(Remote(m.err))) else if m.result.Some? then Some(Returned(m.result.value)) else None
    case _ => None
  }

  /** What the requester is told on the way: progress, or else a frame; garbage is skipped. */
  function RelayReports(script: seq<Signal<Raw>>): seq<Callback> {
    if script == [] then []
    else
      (match script[0]
       case Received(Encoded(m)) =>
         if m.err != "" || m.result.Some? then []
         else if m.progress.Some? then [OnProgress(m.progress.value)]
         else if m.binaryHeader.Some? then [OnBinary(m.binaryHeader.value, m.binaryData)]
         else []
       case _ => []) + RelayReports(script[1..])
  }

  predicate NoRelayAnswer(script: seq<Signal<Raw>>) {
    forall i :: 0 <= i < |script| ==> RelayAnswer(script[i]).None? && !script[i].Cancelled?
  }

  lemma RelayEvent(s: Signal<Raw>)
    ensures RelayAnswer(s) == if Terminal(HandleRaw, s) then Some(Reaction(HandleRaw, s).outcome) else None
    ensures CallbackOf(HandleRaw, true, s) == RelayReports([s]) && CallbackOf(HandleRaw, false, s) == []
  {
    assert [s][1..] == [] && RelayReports([]) == [];
  }

  lemma {:induction false} RelayCallbacks(listening: bool, script: seq<Signal<Raw>>)
    ensures Callbacks(HandleRaw, listening, script) == if listening then RelayReports(script) else []
  {
    if script != [] {
      RelayEvent(script[0]);
      RelayCallbacks(listening, script[1..]);
      assert [script[0]][1..] == [] && RelayReports([]) == [];
    }
  }

  function Wrapped(script: seq<Signal<Raw>>): seq<RelaySignal> {
    seq(|script|, i requires 0 <= i < |script| => Event(script[i]))
  }

  lemma {:induction false} EventsWrapped(script: seq<Signal<Raw>>, rest: seq<RelaySignal>)
    requires forall i :: 0 <= i < |script| ==> !script[i].Cancelled?
    ensures Events(Wrapped(script) + rest) == script + Events(rest)
  {
    if script == [] {
      assert Wrapped(script) + rest == rest;
    } else {
      assert (Wrapped(script) + rest)[1..] == Wrapped(script[1..]) + rest;
      EventsWrapped(script[1..], rest);
    }
  }

  lemma {:induction false} WrappedDoesNotTimeOut(script: seq<Signal<Raw>>, rest: seq<RelaySignal>)
    requires exists i :: 0 <= i < |script| && !script[i].GraceElapsed?
    ensures !TimesOut(Wrapped(script) + rest)
  {
    assert Wrapped(script)[0] == Event(script[0]);
    if script[0].GraceElapsed? {
      assert (Wrapped(script) + rest)[1..] == Wrapped(script[1..]) + rest;
      var i :| 0 <= i < |script| && !script[i].GraceElapsed?;
      assert script[1..][i - 1] == script[i];
      WrappedDoesNotTimeOut(script[1..], rest);
    }
  }

  /** A published error or result, or a closed subscription, ends the relayed dispatch, whatever came
      before that is none of these and whatever comes after. */
  lemma RelayedDecides(listening: bool, quiet: seq<Signal<Raw>>, last: Signal<Raw>, rest: seq<RelaySignal>)
    requires NoRelayAnswer(quiet) && RelayAnswer(last).Some?
    ensures var t := RelayWait(false, listening, Wrapped(quiet + [last]) + rest);
            && t.callbacks == (if listening then RelayReports(quiet) else [])
            && t.cancels == 0 && t.outcome == RelayAnswer(last)
  {
    var heard := quiet + [last];
    assert heard[|quiet|] == last;
    EventsWrapped(heard, rest);
    WrappedDoesNotTimeOut(heard, rest);
    RelayRefines(false, listening, Wrapped(heard) + rest);
    forall i | 0 <= i < |quiet| ensures !Terminal(HandleRaw, quiet[i]) && !quiet[i].Cancelled? {
      RelayEvent(quiet[i]);
    }
    RelayEvent(last);
    RelayCallbacks(listening, quiet);
    DecidedByMessage(HandleRaw, listening, quiet, last, Events(rest));
  }

  /** A cancellation sends one cancel to the owner, and the next message still counts, as an answer or as a
      report; without an answer the context's error is the outcome. */
  lemma RelayedCancelled(listening: bool, quiet: seq<Signal<Raw>>, reachable: bool, last: Signal<Raw>, rest: seq<RelaySignal>)
    requires NoRelayAnswer(quiet) && !last.Cancelled?
    ensures var t := RelayWait(false, listening, Wrapped(quiet) + ([Event(Cancelled(reachable))] + (Wrapped([last]) + rest)));
            && t.cancels == 1
            && t.callbacks == (if listening then RelayReports(quiet) + RelayReports([last]) else [])
            && t.outcome == if RelayAnswer(last).Some? then RelayAnswer(last) else Some(Failed(ContextDone))
  {
    var tail := Wrapped([last]) + rest;
    var script := Wrapped(quiet) + ([Event(Cancelled(reachable))] + tail);
    EventsWrapped([last], rest);
    CancelComesThrough(reachable, tail);
    EventsWrapped(quiet, [Event(Cancelled(reachable))] + tail);
    NoTimeoutBeforeCancel(quiet, reachable, tail);
    RelayRefines(false, listening, script);
    forall i | 0 <= i < |quiet| ensures !Terminal(HandleRaw, quiet[i]) && !quiet[i].Cancelled? {
      RelayEvent(quiet[i]);
    }
    RelayEvent(last);
    RelayCallbacks(listening, quiet);
    assert quiet + [Cancelled(true)] + [] + [last] + Events(rest) == Events(script);
    DecidedByCancel(HandleRaw, listening, quiet, true, [], last, Events(rest));
  }

  lemma CancelComesThrough(reachable: bool, tail: seq<RelaySignal>)
    ensures Events([Event(Cancelled(reachable))] + tail) == [Cancelled(true)] + Events(tail)
  {
    assert ([Event(Cancelled(reachable))] + tail)[1..] == tail;
  }

  lemma {:induction false} NoTimeoutBeforeCancel(quiet: seq<Signal<Raw>>, reachable: bool, tail: seq<RelaySignal>)
    ensures !TimesOut(Wrapped(quiet) + ([Event(Cancelled(reachable))] + tail))
  {
    var script := Wrapped(quiet) + ([Event(Cancelled(reachable))] + tail);
    if quiet == [] {
      assert script[0] == Event(Cancelled(reachable));
    } else {
      assert script[0] == Event(quiet[0]);
      assert script[1..] == Wrapped(quiet[1..]) + ([Event(Cancelled(reachable))] + tail);
      NoTimeoutBeforeCancel(quiet[1..], reachable, tail);
    }
  }

  // ---------------------------------------------------------------- the serving side

  /** The owning replica's own Bridge.Dispatch: refused at once, or run to an outcome. */
  function LocalDispatch(connected: bool, registration: Option<Error>, script: seq<Signal<Message>>): Trace {
    if !connected then Trace([], 0, 0, Some(Failed(DeviceOffline)))
    else if registration.Some? then Trace([], 0, 0, Some(Failed(registration.value)))
    else Wait(HandleMessage, true, script)
  }

  /** registerPending's two errors. */
  predicate RegistrationError(e: Error) {
    e.BadCorrelationId? || e.PrefixCollision?
  }

  /** The text of an error, as published. */
  function Text(e: Error): string {
    match e
    case DeviceOffline => "agent: device offline"
    case BadCorrelationId(id) => "protocol: correlation id " + id
    case PrefixCollision(id) => "agent connection: binary correlation prefix collision for " + id
    case ConnectionClosed => "agent: connection closed during dispatch"
    case BadResult => "agent: decode result"
    case AgentError(code, message) => "agent error " + code + ": " + message
    case ContextDone => "context canceled"
    case NoResponse => "agent: no response to relayed dispatch"
    case Remote(text) => text
  }

  function EncodeCallback(c: Callback): Raw {
    match c
    case OnProgress(p) => Encoded(RelayMessage(Some(p), None, [], None, ""))
    case OnBinary(h, data) => Encoded(RelayMessage(None, Some(h), data, None, ""))
  }

  function EncodeOutcome(o: Outcome): Raw {
    match o
    case Returned(r) => Encoded(RelayMessage(None, None, [], Some(r), ""))
    case Failed(e) => Encoded(RelayMessage(None, None, [], None, Text(e)))
  }

  function EncodeAll(callbacks: seq<Callback>): seq<Raw> {
    seq(|callbacks|, i requires 0 <= i < |callbacks| => EncodeCallback(callbacks[i]))
  }

  /** Everything serveOneRelayedDispatch publishes for a dispatch that has ended. */
  function Published(t: Trace): seq<Raw>
    requires t.outcome.Some?
  {
    EncodeAll(t.callbacks) + [EncodeOutcome(t.outcome.value)]
  }

  /** The outcome up to the text of its error. */
  function AcrossTheWire(o: Outcome): Outcome {
    match o
    case Returned(r) => o
    case Failed(e) => Failed(Remote(Text(e)))
  }

  /** The messages that a script delivers to the requester. */
  function Heard(script: seq<RelaySignal>): seq<Raw> {
    if script == [] then []
    else (if script[0].Event? && script[0].signal.Received? then [script[0].signal.message] else []) + Heard(script[1..])
  }

  /** An error outcome has a text, so its message cannot be mistaken for an intermediate one. */
  lemma OutcomeHasText(connected: bool, registration: Option<Error>, script: seq<Signal<Message>>)
    requires registration.Some? ==> RegistrationError(registration.value)
    ensures var o := LocalDispatch(connected, registration, script).outcome;
            o.Some? && o.value.Failed? ==> Text(o.value.error) != ""
  {
    EveryScript(HandleMessage, true, script);
  }

  /** What the requester makes of a published run, whatever ignored events come between. */
  lemma {:induction false} HearsAll(script: seq<RelaySignal>, callbacks: seq<Callback>, o: Outcome)
    requires o.Failed? ==> Text(o.error) != ""
    requires Heard(script) == EncodeAll(callbacks) + [EncodeOutcome(o)]
    requires forall i :: 0 <= i < |script| && script[i].Event? ==> !script[i].signal.Closed? && !script[i].signal.Cancelled?
    ensures var t := RelayWait(true, true, script);
            t.callbacks == callbacks && t.outcome == Some(AcrossTheWire(o)) && t.cancels == 0
  {
    var rest := script[1..];
    assert forall i :: 0 <= i < |rest| ==> rest[i] == script[i + 1];
    if script[0].Event? && script[0].signal.Received? {
      var m := script[0].signal.message;
      assert m == Heard(script)[0] && Heard(rest) == Heard(script)[1..];
      if callbacks == [] {
        assert m == EncodeOutcome(o);
      } else {
        assert m == EncodeCallback(callbacks[0]);
        assert EncodeAll(callbacks)[1..] == EncodeAll(callbacks[1..]);
        assert Heard(rest) == EncodeAll(callbacks[1..]) + [EncodeOutcome(o)];
        HearsAll(rest, callbacks[1..], o);
      }
    } else {
      assert Heard(rest) == Heard(script);
      HearsAll(rest, callbacks, o);
    }
  }

  lemma {:induction false} GotDoesNotMatter(script: seq<RelaySignal>)
    requires !TimesOut(script)
    ensures RelayWait(false, true, script) == RelayWait(true, true, script)
  {
    if script != [] && script[0] == Event(GraceElapsed) {
      GotDoesNotMatter(script[1..]);
    }
  }

  /** Transparency: if the messages of a dispatch that the owning replica has served to its end all
      arrive, in order, and neither the timer nor a cancellation comes first, the requester's callbacks
      are the owner's, in order, and its outcome is the owner's up to the text of an error. */
  lemma Transparent(connected: bool, registration: Option<Error>, local: seq<Signal<Message>>, script: seq<RelaySignal>)
    requires registration.Some? ==> RegistrationError(registration.value)
    requires LocalDispatch(connected, registration, local).outcome.Some?
    requires Heard(script) == Published(LocalDispatch(connected, registration, local))
    requires forall i :: 0 <= i < |script| && script[i].Event? ==> !script[i].signal.Closed? && !script[i].signal.Cancelled?
    requires !TimesOut(script)
    ensures var served := LocalDispatch(connected, registration, local);
            var t := RelayWait(false, true, script);
            t.callbacks == served.callbacks && t.outcome == Some(AcrossTheWire(served.outcome.value)) && t.cancels == 0
  {
    var served := LocalDispatch(connected, registration, local);
    OutcomeHasText(connected, registration, local);
    HearsAll(script, served.callbacks, served.outcome.value);
    GotDoesNotMatter(script);
  }

  /** So whatever ends a dispatch on the owner's device ends it at the requester, with the agent's reports
      before it in order: its result is returned, its error comes back by its text. */
  lemma RelayedAnswer(quiet: seq<Signal<Message>>, last: Signal<Message>, script: seq<RelaySignal>)
    requires NoAnswer(quiet) && Answer(last).Some?
    requires LocalDispatch(true, None, quiet + [last] + []).outcome.Some?
    requires Heard(script) == Published(LocalDispatch(true, None, quiet + [last] + []))
    requires forall i :: 0 <= i < |script| && script[i].Event? ==> !script[i].signal.Closed? && !script[i].signal.Cancelled?
    requires !TimesOut(script)
    ensures var t := RelayWait(false, true, script);
            && t.callbacks == Reports(quiet) && t.cancels == 0
            && t.outcome == Some(match Answer(last).value
                                 case Returned(r) => Returned(r)
                                 case Failed(AgentError(code, message)) => Failed(Remote("agent error " + code + ": " + message))
                                 case Failed(ConnectionClosed) => Failed(Remote("agent: connection closed during dispatch"))
                                 case Failed(e) => Failed(Remote("agent: decode result")))
  {
    AgentDecides(true, quiet, last, []);
    Transparent(true, None, quiet + [last] + [], script);
  }

  /** A dispatch that the owner cannot start comes back as the reason why. */
  lemma RelayedRefusal(connected: bool, registration: Option<Error>, local: seq<Signal<Message>>, script: seq<RelaySignal>)
    requires !connected || (registration.Some? && RegistrationError(registration.value))
    requires registration.Some? ==> RegistrationError(registration.value)
    requires Heard(script) == Published(LocalDispatch(connected, registration, local))
    requires forall i :: 0 <= i < |script| && script[i].Event? ==> !script[i].signal.Closed? && !script[i].signal.Cancelled?
    requires !TimesOut(script)
    ensures var t := RelayWait(false, true, script);
            && t.callbacks == [] && t.cancels == 0
            && t.outcome == Some(Failed(Remote(if !connected then "agent: device offline" else Text(registration.value))))
  {
    Transparent(connected, registration, local, script);
  }
}
