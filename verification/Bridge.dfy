/** The dispatch bridge (internal/agent/dispatch.go): one in-flight dispatch turns the messages that
    its channel delivers into progress callbacks and exactly one outcome.

    Go's select is a script here: a sequence of the events the wait loop reacts to, in the order it
    takes them.  An event that the current select does not listen to is passed over. */
module Bridge {
  import opened Util
  import opened Binary

  datatype Progress = Progress(percent: Option<real>, message: string)
  datatype Result = Result(tool: string, output: string, isError: bool, error: string)

  datatype Error =
    | DeviceOffline
    | BadCorrelationId(id: string)
    | PrefixCollision(id: string)
    | ConnectionClosed
    | BadResult
    | AgentError(code: string, message: string)
    | ContextDone
    | NoResponse                    // the relay's first-message timeout
    | Remote(text: string)          // an error relayed as its text

  datatype Outcome = Returned(result: Result) | Failed(error: Error)

  /** One call of the dispatch's ProgressFunc. */
  datatype Callback = OnProgress(payload: Progress) | OnBinary(header: Header, data: seq<byte>)

  /** A bridgeMessage: an envelope by type, with its payload if that decodes, or a binary frame. */
  datatype Message =
    | ResultEnvelope(result: Option<Result>)
    | ErrorEnvelope(code: string, message: string)
    | ProgressEnvelope(progress: Option<Progress>)
    | OtherEnvelope
    | BinaryFrame(header: Header, data: seq<byte>)

  /** What handling one message amounts to: the callback it causes, or the outcome it decides. */
  datatype Handled = Nothing | Calls(callback: Callback) | Decides(outcome: Outcome)

  function HandleMessage(m: Message): Handled {
    match m
    case ResultEnvelope(None) => Decides(Failed(BadResult))
    case ResultEnvelope(Some(r)) => Decides(Returned(r))
    case ErrorEnvelope(code, message) => Decides(Failed(AgentError(code, message)))
    case ProgressEnvelope(None) => Nothing
    case ProgressEnvelope(Some(p)) => Calls(OnProgress(p))
    case OtherEnvelope => Nothing
    case BinaryFrame(h, data) => Calls(OnBinary(h, data))
  }

  // ---------------------------------------------------------------- the wait loop

  /** An event of the wait loop; the relay's loop delivers messages of another type M. */
  datatype Signal<M> =
    | Received(message: M)
    | Closed
    | Cancelled(reachable: bool)    // ctx.Done; reachable if the device still has a connection
    | GraceElapsed                  // the two seconds after a cancel

  datatype Trace = Trace(
    callbacks: seq<Callback>,
    cancels: nat,               // cancel messages sent
    taken: nat,                 // how much of the script was used
    outcome: Option<Outcome>)   // None while the loop is still waiting

  type Handler<!M> = M -> Handled

  const CONTEXT_DONE: Outcome := Failed(ContextDone)

  function Reaction<M>(handle: Handler<M>, s: Signal<M>): Handled {
    match s
    case Received(m) => handle(m)
    case Closed => Decides(Failed(ConnectionClosed))
    case Cancelled(_) => Nothing
    case GraceElapsed => Nothing
  }

  function CallbackOf<M>(handle: Handler<M>, listening: bool, s: Signal<M>): seq<Callback> {
    match Reaction(handle, s)
    case Calls(c) => if listening then [c] else []
    case _ => []
  }

  function Later(callbacks: seq<Callback>, cancels: nat, t: Trace): Trace {
    t.(callbacks := callbacks + t.callbacks, cancels := cancels + t.cancels, taken := 1 + t.taken)
  }

  function Extended(t: Trace, callbacks: seq<Callback>, taken: nat): Trace {
    t.(callbacks := callbacks + t.callbacks, taken := taken + t.taken)
  }

  /** What the last event taken after a cancel makes of the dispatch. */
  function LastWord<M>(handle: Handler<M>, last: Signal<M>): Outcome {
    var r := Reaction(handle, last);
    if r.Decides? then r.outcome else CONTEXT_DONE
  }

  /** The select that follows a cancel: one more message, or two seconds. */
  function AfterCancel<M>(handle: Handler<M>, listening: bool, script: seq<Signal<M>>): Trace {
    if script == [] then Trace([], 0, 0, None)
    else
      match script[0]
      case Cancelled(_) => Later([], 0, AfterCancel(handle, listening, script[1..]))
      case GraceElapsed => Trace([], 0, 1, Some(CONTEXT_DONE))
      case _ =>
        Trace(CallbackOf(handle, listening, script[0]), 0, 1, Some(LastWord(handle, script[0])))
  }

  function Wait<M>(handle: Handler<M>, listening: bool, script: seq<Signal<M>>): Trace {
    if script == [] then Trace([], 0, 0, None)
    else
      var s, rest := script[0], script[1..];
      match s
      case Cancelled(reachable) => Later([], if reachable then 1 else 0, AfterCancel(handle, listening, rest))
      case GraceElapsed => Later([], 0, Wait(handle, listening, rest))
      case _ =>
        var r := Reaction(handle, s);
        if r.Decides? then Trace([], 0, 1, Some(r.outcome))
        else Later(CallbackOf(handle, listening, s), 0, Wait(handle, listening, rest))
  }

  // ---------------------------------------------------------------- what it guarantees

  /** The callbacks that a stretch of the script asks for, in order. */
  function Callbacks<M>(handle: Handler<M>, listening: bool, script: seq<Signal<M>>): seq<Callback> {
    if script == [] then []
    else CallbackOf(handle, listening, script[0]) + Callbacks(handle, listening, script[1..])
  }

  predicate Terminal<M>(handle: Handler<M>, s: Signal<M>) {
    Reaction(handle, s).Decides?
  }

  predicate IsMessage<M>(s: Signal<M>) {
    s.Received? || s.Closed?
  }

  function MessageCount<M>(script: seq<Signal<M>>): nat {
    if script == [] then 0 else (if IsMessage(script[0]) then 1 else 0) + MessageCount(script[1..])
  }

  /** Nothing in the script decides the dispatch and it is not cancelled. */
  predicate Quiet<M>(handle: Handler<M>, script: seq<Signal<M>>) {
    forall i :: 0 <= i < |script| ==> !Terminal(handle, script[i]) && !script[i].Cancelled?
  }

  lemma {:induction false} QuietPrefix<M>(handle: Handler<M>, listening: bool, quiet: seq<Signal<M>>, rest: seq<Signal<M>>)
    requires Quiet(handle, quiet)
    ensures Wait(handle, listening, quiet + rest)
         == Extended(Wait(handle, listening, rest), Callbacks(handle, listening, quiet), |quiet|)
  {
    if quiet == [] {
      assert quiet + rest == rest;
    } else {
      var s := quiet[0];
      assert !Terminal(handle, s) && !s.Cancelled?;
      assert (quiet + rest)[1..] == quiet[1..] + rest;
      assert Quiet(handle, quiet[1..]) by {
        assert forall i :: 0 <= i < |quiet[1..]| ==> quiet[1..][i] == quiet[i + 1];
      }
      QuietPrefix(handle, listening, quiet[1..], rest);
      var t := Wait(handle, listening, rest);
      assert CallbackOf(handle, listening, s) + (Callbacks(handle, listening, quiet[1..]) + t.callbacks)
          == Callbacks(handle, listening, quiet) + t.callbacks;
    }
  }

  /** Uncancelled: the callbacks are exactly those of the messages before the first terminal one, in
      order; the outcome is the terminal one's; no cancel is sent; nothing after it is taken. */
  lemma DecidedByMessage<M>(handle: Handler<M>, listening: bool, quiet: seq<Signal<M>>, last: Signal<M>, rest: seq<Signal<M>>)
    requires Quiet(handle, quiet) && Terminal(handle, last)
    ensures Wait(handle, listening, quiet + [last] + rest)
         == Trace(Callbacks(handle, listening, quiet), 0, |quiet| + 1, Some(Reaction(handle, last).outcome))
  {
    QuietPrefix(handle, listening, quiet, [last] + rest);
    assert quiet + [last] + rest == quiet + ([last] + rest);
    assert Callbacks(handle, listening, quiet) + [] == Callbacks(handle, listening, quiet);
  }

  /** Cancelled at any point: one cancel at most, then at most one more message, which alone can still
      decide the outcome or call back; otherwise the context's error is the outcome. */
  lemma DecidedByCancel<M>(handle: Handler<M>, listening: bool, quiet: seq<Signal<M>>, reachable: bool,
                           repeats: seq<Signal<M>>, last: Signal<M>, rest: seq<Signal<M>>)
    requires Quiet(handle, quiet) && !last.Cancelled?
    requires forall i :: 0 <= i < |repeats| ==> repeats[i].Cancelled?
    ensures Wait(handle, listening, quiet + [Cancelled(reachable)] + repeats + [last] + rest)
         == Trace(Callbacks(handle, listening, quiet) + CallbackOf(handle, listening, last),
                  if reachable then 1 else 0,
                  |quiet| + 1 + |repeats| + 1,
                  Some(LastWord(handle, last)))
  {
    var tail := [Cancelled(reachable)] + (repeats + ([last] + rest));
    assert quiet + [Cancelled(reachable)] + repeats + [last] + rest == quiet + tail;
    QuietPrefix(handle, listening, quiet, tail);
    assert tail[1..] == repeats + ([last] + rest);
    SkipRepeats(handle, listening, repeats, last, rest);
  }

  lemma {:induction false} SkipRepeats<M>(handle: Handler<M>, listening: bool, repeats: seq<Signal<M>>, last: Signal<M>, rest: seq<Signal<M>>)
    requires !last.Cancelled? && forall i :: 0 <= i < |repeats| ==> repeats[i].Cancelled?
    ensures AfterCancel(handle, listening, repeats + ([last] + rest))
         == Trace(CallbackOf(handle, listening, last), 0, |repeats| + 1, Some(LastWord(handle, last)))
  {
    if repeats == [] {
      assert repeats + ([last] + rest) == [last] + rest;
    } else {
      assert (repeats + ([last] + rest))[1..] == repeats[1..] + ([last] + rest);
      SkipRepeats(handle, listening, repeats[1..], last, rest);
    }
  }

  /** With neither a terminal message nor a cancellation the dispatch keeps waiting. */
  lemma StillWaiting<M>(handle: Handler<M>, listening: bool, quiet: seq<Signal<M>>)
    requires Quiet(handle, quiet)
    ensures Wait(handle, listening, quiet) == Trace(Callbacks(handle, listening, quiet), 0, |quiet|, None)
  {
    QuietPrefix(handle, listening, quiet, []);
    assert quiet + [] == quiet;
    assert Callbacks(handle, listening, quiet) + [] == Callbacks(handle, listening, quiet);
  }

  /** The last event taken decides, and no event before it was terminal. */
  ghost predicate Decided<M>(handle: Handler<M>, script: seq<Signal<M>>, t: Trace)
    requires t.taken <= |script|
  {
    && (t.outcome.None? ==> t.taken == |script|)
    && (t.outcome.Some? ==> t.taken > 0 && t.outcome.value == LastWord(handle, script[t.taken - 1]))
    && (forall i :: 0 <= i < t.taken - (if t.outcome.Some? then 1 else 0) ==> !Terminal(handle, script[i]))
  }

  /** Taking one more event that decides nothing. */
  lemma DecidedLater<M>(handle: Handler<M>, script: seq<Signal<M>>, callbacks: seq<Callback>, cancels: nat, t: Trace)
    requires script != [] && t.taken <= |script| - 1 && Decided(handle, script[1..], t) && !Terminal(handle, script[0])
    ensures Decided(handle, script, Later(callbacks, cancels, t))
  {
    var u := Later(callbacks, cancels, t);
    forall i | 0 <= i < u.taken - (if u.outcome.Some? then 1 else 0) ensures !Terminal(handle, script[i]) {
      if i > 0 {
        assert script[i] == script[1..][i - 1];
      }
    }
  }

  lemma CallbacksLater<M>(handle: Handler<M>, listening: bool, script: seq<Signal<M>>, n: nat)
    requires n < |script|
    ensures Callbacks(handle, listening, script[..n + 1])
         == CallbackOf(handle, listening, script[0]) + Callbacks(handle, listening, script[1..][..n])
  {
    assert script[..n + 1][1..] == script[1..][..n];
  }

  /** The trace uses a part of the script, calls back for exactly that part, and is decided by it. */
  ghost predicate Accounts<M>(handle: Handler<M>, listening: bool, script: seq<Signal<M>>, t: Trace) {
    && t.taken <= |script|
    && t.callbacks == Callbacks(handle, listening, script[..t.taken])
    && Decided(handle, script, t)
  }

  lemma AccountsLater<M>(handle: Handler<M>, listening: bool, script: seq<Signal<M>>, cancels: nat, t: Trace)
    requires script != [] && Accounts(handle, listening, script[1..], t) && !Terminal(handle, script[0])
    ensures Accounts(handle, listening, script, Later(CallbackOf(handle, listening, script[0]), cancels, t))
  {
    CallbacksLater(handle, listening, script, t.taken);
    DecidedLater(handle, script, CallbackOf(handle, listening, script[0]), cancels, t);
  }

  lemma AccountsAtOnce<M>(handle: Handler<M>, listening: bool, script: seq<Signal<M>>)
    requires script != []
    ensures Accounts(handle, listening, script,
                     Trace(CallbackOf(handle, listening, script[0]), 0, 1, Some(LastWord(handle, script[0]))))
  {
    assert script[..1] == [script[0]];
    assert Callbacks(handle, listening, script[..1][1..]) == [];
  }

  /** Every script, without naming its parts: the callbacks are those of the part taken; a decided
      dispatch took no terminal message before its last event; at most one cancel was sent. */
  lemma {:induction false} EveryScript<M>(handle: Handler<M>, listening: bool, script: seq<Signal<M>>)
    ensures var t := Wait(handle, listening, script); Accounts(handle, listening, script, t) && t.cancels <= 1
  {
    if script != [] {
      var rest := script[1..];
      match script[0] {
        case Cancelled(reachable) =>
          EveryGrace(handle, listening, rest);
          AccountsLater(handle, listening, script, if reachable then 1 else 0, AfterCancel(handle, listening, rest));
        case _ =>
          if Terminal(handle, script[0]) {
            AccountsAtOnce(handle, listening, script);
          } else {
            EveryScript(handle, listening, rest);
            AccountsLater(handle, listening, script, 0, Wait(handle, listening, rest));
          }
      }
    }
  }

  /** After a cancellation no second cancel goes out, and at most one more message is consumed. */
  lemma {:induction false} EveryGrace<M>(handle: Handler<M>, listening: bool, script: seq<Signal<M>>)
    ensures var t := AfterCancel(handle, listening, script);
            Accounts(handle, listening, script, t) && t.cancels == 0 && MessageCount(script[..t.taken]) <= 1
  {
    if script != [] {
      var rest := script[1..];
      if script[0].Cancelled? {
        EveryGrace(handle, listening, rest);
        var u := AfterCancel(handle, listening, rest);
        AccountsLater(handle, listening, script, 0, u);
        assert script[..u.taken + 1][1..] == rest[..u.taken];
      } else {
        AccountsAtOnce(handle, listening, script);
        assert MessageCount(script[..1][1..]) == 0;
      }
    }
  }

  // ---------------------------------------------------------------- what an agent's messages do

  /** The outcome that an event decides: only results, errors and the closing of the channel do. */
  function Answer(s: Signal<Message>): Option<Outcome> {
    match s
    case Closed => Some(Failed(ConnectionClosed))
    case Received(ResultEnvelope(Some(r))) => Some(Returned(r))
    case Received(ResultEnvelope(None)) => Some(Failed(BadResult))
    case Received(ErrorEnvelope(code, message)) => Some(Failed(AgentError(code, message)))
    case _ => None
  }

  /** What the agent reports on the way: the payloads of progress envelopes that decode, and frames. */
  function Reports(script: seq<Signal<Message>>): seq<Callback> {
    if script == [] then []
    else
      (match script[0]
       case Received(ProgressEnvelope(Some(p))) => [OnProgress(p)]
       case Received(BinaryFrame(h, data)) => [OnBinary(h, data)]
       case _ => []) + Reports(script[1..])
  }

  function Told(listening: bool, script: seq<Signal<Message>>): seq<Callback> {
    if listening then Reports(script) else []
  }

  predicate NoAnswer(script: seq<Signal<Message>>) {
    forall i :: 0 <= i < |script| ==> Answer(script[i]).None? && !script[i].Cancelled?
  }

  lemma AgentEvent(listening: bool, s: Signal<Message>)
    ensures Answer(s) == if Terminal(HandleMessage, s) then Some(Reaction(HandleMessage, s).outcome) else None
    ensures CallbackOf(HandleMessage, listening, s) == Told(listening, [s])
  {
    assert [s][1..] == [] && Reports([]) == [];
  }

  lemma {:induction false} AgentCallbacks(listening: bool, script: seq<Signal<Message>>)
    ensures Callbacks(HandleMessage, listening, script) == Told(listening, script)
  {
    if script != [] {
      AgentEvent(listening, script[0]);
      AgentCallbacks(listening, script[1..]);
      assert [script[0]][1..] == [] && Reports([]) == [];
    }
  }

  lemma NoAnswerIsQuiet(script: seq<Signal<Message>>)
    requires NoAnswer(script)
    ensures Quiet(HandleMessage, script)
  {
    forall i | 0 <= i < |script| ensures !Terminal(HandleMessage, script[i]) && !script[i].Cancelled? {
      AgentEvent(true, script[i]);
    }
  }

  /** A result, an error or a closed channel ends the dispatch, whatever came before that is none of
      these and whatever comes after: with the agent's result, its error, or the reason; and the caller has
      been told of exactly the progress and the frames that came before. */
  lemma AgentDecides(listening: bool, quiet: seq<Signal<Message>>, last: Signal<Message>, rest: seq<Signal<Message>>)
    requires NoAnswer(quiet) && Answer(last).Some?
    ensures Wait(HandleMessage, listening, quiet + [last] + rest) == Trace(Told(listening, quiet), 0, |quiet| + 1, Answer(last))
  {
    NoAnswerIsQuiet(quiet);
    AgentEvent(listening, last);
    AgentCallbacks(listening, quiet);
    DecidedByMessage(HandleMessage, listening, quiet, last, rest);
  }

  /** Nothing else ends it. */
  lemma AgentUndecided(listening: bool, quiet: seq<Signal<Message>>)
    requires NoAnswer(quiet)
    ensures Wait(HandleMessage, listening, quiet) == Trace(Told(listening, quiet), 0, |quiet|, None)
  {
    NoAnswerIsQuiet(quiet);
    AgentCallbacks(listening, quiet);
    StillWaiting(HandleMessage, listening, quiet);
  }

  /** Except a cancellation: then one cancel goes out if the device has a connection, and the next event
      still counts, as an answer or as a report; without an answer the context's error is the outcome. */
  lemma AgentCancelled(listening: bool, quiet: seq<Signal<Message>>, reachable: bool, last: Signal<Message>, rest: seq<Signal<Message>>)
    requires NoAnswer(quiet) && !last.Cancelled?
    ensures Wait(HandleMessage, listening, quiet + [Cancelled(reachable)] + [] + [last] + rest)
         == Trace(Told(listening, quiet) + Told(listening, [last]), if reachable then 1 else 0, |quiet| + 2,
                  if Answer(last).Some? then Answer(last) else Some(Failed(ContextDone)))
  {
    NoAnswerIsQuiet(quiet);
    AgentEvent(listening, last);
    AgentCallbacks(listening, quiet);
    DecidedByCancel(HandleMessage, listening, quiet, reachable, [], last, rest);
  }

  // ---------------------------------------------------------------- the loop itself

  lemma ExtendedLater(t: Trace, callbacks: seq<Callback>, more: seq<Callback>, taken: nat)
    ensures Extended(Later(more, 0, t), callbacks, taken) == Extended(t, callbacks + more, taken + 1)
  {
    assert callbacks + (more + t.callbacks) == callbacks + more + t.callbacks;
  }

  /** waitForResult: takes events until one decides, calling back for the messages that ask for it. */
  method WaitForResult<M>(handle: Handler<M>, listening: bool, script: seq<Signal<M>>) returns (t: Trace)
    ensures t == Wait(handle, listening, script)
  {
    var callbacks: seq<Callback> := [];
    var i := 0;
    while i < |script|
      invariant 0 <= i <= |script|
      invariant Wait(handle, listening, script) == Extended(Wait(handle, listening, script[i..]), callbacks, i)
    {
      var s := script[i];
      ghost var rest := script[i + 1..];
      assert script[i..][0] == s && script[i..][1..] == rest;
      if s.Cancelled? {
        var u := WaitOutCancel(handle, listening, script[i + 1..]);
        return Extended(Later([], if s.reachable then 1 else 0, u), callbacks, i);
      }
      var r := Reaction(handle, s);
      if r.Decides? {
        return Extended(Trace([], 0, 1, Some(r.outcome)), callbacks, i);
      }
      ExtendedLater(Wait(handle, listening, rest), callbacks, CallbackOf(handle, listening, s), i);
      if r.Calls? && listening {
        callbacks := callbacks + [r.callback];
      } else {
        assert callbacks + [] == callbacks;
      }
      i := i + 1;
    }
    t := Trace(callbacks, 0, |script|, None);
  }

  method WaitOutCancel<M>(handle: Handler<M>, listening: bool, script: seq<Signal<M>>) returns (t: Trace)
    ensures t == AfterCancel(handle, listening, script)
  {
    var i := 0;
    while i < |script| && script[i].Cancelled?
      invariant 0 <= i <= |script|
      invariant AfterCancel(handle, listening, script) == Extended(AfterCancel(handle, listening, script[i..]), [], i)
    {
      assert script[i..][1..] == script[i + 1..];
      i := i + 1;
    }
    if i == |script| {
      return Trace([], 0, |script|, None);
    }
    var s := script[i];
    match Reaction(handle, s) {
      case Decides(outcome) => t := Trace([], 0, i + 1, Some(outcome));
      case Calls(c) => t := Trace(if listening then [c] else [], 0, i + 1, Some(CONTEXT_DONE));
      case Nothing => t := Trace([], 0, i + 1, Some(CONTEXT_DONE));
    }
  }
}
