/** The agent's connection loop (cmd/agent/main.go, connectionLifecycle) driving the outbox: connect,
    resume or abandon, run, detach, hold for the grace period.  Abandoning starts a new epoch.  Each
    event is one atomic step. */
module Lifecycle {
  import opened Util
  import opened Outbox
  import Backoff

  datatype Event =
    | ConnectFailed(random: real)
    | Connected(resume: bool, writes: nat)      // the handshake's resume flag
    | Lost
    | GraceExpired                              // the agent's own timer
    | Offered(item: Item)                       // by any in-flight dispatch

  /** offeredIn and deliveredIn record the epoch of every offer and of every delivery. */
  datatype Agent = Agent(
    box: State,
    connected: bool,
    graceArmed: bool,
    attempt: nat,
    waits: seq<int>,
    epoch: nat,
    offeredIn: seq<nat>,
    deliveredIn: seq<nat>)

  const START: Agent := Agent(Outbox.INITIAL, false, false, 0, [], 0, [], [])

  predicate Enabled(a: Agent, e: Event) {
    match e
    case ConnectFailed(random) => !a.connected && 0.0 <= random < 1.0
    case Connected(_, _) => !a.connected
    case Lost => a.connected
    case GraceExpired => a.graceArmed
    case Offered(_) => true
  }

  function Repeat(x: nat, n: nat): seq<nat> {
    seq(n, i => x)
  }

  /** The same agent with a new outbox state; whatever that delivered was delivered in this epoch. */
  function WithBox(a: Agent, box: State): Agent {
    var more := |box.delivered| - |a.box.delivered|;
    a.(box := box, deliveredIn := a.deliveredIn + Repeat(a.epoch, if more > 0 then more else 0))
  }

  function Abandon(a: Agent): Agent {
    WithBox(a, DropStep(a.box)).(epoch := a.epoch + 1)
  }

  function Advance(a: Agent, e: Event): Agent
    requires Enabled(a, e)
  {
    match e
    case ConnectFailed(random) =>
      a.(attempt := a.attempt + 1, waits := a.waits + [Backoff.NextBackoff(a.attempt + 1, random)])
    case Connected(resume, writes) =>
      var b := if resume then a else Abandon(a);
      WithBox(b, AttachStep(b.box, writes, resume)).(connected := true, graceArmed := false, attempt := 0)
    case Lost => WithBox(a, Step(a.box, Detach)).(connected := false, graceArmed := true)
    case GraceExpired => Abandon(a).(graceArmed := false)
    case Offered(item) => WithBox(a, OfferStep(a.box, item)).(offeredIn := a.offeredIn + [a.epoch])
  }

  predicate Legal(a: Agent, run: seq<Event>)
    decreases |run|
  {
    run == [] || (Enabled(a, run[0]) && Legal(Advance(a, run[0]), run[1..]))
  }

  function After(a: Agent, run: seq<Event>): Agent
    requires Legal(a, run)
    decreases |run|
  {
    if run == [] then a else After(Advance(a, run[0]), run[1..])
  }

  // ---------------------------------------------------------------- invariants

  /** Everything buffered was offered in the present epoch, and everything delivered was delivered in
      the epoch it was offered in. */
  ghost predicate EpochsOk(a: Agent) {
    && |a.offeredIn| == |a.box.offered| && |a.deliveredIn| == |a.box.delivered|
    && (forall p :: p in a.box.envelopes || p in a.box.frames ==> p < |a.offeredIn| && a.offeredIn[p] == a.epoch)
    && (forall i :: 0 <= i < |a.deliveredIn| ==>
          a.box.delivered[i] < |a.offeredIn| && a.offeredIn[a.box.delivered[i]] == a.deliveredIn[i])
  }

  ghost predicate Inv(a: Agent) {
    && OrderInv(a.box) && Windows(a.box)
    && EpochsOk(a)
    && (a.connected <==> a.box.remaining.Some?)
    && (a.graceArmed ==> !a.connected)
    && forall i :: 0 <= i < |a.waits| ==> 800_000_000 <= a.waits[i] <= 36_000_000_000
  }

  lemma AbandonKeepsInv(a: Agent)
    requires Inv(a)
    ensures Inv(Abandon(a)) && Abandon(a).box.envelopes == [] && Abandon(a).box.frames == []
  {
    StepKeepsOrder(a.box, Drop);
    StepKeepsWindows(a.box, Drop);
  }

  lemma AttachKeepsEpochs(a: Agent, writes: nat, flush: bool)
    requires EpochsOk(a)
    ensures EpochsOk(WithBox(a, AttachStep(a.box, writes, flush)))
  {
    var backlog := a.box.frames + a.box.envelopes;
    var t := WithBox(a, AttachStep(a.box, writes, flush));
    forall i | 0 <= i < |t.deliveredIn|
      ensures t.box.delivered[i] < |t.offeredIn| && t.offeredIn[t.box.delivered[i]] == t.deliveredIn[i]
    {
      if i >= |a.box.delivered| {
        assert t.box.delivered[i] == backlog[i - |a.box.delivered|];
        assert t.box.delivered[i] in a.box.frames || t.box.delivered[i] in a.box.envelopes;
      }
    }
  }

  lemma OfferKeepsEpochs(a: Agent, item: Item)
    requires EpochsOk(a)
    ensures EpochsOk(Advance(a, Offered(item)))
  {
    var t := Advance(a, Offered(item));
    assert forall p :: p in t.box.envelopes || p in t.box.frames ==>
             p == |a.box.offered| || p in a.box.envelopes || p in a.box.frames;
  }

  lemma ConnectKeepsInv(a: Agent, resume: bool, writes: nat)
    requires Inv(a) && !a.connected
    ensures Inv(Advance(a, Connected(resume, writes)))
  {
    var b := if resume then a else Abandon(a);
    if !resume {
      AbandonKeepsInv(a);
    }
    AttachKeepsOrder(b.box, writes, resume);
    StepKeepsWindows(b.box, Attach(writes, resume));
    AttachKeepsEpochs(b, writes, resume);
  }

  lemma OfferKeepsInv(a: Agent, item: Item)
    requires Inv(a)
    ensures Inv(Advance(a, Offered(item)))
  {
    OfferKeepsOrder(a.box, item);
    OfferKeepsWindows(a.box, item);
    OfferKeepsEpochs(a, item);
  }

  lemma AdvanceKeepsInv(a: Agent, e: Event)
    requires Inv(a) && Enabled(a, e)
    ensures Inv(Advance(a, e))
  {
    match e
    case ConnectFailed(random) => Backoff.DelayRange(a.attempt + 1, random);
    case Connected(resume, writes) => ConnectKeepsInv(a, resume, writes);
    case Lost =>
      StepKeepsOrder(a.box, Detach);
      StepKeepsWindows(a.box, Detach);
    case GraceExpired => AbandonKeepsInv(a);
    case Offered(item) => OfferKeepsInv(a, item);
  }

  lemma {:induction false} RunKeepsInv(a: Agent, run: seq<Event>)
    requires Inv(a) && Legal(a, run)
    ensures Inv(After(a, run))
    decreases |run|
  {
    if run != [] {
      AdvanceKeepsInv(a, run[0]);
      RunKeepsInv(Advance(a, run[0]), run[1..]);
    }
  }

  // ---------------------------------------------------------------- what a run guarantees

  /** Over every run of the agent, whatever reaches the server was offered in the same epoch: once
      local state has been abandoned, by a fresh session or by the grace timer, nothing offered before
      is ever delivered. */
  lemma DeliveredInItsEpoch(run: seq<Event>, i: nat)
    requires Legal(START, run) && i < |After(START, run).box.delivered|
    ensures var a := After(START, run);
            && i < |a.deliveredIn| && a.box.delivered[i] < |a.offeredIn|
            && a.offeredIn[a.box.delivered[i]] == a.deliveredIn[i]
  {
    RunKeepsInv(START, run);
  }

  /** Over every run the grace timer is armed only while disconnected, and every wait between attempts
      is between 0.8 and 36 seconds. */
  lemma GraceOnlyWhileDown(run: seq<Event>)
    requires Legal(START, run)
    ensures var a := After(START, run);
            && (a.graceArmed ==> !a.connected && !Live(a.box))
            && forall w :: w in a.waits ==> 800_000_000 <= w <= 36_000_000_000
  {
    RunKeepsInv(START, run);
  }

  // ---------------------------------------------------------------- what the loop keeps, from the events alone

  /** Failed attempts since the last connection. */
  function FailuresSince(run: seq<Event>): nat {
    if run == [] then 0
    else
      match run[|run| - 1]
      case ConnectFailed(_) => FailuresSince(run[..|run| - 1]) + 1
      case Connected(_, _) => 0
      case _ => FailuresSince(run[..|run| - 1])
  }

  predicate Up(run: seq<Event>) {
    run != [] &&
    (run[|run| - 1].Connected? || (!run[|run| - 1].Lost? && Up(run[..|run| - 1])))
  }

  /** The last connection was lost, and neither has another come nor the grace period ended since. */
  predicate InGrace(run: seq<Event>) {
    run != [] &&
    (run[|run| - 1].Lost? || (!run[|run| - 1].Connected? && !run[|run| - 1].GraceExpired? && InGrace(run[..|run| - 1])))
  }

  /** How often local state was given up: by a fresh session, or by the grace timer. */
  function Abandonments(run: seq<Event>): nat {
    if run == [] then 0
    else
      var e := run[|run| - 1];
      Abandonments(run[..|run| - 1]) + if e.GraceExpired? || (e.Connected? && !e.resume) then 1 else 0
  }

  lemma {:induction false} LegalSplit(a: Agent, run: seq<Event>, e: Event)
    requires Legal(a, run + [e])
    ensures Legal(a, run) && Enabled(After(a, run), e)
    decreases |run|
  {
    if run == [] {
      assert (run + [e])[0] == e;
    } else {
      assert (run + [e])[1..] == run[1..] + [e] && (run + [e])[0] == run[0];
      LegalSplit(Advance(a, run[0]), run[1..], e);
    }
  }

  lemma AdvanceShape(a: Agent, e: Event)
    requires Enabled(a, e)
    ensures var b := Advance(a, e);
            && b.attempt == (if e.ConnectFailed? then a.attempt + 1 else if e.Connected? then 0 else a.attempt)
            && b.waits == (if e.ConnectFailed? then a.waits + [Backoff.NextBackoff(a.attempt + 1, e.random)] else a.waits)
            && b.connected == (e.Connected? || (!e.Lost? && a.connected))
            && b.graceArmed == (e.Lost? || (!e.Connected? && !e.GraceExpired? && a.graceArmed))
            && b.epoch == a.epoch + (if e.GraceExpired? || (e.Connected? && !e.resume) then 1 else 0)
            && b.box.offered == a.box.offered + (if e.Offered? then [e.item] else [])
  {
  }

  /** Over every run: attempts count the failures since the last connection; the loop is connected if the
      last connection has not been lost; the grace timer is armed from a loss to the next connection or its
      own end; an epoch ends exactly with a fresh session or that timer; and every item is offered. */
  lemma {:induction false} LoopKeeps(run: seq<Event>)
    requires Legal(START, run)
    ensures var a := After(START, run);
            && a.attempt == FailuresSince(run) && a.connected == Up(run) && a.graceArmed == InGrace(run)
            && a.epoch == Abandonments(run) && a.box.offered == ItemsOf(run)
    decreases |run|
  {
    if run != [] {
      var before, e := run[..|run| - 1], run[|run| - 1];
      assert run == before + [e];
      LegalSplit(START, before, e);
      LoopKeeps(before);
      AfterSnoc(START, before, e);
      AdvanceShape(After(START, before), e);
    }
  }

  /** The wait after a failed attempt is the backoff for the number of failures in a row, within 20% of
      its doubling, capped base. */
  lemma WaitsBackOff(run: seq<Event>, random: real)
    requires Legal(START, run + [ConnectFailed(random)])
    ensures Legal(START, run) && 0.0 <= random < 1.0
    ensures var before, after := After(START, run), After(START, run + [ConnectFailed(random)]);
            var wait := Backoff.NextBackoff(FailuresSince(run) + 1, random);
            && after.waits == before.waits + [wait]
            && 4 * Backoff.Base(FailuresSince(run) + 1) <= 5 * wait <= 6 * Backoff.Base(FailuresSince(run) + 1)
  {
    LegalSplit(START, run, ConnectFailed(random));
    LoopKeeps(run);
    AfterSnoc(START, run, ConnectFailed(random));
    AdvanceShape(After(START, run), ConnectFailed(random));
    Backoff.JitterBounded(FailuresSince(run) + 1, random);
  }

  /** A fresh session and the grace timer discard the whole backlog and deliver none of it. */
  lemma AbandoningDiscards(a: Agent, e: Event)
    requires Enabled(a, e) && (e.GraceExpired? || (e.Connected? && !e.resume))
    ensures var b := Advance(a, e);
            && b.box.envelopes == [] && b.box.frames == [] && b.box.delivered == a.box.delivered
            && b.box.discarded == a.box.discarded + (a.box.frames + a.box.envelopes)
            && (e.Connected? ==> b.box.remaining == Some(e.writes))
  {
  }

  // ---------------------------------------------------------------- a short outage

  /** Offers and failed attempts, in any mixture. */
  predicate Outage(events: seq<Event>) {
    forall i :: 0 <= i < |events| ==> events[i].Offered? || (events[i].ConnectFailed? && 0.0 <= events[i].random < 1.0)
  }

  function ItemsOf(events: seq<Event>): seq<Item> {
    if events == [] then []
    else ItemsOf(events[..|events| - 1]) + (if events[|events| - 1].Offered? then [events[|events| - 1].item] else [])
  }

  lemma OfferAllSnoc(s: State, items: seq<Item>, item: Item)
    ensures OfferAll(s, items + [item]) == OfferStep(OfferAll(s, items), item)
  {
    assert (items + [item])[..|items|] == items;
  }

  lemma {:induction false} AfterSnoc(a: Agent, run: seq<Event>, e: Event)
    requires Legal(a, run) && Enabled(After(a, run), e)
    ensures Legal(a, run + [e]) && After(a, run + [e]) == Advance(After(a, run), e)
    decreases |run|
  {
    if run == [] {
      assert run + [e] == [e];
    } else {
      assert (run + [e])[1..] == run[1..] + [e];
      AfterSnoc(Advance(a, run[0]), run[1..], e);
    }
  }

  /** During an outage the outbox takes every offer and nothing else happens to it. */
  lemma {:induction false} OutageOnlyOffers(a: Agent, events: seq<Event>)
    requires Outage(events) && !a.connected
    ensures Legal(a, events) && !After(a, events).connected
    ensures After(a, events).box == OfferAll(a.box, ItemsOf(events)) && After(a, events).epoch == a.epoch
  {
    if events != [] {
      var rest, e := events[..|events| - 1], events[|events| - 1];
      OutageParts(events);
      OutageOnlyOffers(a, rest);
      OutageStep(After(a, rest), a.box, ItemsOf(rest), e);
      AfterSnoc(a, rest, e);
    }
  }

  lemma OutageParts(events: seq<Event>)
    requires Outage(events) && events != []
    ensures var rest, e := events[..|events| - 1], events[|events| - 1];
            && events == rest + [e] && Outage(rest) && Outage([e])
            && ItemsOf(events) == ItemsOf(rest) + (if e.Offered? then [e.item] else [])
  {
  }

  lemma OutageStep(a: Agent, start: State, items: seq<Item>, e: Event)
    requires !a.connected && Outage([e]) && a.box == OfferAll(start, items)
    ensures Enabled(a, e)
    ensures var b := Advance(a, e);
            && !b.connected && b.epoch == a.epoch
            && b.box == OfferAll(start, items + (if e.Offered? then [e.item] else []))
  {
    assert [e][0] == e;
    if e.Offered? {
      OfferAllSnoc(start, items, e.item);
    } else {
      assert items + [] == items;
    }
  }

  /** The promise of the outbox, kept by the loop around it.  From every reachable connected agent,
      whether its connection is lost in good health or after failed writes have already been buffered:
      after any mixture of offers and failed attempts to reconnect, a resume delivers, in the same
      epoch, the newest frames and then the newest envelopes held since the last clear, as many as the
      new connection takes.  Nothing is lost exactly if neither buffer overflowed and it takes them all;
      an agent that was live held nothing before. */
  lemma ShortOutageLosesNothing(run: seq<Event>, events: seq<Event>, writes: nat)
    requires Legal(START, run) && After(START, run).connected && Outage(events)
    ensures var a := After(START, run);
            var down := Advance(a, Lost);
            var frames := a.box.heldFrames + Positions(ItemsOf(events), |a.box.offered|, false);
            var envelopes := a.box.heldEnvelopes + Positions(ItemsOf(events), |a.box.offered|, true);
            var backlog := Backlog(frames, envelopes);
            && Legal(down, events) && Enabled(After(down, events), Connected(true, writes))
            && var b := Advance(After(down, events), Connected(true, writes));
               && b.epoch == a.epoch
               && b.box.delivered == a.box.delivered + backlog[..Min(writes, |backlog|)]
               && b.box.discarded == a.box.discarded + backlog[Min(writes, |backlog|)..]
               && (b.box.delivered == a.box.delivered + (frames + envelopes) <==> Fits(frames, envelopes, writes))
    ensures Live(After(START, run).box) ==> After(START, run).box.heldFrames == [] && After(START, run).box.heldEnvelopes == []
  {
    RunKeepsInv(START, run);
    OutageFrom(After(START, run), events, writes);
  }

  lemma OutageFrom(a: Agent, events: seq<Event>, writes: nat)
    requires Inv(a) && a.connected && Outage(events)
    ensures var down := Advance(a, Lost);
            var frames := a.box.heldFrames + Positions(ItemsOf(events), |a.box.offered|, false);
            var envelopes := a.box.heldEnvelopes + Positions(ItemsOf(events), |a.box.offered|, true);
            var backlog := Backlog(frames, envelopes);
            && Legal(down, events) && Enabled(After(down, events), Connected(true, writes))
            && var b := Advance(After(down, events), Connected(true, writes));
               && b.epoch == a.epoch
               && b.box.delivered == a.box.delivered + backlog[..Min(writes, |backlog|)]
               && b.box.discarded == a.box.discarded + backlog[Min(writes, |backlog|)..]
               && (b.box.delivered == a.box.delivered + (frames + envelopes) <==> Fits(frames, envelopes, writes))
    ensures Live(a.box) ==> a.box.heldFrames == [] && a.box.heldEnvelopes == []
  {
    LosingKeepsHeld(a);
    var down := Advance(a, Lost);
    OutageOnlyOffers(down, events);
    BriefOutage(down.box, ItemsOf(events), writes);
    ResumeFlushes(After(down, events), writes);
  }

  /** Losing the connection changes nothing held; a live one leaves nothing held. */
  lemma LosingKeepsHeld(a: Agent)
    requires Inv(a) && a.connected
    ensures var s := Advance(a, Lost).box;
            && s.heldEnvelopes == a.box.heldEnvelopes && s.heldFrames == a.box.heldFrames && !Live(s) && Windows(s)
            && s.delivered == a.box.delivered && s.offered == a.box.offered && s.discarded == a.box.discarded
    ensures !Advance(a, Lost).connected && Advance(a, Lost).epoch == a.epoch
    ensures Live(a.box) ==> a.box.heldEnvelopes == [] && a.box.heldFrames == []
  {
  }

  lemma ResumeFlushes(a: Agent, writes: nat)
    requires !a.connected
    ensures var t := Advance(a, Connected(true, writes)); t.box == AttachStep(a.box, writes, true) && t.epoch == a.epoch
  {
  }

  // ---------------------------------------------------------------- the loop

  /** connectionLifecycle, fed with what happens to it. */
  method ConnectionLifecycle(script: seq<Event>) returns (box: Box, attempt: nat, waits: seq<int>)
    requires Legal(START, script)
    ensures fresh(box) && box.Valid()
    ensures box.history == After(START, script).box
    ensures attempt == After(START, script).attempt && waits == After(START, script).waits
    ensures box.conn != null <==> Up(script)
    ensures attempt == FailuresSince(script) && box.history.offered == ItemsOf(script)
  {
    LoopKeeps(script);
    RunKeepsInv(START, script);
    box, attempt, waits := Loop(script);
  }

  method Loop(script: seq<Event>) returns (box: Box, attempt: nat, waits: seq<int>)
    requires Legal(START, script)
    ensures fresh(box) && box.Valid()
    ensures box.history == After(START, script).box
    ensures attempt == After(START, script).attempt && waits == After(START, script).waits
  {
    box := new Box();
    attempt, waits := 0, [];
    ghost var a := START;
    for i := 0 to |script|
      invariant fresh(box) && box.Valid() && (box.conn != null ==> fresh(box.conn))
      invariant Legal(a, script[i..]) && After(START, script) == After(a, script[i..])
      invariant box.history == a.box && attempt == a.attempt && waits == a.waits
    {
      assert script[i..][0] == script[i] && script[i..][1..] == script[i + 1..];
      a := Advance(a, script[i]);
      match script[i] {
        case ConnectFailed(random) =>
          attempt := attempt + 1;
          waits := waits + [Backoff.NextBackoff(attempt, random)];
        case Connected(resume, writes) =>
          attempt := 0;
          var conn := TakeOver(box, resume, writes);
        case Lost => box.Detach();
        case GraceExpired => box.Drop();
        case Offered(item) => Send(box, item);
      }
    }
  }

  /** A handshake has succeeded: resume the backlog on the new connection, or abandon it. */
  method TakeOver(box: Box, resume: bool, writes: nat) returns (conn: Connection)
    requires box.Valid()
    modifies box
    ensures fresh(conn) && box.conn == conn && box.Valid()
    ensures box.history == AttachStep(if resume then old(box.history) else DropStep(old(box.history)), writes, resume)
  {
    conn := new Connection(writes);
    if !resume {
      box.Drop();
    }
    box.Attach(conn, resume);
  }

  method Send(box: Box, item: Item)
    requires box.Valid()
    modifies box, box.conn
    ensures box.Valid() && box.conn == old(box.conn) && box.history == OfferStep(old(box.history), item)
  {
    match item {
      case Envelope(body) => box.SendEnvelope(body);
      case Frame(data) => box.SendBinary(data);
    }
  }
}
