/** The agent's outbox (agent/client/outbox.go): the send path that in-flight dispatches
    use, which forwards while a connection is attached and buffers while none is.

    Each operation is one atomic step.  A connection is a socket that takes some number of
    writes and then fails every later one, so `remaining` says when its failure comes. */
module Outbox {
  import opened Util
  import opened Binary

  const MAX_BUFFERED_ENVELOPES: nat := 256
  const MAX_BUFFERED_FRAMES: nat := 128

  datatype Item = Envelope(body: string) | Frame(data: seq<byte>)

  // ---------------------------------------------------------------- histories

  /** What an outbox has done so far.  Every item ever offered has a position in `offered`;
      the other sequences hold positions. */
  datatype State = State(
    remaining: Option<nat>,     // the attached connection's remaining writes
    envelopes: seq<nat>,        // buffered, oldest first
    frames: seq<nat>,
    heldEnvelopes: seq<nat>,    // everything that went to the buffer since it was last cleared
    heldFrames: seq<nat>,
    offered: seq<Item>,
    delivered: seq<nat>,        // in the order the connections took them
    evicted: seq<nat>,          // dropped because a buffer was full
    discarded: seq<nat>)        // dropped by Drop, by a fresh attach, or by a failed flush

  datatype Op =
    | Attach(writes: nat, flush: bool)
    | Detach
    | Drop
    | Offer(item: Item)

  const INITIAL: State := State(None, [], [], [], [], [], [], [], [])

  function Cleared(s: State): State {
    s.(envelopes := [], frames := [], heldEnvelopes := [], heldFrames := [])
  }

  function AttachStep(s: State, writes: nat, flush: bool): State {
    var backlog := s.frames + s.envelopes;
    var sent := if flush then Min(writes, |backlog|) else 0;
    Cleared(s).(remaining := Some(writes - sent),
                delivered := s.delivered + backlog[..sent],
                discarded := s.discarded + backlog[sent..])
  }

  function DropStep(s: State): State {
    Cleared(s).(discarded := s.discarded + (s.frames + s.envelopes))
  }

  predicate Live(s: State) {
    s.remaining.Some? && s.remaining.value > 0
  }

  /** A bounded buffer takes p, dropping its oldest entry first when it is full. */
  function Push(queue: seq<nat>, p: nat, bound: nat): seq<nat>
    requires bound > 0
  {
    (if |queue| >= bound then queue[1..] else queue) + [p]
  }

  function Victim(queue: seq<nat>, bound: nat): seq<nat>
    requires bound > 0
  {
    if |queue| >= bound then [queue[0]] else []
  }

  function OfferStep(s: State, item: Item): State {
    var p := |s.offered|;
    var t := s.(offered := s.offered + [item]);
    if Live(s) then
      t.(remaining := Some(s.remaining.value - 1), delivered := s.delivered + [p])
    else if item.Envelope? then
      t.(envelopes := Push(s.envelopes, p, MAX_BUFFERED_ENVELOPES),
         heldEnvelopes := s.heldEnvelopes + [p],
         evicted := s.evicted + Victim(s.envelopes, MAX_BUFFERED_ENVELOPES))
    else
      t.(frames := Push(s.frames, p, MAX_BUFFERED_FRAMES),
         heldFrames := s.heldFrames + [p],
         evicted := s.evicted + Victim(s.frames, MAX_BUFFERED_FRAMES))
  }

  function Step(s: State, op: Op): State {
    match op
    case Attach(writes, flush) => AttachStep(s, writes, flush)
    case Detach => s.(remaining := None)
    case Drop => DropStep(s)
    case Offer(item) => OfferStep(s, item)
  }

  function Run(ops: seq<Op>): State {
    if ops == [] then INITIAL else Step(Run(ops[..|ops| - 1]), ops[|ops| - 1])
  }

  // ---------------------------------------------------------------- invariants

  ghost predicate Ascending(ps: seq<nat>) {
    forall a, b :: 0 <= a < b < |ps| ==> ps[a] < ps[b]
  }

  /** ps are positions of offered items, in offer order, all envelopes or all frames. */
  ghost predicate Queue(offered: seq<Item>, ps: seq<nat>, envelopes: bool) {
    && Ascending(ps)
    && forall a :: 0 <= a < |ps| ==> ps[a] < |offered| && offered[ps[a]].Envelope? == envelopes
  }

  /** A non-empty buffer means that no live connection is attached. */
  ghost predicate BufferedMeansDown(s: State) {
    s.envelopes != [] || s.frames != [] ==> !Live(s)
  }

  /** Whatever is buffered was offered after everything delivered. */
  ghost predicate BufferedIsNewer(s: State) {
    Newer(s.delivered, s.envelopes) && Newer(s.delivered, s.frames)
  }

  ghost predicate Newer(older: seq<nat>, newer: seq<nat>) {
    forall a, b :: 0 <= a < |older| && 0 <= b < |newer| ==> older[a] < newer[b]
  }

  /** The one reordering delivery can show is a frame overtaking an envelope offered before it. */
  ghost predicate InOrder(offered: seq<Item>, ps: seq<nat>) {
    && (forall a :: 0 <= a < |ps| ==> ps[a] < |offered|)
    && (forall a, b :: 0 <= a < b < |ps| ==>
          ps[a] < ps[b] || (ps[b] < ps[a] && offered[ps[a]].Frame? && offered[ps[b]].Envelope?))
  }

  ghost predicate OrderInv(s: State) {
    && Queue(s.offered, s.envelopes, true)
    && Queue(s.offered, s.frames, false)
    && BufferedMeansDown(s)
    && BufferedIsNewer(s)
    && InOrder(s.offered, s.delivered)
  }

  function Upto(n: nat): seq<nat> {
    seq(n, i => i)
  }

  function Count(ps: seq<nat>, p: nat): nat {
    multiset(ps)[p]
  }

  /** How many times position p was delivered, is buffered, was evicted or was discarded. */
  function Fates(s: State, p: nat): nat {
    Count(s.delivered, p) + Count(s.envelopes, p) + Count(s.frames, p)
    + Count(s.evicted, p) + Count(s.discarded, p)
  }

  /** Every item offered is delivered, buffered, evicted or discarded, and only one of these, once. */
  ghost predicate Conserved(s: State) {
    forall p: nat :: Fates(s, p) == if p < |s.offered| then 1 else 0
  }

  /** Each buffer is the newest part of everything it was given since it was last cleared. */
  ghost predicate Windows(s: State) {
    && s.envelopes == LastN(s.heldEnvelopes, MAX_BUFFERED_ENVELOPES)
    && s.frames == LastN(s.heldFrames, MAX_BUFFERED_FRAMES)
  }

  // ---------------------------------------------------------------- each step keeps them

  lemma AttachKeepsOrder(s: State, writes: nat, flush: bool)
    requires OrderInv(s)
    ensures OrderInv(AttachStep(s, writes, flush))
  {
    var backlog := s.frames + s.envelopes;
    var t := AttachStep(s, writes, flush);
    forall a, b | 0 <= a < b < |t.delivered|
      ensures t.delivered[a] < t.delivered[b]
           || (t.delivered[b] < t.delivered[a] && t.offered[t.delivered[a]].Frame? && t.offered[t.delivered[b]].Envelope?)
    {
      if b >= |s.delivered| {
        var y := b - |s.delivered|;
        assert t.delivered[b] == backlog[y];
        if a >= |s.delivered| {
          assert t.delivered[a] == backlog[a - |s.delivered|];
        }
      }
    }
  }

  lemma PushKeepsQueue(offered: seq<Item>, queue: seq<nat>, item: Item, bound: nat, delivered: seq<nat>)
    requires bound > 0 && Queue(offered, queue, item.Envelope?)
    requires Newer(delivered, queue) && forall a :: 0 <= a < |delivered| ==> delivered[a] < |offered|
    ensures Queue(offered + [item], Push(queue, |offered|, bound), item.Envelope?)
    ensures Newer(delivered, Push(queue, |offered|, bound))
  {
    var dropped := if |queue| >= bound then 1 else 0;
    var pushed := Push(queue, |offered|, bound);
    assert |pushed| == |queue| - dropped + 1;
    assert forall a :: 0 <= a < |queue| - dropped ==> pushed[a] == queue[a + dropped];
    assert pushed[|pushed| - 1] == |offered|;
  }

  lemma OfferKeepsOrder(s: State, item: Item)
    requires OrderInv(s)
    ensures OrderInv(OfferStep(s, item))
  {
    var t := OfferStep(s, item);
    assert InOrder(t.offered, t.delivered);
    if !Live(s) {
      if item.Envelope? {
        PushKeepsQueue(s.offered, s.envelopes, item, MAX_BUFFERED_ENVELOPES, s.delivered);
      } else {
        PushKeepsQueue(s.offered, s.frames, item, MAX_BUFFERED_FRAMES, s.delivered);
      }
    }
  }

  lemma StepKeepsOrder(s: State, op: Op)
    requires OrderInv(s)
    ensures OrderInv(Step(s, op))
  {
    match op
    case Attach(writes, flush) => AttachKeepsOrder(s, writes, flush);
    case Offer(item) => OfferKeepsOrder(s, item);
    case Detach =>
    case Drop =>
  }

  lemma PushConserves(queue: seq<nat>, p: nat, bound: nat, q: nat)
    requires bound > 0
    ensures Count(Push(queue, p, bound), q) + Count(Victim(queue, bound), q) == Count(queue, q) + if q == p then 1 else 0
  {
    if |queue| >= bound {
      assert queue == [queue[0]] + queue[1..];
    }
  }

  lemma CountConcat(ps: seq<nat>, qs: seq<nat>, q: nat)
    ensures Count(ps + qs, q) == Count(ps, q) + Count(qs, q)
  {
  }

  lemma OfferFates(s: State, item: Item, q: nat)
    ensures Fates(OfferStep(s, item), q) == Fates(s, q) + if q == |s.offered| then 1 else 0
  {
    var p := |s.offered|;
    if Live(s) {
      CountConcat(s.delivered, [p], q);
    } else if item.Envelope? {
      PushConserves(s.envelopes, p, MAX_BUFFERED_ENVELOPES, q);
      CountConcat(s.evicted, Victim(s.envelopes, MAX_BUFFERED_ENVELOPES), q);
    } else {
      PushConserves(s.frames, p, MAX_BUFFERED_FRAMES, q);
      CountConcat(s.evicted, Victim(s.frames, MAX_BUFFERED_FRAMES), q);
    }
  }

  lemma AttachFates(s: State, writes: nat, flush: bool, q: nat)
    ensures Fates(AttachStep(s, writes, flush), q) == Fates(s, q)
  {
    var backlog := s.frames + s.envelopes;
    var sent := if flush then Min(writes, |backlog|) else 0;
    assert backlog == backlog[..sent] + backlog[sent..];
    CountConcat(s.frames, s.envelopes, q);
    CountConcat(backlog[..sent], backlog[sent..], q);
    CountConcat(s.delivered, backlog[..sent], q);
    CountConcat(s.discarded, backlog[sent..], q);
  }

  lemma DropFates(s: State, q: nat)
    ensures Fates(DropStep(s), q) == Fates(s, q)
  {
    CountConcat(s.frames, s.envelopes, q);
    CountConcat(s.discarded, s.frames + s.envelopes, q);
  }

  /** A step moves items between fates and gives a new item one. */
  lemma StepFates(s: State, op: Op, q: nat)
    ensures Fates(Step(s, op), q) == Fates(s, q) + if op.Offer? && q == |s.offered| then 1 else 0
  {
    match op
    case Attach(writes, flush) => AttachFates(s, writes, flush, q);
    case Offer(item) => OfferFates(s, item, q);
    case Detach =>
    case Drop => DropFates(s, q);
  }

  lemma OffersCount(s: State, op: Op)
    ensures |Step(s, op).offered| == |s.offered| + if op.Offer? then 1 else 0
  {
  }

  lemma StepConserves(s: State, op: Op)
    requires Conserved(s)
    ensures Conserved(Step(s, op))
  {
    OffersCount(s, op);
    forall q: nat ensures Fates(Step(s, op), q) == if q < |Step(s, op).offered| then 1 else 0 {
      StepFates(s, op, q);
    }
  }

  lemma OfferKeepsWindows(s: State, item: Item)
    requires Windows(s)
    ensures Windows(OfferStep(s, item))
  {
    LastNPush(s.heldEnvelopes, MAX_BUFFERED_ENVELOPES, |s.offered|);
    LastNPush(s.heldFrames, MAX_BUFFERED_FRAMES, |s.offered|);
  }

  lemma StepKeepsWindows(s: State, op: Op)
    requires Windows(s)
    ensures Windows(Step(s, op))
  {
    if op.Offer? {
      OfferKeepsWindows(s, op.item);
    }
  }

  lemma {:induction false} RunInvariant(ops: seq<Op>)
    ensures OrderInv(Run(ops)) && Conserved(Run(ops)) && Windows(Run(ops))
  {
    if ops != [] {
      var before := ops[..|ops| - 1];
      RunInvariant(before);
      StepKeepsOrder(Run(before), ops[|ops| - 1]);
      StepConserves(Run(before), ops[|ops| - 1]);
      StepKeepsWindows(Run(before), ops[|ops| - 1]);
    }
  }

  // ---------------------------------------------------------------- what a run guarantees

  /** Over every run: a delivered envelope never precedes a delivered frame that was offered
      before it, and items of one kind arrive in the order they were offered. */
  lemma DeliveryOrder(ops: seq<Op>, a: nat, b: nat)
    requires a < b < |Run(ops).delivered|
    ensures var s := Run(ops);
            var x, y := s.delivered[a], s.delivered[b];
            && x < |s.offered| && y < |s.offered|
            && (s.offered[x].Envelope? && s.offered[y].Frame? ==> x < y)
            && (s.offered[x].Envelope? == s.offered[y].Envelope? ==> x < y)
  {
    RunInvariant(ops);
  }

  /** Over every run a buffer holds something only while nothing live is attached, and what it holds
      was offered after everything delivered. */
  lemma BufferOnlyWhileDown(ops: seq<Op>)
    ensures BufferedMeansDown(Run(ops)) && BufferedIsNewer(Run(ops))
  {
    RunInvariant(ops);
  }

  /** Over every run each offered item has exactly one fate; none is delivered twice. */
  lemma ExactlyOneFate(ops: seq<Op>, p: nat)
    requires p < |Run(ops).offered|
    ensures var s := Run(ops);
            Count(s.delivered, p) + Count(s.envelopes, p) + Count(s.frames, p)
            + Count(s.evicted, p) + Count(s.discarded, p) == 1
  {
    RunInvariant(ops);
    assert Fates(Run(ops), p) == 1;
  }

  lemma {:induction false} UptoHoldsOnce(n: nat, p: nat)
    ensures Count(Upto(n), p) == if p < n then 1 else 0
  {
    if n > 0 {
      UptoHoldsOnce(n - 1, p);
      assert Upto(n) == Upto(n - 1) + [n - 1];
    }
  }

  /** Over every run the counts balance and the buffers are the bounded newest windows. */
  lemma CountsAndBounds(ops: seq<Op>)
    ensures var s := Run(ops);
            && |s.offered| == |s.delivered| + |s.envelopes| + |s.frames| + |s.evicted| + |s.discarded|
            && |s.envelopes| == Min(|s.heldEnvelopes|, 256) && |s.frames| == Min(|s.heldFrames|, 128)
            && s.envelopes == s.heldEnvelopes[|s.heldEnvelopes| - |s.envelopes|..]
            && s.frames == s.heldFrames[|s.heldFrames| - |s.frames|..]
  {
    RunInvariant(ops);
    var s := Run(ops);
    NoneUncounted(s);
    LastNIsTail(s.heldEnvelopes, 256);
    LastNIsTail(s.heldFrames, 128);
  }

  lemma LastNIsTail<T>(s: seq<T>, n: nat)
    ensures |LastN(s, n)| == Min(|s|, n) && LastN(s, n) == s[|s| - |LastN(s, n)|..]
  {
  }

  lemma NoneUncounted(s: State)
    requires Conserved(s)
    ensures |s.offered| == |s.delivered| + |s.envelopes| + |s.frames| + |s.evicted| + |s.discarded|
  {
    var all := s.delivered + (s.envelopes + (s.frames + (s.evicted + s.discarded)));
    forall p: nat ensures Count(all, p) == Count(Upto(|s.offered|), p) {
      CountConcat(s.delivered, s.envelopes + (s.frames + (s.evicted + s.discarded)), p);
      CountConcat(s.envelopes, s.frames + (s.evicted + s.discarded), p);
      CountConcat(s.frames, s.evicted + s.discarded, p);
      CountConcat(s.evicted, s.discarded, p);
      assert Fates(s, p) == if p < |s.offered| then 1 else 0;
      UptoHoldsOnce(|s.offered|, p);
    }
    SameCountsSameLength(all, Upto(|s.offered|));
  }

  lemma SameCountsSameLength(ps: seq<nat>, qs: seq<nat>)
    requires forall p: nat :: Count(ps, p) == Count(qs, p)
    ensures |ps| == |qs|
  {
    assert forall p: nat :: Count(ps, p) == multiset(ps)[p] && Count(qs, p) == multiset(qs)[p];
    assert multiset(ps) == multiset(qs);
    assert |multiset(ps)| == |multiset(qs)|;
  }

  // ---------------------------------------------------------------- a brief outage

  function OfferAll(s: State, items: seq<Item>): State {
    if items == [] then s else OfferStep(OfferAll(s, items[..|items| - 1]), items[|items| - 1])
  }

  /** The positions from `start` on of the items of one kind. */
  function Positions(items: seq<Item>, start: nat, envelopes: bool): seq<nat> {
    if items == [] then []
    else
      var n := |items| - 1;
      Positions(items[..n], start, envelopes) + if items[n].Envelope? == envelopes then [start + n] else []
  }

  lemma {:induction false} OfferAllWhileDown(s: State, items: seq<Item>)
    requires !Live(s) && Windows(s)
    ensures var t := OfferAll(s, items);
            && t.offered == s.offered + items
            && t.remaining == s.remaining && t.delivered == s.delivered && t.discarded == s.discarded
            && t.heldEnvelopes == s.heldEnvelopes + Positions(items, |s.offered|, true)
            && t.heldFrames == s.heldFrames + Positions(items, |s.offered|, false)
            && Windows(t)
  {
    if items != [] {
      var n := |items| - 1;
      var u := OfferAll(s, items[..n]);
      OfferAllWhileDown(s, items[..n]);
      OfferKeepsWindows(u, items[n]);
      OfferWhileDown(u, items[n]);
      OneMore(s.offered, items);
      PositionsStep(s.heldEnvelopes, items, |s.offered|, true);
      PositionsStep(s.heldFrames, items, |s.offered|, false);
    }
  }

  lemma OneMore(offered: seq<Item>, items: seq<Item>)
    requires items != []
    ensures var n := |items| - 1;
            (offered + items[..n]) + [items[n]] == offered + items && |offered + items[..n]| == |offered| + n
  {
  }

  lemma PositionsStep(held: seq<nat>, items: seq<Item>, start: nat, envelopes: bool)
    requires items != []
    ensures var n := |items| - 1;
            held + Positions(items, start, envelopes) ==
            held + Positions(items[..n], start, envelopes) + (if items[n].Envelope? == envelopes then [start + n] else [])
  {
    ConcatAssoc(held, Positions(items[..|items| - 1], start, envelopes),
                if items[|items| - 1].Envelope? == envelopes then [start + |items| - 1] else []);
  }

  lemma OfferWhileDown(s: State, item: Item)
    requires !Live(s)
    ensures var t := OfferStep(s, item);
            && t.offered == s.offered + [item]
            && t.remaining == s.remaining && t.delivered == s.delivered && t.discarded == s.discarded
            && t.heldEnvelopes == s.heldEnvelopes + (if item.Envelope? then [|s.offered|] else [])
            && t.heldFrames == s.heldFrames + (if item.Envelope? then [] else [|s.offered|])
  {
  }

  /** An outage between two connections.  From any state in which nothing live is attached, with
      whatever it has already buffered, and after any offers, a flush delivers as much as the new
      connection takes of the newest frames and then the newest envelopes held since the last clear,
      and discards the rest.  All that was held arrives exactly if neither buffer overflowed and the
      connection takes it all. */
  lemma BriefOutage(s: State, items: seq<Item>, writes: nat)
    requires !Live(s) && Windows(s)
    ensures var t := AttachStep(OfferAll(s, items), writes, true);
            var frames := s.heldFrames + Positions(items, |s.offered|, false);
            var envelopes := s.heldEnvelopes + Positions(items, |s.offered|, true);
            var backlog := Backlog(frames, envelopes);
            && t.delivered == s.delivered + backlog[..Min(writes, |backlog|)]
            && t.discarded == s.discarded + backlog[Min(writes, |backlog|)..]
            && (t.delivered == s.delivered + (frames + envelopes) <==> Fits(frames, envelopes, writes))
  {
    OfferAllWhileDown(s, items);
    var frames := s.heldFrames + Positions(items, |s.offered|, false);
    var envelopes := s.heldEnvelopes + Positions(items, |s.offered|, true);
    WholeIffFits(s.delivered, frames, envelopes, writes);
  }

  /** What is buffered of everything held. */
  function Backlog(frames: seq<nat>, envelopes: seq<nat>): seq<nat> {
    LastN(frames, MAX_BUFFERED_FRAMES) + LastN(envelopes, MAX_BUFFERED_ENVELOPES)
  }

  /** Neither buffer overflows, and the connection takes the backlog. */
  predicate Fits(frames: seq<nat>, envelopes: seq<nat>, writes: nat) {
    |frames| <= MAX_BUFFERED_FRAMES && |envelopes| <= MAX_BUFFERED_ENVELOPES && |frames| + |envelopes| <= writes
  }

  lemma WholeIffFits(before: seq<nat>, frames: seq<nat>, envelopes: seq<nat>, writes: nat)
    ensures var backlog := Backlog(frames, envelopes);
            before + backlog[..Min(writes, |backlog|)] == before + (frames + envelopes) <==> Fits(frames, envelopes, writes)
  {
    var backlog := Backlog(frames, envelopes);
    var sent := before + backlog[..Min(writes, |backlog|)];
    if Fits(frames, envelopes, writes) {
      assert backlog == frames + envelopes;
      assert backlog[..|backlog|] == backlog;
    } else {
      assert |sent| < |before + (frames + envelopes)|;
    }
  }

  // ---------------------------------------------------------------- the objects themselves

  /** A connection (agent/client/ws.go): its first failed write is followed only by failures. */
  class Connection {
    var remaining: nat
    var wire: seq<Item>

    constructor (writes: nat)
      ensures remaining == writes && wire == []
    {
      remaining, wire := writes, [];
    }

    method Send(item: Item) returns (ok: bool)
      modifies this
      ensures ok <==> old(remaining) > 0
      ensures ok ==> wire == old(wire) + [item] && remaining == old(remaining) - 1
      ensures !ok ==> wire == old(wire) && remaining == 0
    {
      ok := remaining > 0;
      if ok {
        remaining, wire := remaining - 1, wire + [item];
      }
    }
  }

  /** The items at the given positions. */
  function Items(offered: seq<Item>, ps: seq<nat>): (r: seq<Item>)
    requires forall a :: 0 <= a < |ps| ==> ps[a] < |offered|
    ensures |r| == |ps|
  {
    seq(|ps|, a requires 0 <= a < |ps| => offered[ps[a]])
  }

  /** What a flush puts on the wire is the longest part of the backlog that the connection takes. */
  lemma AttachWire(s: State, writes: nat, flush: bool)
    requires OrderInv(s)
    ensures var t := AttachStep(s, writes, flush);
            var backlog := Items(s.offered, s.frames) + Items(s.offered, s.envelopes);
            && (forall a :: |s.delivered| <= a < |t.delivered| ==> t.delivered[a] < |s.offered|)
            && Items(s.offered, t.delivered[|s.delivered|..]) == backlog[..if flush then Min(writes, |backlog|) else 0]
  {
    AttachKeepsOrder(s, writes, flush);
  }

  /** One of Attach's flush loops: sends until the first failure. */
  method SendAll(c: Connection, items: seq<Item>) returns (ok: bool)
    modifies c
    ensures ok <==> old(c.remaining) >= |items|
    ensures c.remaining == old(c.remaining) - Min(old(c.remaining), |items|)
    ensures c.wire == old(c.wire) + items[..Min(old(c.remaining), |items|)]
  {
    for i := 0 to |items|
      invariant i <= old(c.remaining) && c.remaining == old(c.remaining) - i
      invariant c.wire == old(c.wire) + items[..i]
    {
      ok := c.Send(items[i]);
      if !ok {
        return;
      }
      assert items[..i + 1] == items[..i] + [items[i]];
    }
    assert items[..|items|] == items;
    ok := true;
  }

  class Box {
    var conn: Connection?
    var envelopes: seq<Item>
    var frames: seq<Item>
    ghost var history: State

    ghost predicate Valid()
      reads this, conn
    {
      && OrderInv(history)
      && envelopes == Items(history.offered, history.envelopes)
      && frames == Items(history.offered, history.frames)
      && history.remaining == (if conn == null then None else Some(conn.remaining))
    }

    constructor ()
      ensures Valid() && history == INITIAL && conn == null
    {
      conn, envelopes, frames, history := null, [], [], INITIAL;
    }

    /** Makes c the send path; on a resume the backlog goes out first, frames before envelopes.
        The history says which positions, and the wire gains exactly those items. */
    method Attach(c: Connection, flush: bool)
      requires Valid()
      modifies this, c
      ensures Valid() && conn == c
      ensures history == AttachStep(old(history), old(c.remaining), flush)
      ensures c.wire == old(c.wire) + Items(history.offered, history.delivered[|old(history).delivered|..])
      ensures envelopes == [] && frames == []
      ensures var backlog := old(frames) + old(envelopes);
              c.wire == old(c.wire) + backlog[..if flush then Min(old(c.remaining), |backlog|) else 0]
    {
      AttachKeepsOrder(history, c.remaining, flush);
      AttachWire(history, c.remaining, flush);
      history := AttachStep(history, c.remaining, flush);
      var es, fs := envelopes, frames;
      envelopes, frames, conn := [], [], c;
      if flush {
        var ok := SendAll(c, fs);
        if ok {
          ok := SendAll(c, es);
        }
      }
    }

    method Detach()
      requires Valid()
      modifies this
      ensures Valid() && history == Step(old(history), Op.Detach) && conn == null
      ensures envelopes == old(envelopes) && frames == old(frames)
    {
      conn := null;
      history := Step(history, Op.Detach);
    }

    method Drop()
      requires Valid()
      modifies this
      ensures Valid() && history == DropStep(old(history)) && conn == old(conn)
      ensures envelopes == [] && frames == []
    {
      envelopes, frames := [], [];
      history := DropStep(history);
    }

    /** Forwards an envelope, or buffers it when nothing takes it, evicting the oldest when full. */
    method SendEnvelope(body: string)
      requires Valid()
      modifies this, conn
      ensures Valid() && conn == old(conn)
      ensures history == OfferStep(old(history), Envelope(body))
      ensures conn != null ==> conn.wire == old(conn.wire) + if old(conn.remaining) > 0 then [Envelope(body)] else []
      ensures frames == old(frames)
      ensures envelopes == if old(conn != null && conn.remaining > 0) then old(envelopes)
                           else (if |old(envelopes)| >= 256 then old(envelopes)[1..] else old(envelopes)) + [Envelope(body)]
    {
      OfferKeepsOrder(history, Envelope(body));
      history := OfferStep(history, Envelope(body));
      if conn != null {
        var ok := conn.Send(Envelope(body));
        if ok {
          return;
        }
      }
      if |envelopes| >= MAX_BUFFERED_ENVELOPES {
        envelopes := envelopes[1..];
      }
      envelopes := envelopes + [Envelope(body)];
    }

    /** The same for a binary frame, against its own bound. */
    method SendBinary(data: seq<byte>)
      requires Valid()
      modifies this, conn
      ensures Valid() && conn == old(conn)
      ensures history == OfferStep(old(history), Frame(data))
      ensures conn != null ==> conn.wire == old(conn.wire) + if old(conn.remaining) > 0 then [Frame(data)] else []
      ensures envelopes == old(envelopes)
      ensures frames == if old(conn != null && conn.remaining > 0) then old(frames)
                        else (if |old(frames)| >= 128 then old(frames)[1..] else old(frames)) + [Frame(data)]
    {
      OfferKeepsOrder(history, Frame(data));
      history := OfferStep(history, Frame(data));
      if conn != null {
        var ok := conn.Send(Frame(data));
        if ok {
          return;
        }
      }
      if |frames| >= MAX_BUFFERED_FRAMES {
        frames := frames[1..];
      }
      frames := frames + [Frame(data)];
    }
  }
}
