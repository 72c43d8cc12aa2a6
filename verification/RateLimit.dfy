/** The per-session rate limiter (internal/transport/ratelimit.go): a pruned list of call times stands
    for the whole history of accepted calls.  Times are nanoseconds and, being read under the
    limiter's lock from a monotonic clock, never decrease. */
module RateLimit {
  import opened Util

  const WINDOW: int := 60_000_000_000
  const DEFAULT_SESSION_LIMIT: nat := 120
  const DEFAULT_TOOL_LIMIT: nat := 60
  const DEFAULT_CONCURRENT: nat := 10

  // ---------------------------------------------------------------- one list of times

  /** How many of the times lie in (lo, hi]. */
  function CountIn(times: seq<int>, lo: int, hi: int): nat {
    if times == [] then 0
    else CountIn(times[..|times| - 1], lo, hi) + if lo < times[|times| - 1] <= hi then 1 else 0
  }

  ghost predicate Ascending(times: seq<int>) {
    forall i, j :: 0 <= i < j < |times| ==> times[i] <= times[j]
  }

  /** How many leading entries prune cuts. */
  function Cut(times: seq<int>, now: int): (cut: nat)
    ensures cut <= |times|
    ensures forall i :: 0 <= i < cut ==> now - times[i] >= WINDOW
    ensures cut < |times| ==> now - times[cut] < WINDOW
  {
    if times != [] && now - times[0] >= WINDOW then 1 + Cut(times[1..], now) else 0
  }

  function Recent(times: seq<int>, now: int): seq<int> {
    if times == [] then []
    else (if now - times[0] < WINDOW then [times[0]] else []) + Recent(times[1..], now)
  }

  method Prune(times: seq<int>, now: int) returns (kept: seq<int>)
    ensures kept == times[Cut(times, now)..]
    ensures Ascending(times) ==> kept == Recent(times, now)
  {
    var cut := 0;
    while cut < |times| && now - times[cut] >= WINDOW
      invariant 0 <= cut <= |times|
      invariant cut + Cut(times[cut..], now) == Cut(times, now)
    {
      assert times[cut..][1..] == times[cut + 1..];
      cut := cut + 1;
    }
    if Ascending(times) {
      CutIsFilter(times, now);
    }
    if cut == 0 {
      return times;
    }
    kept := times[cut..];
  }

  /** On an ascending list the prefix cut keeps exactly the times inside the window. */
  lemma {:induction false} CutIsFilter(times: seq<int>, now: int)
    requires Ascending(times)
    ensures times[Cut(times, now)..] == Recent(times, now)
  {
    if times != [] {
      var rest := times[1..];
      CutIsFilter(rest, now);
      if now - times[0] >= WINDOW {
        assert Cut(times, now) == 1 + Cut(rest, now);
        assert times[1 + Cut(rest, now)..] == rest[Cut(rest, now)..];
        assert Recent(times, now) == [] + Recent(rest, now);
      } else {
        HeadIsOldest(times);
        NothingToCut(rest, now);
        assert Cut(times, now) == 0 && times[0..] == [times[0]] + rest[0..];
        assert Recent(times, now) == [times[0]] + Recent(rest, now);
      }
    }
  }

  lemma HeadIsOldest(times: seq<int>)
    requires Ascending(times) && times != []
    ensures Ascending(times[1..]) && (times[1..] != [] ==> times[0] <= times[1..][0])
  {
  }

  lemma NothingToCut(times: seq<int>, now: int)
    requires times != [] ==> now - times[0] < WINDOW
    ensures Cut(times, now) == 0
  {
  }

  lemma {:induction false} CountConcat(a: seq<int>, b: seq<int>, lo: int, hi: int)
    ensures CountIn(a + b, lo, hi) == CountIn(a, lo, hi) + CountIn(b, lo, hi)
  {
    if b == [] {
      assert a + b == a;
    } else {
      assert (a + b)[..|a + b| - 1] == a + b[..|b| - 1];
      CountConcat(a, b[..|b| - 1], lo, hi);
    }
  }

  lemma {:induction false} CountAll(times: seq<int>, lo: int, hi: int)
    requires forall i :: 0 <= i < |times| ==> lo < times[i] <= hi
    ensures CountIn(times, lo, hi) == |times|
  {
    if times != [] {
      CountAll(times[..|times| - 1], lo, hi);
    }
  }

  lemma {:induction false} CountNone(times: seq<int>, lo: int, hi: int)
    requires forall i :: 0 <= i < |times| ==> times[i] <= lo
    ensures CountIn(times, lo, hi) == 0
  {
    if times != [] {
      CountNone(times[..|times| - 1], lo, hi);
    }
  }

  lemma {:induction false} CountNarrower(times: seq<int>, lo: int, hi: int, low: int, high: int)
    requires low <= lo && forall i :: 0 <= i < |times| ==> times[i] <= high
    ensures CountIn(times, lo, hi) <= CountIn(times, low, high)
  {
    if times != [] {
      CountNarrower(times[..|times| - 1], lo, hi, low, high);
    }
  }

  /** The number of calls in the minute that ends at t. */
  function InWindow(history: seq<int>, t: int): nat {
    CountIn(history, t - WINDOW, t)
  }

  /** kept stands for the history: it is its tail, and what it leaves out is out of every window that
      ends at `last` or later. */
  ghost predicate StandsFor(kept: seq<int>, history: seq<int>, last: int) {
    && |kept| <= |history|
    && kept == history[|history| - |kept|..]
    && (forall i :: 0 <= i < |history| - |kept| ==> last - history[i] >= WINDOW)
    && Ascending(history)
    && (forall i :: 0 <= i < |history| ==> history[i] <= last)
  }

  lemma PrunedStandsFor(kept: seq<int>, history: seq<int>, last: int, now: int)
    requires StandsFor(kept, history, last) && last <= now
    ensures StandsFor(kept[Cut(kept, now)..], history, now)
  {
    var cut := Cut(kept, now);
    var dropped := |history| - |kept|;
    assert history[dropped..][cut..] == history[dropped + cut..];
    forall i | 0 <= i < dropped + cut ensures now - history[i] >= WINDOW {
      if i >= dropped {
        assert history[i] == kept[i - dropped];
      }
    }
  }

  /** What pruning keeps lies in the window. */
  lemma PrunedIsRecent(kept: seq<int>, history: seq<int>, now: int)
    requires StandsFor(kept, history, now) && (kept != [] ==> now - kept[0] < WINDOW)
    ensures forall i :: 0 <= i < |kept| ==> now - WINDOW < kept[i] <= now
  {
    var n := |history| - |kept|;
    forall i | 0 <= i < |kept| ensures now - WINDOW < kept[i] <= now {
      assert kept[i] == history[n + i] && kept[0] == history[n];
    }
  }

  lemma TailCounts(kept: seq<int>, history: seq<int>, now: int)
    requires StandsFor(kept, history, now) && (kept != [] ==> now - kept[0] < WINDOW)
    ensures |kept| == InWindow(history, now)
  {
    var n := |history| - |kept|;
    assert history == history[..n] + history[n..];
    CountConcat(history[..n], history[n..], now - WINDOW, now);
    CountNone(history[..n], now - WINDOW, now);
    PrunedIsRecent(kept, history, now);
    CountAll(history[n..], now - WINDOW, now);
  }

  /** After pruning, the length of the list is the number of accepted calls in the window. */
  lemma PrunedCounts(kept: seq<int>, history: seq<int>, last: int, now: int)
    requires StandsFor(kept, history, last) && last <= now
    ensures |kept[Cut(kept, now)..]| == InWindow(history, now)
  {
    PrunedStandsFor(kept, history, last, now);
    TailCounts(kept[Cut(kept, now)..], history, now);
  }

  /** At every instant t the history has at most `limit` entries in (t - 60s, t]. */
  ghost predicate Bounded(history: seq<int>, limit: nat) {
    forall t :: InWindow(history, t) <= limit
  }

  lemma AcceptKeepsBounded(history: seq<int>, limit: nat, now: int)
    requires Bounded(history, limit) && (forall i :: 0 <= i < |history| ==> history[i] <= now)
    requires InWindow(history, now) < limit
    ensures Bounded(history + [now], limit)
  {
    forall t ensures InWindow(history + [now], t) <= limit {
      assert (history + [now])[..|history|] == history;
      assert InWindow(history, t) <= limit;
      if t >= now {
        CountNarrower(history, t - WINDOW, t, now - WINDOW, now);
      }
    }
  }

  // ---------------------------------------------------------------- the limiter

  type SessionId = string

  datatype Session = Session(requestTimes: seq<int>, toolTimes: seq<int>, concurrent: int)

  const NEW_SESSION: Session := Session([], [], 0)

  datatype Limits = Limits(requests: nat, tools: nat, concurrent: nat)

  datatype Accepted = Accepted(session: SessionId, isTool: bool, at: int)

  /** One event in the life of the slots: a slot granted, or a call to give one back. */
  datatype SlotEvent = Granted(session: SessionId) | Returned(session: SessionId)

  function Grants(slots: seq<SlotEvent>, id: SessionId): nat {
    if slots == [] then 0
    else Grants(slots[..|slots| - 1], id) + if slots[|slots| - 1] == Granted(id) then 1 else 0
  }

  /** The returns made while the session held a slot; any other gives nothing back. */
  function EffectiveReturns(slots: seq<SlotEvent>, id: SessionId): (n: nat)
    ensures n <= Grants(slots, id)
  {
    if slots == [] then 0
    else
      var before := slots[..|slots| - 1];
      var n := EffectiveReturns(before, id);
      if slots[|slots| - 1] == Returned(id) && n < Grants(before, id) then n + 1 else n
  }

  /** The slots a session holds after the whole history. */
  function Holding(slots: seq<SlotEvent>, id: SessionId): nat {
    if slots == [] then 0
    else
      var n := Holding(slots[..|slots| - 1], id);
      match slots[|slots| - 1]
      case Granted(session) => if session == id then n + 1 else n
      case Returned(session) => if session == id && n > 0 then n - 1 else n
  }

  lemma {:induction false} HoldingIsGrantsLessReturns(slots: seq<SlotEvent>, id: SessionId)
    ensures Holding(slots, id) == Grants(slots, id) - EffectiveReturns(slots, id)
  {
    if slots != [] {
      HoldingIsGrantsLessReturns(slots[..|slots| - 1], id);
    }
  }

  function Returns(slots: seq<SlotEvent>, id: SessionId): nat {
    if slots == [] then 0
    else Returns(slots[..|slots| - 1], id) + if slots[|slots| - 1] == Returned(id) then 1 else 0
  }

  /** No caller gives back a slot that its session does not hold. */
  ghost predicate Disciplined(slots: seq<SlotEvent>, id: SessionId) {
    forall n :: 0 <= n <= |slots| ==> Returns(slots[..n], id) <= Grants(slots[..n], id)
  }

  lemma {:induction false} DisciplinedReturnsCount(slots: seq<SlotEvent>, id: SessionId)
    requires Disciplined(slots, id)
    ensures EffectiveReturns(slots, id) == Returns(slots, id)
  {
    if slots != [] {
      var before := slots[..|slots| - 1];
      assert forall n :: 0 <= n <= |before| ==> before[..n] == slots[..n];
      DisciplinedReturnsCount(before, id);
      assert slots[..|slots|] == slots;
    }
  }

  lemma HoldingSnoc(slots: seq<SlotEvent>, e: SlotEvent, id: SessionId)
    ensures var n := Holding(slots, id);
            Holding(slots + [e], id) ==
            if e.session != id then n else if e.Granted? then n + 1 else if n > 0 then n - 1 else 0
  {
    assert (slots + [e])[..|slots|] == slots;
  }

  /** accepted and slots record what callers were granted and gave back; last is the latest clock
      reading. */
  datatype State = State(
    sessions: map<SessionId, Session>,
    accepted: seq<Accepted>,
    slots: seq<SlotEvent>,
    last: int)

  datatype Op =
    | Allow(session: SessionId, isTool: bool, now: int)
    | Acquire(session: SessionId)
    | Release(session: SessionId)

  function SessionOf(s: State, id: SessionId): Session {
    if id in s.sessions then s.sessions[id] else NEW_SESSION
  }

  function Limit(limits: Limits, isTool: bool): nat {
    if isTool then limits.tools else limits.requests
  }

  function TimesOf(st: Session, isTool: bool): seq<int> {
    if isTool then st.toolTimes else st.requestTimes
  }

  function WithTimes(st: Session, isTool: bool, times: seq<int>): Session {
    if isTool then st.(toolTimes := times) else st.(requestTimes := times)
  }

  function Pruned(s: State, id: SessionId, isTool: bool, now: int): seq<int> {
    var times := TimesOf(SessionOf(s, id), isTool);
    times[Cut(times, now)..]
  }

  predicate Allowed(limits: Limits, s: State, id: SessionId, isTool: bool, now: int) {
    |Pruned(s, id, isTool, now)| < Limit(limits, isTool)
  }

  function AllowStep(limits: Limits, s: State, id: SessionId, isTool: bool, now: int): State {
    var pruned := Pruned(s, id, isTool, now);
    var ok := Allowed(limits, s, id, isTool, now);
    s.(sessions := s.sessions[id := WithTimes(SessionOf(s, id), isTool, if ok then pruned + [now] else pruned)],
       accepted := s.accepted + if ok then [Accepted(id, isTool, now)] else [],
       last := now)
  }

  function AcquireStep(limits: Limits, s: State, id: SessionId): State {
    var st := SessionOf(s, id);
    if st.concurrent >= limits.concurrent then s.(sessions := s.sessions[id := st])
    else s.(sessions := s.sessions[id := st.(concurrent := st.concurrent + 1)],
            slots := s.slots + [Granted(id)])
  }

  function ReleaseStep(s: State, id: SessionId): State {
    var t := s.(slots := s.slots + [Returned(id)]);
    if id !in s.sessions || s.sessions[id].concurrent <= 0 then t
    else t.(sessions := s.sessions[id := s.sessions[id].(concurrent := s.sessions[id].concurrent - 1)])
  }

  function Step(limits: Limits, s: State, op: Op): State {
    match op
    case Allow(id, isTool, now) => AllowStep(limits, s, id, isTool, now)
    case Acquire(id) => AcquireStep(limits, s, id)
    case Release(id) => ReleaseStep(s, id)
  }

  function After(limits: Limits, s: State, run: seq<Op>): State
    decreases |run|
  {
    if run == [] then s else After(limits, Step(limits, s, run[0]), run[1..])
  }

  /** The clock never goes back. */
  predicate Timely(last: int, run: seq<Op>)
    decreases |run|
  {
    run == [] ||
    if run[0].Allow? then last <= run[0].now && Timely(run[0].now, run[1..]) else Timely(last, run[1..])
  }

  function Initial(start: int): State {
    State(map[], [], [], start)
  }

  /** The full history of one session's accepted calls of one kind. */
  function History(accepted: seq<Accepted>, id: SessionId, isTool: bool): seq<int> {
    if accepted == [] then []
    else
      var n := |accepted| - 1;
      History(accepted[..n], id, isTool)
      + if accepted[n].session == id && accepted[n].isTool == isTool then [accepted[n].at] else []
  }

  ghost predicate ListOk(limits: Limits, s: State, id: SessionId, isTool: bool) {
    Kept(TimesOf(SessionOf(s, id), isTool), History(s.accepted, id, isTool), s.last, Limit(limits, isTool))
  }

  /** A list stands for a history that respects the limit. */
  ghost predicate Kept(times: seq<int>, history: seq<int>, last: int, limit: nat) {
    StandsFor(times, history, last) && Bounded(history, limit)
  }

  ghost predicate Inv(limits: Limits, s: State) {
    && (forall id, isTool :: ListOk(limits, s, id, isTool))
    && (forall id :: SlotsOk(limits, s, id))
  }

  ghost predicate SlotsOk(limits: Limits, s: State, id: SessionId) {
    SessionOf(s, id).concurrent == Holding(s.slots, id) <= limits.concurrent
  }

  lemma StandsForLater(kept: seq<int>, history: seq<int>, last: int, now: int)
    requires StandsFor(kept, history, last) && last <= now
    ensures StandsFor(kept, history, now)
  {
  }

  lemma AcceptStandsFor(pruned: seq<int>, history: seq<int>, now: int)
    requires StandsFor(pruned, history, now)
    ensures StandsFor(pruned + [now], history + [now], now)
  {
  }

  lemma HistorySnoc(accepted: seq<Accepted>, a: Accepted, id: SessionId, isTool: bool)
    ensures History(accepted + [a], id, isTool)
         == History(accepted, id, isTool) + if a.session == id && a.isTool == isTool then [a.at] else []
  {
    assert (accepted + [a])[..|accepted|] == accepted;
  }

  /** The pruned list decides as the full history would. */
  lemma AllowDecides(limits: Limits, s: State, id: SessionId, isTool: bool, now: int)
    requires ListOk(limits, s, id, isTool) && s.last <= now
    ensures |Pruned(s, id, isTool, now)| == InWindow(History(s.accepted, id, isTool), now) <= Limit(limits, isTool)
  {
    PrunedCounts(TimesOf(SessionOf(s, id), isTool), History(s.accepted, id, isTool), s.last, now);
    assert InWindow(History(s.accepted, id, isTool), now) <= Limit(limits, isTool);
  }

  /** What one call adds to the list and to the history. */
  function Added(pruned: seq<int>, limit: nat, now: int): seq<int> {
    if |pruned| < limit then [now] else []
  }

  lemma AllowShape(limits: Limits, s: State, id: SessionId, isTool: bool, now: int)
    ensures var t := AllowStep(limits, s, id, isTool, now);
            var pruned := Pruned(s, id, isTool, now);
            var added := Added(pruned, Limit(limits, isTool), now);
            && TimesOf(SessionOf(t, id), isTool) == pruned + added
            && History(t.accepted, id, isTool) == History(s.accepted, id, isTool) + added
            && t.last == now
  {
    var pruned := Pruned(s, id, isTool, now);
    assert pruned + [] == pruned;
    if |pruned| < Limit(limits, isTool) {
      HistorySnoc(s.accepted, Accepted(id, isTool, now), id, isTool);
    } else {
      NothingAdded(s.accepted, id, isTool);
    }
  }

  lemma NothingAdded(accepted: seq<Accepted>, id: SessionId, isTool: bool)
    ensures History(accepted + [], id, isTool) == History(accepted, id, isTool) + []
  {
    assert accepted + [] == accepted;
  }

  /** One more accepted call, or none. */
  lemma ListAdvances(times: seq<int>, history: seq<int>, last: int, now: int, limit: nat)
    requires Kept(times, history, last, limit) && last <= now
    ensures var pruned := times[Cut(times, now)..];
            var added := Added(pruned, limit, now);
            Kept(pruned + added, history + added, now, limit)
  {
    var pruned := times[Cut(times, now)..];
    PrunedStandsFor(times, history, last, now);
    if |pruned| < limit {
      PrunedCounts(times, history, last, now);
      AcceptStandsFor(pruned, history, now);
      AcceptKeepsBounded(history, limit, now);
    } else {
      assert pruned + [] == pruned && history + [] == history;
    }
  }

  /** The list an Allow touches. */
  lemma AllowKeepsList(limits: Limits, s: State, id: SessionId, isTool: bool, now: int)
    requires ListOk(limits, s, id, isTool) && s.last <= now
    ensures ListOk(limits, AllowStep(limits, s, id, isTool, now), id, isTool)
  {
    var pruned, limit := Pruned(s, id, isTool, now), Limit(limits, isTool);
    var added, history := Added(pruned, limit, now), History(s.accepted, id, isTool);
    AllowShape(limits, s, id, isTool, now);
    ListAdvances(TimesOf(SessionOf(s, id), isTool), history, s.last, now, limit);
    ListShape(limits, AllowStep(limits, s, id, isTool, now), id, isTool, pruned + added, history + added);
  }

  lemma ListShape(limits: Limits, s: State, id: SessionId, isTool: bool, times: seq<int>, history: seq<int>)
    requires TimesOf(SessionOf(s, id), isTool) == times && History(s.accepted, id, isTool) == history
    requires Kept(times, history, s.last, Limit(limits, isTool))
    ensures ListOk(limits, s, id, isTool)
  {
  }

  /** And every other list. */
  lemma AllowKeepsOthers(limits: Limits, s: State, id: SessionId, isTool: bool, now: int, other: SessionId, kind: bool)
    requires ListOk(limits, s, other, kind) && s.last <= now && (id != other || isTool != kind)
    ensures ListOk(limits, AllowStep(limits, s, id, isTool, now), other, kind)
  {
    var t := AllowStep(limits, s, id, isTool, now);
    var times, history := TimesOf(SessionOf(s, other), kind), History(s.accepted, other, kind);
    HistorySnoc(s.accepted, Accepted(id, isTool, now), other, kind);
    assert history + [] == history && s.accepted + [] == s.accepted;
    StandsForLater(times, history, s.last, now);
    ListShape(limits, t, other, kind, times, history);
  }

  lemma AllowKeepsInv(limits: Limits, s: State, id: SessionId, isTool: bool, now: int)
    requires Inv(limits, s) && s.last <= now
    ensures Inv(limits, AllowStep(limits, s, id, isTool, now))
  {
    var t := AllowStep(limits, s, id, isTool, now);
    forall other, kind ensures ListOk(limits, t, other, kind) {
      assert ListOk(limits, s, other, kind);
      if other == id && kind == isTool {
        AllowKeepsList(limits, s, id, isTool, now);
      } else {
        AllowKeepsOthers(limits, s, id, isTool, now, other, kind);
      }
    }
    forall other ensures SlotsOk(limits, t, other) {
      assert SlotsOk(limits, s, other);
    }
  }

  lemma SlotsKeepInv(limits: Limits, s: State, op: Op)
    requires Inv(limits, s) && !op.Allow?
    ensures Inv(limits, Step(limits, s, op))
  {
    var t := Step(limits, s, op);
    forall id, isTool ensures ListOk(limits, t, id, isTool) {
      SlotsKeepList(limits, s, op, id, isTool);
    }
    forall id ensures SlotsOk(limits, t, id) {
      assert SlotsOk(limits, s, id) && SlotsOk(limits, s, op.session);
      SlotsStep(limits, s, op, id);
    }
  }

  lemma SlotsKeepList(limits: Limits, s: State, op: Op, id: SessionId, isTool: bool)
    requires ListOk(limits, s, id, isTool) && !op.Allow?
    ensures ListOk(limits, Step(limits, s, op), id, isTool)
  {
    SlotsShape(limits, s, op, id, isTool);
    ListShape(limits, Step(limits, s, op), id, isTool, TimesOf(SessionOf(s, id), isTool), History(s.accepted, id, isTool));
  }

  /** Slots and lists are separate. */
  lemma SlotsShape(limits: Limits, s: State, op: Op, id: SessionId, isTool: bool)
    requires !op.Allow?
    ensures var t := Step(limits, s, op);
            && TimesOf(SessionOf(t, id), isTool) == TimesOf(SessionOf(s, id), isTool)
            && t.accepted == s.accepted && t.last == s.last
  {
  }

  lemma SlotsStep(limits: Limits, s: State, op: Op, id: SessionId)
    requires SlotsOk(limits, s, id) && SlotsOk(limits, s, op.session) && !op.Allow?
    ensures SlotsOk(limits, Step(limits, s, op), id)
  {
    if op.Acquire? {
      HoldingSnoc(s.slots, Granted(op.session), id);
    } else {
      HoldingSnoc(s.slots, Returned(op.session), id);
    }
  }

  lemma {:induction false} RunKeepsInv(limits: Limits, s: State, run: seq<Op>)
    requires Inv(limits, s) && Timely(s.last, run)
    ensures Inv(limits, After(limits, s, run))
    decreases |run|
  {
    if run != [] {
      match run[0] {
        case Allow(id, isTool, now) => AllowKeepsInv(limits, s, id, isTool, now);
        case _ => SlotsKeepInv(limits, s, run[0]);
      }
      RunKeepsInv(limits, Step(limits, s, run[0]), run[1..]);
    }
  }

  // ---------------------------------------------------------------- what a run guarantees

  lemma InitialInv(limits: Limits, start: int)
    ensures Inv(limits, Initial(start))
  {
    forall id, isTool ensures ListOk(limits, Initial(start), id, isTool) {
      assert History([], id, isTool) == [];
      forall t ensures InWindow([], t) == 0 {
      }
    }
    forall id ensures SlotsOk(limits, Initial(start), id) {
    }
  }

  lemma ReachableOk(limits: Limits, start: int, run: seq<Op>)
    requires Timely(start, run)
    ensures Inv(limits, After(limits, Initial(start), run))
  {
    InitialInv(limits, start);
    RunKeepsInv(limits, Initial(start), run);
  }

  /** Over every run, for each session and kind and at every instant t, not only when calls are made,
      at most `limit` calls were accepted in (t - 60s, t]. */
  lemma NeverExceeded(limits: Limits, start: int, run: seq<Op>, id: SessionId, isTool: bool, t: int)
    requires Timely(start, run)
    ensures CountIn(History(After(limits, Initial(start), run).accepted, id, isTool), t - 60_000_000_000, t)
         <= if isTool then limits.tools else limits.requests
  {
    ReachableOk(limits, start, run);
    var s := After(limits, Initial(start), run);
    assert ListOk(limits, s, id, isTool);
    assert InWindow(History(s.accepted, id, isTool), t) <= Limit(limits, isTool);
  }

  /** After every run, the next call is refused exactly when `limit` calls were already accepted in the
      window that it closes: the pruned list decides as the full history would. */
  lemma RefusedIffFull(limits: Limits, start: int, run: seq<Op>, id: SessionId, isTool: bool, now: int)
    requires Timely(start, run) && After(limits, Initial(start), run).last <= now
    ensures var s := After(limits, Initial(start), run);
            !Allowed(limits, s, id, isTool, now) <==>
            CountIn(History(s.accepted, id, isTool), now - 60_000_000_000, now) == if isTool then limits.tools else limits.requests
  {
    ReachableOk(limits, start, run);
    RefusedIffFullAt(limits, After(limits, Initial(start), run), id, isTool, now);
  }

  lemma RefusedIffFullAt(limits: Limits, s: State, id: SessionId, isTool: bool, now: int)
    requires Inv(limits, s) && s.last <= now
    ensures !Allowed(limits, s, id, isTool, now) <==> InWindow(History(s.accepted, id, isTool), now) == Limit(limits, isTool)
  {
    AllowDecidesInv(limits, s, id, isTool, now);
  }

  lemma AllowDecidesInv(limits: Limits, s: State, id: SessionId, isTool: bool, now: int)
    requires Inv(limits, s) && s.last <= now
    ensures |Pruned(s, id, isTool, now)| == InWindow(History(s.accepted, id, isTool), now) <= Limit(limits, isTool)
  {
    assert ListOk(limits, s, id, isTool);
    AllowDecides(limits, s, id, isTool, now);
  }

  /** Over every run the slot counter of a session is the number of slots granted to it less the number
      given back while it held one, and within the limit; if no caller gives back what its session does
      not hold, it is simply grants less returns. */
  lemma SlotsAreCounted(limits: Limits, start: int, run: seq<Op>, id: SessionId)
    requires Timely(start, run)
    ensures var s := After(limits, Initial(start), run);
            && SessionOf(s, id).concurrent == Grants(s.slots, id) - EffectiveReturns(s.slots, id) <= limits.concurrent
            && (Disciplined(s.slots, id) ==> SessionOf(s, id).concurrent == Grants(s.slots, id) - Returns(s.slots, id))
  {
    ReachableOk(limits, start, run);
    var s := After(limits, Initial(start), run);
    assert SlotsOk(limits, s, id);
    HoldingIsGrantsLessReturns(s.slots, id);
    if Disciplined(s.slots, id) {
      DisciplinedReturnsCount(s.slots, id);
    }
  }

  // ---------------------------------------------------------------- the object itself

  class RateLimiter {
    const limits: Limits
    var sessions: map<SessionId, Session>
    ghost var accepted: seq<Accepted>
    ghost var slots: seq<SlotEvent>
    ghost var last: int

    ghost function View(): State
      reads this
    {
      State(sessions, accepted, slots, last)
    }

    constructor (requests: int, tools: int, concurrent: int, ghost start: int)
      ensures View() == Initial(start) && Inv(limits, View())
      ensures limits.requests == (if requests <= 0 then 120 else requests)
      ensures limits.tools == (if tools <= 0 then 60 else tools)
      ensures limits.concurrent == (if concurrent <= 0 then 10 else concurrent)
    {
      limits := Limits(if requests <= 0 then DEFAULT_SESSION_LIMIT else requests,
                       if tools <= 0 then DEFAULT_TOOL_LIMIT else tools,
                       if concurrent <= 0 then DEFAULT_CONCURRENT else concurrent);
      sessions, accepted, slots, last := map[], [], [], start;
      new;
      InitialInv(limits, start);
    }

    /** Grants or refuses one call by what was accepted in the last minute. */
    method Allow(id: SessionId, isTool: bool, now: int) returns (ok: bool)
      requires Inv(limits, View()) && last <= now
      modifies this
      ensures View() == Step(limits, old(View()), Op.Allow(id, isTool, now)) && Inv(limits, View())
      ensures ok <==> CountIn(History(old(accepted), id, isTool), now - 60_000_000_000, now)
                      < if isTool then limits.tools else limits.requests
      ensures accepted == old(accepted) + if ok then [Accepted(id, isTool, now)] else []
    {
      AllowDecidesInv(limits, View(), id, isTool, now);
      AllowKeepsInv(limits, View(), id, isTool, now);
      var st := if id in sessions then sessions[id] else NEW_SESSION;
      var times := Prune(TimesOf(st, isTool), now);
      ok := |times| < Limit(limits, isTool);
      if ok {
        times := times + [now];
        accepted := accepted + [Accepted(id, isTool, now)];
      }
      sessions := sessions[id := WithTimes(st, isTool, times)];
      last := now;
    }

    method AcquireDispatchSlot(id: SessionId) returns (ok: bool)
      requires Inv(limits, View())
      modifies this
      ensures View() == Step(limits, old(View()), Acquire(id)) && Inv(limits, View())
      ensures ok <==> Holding(old(slots), id) < limits.concurrent
      ensures slots == (if ok then old(slots) + [Granted(id)] else old(slots)) && accepted == old(accepted)
    {
      SlotsKeepInv(limits, View(), Acquire(id));
      assert SlotsOk(limits, View(), id);
      var st := if id in sessions then sessions[id] else NEW_SESSION;
      ok := st.concurrent < limits.concurrent;
      if ok {
        slots := slots + [Granted(id)];
        sessions := sessions[id := st.(concurrent := st.concurrent + 1)];
      } else {
        sessions := sessions[id := st];
      }
    }

    method ReleaseDispatchSlot(id: SessionId)
      requires Inv(limits, View())
      modifies this
      ensures View() == Step(limits, old(View()), Release(id)) && Inv(limits, View())
      ensures slots == old(slots) + [Returned(id)] && accepted == old(accepted)
    {
      SlotsKeepInv(limits, View(), Release(id));
      slots := slots + [Returned(id)];
      if id !in sessions || sessions[id].concurrent <= 0 {
        return;
      }
      sessions := sessions[id := sessions[id].(concurrent := sessions[id].concurrent - 1)];
    }
  }
}
