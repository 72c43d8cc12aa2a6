/** The server's hub (internal/agent/hub.go): which connection each device is on, and the dispatch
    state that outlives a connection for the reconnect grace period.

    Each operation of the hub is one atomic step here, the grace timer's firing included. */
module Hub {
  import opened Util
  import opened Binary
  import D = DeviceState

  type DeviceId = string
  type ConnId = nat
  type Id = D.Id
  type Chan = D.Chan

  const DEFAULT_GRACE: int := 60_000_000_000

  function GracePeriod(configured: int): (d: int)
    ensures d > 0
  {
    if configured > 0 then configured else DEFAULT_GRACE
  }

  datatype State = State(
    online: map<DeviceId, ConnId>,
    states: map<DeviceId, D.Maps>,
    made: nat,                            // channels made so far
    closed: set<Chan>,
    waiting: map<(DeviceId, Id), Chan>,   // dispatches started and not yet returned, with their channel
    now: int,
    configuredGrace: int)

  datatype Op =
    | RegisterOnline(device: DeviceId, conn: ConnId)
    | UnregisterOnline(device: DeviceId, conn: ConnId)
    | Dispatch(device: DeviceId, id: Id)     // the lookup and registration at the start of a dispatch
    | Finish(device: DeviceId, id: Id)       // the unregistration when it returns, for whatever reason
    | Fire(device: DeviceId)                 // the grace timer
    | Revoke(device: DeviceId)
    | Tick(duration: nat)

  function MapsOf(s: State, d: DeviceId): D.Maps {
    if d in s.states then s.states[d] else D.NEW
  }

  /** Correlation ids are minted per dispatch, a dispatch returns once, and a timer fires when due. */
  predicate Enabled(s: State, op: Op) {
    match op
    case Dispatch(d, id) => (d, id) !in s.waiting
    case Finish(d, id) => (d, id) in s.waiting
    case Fire(d) => d in s.states && s.states[d].timer.Some? && s.states[d].timer.value <= s.now
    case _ => true
  }

  function RegisterOnlineStep(s: State, d: DeviceId, c: ConnId): State {
    s.(online := s.online[d := c], states := s.states[d := MapsOf(s, d).(timer := None)])
  }

  function UnregisterOnlineStep(s: State, d: DeviceId, c: ConnId): State {
    if d in s.online && s.online[d] == c then
      var m := MapsOf(s, d);
      var held := if m.pending == map[] then m else m.(timer := Some(s.now + GracePeriod(s.configuredGrace)));
      s.(online := s.online - {d}, states := s.states[d := held])
    else s
  }

  function DispatchStep(s: State, d: DeviceId, id: Id): State {
    if d !in s.online then s
    else
      match D.Register(MapsOf(s, d), id, s.made)
      case None => s.(states := s.states[d := MapsOf(s, d)])
      case Some(m) => s.(states := s.states[d := m], made := s.made + 1, waiting := s.waiting[(d, id) := s.made])
  }

  function FinishStep(s: State, d: DeviceId, id: Id): State {
    s.(states := s.states[d := D.Unregister(MapsOf(s, d), id)], waiting := s.waiting - {(d, id)})
  }

  function FireStep(s: State, d: DeviceId): State {
    s.(closed := s.closed + MapsOf(s, d).pending.Values, states := s.states[d := D.NEW])
  }

  function RevokeStep(s: State, d: DeviceId): State {
    s.(closed := s.closed + MapsOf(s, d).pending.Values, states := s.states - {d})
  }

  function Step(s: State, op: Op): State {
    match op
    case RegisterOnline(d, c) => RegisterOnlineStep(s, d, c)
    case UnregisterOnline(d, c) => UnregisterOnlineStep(s, d, c)
    case Dispatch(d, id) => DispatchStep(s, d, id)
    case Finish(d, id) => FinishStep(s, d, id)
    case Fire(d) => FireStep(s, d)
    case Revoke(d) => RevokeStep(s, d)
    case Tick(duration) => s.(now := s.now + duration)
  }

  function Initial(now: int, configuredGrace: int): State {
    State(map[], map[], 0, {}, map[], now, configuredGrace)
  }

  predicate Legal(s: State, run: seq<Op>)
    decreases |run|
  {
    run == [] || (Enabled(s, run[0]) && Legal(Step(s, run[0]), run[1..]))
  }

  function After(s: State, run: seq<Op>): State
    decreases |run|
  {
    if run == [] then s else After(Step(s, run[0]), run[1..])
  }

  // ---------------------------------------------------------------- invariants

  /** An armed timer means the device is offline and the deadline is at most a grace period away; an
      offline device with pending dispatches has one. */
  ghost predicate TimersOk(s: State) {
    forall d :: d in s.states ==>
      && (s.states[d].timer.Some? ==> d !in s.online && s.states[d].timer.value <= s.now + GracePeriod(s.configuredGrace))
      && (d !in s.online && s.states[d].pending != map[] ==> s.states[d].timer.Some?)
  }

  ghost predicate Held(s: State, k: (DeviceId, Id)) {
    k.0 in s.states && k.1 in s.states[k.0].pending
  }

  /** Each waiting dispatch is on a channel of its own, either closed or still pending on it. */
  ghost predicate WaitersOk(s: State) {
    && (forall k :: k in s.waiting ==> s.waiting[k] < s.made)
    && (forall k, l :: k in s.waiting && l in s.waiting && s.waiting[k] == s.waiting[l] ==> k == l)
    && (forall k :: k in s.waiting ==>
          s.waiting[k] in s.closed || (Held(s, k) && s.states[k.0].pending[k.1] == s.waiting[k]))
    && (forall c :: c in s.closed ==> c < s.made)
  }

  /** Only dispatches that are still waiting are pending, and on open channels. */
  ghost predicate NoLeaks(s: State) {
    forall k :: Held(s, k) ==> k in s.waiting && s.waiting[k] == s.states[k.0].pending[k.1] && s.waiting[k] !in s.closed
  }

  ghost predicate Inv(s: State) {
    TimersOk(s) && WaitersOk(s) && NoLeaks(s)
  }

  lemma DispatchKeepsTimers(s: State, d: DeviceId, id: Id)
    requires TimersOk(s)
    ensures TimersOk(DispatchStep(s, d, id))
  {
  }

  lemma DispatchKeepsLeaks(s: State, d: DeviceId, id: Id)
    requires WaitersOk(s) && NoLeaks(s) && (d, id) !in s.waiting
    ensures NoLeaks(DispatchStep(s, d, id))
  {
    var t := DispatchStep(s, d, id);
    forall k | Held(t, k)
      ensures k in t.waiting && t.waiting[k] == t.states[k.0].pending[k.1] && t.waiting[k] !in t.closed
    {
      if d !in s.online || k != (d, id) {
        assert Held(s, k);
      }
    }
  }

  lemma DispatchKeepsWaiters(s: State, d: DeviceId, id: Id)
    requires WaitersOk(s) && NoLeaks(s) && (d, id) !in s.waiting
    ensures WaitersOk(DispatchStep(s, d, id))
  {
    var t := DispatchStep(s, d, id);
    if d in s.online {
      forall k | k in t.waiting
        ensures t.waiting[k] in t.closed || (Held(t, k) && t.states[k.0].pending[k.1] == t.waiting[k])
      {
        if k != (d, id) {
          assert k in s.waiting;
        }
      }
    }
  }

  /** A dispatch waits afterwards exactly if it was registered, and then on a new, open channel. */
  lemma RegisteredIsOpen(s: State, d: DeviceId, id: Id)
    requires WaitersOk(s) && (d, id) !in s.waiting
    ensures var t := DispatchStep(s, d, id);
            && ((d, id) in t.waiting <==> d in s.online && D.Register(MapsOf(s, d), id, s.made).Some?)
            && ((d, id) in t.waiting ==> t.waiting[(d, id)] == s.made && s.made !in t.closed)
  {
  }

  lemma DispatchKeepsInv(s: State, d: DeviceId, id: Id)
    requires Inv(s) && (d, id) !in s.waiting
    ensures Inv(DispatchStep(s, d, id))
  {
    DispatchKeepsTimers(s, d, id);
    DispatchKeepsLeaks(s, d, id);
    DispatchKeepsWaiters(s, d, id);
  }

  lemma FinishKeepsTimers(s: State, d: DeviceId, id: Id)
    requires TimersOk(s)
    ensures TimersOk(FinishStep(s, d, id))
  {
    assert FinishStep(s, d, id).states[d].pending == MapsOf(s, d).pending - {id};
  }

  lemma FinishKeepsInv(s: State, d: DeviceId, id: Id)
    requires Inv(s) && (d, id) in s.waiting
    ensures Inv(FinishStep(s, d, id))
  {
    FinishKeepsTimers(s, d, id);
    FinishKeepsWaiters(s, d, id);
  }

  lemma FinishKeepsWaiters(s: State, d: DeviceId, id: Id)
    requires WaitersOk(s) && NoLeaks(s) && (d, id) in s.waiting
    ensures WaitersOk(FinishStep(s, d, id)) && NoLeaks(FinishStep(s, d, id))
  {
    var t := FinishStep(s, d, id);
    assert t.states[d].pending == MapsOf(s, d).pending - {id};
    forall k | k in t.waiting
      ensures t.waiting[k] in t.closed || (Held(t, k) && t.states[k.0].pending[k.1] == t.waiting[k])
    {
      assert k != (d, id);
    }
    forall k | Held(t, k)
      ensures k in t.waiting && t.waiting[k] == t.states[k.0].pending[k.1] && t.waiting[k] !in t.closed
    {
      assert Held(s, k);
    }
  }

  /** Expiry, by the timer or by revocation: everything held for d is closed. */
  lemma ExpireKeepsInv(s: State, d: DeviceId, t: State)
    requires Inv(s) && (t == FireStep(s, d) || t == RevokeStep(s, d))
    ensures Inv(t)
  {
    forall k | Held(t, k)
      ensures k in t.waiting && t.waiting[k] == t.states[k.0].pending[k.1] && t.waiting[k] !in t.closed
    {
      assert k.0 != d && Held(s, k);
      if t.waiting[k] in MapsOf(s, d).pending.Values {
        var id :| id in MapsOf(s, d).pending && MapsOf(s, d).pending[id] == t.waiting[k];
        assert Held(s, (d, id));
      }
    }
    forall k | k in t.waiting
      ensures t.waiting[k] in t.closed || (Held(t, k) && t.states[k.0].pending[k.1] == t.waiting[k])
    {
    }
    forall c | c in t.closed ensures c < t.made {
      if c in MapsOf(s, d).pending.Values {
        var id :| id in MapsOf(s, d).pending && MapsOf(s, d).pending[id] == c;
        assert Held(s, (d, id));
      }
    }
  }

  lemma PresenceKeepsInv(s: State, op: Op)
    requires Inv(s) && (op.RegisterOnline? || op.UnregisterOnline? || op.Tick?)
    ensures Inv(Step(s, op))
  {
    PresenceKeepsPending(s, op);
    PresenceKeepsTimers(s, op);
  }

  lemma PresenceKeepsTimers(s: State, op: Op)
    requires TimersOk(s) && (op.RegisterOnline? || op.UnregisterOnline? || op.Tick?)
    ensures TimersOk(Step(s, op))
  {
  }

  lemma PresenceKeepsPending(s: State, op: Op)
    requires op.RegisterOnline? || op.UnregisterOnline? || op.Tick?
    ensures var t := Step(s, op);
            && t.waiting == s.waiting && t.closed == s.closed && t.made == s.made
            && forall k :: Held(t, k) == Held(s, k) && (Held(s, k) ==> t.states[k.0].pending == s.states[k.0].pending)
  {
  }

  lemma StepKeepsInv(s: State, op: Op)
    requires Inv(s) && Enabled(s, op)
    ensures Inv(Step(s, op))
  {
    match op
    case RegisterOnline(d, c) => PresenceKeepsInv(s, op);
    case UnregisterOnline(d, c) => PresenceKeepsInv(s, op);
    case Dispatch(d, id) => DispatchKeepsInv(s, d, id);
    case Finish(d, id) => FinishKeepsInv(s, d, id);
    case Fire(d) => ExpireKeepsInv(s, d, FireStep(s, d));
    case Revoke(d) => ExpireKeepsInv(s, d, RevokeStep(s, d));
    case Tick(duration) => PresenceKeepsInv(s, op);
  }

  lemma {:induction false} RunKeepsInv(s: State, run: seq<Op>)
    requires Inv(s) && Legal(s, run)
    ensures Inv(After(s, run))
    decreases |run|
  {
    if run != [] {
      StepKeepsInv(s, run[0]);
      RunKeepsInv(Step(s, run[0]), run[1..]);
    }
  }

  // ---------------------------------------------------------------- what a run guarantees

  /** In every reachable state the timer is armed only while the device is offline, and always when
      an offline device has pending dispatches. */
  lemma GraceTimers(now: int, configured: int, run: seq<Op>, d: DeviceId)
    requires Legal(Initial(now, configured), run)
    ensures var s := After(Initial(now, configured), run);
            && (MapsOf(s, d).timer.Some? ==> d !in s.online)
            && (d !in s.online && MapsOf(s, d).pending != map[] ==> MapsOf(s, d).timer.Some?)
  {
    RunKeepsInv(Initial(now, configured), run);
  }

  /** No dispatch is left waiting with nothing to end it: its channel is closed, or its device is
      online, or a timer is armed that is due within a grace period and whose firing closes it. */
  lemma NothingWaitsForever(now: int, configured: int, run: seq<Op>, k: (DeviceId, Id))
    requires Legal(Initial(now, configured), run) && k in After(Initial(now, configured), run).waiting
    ensures var s := After(Initial(now, configured), run);
            || s.waiting[k] in s.closed
            || k.0 in s.online
            || var late := Step(s, Tick(GracePeriod(configured)));
               Enabled(late, Fire(k.0)) && s.waiting[k] in FireStep(late, k.0).closed
  {
    RunKeepsInv(Initial(now, configured), run);
    GraceIsFixed(Initial(now, configured), run);
    var s := After(Initial(now, configured), run);
    if s.waiting[k] !in s.closed && k.0 !in s.online {
      assert Held(s, k);
      assert s.states[k.0].pending[k.1] in s.states[k.0].pending.Values;
    }
  }

  lemma {:induction false} GraceIsFixed(s: State, run: seq<Op>)
    ensures After(s, run).configuredGrace == s.configuredGrace
    decreases |run|
  {
    if run != [] {
      GraceIsFixed(Step(s, run[0]), run[1..]);
    }
  }

  /** Expiry and revocation close every channel held for the device, and no other device's. */
  lemma ExpiryClosesAll(s: State, d: DeviceId, t: State, k: (DeviceId, Id))
    requires Inv(s) && (t == FireStep(s, d) || t == RevokeStep(s, d)) && k in s.waiting
    ensures k.0 == d ==> s.waiting[k] in t.closed
    ensures k.0 != d ==> (s.waiting[k] in t.closed <==> s.waiting[k] in s.closed)
  {
    if k.0 == d {
      if s.waiting[k] !in s.closed {
        assert s.states[d].pending[k.1] in s.states[d].pending.Values;
      }
    } else if s.waiting[k] in MapsOf(s, d).pending.Values {
      var id :| id in MapsOf(s, d).pending && MapsOf(s, d).pending[id] == s.waiting[k];
      assert Held(s, (d, id));
    }
  }

  /** Revocation does not take the device offline: only the teardown of its connection does.  In between
      a dispatch to it is accepted exactly if its id has a prefix, and when the connection then goes it
      is held, on an open channel, until a whole grace period has passed. */
  lemma RevocationLeavesWindow(s: State, d: DeviceId, c: ConnId, id: Id)
    requires Inv(s) && d in s.online && s.online[d] == c && (d, id) !in s.waiting
    ensures var revoked := RevokeStep(s, d);
            var during := DispatchStep(revoked, d, id);
            var gone := UnregisterOnlineStep(during, d, c);
            && revoked.online == s.online
            && ((d, id) in during.waiting <==> CorrelationPrefix(id).Some?)
            && d !in gone.online
            && (CorrelationPrefix(id).Some? ==>
                  && Held(gone, (d, id)) && (d, id) in gone.waiting && gone.waiting[(d, id)] !in gone.closed
                  && gone.states[d].timer == Some(s.now + GracePeriod(s.configuredGrace))
                  && SafeUntil(gone, d, s.now + GracePeriod(s.configuredGrace)))
  {
    var revoked := RevokeStep(s, d);
    ExpireKeepsInv(s, d, revoked);
    assert MapsOf(revoked, d) == D.NEW;
    DispatchKeepsInv(revoked, d, id);
    var during := DispatchStep(revoked, d, id);
    if CorrelationPrefix(id).Some? {
      assert Held(during, (d, id));
      DisconnectArms(during, d, c, id);
    }
  }

  /** The resume flag of hello_ack is true exactly when some dispatch to the device is still waiting
      on an open channel. */
  lemma ResumeFlagMeans(s: State, d: DeviceId)
    requires Inv(s)
    ensures MapsOf(s, d).pending != map[] <==> exists id :: (d, id) in s.waiting && s.waiting[(d, id)] !in s.closed
  {
    if MapsOf(s, d).pending != map[] {
      var id :| id in MapsOf(s, d).pending;
      assert Held(s, (d, id));
    }
  }

  /** Until a deadline passes, an armed timer of the device can only have a deadline at least as late. */
  ghost predicate SafeUntil(s: State, d: DeviceId, deadline: int) {
    && s.now + GracePeriod(s.configuredGrace) >= deadline
    && (MapsOf(s, d).timer.Some? ==> MapsOf(s, d).timer.value >= deadline)
  }

  ghost predicate Spares(op: Op, k: (DeviceId, Id)) {
    op != Revoke(k.0) && op != Finish(k.0, k.1)
  }

  lemma StepKeepsDispatch(s: State, op: Op, k: (DeviceId, Id), deadline: int)
    requires Inv(s) && Enabled(s, op) && Spares(op, k) && Held(s, k)
    requires SafeUntil(s, k.0, deadline) && s.now < deadline
    ensures var t := Step(s, op);
            && Held(t, k) && t.states[k.0].pending[k.1] == s.states[k.0].pending[k.1]
            && SafeUntil(t, k.0, deadline)
  {
  }

  lemma {:induction false} ClockOnlyAdvances(s: State, run: seq<Op>)
    ensures After(s, run).now >= s.now
    decreases |run|
  {
    if run != [] {
      ClockOnlyAdvances(Step(s, run[0]), run[1..]);
    }
  }

  /** A dispatch survives an outage: from a disconnect that armed the timer for a deadline, through any
      run that ends before the deadline and neither revokes the device nor finishes the dispatch,
      it stays pending on the channel it had, and that channel stays open. */
  lemma {:induction false} ResumeKeepsDispatch(s: State, run: seq<Op>, k: (DeviceId, Id), deadline: int)
    requires Inv(s) && Legal(s, run) && Held(s, k)
    requires SafeUntil(s, k.0, deadline) && After(s, run).now < deadline
    requires forall i :: 0 <= i < |run| ==> Spares(run[i], k)
    ensures var t := After(s, run);
            && Held(t, k) && t.states[k.0].pending[k.1] == s.states[k.0].pending[k.1]
            && t.states[k.0].pending[k.1] !in t.closed
    decreases |run|
  {
    if run != [] {
      ClockOnlyAdvances(s, run);
      StepKeepsDispatch(s, run[0], k, deadline);
      StepKeepsInv(s, run[0]);
      ResumeKeepsDispatch(Step(s, run[0]), run[1..], k, deadline);
    }
  }

  /** The disconnect itself sets up that promise for every dispatch pending on the device. */
  lemma DisconnectArms(s: State, d: DeviceId, c: ConnId, id: Id)
    requires Inv(s) && d in s.online && s.online[d] == c && Held(s, (d, id))
    ensures var t := UnregisterOnlineStep(s, d, c);
            && Held(t, (d, id)) && t.states[d].pending == s.states[d].pending
            && t.states[d].timer == Some(s.now + GracePeriod(s.configuredGrace))
            && SafeUntil(t, d, s.now + GracePeriod(s.configuredGrace))
  {
  }

  // ---------------------------------------------------------------- who is online

  lemma {:induction false} AfterSnoc(s: State, run: seq<Op>, op: Op)
    ensures After(s, run + [op]) == Step(After(s, run), op)
    decreases |run|
  {
    if run == [] {
      assert run + [op] == [op] && [op][1..] == [];
      assert After(Step(s, op), []) == Step(s, op);
    } else {
      assert (run + [op])[1..] == run[1..] + [op];
      AfterSnoc(Step(s, run[0]), run[1..], op);
    }
  }

  /** d registered on c at i, and since then no connection of d has registered and c has not left. */
  predicate LastCame(run: seq<Op>, d: DeviceId, c: ConnId, i: int) {
    && 0 <= i < |run| && run[i] == Op.RegisterOnline(d, c)
    && forall j :: i < j < |run| ==> !(run[j].RegisterOnline? && run[j].device == d) && run[j] != Op.UnregisterOnline(d, c)
  }

  lemma LastCameSnoc(run: seq<Op>, op: Op, d: DeviceId, c: ConnId)
    ensures (exists i :: LastCame(run + [op], d, c, i)) <==>
            op == Op.RegisterOnline(d, c) ||
            ((exists i :: LastCame(run, d, c, i)) && !(op.RegisterOnline? && op.device == d) && op != Op.UnregisterOnline(d, c))
  {
    var more := run + [op];
    if op == Op.RegisterOnline(d, c) {
      assert LastCame(more, d, c, |run|);
    }
    if exists i :: LastCame(more, d, c, i) {
      var i :| LastCame(more, d, c, i);
      assert more[|run|] == op;
      if i < |run| {
        assert forall j :: 0 <= j < |run| ==> more[j] == run[j];
        assert LastCame(run, d, c, i);
      }
    }
    if (exists i :: LastCame(run, d, c, i)) && !(op.RegisterOnline? && op.device == d) && op != Op.UnregisterOnline(d, c) {
      var i :| LastCame(run, d, c, i);
      assert LastCame(more, d, c, i);
    }
  }

  /** What a step does to a device's presence. */
  lemma PresenceStep(s: State, op: Op, d: DeviceId, c: ConnId)
    ensures IsOn(Step(s, op), d, c) <==>
            op == Op.RegisterOnline(d, c) ||
            (IsOn(s, d, c) && !(op.RegisterOnline? && op.device == d) && op != Op.UnregisterOnline(d, c))
  {
  }

  predicate IsOn(s: State, d: DeviceId, c: ConnId) {
    d in s.online && s.online[d] == c
  }

  /** After every run a device is online on c exactly if the last connection it registered is c and c has
      not unregistered since: a new connection supersedes the old one, whose own teardown then changes
      nothing, and neither dispatches nor timers nor revocations touch presence. */
  lemma {:induction false} OnlineIff(now: int, configured: int, run: seq<Op>, d: DeviceId, c: ConnId)
    ensures IsOn(After(Initial(now, configured), run), d, c) <==> exists i :: LastCame(run, d, c, i)
    decreases |run|
  {
    if run != [] {
      var before, op := run[..|run| - 1], run[|run| - 1];
      assert run == before + [op];
      OnlineIff(now, configured, before, d, c);
      AfterSnoc(Initial(now, configured), before, op);
      PresenceStep(After(Initial(now, configured), before), op, d, c);
      LastCameSnoc(before, op, d, c);
    }
  }

  // ---------------------------------------------------------------- the object itself

  /** The id has a prefix, and no pending dispatch of the device is found under it. */
  predicate FreePrefix(s: State, d: DeviceId, id: Id) {
    CorrelationPrefix(id).Some? && (d in s.states ==> CorrelationPrefix(id).value !in s.states[d].byPrefix)
  }

  datatype Started = Offline | Rejected | Waiting(ch: Chan)

  class Server {
    var online: map<DeviceId, ConnId>
    var states: map<DeviceId, D.Maps>
    var made: nat
    var closed: set<Chan>
    var now: int
    var configuredGrace: int
    ghost var waiting: map<(DeviceId, Id), Chan>

    ghost function View(): State
      reads this
    {
      State(online, states, made, closed, waiting, now, configuredGrace)
    }

    constructor (now: int, configuredGrace: int)
      ensures View() == Initial(now, configuredGrace) && Inv(View())
    {
      online, states, made, closed := map[], map[], 0, {};
      this.now, this.configuredGrace := now, configuredGrace;
      waiting := map[];
    }

    /** The device's dispatch state, created if needed. */
    method StateOf(d: DeviceId) returns (m: D.Maps)
      modifies this`states
      ensures m == MapsOf(old(View()), d) && states == old(states)[d := m]
    {
      if d !in states {
        states := states[d := D.NEW];
      }
      m := states[d];
      assert states == old(states)[d := m];
    }

    /** Makes c the device's connection.  resumed says whether held work was waiting for it; superseded is
        the connection that is closed in its favour. */
    method RegisterOnline(d: DeviceId, c: ConnId) returns (resumed: bool, superseded: Option<ConnId>)
      requires Inv(View())
      modifies this
      ensures View() == Step(old(View()), Op.RegisterOnline(d, c)) && Inv(View())
      ensures online == old(online)[d := c]
      ensures resumed <==> exists id :: (d, id) in waiting && waiting[(d, id)] !in closed
      ensures superseded == if d in old(online) && old(online)[d] != c then Some(old(online)[d]) else None
    {
      PresenceKeepsInv(View(), Op.RegisterOnline(d, c));
      ResumeFlagMeans(View(), d);
      resumed, superseded := ComeOnline(d, c);
    }

    method ComeOnline(d: DeviceId, c: ConnId) returns (held: bool, superseded: Option<ConnId>)
      modifies this
      ensures View() == RegisterOnlineStep(old(View()), d, c)
      ensures online == old(online)[d := c]
      ensures held <==> MapsOf(old(View()), d).pending != map[]
      ensures superseded == if d in old(online) && old(online)[d] != c then Some(old(online)[d]) else None
    {
      superseded := if d in online && online[d] != c then Some(online[d]) else None;
      online := online[d := c];
      var m := StateOf(d);
      states := states[d := m.(timer := None)];
      held := m.pending != map[];
    }

    /** Only the current connection takes the device offline; a superseded one changes nothing at all. */
    method UnregisterOnline(d: DeviceId, c: ConnId)
      requires Inv(View())
      modifies this
      ensures View() == Step(old(View()), Op.UnregisterOnline(d, c)) && Inv(View())
      ensures !IsOn(old(View()), d, c) ==> View() == old(View())
      ensures IsOn(old(View()), d, c) ==> online == old(online) - {d} && Holds(d, old(View()))
    {
      PresenceKeepsInv(View(), Op.UnregisterOnline(d, c));
      GoOffline(d, c);
    }

    /** d's pending dispatches are what they were, with a grace timer if there are any. */
    ghost predicate Holds(d: DeviceId, before: State)
      reads this
    {
      && states.Keys == before.states.Keys + {d} && (forall e :: e in states && e != d ==> states[e] == before.states[e])
      && states[d].pending == MapsOf(before, d).pending && states[d].byPrefix == MapsOf(before, d).byPrefix
      && (states[d].pending != map[] ==>
            states[d].timer == Some(now + if configuredGrace > 0 then configuredGrace else 60_000_000_000))
      && (states[d].pending == map[] ==> states[d].timer == MapsOf(before, d).timer)
      && made == before.made && closed == before.closed && waiting == before.waiting && now == before.now
    }

    method GoOffline(d: DeviceId, c: ConnId)
      modifies this
      ensures View() == UnregisterOnlineStep(old(View()), d, c)
      ensures !IsOn(old(View()), d, c) ==> View() == old(View())
      ensures IsOn(old(View()), d, c) ==> online == old(online) - {d} && Holds(d, old(View()))
    {
      var changed := d in online && online[d] == c;
      if changed {
        online := online - {d};
        var m := StateOf(d);
        if m.pending != map[] {
          states := states[d := m.(timer := Some(now + GracePeriod(configuredGrace)))];
        }
      }
    }

    /** The start of Bridge.Dispatch: find the connection, register the correlation id. */
    method Dispatch(d: DeviceId, id: Id) returns (started: Started)
      requires Inv(View()) && (d, id) !in waiting
      modifies this
      ensures View() == Step(old(View()), Op.Dispatch(d, id)) && Inv(View())
      ensures started.Offline? <==> d !in old(online)
      ensures started.Waiting? <==> d in old(online) && FreePrefix(old(View()), d, id)
      ensures started.Waiting? ==> waiting == old(waiting)[(d, id) := started.ch] && started.ch !in closed
      ensures !started.Waiting? ==> waiting == old(waiting)
      ensures online == old(online) && closed == old(closed)
    {
      DispatchKeepsInv(View(), d, id);
      RegisteredIsOpen(View(), d, id);
      started := Admit(d, id);
    }

    method Admit(d: DeviceId, id: Id) returns (started: Started)
      modifies this
      ensures View() == DispatchStep(old(View()), d, id)
      ensures started.Offline? <==> d !in old(online)
      ensures started.Waiting? <==> d in old(online) && FreePrefix(old(View()), d, id)
      ensures started.Waiting? ==> started.ch == old(made) && waiting == old(waiting)[(d, id) := old(made)]
      ensures !started.Waiting? ==> waiting == old(waiting)
      ensures online == old(online) && closed == old(closed)
    {
      if d !in online {
        return Offline;
      }
      var m := StateOf(d);
      match D.Register(m, id, made) {
        case None => started := Rejected;
        case Some(n) =>
          started := Waiting(made);
          states := states[d := n];
          waiting := waiting[(d, id) := made];
          made := made + 1;
      }
    }

    method Finish(d: DeviceId, id: Id)
      requires Inv(View()) && (d, id) in waiting
      modifies this
      ensures View() == Step(old(View()), Op.Finish(d, id)) && Inv(View())
      ensures waiting == old(waiting) - {(d, id)} && d in states && id !in states[d].pending
      ensures online == old(online) && closed == old(closed)
    {
      FinishKeepsInv(View(), d, id);
      Forget(d, id);
    }

    method Forget(d: DeviceId, id: Id)
      modifies this
      ensures View() == FinishStep(old(View()), d, id)
      ensures waiting == old(waiting) - {(d, id)} && d in states && id !in states[d].pending
      ensures online == old(online) && closed == old(closed)
    {
      var m := StateOf(d);
      states := states[d := D.Unregister(m, id)];
      waiting := waiting - {(d, id)};
    }

    /** The grace timer's callback: everything held for d is closed, and nothing else changes. */
    method Fire(d: DeviceId)
      requires Inv(View()) && Enabled(View(), Op.Fire(d))
      modifies this
      ensures View() == Step(old(View()), Op.Fire(d)) && Inv(View())
      ensures closed == old(closed) + old(states)[d].pending.Values
      ensures states == old(states)[d := D.Maps(map[], map[], None)] && online == old(online) && waiting == old(waiting)
    {
      ExpireKeepsInv(View(), d, FireStep(View(), d));
      closed := closed + states[d].pending.Values;
      states := states[d := D.NEW];
    }

    /** Everything held for d is closed and its state forgotten; dropped is the connection to close, which
        stays registered until its own teardown. */
    method RevokeDevice(d: DeviceId) returns (dropped: Option<ConnId>)
      requires Inv(View())
      modifies this
      ensures View() == Step(old(View()), Revoke(d)) && Inv(View())
      ensures states == old(states) - {d} && online == old(online) && waiting == old(waiting)
      ensures closed == old(closed) + if d in old(states) then old(states)[d].pending.Values else {}
      ensures dropped == if d in online then Some(online[d]) else None
    {
      ExpireKeepsInv(View(), d, RevokeStep(View(), d));
      dropped := if d in online then Some(online[d]) else None;
      if d in states {
        var m := states[d];
        states := states - {d};
        closed := closed + m.pending.Values;
      } else {
        assert states - {d} == states && closed + D.NEW.pending.Values == closed;
      }
    }
  }
}
