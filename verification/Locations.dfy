/** Device location records (internal/agent/relay.go) in the key-value store under them
    (internal/redisclient/fake.go): which replica holds a device's connection, and for how long that
    is believed without a refresh.  Tracker operations are atomic. */
module Locations {
  import opened Util

  type ReplicaId = string
  type DeviceId = string

  // ---------------------------------------------------------------- the store

  datatype Store = Store(values: map<string, string>, expires: map<string, int>)

  predicate Expired(kv: Store, key: string, now: int) {
    key in kv.expires && now > kv.expires[key]
  }

  function Remove(kv: Store, key: string): Store {
    Store(kv.values - {key}, kv.expires - {key})
  }

  /** Reading a key drops it if its time is up. */
  function Swept(kv: Store, key: string, now: int): Store {
    if Expired(kv, key, now) then Remove(kv, key) else kv
  }

  function Lookup(kv: Store, key: string, now: int): Option<string> {
    if key in kv.values && !Expired(kv, key, now) then Some(kv.values[key]) else None
  }

  function Put(kv: Store, key: string, value: string, ttl: int, now: int): Store {
    Store(kv.values[key := value], if ttl > 0 then kv.expires[key := now + ttl] else kv.expires - {key})
  }

  function Extend(kv: Store, key: string, ttl: int, now: int): Store {
    if key !in kv.values then kv
    else kv.(expires := if ttl > 0 then kv.expires[key := now + ttl] else kv.expires - {key})
  }

  // ---------------------------------------------------------------- the tracker

  const KEY_PREFIX := "rc-mcp:agent-location:"
  const DEFAULT_TTL: int := 45_000_000_000

  function Key(d: DeviceId): string {
    KEY_PREFIX + d
  }

  lemma KeyInjective(d: DeviceId, e: DeviceId)
    requires Key(d) == Key(e)
    ensures d == e
  {
    assert Key(d)[|KEY_PREFIX|..] == d && Key(e)[|KEY_PREFIX|..] == e;
  }

  function Ttl(configured: int): (ttl: int)
    ensures ttl > 0
  {
    if configured > 0 then configured else DEFAULT_TTL
  }

  datatype State = State(kv: Store, now: int, ttl: int, lastMarked: map<DeviceId, ReplicaId>)

  datatype Op =
    | MarkOnline(replica: ReplicaId, device: DeviceId)
    | MarkOffline(replica: ReplicaId, device: DeviceId)
    | Refresh(devices: seq<DeviceId>)
    | Owner(device: DeviceId)
    | Tick(duration: nat)

  function OwnerOf(s: State, d: DeviceId): Option<ReplicaId> {
    Lookup(s.kv, Key(d), s.now)
  }

  function MarkOfflineStep(kv: Store, r: ReplicaId, d: DeviceId, now: int): Store {
    if Lookup(kv, Key(d), now) == Some(r) then Remove(kv, Key(d)) else Swept(kv, Key(d), now)
  }

  function RefreshStep(kv: Store, devices: seq<DeviceId>, ttl: int, now: int): Store {
    if devices == [] then kv
    else Extend(RefreshStep(kv, devices[..|devices| - 1], ttl, now), Key(devices[|devices| - 1]), ttl, now)
  }

  function Step(s: State, op: Op): State {
    match op
    case MarkOnline(r, d) => s.(kv := Put(s.kv, Key(d), r, s.ttl, s.now), lastMarked := s.lastMarked[d := r])
    case MarkOffline(r, d) => s.(kv := MarkOfflineStep(s.kv, r, d, s.now))
    case Refresh(devices) => s.(kv := RefreshStep(s.kv, devices, s.ttl, s.now))
    case Owner(d) => s.(kv := Swept(s.kv, Key(d), s.now))
    case Tick(duration) => s.(now := s.now + duration)
  }

  function After(s: State, run: seq<Op>): State {
    if run == [] then s else Step(After(s, run[..|run| - 1]), run[|run| - 1])
  }

  function Initial(now: int, configured: int): State {
    State(Store(map[], map[]), now, Ttl(configured), map[])
  }

  // ---------------------------------------------------------------- ownership

  /** A record, even one whose time is up, names the replica that last marked the device online. */
  ghost predicate NamesLastMarker(s: State) {
    && s.ttl > 0
    && forall d :: Key(d) in s.kv.values ==> d in s.lastMarked && s.kv.values[Key(d)] == s.lastMarked[d]
  }

  lemma {:induction false} RefreshKeepsValues(kv: Store, devices: seq<DeviceId>, ttl: int, now: int)
    ensures RefreshStep(kv, devices, ttl, now).values == kv.values
  {
    if devices != [] {
      RefreshKeepsValues(kv, devices[..|devices| - 1], ttl, now);
    }
  }

  lemma StepNamesLastMarker(s: State, op: Op)
    requires NamesLastMarker(s)
    ensures NamesLastMarker(Step(s, op))
  {
    match op
    case MarkOnline(r, d) =>
      forall e | Key(e) in Step(s, op).kv.values && Key(e) == Key(d) ensures e == d {
        KeyInjective(d, e);
      }
    case Refresh(devices) => RefreshKeepsValues(s.kv, devices, s.ttl, s.now);
    case _ =>
  }

  lemma {:induction false} RunNamesLastMarker(s: State, run: seq<Op>)
    requires NamesLastMarker(s)
    ensures NamesLastMarker(After(s, run)) && After(s, run).ttl == s.ttl
  {
    if run != [] {
      RunNamesLastMarker(s, run[..|run| - 1]);
      StepNamesLastMarker(After(s, run[..|run| - 1]), run[|run| - 1]);
    }
  }

  /** Over every run, a present record names the replica that most recently marked the device online. */
  lemma RecordNamesOwner(now: int, configured: int, run: seq<Op>, d: DeviceId)
    ensures var s := After(Initial(now, configured), run);
            OwnerOf(s, d).Some? ==> d in s.lastMarked && OwnerOf(s, d).value == s.lastMarked[d]
  {
    RunNamesLastMarker(Initial(now, configured), run);
  }

  /** Marking a device offline ends a record exactly when it is that device's and names the caller. */
  lemma OnlyTheOwnerRemoves(s: State, r: ReplicaId, d: DeviceId, e: DeviceId)
    ensures OwnerOf(Step(s, MarkOffline(r, d)), e) ==
            if e == d && OwnerOf(s, e) == Some(r) then None else OwnerOf(s, e)
  {
    if Key(d) == Key(e) {
      KeyInjective(d, e);
    }
  }

  datatype Route = Local | Offline | Relayed(owner: ReplicaId)

  /** ReplicaBridge.Dispatch's choice. */
  function RouteOf(self: ReplicaId, connected: bool, owner: Option<ReplicaId>): Route {
    if connected then Local
    else if owner.None? || owner.value == self then Offline
    else Relayed(owner.value)
  }

  /** A dispatch is relayed only to another replica, the one that last marked the device online, and
      only when the device is not connected here. */
  lemma NeverRelaysToItself(now: int, configured: int, run: seq<Op>, self: ReplicaId, connected: bool, d: DeviceId)
    ensures var s := After(Initial(now, configured), run);
            var route := RouteOf(self, connected, OwnerOf(s, d));
            route.Relayed? ==> route.owner != self && !connected && d in s.lastMarked && s.lastMarked[d] == route.owner
  {
    RecordNamesOwner(now, configured, run, d);
  }

  /** After every run, a dispatch of replica `self` stays here exactly if the device is connected here; it is
      relayed to r exactly if the device is not connected here, its record is present, names r, and r is not
      self; otherwise the device is offline. */
  lemma RouteIff(now: int, configured: int, run: seq<Op>, self: ReplicaId, connected: bool, d: DeviceId)
    ensures var s := After(Initial(now, configured), run);
            var route := RouteOf(self, connected, OwnerOf(s, d));
            && (route == Local <==> connected)
            && (forall r :: route == Relayed(r) <==>
                  !connected && Alive(s, d) && d in s.lastMarked && s.lastMarked[d] == r && r != self)
            && (route == Offline <==> !connected && (!Alive(s, d) || (d in s.lastMarked && s.lastMarked[d] == self)))
  {
    RunNamesLastMarker(Initial(now, configured), run);
    var s := After(Initial(now, configured), run);
    assert Alive(s, d) <==> OwnerOf(s, d).Some?;
  }

  /** The device has a record whose time is not up. */
  predicate Alive(s: State, d: DeviceId) {
    Key(d) in s.kv.values && (Key(d) in s.kv.expires ==> s.now <= s.kv.expires[Key(d)])
  }

  // ---------------------------------------------------------------- the heartbeat

  /** The record for d stays for at least the given time if nothing else happens. */
  ghost predicate LastsFor(s: State, d: DeviceId, time: int) {
    Key(d) in s.kv.values && Key(d) in s.kv.expires && s.kv.expires[Key(d)] >= s.now + time
  }

  lemma LastingIsLive(s: State, d: DeviceId)
    requires LastsFor(s, d, 0)
    ensures OwnerOf(s, d).Some?
  {
  }

  /** No replica gives up d's record while it is the owner. */
  ghost predicate Spares(s: State, op: Op, d: DeviceId) {
    op.MarkOffline? && op.device == d ==> OwnerOf(s, d) != Some(op.replica)
  }

  ghost predicate AllSpare(s: State, ops: seq<Op>, d: DeviceId) {
    forall i :: 0 <= i < |ops| ==> Spares(After(s, ops[..i]), ops[i], d)
  }

  function Duration(ops: seq<Op>): nat {
    if ops == [] then 0
    else Duration(ops[..|ops| - 1]) + if ops[|ops| - 1].Tick? then ops[|ops| - 1].duration else 0
  }

  /** A refresh never shortens a record's time, and a device on the list gets the full ttl. */
  lemma {:induction false} RefreshLasts(s: State, devices: seq<DeviceId>, d: DeviceId, time: int)
    requires LastsFor(s, d, time) && s.ttl >= time && s.ttl > 0
    ensures var t := Step(s, Refresh(devices)); LastsFor(t, d, if d in devices then s.ttl else time)
  {
    if devices != [] {
      var n := |devices| - 1;
      RefreshLasts(s, devices[..n], d, time);
      RefreshKeepsValues(s.kv, devices[..n], s.ttl, s.now);
      if Key(devices[n]) == Key(d) {
        KeyInjective(devices[n], d);
      }
      assert devices == devices[..n] + [devices[n]];
    }
  }

  lemma StepLasts(s: State, op: Op, d: DeviceId, time: int)
    requires LastsFor(s, d, time) && Spares(s, op, d) && s.ttl >= time && time >= 0 && s.ttl > 0
    ensures LastsFor(Step(s, op), d, time - if op.Tick? then op.duration else 0)
    ensures Step(s, op).ttl == s.ttl
  {
    match op
    case Refresh(devices) => RefreshLasts(s, devices, d, time);
    case MarkOffline(r, e) =>
      if Key(e) == Key(d) {
        KeyInjective(e, d);
      }
    case Owner(e) =>
      if Key(e) == Key(d) {
        KeyInjective(e, d);
      }
    case MarkOnline(r, e) =>
      if Key(e) == Key(d) {
        KeyInjective(e, d);
      }
    case Tick(duration) =>
  }

  lemma {:induction false} RunLasts(s: State, ops: seq<Op>, d: DeviceId, time: int)
    requires LastsFor(s, d, time) && AllSpare(s, ops, d) && s.ttl >= time >= Duration(ops) && s.ttl > 0
    ensures LastsFor(After(s, ops), d, time - Duration(ops)) && After(s, ops).ttl == s.ttl
  {
    if ops != [] {
      var n := |ops| - 1;
      forall i | 0 <= i < n ensures Spares(After(s, ops[..n][..i]), ops[..n][i], d) {
        assert ops[..n][..i] == ops[..i];
      }
      RunLasts(s, ops[..n], d, time);
      StepLasts(After(s, ops[..n]), ops[n], d, time - Duration(ops[..n]));
    }
  }

  /** The ticker's interval: a third of the ttl unless another is asked for. */
  function HeartbeatInterval(interval: int, ttl: int): (r: int)
    ensures interval > 0 ==> r == interval
    ensures interval <= 0 ==> 3 * r <= ttl < 3 * r + 3
  {
    if interval <= 0 then ttl / 3 else interval
  }

  /** Between two beats, whatever the replicas do for one interval; then the beat, kept or missed. */
  datatype Round = Round(ops: seq<Op>, beat: Option<seq<DeviceId>>)

  function AfterRound(s: State, round: Round): State {
    var t := After(s, round.ops);
    if round.beat.Some? then Step(t, Refresh(round.beat.value)) else t
  }

  function AfterRounds(s: State, rounds: seq<Round>): State
    decreases |rounds|
  {
    if rounds == [] then s else AfterRounds(AfterRound(s, rounds[0]), rounds[1..])
  }

  predicate Kept(round: Round, d: DeviceId) {
    round.beat.Some? && d in round.beat.value
  }

  /** Rounds one interval long in which nobody gives up d's record and, after `missed` misses already,
      no three beats in a row are missed. */
  ghost predicate Steady(s: State, rounds: seq<Round>, d: DeviceId, missed: nat)
    decreases |rounds|
  {
    rounds == [] ||
    (&& Duration(rounds[0].ops) <= HeartbeatInterval(0, s.ttl)
     && AllSpare(s, rounds[0].ops, d)
     && (Kept(rounds[0], d) || missed < 2)
     && Steady(AfterRound(s, rounds[0]), rounds[1..], d, if Kept(rounds[0], d) then 0 else missed + 1))
  }

  lemma RoundLasts(s: State, round: Round, d: DeviceId, missed: nat)
    requires missed <= 2 && s.ttl > 0 && LastsFor(s, d, (3 - missed) * HeartbeatInterval(0, s.ttl))
    requires Duration(round.ops) <= HeartbeatInterval(0, s.ttl) && AllSpare(s, round.ops, d)
    ensures LastsFor(AfterRound(s, round), d,
                     (if Kept(round, d) then 3 else 2 - missed) * HeartbeatInterval(0, s.ttl))
    ensures AfterRound(s, round).ttl == s.ttl
  {
    var interval := HeartbeatInterval(0, s.ttl);
    assert (3 - missed) * interval == (2 - missed) * interval + interval;
    RunLasts(s, round.ops, d, (3 - missed) * interval);
    var t := After(s, round.ops);
    if round.beat.Some? {
      RefreshLasts(t, round.beat.value, d, (2 - missed) * interval);
    }
  }

  /** A record marked online stays live at every moment of every run that keeps a beat at least every
      third interval: in particular one that never misses two beats in a row. */
  lemma {:induction false} HeartbeatKeepsRecord(s: State, rounds: seq<Round>, d: DeviceId, missed: nat, ops: seq<Op>)
    requires missed <= 2 && s.ttl > 0 && LastsFor(s, d, (3 - missed) * HeartbeatInterval(0, s.ttl))
    requires Steady(s, rounds, d, missed)
    requires var t := AfterRounds(s, rounds); Duration(ops) <= HeartbeatInterval(0, s.ttl) && AllSpare(t, ops, d)
    ensures OwnerOf(After(AfterRounds(s, rounds), ops), d).Some?
    decreases |rounds|
  {
    if rounds == [] {
      RunLasts(s, ops, d, (3 - missed) * HeartbeatInterval(0, s.ttl));
      LastingIsLive(After(s, ops), d);
    } else {
      RoundLasts(s, rounds[0], d, missed);
      HeartbeatKeepsRecord(AfterRound(s, rounds[0]), rounds[1..], d, if Kept(rounds[0], d) then 0 else missed + 1, ops);
    }
  }

  lemma {:induction false} SparingKeepsMarker(s: State, ops: seq<Op>, d: DeviceId)
    requires forall i :: 0 <= i < |ops| ==> !(ops[i].MarkOnline? && ops[i].device == d)
    ensures (d in s.lastMarked <==> d in After(s, ops).lastMarked)
    ensures d in s.lastMarked ==> After(s, ops).lastMarked[d] == s.lastMarked[d]
  {
    if ops != [] {
      var before := ops[..|ops| - 1];
      assert forall i :: 0 <= i < |before| ==> before[i] == ops[i];
      SparingKeepsMarker(s, before, d);
      assert ops[|ops| - 1] == ops[|before|];
    }
  }

  /** A device whose owner keeps its record is relayed to, by every other replica that it is not connected
      to, from the moment it is marked online: after any operations that last no longer than three
      heartbeat intervals and neither move nor give up the record. */
  lemma OwnedIsRelayedTo(s: State, r: ReplicaId, d: DeviceId, ops: seq<Op>, self: ReplicaId)
    requires NamesLastMarker(s)
    requires var t := Step(s, MarkOnline(r, d)); Duration(ops) <= 3 * HeartbeatInterval(0, t.ttl) && AllSpare(t, ops, d)
    requires forall i :: 0 <= i < |ops| ==> !(ops[i].MarkOnline? && ops[i].device == d)
    ensures var u := After(Step(s, MarkOnline(r, d)), ops);
            && RouteOf(self, true, OwnerOf(u, d)) == Local
            && RouteOf(self, false, OwnerOf(u, d)) == if self == r then Offline else Relayed(r)
  {
    var t := Step(s, MarkOnline(r, d));
    MarkOnlineStarts(s, r, d);
    RunLasts(t, ops, d, 3 * HeartbeatInterval(0, t.ttl));
    LastingIsLive(After(t, ops), d);
    StepNamesLastMarker(s, MarkOnline(r, d));
    RunNamesLastMarker(t, ops);
    SparingKeepsMarker(t, ops, d);
  }

  /** And so for as long as the heartbeat goes on. */
  lemma BeatingIsRelayedTo(s: State, rounds: seq<Round>, d: DeviceId, missed: nat, ops: seq<Op>, self: ReplicaId)
    requires NamesLastMarker(s)
    requires missed <= 2 && LastsFor(s, d, (3 - missed) * HeartbeatInterval(0, s.ttl)) && Steady(s, rounds, d, missed)
    requires var t := AfterRounds(s, rounds); Duration(ops) <= HeartbeatInterval(0, s.ttl) && AllSpare(t, ops, d)
    ensures var u := After(AfterRounds(s, rounds), ops);
            && d in u.lastMarked
            && RouteOf(self, false, OwnerOf(u, d)) == if self == u.lastMarked[d] then Offline else Relayed(u.lastMarked[d])
  {
    HeartbeatKeepsRecord(s, rounds, d, missed, ops);
    RoundsNameLastMarker(s, rounds);
    RunNamesLastMarker(AfterRounds(s, rounds), ops);
  }

  lemma {:induction false} RoundsNameLastMarker(s: State, rounds: seq<Round>)
    requires NamesLastMarker(s)
    ensures NamesLastMarker(AfterRounds(s, rounds))
    decreases |rounds|
  {
    if rounds != [] {
      var t := After(s, rounds[0].ops);
      RunNamesLastMarker(s, rounds[0].ops);
      if rounds[0].beat.Some? {
        StepNamesLastMarker(t, Refresh(rounds[0].beat.value));
      }
      RoundsNameLastMarker(AfterRound(s, rounds[0]), rounds[1..]);
    }
  }

  /** Without a refresh a record ends: when more than its time has passed in operations that neither mark
      the device online nor refresh it, it has no owner. */
  lemma UnrefreshedEnds(s: State, r: ReplicaId, d: DeviceId, ops: seq<Op>)
    requires s.ttl > 0 && Duration(ops) > s.ttl
    requires forall i :: 0 <= i < |ops| ==> Neglects(ops[i], d)
    ensures OwnerOf(After(Step(s, MarkOnline(r, d)), ops), d) == None
  {
    NeglectedEndsBy(Step(s, MarkOnline(r, d)), ops, d, s.now + s.ttl);
  }

  predicate Neglects(op: Op, d: DeviceId) {
    !(op.MarkOnline? && op.device == d) && !(op.Refresh? && d in op.devices)
  }

  lemma {:induction false} RefreshNeglects(kv: Store, devices: seq<DeviceId>, ttl: int, now: int, d: DeviceId)
    requires d !in devices
    ensures var t := RefreshStep(kv, devices, ttl, now);
            (Key(d) in t.expires <==> Key(d) in kv.expires) && (Key(d) in kv.expires ==> t.expires[Key(d)] == kv.expires[Key(d)])
  {
    if devices != [] {
      RefreshNeglects(kv, devices[..|devices| - 1], ttl, now, d);
      if Key(devices[|devices| - 1]) == Key(d) {
        KeyInjective(devices[|devices| - 1], d);
      }
    }
  }

  lemma StepNeglects(s: State, op: Op, d: DeviceId, end: int)
    requires Neglects(op, d) && (Key(d) in s.kv.values ==> Key(d) in s.kv.expires && s.kv.expires[Key(d)] <= end)
    ensures var t := Step(s, op);
            && (Key(d) in t.kv.values ==> Key(d) in t.kv.expires && t.kv.expires[Key(d)] <= end)
            && t.now == s.now + if op.Tick? then op.duration else 0
  {
    match op
    case MarkOnline(r, e) =>
      if Key(e) == Key(d) {
        KeyInjective(e, d);
      }
    case Refresh(devices) =>
      RefreshKeepsValues(s.kv, devices, s.ttl, s.now);
      RefreshNeglects(s.kv, devices, s.ttl, s.now, d);
    case _ =>
  }

  lemma {:induction false} RunNeglects(s: State, ops: seq<Op>, d: DeviceId, end: int)
    requires Key(d) in s.kv.values ==> Key(d) in s.kv.expires && s.kv.expires[Key(d)] <= end
    requires forall i :: 0 <= i < |ops| ==> Neglects(ops[i], d)
    ensures var t := After(s, ops);
            && (Key(d) in t.kv.values ==> Key(d) in t.kv.expires && t.kv.expires[Key(d)] <= end)
            && t.now == s.now + Duration(ops)
  {
    if ops != [] {
      var n := |ops| - 1;
      assert forall i :: 0 <= i < n ==> ops[..n][i] == ops[i];
      RunNeglects(s, ops[..n], d, end);
      StepNeglects(After(s, ops[..n]), ops[n], d, end);
    }
  }

  lemma NeglectedEndsBy(s: State, ops: seq<Op>, d: DeviceId, end: int)
    requires Key(d) in s.kv.values ==> Key(d) in s.kv.expires && s.kv.expires[Key(d)] <= end
    requires forall i :: 0 <= i < |ops| ==> Neglects(ops[i], d)
    requires s.now + Duration(ops) > end
    ensures OwnerOf(After(s, ops), d) == None
  {
    RunNeglects(s, ops, d, end);
  }

  /** Marking a device online starts such a run. */
  lemma MarkOnlineStarts(s: State, r: ReplicaId, d: DeviceId)
    requires s.ttl > 0
    ensures LastsFor(Step(s, MarkOnline(r, d)), d, 3 * HeartbeatInterval(0, s.ttl))
  {
  }

  // ---------------------------------------------------------------- the objects themselves

  class Fake {
    var values: map<string, string>
    var expires: map<string, int>

    function View(): Store
      reads this
    {
      Store(values, expires)
    }

    constructor ()
      ensures View() == Store(map[], map[])
    {
      values, expires := map[], map[];
    }

    method Get(key: string, now: int) returns (v: Option<string>)
      modifies this
      ensures v == Lookup(old(View()), key, now) && View() == Swept(old(View()), key, now)
      ensures var over := key in old(expires) && old(expires)[key] < now;
              && (v.Some? <==> key in old(values) && !over)
              && (v.Some? ==> v.value == old(values)[key])
              && values == (if over then old(values) - {key} else old(values))
              && expires == (if over then old(expires) - {key} else old(expires))
    {
      if key in expires && now > expires[key] {
        values := values - {key};
        expires := expires - {key};
      }
      v := if key in values then Some(values[key]) else None;
    }

    method Set(key: string, value: string, ttl: int, now: int)
      modifies this
      ensures View() == Put(old(View()), key, value, ttl, now)
      ensures values == old(values)[key := value]
      ensures expires == if ttl > 0 then old(expires)[key := now + ttl] else old(expires) - {key}
    {
      values := values[key := value];
      if ttl > 0 {
        expires := expires[key := now + ttl];
      } else {
        expires := expires - {key};
      }
    }

    method Expire(key: string, ttl: int, now: int)
      modifies this
      ensures View() == Extend(old(View()), key, ttl, now)
      ensures values == old(values)
      ensures key !in values ==> expires == old(expires)
      ensures key in values ==> expires == if ttl > 0 then old(expires)[key := now + ttl] else old(expires) - {key}
    {
      if key !in values {
        return;
      }
      if ttl > 0 {
        expires := expires[key := now + ttl];
      } else {
        expires := expires - {key};
      }
    }

    method Del(key: string)
      modifies this
      ensures View() == Remove(old(View()), key)
      ensures values == old(values) - {key} && expires == old(expires) - {key}
    {
      values := values - {key};
      expires := expires - {key};
    }
  }

  class LocationTracker {
    const kv: Fake
    const replica: ReplicaId
    const ttl: int

    constructor (kv: Fake, replica: ReplicaId, configured: int)
      ensures this.kv == kv && this.replica == replica && ttl == Ttl(configured)
      ensures ttl == if configured > 0 then configured else 45_000_000_000
    {
      this.kv, this.replica, ttl := kv, replica, Ttl(configured);
    }

    method MarkOnline(d: DeviceId, now: int)
      modifies kv
      ensures kv.View() == Put(old(kv.View()), Key(d), replica, ttl, now)
      ensures ttl > 0 ==> kv.values == old(kv.values)[Key(d) := replica] && kv.expires == old(kv.expires)[Key(d) := now + ttl]
    {
      kv.Set(Key(d), replica, ttl, now);
    }

    method MarkOffline(d: DeviceId, now: int)
      modifies kv
      ensures kv.View() == MarkOfflineStep(old(kv.View()), replica, d, now)
      ensures var key := Key(d); var over := key in old(kv.expires) && old(kv.expires)[key] < now;
              kv.values == if over || (key in old(kv.values) && old(kv.values)[key] == replica) then old(kv.values) - {key}
                           else old(kv.values)
    {
      var owner := kv.Get(Key(d), now);
      if owner != Some(replica) {
        return;
      }
      kv.Del(Key(d));
    }

    method Refresh(devices: seq<DeviceId>, now: int)
      modifies kv
      ensures kv.View() == RefreshStep(old(kv.View()), devices, ttl, now)
      ensures kv.values == old(kv.values)
      ensures ttl > 0 ==> forall i :: 0 <= i < |devices| && Key(devices[i]) in kv.values ==>
                Key(devices[i]) in kv.expires && kv.expires[Key(devices[i])] == now + ttl
      ensures forall key :: (forall i :: 0 <= i < |devices| ==> Key(devices[i]) != key) ==>
                (key in kv.expires <==> key in old(kv.expires)) && (key in kv.expires ==> kv.expires[key] == old(kv.expires)[key])
    {
      for i := 0 to |devices|
        invariant kv.View() == RefreshStep(old(kv.View()), devices[..i], ttl, now)
        invariant kv.values == old(kv.values)
        invariant ttl > 0 ==> forall k :: 0 <= k < i && Key(devices[k]) in kv.values ==>
                    Key(devices[k]) in kv.expires && kv.expires[Key(devices[k])] == now + ttl
        invariant forall key :: (forall k :: 0 <= k < i ==> Key(devices[k]) != key) ==>
                    (key in kv.expires <==> key in old(kv.expires)) && (key in kv.expires ==> kv.expires[key] == old(kv.expires)[key])
      {
        assert devices[..i + 1][..i] == devices[..i];
        kv.Expire(Key(devices[i]), ttl, now);
      }
      assert devices[..|devices|] == devices;
    }
  }

  /** ReplicaBridge.Dispatch up to its choice: the hub is asked first, then the location record. */
  class ReplicaBridge {
    const locations: LocationTracker

    constructor (locations: LocationTracker)
      ensures this.locations == locations
    {
      this.locations := locations;
    }

    method Choose(d: DeviceId, connected: bool, now: int) returns (route: Route)
      modifies locations.kv
      ensures route == RouteOf(locations.replica, connected, Lookup(old(locations.kv.View()), Key(d), now))
      ensures var key := Key(d);
              var kv := locations.kv;
              var present := key in old(kv.values) && !(key in old(kv.expires) && old(kv.expires)[key] < now);
              && (route == Local <==> connected)
              && (forall r :: route == Relayed(r) <==>
                    !connected && present && old(kv.values)[key] == r && r != locations.replica)
      ensures connected ==> locations.kv.View() == old(locations.kv.View())
    {
      if connected {
        return Local;
      }
      var owner := locations.kv.Get(Key(d), now);
      if owner.None? || owner.value == locations.replica {
        return Offline;
      }
      route := Relayed(owner.value);
    }
  }
}
