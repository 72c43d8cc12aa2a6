/** The per-device dispatch state of the server (internal/agent/state.go): which dispatches are
    pending, the prefix index that routes binary frames to them, and the reconnect grace timer.

    Runs are taken at the granularity of the source's lock sections, so the channels that an expiry
    has collected are closed one by one, interleaved with other calls. */
module DeviceState {
  import opened Util
  import opened Binary

  type Id = string

  /** A channel is known by the number of channels made before it. */
  type Chan = nat

  /** The fields of a deviceState; timer is the deadline of a running grace timer. */
  datatype Maps = Maps(pending: map<Id, Chan>, byPrefix: map<Prefix, Chan>, timer: Option<int>)

  const NEW: Maps := Maps(map[], map[], None)

  /** registerPending with the fresh channel c; None where it returns an error. */
  function Register(m: Maps, id: Id, c: Chan): Option<Maps> {
    match CorrelationPrefix(id)
    case None => None
    case Some(p) =>
      if p in m.byPrefix then None
      else Some(m.(pending := m.pending[id := c], byPrefix := m.byPrefix[p := c]))
  }

  function Unregister(m: Maps, id: Id): Maps {
    match CorrelationPrefix(id)
    case None => m.(pending := m.pending - {id})
    case Some(p) => m.(pending := m.pending - {id}, byPrefix := m.byPrefix - {p})
  }

  // ---------------------------------------------------------------- what the maps mean

  ghost predicate Injective<K(!new), V>(m: map<K, V>) {
    forall i, j :: i in m && j in m && m[i] == m[j] ==> i == j
  }

  /** Only ids that have a prefix are pending, each on a channel of its own. */
  ghost predicate PendingOk(m: Maps) {
    && (forall id :: id in m.pending ==> CorrelationPrefix(id).Some?)
    && Injective(m.pending)
  }

  ghost predicate OwnedBy(m: Maps, p: Prefix, id: Id)
    requires p in m.byPrefix
  {
    id in m.pending && CorrelationPrefix(id) == Some(p) && m.pending[id] == m.byPrefix[p]
  }

  /** Every index entry leads to a pending dispatch with that prefix, on the same channel. */
  ghost predicate IndexOwned(m: Maps) {
    forall p :: p in m.byPrefix ==> exists id :: OwnedBy(m, p, id)
  }

  /** Every pending dispatch is found through its prefix. */
  ghost predicate IndexComplete(m: Maps) {
    forall id :: id in m.pending ==>
      CorrelationPrefix(id).Some? && CorrelationPrefix(id).value in m.byPrefix
      && m.byPrefix[CorrelationPrefix(id).value] == m.pending[id]
  }

  /** byPrefix is exactly the one-to-one image of pending. */
  ghost predicate Exact(m: Maps) {
    PendingOk(m) && IndexOwned(m) && IndexComplete(m)
  }

  /** With an exact index no two pending dispatches share a prefix. */
  lemma ExactIsOneToOne(m: Maps, i: Id, j: Id)
    requires Exact(m) && i in m.pending && j in m.pending && CorrelationPrefix(i) == CorrelationPrefix(j)
    ensures i == j
  {
    assert m.pending[i] == m.byPrefix[CorrelationPrefix(i).value] == m.pending[j];
  }

  lemma RegisterKeepsOwned(m: Maps, id: Id, c: Chan)
    requires PendingOk(m) && IndexOwned(m) && (forall i :: i in m.pending ==> m.pending[i] != c)
    requires Register(m, id, c).Some?
    ensures var n := Register(m, id, c).value; PendingOk(n) && IndexOwned(n)
  {
    var n := Register(m, id, c).value;
    var q := CorrelationPrefix(id).value;
    forall p | p in n.byPrefix
      ensures exists i :: OwnedBy(n, p, i)
    {
      if p == q {
        assert OwnedBy(n, p, id);
      } else {
        var i :| OwnedBy(m, p, i);
        assert OwnedBy(n, p, i);
      }
    }
  }

  lemma UnregisterKeepsOwned(m: Maps, id: Id)
    requires PendingOk(m) && IndexOwned(m)
    ensures var n := Unregister(m, id); PendingOk(n) && IndexOwned(n)
  {
    var n := Unregister(m, id);
    forall p | p in n.byPrefix
      ensures exists i :: OwnedBy(n, p, i)
    {
      var i :| OwnedBy(m, p, i);
      assert OwnedBy(n, p, i);
    }
  }

  lemma RegisterKeepsExact(m: Maps, id: Id, c: Chan)
    requires Exact(m) && (forall i :: i in m.pending ==> m.pending[i] != c) && Register(m, id, c).Some?
    ensures Exact(Register(m, id, c).value)
  {
    RegisterKeepsOwned(m, id, c);
  }

  /** Whether an unregister leaves other dispatches' index entries alone can be told beforehand:
      its id is still pending, or nobody uses its prefix. */
  ghost predicate Harmless(m: Maps, id: Id) {
    id in m.pending || CorrelationPrefix(id).None? || CorrelationPrefix(id).value !in m.byPrefix
  }

  lemma UnregisterExactIff(m: Maps, id: Id)
    requires Exact(m)
    ensures Exact(Unregister(m, id)) <==> Harmless(m, id)
  {
    UnregisterKeepsOwned(m, id);
    if Harmless(m, id) {
      HarmlessKeepsComplete(m, id);
    } else {
      HarmfulLosesEntry(m, id);
    }
  }

  lemma HarmlessKeepsComplete(m: Maps, id: Id)
    requires Exact(m) && Harmless(m, id)
    ensures IndexComplete(Unregister(m, id))
  {
    var n := Unregister(m, id);
    forall j | j in n.pending
      ensures var p := CorrelationPrefix(j); p.Some? && p.value in n.byPrefix && n.byPrefix[p.value] == n.pending[j]
    {
      assert j in m.pending && j != id;
      if id in m.pending && CorrelationPrefix(j) == CorrelationPrefix(id) {
        ExactIsOneToOne(m, id, j);
      }
    }
  }

  lemma HarmfulLosesEntry(m: Maps, id: Id)
    requires Exact(m) && !Harmless(m, id)
    ensures !IndexComplete(Unregister(m, id))
  {
    var n := Unregister(m, id);
    var p := CorrelationPrefix(id).value;
    var j :| OwnedBy(m, p, j);
    assert j in n.pending && p !in n.byPrefix;
  }

  // ---------------------------------------------------------------- runs of lock sections

  datatype State = State(
    maps: Maps,
    made: nat,                  // channels made so far
    condemned: multiset<Chan>,  // collected by an expire that has not closed them yet
    closed: multiset<Chan>,     // how often close was called on each channel
    routed: multiset<Chan>,     // handed out by a lookup whose caller has not sent yet
    panicked: bool)             // somebody has sent on a closed channel

  /** The lock sections of state.go, the close calls that follow an expire's section, and the send that
      follows a lookup.  order is the order in which the collecting loop happens to visit the pending
      map. */
  datatype Section =
    | RegisterPending(id: Id)
    | UnregisterPending(id: Id)
    | StartGrace(deadline: int)
    | Resume
    | Collect(order: seq<Id>)
    | CloseOne(c: Chan)
    | Route(id: Id)
    | RoutePrefix(prefix: Prefix)
    | Deliver(c: Chan)

  predicate NoDuplicates<T(==)>(s: seq<T>) {
    forall i, j :: 0 <= i < j < |s| ==> s[i] != s[j]
  }

  ghost predicate Visits(order: seq<Id>, m: map<Id, Chan>) {
    NoDuplicates(order) && forall id :: id in order <==> id in m
  }

  ghost predicate Enabled(s: State, section: Section) {
    match section
    case Collect(order) => Visits(order, s.maps.pending)
    case CloseOne(c) => c in s.condemned
    case Deliver(c) => c in s.routed
    case _ => true
  }

  function Channels(order: seq<Id>, m: map<Id, Chan>): (r: seq<Chan>)
    requires forall id :: id in order ==> id in m
    ensures |r| == |order|
  {
    seq(|order|, i requires 0 <= i < |order| => m[order[i]])
  }

  ghost function Step(s: State, section: Section): State
    requires Enabled(s, section)
  {
    match section
    case RegisterPending(id) =>
      (match Register(s.maps, id, s.made)
       case None => s
       case Some(n) => s.(maps := n, made := s.made + 1))
    case UnregisterPending(id) => s.(maps := Unregister(s.maps, id))
    case StartGrace(deadline) => s.(maps := s.maps.(timer := Some(deadline)))
    case Resume => s.(maps := s.maps.(timer := None))
    case Collect(order) => s.(maps := NEW, condemned := s.condemned + multiset(Channels(order, s.maps.pending)))
    case CloseOne(c) => s.(condemned := s.condemned - multiset{c}, closed := s.closed + multiset{c})
    case Route(id) =>
      if id in s.maps.pending then s.(routed := s.routed + multiset{s.maps.pending[id]}) else s
    case RoutePrefix(p) =>
      if p in s.maps.byPrefix then s.(routed := s.routed + multiset{s.maps.byPrefix[p]}) else s
    case Deliver(c) => s.(routed := s.routed - multiset{c}, panicked := s.panicked || c in s.closed)
  }

  const INITIAL: State := State(NEW, 0, multiset{}, multiset{}, multiset{}, false)

  ghost predicate Legal(s: State, run: seq<Section>)
    decreases |run|
  {
    run == [] || (Enabled(s, run[0]) && Legal(Step(s, run[0]), run[1..]))
  }

  ghost function After(s: State, run: seq<Section>): State
    requires Legal(s, run)
    decreases |run|
  {
    if run == [] then s else After(Step(s, run[0]), run[1..])
  }

  function Retired(s: State): multiset<Chan> {
    s.condemned + s.closed
  }

  /** Channels that are pending, about to be closed, and closed are all different channels. */
  ghost predicate Lifecycle(s: State) {
    && PendingOk(s.maps)
    && IndexOwned(s.maps)
    && (forall c :: c in Retired(s) ==> Retired(s)[c] == 1 && c < s.made)
    && (forall id :: id in s.maps.pending ==> s.maps.pending[id] < s.made && s.maps.pending[id] !in Retired(s))
  }

  lemma {:induction false} DistinctChannels(order: seq<Id>, m: map<Id, Chan>, c: Chan)
    requires NoDuplicates(order) && Injective(m) && forall id :: id in order ==> id in m
    ensures multiset(Channels(order, m))[c] <= 1
    ensures c in multiset(Channels(order, m)) ==> exists id :: id in order && m[id] == c
  {
    if order != [] {
      var n := |order| - 1;
      DistinctChannels(order[..n], m, c);
      assert Channels(order, m) == Channels(order[..n], m) + [m[order[n]]];
      assert order[n] in order;
    }
  }

  lemma CollectKeepsLifecycle(s: State, order: seq<Id>)
    requires Lifecycle(s) && Enabled(s, Collect(order))
    ensures Lifecycle(Step(s, Collect(order)))
  {
    var t := Step(s, Collect(order));
    forall c | c in Retired(t) ensures Retired(t)[c] == 1 && c < t.made {
      DistinctChannels(order, s.maps.pending, c);
      assert Retired(t)[c] == Retired(s)[c] + multiset(Channels(order, s.maps.pending))[c];
    }
  }

  lemma RegisterKeepsLifecycle(s: State, id: Id)
    requires Lifecycle(s)
    ensures Lifecycle(Step(s, RegisterPending(id)))
  {
    var t := Step(s, RegisterPending(id));
    var registered := Register(s.maps, id, s.made);
    if registered.Some? {
      assert forall i :: i in s.maps.pending ==> s.maps.pending[i] != s.made;
      RegisterKeepsOwned(s.maps, id, s.made);
      assert t.maps == registered.value && t.made == s.made + 1 && Retired(t) == Retired(s);
      assert t.maps.pending == s.maps.pending[id := s.made];
      assert s.made !in Retired(s);
    } else {
      assert t == s;
    }
  }

  lemma StepKeepsLifecycle(s: State, section: Section)
    requires Lifecycle(s) && Enabled(s, section)
    ensures Lifecycle(Step(s, section))
  {
    match section
    case RegisterPending(id) => RegisterKeepsLifecycle(s, id);
    case UnregisterPending(id) => UnregisterKeepsOwned(s.maps, id);
    case Collect(order) => CollectKeepsLifecycle(s, order);
    case CloseOne(c) => assert Retired(Step(s, section)) == Retired(s);
    case Route(id) =>
    case RoutePrefix(p) =>
    case Deliver(c) =>
    case StartGrace(deadline) => TimerKeepsOwned(s.maps, Some(deadline));
    case Resume => TimerKeepsOwned(s.maps, None);
  }

  lemma TimerKeepsOwned(m: Maps, timer: Option<int>)
    requires IndexOwned(m)
    ensures IndexOwned(m.(timer := timer))
  {
    forall p | p in m.byPrefix
      ensures exists id :: OwnedBy(m.(timer := timer), p, id)
    {
      var id :| OwnedBy(m, p, id);
      assert OwnedBy(m.(timer := timer), p, id);
    }
  }

  lemma {:induction false} RunKeepsLifecycle(s: State, run: seq<Section>)
    requires Lifecycle(s) && Legal(s, run)
    ensures Lifecycle(After(s, run))
    decreases |run|
  {
    if run != [] {
      StepKeepsLifecycle(s, run[0]);
      RunKeepsLifecycle(Step(s, run[0]), run[1..]);
    }
  }

  /** Over every run no channel is closed twice. */
  lemma ClosedAtMostOnce(run: seq<Section>, c: Chan)
    requires Legal(INITIAL, run)
    ensures After(INITIAL, run).closed[c] <= 1
  {
    RunKeepsLifecycle(INITIAL, run);
    var s := After(INITIAL, run);
    assert Retired(s)[c] == s.condemned[c] + s.closed[c];
  }

  /** Over every run neither route nor routePrefix hands out a channel that is closed or about to be,
      and a prefix leads to a pending dispatch that has it. */
  lemma RoutesAreOpen(run: seq<Section>)
    requires Legal(INITIAL, run)
    ensures var s := After(INITIAL, run);
            && (forall id :: id in s.maps.pending ==> s.maps.pending[id] !in Retired(s))
            && (forall p :: p in s.maps.byPrefix ==> s.maps.byPrefix[p] !in Retired(s))
            && IndexOwned(s.maps)
  {
    RunKeepsLifecycle(INITIAL, run);
    var s := After(INITIAL, run);
    forall p | p in s.maps.byPrefix ensures s.maps.byPrefix[p] !in Retired(s) {
      var id :| OwnedBy(s.maps, p, id);
    }
  }

  // ---------------------------------------------------------------- sending after the lock is released

  /** Once open, a channel is closed by a run exactly if the run closes it. */
  lemma {:induction false} ClosedIff(s: State, run: seq<Section>, c: Chan)
    requires Legal(s, run)
    ensures c in After(s, run).closed <==> c in s.closed || CloseOne(c) in run
    decreases |run|
  {
    if run != [] {
      ClosedIff(Step(s, run[0]), run[1..], c);
      ClosedStep(s, run[0], c);
      assert CloseOne(c) in run <==> run[0] == CloseOne(c) || CloseOne(c) in run[1..];
    }
  }

  lemma ClosedStep(s: State, section: Section, c: Chan)
    requires Enabled(s, section)
    ensures c in Step(s, section).closed <==> c in s.closed || section == CloseOne(c)
  {
  }

  /** The run collects c from the pending map: an expiry finds its dispatch still registered. */
  ghost predicate ExpiresHolding(s: State, run: seq<Section>, c: Chan)
    requires Legal(s, run)
    decreases |run|
  {
    run != [] &&
    ((run[0].Collect? && c in s.maps.pending.Values) || ExpiresHolding(Step(s, run[0]), run[1..], c))
  }

  lemma CondemnedStep(s: State, section: Section, c: Chan)
    requires Enabled(s, section) && c !in s.condemned && !(section.Collect? && c in s.maps.pending.Values)
    ensures c !in Step(s, section).condemned && section != CloseOne(c)
  {
    if section.Collect? {
      var order := section.order;
      forall k | 0 <= k < |order| ensures Channels(order, s.maps.pending)[k] != c {
        assert order[k] in order;
      }
    }
  }

  /** Only an expiry that still finds the dispatch leads to its channel being closed. */
  lemma {:induction false} ClosingNeedsExpiry(s: State, run: seq<Section>, c: Chan)
    requires Legal(s, run) && c !in s.condemned && CloseOne(c) in run
    ensures ExpiresHolding(s, run, c)
    decreases |run|
  {
    if !(run[0].Collect? && c in s.maps.pending.Values) {
      CondemnedStep(s, run[0], c);
      ClosingNeedsExpiry(Step(s, run[0]), run[1..], c);
    }
  }

  /** A lookup hands out a channel that is open, but the caller sends on it after the lock has been
      released.  In every run that send panics exactly if the channel has been closed since the lookup,
      which takes an expiry that ran in between and still found the dispatch registered. */
  lemma DeliveryPanicsIff(run: seq<Section>, lookup: Section, c: Chan, more: seq<Section>)
    requires Legal(INITIAL, run) && Finds(After(INITIAL, run), lookup, c)
    requires Legal(Step(After(INITIAL, run), lookup), more)
    requires c in After(Step(After(INITIAL, run), lookup), more).routed
    ensures var r := Step(After(INITIAL, run), lookup);
            var u := After(r, more);
            && (Step(u, Deliver(c)).panicked <==> u.panicked || CloseOne(c) in more)
            && (CloseOne(c) in more ==> ExpiresHolding(r, more, c))
  {
    var s := After(INITIAL, run);
    var r := Step(s, lookup);
    RoutesAreOpen(run);
    assert c !in Retired(s) && c !in s.closed && c !in s.condemned;
    ClosedIff(r, more, c);
    if CloseOne(c) in more {
      ClosingNeedsExpiry(r, more, c);
    }
  }

  /** A lookup that hands out c. */
  ghost predicate Finds(s: State, lookup: Section, c: Chan) {
    || (lookup.Route? && lookup.id in s.maps.pending && s.maps.pending[lookup.id] == c)
    || (lookup.RoutePrefix? && lookup.prefix in s.maps.byPrefix && s.maps.byPrefix[lookup.prefix] == c)
  }

  /** A send at position j after its channel has been closed. */
  predicate HitsClosed(s: State, run: seq<Section>, j: int) {
    0 <= j < |run| && run[j].Deliver? && (run[j].c in s.closed || CloseOne(run[j].c) in run[..j])
  }

  lemma HitsClosedNext(s: State, run: seq<Section>, j: nat)
    requires run != [] && Enabled(s, run[0])
    ensures HitsClosed(s, run, j + 1) <==> HitsClosed(Step(s, run[0]), run[1..], j)
  {
    if j + 1 < |run| && run[j + 1].Deliver? {
      var c := run[j + 1].c;
      assert run[1..][j] == run[j + 1];
      assert run[..j + 1] == [run[0]] + run[1..][..j];
      ClosedStep(s, run[0], c);
    }
  }

  /** A whole run panics exactly if some send comes after the closing of its channel. */
  lemma {:induction false} PanicsIff(s: State, run: seq<Section>)
    requires Legal(s, run)
    ensures After(s, run).panicked <==> s.panicked || exists j :: HitsClosed(s, run, j)
    decreases |run|
  {
    if run != [] {
      var t, rest := Step(s, run[0]), run[1..];
      PanicsIff(t, rest);
      assert t.panicked <==> s.panicked || HitsClosed(s, run, 0);
      if exists j :: HitsClosed(t, rest, j) {
        var j :| HitsClosed(t, rest, j);
        HitsClosedNext(s, run, j);
      }
      if exists j :: HitsClosed(s, run, j) && j > 0 {
        var j :| HitsClosed(s, run, j) && j > 0;
        HitsClosedNext(s, run, j - 1);
      }
    }
  }

  function LateSend(id: Id): seq<Section> {
    [RegisterPending(id), Route(id), Collect([id]), CloseOne(0), Deliver(0)]
  }

  /** It can happen, with any id that has a prefix: the grace timer's expiry collects and closes the
      channel between a lookup and the send that follows it. */
  lemma LateSendPanics(id: Id)
    requires CorrelationPrefix(id).Some?
    ensures Legal(INITIAL, LateSend(id)) && After(INITIAL, LateSend(id)).panicked
  {
    var run, p := LateSend(id), CorrelationPrefix(id).value;
    var s1 := State(Maps(map[id := 0], map[p := 0], None), 1, multiset{}, multiset{}, multiset{}, false);
    var s2 := s1.(routed := multiset{0});
    var s3 := State(NEW, 1, multiset{0}, multiset{}, multiset{0}, false);
    var s4 := State(NEW, 1, multiset{}, multiset{0}, multiset{0}, false);
    var s5 := s4.(routed := multiset{}, panicked := true);
    assert Step(INITIAL, run[0]) == s1;
    assert Step(s1, run[1]) == s2;
    assert Channels([id], s2.maps.pending) == [0];
    assert Step(s2, run[2]) == s3;
    assert Step(s3, run[3]) == s4;
    assert Step(s4, run[4]) == s5;
    AfterCons(s4, run[4], []);
    AfterCons(s3, run[3], [run[4]] + []);
    AfterCons(s2, run[2], [run[3]] + ([run[4]] + []));
    AfterCons(s1, run[1], [run[2]] + ([run[3]] + ([run[4]] + [])));
    AfterCons(INITIAL, run[0], [run[1]] + ([run[2]] + ([run[3]] + ([run[4]] + []))));
    assert run == [run[0]] + ([run[1]] + ([run[2]] + ([run[3]] + ([run[4]] + []))));
  }

  // ---------------------------------------------------------------- when the index is exact

  /** A run in which every unregister is harmless when it runs. */
  ghost predicate AllHarmless(s: State, run: seq<Section>)
    requires Legal(s, run)
    decreases |run|
  {
    run == [] || ((run[0].UnregisterPending? ==> Harmless(s.maps, run[0].id)) && AllHarmless(Step(s, run[0]), run[1..]))
  }

  lemma StepKeepsExact(s: State, section: Section)
    requires Exact(s.maps) && Lifecycle(s) && Enabled(s, section)
    requires section.UnregisterPending? ==> Harmless(s.maps, section.id)
    ensures Exact(Step(s, section).maps)
  {
    match section
    case RegisterPending(id) =>
      if Register(s.maps, id, s.made).Some? {
        RegisterKeepsExact(s.maps, id, s.made);
      }
    case UnregisterPending(id) => UnregisterExactIff(s.maps, id);
    case StartGrace(deadline) => TimerKeepsOwned(s.maps, Some(deadline));
    case Resume => TimerKeepsOwned(s.maps, None);
    case Collect(order) =>
    case CloseOne(c) =>
    case Route(id) =>
    case RoutePrefix(p) =>
    case Deliver(c) =>
  }

  /** In such a run the prefix index is exactly the one-to-one image of the pending map. */
  lemma {:induction false} HarmlessRunsStayExact(s: State, run: seq<Section>)
    requires Exact(s.maps) && Lifecycle(s) && Legal(s, run) && AllHarmless(s, run)
    ensures Exact(After(s, run).maps)
    decreases |run|
  {
    if run != [] {
      StepKeepsLifecycle(s, run[0]);
      StepKeepsExact(s, run[0]);
      HarmlessRunsStayExact(Step(s, run[0]), run[1..]);
    }
  }

  function LateUnregister(a: Id, b: Id): seq<Section> {
    [RegisterPending(a), Collect([a]), RegisterPending(b), UnregisterPending(a)]
  }

  /** It is not exact in every run: for any two ids that share a prefix, a dispatch that unregisters
      after an expiry has already dropped it takes away the index entry of the newer dispatch. */
  lemma LateUnregisterLosesEntry(a: Id, b: Id, p: Prefix)
    requires a != b && CorrelationPrefix(a) == Some(p) && CorrelationPrefix(b) == Some(p)
    ensures Legal(INITIAL, LateUnregister(a, b))
    ensures var s := After(INITIAL, LateUnregister(a, b)); b in s.maps.pending && p !in s.maps.byPrefix
  {
    var run := LateUnregister(a, b);
    var s1 := State(Maps(map[a := 0], map[p := 0], None), 1, multiset{}, multiset{}, multiset{}, false);
    var s2 := State(NEW, 1, multiset{0}, multiset{}, multiset{}, false);
    var s3 := State(Maps(map[b := 1], map[p := 1], None), 2, multiset{0}, multiset{}, multiset{}, false);
    assert Step(INITIAL, run[0]) == s1;
    assert Channels([a], s1.maps.pending) == [0];
    assert Step(s1, run[1]) == s2;
    assert Step(s2, run[2]) == s3;
    AfterCons(s3, run[3], []);
    AfterCons(s2, run[2], [run[3]]);
    AfterCons(s1, run[1], [run[2]] + [run[3]]);
    AfterCons(INITIAL, run[0], [run[1]] + ([run[2]] + [run[3]]));
    assert run == [run[0]] + ([run[1]] + ([run[2]] + [run[3]]));
    assert [run[3]] == [run[3]] + [];
  }

  lemma AfterCons(s: State, section: Section, rest: seq<Section>)
    requires Enabled(s, section) && Legal(Step(s, section), rest)
    ensures Legal(s, [section] + rest) && After(s, [section] + rest) == After(Step(s, section), rest)
  {
    assert ([section] + rest)[1..] == rest;
  }

  /** Such ids exist for every prefix: whatever follows its hexadecimal digits. */
  lemma SharedPrefix(p: Prefix, a: string, b: string)
    ensures CorrelationPrefix(HexEncode(p) + a) == CorrelationPrefix(HexEncode(p) + b) == Some(p)
  {
    PrefixComesFirst(p, a);
    PrefixComesFirst(p, b);
  }

  lemma PrefixComesFirst(p: Prefix, tail: string)
    ensures CorrelationPrefix(HexEncode(p) + tail) == Some(p)
  {
    var digits := HexEncode(p);
    HexRoundTrip(p);
    WithoutHyphensSame(digits);
    WithoutHyphensConcat(digits, tail);
    assert WithoutHyphens(digits + tail)[0..8] == digits;
  }

  // ---------------------------------------------------------------- the object itself

  /** The channels of a server; closing one twice would panic. */
  class Heap {
    var made: nat
    var closed: seq<Chan>

    constructor ()
      ensures made == 0 && closed == []
    {
      made, closed := 0, [];
    }

    method Make() returns (c: Chan)
      modifies this
      ensures c == old(made) && made == c + 1 && closed == old(closed)
    {
      c := made;
      made := made + 1;
    }

    method Close(c: Chan)
      requires c < made && c !in closed
      modifies this
      ensures closed == old(closed) + [c] && made == old(made)
    {
      closed := closed + [c];
    }

    /** Expire's second loop. */
    method CloseAll(chans: seq<Chan>)
      requires NoDuplicates(chans) && forall c :: c in chans ==> c < made && c !in closed
      modifies this
      ensures closed == old(closed) + chans && made == old(made)
    {
      for i := 0 to |chans|
        invariant made == old(made) && closed == old(closed) + chans[..i]
      {
        assert chans[i] in chans;
        Close(chans[i]);
      }
    }
  }

  class Device {
    const heap: Heap
    var pending: map<Id, Chan>
    var byPrefix: map<Prefix, Chan>
    var timer: Option<int>

    function View(): Maps
      reads this
    {
      Maps(pending, byPrefix, timer)
    }

    ghost predicate Valid()
      reads this, heap
    {
      Lifecycle(State(View(), heap.made, multiset{}, multiset(heap.closed), multiset{}, false))
    }

    constructor (heap: Heap)
      requires forall c :: c in heap.closed ==> c < heap.made && multiset(heap.closed)[c] == 1
      ensures Valid() && this.heap == heap && View() == NEW
    {
      this.heap := heap;
      pending, byPrefix, timer := map[], map[], None;
    }

    method RegisterPending(id: Id) returns (ch: Option<Chan>)
      requires Valid()
      modifies this, heap
      ensures Valid() && heap.closed == old(heap.closed)
      ensures match Register(old(View()), id, old(heap.made))
              case None => ch == None && View() == old(View())
              case Some(n) => ch == Some(old(heap.made)) && View() == n
      ensures ch.Some? <==> CorrelationPrefix(id).Some? && CorrelationPrefix(id).value !in old(byPrefix)
      ensures ch.Some? ==> pending == old(pending)[id := ch.value] && byPrefix == old(byPrefix)[CorrelationPrefix(id).value := ch.value]
      ensures ch.Some? ==> ch.value == old(heap.made) && timer == old(timer)
    {
      ghost var s := State(View(), heap.made, multiset{}, multiset(heap.closed), multiset{}, false);
      StepKeepsLifecycle(s, Section.RegisterPending(id));
      ch := None;
      var prefix := CorrelationPrefix(id);
      if prefix.None? {
        return;
      }
      if prefix.value in byPrefix {
        return;
      }
      var c := heap.Make();
      pending := pending[id := c];
      byPrefix := byPrefix[prefix.value := c];
      ch := Some(c);
    }

    method UnregisterPending(id: Id)
      requires Valid()
      modifies this
      ensures Valid() && View() == Unregister(old(View()), id)
      ensures pending == old(pending) - {id} && timer == old(timer)
      ensures byPrefix == if CorrelationPrefix(id).Some? then old(byPrefix) - {CorrelationPrefix(id).value} else old(byPrefix)
    {
      ghost var s := State(View(), heap.made, multiset{}, multiset(heap.closed), multiset{}, false);
      StepKeepsLifecycle(s, Section.UnregisterPending(id));
      var prefix := CorrelationPrefix(id);
      pending := pending - {id};
      if prefix.Some? {
        byPrefix := byPrefix - {prefix.value};
      }
    }

    /** The channel of a pending dispatch, open when it is handed out. */
    method Route(id: Id) returns (ch: Option<Chan>)
      requires Valid()
      ensures ch == if id in pending then Some(pending[id]) else None
      ensures ch.Some? ==> ch.value < heap.made && ch.value !in heap.closed
    {
      if id !in pending {
        return None;
      }
      ch := Some(pending[id]);
      ghost var s := State(View(), heap.made, multiset{}, multiset(heap.closed), multiset{}, false);
      assert pending[id] !in Retired(s);
    }

    /** The same by prefix: the channel of some pending dispatch with that prefix. */
    method RoutePrefix(p: Prefix) returns (ch: Option<Chan>)
      requires Valid()
      ensures ch == if p in byPrefix then Some(byPrefix[p]) else None
      ensures ch.Some? ==> ch.value < heap.made && ch.value !in heap.closed
      ensures ch.Some? ==> exists id :: OwnedBy(View(), p, id) && pending[id] == ch.value
    {
      if p !in byPrefix {
        return None;
      }
      ch := Some(byPrefix[p]);
      ghost var s := State(View(), heap.made, multiset{}, multiset(heap.closed), multiset{}, false);
      ghost var id :| OwnedBy(View(), p, id);
      assert pending[id] !in Retired(s);
    }

    method StartGrace(deadline: int)
      requires Valid()
      modifies this
      ensures Valid() && View() == old(View()).(timer := Some(deadline))
    {
      ghost var s := State(View(), heap.made, multiset{}, multiset(heap.closed), multiset{}, false);
      StepKeepsLifecycle(s, Section.StartGrace(deadline));
      timer := Some(deadline);
    }

    /** Stops a running grace timer and reports whether work is being held for the agent. */
    method Resume() returns (held: bool)
      requires Valid()
      modifies this
      ensures Valid() && View() == old(View()).(timer := None)
      ensures held <==> exists id :: id in pending
    {
      ghost var s := State(View(), heap.made, multiset{}, multiset(heap.closed), multiset{}, false);
      StepKeepsLifecycle(s, Section.Resume);
      timer := None;
      held := |pending| > 0;
      if held {
        var id :| id in pending;
      }
    }

    /** Closes the channel of every pending dispatch, each of them once, and forgets them all. */
    method Expire()
      requires Valid()
      modifies this, heap
      ensures Valid() && pending == map[] && byPrefix == map[] && timer == None && heap.made == old(heap.made)
      ensures exists order :: Visits(order, old(pending)) && heap.closed == old(heap.closed) + Channels(order, old(pending))
    {
      ghost var s := State(View(), heap.made, multiset{}, multiset(heap.closed), multiset{}, false);
      var chans, order := CollectChannels();
      CollectKeepsLifecycle(s, order);
      AllStillOpen(s, order);
      pending, byPrefix, timer := map[], map[], None;
      heap.CloseAll(chans);
      assert multiset(heap.closed) == Retired(Step(s, Collect(order)));
    }

    /** Expire's first loop. */
    method CollectChannels() returns (chans: seq<Chan>, ghost order: seq<Id>)
      ensures Visits(order, pending) && chans == Channels(order, pending)
    {
      chans, order := [], [];
      var left := pending.Keys;
      while left != {}
        invariant left <= pending.Keys
        invariant NoDuplicates(order) && forall id :: id in pending <==> id in left || id in order
        invariant forall id :: id in order ==> id !in left
        invariant chans == Channels(order, pending)
        decreases left
      {
        var id :| id in left;
        chans, order := chans + [pending[id]], order + [id];
        left := left - {id};
      }
    }
  }

  /** When the close loop starts, its channels are distinct and all still open. */
  lemma AllStillOpen(s: State, order: seq<Id>)
    requires Lifecycle(s) && Visits(order, s.maps.pending)
    ensures NoDuplicates(Channels(order, s.maps.pending))
    ensures forall c :: c in Channels(order, s.maps.pending) ==> c < s.made && c !in s.closed
  {
    var chans := Channels(order, s.maps.pending);
    assert forall k :: 0 <= k < |order| ==> order[k] in order;
    forall c | c in chans ensures c < s.made && c !in s.closed {
      var k :| 0 <= k < |chans| && chans[k] == c;
      assert s.maps.pending[order[k]] !in Retired(s);
    }
  }
}
