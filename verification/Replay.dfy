/** The replay buffer of a session (internal/session/replay.go): the newest events of the stream,
    kept for clients that reconnect with the id of the last event they received. */
module Replay {
  import opened Util

  datatype Event = Event(name: string, data: string)
  datatype StoredEvent = StoredEvent(id: int, event: Event)

  /** The whole stream as it would be stored: ids count from 1. */
  function Stored(log: seq<Event>): (r: seq<StoredEvent>)
    ensures |r| == |log|
  {
    seq(|log|, i requires 0 <= i < |log| => StoredEvent(i + 1, log[i]))
  }

  /** What a buffer of the given capacity still holds of it. */
  function Retained(log: seq<Event>, capacity: nat): seq<StoredEvent> {
    LastN(Stored(log), capacity)
  }

  /** How many events have been evicted. */
  function Evicted(log: seq<Event>, capacity: nat): nat {
    |log| - Min(|log|, capacity)
  }

  function Clamp(k: int, n: nat): nat {
    if k < 0 then 0 else if k > n then n else k
  }

  /** The events after id k, unless one of them has been evicted. */
  function After(log: seq<Event>, capacity: nat, k: int): Option<seq<StoredEvent>> {
    if k >= Evicted(log, capacity) then Some(Stored(log)[Clamp(k, |log|)..]) else None
  }

  /** Replay is refused exactly when an event with a later id is no longer retained, or the id asked
      for is negative, which no event has. */
  lemma RefusedIffEvicted(log: seq<Event>, capacity: nat, k: int)
    requires capacity > 0
    ensures After(log, capacity, k).None? <==>
            || (k < 0 && |log| <= capacity)
            || exists e :: e in Stored(log) && e.id > k && e !in Retained(log, capacity)
  {
    var gone := Evicted(log, capacity);
    var all := Stored(log);
    assert Retained(log, capacity) == all[gone..];
    if 0 <= k < gone {
      assert all[k] in all && all[k].id > k;
      assert forall i :: gone <= i < |log| ==> all[i].id != all[k].id;
    }
    if k < 0 && gone > 0 {
      assert all[0] in all && all[0].id > k;
      assert forall i :: gone <= i < |log| ==> all[i].id != all[0].id;
    }
    if k >= gone {
      forall e | e in all && e.id > k ensures e in all[gone..] {
        var i :| 0 <= i < |all| && all[i] == e;
        assert all[gone..][i - gone] == e;
      }
    }
  }

  /** A granted replay is exactly the events with a later id, in order and without a gap. */
  lemma ReplayIsTheRest(log: seq<Event>, capacity: nat, k: int)
    requires After(log, capacity, k).Some?
    ensures var r := After(log, capacity, k).value;
            && (forall i :: 0 <= i < |r| ==> r[i].id == Clamp(k, |log|) + 1 + i && r[i].id > k)
            && (forall e :: e in r <==> e in Stored(log) && e.id > k)
            && (forall e :: e in r ==> e in Retained(log, capacity))
  {
    var r, from := After(log, capacity, k).value, Clamp(k, |log|);
    assert r == Stored(log)[from..];
    RestIsLater(log, k);
    RestIsRetained(log, capacity, from);
  }

  lemma RestIsLater(log: seq<Event>, k: int)
    ensures var r := Stored(log)[Clamp(k, |log|)..];
            && (forall i :: 0 <= i < |r| ==> r[i].id == Clamp(k, |log|) + 1 + i && r[i].id > k)
            && (forall e :: e in r <==> e in Stored(log) && e.id > k)
  {
    var all, from := Stored(log), Clamp(k, |log|);
    var r := all[from..];
    assert forall i :: 0 <= i < |r| ==> r[i] == all[from + i];
    forall e | e in all && e.id > k ensures e in r {
      var i :| 0 <= i < |all| && all[i] == e;
      assert r[i - from] == e;
    }
  }

  lemma RestIsRetained(log: seq<Event>, capacity: nat, from: nat)
    requires Evicted(log, capacity) <= from <= |log|
    ensures forall e :: e in Stored(log)[from..] ==> e in Retained(log, capacity)
  {
    var gone := Evicted(log, capacity);
    assert Retained(log, capacity) == Stored(log)[gone..];
    assert Stored(log)[from..] == Stored(log)[gone..][from - gone..];
  }

  class ReplayBuffer {
    var capacity: nat
    var events: seq<StoredEvent>
    var nextId: int
    ghost var log: seq<Event>   // everything ever appended

    /** The buffer holds the newest min(n, capacity) of the n events appended, under consecutive ids. */
    ghost predicate Valid()
      reads this
    {
      && capacity > 0
      && nextId == |log| + 1
      && events == Retained(log, capacity)
    }

    constructor (capacity: int)
      ensures Valid() && log == [] && this.capacity == if capacity <= 0 then 1 else capacity
    {
      this.capacity := if capacity <= 0 then 1 else capacity;
      events, nextId, log := [], 1, [];
    }

    method Append(event: Event) returns (ev: StoredEvent)
      requires Valid()
      modifies this`events, this`nextId, this`log
      ensures Valid() && log == old(log) + [event]
      ensures ev == StoredEvent(|log|, event) && ev == Stored(log)[|log| - 1]
      ensures ev == StoredEvent(old(nextId), event) && nextId == old(nextId) + 1
      ensures events == LastN(old(events) + [ev], capacity)
    {
      ev := StoredEvent(nextId, event);
      LastNPush(Stored(log), capacity, ev);
      assert Stored(log + [event]) == Stored(log) + [ev];
      nextId := nextId + 1;
      events := events + [ev];
      if |events| > capacity {
        var drop := |events| - capacity;
        events := events[drop..];
      }
      log := log + [event];
    }

    /** The retained events with a later id, if none that came after lastEventId has been evicted. */
    method Since(lastEventId: int) returns (out: seq<StoredEvent>, ok: bool)
      requires Valid()
      ensures ok <==> lastEventId >= nextId - 1 - |events|
      ensures ok <==> After(log, capacity, lastEventId).Some?
      ensures out == if ok then After(log, capacity, lastEventId).value else []
      ensures ok ==> |out| <= |events| && out == events[|events| - |out|..]
      ensures ok ==> forall e :: e in out <==> e in events && e.id > lastEventId
    {
      if |events| == 0 {
        out, ok := [], lastEventId >= nextId - 1;
        return;
      }
      var oldest := events[0].id;
      if lastEventId < oldest - 1 {
        return [], false;
      }
      ok, out := true, [];
      ghost var gone := Evicted(log, capacity);
      ghost var from := Clamp(lastEventId, |log|);
      assert events == Stored(log)[gone..];
      for i := 0 to |events|
        invariant out == if gone + i <= from then [] else Stored(log)[from..gone + i]
      {
        assert events[i] == StoredEvent(gone + i + 1, log[gone + i]);
        if events[i].id > lastEventId {
          out := out + [events[i]];
        }
      }
    }
  }
}
