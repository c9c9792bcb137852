/**
 The bounded LRU of parsed bodies, oldest first (session_watcher.py, lines 289 to 291 and 610 to 631).
 An `OrderedDict` keyed by event id is a sequence of events with distinct ids.
 */
module BodyCache {
  import opened Common
  import opened SessionParser

  function Lookup(events: seq<Event>, id: EventId): Option<Event> {
    if events == [] then None
    else if events[0].id == id then Some(events[0]) else Lookup(events[1..], id)
  }

  function Without(cache: seq<Event>, id: EventId): seq<Event> {
    if cache == [] then []
    else (if cache[0].id == id then [] else [cache[0]]) + Without(cache[1..], id)
  }

  /** _cache_put_locked: insert at the young end, then drop from the old end down to capacity. */
  function Put(cache: seq<Event>, e: Event, capacity: nat): seq<Event> {
    var grown := Without(cache, e.id) + [e];
    if |grown| > capacity then grown[|grown| - capacity..] else grown
  }

  function PutAll(cache: seq<Event>, events: seq<Event>, capacity: nat): seq<Event> {
    if events == [] then cache
    else Put(PutAll(cache, events[..|events| - 1], capacity), events[|events| - 1], capacity)
  }

  /** `move_to_end` of a resident event. */
  function Touch(cache: seq<Event>, e: Event): seq<Event> {
    Without(cache, e.id) + [e]
  }

  ghost predicate Bounded(cache: seq<Event>, capacity: nat) {
    DistinctIds(cache) && |cache| <= capacity
  }

  lemma {:induction false} LookupIs(events: seq<Event>, id: EventId)
    ensures Lookup(events, id).Some? <==> id in Ids(events)
    ensures Lookup(events, id).Some? ==> Lookup(events, id).value in events && Lookup(events, id).value.id == id
    ensures DistinctIds(events) ==> forall e :: e in events && e.id == id ==> Lookup(events, id) == Some(e)
  {
    if events != [] {
      LookupIs(events[1..], id);
      assert events == [events[0]] + events[1..];
      assert Ids(events) == {events[0].id} + Ids(events[1..]);
    }
  }

  lemma {:induction false} WithoutMembers(cache: seq<Event>, id: EventId)
    ensures forall e :: e in Without(cache, id) <==> e in cache && e.id != id
    ensures |Without(cache, id)| <= |cache|
  {
    if cache != [] {
      WithoutMembers(cache[1..], id);
      assert cache == [cache[0]] + cache[1..];
    }
  }

  lemma {:induction false} WithoutDistinct(cache: seq<Event>, id: EventId)
    requires DistinctIds(cache)
    ensures DistinctIds(Without(cache, id))
  {
    if cache != [] {
      var rest := Without(cache[1..], id);
      WithoutDistinct(cache[1..], id);
      WithoutMembers(cache[1..], id);
      forall j | 0 <= j < |rest| ensures cache[0].id != rest[j].id {
        assert rest[j] in cache[1..];
      }
    }
  }

  lemma {:induction false} WithoutShorter(cache: seq<Event>, i: nat)
    requires i < |cache|
    ensures |Without(cache, cache[i].id)| < |cache|
  {
    WithoutMembers(cache[1..], cache[i].id);
    if i > 0 {
      WithoutShorter(cache[1..], i - 1);
    }
  }

  lemma WithoutIs(cache: seq<Event>, id: EventId)
    ensures forall e :: e in Without(cache, id) <==> e in cache && e.id != id
    ensures DistinctIds(cache) ==> DistinctIds(Without(cache, id))
    ensures |Without(cache, id)| <= |cache|
    ensures DistinctIds(cache) && id in Ids(cache) ==> |Without(cache, id)| < |cache|
  {
    WithoutMembers(cache, id);
    if DistinctIds(cache) {
      WithoutDistinct(cache, id);
    }
    if id in Ids(cache) {
      var e :| e in cache && e.id == id;
      var i :| 0 <= i < |cache| && cache[i] == e;
      WithoutShorter(cache, i);
    }
  }

  lemma {:induction false} WithoutAppend(a: seq<Event>, b: seq<Event>, id: EventId)
    ensures Without(a + b, id) == Without(a, id) + Without(b, id)
  {
    if a == [] {
      assert a + b == b;
    } else {
      assert (a + b)[1..] == a[1..] + b;
      WithoutAppend(a[1..], b, id);
    }
  }

  lemma {:induction false} WithoutAbsent(cache: seq<Event>, id: EventId)
    requires id !in Ids(cache)
    ensures Without(cache, id) == cache
  {
    if cache != [] {
      assert cache[0].id in Ids(cache);
      assert Ids(cache[1..]) <= Ids(cache);
      WithoutAbsent(cache[1..], id);
    }
  }

  lemma PutIs(cache: seq<Event>, e: Event, capacity: nat)
    requires Bounded(cache, capacity)
    ensures Bounded(Put(cache, e, capacity), capacity)
    ensures forall x :: x in Put(cache, e, capacity) ==> x == e || (x in cache && x.id != e.id)
  {
    WithoutIs(cache, e.id);
    var grown := Without(cache, e.id) + [e];
    forall i, j | 0 <= i < j < |grown| ensures grown[i].id != grown[j].id {
      if j == |grown| - 1 {
        assert grown[i] in Without(cache, e.id);
      }
    }
  }

  lemma {:induction false} PutAllIs(cache: seq<Event>, events: seq<Event>, capacity: nat)
    requires Bounded(cache, capacity)
    ensures Bounded(PutAll(cache, events, capacity), capacity)
    ensures forall x :: x in PutAll(cache, events, capacity) ==> x in events || (x in cache && x.id !in Ids(events))
  {
    if events != [] {
      var init, last := events[..|events| - 1], events[|events| - 1];
      PutAllIs(cache, init, capacity);
      PutIs(PutAll(cache, init, capacity), last, capacity);
      assert events == init + [last];
      assert Ids(events) == Ids(init) + {last.id};
    }
  }

  lemma TouchIs(cache: seq<Event>, e: Event, capacity: nat)
    requires Bounded(cache, capacity) && e in cache
    ensures Bounded(Touch(cache, e), capacity)
    ensures forall x :: x in Touch(cache, e) <==> x in cache
    ensures Touch(cache, e)[|Touch(cache, e)| - 1] == e
  {
    WithoutIs(cache, e.id);
    assert e.id in Ids(cache);
    var grown := Touch(cache, e);
    forall i, j | 0 <= i < j < |grown| ensures grown[i].id != grown[j].id {
      if j == |grown| - 1 {
        assert grown[i] in Without(cache, e.id);
      }
    }
    LookupIs(cache, e.id);
  }

  /** `kept` ends with `events`, or is the last `capacity` of them when they do not all fit. */
  ghost predicate EndsWith(kept: seq<Event>, events: seq<Event>, capacity: nat) {
    if |events| <= capacity then |kept| >= |events| && kept[|kept| - |events|..] == events
    else kept == events[|events| - capacity..]
  }

  lemma PutExtendsEnd(prior: seq<Event>, events: seq<Event>, e: Event, capacity: nat)
    requires e.id !in Ids(events) && |events| <= capacity
    ensures EndsWith(Put(prior + events, e, capacity), events + [e], capacity)
  {
    WithoutAppend(prior, events, e.id);
    WithoutAbsent(events, e.id);
    var head := Without(prior, e.id);
    var grown := Without(prior + events, e.id) + [e];
    assert grown == head + (events + [e]);
    assert grown[|head|..] == events + [e];
  }

  lemma PutShiftsEnd(kept: seq<Event>, events: seq<Event>, e: Event, capacity: nat)
    requires e.id !in Ids(events) && |events| > capacity && kept == events[|events| - capacity..]
    ensures EndsWith(Put(kept, e, capacity), events + [e], capacity)
  {
    assert Ids(kept) <= Ids(events);
    WithoutAbsent(kept, e.id);
    assert kept + [e] == (events + [e])[|events| - capacity..];
  }

  /** Of the events one line yields, the young end of the cache keeps the last `capacity` of them. */
  lemma {:induction false} PutAllKeepsTheLast(cache: seq<Event>, events: seq<Event>, capacity: nat)
    requires DistinctIds(events)
    ensures EndsWith(PutAll(cache, events, capacity), events, capacity)
  {
    if events != [] {
      var init, last := events[..|events| - 1], events[|events| - 1];
      assert events == init + [last];
      forall e | e in init ensures e.id != last.id {}
      PutAllKeepsTheLast(cache, init, capacity);
      var before := PutAll(cache, init, capacity);
      if |init| <= capacity {
        assert before == before[..|before| - |init|] + init;
        PutExtendsEnd(before[..|before| - |init|], init, last, capacity);
      } else {
        PutShiftsEnd(before, init, last, capacity);
      }
    }
  }

  /** A body re-read from its line is still resident when looked up, exactly when fewer than
      `capacity` events follow it in that line. */
  lemma MissServedIff(cache: seq<Event>, events: seq<Event>, k: nat, capacity: nat)
    requires DistinctIds(events) && k < |events| && Bounded(cache, capacity)
    ensures Lookup(PutAll(cache, events, capacity), events[k].id) == Some(events[k]) <==> |events| - k <= capacity
    ensures |events| - k > capacity ==> Lookup(PutAll(cache, events, capacity), events[k].id).None?
  {
    var kept := PutAll(cache, events, capacity);
    PutAllKeepsTheLast(cache, events, capacity);
    PutAllIs(cache, events, capacity);
    LookupIs(kept, events[k].id);
    if |events| - k <= capacity {
      if |events| <= capacity {
        assert kept[|kept| - |events|..][k] == events[k];
      } else {
        assert kept[k - (|events| - capacity)] == events[k];
      }
    } else {
      forall i | 0 <= i < |kept| ensures kept[i].id != events[k].id {
        assert kept[i] == events[|events| - capacity + i];
      }
    }
  }

  lemma {:induction false} PutAllCons(cache: seq<Event>, events: seq<Event>, capacity: nat)
    requires events != []
    ensures PutAll(Put(cache, events[0], capacity), events[1..], capacity) == PutAll(cache, events, capacity)
  {
    if |events| > 1 {
      var init := events[..|events| - 1];
      PutAllCons(cache, init, capacity);
      assert events[1..][..|events| - 2] == init[1..];
    }
  }

  /** A body that was just used outlives any fewer than `capacity` others put after it. */
  lemma UsedBodySurvives(cache: seq<Event>, e: Event, events: seq<Event>, capacity: nat)
    requires Bounded(cache, capacity) && e in cache && |events| < capacity && DistinctIds([e] + events)
    ensures Lookup(PutAll(Touch(cache, e), events, capacity), e.id) == Some(e)
  {
    var all := [e] + events;
    WithoutIs(cache, e.id);
    assert e.id in Ids(cache);
    assert Put(cache, e, capacity) == Touch(cache, e);
    assert all[1..] == events;
    PutAllCons(cache, all, capacity);
    PutAllKeepsTheLast(cache, all, capacity);
    PutAllIs(cache, all, capacity);
    var kept := PutAll(cache, all, capacity);
    assert kept[|kept| - |all|..][0] == e;
    LookupIs(kept, e.id);
  }
}
