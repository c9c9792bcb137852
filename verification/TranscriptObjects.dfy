/**
 The transcript store as the frontend holds it: event objects shared by the held list and the id
 map, updated in place (Response.ts, lines 152 to 349 and 418 to 438).
 */
module TranscriptObjects {
  import opened Common
  import opened TranscriptStore

  class TranscriptEvent {
    const id: EventId
    const isAssistant: bool
    var calls: seq<ToolCall>

    constructor (id: EventId, isAssistant: bool, calls: seq<ToolCall>)
      ensures this.id == id && this.isAssistant == isAssistant && this.calls == calls
    {
      this.id, this.isAssistant, this.calls := id, isAssistant, calls;
    }

    function Content(): Content
      reads this
    {
      TranscriptStore.Content(isAssistant, calls)
    }

    function Incoming(): Incoming
      reads this
    {
      TranscriptStore.Incoming(id, Content())
    }
  }

  /** mergeLateSubagentMetadata: upgrades `prior` in place and says whether anything changed. */
  method MergeLateSubagentMetadata(prior: TranscriptEvent, incoming: TranscriptEvent) returns (changed: bool)
    modifies prior
    ensures prior.Content() == Merged(old(prior.Content()), old(incoming.Content()))
    ensures prior.isAssistant && incoming.isAssistant ==>
        AllAttached(old(prior.calls), old(incoming.calls), prior.calls)
    ensures !prior.isAssistant || !incoming.isAssistant ==> prior.calls == old(prior.calls)
    ensures changed <==> prior.calls != old(prior.calls)
  {
    if !prior.isAssistant || !incoming.isAssistant {
      return false;
    }
    var byId: map<string, ToolCall> := map[];
    var i := 0;
    while i < |incoming.calls|
      modifies {}
      invariant 0 <= i <= |incoming.calls| && byId == ByCallId(incoming.calls[..i])
    {
      assert incoming.calls[..i + 1][..i] == incoming.calls[..i];
      byId := byId[incoming.calls[i].callId := incoming.calls[i]];
      i := i + 1;
    }
    assert incoming.calls[..i] == incoming.calls;
    changed := false;
    i := 0;
    ghost var was := prior.calls;
    while i < |prior.calls|
      modifies prior
      invariant |prior.calls| == |was| && 0 <= i <= |was|
      invariant forall k :: 0 <= k < i ==> prior.calls[k] == MergedCall(was[k], byId)
      invariant forall k :: i <= k < |was| ==> prior.calls[k] == was[k]
      invariant changed <==> exists k :: 0 <= k < i && prior.calls[k] != was[k]
    {
      var call := prior.calls[i];
      if call.metadata.None? && call.callId in byId && byId[call.callId].metadata.Some? {
        prior.calls := prior.calls[i := call.(metadata := byId[call.callId].metadata)];
        changed := true;
        assert prior.calls[i] != was[i];
      }
      i := i + 1;
    }
    assert prior.calls == Merged(TranscriptStore.Content(true, was),
        TranscriptStore.Content(true, old(incoming.calls))).calls;
    MergeAttaches(TranscriptStore.Content(true, was), TranscriptStore.Content(true, old(incoming.calls)));
  }

  function Incomings(events: seq<TranscriptEvent>): (r: seq<Incoming>)
    reads events
    ensures |r| == |events|
  {
    seq(|events|, i requires 0 <= i < |events| reads events => events[i].Incoming())
  }

  /** `new Map(events.map(e => [e.event_id, e]))` */
  function ById(events: seq<TranscriptEvent>): map<EventId, TranscriptEvent> {
    if events == [] then map[] else ById(events[..|events| - 1])[events[|events| - 1].id := events[|events| - 1]]
  }

  /** The id map names exactly the listed objects; `ids` and `content` tell what these are and hold. */
  ghost predicate Indexed(events: seq<TranscriptEvent>, byId: map<EventId, TranscriptEvent>, ids: seq<EventId>,
                          content: map<EventId, Content>)
    reads events
  {
    && |ids| == |events| && Distinct(ids)
    && (forall i :: 0 <= i < |events| ==> ids[i] == events[i].id)
    && (forall i :: 0 <= i < |events| ==> events[i].id in byId && byId[events[i].id] == events[i])
    && (forall id :: id in byId ==> byId[id] in events && byId[id].id == id)
    && (forall id :: id in byId <==> id in content)
    && (forall id :: id in byId ==> byId[id].Content() == content[id])
  }

  lemma IndexedSnoc(init: seq<TranscriptEvent>, byId: map<EventId, TranscriptEvent>, ids: seq<EventId>,
                    content: map<EventId, Content>, last: TranscriptEvent)
    requires Indexed(init, byId, ids, content) && last.id !in byId
    ensures Indexed(init + [last], byId[last.id := last], ids + [last.id], content[last.id := last.Content()])
  {}

  lemma {:induction false} PageIsIndexed(events: seq<TranscriptEvent>)
    requires DistinctPage(Incomings(events))
    ensures Indexed(events, ById(events), IdsOf(Incomings(events)), ContentOf(Incomings(events)))
  {
    if events != [] {
      var init, last := events[..|events| - 1], events[|events| - 1];
      PageWithoutLast(events);
      PageIsIndexed(init);
      IndexedSnoc(init, ById(init), IdsOf(Incomings(init)), ContentOf(Incomings(init)), last);
      assert init + [last] == events;
    }
  }

  lemma PageWithoutLast(events: seq<TranscriptEvent>)
    requires DistinctPage(Incomings(events)) && events != []
    ensures var init, last := events[..|events| - 1], events[|events| - 1];
      && DistinctPage(Incomings(init))
      && IdsOf(Incomings(events)) == IdsOf(Incomings(init)) + [last.id]
      && ContentOf(Incomings(events)) == ContentOf(Incomings(init))[last.id := last.Content()]
      && last.id !in ById(init)
  {
    var init, last := events[..|events| - 1], events[|events| - 1];
    assert Incomings(events)[..|events| - 1] == Incomings(init);
    ByIdNames(init);
    forall e | e in init ensures e.id != last.id {
      var i :| 0 <= i < |init| && init[i] == e;
      assert Incomings(events)[i].id != Incomings(events)[|init|].id;
    }
  }

  lemma {:induction false} ByIdNames(events: seq<TranscriptEvent>)
    ensures forall id :: id in ById(events) ==> ById(events)[id] in events && ById(events)[id].id == id
  {
    if events != [] {
      ByIdNames(events[..|events| - 1]);
      assert events == events[..|events| - 1] + [events[|events| - 1]];
    }
  }

  lemma DisjointMerge<K, V>(a: map<K, V>, b: map<K, V>)
    requires forall k :: k in a ==> k !in b
    ensures a + b == b + a
  {}

  /** Two indexed lists without a common id, one after the other. */
  lemma IndexedAppend(a: seq<TranscriptEvent>, ma: map<EventId, TranscriptEvent>, ia: seq<EventId>, ca: map<EventId,
                      Content>,
                      b: seq<TranscriptEvent>, mb: map<EventId, TranscriptEvent>, ib: seq<EventId>, cb: map<EventId,
                          Content>)
    requires Indexed(a, ma, ia, ca) && Indexed(b, mb, ib, cb)
    requires forall id :: id in ma ==> id !in mb
    ensures Indexed(a + b, ma + mb, ia + ib, ca + cb)
  {
    IndexedIdsDisjoint(a, ma, ia, ca, b, mb, ib, cb);
    DistinctAppend(ia, ib);
    forall i | 0 <= i < |a + b|
        ensures (ia + ib)[i] == (a + b)[i].id && (a + b)[i].id in ma + mb && (ma + mb)[(a + b)[i].id] == (a + b)[i] {
      if i < |a| {
        assert a[i].id in ma && a[i].id !in mb;
      } else {
        assert b[i - |a|].id in mb;
      }
    }
    forall id | id in ma + mb ensures (ma + mb)[id] in a + b {}
  }

  lemma IndexedIdsDisjoint(a: seq<TranscriptEvent>, ma: map<EventId, TranscriptEvent>, ia: seq<EventId>,
                           ca: map<EventId, Content>,
                           b: seq<TranscriptEvent>, mb: map<EventId, TranscriptEvent>, ib: seq<EventId>,
                               cb: map<EventId, Content>)
    requires Indexed(a, ma, ia, ca) && Indexed(b, mb, ib, cb)
    requires forall id :: id in ma ==> id !in mb
    ensures forall id :: id in ia ==> id !in ib
  {
    forall i | 0 <= i < |ia| ensures ia[i] !in ib {
      assert a[i].id in ma && a[i].id !in mb;
    }
  }

  lemma IndexedDrop(events: seq<TranscriptEvent>, byId: map<EventId, TranscriptEvent>, ids: seq<EventId>,
                    content: map<EventId, Content>, n: nat)
    requires Indexed(events, byId, ids, content) && n <= |events|
    ensures var gone := FirstIds(ids, n);
      Indexed(events[n..], byId - gone, ids[n..], content - gone)
  {
    var gone := FirstIds(ids, n);
    forall i | n <= i < |events| ensures events[i].id !in gone {}
    forall i | 0 <= i < n ensures ids[i] in gone {
      assert ids[..n][i] == ids[i];
    }
    forall id | id in byId && id !in gone ensures byId[id] in events[n..] {
      var i :| 0 <= i < |events| && events[i] == byId[id];
      assert events[n..][i - n] == byId[id];
    }
  }

  class Store {
    var events: seq<TranscriptEvent>
    var byId: map<EventId, TranscriptEvent>
    var firstOffset: nat
    var storedTotal: nat
    var renderVersion: nat
    /** What the shared event objects hold, and their ids in order: tied to the real fields by Valid. */
    ghost var content: map<EventId, Content>
    ghost var ids: seq<EventId>

    constructor ()
      ensures Valid() && View() == StoreView([], map[], 0, 0, 0)
    {
      events, byId, firstOffset, storedTotal, renderVersion := [], map[], 0, 0, 0;
      content, ids := map[], [];
    }

    /** The id map names exactly the held objects. */
    ghost predicate Valid()
      reads this, events
    {
      Indexed(events, byId, ids, content)
    }

    ghost function View(): StoreView
      reads this
    {
      StoreView(ids, content, firstOffset, storedTotal, renderVersion)
    }

    lemma ValidIsExact()
      requires Valid()
      ensures Exact(View())
    {
      forall id | id in byId ensures id in ids {
        var i :| 0 <= i < |events| && events[i] == byId[id];
        assert ids[i] == id;
      }
    }

    function Total(): nat
      reads this
    {
      if storedTotal < firstOffset + |events| then firstOffset + |events| else storedTotal
    }

    /** Distinct objects, none of them held. */
    ghost predicate Fresh(newEvents: seq<TranscriptEvent>)
      reads this
    {
      && (forall i, j :: 0 <= i < j < |newEvents| ==> newEvents[i] != newEvents[j])
      && (forall e :: e in newEvents ==> e !in events)
    }

    method Push(event: TranscriptEvent)
      requires Valid() && event.id !in byId
      modifies this`events, this`byId, this`content, this`ids
      ensures Valid()
      ensures events == old(events) + [event]
      ensures View() == old(View()).(ids := old(ids) + [event.id], content := old(content)[event.id := event.Content()])
    {
      IndexedSnoc(events, byId, ids, content, event);
      content, ids := content[event.id := event.Content()], ids + [event.id];
      events, byId := events + [event], byId[event.id := event];
    }

    /** Events `i` onward are distinct objects, not yet held, and still as they were read. */
    ghost predicate Pending(newEvents: seq<TranscriptEvent>, i: nat, batch: seq<Incoming>)
      reads this`events, newEvents
    {
      && |batch| == |newEvents|
      && (forall j, k :: i <= j < k < |newEvents| ==> newEvents[j] != newEvents[k])
      && (forall k :: i <= k < |newEvents| ==> newEvents[k] !in events)
      && (forall k :: i <= k < |newEvents| ==> newEvents[k].Incoming() == batch[k])
    }

    /** One turn of the loop of append. */
    method AppendTurn(newEvents: seq<TranscriptEvent>, i: nat, ghost batch: seq<Incoming>, tailAnchored: bool)
      returns (added: bool, merged: bool)
      requires Valid() && i < |newEvents| && Pending(newEvents, i, batch)
      modifies this`events, this`byId, this`content, this`ids, events
      ensures Valid() && Pending(newEvents, i + 1, batch)
      ensures IsTurn(Turn(old(View()), false, false), batch[i], tailAnchored, Turn(View(), added, merged))
      ensures forall e :: e in events ==> e in old(events) || e == newEvents[i]
    {
      added, merged := AppendOneEvent(newEvents[i], tailAnchored);
    }

    method AppendOneEvent(event: TranscriptEvent, tailAnchored: bool) returns (added: bool, merged: bool)
      requires Valid() && event !in events
      modifies this`events, this`byId, this`content, this`ids, events
      ensures Valid()
      ensures View() == AppendOne(old(View()), old(event.Incoming()), tailAnchored)
      ensures forall e :: e in events ==> e in old(events) || e == event
      ensures added <==> |View().ids| > |old(View()).ids|
      ensures merged <==> View().ids == old(View()).ids && View() != old(View())
    {
      added, merged := false, false;
      if event.id !in byId {
        if tailAnchored {
          Push(event);
          added := true;
        }
      } else {
        var prior := byId[event.id];
        merged := MergeLateSubagentMetadata(prior, event);
        content := content[event.id := prior.Content()];
        if merged {
          assert content[event.id] != old(content)[event.id];
        } else {
          assert content == old(content);
        }
      }
    }

    /** append: events freshly read off the wire, so distinct objects not yet held. */
    method Append(newEvents: seq<TranscriptEvent>) returns (changed: bool)
      requires Valid() && Fresh(newEvents)
      modifies this, events, newEvents
      ensures Valid()
      ensures View() == TranscriptStore.Append(old(View()), old(Incomings(newEvents)))
      ensures changed <==> View() != old(View())
    {
      ghost var start, batch := View(), Incomings(newEvents);
      ghost var goal := TranscriptStore.Append(start, batch);
      var added, merged, turns := AppendLoop(newEvents, !(firstOffset + |events| < Total()));
      AppendIs(start, batch, turns);
      assert goal == StoreView(ids, content, firstOffset, if added then firstOffset + |ids| else storedTotal,
                               renderVersion + if added || merged then 1 else 0);
      changed := added || merged;
      Commit(added, changed);
    }

    /** The tail of append: the total after an addition, and #commit. */
    method Commit(added: bool, changed: bool)
      modifies this`storedTotal, this`renderVersion
      ensures storedTotal == if added then firstOffset + |events| else old(storedTotal)
      ensures renderVersion == old(renderVersion) + if changed then 1 else 0
    {
      if added {
        storedTotal := firstOffset + |events|;
      }
      if changed {
        renderVersion := renderVersion + 1;
      }
    }

    method AppendLoop(newEvents: seq<TranscriptEvent>, tailAnchored: bool)
      returns (added: bool, merged: bool, ghost turns: seq<Turn>)
      requires Valid() && Fresh(newEvents)
      modifies this`events, this`byId, this`content, this`ids, events, newEvents
      ensures Valid()
      ensures Turns(turns, old(Incomings(newEvents)), tailAnchored)
      ensures turns[0] == Turn(old(View()), false, false) && turns[|newEvents|] == Turn(View(), added, merged)
    {
      ghost var batch, first := Incomings(newEvents), Turn(View(), false, false);
      added, merged := false, false;
      turns := [first];
      var i := 0;
      while i < |newEvents|
        invariant 0 <= i <= |newEvents| && Valid() && Pending(newEvents, i, batch)
        invariant forall e :: e in events ==> e in old(events) || e in newEvents
        invariant TurnsSoFar(turns, batch, tailAnchored, i) && turns[0] == first
            && turns[i] == Turn(View(), added, merged)
      {
        ghost var was := Turn(View(), added, merged);
        var a, m := AppendTurn(newEvents, i, batch, tailAnchored);
        added, merged := added || a, merged || m;
        ghost var turn := Turn(View(), added, merged);
        FlagsGather(was, batch[i], tailAnchored, turn.view, a, m);
        TurnsSnoc(turns, batch, tailAnchored, i, turn);
        turns := turns + [turn];
        i := i + 1;
      }
    }

    /** `filter((e) => !this.#byId.has(e.event_id))` */
    method NotYetHeld(page: seq<TranscriptEvent>) returns (deduped: seq<TranscriptEvent>, ghost added: seq<Incoming>)
      requires Valid() && DistinctPage(Incomings(page))
      ensures added == NotHeld(Incomings(page), content.Keys) && added == Incomings(deduped)
      ensures DistinctPage(added) && forall e :: e in deduped ==> e.id !in byId
    {
      ghost var batch, held := Incomings(page), content.Keys;
      ghost var goal, rest := NotHeld(batch, held), NotHeld(batch, held);
      deduped, added := [], [];
      var i := 0;
      assert batch[0..] == batch;
      while i < |page|
        invariant 0 <= i <= |page|
        invariant added + rest == goal && rest == NotHeld(batch[i..], held)
        invariant |added| == |deduped| && forall k :: 0 <= k < |added| ==> added[k] == deduped[k].Incoming()
        invariant forall e :: e in deduped ==> e.id !in byId
      {
        NotHeldFront(batch, held, i);
        rest := NotHeld(batch[i + 1..], held);
        ConcatAssoc(added, if batch[i].id in held then [] else [batch[i]], rest);
        ConcatNothing(added);
        if page[i].id !in byId {
          deduped, added := deduped + [page[i]], added + [batch[i]];
        }
        i := i + 1;
      }
      NotHeldIs(batch, held);
    }

    /** The tail of a mutator that replaces the held list: the fields, and #commit. */
    method Install(events': seq<TranscriptEvent>, byId': map<EventId, TranscriptEvent>, ghost ids': seq<EventId>,
                   ghost content': map<EventId, Content>,
                   first: nat, total: nat)
      requires Indexed(events', byId', ids', content')
      modifies this
      ensures Valid() && View() == StoreView(ids', content', first, total, old(renderVersion) + 1)
    {
      events, byId, ids, content := events', byId', ids', content';
      firstOffset, storedTotal := first, total;
      renderVersion := renderVersion + 1;
    }

    /** Adds a page of events not held yet at one end of the list. */
    method HoldPage(deduped: seq<TranscriptEvent>, ghost page: seq<Incoming>, front: bool, first: nat, total: nat)
      requires Valid() && page == Incomings(deduped) && DistinctPage(page) && forall e :: e in deduped ==> e.id !in byId
      modifies this
      ensures Valid()
      ensures View() == StoreView(if front then IdsOf(page) + old(ids)
          else old(ids) + IdsOf(page), old(content) + ContentOf(page),
                                  first, total, old(renderVersion) + 1)
    {
      PageIsIndexed(deduped);
      ByIdNames(deduped);
      var all := ById(deduped);
      if front {
        HoldInFront(deduped, all, page, first, total);
      } else {
        HoldBehind(deduped, all, page, first, total);
      }
    }

    method HoldInFront(deduped: seq<TranscriptEvent>, all: map<EventId, TranscriptEvent>, ghost page: seq<Incoming>,
                       first: nat, total: nat)
      requires Valid() && Indexed(deduped, all, IdsOf(page), ContentOf(page)) && forall id :: id in all ==> id !in byId
      modifies this
      ensures Valid() && View() == StoreView(IdsOf(page) + old(ids), old(content) + ContentOf(page), first, total,
          old(renderVersion) + 1)
    {
      IndexedAppend(deduped, all, IdsOf(page), ContentOf(page), events, byId, ids, content);
      DisjointMerge(byId, all);
      DisjointMerge(content, ContentOf(page));
      Install(deduped + events, byId + all, IdsOf(page) + ids, content + ContentOf(page), first, total);
    }

    method HoldBehind(deduped: seq<TranscriptEvent>, all: map<EventId, TranscriptEvent>, ghost page: seq<Incoming>,
                      first: nat, total: nat)
      requires Valid() && Indexed(deduped, all, IdsOf(page), ContentOf(page)) && forall id :: id in all ==> id !in byId
      modifies this
      ensures Valid() && View() == StoreView(old(ids) + IdsOf(page), old(content) + ContentOf(page), first, total,
          old(renderVersion) + 1)
    {
      IndexedAppend(events, byId, ids, content, deduped, all, IdsOf(page), ContentOf(page));
      Install(events + deduped, byId + all, ids + IdsOf(page), content + ContentOf(page), first, total);
    }

    method Prepend(olderEvents: seq<TranscriptEvent>, offset: Option<nat>, total: Option<nat>) returns (changed: bool)
      requires Valid() && DistinctPage(Incomings(olderEvents))
      modifies this
      ensures Valid()
      ensures View() == TranscriptStore.Prepend(old(View()), old(Incomings(olderEvents)), offset, total)
      ensures changed <==> renderVersion != old(renderVersion)
    {
      ghost var goal := TranscriptStore.Prepend(View(), Incomings(olderEvents), offset, total);
      var deduped, added := NotYetHeld(olderEvents);
      if |deduped| == 0 {
        return false;
      }
      var first := if offset.Some? then offset.value else Max(0, firstOffset - |deduped|);
      var newTotal := if total.Some? then total.value else storedTotal;
      assert goal == StoreView(IdsOf(added) + ids, content + ContentOf(added), first, newTotal, renderVersion + 1);
      HoldPage(deduped, added, true, first, newTotal);
      changed := true;
    }

    method AppendForward(newerEvents: seq<TranscriptEvent>, total: Option<nat>) returns (changed: bool)
      requires Valid() && DistinctPage(Incomings(newerEvents))
      modifies this
      ensures Valid()
      ensures View() == TranscriptStore.AppendForward(old(View()), old(Incomings(newerEvents)), total)
      ensures changed <==> renderVersion != old(renderVersion)
    {
      ghost var goal := TranscriptStore.AppendForward(View(), Incomings(newerEvents), total);
      var deduped, added := NotYetHeld(newerEvents);
      if |deduped| == 0 {
        return false;
      }
      var newTotal := if total.Some? then total.value else storedTotal;
      assert goal == StoreView(ids + IdsOf(added), content + ContentOf(added), firstOffset, newTotal,
          renderVersion + 1);
      HoldPage(deduped, added, false, firstOffset, newTotal);
      changed := true;
    }

    method Evict() returns (removeCount: nat)
      requires Valid()
      modifies this
      ensures Valid()
      ensures View() == TranscriptStore.Evict(old(View()))
      ensures removeCount == |old(ids)| - |ids|
    {
      ghost var goal := TranscriptStore.Evict(View());
      removeCount := 0;
      if |events| <= MAX_HELD_EVENTS {
        return;
      }
      removeCount := |events| - EVICT_TARGET_EVENTS;
      assert goal == StoreView(ids[removeCount..], content - FirstIds(ids, removeCount), firstOffset + removeCount,
          storedTotal, renderVersion + 1);
      DropFirst(removeCount);
    }

    method DropFirst(n: nat)
      requires Valid() && n <= |events|
      modifies this
      ensures Valid()
      ensures View() == StoreView(old(ids)[n..], old(content) - FirstIds(old(ids), n), old(firstOffset) + n,
          old(storedTotal), old(renderVersion) + 1)
    {
      var left := Without(n);
      IndexedDrop(events, byId, ids, content, n);
      Install(events[n..], left, ids[n..], content - FirstIds(ids, n), firstOffset + n, storedTotal);
    }

    /** The loop of evict: the id map without the removed events. */
    method Without(n: nat) returns (left: map<EventId, TranscriptEvent>)
      requires Valid() && n <= |events|
      ensures left == byId - FirstIds(ids, n)
    {
      left := byId;
      var i := 0;
      while i < n
        invariant 0 <= i <= n && left == byId - FirstIds(ids, i)
      {
        assert ids[..i + 1] == ids[..i] + [events[i].id];
        assert FirstIds(ids, i + 1) == FirstIds(ids, i) + {events[i].id};
        left := left - {events[i].id};
        i := i + 1;
      }
    }

    method Reset(page: seq<TranscriptEvent>, offset: nat, total: nat)
      requires DistinctPage(Incomings(page))
      modifies this
      ensures Valid()
      ensures View() == TranscriptStore.Reset(old(View()), old(Incomings(page)), offset, total)
    {
      PageIsIndexed(page);
      Install(page, ById(page), IdsOf(Incomings(page)), ContentOf(Incomings(page)), offset, total);
    }

    method MarkReachedStart(total: Option<nat>)
      requires Valid()
      modifies this`firstOffset, this`storedTotal, this`renderVersion
      ensures Valid()
      ensures View() == TranscriptStore.MarkReachedStart(old(View()), total)
    {
      firstOffset := 0;
      if total.Some? {
        storedTotal := total.value;
      }
      renderVersion := renderVersion + 1;
    }

    method ReconcileTotalAtTail(total: nat)
      requires Valid()
      modifies this`storedTotal, this`renderVersion
      ensures Valid()
      ensures View() == TranscriptStore.ReconcileTotalAtTail(old(View()), total)
    {
      storedTotal := total;
      renderVersion := renderVersion + 1;
    }
  }
}
