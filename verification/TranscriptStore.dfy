/**
 The client's sliding window over the transcript
 (apps/system_interface/frontend/src/models/Response.ts, lines 123 to 438).

 `StoreView` is the store as a value; the functions on it say what each mutator does, and the class
 `TranscriptObjects.Store` carries them out on event objects shared by the list and the id map.
 */
module TranscriptStore {
  import opened Common

  type EventId = string

  datatype Metadata = Metadata(agentType: string, description: string, sessionId: string)

  datatype ToolCall = ToolCall(callId: string, metadata: Option<Metadata>)

  /** The part of an event that renders and can still change. */
  datatype Content = Content(isAssistant: bool, calls: seq<ToolCall>)

  datatype Incoming = Incoming(id: EventId, content: Content)

  datatype StoreView = StoreView(ids: seq<EventId>, content: map<EventId, Content>, firstOffset: nat, total: nat,
                                 version: nat)

  const MAX_HELD_EVENTS := 1500
  const EVICT_TARGET_EVENTS := 1000

  // ---------------------------------------------------------------- late metadata

  /** The last incoming call under each id: `incomingByCallId`. */
  function ByCallId(calls: seq<ToolCall>): map<string, ToolCall> {
    if calls == [] then map[]
    else ByCallId(calls[..|calls| - 1])[calls[|calls| - 1].callId := calls[|calls| - 1]]
  }

  function MergedCall(call: ToolCall, incoming: map<string, ToolCall>): ToolCall {
    if call.metadata.None? && call.callId in incoming then call.(metadata := incoming[call.callId].metadata) else call
  }

  /** mergeLateSubagentMetadata */
  function Merged(prior: Content, incoming: Content): Content {
    if !prior.isAssistant || !incoming.isAssistant then prior
    else
      var byId := ByCallId(incoming.calls);
      prior.(calls := seq(|prior.calls|, i requires 0 <= i < |prior.calls| => MergedCall(prior.calls[i], byId)))
  }

  /** Attached metadata is never lost or replaced, and nothing else about the event changes. */
  ghost predicate Upgraded(was: Content, now: Content) {
    && now.isAssistant == was.isAssistant
    && |now.calls| == |was.calls|
    && forall i :: 0 <= i < |was.calls| ==>
         && now.calls[i].callId == was.calls[i].callId
         && (was.calls[i].metadata.Some? ==> now.calls[i] == was.calls[i])
  }

  lemma MergeUpgrades(prior: Content, incoming: Content)
    ensures Upgraded(prior, Merged(prior, incoming))
  {}

  lemma UpgradedIsTransitive(a: Content, b: Content, c: Content)
    requires Upgraded(a, b) && Upgraded(b, c)
    ensures Upgraded(a, c)
    ensures b != a ==> c != a
  {
    if c == a {
      assert forall i :: 0 <= i < |a.calls| ==> b.calls[i] == a.calls[i];
      assert b.calls == a.calls;
    }
  }

  lemma {:induction false} ByCallIdHolds(calls: seq<ToolCall>)
    ensures forall c :: c in calls ==> c.callId in ByCallId(calls)
    ensures forall id :: id in ByCallId(calls) ==> ByCallId(calls)[id] in calls && ByCallId(calls)[id].callId == id
  {
    if calls != [] {
      ByCallIdHolds(calls[..|calls| - 1]);
      assert calls == calls[..|calls| - 1] + [calls[|calls| - 1]];
    }
  }

  /** Call `k` is the last one under its id. */
  ghost predicate IsLast(calls: seq<ToolCall>, k: int, callId: string) {
    0 <= k < |calls| && calls[k].callId == callId && forall j :: k < j < |calls| ==> calls[j].callId != callId
  }

  /** The call keeps the metadata it had; without any, it gets what the last incoming call under its id
      carries, be it nothing. */
  ghost predicate Attached(was: ToolCall, incoming: seq<ToolCall>, now: ToolCall) {
    && now.callId == was.callId
    && (was.metadata.Some? ==> now.metadata == was.metadata)
    && (was.metadata.None? ==>
          && (forall k :: IsLast(incoming, k, was.callId) ==> now.metadata == incoming[k].metadata)
          && ((forall k :: 0 <= k < |incoming| ==> incoming[k].callId != was.callId) ==> now.metadata.None?))
  }

  lemma {:induction false} ByCallIdIsLast(calls: seq<ToolCall>, k: int, callId: string)
    requires IsLast(calls, k, callId)
    ensures callId in ByCallId(calls) && ByCallId(calls)[callId] == calls[k]
  {
    if k < |calls| - 1 {
      ByCallIdIsLast(calls[..|calls| - 1], k, callId);
    }
  }

  lemma MergedCallAttaches(call: ToolCall, incoming: seq<ToolCall>)
    ensures Attached(call, incoming, MergedCall(call, ByCallId(incoming)))
  {
    ByCallIdHolds(incoming);
    forall k | IsLast(incoming, k, call.callId)
        ensures call.callId in ByCallId(incoming) && ByCallId(incoming)[call.callId] == incoming[k] {
      ByCallIdIsLast(incoming, k, call.callId);
    }
  }

  /** Exactly what a merge of two assistant messages attaches, call by call. */
  ghost predicate AllAttached(was: seq<ToolCall>, incoming: seq<ToolCall>, now: seq<ToolCall>) {
    |now| == |was| && forall i :: 0 <= i < |was| ==> Attached(was[i], incoming, now[i])
  }

  /** A re-broadcast attaches exactly the metadata it carries, to the calls that have none. */
  lemma MergeAttaches(prior: Content, incoming: Content)
    ensures var now := Merged(prior, incoming);
      && now.isAssistant == prior.isAssistant
      && (prior.isAssistant && incoming.isAssistant ==> AllAttached(prior.calls, incoming.calls, now.calls))
      && (!prior.isAssistant || !incoming.isAssistant ==> now == prior)
  {
    if prior.isAssistant && incoming.isAssistant {
      forall i | 0 <= i < |prior.calls|
        ensures Attached(prior.calls[i], incoming.calls, Merged(prior, incoming).calls[i])
      {
        MergedCallAttaches(prior.calls[i], incoming.calls);
      }
    }
  }

  // ---------------------------------------------------------------- the mutators, on values

  function End(v: StoreView): nat {
    v.firstOffset + |v.ids|
  }

  /** The `total` getter: never less than the window's end. */
  function Total(v: StoreView): nat {
    if v.total < End(v) then End(v) else v.total
  }

  predicate HasMoreBefore(v: StoreView) {
    v.firstOffset > 0
  }

  predicate HasMoreAfter(v: StoreView) {
    End(v) < Total(v)
  }

  function AppendOne(v: StoreView, e: Incoming, anchored: bool): StoreView {
    if e.id in v.content then v.(content := v.content[e.id := Merged(v.content[e.id], e.content)])
    else if anchored then v.(ids := v.ids + [e.id], content := v.content[e.id := e.content])
    else v
  }

  function AppendAll(v: StoreView, batch: seq<Incoming>, anchored: bool): StoreView
    decreases |batch|
  {
    if batch == [] then v else AppendAll(AppendOne(v, batch[0], anchored), batch[1..], anchored)
  }

  /** append: the version moves exactly when something that renders did. */
  function Append(v: StoreView, batch: seq<Incoming>): StoreView {
    var r := AppendAll(v, batch, !HasMoreAfter(v));
    StoreView(r.ids, r.content, r.firstOffset, if |r.ids| > |v.ids| then End(r) else r.total,
              r.version + if r.ids != v.ids || r.content != v.content then 1 else 0)
  }

  function NotHeld(page: seq<Incoming>, held: set<EventId>): seq<Incoming> {
    if page == [] then [] else (if page[0].id in held then [] else [page[0]]) + NotHeld(page[1..], held)
  }

  function IdsOf(page: seq<Incoming>): seq<EventId> {
    seq(|page|, i requires 0 <= i < |page| => page[i].id)
  }

  function ContentOf(page: seq<Incoming>): map<EventId, Content> {
    if page == [] then map[] else ContentOf(page[..|page| - 1])[page[|page| - 1].id := page[|page| - 1].content]
  }

  /** prepend */
  function Prepend(v: StoreView, page: seq<Incoming>, offset: Option<nat>, total: Option<nat>): StoreView {
    var added := NotHeld(page, v.content.Keys);
    if added == [] then v
    else StoreView(IdsOf(added) + v.ids, v.content + ContentOf(added),
                   if offset.Some? then offset.value else Max(0, v.firstOffset - |added|),
                   if total.Some? then total.value else v.total, v.version + 1)
  }

  /** appendForward */
  function AppendForward(v: StoreView, page: seq<Incoming>, total: Option<nat>): StoreView {
    var added := NotHeld(page, v.content.Keys);
    if added == [] then v
    else StoreView(v.ids + IdsOf(added), v.content + ContentOf(added), v.firstOffset,
                   if total.Some? then total.value else v.total, v.version + 1)
  }

  function FirstIds(ids: seq<EventId>, n: nat): set<EventId>
    requires n <= |ids|
  {
    set id | id in ids[..n]
  }

  /** evict */
  function Evict(v: StoreView): StoreView {
    if |v.ids| <= MAX_HELD_EVENTS then v
    else
      var n := |v.ids| - EVICT_TARGET_EVENTS;
      StoreView(v.ids[n..], v.content - FirstIds(v.ids, n), v.firstOffset + n, v.total, v.version + 1)
  }

  /** reset */
  function Reset(v: StoreView, page: seq<Incoming>, offset: nat, total: nat): StoreView {
    StoreView(IdsOf(page), ContentOf(page), offset, total, v.version + 1)
  }

  /** markReachedStart */
  function MarkReachedStart(v: StoreView, total: Option<nat>): StoreView {
    v.(firstOffset := 0, total := if total.Some? then total.value else v.total, version := v.version + 1)
  }

  /** reconcileTotalAtTail */
  function ReconcileTotalAtTail(v: StoreView, total: nat): StoreView {
    v.(total := total, version := v.version + 1)
  }

  // ---------------------------------------------------------------- the id map is exactly the index

  ghost predicate Exact(v: StoreView) {
    && Distinct(v.ids)
    && forall id :: id in v.content <==> id in v.ids
  }

  ghost predicate DistinctPage(page: seq<Incoming>) {
    forall i, j :: 0 <= i < j < |page| ==> page[i].id != page[j].id
  }

  lemma {:induction false} ContentOfHolds(page: seq<Incoming>)
    ensures forall id :: id in ContentOf(page) <==> id in IdsOf(page)
    ensures DistinctPage(page) ==> forall i :: 0 <= i < |page| ==> HoldsContent(ContentOf(page), page[i])
  {
    if page != [] {
      var init, last := page[..|page| - 1], page[|page| - 1];
      ContentOfHolds(init);
      assert IdsOf(page) == IdsOf(init) + [last.id];
      if DistinctPage(page) {
        forall i | 0 <= i < |page| ensures HoldsContent(ContentOf(page), page[i]) {
          if i < |init| {
            assert HoldsContent(ContentOf(init), init[i]);
          }
        }
      }
    }
  }

  ghost predicate HoldsContent(content: map<EventId, Content>, e: Incoming) {
    e.id in content && content[e.id] == e.content
  }

  lemma {:induction false} NotHeldIs(page: seq<Incoming>, held: set<EventId>)
    ensures forall e :: e in NotHeld(page, held) <==> e in page && e.id !in held
    ensures DistinctPage(page) ==> DistinctPage(NotHeld(page, held))
  {
    if page != [] {
      var rest := NotHeld(page[1..], held);
      NotHeldIs(page[1..], held);
      assert page == [page[0]] + page[1..];
      if DistinctPage(page) {
        forall j | 0 <= j < |rest| ensures rest[j].id != page[0].id {
          assert rest[j] in page[1..];
        }
      }
    }
  }

  lemma AddedIsNew(v: StoreView, page: seq<Incoming>)
    requires Exact(v) && DistinctPage(page)
    ensures var ids := IdsOf(NotHeld(page, v.content.Keys));
      Distinct(ids) && (forall id :: id in ids ==> id !in v.ids) && |ids| == |NotHeld(page, v.content.Keys)|
  {
    var added := NotHeld(page, v.content.Keys);
    NotHeldIs(page, v.content.Keys);
    forall i | 0 <= i < |added| ensures added[i].id !in v.ids {
      assert added[i] in added;
    }
  }

  lemma PrependIsExact(v: StoreView, page: seq<Incoming>, offset: Option<nat>, total: Option<nat>)
    requires Exact(v) && DistinctPage(page)
    ensures Exact(Prepend(v, page, offset, total))
  {
    AddedIsNew(v, page);
    DistinctAppend(IdsOf(NotHeld(page, v.content.Keys)), v.ids);
    ContentOfHolds(NotHeld(page, v.content.Keys));
  }

  lemma AppendForwardIsExact(v: StoreView, page: seq<Incoming>, total: Option<nat>)
    requires Exact(v) && DistinctPage(page)
    ensures Exact(AppendForward(v, page, total))
  {
    AddedIsNew(v, page);
    DistinctAppend(v.ids, IdsOf(NotHeld(page, v.content.Keys)));
    ContentOfHolds(NotHeld(page, v.content.Keys));
  }

  lemma EvictIsExact(v: StoreView)
    requires Exact(v)
    ensures Exact(Evict(v))
  {
    if |v.ids| > MAX_HELD_EVENTS {
      var n := |v.ids| - EVICT_TARGET_EVENTS;
      assert v.ids == v.ids[..n] + v.ids[n..];
      forall id | id in v.ids ensures id in v.ids[n..] <==> id !in v.ids[..n] {
        var k :| 0 <= k < |v.ids| && v.ids[k] == id;
        assert k < n ==> v.ids[..n][k] == id;
        assert k >= n ==> v.ids[n..][k - n] == id;
      }
    }
  }

  lemma ResetIsExact(v: StoreView, page: seq<Incoming>, offset: nat, total: nat)
    requires DistinctPage(page)
    ensures Exact(Reset(v, page, offset, total))
  {
    ContentOfHolds(page);
  }

  lemma {:induction false} AppendAllIsExact(v: StoreView, batch: seq<Incoming>, anchored: bool)
    requires Exact(v)
    ensures Exact(AppendAll(v, batch, anchored))
    decreases |batch|
  {
    if batch != [] {
      AppendAllIsExact(AppendOne(v, batch[0], anchored), batch[1..], anchored);
    }
  }

  // ---------------------------------------------------------------- metadata is never lost

  /** Whatever is still held keeps its metadata. */
  ghost predicate KeepsMetadata(v: StoreView, v': StoreView) {
    forall id :: id in v.content && id in v'.content ==> Upgraded(v.content[id], v'.content[id])
  }

  lemma {:induction false} AppendKeepsMetadata(v: StoreView, batch: seq<Incoming>, anchored: bool)
    ensures KeepsMetadata(v, AppendAll(v, batch, anchored))
    ensures v.content.Keys <= AppendAll(v, batch, anchored).content.Keys
    decreases |batch|
  {
    if batch != [] {
      var v1 := AppendOne(v, batch[0], anchored);
      AppendKeepsMetadata(v1, batch[1..], anchored);
      var v2 := AppendAll(v1, batch[1..], anchored);
      forall id | id in v.content ensures Upgraded(v.content[id], v2.content[id]) {
        UpgradedIsTransitive(v.content[id], v1.content[id], v2.content[id]);
      }
    }
  }

  /** A live event brings metadata for a call of the held event. */
  ghost predicate Brings(e: Incoming, id: EventId, callId: string, m: Metadata) {
    && e.id == id && e.content.isAssistant
    && exists k :: IsLast(e.content.calls, k, callId) && e.content.calls[k].metadata == Some(m)
  }

  /** And the first of the batch that does. */
  ghost predicate FirstBrings(batch: seq<Incoming>, n: int, id: EventId, callId: string, m: Metadata) {
    && 0 <= n < |batch| && Brings(batch[n], id, callId, m)
    && forall j, m' :: 0 <= j < n ==> !Brings(batch[j], id, callId, m')
  }

  /** Call `i` of a held message before and after a batch: it keeps its metadata, or gets the first that
      the batch brings for it, or stays without. */
  ghost predicate Completed(batch: seq<Incoming>, id: EventId, was: ToolCall, now: ToolCall) {
    && now.callId == was.callId
    && (was.metadata.Some? ==> now.metadata == was.metadata)
    && (was.metadata.None? ==>
          && (forall n, m :: FirstBrings(batch, n, id, was.callId, m) ==> now.metadata == Some(m))
          && ((forall n, m :: 0 <= n < |batch| ==> !Brings(batch[n], id, was.callId, m)) ==> now.metadata.None?))
  }

  lemma {:induction false} LastCallExists(calls: seq<ToolCall>, k: nat) returns (last: nat)
    requires k < |calls|
    ensures IsLast(calls, last, calls[k].callId)
    decreases |calls| - k
  {
    last := k;
    if j :| k < j < |calls| && calls[j].callId == calls[k].callId {
      last := LastCallExists(calls, j);
    }
  }

  /** One live event: it brings exactly what it attaches. */
  lemma BringsIsAttached(e: Incoming, id: EventId, was: ToolCall, now: ToolCall, m: Metadata)
    requires e.id == id && e.content.isAssistant && Attached(was, e.content.calls, now) && was.metadata.None?
    ensures Brings(e, id, was.callId, m) <==> now.metadata == Some(m)
  {
    var calls := e.content.calls;
    if now.metadata == Some(m) {
      var k :| 0 <= k < |calls| && calls[k].callId == was.callId;
      var last := LastCallExists(calls, k);
      assert IsLast(calls, last, was.callId);
    }
  }

  lemma FirstBringsCons(batch: seq<Incoming>, n: int, id: EventId, callId: string, m: Metadata)
    requires batch != [] && FirstBrings(batch, n, id, callId, m)
    ensures if n == 0 then Brings(batch[0], id, callId, m)
            else FirstBrings(batch[1..], n - 1, id, callId, m) && forall m' :: !Brings(batch[0], id, callId, m')
  {
    if n > 0 {
      forall j, m' | 0 <= j < n - 1 ensures !Brings(batch[1..][j], id, callId, m') {
        assert batch[1..][j] == batch[j + 1];
      }
    }
  }

  lemma CompletedCons(batch: seq<Incoming>, id: EventId, was: ToolCall, mid: ToolCall, now: ToolCall)
    requires batch != [] && Completed(batch[1..], id, mid, now)
    requires if batch[0].id == id && batch[0].content.isAssistant then Attached(was, batch[0].content.calls, mid)
        else mid == was
    ensures Completed(batch, id, was, now)
  {
    if was.metadata.None? {
      if batch[0].id == id && batch[0].content.isAssistant {
        forall m ensures Brings(batch[0], id, was.callId, m) <==> mid.metadata == Some(m) {
          BringsIsAttached(batch[0], id, was, mid, m);
        }
      }
      forall n, m | FirstBrings(batch, n, id, was.callId, m) ensures now.metadata == Some(m) {
        FirstBringsCons(batch, n, id, was.callId, m);
      }
      if forall n, m :: 0 <= n < |batch| ==> !Brings(batch[n], id, was.callId, m) {
        forall n, m | 0 <= n < |batch[1..]| ensures !Brings(batch[1..][n], id, was.callId, m) {
          assert batch[1..][n] == batch[n + 1];
        }
        assert mid.metadata.None?;
      }
    }
  }

  /** A held message ends with the first metadata a batch brings for each call that had none; what is not a
      message stays as it is. */
  lemma {:induction false} AppendCompletes(v: StoreView, batch: seq<Incoming>, anchored: bool, id: EventId)
    requires id in v.content
    ensures var v' := AppendAll(v, batch, anchored);
      && id in v'.content && v'.content[id].isAssistant == v.content[id].isAssistant
      && |v'.content[id].calls| == |v.content[id].calls|
      && (forall i :: 0 <= i < |v.content[id].calls| && v.content[id].isAssistant ==>
            Completed(batch, id, v.content[id].calls[i], v'.content[id].calls[i]))
      && (!v.content[id].isAssistant ==> v'.content[id] == v.content[id])
    decreases |batch|
  {
    if batch != [] {
      var v1 := AppendOne(v, batch[0], anchored);
      var v' := AppendAll(v1, batch[1..], anchored);
      if batch[0].id == id {
        MergeAttaches(v.content[id], batch[0].content);
      }
      AppendCompletes(v1, batch[1..], anchored, id);
      forall i | 0 <= i < |v.content[id].calls| && v.content[id].isAssistant
          ensures Completed(batch, id, v.content[id].calls[i], v'.content[id].calls[i]) {
        CompletedCons(batch, id, v.content[id].calls[i], v1.content[id].calls[i], v'.content[id].calls[i]);
      }
    }
  }

  lemma PagingKeepsMetadata(v: StoreView, page: seq<Incoming>, offset: Option<nat>, total: Option<nat>)
    ensures KeepsMetadata(v, Prepend(v, page, offset, total))
    ensures KeepsMetadata(v, AppendForward(v, page, total))
    ensures KeepsMetadata(v, Evict(v))
  {
    var added := NotHeld(page, v.content.Keys);
    NotHeldIs(page, v.content.Keys);
    ContentOfHolds(added);
    forall i | 0 <= i < |added| ensures added[i].id !in v.content {
      assert added[i] in added;
    }
  }

  lemma NotHeldFront(page: seq<Incoming>, held: set<EventId>, i: nat)
    requires i < |page|
    ensures NotHeld(page[i..], held) == (if page[i].id in held then [] else [page[i]]) + NotHeld(page[i + 1..], held)
  {
    assert page[i..][1..] == page[i + 1..];
  }

  /** The state of the loop of append: the view and the two flags. */
  datatype Turn = Turn(view: StoreView, added: bool, merged: bool)

  ghost predicate IsTurn(t: Turn, e: Incoming, anchored: bool, t': Turn) {
    && t'.view == AppendOne(t.view, e, anchored)
    && (t'.added <==> t.added || t'.view.ids != t.view.ids)
    && (t'.merged <==> t.merged || (t'.view.ids == t.view.ids && t'.view != t.view))
  }

  lemma FlagsGather(t: Turn, e: Incoming, anchored: bool, view: StoreView, added: bool, merged: bool)
    requires IsTurn(Turn(t.view, false, false), e, anchored, Turn(view, added, merged))
    ensures IsTurn(t, e, anchored, Turn(view, t.added || added, t.merged || merged))
  {}

  ghost predicate Turns(turns: seq<Turn>, batch: seq<Incoming>, anchored: bool) {
    |turns| == |batch| + 1 && forall k :: 0 <= k < |batch| ==> IsTurn(turns[k], batch[k], anchored, turns[k + 1])
  }

  ghost predicate TurnsSoFar(turns: seq<Turn>, batch: seq<Incoming>, anchored: bool, n: nat) {
    n <= |batch| && |turns| == n + 1 && forall k :: 0 <= k < n ==> IsTurn(turns[k], batch[k], anchored, turns[k + 1])
  }

  lemma TurnsSnoc(turns: seq<Turn>, batch: seq<Incoming>, anchored: bool, n: nat, turn: Turn)
    requires TurnsSoFar(turns, batch, anchored, n) && n < |batch| && IsTurn(turns[n], batch[n], anchored, turn)
    ensures TurnsSoFar(turns + [turn], batch, anchored, n + 1) && (turns + [turn])[0] == turns[0]
        && (turns + [turn])[n + 1] == turn
  {
    forall k | 0 <= k < n + 1 ensures IsTurn((turns + [turn])[k], batch[k], anchored, (turns + [turn])[k + 1]) {
      if k < n {
        assert IsTurn(turns[k], batch[k], anchored, turns[k + 1]);
      }
    }
  }

  lemma {:induction false} AppendAllSnoc(v: StoreView, batch: seq<Incoming>, last: Incoming, anchored: bool)
    ensures AppendAll(v, batch + [last], anchored) == AppendOne(AppendAll(v, batch, anchored), last, anchored)
    decreases |batch|
  {
    if batch != [] {
      AppendAllSnoc(AppendOne(v, batch[0], anchored), batch[1..], last, anchored);
      assert (batch + [last])[1..] == batch[1..] + [last];
    }
  }

  /** The two flags tell exactly whether the batch changed anything: a change is never undone later on. */
  lemma {:induction false} FlagsTellChange(turns: seq<Turn>, batch: seq<Incoming>, anchored: bool, n: nat)
    requires Turns(turns, batch, anchored) && n <= |batch| && !turns[0].added && !turns[0].merged
    ensures var start, r := turns[0].view, turns[n];
      && r.view == AppendAll(start, batch[..n], anchored)
      && start.ids <= r.view.ids
      && (r.added <==> r.view.ids != start.ids)
      && (!r.added ==> (r.merged <==> r.view.content != start.content))
  {
    if n > 0 {
      FlagsTellChange(turns, batch, anchored, n - 1);
      assert IsTurn(turns[n - 1], batch[n - 1], anchored, turns[n - 1 + 1]);
      assert batch[..n] == batch[..n - 1] + [batch[n - 1]];
      var start, v, e := turns[0].view, turns[n - 1].view, batch[n - 1];
      AppendAllSnoc(start, batch[..n - 1], e, anchored);
      if e.id in start.content {
        AppendKeepsMetadata(start, batch[..n - 1], anchored);
        MergeUpgrades(v.content[e.id], e.content);
        UpgradedIsTransitive(start.content[e.id], v.content[e.id], Merged(v.content[e.id], e.content));
      }
    }
  }

  /** append computed with the two flags. */
  lemma AppendIs(v: StoreView, batch: seq<Incoming>, turns: seq<Turn>)
    requires Turns(turns, batch, !HasMoreAfter(v)) && turns[0] == Turn(v, false, false)
    ensures var r := turns[|batch|];
      && Append(v, batch) == StoreView(r.view.ids, r.view.content, r.view.firstOffset, if r.added then End(r.view)
          else r.view.total,
                                       r.view.version + if r.added || r.merged then 1 else 0)
      && (r.added || r.merged <==> Append(v, batch) != v)
  {
    FlagsTellChange(turns, batch, !HasMoreAfter(v), |batch|);
    assert batch[..|batch|] == batch;
    AppendAllFrame(v, batch, !HasMoreAfter(v));
  }

  lemma {:induction false} AppendAllFrame(v: StoreView, batch: seq<Incoming>, anchored: bool)
    ensures var r := AppendAll(v, batch, anchored);
      r.firstOffset == v.firstOffset && r.total == v.total && r.version == v.version
    decreases |batch|
  {
    if batch != [] {
      AppendAllFrame(AppendOne(v, batch[0], anchored), batch[1..], anchored);
    }
  }

  // ---------------------------------------------------------------- the version law

  /** What renders: the held events, where they start, and the total as it is read. */
  ghost predicate Renders(v: StoreView, v': StoreView) {
    v'.ids != v.ids || v'.content != v.content || v'.firstOffset != v.firstOffset || Total(v') != Total(v)
  }

  /** The version moves by one exactly when something that renders changed. */
  ghost predicate VersionLaw(v: StoreView, v': StoreView) {
    v'.version == v.version + if Renders(v, v') then 1 else 0
  }

  lemma AppendKeepsVersionLaw(v: StoreView, batch: seq<Incoming>)
    ensures VersionLaw(v, Append(v, batch))
  {
    AppendAllFrame(v, batch, !HasMoreAfter(v));
    AppendAllLengthens(v, batch, !HasMoreAfter(v));
  }

  lemma {:induction false} AppendAllLengthens(v: StoreView, batch: seq<Incoming>, anchored: bool)
    ensures var r := AppendAll(v, batch, anchored); v.ids <= r.ids
    decreases |batch|
  {
    if batch != [] {
      AppendAllLengthens(AppendOne(v, batch[0], anchored), batch[1..], anchored);
    }
  }

  /** The paging mutators and eviction obey the law whatever they are given. */
  lemma PagingKeepsVersionLaw(v: StoreView, page: seq<Incoming>, offset: Option<nat>, total: Option<nat>)
    ensures VersionLaw(v, Prepend(v, page, offset, total))
    ensures VersionLaw(v, AppendForward(v, page, total))
    ensures VersionLaw(v, Evict(v))
  {
    var added := NotHeld(page, v.content.Keys);
    if added != [] {
      assert |IdsOf(added) + v.ids| > |v.ids| && |v.ids + IdsOf(added)| > |v.ids|;
    }
  }

  /** The other three always count up, so they break the law exactly when nothing that renders changes.
      A load breaks it exactly when it places what is already there. */
  lemma ResetKeepsVersionLawIff(v: StoreView, page: seq<Incoming>, offset: nat, total: nat)
    ensures VersionLaw(v, Reset(v, page, offset, total))
       <==> IdsOf(page) != v.ids || ContentOf(page) != v.content || offset != v.firstOffset
            || Max(total, offset + |page|) != Total(v)
  {}

  /** Marking the start breaks it exactly on a window that starts there, told no other total. */
  lemma MarkReachedStartKeepsVersionLawIff(v: StoreView, total: Option<nat>)
    ensures VersionLaw(v, MarkReachedStart(v, total))
       <==> v.firstOffset > 0 || (total.Some? && Max(total.value, |v.ids|) != Max(v.total, |v.ids|))
  {}

  /** Reconciling the total breaks it exactly when the total reads the same afterwards. */
  lemma ReconcileTotalKeepsVersionLawIff(v: StoreView, total: nat)
    ensures VersionLaw(v, ReconcileTotalAtTail(v, total)) <==> Max(total, End(v)) != Max(v.total, End(v))
  {}

  /** Each of the three breaks it on a window of one event: done a second time, it changes nothing and counts. */
  lemma RepeatedCallsCount(v: StoreView, e: Incoming)
    ensures var w := Reset(v, [e], 0, 1);
      && Reset(w, [e], 0, 1) == MarkReachedStart(w, Some(1)) == ReconcileTotalAtTail(w, 1)
          == w.(version := w.version + 1)
      && !VersionLaw(w, Reset(w, [e], 0, 1))
  {}
}
