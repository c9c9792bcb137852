/**
 The events endpoint: how a page, its offset and the total become one response
 (apps/system_interface/imbue/system_interface/server.py, lines 219 to 266), and what the client's
 window may count on from it.
 */
module EventsEndpoint {
  import opened Common
  import opened SessionParser
  import opened WatcherModel
  import opened WatcherEmission
  import opened SessionWatcher
  import opened Collectors
  import TranscriptStore
  import TranscriptWindow

  const DEFAULT_TAIL_COUNT := 50

  /** The query parameters, in the order they are looked at; an unreadable offset is 0. */
  datatype Query = Before(id: EventId) | After(id: EventId) | At(offset: int) | Tail

  /** A page of the timeline, told with its place. */
  datatype Answer = Answer(page: seq<Pair>, offset: nat, total: nat)

  function Limit(asked: Option<int>): nat {
    if asked.Some? && asked.value > 0 then asked.value else DEFAULT_TAIL_COUNT
  }

  /** The entries a query asks for, given where its cursor sits: up to `limit` just before it, up to `limit`
      just after it, `limit` from an offset on, or the last `limit`; an unknown cursor asks for none. */
  predicate Wanted(q: Query, cursor: Option<nat>, total: nat, limit: nat, g: nat) {
    && g < total
    && match q
       case Before(_) => cursor.Some? && cursor.value - limit <= g < cursor.value
       case After(_) => cursor.Some? && cursor.value < g <= cursor.value + limit
       case At(offset) => offset <= g < Max(0, offset) + limit
       case Tail => total - limit <= g
  }

  /** The same entries as one stretch of the timeline. */
  function Stretch(q: Query, cursor: Option<nat>, total: nat, limit: nat): (r: (nat, nat))
    requires cursor.Some? ==> cursor.value < total
    ensures r.0 <= r.1 <= total && r.1 - r.0 <= limit
    ensures forall g: nat :: r.0 <= g < r.1 <==> Wanted(q, cursor, total, limit, g)
  {
    match q
    case Before(_) => if cursor.None? then (0, 0) else (Max(0, cursor.value - limit), cursor.value)
    case After(_) => if cursor.None? then (0, 0) else (cursor.value + 1, Min(cursor.value + 1 + limit, total))
    case At(offset) => (Min(Max(0, offset), total), Min(Max(0, offset) + limit, total))
    case Tail => (Max(0, total - limit), total)
  }

  function Cursor(states: seq<SessionFileState>, refs: Refs, q: Query): Option<nat>
    reads states
  {
    match q
    case Before(id) => TimelineIndex(states, refs, id)
    case After(id) => TimelineIndex(states, refs, id)
    case At(_) => None
    case Tail => None
  }

  lemma CursorIsInside(states: seq<SessionFileState>, refs: Refs, q: Query)
    requires Distinct(states) && RefsHold(refs)
    ensures Cursor(states, refs, q).Some? ==> Cursor(states, refs, q).value < |Timeline(states)|
  {
    if Cursor(states, refs, q).Some? {
      IndexFindsItsId(states, refs, q.id);
    }
  }

  lemma BeforeIsStretch(t: seq<Pair>, cursor: Option<nat>, limit: nat, id: EventId, page: seq<Pair>)
    requires cursor.None? ==> page == []
    requires cursor.Some? ==> cursor.value < |t| && page == Last(t[..cursor.value], limit)
    ensures var s := Stretch(Before(id), cursor, |t|, limit); page == t[s.0..s.1]
  {}

  lemma AfterIsStretch(t: seq<Pair>, cursor: Option<nat>, limit: nat, id: EventId, page: seq<Pair>)
    requires cursor.None? ==> page == []
    requires cursor.Some? ==> cursor.value < |t| && page == First(t[cursor.value + 1..], limit)
    ensures var s := Stretch(After(id), cursor, |t|, limit); page == t[s.0..s.1]
  {}

  lemma AtIsStretch(t: seq<Pair>, offset: int, limit: nat)
    ensures var s := Stretch(At(offset), None, |t|, limit); First(Drop(t, Max(0, offset)), limit) == t[s.0..s.1]
  {}

  lemma TailIsStretch(t: seq<Pair>, limit: nat)
    ensures var s := Stretch(Tail, None, |t|, limit); Last(t, limit) == t[s.0..s.1]
  {}

  /** The dispatch on the query parameters. */
  method Page(states: seq<SessionFileState>, refs: Refs, q: Query, limit: nat) returns (page: seq<Pair>)
    requires Distinct(states) && RefsHold(refs) && limit > 0
    ensures Cursor(states, refs, q).Some? ==> Cursor(states, refs, q).value < |Timeline(states)|
    ensures var s := Stretch(q, Cursor(states, refs, q), |Timeline(states)|, limit); page == Timeline(states)[s.0..s.1]
  {
    CursorIsInside(states, refs, q);
    ghost var t, cursor := Timeline(states), Cursor(states, refs, q);
    match q {
      case Before(id) =>
        page := CollectBefore(states, refs, id, limit);
        BeforeIsStretch(t, cursor, limit, id, page);
      case After(id) =>
        page := CollectAfter(states, refs, id, limit);
        AfterIsStretch(t, cursor, limit, id, page);
      case At(offset) =>
        page := CollectAtOffset(states, Max(0, offset), limit);
        AtIsStretch(t, offset, limit);
      case Tail =>
        page := CollectTail(states, limit);
        TailIsStretch(t, limit);
    }
  }

  function ToPairs(page: seq<Pair>): (pairs: seq<(SessionId, Locator)>)
    ensures |pairs| == |page|
  {
    seq(|page|, i requires 0 <= i < |page| => (page[i].0.sessionId, page[i].1))
  }

  /** The ids of a page, and of the flat log the pages are cut from. */
  function Log(timeline: seq<Pair>): (log: TranscriptWindow.Log)
    ensures |log| == |timeline|
  {
    seq(|timeline|, i requires 0 <= i < |timeline| => timeline[i].1.id)
  }

  lemma TimelineEntry(states: seq<SessionFileState>, g: nat)
    requires g < |Timeline(states)|
    ensures var (state, l) := Timeline(states)[g]; state in states && l in state.locators
  {
    var p, i := LocateInFlatten(Lists(states), g);
    TimelineAround(states, p, i);
    assert Lists(states)[..p] == Lists(states[..p]);
  }

  lemma PageIsHeld(w: AgentSessionWatcher, states: seq<SessionFileState>, from: nat, to: nat)
    requires w.Valid() && from <= to <= |Timeline(states)| && forall state :: state in states ==> w.Filed(state)
    ensures AllHeld(w.Model(), ToPairs(Timeline(states)[from..to]))
  {
    var page := Timeline(states)[from..to];
    forall k | 0 <= k < |page| ensures Held(w.Model(), ToPairs(page)[k]) {
      TimelineEntry(states, from + k);
      assert page[k] == Timeline(states)[from + k];
      assert w.Filed(page[k].0);
    }
  }

  /** What the endpoint may count on: an exact index whose every locator can be read. */
  ghost predicate Serving(w: AgentSessionWatcher, disk: Disk, done: Disk)
    reads w, w.sessionStates.Values
  {
    && w.Valid() && Indexed(w.Model())
    && AllReadable(w.json, w.Model(), done, w.capacity) && Holds(disk, done)
  }

  /** The first section resolves one body for each entry of the page, so the response is empty exactly if
      the page is, and its first event is the page's first entry. */
  lemma PageHasItsBodies(w: AgentSessionWatcher, states: seq<SessionFileState>, from: nat, to: nat, disk: Disk,
                         done: Disk)
    requires Serving(w, disk, done) && from <= to <= |Timeline(states)| && forall state :: state in states ==>
        w.Filed(state)
    ensures var page := Timeline(states)[from..to];
      IdsOf(Resolve(w.json, w.Model(), disk, ToPairs(page), w.capacity).1) == Log(page)
  {
    var page := Timeline(states)[from..to];
    PageIsHeld(w, states, from, to);
    ResolveFindsAll(w.json, w.Model(), disk, done, ToPairs(page), w.capacity);
    assert PairIds(ToPairs(page)) == Log(page);
  }

  /** A stretch as a response: its entries, the flat index of the first (the total when there is none), and
      the total. */
  function AnswerFor(timeline: seq<Pair>, from: nat, to: nat): Answer
    requires from <= to <= |timeline|
  {
    Answer(timeline[from..to], if from == to then |timeline| else from, |timeline|)
  }

  ghost predicate Answers(states: seq<SessionFileState>, refs: Refs, q: Query, limit: nat, a: Answer)
    reads states
  {
    var cursor, n := Cursor(states, refs, q), |Timeline(states)|;
    && (cursor.Some? ==> cursor.value < n)
    && var s := Stretch(q, cursor, n, limit);
       a == AnswerFor(Timeline(states), s.0, s.1)
  }

  /** _get_events on a watcher whose index is exact, with nothing appended between its locked sections: the
      answer is about the main sessions that have a state, in history order. */
  method GetEvents(w: AgentSessionWatcher, mainSessionIds: seq<SessionId>, q: Query, asked: Option<int>)
    returns (a: Answer, ghost states: seq<SessionFileState>)
    requires w.Valid() && Indexed(w.Model()) && Distinct(mainSessionIds)
    ensures SelectedInOrder(w.sessionStates, mainSessionIds, states)
    ensures asked.Some? && asked.value > 0 ==> Answers(states, w.refs, q, asked.value, a)
    ensures asked.None? || asked.value <= 0 ==> Answers(states, w.refs, q, DEFAULT_TAIL_COUNT, a)
  {
    var current := CurrentStates(w, mainSessionIds);
    a := Answered(current, w.refs, q, Limit(asked));
    states := current;
  }

  method CurrentStates(w: AgentSessionWatcher, mainSessionIds: seq<SessionId>) returns (states: seq<SessionFileState>)
    requires w.Valid() && Indexed(w.Model()) && Distinct(mainSessionIds)
    ensures SelectedInOrder(w.sessionStates, mainSessionIds, states) && Distinct(states)
    ensures RefsHold(w.refs) && RefsCover(states, w.refs)
  {
    states := OrderedSelectedStates(w, mainSessionIds);
    WatcherRefsHold(w, states);
  }

  /** The first entry of a page sits where the page starts. */
  lemma FirstReportsItself(states: seq<SessionFileState>, refs: Refs, q: Query, limit: nat, page: seq<Pair>)
    requires Distinct(states) && RefsHold(refs) && RefsCover(states, refs) && page != []
    requires Cursor(states, refs, q).Some? ==> Cursor(states, refs, q).value < |Timeline(states)|
    requires var s := Stretch(q, Cursor(states, refs, q), |Timeline(states)|, limit); page == Timeline(states)[s.0..s.1]
    ensures TimelineIndex(states, refs, page[0].1.id)
         == Some(Stretch(q, Cursor(states, refs, q), |Timeline(states)|, limit).0)
  {
    var s := Stretch(q, Cursor(states, refs, q), |Timeline(states)|, limit);
    OffsetRoundTrip(states, refs, s.0);
    assert page[0] == Timeline(states)[s.0];
  }

  method Answered(states: seq<SessionFileState>, refs: Refs, q: Query, limit: nat) returns (a: Answer)
    requires Distinct(states) && RefsHold(refs) && RefsCover(states, refs) && limit > 0
    ensures Answers(states, refs, q, limit, a)
  {
    var page := Page(states, refs, q, limit);
    var total := CountAll(states);
    var offset := total;
    if |page| > 0 {
      FirstReportsItself(states, refs, q, limit, page);
      var found := GetEventOffset(states, refs, page[0].1.id);
      offset := found;
    }
    a := Answer(page, offset, total);
  }

  // ---------------------------------------------------------------- as the client sees it

  /** The response on the wire, with each event's content. */
  function Wire(a: Answer, content: EventId -> TranscriptStore.Content): TranscriptWindow.Response {
    TranscriptWindow.Response(
      seq(|a.page|, i requires 0 <= i < |a.page| => TranscriptStore.Incoming(a.page[i].1.id, content(a.page[i].1.id))),
          a.offset, a.total)
  }

  /** Every answer places a stretch of the log, so a load or a jump gives the client a window on it. */
  lemma AnswerPlacesAWindow(timeline: seq<Pair>, from: nat, to: nat, content: EventId -> TranscriptStore.Content,
                            v: TranscriptStore.StoreView)
    requires from <= to <= |timeline| && Distinct(Log(timeline))
    ensures var a := AnswerFor(timeline, from, to);
      && TranscriptWindow.Serves(Wire(a, content), Log(timeline), from, to)
      && TranscriptWindow.Window(TranscriptWindow.PlaceWindow(v, Wire(a, content)), Log(timeline))
  {
    var a := AnswerFor(timeline, from, to);
    assert TranscriptStore.IdsOf(Wire(a, content).events) == Log(timeline)[from..to];
    TranscriptWindow.PlaceWindowKeepsWindow(v, Log(timeline), Wire(a, content), from, to);
  }

  /** The cursor the client sends, its first event, sits at its first offset: what comes back is the page
      that ends exactly where its window starts. */
  lemma BackfillAnswerFits(timeline: seq<Pair>, v: TranscriptStore.StoreView,
                           content: EventId -> TranscriptStore.Content)
    requires TranscriptWindow.Window(v, Log(timeline)) && Distinct(Log(timeline)) && v.ids != [] && v.firstOffset > 0
    ensures v.firstOffset < |timeline| && timeline[v.firstOffset].1.id == v.ids[0]
    ensures var s := Stretch(Before(v.ids[0]), Some(v.firstOffset), |timeline|, TranscriptWindow.PAGE_SIZE);
      var a := AnswerFor(timeline, s.0, s.1);
      TranscriptWindow.ServesBefore(Wire(a, content), Log(timeline), |timeline|, v.firstOffset)
  {
    var log := Log(timeline);
    assert v.ids[0] == log[v.firstOffset];
    AnswerPlacesAWindow(timeline, Max(0, v.firstOffset - TranscriptWindow.PAGE_SIZE), v.firstOffset, content, v);
  }

  /** And its last event sits just before its end: what comes back starts exactly there. */
  lemma ForwardAnswerFits(timeline: seq<Pair>, v: TranscriptStore.StoreView,
                          content: EventId -> TranscriptStore.Content)
    requires TranscriptWindow.Window(v, Log(timeline)) && Distinct(Log(timeline)) && v.ids != []
    ensures TranscriptStore.End(v) <= |timeline| && timeline[TranscriptStore.End(v) - 1].1.id == v.ids[|v.ids| - 1]
    ensures var end := TranscriptStore.End(v);
      var s := Stretch(After(v.ids[|v.ids| - 1]), Some(end - 1), |timeline|, TranscriptWindow.PAGE_SIZE);
      var a := AnswerFor(timeline, s.0, s.1);
      TranscriptWindow.ServesAfter(Wire(a, content), Log(timeline), |timeline|, end - 1)
  {
    var log, end := Log(timeline), TranscriptStore.End(v);
    assert v.ids[|v.ids| - 1] == log[end - 1];
    AnswerPlacesAWindow(timeline, end, Min(end + TranscriptWindow.PAGE_SIZE, |timeline|), content, v);
  }

  // ---------------------------------------------------------------- with appends between the locked sections

  /** The page, the total and the offset are taken in three locked sections. If the log only grew in
      between, they still place a stretch of it: the page of the first moment, the first entry's index of
      the last, and a total in between. */
  lemma AnswerAcrossGrowth(t1: seq<Pair>, t2: seq<Pair>, t3: seq<Pair>, from: nat, to: nat, offset: nat,
                           content: EventId -> TranscriptStore.Content, v: TranscriptStore.StoreView)
    requires Log(t1) <= Log(t2) <= Log(t3) && Distinct(Log(t3)) && from <= to <= |t1|
    requires from < to ==> offset < |t3| && t3[offset].1.id == t1[from].1.id
    ensures var a := Answer(t1[from..to], if from == to then |t2| else offset, |t2|);
      && TranscriptWindow.Serves(Wire(a, content), Log(t3), from, to)
      && TranscriptWindow.Window(TranscriptWindow.PlaceWindow(v, Wire(a, content)), Log(t3))
  {
    var a := Answer(t1[from..to], if from == to then |t2| else offset, |t2|);
    assert forall k :: 0 <= k < |t1| ==> Log(t1)[k] == Log(t3)[k];
    if from < to {
      assert Log(t3)[offset] == Log(t1)[from] == Log(t3)[from];
    }
    assert TranscriptStore.IdsOf(Wire(a, content).events) == Log(t3)[from..to];
    TranscriptWindow.PlaceWindowKeepsWindow(v, Log(t3), Wire(a, content), from, to);
  }

  /** The log grows at its end exactly because only the last file grows; */
  lemma LastFileGrowsTheEnd<T>(init: seq<seq<T>>, was: seq<T>, now: seq<T>)
    requires was <= now
    ensures Flatten(init + [was]) <= Flatten(init + [now])
  {
    FlattenAppend(init, [was]);
    FlattenAppend(init, [now]);
    assert Flatten([was]) == was + Flatten([was][1..]) && Flatten([now]) == now + Flatten([now][1..]);
  }

  /** an earlier file that grows moves what follows it. */
  lemma EarlierFileMovesTheRest<T>(was: seq<T>, x: T, y: T, rest: seq<T>)
    requires x != y
    ensures !(Flatten([was, [y] + rest]) <= Flatten([was + [x], [y] + rest]))
  {
    var a, b := [was, [y] + rest], [was + [x], [y] + rest];
    assert a[1..] == [[y] + rest] == b[1..] && a[1..][1..] == [];
    assert Flatten(a[1..]) == [y] + rest;
    assert Flatten(a) == was + ([y] + rest) && Flatten(b) == (was + [x]) + ([y] + rest);
    assert Flatten(a)[|was|] == y && Flatten(b)[|was|] == x;
  }
}
