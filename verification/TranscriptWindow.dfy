/**
 The client's window against the server's log: what every fetch and every live event keeps, and where
 paging ends (Response.ts, lines 226 to 348 and 465 to 563; server.py, lines 219 to 266).

 The log is the flat, append-only list of event ids the server pages over. A response is computed in
 separate locked sections, so its page may come from an earlier log than its total.
 */
module TranscriptWindow {
  import opened Common
  import opened TranscriptStore

  type Log = seq<EventId>

  const PAGE_SIZE := 50

  datatype Response = Response(events: seq<Incoming>, offset: nat, total: nat)

  /** The held events are one stretch of the log, the id map is exactly their index, and the window
      fits inside the total the client knows, which fits inside the log. */
  ghost predicate Window(v: StoreView, log: Log) {
    Exact(v) && End(v) <= |log| && v.ids == log[v.firstOffset..End(v)] && v.total <= |log|
  }

  lemma WindowEndsWithinTotal(v: StoreView, log: Log)
    requires Window(v, log)
    ensures End(v) <= Total(v) <= |log|
    ensures HasMoreAfter(v) <==> End(v) < v.total
  {}

  /** A page of the log from `from` up to `to`, told together with some later total. */
  ghost predicate Serves(r: Response, log: Log, from: nat, to: nat) {
    && from <= to <= |log|
    && IdsOf(r.events) == log[from..to]
    && r.offset == (if from == to then r.total else from)
    && to <= r.total <= |log|
  }

  lemma ServedPageIsDistinct(r: Response, log: Log, from: nat, to: nat)
    requires Distinct(log) && Serves(r, log, from, to)
    ensures DistinctPage(r.events) && |r.events| == to - from
    ensures forall i :: 0 <= i < |r.events| ==> r.events[i].id == log[from + i]
  {
    forall i | 0 <= i < |r.events| ensures r.events[i].id == log[from + i] {
      assert IdsOf(r.events)[i] == log[from..to][i];
    }
  }

  /** The cursor queries, on whatever prefix `now` of the log the server held when it paged. */
  ghost predicate ServesBefore(r: Response, log: Log, now: nat, cursor: nat) {
    cursor < now <= |log| && Serves(r, log, Max(0, cursor - PAGE_SIZE), cursor) && now <= r.total
  }

  ghost predicate ServesAfter(r: Response, log: Log, now: nat, cursor: nat) {
    cursor < now <= |log| && Serves(r, log, cursor + 1, Min(cursor + 1 + PAGE_SIZE, now)) && now <= r.total
  }

  // ---------------------------------------------------------------- the drivers

  /** placeWindow: initial load or jump. */
  function PlaceWindow(v: StoreView, r: Response): StoreView {
    Reset(v, r.events, r.offset, r.total)
  }

  /** fetchBackfillEvents, once the response is in. */
  function Backfill(v: StoreView, r: Response): StoreView {
    if !HasMoreBefore(v) || v.ids == [] then v
    else if r.events != [] then Prepend(v, r.events, Some(r.offset), Some(r.total))
    else MarkReachedStart(v, Some(r.total))
  }

  /** fetchForwardEvents, once the response is in. */
  function Forward(v: StoreView, r: Response): StoreView {
    if !HasMoreAfter(v) || v.ids == [] then v
    else if r.events != [] then AppendForward(v, r.events, Some(r.total))
    else ReconcileTotalAtTail(v, r.total)
  }

  lemma {:induction false} NothingHeld(page: seq<Incoming>, held: set<EventId>)
    requires forall i :: 0 <= i < |page| ==> page[i].id !in held
    ensures NotHeld(page, held) == page
  {
    if page != [] {
      NothingHeld(page[1..], held);
    }
  }

  /** Ids outside the window's stretch are not held. */
  lemma OutsideIsNotHeld(v: StoreView, log: Log, i: nat)
    requires Window(v, log) && Distinct(log) && i < |log| && !(v.firstOffset <= i < End(v))
    ensures log[i] !in v.content
  {
    forall k | 0 <= k < |v.ids| ensures v.ids[k] != log[i] {
      assert v.ids[k] == log[v.firstOffset + k];
    }
  }

  lemma PlaceWindowKeepsWindow(v: StoreView, log: Log, r: Response, from: nat, to: nat)
    requires Distinct(log) && Serves(r, log, from, to)
    ensures Window(PlaceWindow(v, r), log)
  {
    ServedPageIsDistinct(r, log, from, to);
    ResetIsExact(v, r.events, r.offset, r.total);
    if from == to {
      assert IdsOf(r.events) == log[r.total..r.total];
    }
  }

  lemma BackPageIsNew(v: StoreView, log: Log, r: Response, from: nat)
    requires Window(v, log) && Distinct(log) && from < v.firstOffset && Serves(r, log, from, v.firstOffset)
    ensures NotHeld(r.events, v.content.Keys) == r.events && DistinctPage(r.events) && r.events != []
  {
    ServedPageIsDistinct(r, log, from, v.firstOffset);
    forall i | 0 <= i < |r.events| ensures r.events[i].id !in v.content.Keys {
      OutsideIsNotHeld(v, log, from + i);
    }
    NothingHeld(r.events, v.content.Keys);
  }

  lemma WindowGrowsBack(log: Log, from: nat, first: nat, end: nat)
    requires from <= first <= end <= |log|
    ensures log[from..first] + log[first..end] == log[from..end]
  {}

  lemma PrependPage(v: StoreView, log: Log, r: Response, from: nat)
    requires Window(v, log) && Distinct(log) && from < v.firstOffset && Serves(r, log, from, v.firstOffset)
    ensures var v' := Prepend(v, r.events, Some(r.offset), Some(r.total));
      Window(v', log) && v'.firstOffset == from && End(v') == End(v) && v'.total == r.total
  {
    BackPageIsNew(v, log, r, from);
    PrependIsExact(v, r.events, Some(r.offset), Some(r.total));
    var v' := Prepend(v, r.events, Some(r.offset), Some(r.total));
    assert v'.ids == IdsOf(r.events) + v.ids;
    WindowGrowsBack(log, from, v.firstOffset, End(v));
  }

  lemma WindowGrows(v: StoreView, log: Log, to: nat, ids: seq<EventId>)
    requires v.firstOffset <= End(v) <= to <= |log| && v.ids == log[v.firstOffset..End(v)] && ids == log[End(v)..to]
    ensures v.ids + ids == log[v.firstOffset..to] && v.firstOffset + |v.ids + ids| == to
  {}

  lemma ForwardPageIsNew(v: StoreView, log: Log, r: Response, to: nat)
    requires Window(v, log) && Distinct(log) && End(v) < to && Serves(r, log, End(v), to)
    ensures NotHeld(r.events, v.content.Keys) == r.events && DistinctPage(r.events) && r.events != []
  {
    ServedPageIsDistinct(r, log, End(v), to);
    forall i | 0 <= i < |r.events| ensures r.events[i].id !in v.content.Keys {
      OutsideIsNotHeld(v, log, End(v) + i);
    }
    NothingHeld(r.events, v.content.Keys);
  }

  lemma AppendPage(v: StoreView, log: Log, r: Response, to: nat)
    requires Window(v, log) && Distinct(log) && End(v) < to && Serves(r, log, End(v), to)
    ensures var v' := AppendForward(v, r.events, Some(r.total));
      Window(v', log) && v'.firstOffset == v.firstOffset && End(v') == to && v'.total == r.total
  {
    ForwardPageIsNew(v, log, r, to);
    AppendForwardIsExact(v, r.events, Some(r.total));
    WindowGrows(v, log, to, IdsOf(r.events));
  }

  /** A backfill page lands on the window it was requested for: the window grows to the page's start. */
  lemma BackfillKeepsWindow(v: StoreView, log: Log, r: Response, now: nat)
    requires Window(v, log) && Distinct(log)
    requires v.ids != [] && HasMoreBefore(v) ==> ServesBefore(r, log, now, v.firstOffset)
    ensures var v' := Backfill(v, r);
      && Window(v', log) && End(v') == End(v)
      && v'.firstOffset == (if v.ids == [] then v.firstOffset else Max(0, v.firstOffset - PAGE_SIZE))
      && (v.ids != [] && v.firstOffset > 0 ==> v'.firstOffset < v.firstOffset && v'.total == r.total)
      && (v.ids == [] || v.firstOffset == 0 ==> v' == v)
  {
    if v.ids != [] && HasMoreBefore(v) {
      var from := Max(0, v.firstOffset - PAGE_SIZE);
      ServedPageIsDistinct(r, log, from, v.firstOffset);
      PrependPage(v, log, r, from);
    }
  }

  /** A forward page extends the window's end; the gap to what the server held strictly shrinks. */
  lemma ForwardKeepsWindow(v: StoreView, log: Log, r: Response, now: nat)
    requires Window(v, log) && Distinct(log)
    requires v.ids != [] && HasMoreAfter(v) ==> ServesAfter(r, log, now, End(v) - 1) && v.total <= now
    ensures var v' := Forward(v, r);
      && Window(v', log) && v'.firstOffset == v.firstOffset
      && (v.ids != [] && HasMoreAfter(v) ==>
          End(v') == Min(End(v) + PAGE_SIZE, now) && End(v) < End(v') && v'.total == r.total)
      && (v.ids == [] || !HasMoreAfter(v) ==> v' == v)
  {
    if v.ids != [] && HasMoreAfter(v) {
      var to := Min(End(v) + PAGE_SIZE, now);
      ServedPageIsDistinct(r, log, End(v), to);
      AppendPage(v, log, r, to);
    }
  }

  /** An older page told without its place: the window's start moves back by what the page adds. */
  lemma PrependUnplaced(v: StoreView, log: Log, page: seq<Incoming>, from: nat)
    requires Window(v, log) && Distinct(log) && from < v.firstOffset && IdsOf(page) == log[from..v.firstOffset]
    ensures var v' := Prepend(v, page, None, None);
      Window(v', log) && v'.firstOffset == from && End(v') == End(v) && v'.total == v.total
  {
    var r := Response(page, from, |log|);
    PrependPage(v, log, r, from);
    BackPageIsNew(v, log, r, from);
  }

  /** A page that adds something is placed where the server says, under the total it tells. */
  lemma PagesArePlaced(v: StoreView, r: Response)
    requires v.ids != [] && NotHeld(r.events, v.content.Keys) != []
    ensures HasMoreBefore(v) ==> Backfill(v, r).firstOffset == r.offset && Backfill(v, r).total == r.total
    ensures HasMoreAfter(v) ==> Forward(v, r).firstOffset == v.firstOffset && Forward(v, r).total == r.total
  {}

  /** An empty answer ends the paging: back, the window is taken to start at 0; forward, the total is the one
      told. Neither touches what is held. */
  lemma EmptyAnswersEndPaging(v: StoreView, r: Response)
    requires v.ids != [] && r.events == []
    ensures !HasMoreBefore(Backfill(v, r)) && Backfill(v, r).ids == v.ids && Backfill(v, r).content == v.content
    ensures HasMoreBefore(v) ==> Backfill(v, r).total == r.total
    ensures HasMoreAfter(v) ==> Forward(v, r) == v.(total := r.total, version := v.version + 1)
    ensures r.total <= End(v) ==> !HasMoreAfter(Forward(v, r))
  {}

  lemma EvictKeepsWindow(v: StoreView, log: Log)
    requires Window(v, log)
    ensures Window(Evict(v), log) && End(Evict(v)) == End(v)
    ensures |Evict(v).ids| <= MAX_HELD_EVENTS && (v.ids != [] ==> Evict(v).ids != [])
    ensures |v.ids| > MAX_HELD_EVENTS ==> |Evict(v).ids| == EVICT_TARGET_EVENTS
    ensures |v.ids| <= MAX_HELD_EVENTS ==> Evict(v) == v
  {
    EvictIsExact(v);
  }

  /** A live event is either held or the next one after the window. */
  ghost predicate Contiguous(v: StoreView, batch: seq<Incoming>, anchored: bool, log: Log)
    decreases |batch|
  {
    batch != [] ==>
      && (anchored && batch[0].id !in v.content ==> End(v) < |log| && log[End(v)] == batch[0].id)
      && Contiguous(AppendOne(v, batch[0], anchored), batch[1..], anchored, log)
  }

  lemma AppendOneKeepsWindow(v: StoreView, e: Incoming, anchored: bool, log: Log)
    requires Window(v, log) && (anchored && e.id !in v.content ==> End(v) < |log| && log[End(v)] == e.id)
    ensures var v' := AppendOne(v, e, anchored);
        Window(v', log) && v'.firstOffset == v.firstOffset && |v.ids| <= |v'.ids|
  {
    if e.id !in v.content && anchored {
      WindowTakesNext(log, v.firstOffset, End(v));
      assert Exact(AppendOne(v, e, anchored));
    }
  }

  lemma WindowTakesNext(log: Log, first: nat, end: nat)
    requires first <= end < |log|
    ensures log[first..end] + [log[end]] == log[first..end + 1]
  {}

  lemma {:induction false} AppendAllKeepsWindow(v: StoreView, batch: seq<Incoming>, anchored: bool, log: Log)
    requires Window(v, log) && Contiguous(v, batch, anchored, log)
    ensures Window(AppendAll(v, batch, anchored), log)
    ensures AppendAll(v, batch, anchored).firstOffset == v.firstOffset && |v.ids| <= |AppendAll(v, batch, anchored).ids|
    decreases |batch|
  {
    if batch != [] {
      AppendOneKeepsWindow(v, batch[0], anchored, log);
      AppendAllKeepsWindow(AppendOne(v, batch[0], anchored), batch[1..], anchored, log);
    }
  }

  lemma AppendKeepsWindow(v: StoreView, batch: seq<Incoming>, log: Log)
    requires Window(v, log) && Contiguous(v, batch, !HasMoreAfter(v), log)
    ensures Window(Append(v, batch), log)
  {
    AppendAllKeepsWindow(v, batch, !HasMoreAfter(v), log);
  }

  // ---------------------------------------------------------------- whole sessions

  datatype Action =
    | Place(r: Response, from: nat, to: nat)
    | PageBack(r: Response, now: nat)
    | PageForward(r: Response, now: nat)
    | Live(batch: seq<Incoming>)
    | Trim

  function Act(v: StoreView, a: Action): StoreView {
    match a
    case Place(r, _, _) => PlaceWindow(v, r)
    case PageBack(r, _) => Backfill(v, r)
    case PageForward(r, _) => Forward(v, r)
    case Live(batch) => Append(v, batch)
    case Trim => Evict(v)
  }

  /** A page lands on the window it was requested for; a live event is held or next. */
  ghost predicate Legal(v: StoreView, a: Action, log: Log) {
    match a
    case Place(r, from, to) => Serves(r, log, from, to)
    case PageBack(r, now) => v.ids != [] && HasMoreBefore(v) ==> ServesBefore(r, log, now, v.firstOffset)
    case PageForward(r, now) => v.ids != [] && HasMoreAfter(v) ==>
        ServesAfter(r, log, now, End(v) - 1) && v.total <= now
    case Live(batch) => Contiguous(v, batch, !HasMoreAfter(v), log)
    case Trim => true
  }

  /** A session: the log grows between actions, and each action is legal for the log of its moment. */
  ghost predicate Session(v: StoreView, actions: seq<Action>, logs: seq<Log>)
    decreases |actions|
  {
    && |logs| == |actions| + 1
    && (actions != [] ==>
          logs[0] <= logs[1] && Legal(v, actions[0], logs[1]) && Session(Act(v, actions[0]), actions[1..], logs[1..]))
  }

  function ActAll(v: StoreView, actions: seq<Action>): StoreView
    decreases |actions|
  {
    if actions == [] then v else ActAll(Act(v, actions[0]), actions[1..])
  }

  lemma ActKeepsWindow(v: StoreView, a: Action, log: Log)
    requires Window(v, log) && Distinct(log) && Legal(v, a, log)
    ensures Window(Act(v, a), log)
  {
    match a
    case Place(r, from, to) => PlaceWindowKeepsWindow(v, log, r, from, to);
    case PageBack(r, now) => BackfillKeepsWindow(v, log, r, now);
    case PageForward(r, now) => ForwardKeepsWindow(v, log, r, now);
    case Live(batch) => AppendKeepsWindow(v, batch, log);
    case Trim => EvictKeepsWindow(v, log);
  }

  /** After any sequence of loads, jumps, pages, live events and evictions over a growing log, the
      client holds one stretch of the log, indexed exactly, ending within its total. */
  lemma {:induction false} SessionKeepsWindow(v: StoreView, actions: seq<Action>, logs: seq<Log>)
    requires logs != [] && Window(v, logs[0]) && Session(v, actions, logs)
    requires forall i :: 0 <= i < |logs| ==> Distinct(logs[i])
    ensures Window(ActAll(v, actions), logs[|logs| - 1])
    decreases |actions|
  {
    if actions != [] {
      assert logs[1][..|logs[0]|] == logs[0];
      assert Window(v, logs[1]) by {
        assert logs[1][v.firstOffset..End(v)] == logs[0][v.firstOffset..End(v)];
      }
      ActKeepsWindow(v, actions[0], logs[1]);
      SessionKeepsWindow(Act(v, actions[0]), actions[1..], logs[1..]);
    }
  }

  // ---------------------------------------------------------------- metadata over whole sessions

  /** Placing a window drops what was held for what the server answers: the event, if it is in the page, comes
      with no less than is held. */
  ghost predicate AnswersNoLess(v: StoreView, a: Action, id: EventId)
    requires id in v.content
  {
    a.Place? ==> forall e :: e in a.r.events && e.id == id ==> Upgraded(v.content[id], e.content)
  }

  /** The event is held throughout the session, and no placed window answers with less. */
  ghost predicate HeldThroughout(v: StoreView, actions: seq<Action>, id: EventId)
    decreases |actions|
  {
    && id in v.content
    && (actions != [] ==> AnswersNoLess(v, actions[0], id) && HeldThroughout(Act(v, actions[0]), actions[1..], id))
  }

  lemma {:induction false} ContentOfIsServed(page: seq<Incoming>, id: EventId)
    requires id in ContentOf(page)
    ensures exists e :: e in page && e.id == id && e.content == ContentOf(page)[id]
  {
    var init, last := page[..|page| - 1], page[|page| - 1];
    assert last in page;
    if last.id != id {
      ContentOfIsServed(init, id);
      var e :| e in init && e.id == id && e.content == ContentOf(init)[id];
      assert e in page;
    }
  }

  lemma ActKeepsMetadata(v: StoreView, a: Action, id: EventId)
    requires id in v.content && AnswersNoLess(v, a, id) && id in Act(v, a).content
    ensures Upgraded(v.content[id], Act(v, a).content[id])
  {
    match a
    case Place(r, _, _) => ContentOfIsServed(r.events, id);
    case PageBack(r, _) => PagingKeepsMetadata(v, r.events, Some(r.offset), Some(r.total));
    case PageForward(r, _) => PagingKeepsMetadata(v, r.events, None, Some(r.total));
    case Live(batch) => AppendKeepsMetadata(v, batch, !HasMoreAfter(v));
    case Trim => PagingKeepsMetadata(v, [], None, None);
  }

  /** Attached metadata is never lost: over any session, legal or not, an event held throughout ends with
      every piece of metadata it had, as long as no placed window answers with less. */
  lemma {:induction false} SessionKeepsMetadata(v: StoreView, actions: seq<Action>, id: EventId)
    requires HeldThroughout(v, actions, id)
    ensures id in ActAll(v, actions).content && Upgraded(v.content[id], ActAll(v, actions).content[id])
    decreases |actions|
  {
    if actions != [] {
      var v1 := Act(v, actions[0]);
      ActKeepsMetadata(v, actions[0], id);
      SessionKeepsMetadata(v1, actions[1..], id);
      UpgradedIsTransitive(v.content[id], v1.content[id], ActAll(v1, actions[1..]).content[id]);
    }
  }

  /** A placed window keeps an event's metadata exactly if the answer carries it. */
  lemma PlaceKeepsMetadataIff(v: StoreView, r: Response, e: Incoming)
    requires DistinctPage(r.events) && e in r.events && e.id in v.content
    ensures e.id in PlaceWindow(v, r).content
    ensures Upgraded(v.content[e.id], PlaceWindow(v, r).content[e.id]) <==> Upgraded(v.content[e.id], e.content)
  {
    ContentOfHolds(r.events);
    var i :| 0 <= i < |r.events| && r.events[i] == e;
    assert HoldsContent(ContentOf(r.events), r.events[i]);
  }

  // ---------------------------------------------------------------- where what is held comes from

  const NOTHING := StoreView([], map[], 0, 0, 0)

  function Sent(a: Action): seq<Incoming> {
    match a
    case Place(r, _, _) => r.events
    case PageBack(r, _) => r.events
    case PageForward(r, _) => r.events
    case Live(batch) => batch
    case Trim => []
  }

  /** What is held now is what was held or what one of the events says, upgraded. */
  ghost predicate ComesFrom(v: StoreView, events: seq<Incoming>, id: EventId, now: Content) {
    (id in v.content && Upgraded(v.content[id], now))
    || exists e :: e in events && e.id == id && Upgraded(e.content, now)
  }

  lemma {:induction false} AppendComesFrom(v: StoreView, batch: seq<Incoming>, anchored: bool, id: EventId)
    requires id in AppendAll(v, batch, anchored).content
    ensures ComesFrom(v, batch, id, AppendAll(v, batch, anchored).content[id])
    decreases |batch|
  {
    if batch != [] {
      var v1 := AppendOne(v, batch[0], anchored);
      var now := AppendAll(v1, batch[1..], anchored).content[id];
      AppendComesFrom(v1, batch[1..], anchored, id);
      if id in v1.content && Upgraded(v1.content[id], now) {
        if id in v.content {
          UpgradedIsTransitive(v.content[id], v1.content[id], now);
        } else {
          assert batch[0] in batch;
        }
      } else {
        var e :| e in batch[1..] && e.id == id && Upgraded(e.content, now);
        assert e in batch;
      }
    }
  }

  lemma PageComesFrom(v: StoreView, page: seq<Incoming>, id: EventId, content: map<EventId, Content>)
    requires content == v.content + ContentOf(NotHeld(page, v.content.Keys)) && id in content
    ensures ComesFrom(v, page, id, content[id])
  {
    var added := NotHeld(page, v.content.Keys);
    NotHeldIs(page, v.content.Keys);
    if id in ContentOf(added) {
      ContentOfIsServed(added, id);
    }
  }

  lemma ActComesFrom(v: StoreView, a: Action, id: EventId)
    requires id in Act(v, a).content
    ensures ComesFrom(v, Sent(a), id, Act(v, a).content[id])
  {
    match a
    case Place(r, _, _) => ContentOfIsServed(r.events, id);
    case PageBack(r, _) =>
      if Act(v, a).content != v.content {
        PageComesFrom(v, r.events, id, Act(v, a).content);
      }
    case PageForward(r, _) =>
      if Act(v, a).content != v.content {
        PageComesFrom(v, r.events, id, Act(v, a).content);
      }
    case Live(batch) => AppendComesFrom(v, batch, !HasMoreAfter(v), id);
    case Trim =>
  }

  /** Nothing is made up: over any session, what is held of an event is what was held of it at the start or
      what some answer or live event said, with metadata attached since. */
  lemma {:induction false} SessionComesFrom(v: StoreView, actions: seq<Action>, id: EventId)
    requires id in ActAll(v, actions).content
    ensures var now := ActAll(v, actions).content[id];
      ComesFrom(v, [], id, now) || exists n :: 0 <= n < |actions| && ComesFrom(NOTHING, Sent(actions[n]), id, now)
    decreases |actions|
  {
    if actions != [] {
      var v1, now := Act(v, actions[0]), ActAll(v, actions).content[id];
      SessionComesFrom(v1, actions[1..], id);
      if ComesFrom(v1, [], id, now) {
        ActComesFrom(v, actions[0], id);
        if id in v.content && Upgraded(v.content[id], v1.content[id]) {
          UpgradedIsTransitive(v.content[id], v1.content[id], now);
        } else {
          var e :| e in Sent(actions[0]) && e.id == id && Upgraded(e.content, v1.content[id]);
          UpgradedIsTransitive(e.content, v1.content[id], now);
          assert ComesFrom(NOTHING, Sent(actions[0]), id, now);
        }
      } else {
        var n :| 0 <= n < |actions[1..]| && ComesFrom(NOTHING, Sent(actions[1..][n]), id, now);
        assert actions[n + 1] == actions[1..][n];
      }
    }
  }

  // ---------------------------------------------------------------- where paging ends

  /** A server holding `log` and, for each id, its content. */
  function Page(log: Log, content: EventId -> Content, from: nat, to: nat): seq<Incoming>
    requires from <= to <= |log|
  {
    seq(to - from, i requires 0 <= i < to - from => Incoming(log[from + i], content(log[from + i])))
  }

  function Answer(log: Log, content: EventId -> Content, from: nat, to: nat): Response
    requires from <= to <= |log|
  {
    Response(Page(log, content, from, to), if from == to then |log| else from, |log|)
  }

  /** A backfill, and a forward fetch, against a server whose log stands still. */
  function RoundBack(v: StoreView, log: Log, content: EventId -> Content): StoreView
    requires v.firstOffset <= |log|
  {
    Backfill(v, Answer(log, content, Max(0, v.firstOffset - PAGE_SIZE), v.firstOffset))
  }

  function RoundForward(v: StoreView, log: Log, content: EventId -> Content): StoreView {
    if End(v) > |log| then v else Forward(v, Answer(log, content, End(v), Min(End(v) + PAGE_SIZE, |log|)))
  }

  function Round(v: StoreView, log: Log, content: EventId -> Content): StoreView
    requires v.firstOffset <= |log|
  {
    RoundForward(RoundBack(v, log, content), log, content)
  }

  function Rounds(v: StoreView, log: Log, content: EventId -> Content, n: nat): StoreView
    decreases n
  {
    if n == 0 || v.firstOffset > |log| then v else Rounds(Round(v, log, content), log, content, n - 1)
  }

  lemma AnswerServes(log: Log, content: EventId -> Content, from: nat, to: nat)
    requires from <= to <= |log|
    ensures Serves(Answer(log, content, from, to), log, from, to)
  {
    assert IdsOf(Page(log, content, from, to)) == log[from..to];
  }

  /** A backfill that has something to fetch also learns how long the log is. */
  lemma RoundBackSteps(v: StoreView, log: Log, content: EventId -> Content)
    requires Window(v, log) && Distinct(log)
    ensures var v' := RoundBack(v, log, content);
      && Window(v', log) && End(v') == End(v)
      && (v.ids == [] || v.firstOffset == 0 ==> v' == v)
      && (v.ids != [] && v.firstOffset > 0 ==>
            v'.ids != [] && v'.total == |log| && v'.firstOffset == Max(0, v.firstOffset - PAGE_SIZE))
  {
    var from := Max(0, v.firstOffset - PAGE_SIZE);
    AnswerServes(log, content, from, v.firstOffset);
    BackfillKeepsWindow(v, log, Answer(log, content, from, v.firstOffset), |log|);
  }

  lemma RoundForwardSteps(v: StoreView, log: Log, content: EventId -> Content)
    requires Window(v, log) && Distinct(log)
    ensures var v' := RoundForward(v, log, content);
      && Window(v', log) && v'.firstOffset == v.firstOffset
      && (v.ids == [] || End(v) >= v.total ==> v' == v)
      && (v.ids != [] && End(v) < v.total ==>
            v'.ids != [] && v'.total == |log| && End(v') == Min(End(v) + PAGE_SIZE, |log|))
  {
    var to := Min(End(v) + PAGE_SIZE, |log|);
    AnswerServes(log, content, End(v), to);
    ForwardKeepsWindow(v, log, Answer(log, content, End(v), to), |log|);
  }

  /** Neither fetch has anything to ask for: nothing is held, or the window starts at 0 and reaches the
      total the client knows of. */
  predicate Stands(v: StoreView) {
    v.ids == [] || (v.firstOffset == 0 && End(v) >= v.total)
  }

  lemma {:induction false} StandsStill(v: StoreView, log: Log, content: EventId -> Content, n: nat)
    requires Window(v, log) && Distinct(log) && Stands(v)
    ensures Rounds(v, log, content, n) == v
    decreases n
  {
    if n > 0 {
      RoundBackSteps(v, log, content);
      RoundForwardSteps(v, log, content);
      StandsStill(v, log, content, n - 1);
    }
  }

  /** Each round moves the window's start towards 0 and its end towards the end of the log. */
  ghost predicate Reaches(v: StoreView, v': StoreView, log: Log, n: nat) {
    && Window(v', log) && v'.total == |log| && v'.ids != []
    && v'.firstOffset == Max(0, v.firstOffset - n * PAGE_SIZE) && End(v') == Min(End(v) + n * PAGE_SIZE, |log|)
  }

  /** One way, then the other, as one step from any window that has something to ask for. */
  lemma RoundReaches(v: StoreView, log: Log, content: EventId -> Content) returns (v1: StoreView)
    requires Window(v, log) && Distinct(log) && v.ids != [] && (!Stands(v) || v.total == |log|)
    ensures v1 == Round(v, log, content) && Reaches(v, v1, log, 1)
  {
    RoundBackSteps(v, log, content);
    var back := RoundBack(v, log, content);
    RoundForwardSteps(back, log, content);
    v1 := RoundForward(back, log, content);
    BothWays(v, back, v1, log);
  }

  lemma BothWays(v: StoreView, back: StoreView, v1: StoreView, log: Log)
    requires Window(v, log) && Window(back, log) && Window(v1, log)
    requires v.ids != [] && back.ids != [] && End(back) == End(v) && (!Stands(v) || v.total == |log|)
    requires back.firstOffset == Max(0, v.firstOffset - PAGE_SIZE)
    requires if v.firstOffset > 0 then back.total == |log| else back == v
    requires v1.firstOffset == back.firstOffset
    requires if End(back) < back.total then v1.ids != [] && v1.total == |log|
        && End(v1) == Min(End(back) + PAGE_SIZE, |log|)
             else v1 == back
    ensures Reaches(v, v1, log, 1)
  {}

  lemma ReachesAdds(v: StoreView, v1: StoreView, v2: StoreView, log: Log, n: nat)
    requires Reaches(v, v1, log, 1) && Reaches(v1, v2, log, n) && Window(v, log)
    ensures Reaches(v, v2, log, n + 1)
  {}

  lemma FirstRound(v: StoreView, log: Log, content: EventId -> Content, n: nat) returns (v1: StoreView)
    requires Window(v, log) && Distinct(log) && v.ids != [] && n > 0 && (!Stands(v) || v.total == |log|)
    ensures Reaches(v, v1, log, 1) && Rounds(v, log, content, n) == Rounds(v1, log, content, n - 1)
    ensures Rounds(v1, log, content, 0) == v1
  {
    v1 := RoundReaches(v, log, content);
  }

  lemma {:induction false} RoundsReach(v: StoreView, log: Log, content: EventId -> Content, n: nat)
    requires Window(v, log) && Distinct(log) && v.ids != [] && n > 0 && (!Stands(v) || v.total == |log|)
    ensures Reaches(v, Rounds(v, log, content, n), log, n)
    decreases n
  {
    var v1 := FirstRound(v, log, content, n);
    if n > 1 {
      RoundsReach(v1, log, content, n - 1);
      ReachesAdds(v, v1, Rounds(v1, log, content, n - 1), log, n - 1);
    }
  }

  /** Paging is complete: enough rounds from any window hold the whole log, once and in order, exactly
      when there is nothing to hold, or the window holds something and either has something left to ask
      for (older history, or a known newer end) or already ends where the log does. */
  lemma PagingCompletesIff(v: StoreView, log: Log, content: EventId -> Content, n: nat)
    requires Window(v, log) && Distinct(log) && n * PAGE_SIZE >= |log|
    ensures Rounds(v, log, content, n).ids == log
       <==> log == [] || (v.ids != [] && (v.firstOffset > 0 || End(v) < v.total || End(v) == |log|))
  {
    assert log[0..|log|] == log;
    if Stands(v) {
      StandsStill(v, log, content, n);
    } else {
      RoundsReach(v, log, content, n);
    }
  }

  /** A window on a whole short log that then grows has nothing left to ask for: with the live events
      missed, no paging ever brings them. */
  lemma GrowthIsNotPagedIn(v: StoreView, now: Log, log: Log, content: EventId -> Content, n: nat)
    requires Distinct(log) && now < log && 0 < |now| <= PAGE_SIZE
    ensures var v' := PlaceWindow(v, Answer(now, content, 0, |now|));
      Window(v', log) && v'.ids == now && Rounds(v', log, content, n) == v' && !HasMoreAfter(v')
  {
    var r := Answer(now, content, 0, |now|);
    assert Distinct(now) by {
      forall i, j | 0 <= i < j < |now| ensures now[i] != now[j] {
        assert log[i] == now[i] && log[j] == now[j];
      }
    }
    AnswerServes(now, content, 0, |now|);
    PlaceWindowKeepsWindow(v, now, r, 0, |now|);
    var v' := PlaceWindow(v, r);
    assert now[0..|now|] == now && log[0..|now|] == now;
    StandsStill(v', log, content, n);
  }

  /** A jump past the end leaves nothing to page from, although more history is known to exist. */
  lemma JumpPastEndStrands(v: StoreView, log: Log, content: EventId -> Content, offset: nat, n: nat)
    requires Distinct(log) && log != []
    ensures var v' := PlaceWindow(v, Answer(log, content, Min(offset, |log|), Min(offset + PAGE_SIZE, |log|)));
      && (v'.ids == [] <==> offset >= |log|)
      && (offset >= |log| ==> HasMoreBefore(v') && Rounds(v', log, content, n) == v')
      && (offset < |log| ==> v'.firstOffset == offset && Window(v', log))
  {
    var from, to := Min(offset, |log|), Min(offset + PAGE_SIZE, |log|);
    AnswerServes(log, content, from, to);
    PlaceWindowKeepsWindow(v, log, Answer(log, content, from, to), from, to);
    if offset >= |log| {
      StandsStill(PlaceWindow(v, Answer(log, content, from, to)), log, content, n);
    }
  }

  // ---------------------------------------------------------------- the version, as the drivers move it

  /** On the windows their requests were made for, the fetches that may mark the start or reconcile the
      total move the version exactly when something that renders changed. */
  lemma FetchesKeepVersionLaw(v: StoreView, log: Log, back: Response, forward: Response, now: nat)
    requires Window(v, log) && Distinct(log)
    requires v.ids != [] && HasMoreBefore(v) ==> ServesBefore(back, log, now, v.firstOffset)
    requires v.ids != [] && HasMoreAfter(v) ==> ServesAfter(forward, log, now, End(v) - 1) && v.total <= now
    ensures VersionLaw(v, Backfill(v, back)) && VersionLaw(v, Forward(v, forward))
  {
    PagingKeepsVersionLaw(v, back.events, Some(back.offset), Some(back.total));
    PagingKeepsVersionLaw(v, forward.events, None, Some(forward.total));
    if v.ids != [] && HasMoreAfter(v) {
      ServedPageIsDistinct(forward, log, End(v), Min(End(v) + PAGE_SIZE, now));
    }
  }
}
