/**
 What each lock-held section of the session watcher does to its shared collections, as functions
 on values (session_watcher.py, lines 610 to 757 and 1097 to 1112), and what every section keeps.
 The class in SessionWatcher.dfy carries these out on its fields.
 */
module WatcherModel {
  import opened Common
  import opened SessionParser
  import opened LineSplitter
  import opened BodyCache

  /** A bodyless pointer to one event: several locators may share one line's byte range. */
  datatype Locator = Locator(id: EventId, timestamp: int, offset: nat, len: nat)

  function LocatorIds(locators: seq<Locator>): seq<EventId> {
    seq(|locators|, i requires 0 <= i < |locators| => locators[i].id)
  }

  datatype FileState = FileState(consumed: nat, lastMtime: int, locators: seq<Locator>, emitted: nat)

  const NEW_FILE := FileState(0, 0, [], 0)

  type Position = (SessionId, nat)

  datatype Watch = Watch(
    files: map<SessionId, FileState>,
    seen: set<EventId>,
    names: map<string, string>,
    refs: map<EventId, Position>,
    cache: seq<Event>)

  const NEW_WATCH := Watch(map[], {}, map[], map[], [])

  // ---------------------------------------------------------------- refreshing a file

  /** Index one parsed event and cache its body. */
  function AddEvent(w: Watch, s: SessionId, e: Event, span: Span, capacity: nat): Watch
    requires s in w.files
  {
    var f := w.files[s];
    w.(files := w.files[s := f.(locators := f.locators + [Locator(e.id, e.timestamp, span.offset, span.len)])],
       refs := w.refs[e.id := (s, |f.locators|)],
       cache := Put(w.cache, e, capacity))
  }

  function AddEvents(w: Watch, s: SessionId, events: seq<Event>, span: Span, capacity: nat): (w': Watch)
    requires s in w.files
    ensures w'.files.Keys == w.files.Keys
    decreases |events|
  {
    if events == [] then w else AddEvents(AddEvent(w, s, events[0], span, capacity), s, events[1..], span, capacity)
  }

  /** Parse one line against the shared dedup set and name map, then index what it yields. */
  function ConsumeLine(json: Json, w: Watch, s: SessionId, span: Span, capacity: nat): Watch
    requires s in w.files
  {
    var parsed := ParseRecord(Decode(json, span.line), Parsed([], w.seen, w.names), s);
    AddEvents(w.(seen := parsed.seen, names := parsed.names), s, parsed.events, span, capacity)
  }

  function ConsumeSpans(json: Json, w: Watch, s: SessionId, spans: seq<Span>, capacity: nat): (w': Watch)
    requires s in w.files
    ensures w'.files.Keys == w.files.Keys
    decreases |spans|
  {
    if spans == [] then w else ConsumeSpans(json, ConsumeLine(json, w, s, spans[0], capacity), s, spans[1..], capacity)
  }

  function IdSet(locators: seq<Locator>): set<EventId> {
    set l | l in locators :: l.id
  }

  /** The file shrank below what was consumed: forget its index and the ids it held. */
  function Forget(w: Watch, s: SessionId): Watch
    requires s in w.files
  {
    var gone := IdSet(w.files[s].locators);
    w.(files := w.files[s := FileState(0, w.files[s].lastMtime, [], 0)], seen := w.seen - gone, refs := w.refs - gone)
  }

  function MarkEmitted(w: Watch, s: SessionId, mark: bool): Watch
    requires s in w.files
  {
    if mark then w.(files := w.files[s := w.files[s].(emitted := |w.files[s].locators|)]) else w
  }

  /** The truncation check. */
  function Reset(w: Watch, s: SessionId, file: Bytes): (w': Watch)
    requires s in w.files
    ensures s in w'.files && w'.files[s].consumed <= |file|
  {
    if |file| < w.files[s].consumed then Forget(w, s) else w
  }

  /** Every complete line past the consumed offset. */
  function Complete(json: Json, f: FileState, file: Bytes): Bytes
    requires f.consumed <= |file|
  {
    SplitAtLastCompleteLine(json, file[f.consumed..]).0
  }

  /** Read and parse what was appended; nothing when neither size nor mtime moved. */
  function Advance(json: Json, w: Watch, s: SessionId, file: Bytes, mtime: int, capacity: nat): (w': Watch)
    requires s in w.files && w.files[s].consumed <= |file|
    ensures w'.files.Keys == w.files.Keys && w'.files[s].consumed <= |file|
  {
    var f := w.files[s];
    if (|file| == f.consumed && mtime == f.lastMtime) || Complete(json, f, file) == [] then w
    else
      var complete := Complete(json, f, file);
      var w1 := ConsumeSpans(json, w, s, Spans(complete, f.consumed), capacity);
      w1.(files := w1.files[s := w1.files[s].(consumed := f.consumed + |complete|, lastMtime := mtime)])
  }

  /** _ensure_cache_current, from the size check on; `file` is what the disk holds. */
  function Refresh(json: Json, w: Watch, s: SessionId, file: Bytes, mtime: int, mark: bool, capacity: nat): (w': Watch)
    requires s in w.files
    ensures s in w'.files && w'.files[s].consumed <= |file|
  {
    MarkEmitted(Advance(json, Reset(w, s, file), s, file, mtime, capacity), s, mark)
  }

  // ---------------------------------------------------------------- resolving bodies

  /** The bytes a locator addresses; a short file gives a short read. */
  function LineAt(file: Bytes, l: Locator): Bytes {
    if l.offset > |file| then [] else if l.offset + l.len > |file| then file[l.offset..]
        else file[l.offset..l.offset + l.len]
  }

  /** Byte `k` of what is read is byte `offset + k` of the file, as far as the file and the locator go. */
  lemma LineAtReads(file: Bytes, l: Locator, k: nat)
    ensures k < |LineAt(file, l)| <==> k < l.len && l.offset + k < |file|
    ensures k < |LineAt(file, l)| ==> LineAt(file, l)[k] == file[l.offset + k]
  {}

  /** _reparse_line_locked: no dedup, but the shared name map. */
  function Reparse(json: Json, names: map<string, string>, file: Bytes, s: SessionId, l: Locator): Parsed {
    Fresh(Decode(json, LineAt(file, l)), names, s)
  }

  type Disk = map<SessionId, Bytes>

  function FileOf(disk: Disk, s: SessionId): Bytes {
    if s in disk then disk[s] else []
  }

  /** One turn of the loop of _resolve_bodies_locked: the body, if any, and what the lookup does to the cache. */
  function ResolveOne(json: Json, w: Watch, disk: Disk, s: SessionId, l: Locator, capacity: nat): (Watch, Option<Event>)
  {
    var hit := Lookup(w.cache, l.id);
    if hit.Some? then (w.(cache := Touch(w.cache, hit.value)), hit)
    else
      var reparsed := Reparse(json, w.names, FileOf(disk, s), s, l);
      var cache := PutAll(w.cache, reparsed.events, capacity);
      (w.(names := reparsed.names, cache := cache), Lookup(cache, l.id))
  }

  /** _resolve_bodies_locked; events whose body is missing are skipped. */
  function Resolve(json: Json, w: Watch, disk: Disk, pairs: seq<(SessionId, Locator)>, capacity: nat): (Watch,
                   seq<Event>)
    decreases |pairs|
  {
    if pairs == [] then (w, [])
    else
      var one := ResolveOne(json, w, disk, pairs[0].0, pairs[0].1, capacity);
      var rest := Resolve(json, one.0, disk, pairs[1..], capacity);
      (rest.0, (if one.1.Some? then [one.1.value] else []) + rest.1)
  }

  /** The locators of one file from a mark on, paired with it. */
  function PairsFrom(s: SessionId, locators: seq<Locator>, from: nat): seq<(SessionId, Locator)>
    requires from <= |locators|
  {
    seq(|locators| - from, i requires 0 <= i < |locators| - from => (s, locators[from + i]))
  }

  // ---------------------------------------------------------------- the locator index

  ghost predicate RefsPoint(w: Watch) {
    forall id :: id in w.refs ==>
      && w.refs[id].0 in w.files
      && w.refs[id].1 < |w.files[w.refs[id].0].locators|
      && w.files[w.refs[id].0].locators[w.refs[id].1].id == id
  }

  ghost predicate LocatorsAreNamed(w: Watch) {
    forall s, i :: s in w.files && 0 <= i < |w.files[s].locators| ==>
      w.files[s].locators[i].id in w.refs && w.refs[w.files[s].locators[i].id] == (s, i)
  }

  /** Event ids are distinct across files, `refs` is the exact inverse of the locator lists, the
      dedup set is exactly the ids held, and no file has emitted more than it indexed. */
  ghost predicate Indexed(w: Watch) {
    && RefsPoint(w) && LocatorsAreNamed(w)
    && w.seen == w.refs.Keys
    && (forall s :: s in w.files ==> w.files[s].emitted <= |w.files[s].locators|)
  }

  /** Within one line, after the parse has moved the dedup set but before its events are indexed. */
  ghost predicate IndexedBut(w: Watch, events: seq<Event>) {
    && Indexed(w.(seen := w.refs.Keys))
    && DistinctIds(events)
    && w.seen == w.refs.Keys + Ids(events)
    && w.refs.Keys !! Ids(events)
  }

  lemma FirstAndRest(events: seq<Event>)
    requires events != [] && DistinctIds(events)
    ensures Ids(events) == {events[0].id} + Ids(events[1..])
    ensures events[0].id !in Ids(events[1..]) && DistinctIds(events[1..])
  {
    assert events == [events[0]] + events[1..];
    forall x | x in events[1..] ensures x.id != events[0].id {
      var i :| 0 <= i < |events[1..]| && events[1..][i] == x;
      assert events[i + 1].id != events[0].id;
    }
  }

  lemma NewIdPoints(w: Watch, s: SessionId, e: Event, span: Span, capacity: nat)
    requires s in w.files && RefsPoint(w)
    ensures RefsPoint(AddEvent(w, s, e, span, capacity))
  {}

  lemma NewIdIsNamed(w: Watch, s: SessionId, e: Event, span: Span, capacity: nat)
    requires s in w.files && LocatorsAreNamed(w) && e.id !in w.refs
    ensures LocatorsAreNamed(AddEvent(w, s, e, span, capacity))
  {}

  lemma NewIdKeepsIndex(w: Watch, s: SessionId, e: Event, span: Span, capacity: nat)
    requires s in w.files && Indexed(w) && e.id !in w.refs
    ensures var w' := AddEvent(w, s, e, span, capacity);
      w'.refs.Keys == w.refs.Keys + {e.id} && Indexed(w'.(seen := w'.refs.Keys))
  {
    NewIdPoints(w, s, e, span, capacity);
    NewIdIsNamed(w, s, e, span, capacity);
  }

  lemma AddEventKeepsIndex(w: Watch, s: SessionId, events: seq<Event>, span: Span, capacity: nat)
    requires s in w.files && events != [] && IndexedBut(w, events)
    ensures IndexedBut(AddEvent(w, s, events[0], span, capacity), events[1..])
  {
    FirstAndRest(events);
    assert events[0].id in Ids(events);
    var w0 := w.(seen := w.refs.Keys);
    NewIdKeepsIndex(w0, s, events[0], span, capacity);
    var w', w1 := AddEvent(w, s, events[0], span, capacity), AddEvent(w0, s, events[0], span, capacity);
    assert w'.(seen := w'.refs.Keys) == w1.(seen := w1.refs.Keys);
  }

  lemma {:induction false} AddEventsKeepIndex(w: Watch, s: SessionId, events: seq<Event>, span: Span, capacity: nat)
    requires s in w.files && IndexedBut(w, events)
    ensures Indexed(AddEvents(w, s, events, span, capacity))
    decreases |events|
  {
    if events == [] {
      assert w.(seen := w.refs.Keys) == w;
    } else {
      AddEventKeepsIndex(w, s, events, span, capacity);
      AddEventsKeepIndex(AddEvent(w, s, events[0], span, capacity), s, events[1..], span, capacity);
    }
  }

  lemma ConsumeLineKeepsIndex(json: Json, w: Watch, s: SessionId, span: Span, capacity: nat)
    requires s in w.files && Indexed(w)
    ensures Indexed(ConsumeLine(json, w, s, span, capacity))
  {
    var record := Decode(json, span.line);
    var before := Parsed([], w.seen, w.names);
    var parsed := ParseRecord(record, before, s);
    DedupOnlyHides(record, before, s);
    var clean := Fresh(record, w.names, s).events;
    assert parsed.events == Unseen(clean, w.seen);
    UnseenIds(clean, w.seen);
    var w1 := w.(seen := parsed.seen, names := parsed.names);
    assert w1.(seen := w1.refs.Keys) == w.(names := parsed.names);
    AddEventsKeepIndex(w1, s, parsed.events, span, capacity);
  }

  lemma IdsCons(e: Event, rest: seq<Event>)
    ensures Ids([e] + rest) == {e.id} + Ids(rest)
  {}

  lemma {:induction false} UnseenIds(events: seq<Event>, seen: set<EventId>)
    requires DistinctIds(events)
    ensures DistinctIds(Unseen(events, seen))
    ensures Ids(Unseen(events, seen)) == Ids(events) - seen
  {
    if events != [] {
      var rest := Unseen(events[1..], seen);
      FirstAndRest(events);
      UnseenIds(events[1..], seen);
      IdsCons(events[0], rest);
      FirstIsNew(events, seen);
      assert Unseen(events, seen) == (if events[0].id in seen then [] else [events[0]]) + rest;
    }
  }

  lemma FirstIsNew(events: seq<Event>, seen: set<EventId>)
    requires events != [] && DistinctIds(events)
    ensures forall e :: e in Unseen(events[1..], seen) ==> e.id != events[0].id
  {
    forall e | e in Unseen(events[1..], seen) ensures e.id != events[0].id {
      UnseenMember(events[1..], seen, e);
      var k :| 0 <= k < |events[1..]| && events[1..][k] == e;
      assert events[k + 1].id != events[0].id;
    }
  }

  lemma {:induction false} ConsumeSpansKeepIndex(json: Json, w: Watch, s: SessionId, spans: seq<Span>, capacity: nat)
    requires s in w.files && Indexed(w)
    ensures Indexed(ConsumeSpans(json, w, s, spans, capacity))
    decreases |spans|
  {
    if spans != [] {
      ConsumeLineKeepsIndex(json, w, s, spans[0], capacity);
      ConsumeSpansKeepIndex(json, ConsumeLine(json, w, s, spans[0], capacity), s, spans[1..], capacity);
    }
  }

  /** A truncation reset drops exactly the ids that file held. */
  lemma ForgetKeepsIndex(w: Watch, s: SessionId)
    requires s in w.files && Indexed(w)
    ensures Indexed(Forget(w, s))
    ensures forall id :: id in Forget(w, s).refs <==> id in w.refs && w.refs[id].0 != s
  {
    var gone := IdSet(w.files[s].locators);
    forall id | id in w.refs ensures id in gone <==> w.refs[id].0 == s {
      if w.refs[id].0 == s {
        assert w.files[s].locators[w.refs[id].1] in w.files[s].locators;
      }
    }
  }

  lemma AdvanceKeepsIndex(json: Json, w: Watch, s: SessionId, file: Bytes, mtime: int, capacity: nat)
    requires s in w.files && w.files[s].consumed <= |file| && Indexed(w)
    ensures Indexed(Advance(json, w, s, file, mtime, capacity))
  {
    var f := w.files[s];
    ConsumeSpansKeepIndex(json, w, s, Spans(Complete(json, f, file), f.consumed), capacity);
  }

  lemma MarkKeepsIndex(w: Watch, s: SessionId, mark: bool)
    requires Indexed(w) && s in w.files
    ensures Indexed(MarkEmitted(w, s, mark))
  {}

  /** The index invariant survives every refresh, whatever the disk holds: growth, rewrite or truncation. */
  lemma RefreshKeepsIndex(json: Json, w: Watch, s: SessionId, file: Bytes, mtime: int, mark: bool, capacity: nat)
    requires s in w.files && Indexed(w)
    ensures Indexed(Refresh(json, w, s, file, mtime, mark, capacity))
  {
    var w0 := Reset(w, s, file);
    if |file| < w.files[s].consumed {
      ForgetKeepsIndex(w, s);
    }
    AdvanceKeepsIndex(json, w0, s, file, mtime, capacity);
    MarkKeepsIndex(Advance(json, w0, s, file, mtime, capacity), s, mark);
  }

  /** Discovering a session adds an empty file. */
  function Discover(w: Watch, s: SessionId): Watch {
    if s in w.files then w else w.(files := w.files[s := NEW_FILE])
  }
}
