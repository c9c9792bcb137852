/**
 The body cache is invisible: whatever was evicted, a body served is the one re-parsing the
 locator's bytes gives; and the exact condition on a line under which it stays so
 (session_watcher.py, lines 610 to 658).
 */
module WatcherBodies {
  import opened Common
  import opened SessionParser
  import opened RecordEvents
  import opened LineSplitter
  import opened BodyCache
  import opened WatcherModel
  import opened WatcherRefresh
  import opened WatcherEmission

  /** What the line behind a locator parses to on its own. `done` holds each file's consumed bytes. */
  function LineEvents(json: Json, names: map<string, string>, done: Disk, s: SessionId, l: Locator): seq<Event> {
    Reparse(json, names, FileOf(done, s), s, l).events
  }

  /** The body a locator stands for: its event in a fresh parse of its line. */
  function BodyOf(json: Json, names: map<string, string>, done: Disk, s: SessionId, l: Locator): Option<Event> {
    Lookup(LineEvents(json, names, done, s, l), l.id)
  }

  /** One locator is backed by its bytes, and the cache does not contradict them. */
  ghost predicate Sound(json: Json, w: Watch, done: Disk, s: SessionId, l: Locator, capacity: nat) {
    && l.offset + l.len <= |FileOf(done, s)|
    && var events := LineEvents(json, w.names, done, s, l);
    && |events| <= capacity
    && l.id in Ids(events)
    && Reparse(json, w.names, FileOf(done, s), s, l).names == w.names
    && (forall c :: c in w.cache && c.id == l.id ==> c in events)
  }

  /** `e` is among what the line of locator `i` of file `s` yields. */
  ghost predicate Yields(json: Json, w: Watch, done: Disk, s: SessionId, i: int, e: Event) {
    s in w.files && 0 <= i < |w.files[s].locators| && e in LineEvents(json, w.names, done, s, w.files[s].locators[i])
  }

  /** No line behind a locator yields another event under an id of `events`. */
  ghost predicate Agrees(json: Json, w: Watch, done: Disk, events: seq<Event>) {
    forall s, i, e, x :: e in events && Yields(json, w, done, s, i, x) && x.id == e.id ==> x == e
  }

  /** Any two lines behind locators agree on the events both yield. */
  ghost predicate Unanimous(json: Json, w: Watch, done: Disk) {
    forall s, i :: s in w.files && 0 <= i < |w.files[s].locators| ==>
      Agrees(json, w, done, LineEvents(json, w.names, done, s, w.files[s].locators[i]))
  }

  ghost predicate AllSound(json: Json, w: Watch, done: Disk, capacity: nat) {
    forall s, i :: s in w.files && 0 <= i < |w.files[s].locators| ==>
        Sound(json, w, done, s, w.files[s].locators[i], capacity)
  }

  ghost predicate Backed(json: Json, w: Watch, done: Disk, capacity: nat) {
    Bounded(w.cache, capacity) && AllSound(json, w, done, capacity) && Unanimous(json, w, done)
  }

  // ---------------------------------------------------------------- resolving

  lemma HitServes(json: Json, w: Watch, done: Disk, s: SessionId, l: Locator, capacity: nat)
    requires Bounded(w.cache, capacity) && Sound(json, w, done, s, l, capacity) && Lookup(w.cache, l.id).Some?
    ensures var hit := Lookup(w.cache, l.id);
      && hit == BodyOf(json, w.names, done, s, l)
      && Bounded(Touch(w.cache, hit.value), capacity)
      && (forall c :: c in Touch(w.cache, hit.value) ==> c in w.cache)
  {
    FreshIsDistinct(Decode(json, LineAt(FileOf(done, s), l)), w.names, s);
    LookupIs(LineEvents(json, w.names, done, s, l), l.id);
    LookupIs(w.cache, l.id);
    TouchIs(w.cache, Lookup(w.cache, l.id).value, capacity);
  }

  /** The cache gives up what was used longest ago: a body served from it outlives fewer than `capacity`
      others. */
  lemma ServedBodySurvives(json: Json, w: Watch, disk: Disk, s: SessionId, l: Locator, events: seq<Event>,
                           capacity: nat)
    requires Bounded(w.cache, capacity) && Lookup(w.cache, l.id).Some? && |events| < capacity
    requires DistinctIds([Lookup(w.cache, l.id).value] + events)
    ensures var w' := ResolveOne(json, w, disk, s, l, capacity).0;
      Lookup(PutAll(w'.cache, events, capacity), l.id) == Lookup(w.cache, l.id)
  {
    LookupIs(w.cache, l.id);
    UsedBodySurvives(w.cache, Lookup(w.cache, l.id).value, events, capacity);
  }

  lemma MissServes(json: Json, w: Watch, done: Disk, s: SessionId, l: Locator, capacity: nat)
    requires Bounded(w.cache, capacity) && Sound(json, w, done, s, l, capacity)
    ensures var events := LineEvents(json, w.names, done, s, l);
      var cache := PutAll(w.cache, events, capacity);
      && Lookup(cache, l.id).Some? && Lookup(cache, l.id) == BodyOf(json, w.names, done, s, l)
      && Bounded(cache, capacity)
      && (forall c :: c in cache ==> c in events || c in w.cache)
  {
    var events := LineEvents(json, w.names, done, s, l);
    FreshIsDistinct(Decode(json, LineAt(FileOf(done, s), l)), w.names, s);
    PutAllIs(w.cache, events, capacity);
    var k :| 0 <= k < |events| && events[k].id == l.id;
    MissServedIff(w.cache, events, k, capacity);
    LookupIs(events, l.id);
    assert events[k] in events;
  }

  /** The cache may drop anything, and take in anything the lines behind the locators agree with. */
  lemma CacheChangeKeepsBacked(json: Json, w: Watch, w': Watch, done: Disk, events: seq<Event>, capacity: nat)
    requires Backed(json, w, done, capacity) && Agrees(json, w, done, events)
    requires w' == w.(cache := w'.cache) && Bounded(w'.cache, capacity)
    requires forall c :: c in w'.cache ==> c in events || c in w.cache
    ensures Backed(json, w', done, capacity)
  {
    forall s, i | s in w.files && 0 <= i < |w.files[s].locators|
        ensures Sound(json, w', done, s, w.files[s].locators[i], capacity) {
      CacheChangeKeepsSound(json, w, w', done, events, s, i, capacity);
    }
    forall s, i | s in w.files && 0 <= i < |w.files[s].locators|
      ensures Agrees(json, w', done, LineEvents(json, w.names, done, s, w.files[s].locators[i]))
    {
      CacheDoesNotYield(json, w, w', done, LineEvents(json, w.names, done, s, w.files[s].locators[i]));
    }
  }

  lemma CacheDoesNotYield(json: Json, w: Watch, w': Watch, done: Disk, events: seq<Event>)
    requires Agrees(json, w, done, events) && w'.files == w.files && w'.names == w.names
    ensures Agrees(json, w', done, events)
  {
    forall s, i, e, x | e in events && Yields(json, w', done, s, i, x) && x.id == e.id ensures x == e {
      assert Yields(json, w, done, s, i, x);
    }
  }

  lemma CacheChangeKeepsSound(json: Json, w: Watch, w': Watch, done: Disk, events: seq<Event>, s: SessionId, i: nat,
                              capacity: nat)
    requires s in w.files && i < |w.files[s].locators| && Sound(json, w, done, s, w.files[s].locators[i], capacity)
    requires Agrees(json, w, done, events) && w' == w.(cache := w'.cache)
    requires forall c :: c in w'.cache ==> c in events || c in w.cache
    ensures Sound(json, w', done, s, w.files[s].locators[i], capacity)
  {
    var l := w.files[s].locators[i];
    var own := LineEvents(json, w.names, done, s, l);
    forall c | c in w'.cache && c.id == l.id ensures c in own {
      if c !in w.cache {
        var x :| x in own && x.id == l.id;
        assert Yields(json, w, done, s, i, x);
      }
    }
  }

  /** Serving one held locator returns its body and changes nothing but the cache, within bounds. */
  lemma ResolveOneServes(json: Json, w: Watch, disk: Disk, done: Disk, s: SessionId, i: nat, capacity: nat)
    requires Backed(json, w, done, capacity) && Holds(disk, done)
    requires s in w.files && i < |w.files[s].locators|
    ensures var l := w.files[s].locators[i];
      var (w', body) := ResolveOne(json, w, disk, s, l, capacity);
      && body.Some? && body == BodyOf(json, w.names, done, s, l)
      && w' == w.(cache := w'.cache)
      && Backed(json, w', done, capacity)
  {
    var l := w.files[s].locators[i];
    assert Sound(json, w, done, s, l, capacity);
    var w' := ResolveOne(json, w, disk, s, l, capacity).0;
    var events := LineEvents(json, w.names, done, s, l);
    if Lookup(w.cache, l.id).Some? {
      HitServes(json, w, done, s, l, capacity);
    } else {
      ReparseFromDisk(disk, done, s, l);
      MissServes(json, w, done, s, l, capacity);
    }
    CacheChangeKeepsBacked(json, w, w', done, events, capacity);
  }

  /** Every requested body came back, and each is what re-parsing its locator's byte range returns. */
  ghost predicate Serves(json: Json, names: map<string, string>, done: Disk, pairs: seq<(SessionId, Locator)>,
                         events: seq<Event>) {
    |events| == |pairs| && forall k :: 0 <= k < |pairs| ==> ServesOne(json, names, done, pairs[k], events[k])
  }

  ghost predicate ServesOne(json: Json, names: map<string, string>, done: Disk, pair: (SessionId, Locator),
                            event: Event) {
    BodyOf(json, names, done, pair.0, pair.1) == Some(event)
  }

  lemma ServesCons(json: Json, names: map<string, string>, done: Disk, pairs: seq<(SessionId, Locator)>,
                   body: Event, rest: seq<Event>)
    requires pairs != [] && ServesOne(json, names, done, pairs[0], body) && Serves(json, names, done, pairs[1..], rest)
    ensures Serves(json, names, done, pairs, [body] + rest)
  {
    forall k | 0 <= k < |pairs| ensures ServesOne(json, names, done, pairs[k], ([body] + rest)[k]) {
      if k > 0 {
        assert ServesOne(json, names, done, pairs[1..][k - 1], rest[k - 1]);
      }
    }
  }

  /** A served body is what the record on its line tells, answers under the names then known. */
  lemma ServedIsTold(json: Json, names: map<string, string>, done: Disk, pairs: seq<(SessionId, Locator)>,
                     events: seq<Event>, k: nat)
    requires Serves(json, names, done, pairs, events) && k < |pairs|
    ensures var (s, l) := pairs[k];
      && events[k].id == l.id && CalledBy(names, events[k])
      && exists at :: Tells(Decode(json, LineAt(FileOf(done, s), l)), s, at, events[k])
  {
    var (s, l) := pairs[k];
    var events' := LineEvents(json, names, done, s, l);
    assert ServesOne(json, names, done, pairs[k], events[k]);
    LookupIs(events', l.id);
    RecordYieldsWhatItTells(Decode(json, LineAt(FileOf(done, s), l)), names, s);
    assert events[k] in events';
  }

  /** The bounded LRU is invisible: every requested body comes back, none missing, and each is what
      re-parsing its locator's byte range returns; the index and the name map do not move. */
  lemma {:induction false} ResolveServesEveryBody(json: Json, w: Watch, disk: Disk, done: Disk,
                                                  pairs: seq<(SessionId, Locator)>, capacity: nat)
    requires Backed(json, w, done, capacity) && Holds(disk, done) && AllHeld(w, pairs)
    ensures var (w', events) := Resolve(json, w, disk, pairs, capacity);
      && Serves(json, w.names, done, pairs, events)
      && w' == w.(cache := w'.cache)
      && Backed(json, w', done, capacity)
    decreases |pairs|
  {
    if pairs != [] {
      var p := pairs[0];
      assert Held(w, p);
      var i :| 0 <= i < |w.files[p.0].locators| && w.files[p.0].locators[i] == p.1;
      ResolveOneServes(json, w, disk, done, p.0, i, capacity);
      var r := ResolveOne(json, w, disk, p.0, p.1, capacity);
      assert AllHeld(r.0, pairs[1..]) by {
        forall q | q in pairs[1..] ensures Held(r.0, q) {
          assert Held(w, q);
        }
      }
      ResolveServesEveryBody(json, r.0, disk, done, pairs[1..], capacity);
      ServesCons(json, w.names, done, pairs, r.1.value, Resolve(json, r.0, disk, pairs[1..], capacity).1);
    }
  }

  // ---------------------------------------------------------------- consuming a line

  /** The line neither rebinds a tool name nor names a call whose result was already read. */
  ghost predicate NamesHold(json: Json, w: Watch, done: Disk, s: SessionId, line: Bytes) {
    var names := LineParse(json, w, s, line).names;
    && (forall c :: c in w.names ==> c in names && names[c] == w.names[c])
    && (forall t, l :: t in w.files && l in w.files[t].locators ==>
          ResultCalls(Decode(json, LineAt(FileOf(done, t), l))) !! names.Keys - w.names.Keys)
  }

  /** A line that will get a locator yields no other event than the lines already behind locators do,
      under the same id. A line wholly known is never read again, so nothing is asked of it. */
  ghost predicate LineAgrees(json: Json, w: Watch, done: Disk, s: SessionId, line: Bytes) {
    LineParse(json, w, s, line).events != [] ==> Agrees(json, w, done, Fresh(Decode(json, line), w.names, s).events)
  }

  ghost predicate Compatible(json: Json, w: Watch, done: Disk, s: SessionId, line: Bytes) {
    NamesHold(json, w, done, s, line) && LineAgrees(json, w, done, s, line)
  }

  /** For an event that is already indexed, agreeing is being the body its own locator stands for. */
  lemma HeldEventAgreesIff(json: Json, w: Watch, done: Disk, e: Event, capacity: nat)
    requires Indexed(w) && Backed(json, w, done, capacity) && e.id in w.refs
    ensures var (s, i) := w.refs[e.id];
      Agrees(json, w, done, [e]) <==> BodyOf(json, w.names, done, s, w.files[s].locators[i]) == Some(e)
  {
    var (s, i) := w.refs[e.id];
    var l := w.files[s].locators[i];
    var own := LineEvents(json, w.names, done, s, l);
    assert Sound(json, w, done, s, l, capacity);
    FreshIsDistinct(Decode(json, LineAt(FileOf(done, s), l)), w.names, s);
    LookupIs(own, l.id);
    var x := Lookup(own, l.id).value;
    assert Yields(json, w, done, s, i, x);
    assert Agrees(json, w, done, own);
    if x == e {
      forall t, j, y | Yields(json, w, done, t, j, y) && y.id == e.id ensures y == e {}
    } else {
      assert e in [e];
    }
  }

  /** Once a line that yields something is read, a fresh parse of it gives the same events under the
      names then known, and no longer moves them. */
  lemma NewLineSettles(json: Json, w: Watch, s: SessionId, record: Option<Raw>)
    requires ParseRecord(record, Parsed([], w.seen, w.names), s).events != []
    ensures var names := ParseRecord(record, Parsed([], w.seen, w.names), s).names;
      && Fresh(record, names, s).events == Fresh(record, w.names, s).events
      && Fresh(record, names, s).names == names
  {
    var names := ParseRecord(record, Parsed([], w.seen, w.names), s).names;
    NamesMoveTogether(record, w.seen, w.names, s);
    NamesSettle(record, w.names, names, s);
    EventsDependOnResultNames(record, w.names, names, s);
  }

  /** A line that yields something moves the name map exactly as a fresh parse of it would, and a
      record with tool results does not move it at all. */
  lemma NamesMoveTogether(record: Option<Raw>, seen: set<EventId>, names: map<string, string>, s: SessionId)
    requires ParseRecord(record, Parsed([], seen, names), s).events != []
    ensures ParseRecord(record, Parsed([], seen, names), s).names == Fresh(record, names, s).names
    ensures ResultCalls(record) != {} ==> Fresh(record, names, s).names == names
  {
    if record.Some? && record.value.uuid != "" && record.value.timestamp.Some? && record.value.payload.UserRecord? {
      var raw := record.value;
      var ts := raw.timestamp.value;
      var UserRecord(hasUserText, text, isHidden, agentId, results) := raw.payload;
      var event := Event(MakeEventId(raw.uuid, "user"), ts, s, raw.uuid, UserMessage(text));
      var acc, clean := Parsed([], seen, names), Parsed([], {}, names);
      ParseResultsKeepNames(raw, ts, agentId, results, acc, s);
      ParseResultsKeepNames(raw, ts, agentId, results, Emit(acc, event), s);
      ParseResultsKeepNames(raw, ts, agentId, results, clean, s);
      ParseResultsKeepNames(raw, ts, agentId, results, Emit(clean, event), s);
    }
  }

  /** The lines already behind locators yield the same after a line whose names hold. */
  lemma OldLineStays(json: Json, w: Watch, done: Disk, s: SessionId, line: Bytes, t: SessionId, l: Locator,
                     capacity: nat)
    requires t in w.files && l in w.files[t].locators && Sound(json, w, done, t, l, capacity)
    requires NamesHold(json, w, done, s, line)
    ensures var names, done' := LineParse(json, w, s, line).names, Grown(done, s, line);
      && LineAt(FileOf(done', t), l) == LineAt(FileOf(done, t), l) && l.offset + l.len <= |FileOf(done', t)|
      && LineEvents(json, names, done', t, l) == LineEvents(json, w.names, done, t, l)
      && Reparse(json, names, FileOf(done', t), t, l).names == names
  {
    var record, names := Decode(json, LineAt(FileOf(done, t), l)), LineParse(json, w, s, line).names;
    LineAtGrown(done, s, line, t, l);
    EventsDependOnResultNames(record, w.names, names, t);
    NamesSettle(record, w.names, names, t);
  }

  /** The locators of a line read last stand on that line, whose fresh parse is now settled. */
  lemma NewLineIs(json: Json, w: Watch, done: Disk, s: SessionId, span: Span, k: nat)
    requires k < |LineParse(json, w, s, span.line).events|
    requires span.offset == |FileOf(done, s)| && span.len == |span.line|
    ensures var parsed, done' := LineParse(json, w, s, span.line), Grown(done, s, span.line);
      var l := LocatorsOf(parsed.events, span)[k];
      && l.offset + l.len <= |FileOf(done', s)|
      && LineEvents(json, parsed.names, done', s, l) == Fresh(Decode(json, span.line), w.names, s).events
      && Reparse(json, parsed.names, FileOf(done', s), s, l).names == parsed.names
  {
    LineAtEnd(done, s, span, LocatorsOf(LineParse(json, w, s, span.line).events, span)[k]);
    NewLineSettles(json, w, s, Decode(json, span.line));
  }

  lemma NewLocatorIsSound(json: Json, w: Watch, w': Watch, done: Disk, s: SessionId, span: Span, k: nat, l: Locator,
                          capacity: nat)
    requires s in w.files && Took(json, w, s, span, w', capacity) && Bounded(w.cache, capacity)
    requires Fits(json, s, span.line, capacity) && span.offset == |FileOf(done, s)| && span.len == |span.line|
    requires var events := LineParse(json, w, s, span.line).events; k < |events| && l == LocatorsOf(events, span)[k]
    ensures Sound(json, w', Grown(done, s, span.line), s, l, capacity)
  {
    var events := LineParse(json, w, s, span.line).events;
    LineParseIs(json, w, s, span.line);
    NewLineIs(json, w, done, s, span, k);
    FreshIdsIgnoreNames(Decode(json, span.line), w.names, map[], s);
    PutAllIs(w.cache, events, capacity);
    assert events[k] in events;
  }

  lemma OldLocatorStaysSound(json: Json, w: Watch, w': Watch, done: Disk, s: SessionId, span: Span, t: SessionId,
                             l: Locator, capacity: nat)
    requires s in w.files && Took(json, w, s, span, w', capacity) && Bounded(w.cache, capacity)
    requires NamesHold(json, w, done, s, span.line)
    requires t in w.files && l in w.files[t].locators && l.id in w.seen && Sound(json, w, done, t, l, capacity)
    ensures Sound(json, w', Grown(done, s, span.line), t, l, capacity)
  {
    LineParseIs(json, w, s, span.line);
    OldLineStays(json, w, done, s, span.line, t, l, capacity);
    PutAllIs(w.cache, LineParse(json, w, s, span.line).events, capacity);
  }

  lemma HeldIsSound(json: Json, w: Watch, done: Disk, t: SessionId, i: nat, capacity: nat)
    requires Indexed(w) && AllSound(json, w, done, capacity) && t in w.files && i < |w.files[t].locators|
    ensures var l := w.files[t].locators[i];
        l.id in w.seen && l in w.files[t].locators && Sound(json, w, done, t, l, capacity)
  {}

  lemma LocatorStaysSound(json: Json, w: Watch, w': Watch, done: Disk, s: SessionId, span: Span, t: SessionId, i: nat,
                          capacity: nat)
    requires s in w.files && Took(json, w, s, span, w', capacity) && Bounded(w.cache, capacity)
    requires NamesHold(json, w, done, s, span.line)
    requires Fits(json, s, span.line, capacity) && span.offset == |FileOf(done, s)| && span.len == |span.line|
    requires t in w'.files && i < |w'.files[t].locators|
    requires t in w.files && i < |w.files[t].locators| ==>
      w.files[t].locators[i].id in w.seen && Sound(json, w, done, t, w.files[t].locators[i], capacity)
    ensures Sound(json, w', Grown(done, s, span.line), t, w'.files[t].locators[i], capacity)
  {
    var l := w'.files[t].locators[i];
    WhichLocator(w, w', s, LocatorsOf(LineParse(json, w, s, span.line).events, span), t, i);
    if t == s && i >= |w.files[s].locators| {
      NewLocatorIsSound(json, w, w', done, s, span, i - |w.files[s].locators|, l, capacity);
    } else {
      OldLocatorStaysSound(json, w, w', done, s, span, t, l, capacity);
    }
  }

  lemma ConsumeLineKeepsSound(json: Json, w: Watch, w': Watch, done: Disk, s: SessionId, span: Span, capacity: nat)
    requires s in w.files && Took(json, w, s, span, w', capacity) && Indexed(w) && Bounded(w.cache, capacity)
    requires AllSound(json, w, done, capacity) && NamesHold(json, w, done, s, span.line)
    requires Fits(json, s, span.line, capacity) && span.offset == |FileOf(done, s)| && span.len == |span.line|
    ensures AllSound(json, w', Grown(done, s, span.line), capacity)
  {
    forall t, i | t in w'.files && 0 <= i < |w'.files[t].locators|
      ensures Sound(json, w', Grown(done, s, span.line), t, w'.files[t].locators[i], capacity)
    {
      if t in w.files && i < |w.files[t].locators| {
        HeldIsSound(json, w, done, t, i, capacity);
      }
      LocatorStaysSound(json, w, w', done, s, span, t, i, capacity);
    }
  }

  lemma OldStaysYielded(json: Json, w: Watch, done: Disk, s: SessionId, line: Bytes, t: SessionId, l: Locator, e: Event,
                        capacity: nat)
    requires AllSound(json, w, done, capacity) && NamesHold(json, w, done, s, line)
    requires t in w.files && l in w.files[t].locators
    requires e in LineEvents(json, LineParse(json, w, s, line).names, Grown(done, s, line), t, l)
    ensures exists i :: Yields(json, w, done, t, i, e) && w.files[t].locators[i] == l
  {
    var i :| 0 <= i < |w.files[t].locators| && w.files[t].locators[i] == l;
    assert Sound(json, w, done, t, w.files[t].locators[i], capacity);
    OldLineStays(json, w, done, s, line, t, l, capacity);
    assert Yields(json, w, done, t, i, e);
  }

  /** What is yielded after the line was yielded before, from the same line, or is the line's. */
  lemma YieldedAfter(json: Json, w: Watch, w': Watch, done: Disk, s: SessionId, span: Span, t: SessionId, i: nat,
                     e: Event, capacity: nat)
    requires s in w.files && Took(json, w, s, span, w', capacity) && AllSound(json, w, done, capacity)
        && NamesHold(json, w, done, s, span.line)
    requires span.offset == |FileOf(done, s)| && span.len == |span.line|
    requires Yields(json, w', Grown(done, s, span.line), t, i, e)
    ensures (exists k :: Yields(json, w, done, t, k, e))
      || (LineParse(json, w, s, span.line).events != [] && e in Fresh(Decode(json, span.line), w.names, s).events)
  {
    var more := LocatorsOf(LineParse(json, w, s, span.line).events, span);
    WhichLocator(w, w', s, more, t, i);
    if t == s && i >= |w.files[s].locators| {
      NewLineIs(json, w, done, s, span, i - |w.files[s].locators|);
    } else {
      OldStaysYielded(json, w, done, s, span.line, t, w.files[t].locators[i], e, capacity);
    }
  }

  /** Two events yielded after the line under one id are the same: both were there, or are the line's, or
      the line agrees. */
  lemma YieldedAgree(json: Json, w: Watch, w': Watch, done: Disk, s: SessionId, span: Span, t: SessionId, i: nat,
                     e: Event,
                     u: SessionId, j: nat, x: Event, capacity: nat)
    requires s in w.files && Took(json, w, s, span, w', capacity) && AllSound(json, w, done, capacity)
        && Unanimous(json, w, done)
    requires Compatible(json, w, done, s, span.line)
    requires span.offset == |FileOf(done, s)| && span.len == |span.line|
    requires Yields(json, w', Grown(done, s, span.line), t, i, e)
    requires Yields(json, w', Grown(done, s, span.line), u, j, x) && x.id == e.id
    ensures x == e
  {
    var clean := Fresh(Decode(json, span.line), w.names, s).events;
    FreshIsDistinct(Decode(json, span.line), w.names, s);
    YieldedAfter(json, w, w', done, s, span, t, i, e, capacity);
    YieldedAfter(json, w, w', done, s, span, u, j, x, capacity);
    if k :| Yields(json, w, done, t, k, e) {
      assert Agrees(json, w, done, LineEvents(json, w.names, done, t, w.files[t].locators[k]));
    }
  }

  lemma ConsumeLineKeepsUnanimous(json: Json, w: Watch, w': Watch, done: Disk, s: SessionId, span: Span, capacity: nat)
    requires s in w.files && Took(json, w, s, span, w', capacity) && AllSound(json, w, done, capacity)
        && Unanimous(json, w, done)
    requires Compatible(json, w, done, s, span.line)
    requires span.offset == |FileOf(done, s)| && span.len == |span.line|
    ensures Unanimous(json, w', Grown(done, s, span.line))
  {
    var done' := Grown(done, s, span.line);
    forall t, i | t in w'.files && 0 <= i < |w'.files[t].locators|
      ensures Agrees(json, w', done', LineEvents(json, w'.names, done', t, w'.files[t].locators[i]))
    {
      forall u, j, e, x | e in LineEvents(json, w'.names, done', t, w'.files[t].locators[i])
                          && Yields(json, w', done', u, j, x) && x.id == e.id
        ensures x == e
      {
        assert Yields(json, w', done', t, i, e);
        YieldedAgree(json, w, w', done, s, span, t, i, e, u, j, x, capacity);
      }
    }
  }

  /** Consuming a compatible line keeps every held body reproducible from its bytes. */
  lemma ConsumeLineKeepsBacked(json: Json, w: Watch, done: Disk, s: SessionId, span: Span, capacity: nat)
    requires s in w.files && Indexed(w) && Backed(json, w, done, capacity)
    requires Compatible(json, w, done, s, span.line) && Fits(json, s, span.line, capacity)
    requires span.offset == |FileOf(done, s)| && span.len == |span.line|
    ensures Backed(json, ConsumeLine(json, w, s, span, capacity), Grown(done, s, span.line), capacity)
  {
    var w' := ConsumeLine(json, w, s, span, capacity);
    ConsumeLineIs(json, w, s, span, capacity);
    PutAllIs(w.cache, LineParse(json, w, s, span.line).events, capacity);
    ConsumeLineKeepsSound(json, w, w', done, s, span, capacity);
    ConsumeLineKeepsUnanimous(json, w, w', done, s, span, capacity);
  }

  // ---------------------------------------------------------------- whole refreshes

  ghost predicate AllCompatible(json: Json, w: Watch, done: Disk, s: SessionId, spans: seq<Span>, capacity: nat)
    requires s in w.files
    decreases |spans|
  {
    spans != [] ==>
      && Compatible(json, w, done, s, spans[0].line)
      && AllCompatible(json, ConsumeLine(json, w, s, spans[0], capacity), Grown(done, s, spans[0].line), s, spans[1..],
          capacity)
  }

  lemma FirstIsCompatible(json: Json, w: Watch, done: Disk, s: SessionId, spans: seq<Span>, capacity: nat)
    requires s in w.files && spans != [] && AllCompatible(json, w, done, s, spans, capacity)
    ensures Compatible(json, w, done, s, spans[0].line) && s in ConsumeLine(json, w, s, spans[0], capacity).files
    ensures AllCompatible(json, ConsumeLine(json, w, s, spans[0], capacity), Grown(done, s, spans[0].line), s,
        spans[1..], capacity)
  {}

  lemma ConsumeFirst(json: Json, w: Watch, done: Disk, s: SessionId, spans: seq<Span>, capacity: nat)
    returns (w1: Watch, done1: Disk)
    requires s in w.files && s in done && spans != [] && Abut(spans, |done[s]|)
    requires Indexed(w) && Backed(json, w, done, capacity)
    requires AllCompatible(json, w, done, s, spans, capacity) && AllFit(json, s, spans, capacity)
    ensures w1 == ConsumeLine(json, w, s, spans[0], capacity) && done1 == Grown(done, s, spans[0].line)
    ensures s in w1.files && s in done1 && Abut(spans[1..], |done1[s]|)
    ensures Indexed(w1) && Backed(json, w1, done1, capacity)
    ensures AllCompatible(json, w1, done1, s, spans[1..], capacity) && AllFit(json, s, spans[1..], capacity)
  {
    w1, done1 := ConsumeLine(json, w, s, spans[0], capacity), Grown(done, s, spans[0].line);
    assert Fits(json, s, spans[0].line, capacity);
    AbutFirst(done, s, spans);
    FirstIsCompatible(json, w, done, s, spans, capacity);
    ConsumeLineKeepsBacked(json, w, done, s, spans[0], capacity);
    ConsumeLineKeepsIndex(json, w, s, spans[0], capacity);
  }

  lemma {:induction false} ConsumeSpansKeepBacked(json: Json, w: Watch, done: Disk, s: SessionId, spans: seq<Span>,
                                                  capacity: nat)
    requires s in w.files && s in done && Abut(spans, |done[s]|)
    requires Indexed(w) && Backed(json, w, done, capacity)
    requires AllCompatible(json, w, done, s, spans, capacity) && AllFit(json, s, spans, capacity)
    ensures Backed(json, ConsumeSpans(json, w, s, spans, capacity), Grown(done, s, Joined(spans)), capacity)
    decreases |spans|
  {
    if spans == [] {
      GrownByNothing(done, s);
    } else {
      var w1, done1 := ConsumeFirst(json, w, done, s, spans, capacity);
      GrownTwice(done, s, spans[0].line, Joined(spans[1..]));
      ConsumeSpansKeepBacked(json, w1, done1, s, spans[1..], capacity);
    }
  }

  /** Locator `i` of file `s` is the same in both, over the same bytes. */
  ghost predicate SameLocator(w: Watch, done: Disk, w': Watch, done': Disk, s: SessionId, i: nat)
    requires s in w'.files && i < |w'.files[s].locators|
  {
    && s in w.files && i < |w.files[s].locators| && w'.files[s].locators[i] == w.files[s].locators[i]
    && FileOf(done', s) == FileOf(done, s)
  }

  /** Dropping locators, or moving offsets, times and marks, takes nothing from what the others rest on. */
  lemma FewerLocatorsBacked(json: Json, w: Watch, done: Disk, w': Watch, done': Disk, capacity: nat)
    requires Backed(json, w, done, capacity) && w'.names == w.names && w'.cache == w.cache
    requires forall s, i :: s in w'.files && 0 <= i < |w'.files[s].locators| ==> SameLocator(w, done, w', done', s, i)
    ensures Backed(json, w', done', capacity)
  {
    forall s, i | s in w'.files && 0 <= i < |w'.files[s].locators|
        ensures Sound(json, w', done', s, w'.files[s].locators[i], capacity) {
      assert SameLocator(w, done, w', done', s, i);
      assert Sound(json, w, done, s, w.files[s].locators[i], capacity);
    }
    forall s, i | s in w'.files && 0 <= i < |w'.files[s].locators|
      ensures Agrees(json, w', done', LineEvents(json, w'.names, done', s, w'.files[s].locators[i]))
    {
      assert SameLocator(w, done, w', done', s, i);
      var own := LineEvents(json, w.names, done, s, w.files[s].locators[i]);
      assert Agrees(json, w, done, own);
      forall t, j, e, x | e in own && Yields(json, w', done', t, j, x) && x.id == e.id ensures x == e {
        assert SameLocator(w, done, w', done', t, j);
        assert Yields(json, w, done, t, j, x);
      }
    }
  }

  lemma ForgetKeepsBacked(json: Json, w: Watch, done: Disk, s: SessionId, capacity: nat)
    requires s in w.files && Backed(json, w, done, capacity)
    ensures Backed(json, Forget(w, s), done[s := []], capacity)
  {
    FewerLocatorsBacked(json, w, done, Forget(w, s), done[s := []], capacity);
  }

  lemma SameBooksBacked(json: Json, w: Watch, w': Watch, done: Disk, capacity: nat)
    requires Backed(json, w, done, capacity) && SameBooks(w, w')
    ensures Backed(json, w', done, capacity)
  {
    FewerLocatorsBacked(json, w, done, w', done, capacity);
  }

  /** A refresh of compatible lines keeps every held body reproducible from the consumed bytes. */
  lemma AdvanceKeepsBacked(json: Json, w: Watch, done: Disk, s: SessionId, file: Bytes, mtime: int, capacity: nat)
    requires s in w.files && s in done && w.files[s].consumed <= |file| && done[s] == file[..w.files[s].consumed]
    requires Indexed(w) && Backed(json, w, done, capacity)
    requires var spans := Spans(Complete(json, w.files[s], file), w.files[s].consumed);
      AllCompatible(json, w, done, s, spans, capacity) && AllFit(json, s, spans, capacity)
    ensures var w' := Advance(json, w, s, file, mtime, capacity);
      && w'.files[s].consumed <= |file|
      && Backed(json, w', done[s := file[..w'.files[s].consumed]], capacity)
  {
    AdvanceMoves(json, w, done, s, file, mtime, capacity);
    var w' := Advance(json, w, s, file, mtime, capacity);
    if w' != w {
      var spans := Spans(Complete(json, w.files[s], file), w.files[s].consumed);
      SpansAbut(Complete(json, w.files[s], file), w.files[s].consumed);
      ConsumeSpansKeepBacked(json, w, done, s, spans, capacity);
      SameBooksBacked(json, ConsumeSpans(json, w, s, spans, capacity), w', Grown(done, s, Joined(spans)), capacity);
    }
  }

  // ---------------------------------------------------------------- the exact condition

  /** Reads after anything at the old end of the cache has been evicted. */
  ghost predicate ServedAfter(json: Json, w: Watch, done: Disk, evicted: nat, pairs: seq<(SessionId, Locator)>,
                              capacity: nat)
    requires evicted <= |w.cache|
  {
    Serves(json, w.names, done, pairs, Resolve(json, w.(cache := w.cache[evicted..]), done, pairs, capacity).1)
  }

  /** Whatever is evicted next and whatever is read then, each body is the one its bytes give. */
  ghost predicate Invisible(json: Json, w: Watch, done: Disk, capacity: nat) {
    forall n, pairs :: 0 <= n <= |w.cache| && AllHeld(w, pairs) ==> ServedAfter(json, w, done, n, pairs, capacity)
  }

  lemma BackedIsInvisible(json: Json, w: Watch, done: Disk, capacity: nat)
    requires Backed(json, w, done, capacity)
    ensures Invisible(json, w, done, capacity)
  {
    forall n, pairs | 0 <= n <= |w.cache| && AllHeld(w, pairs) ensures ServedAfter(json, w, done, n, pairs, capacity) {
      var w' := w.(cache := w.cache[n..]);
      assert Agrees(json, w, done, []);
      CacheChangeKeepsBacked(json, w, w', done, [], capacity);
      forall p | p in pairs ensures Held(w', p) {
        assert Held(w, p);
      }
      ResolveServesEveryBody(json, w', done, done, pairs, capacity);
    }
  }

  /** After a miss, every event of the re-read line is served from that line, whichever line its own
      locator names. */
  lemma MissServesItsWholeLine(json: Json, w: Watch, disk: Disk, s: SessionId, l: Locator, e: Event, t: SessionId,
                               m: Locator, capacity: nat)
    requires Bounded(w.cache, capacity) && Lookup(w.cache, l.id).None?
    requires var events := LineEvents(json, w.names, disk, s, l); |events| <= capacity && e in events && e.id == m.id
    ensures var one := ResolveOne(json, w, disk, s, l, capacity);
      ResolveOne(json, one.0, disk, t, m, capacity).1 == Some(e) && (e.id == l.id ==> one.1 == Some(e))
  {
    var events := LineEvents(json, w.names, disk, s, l);
    var k :| 0 <= k < |events| && events[k] == e;
    FreshIsDistinct(Decode(json, LineAt(FileOf(disk, s), l)), w.names, s);
    MissServedIff(w.cache, events, k, capacity);
  }

  /** And the names its messages give their calls are known from then on. */
  lemma MissTeachesItsNames(json: Json, w: Watch, disk: Disk, s: SessionId, l: Locator, capacity: nat, call: string)
    requires Lookup(w.cache, l.id).None?
    ensures NameOf(ResolveOne(json, w, disk, s, l, capacity).0.names, call)
         == NameAfter(w.names, LineEvents(json, w.names, disk, s, l), call)
  {
    RecordNames(Decode(json, LineAt(FileOf(disk, s), l)), s, w.names, Parsed([], {}, w.names));
  }

  /** Two held locators, one of whose lines yields something else under the id of the other: with
      neither in the cache, reading the one and then the other serves a wrong body. */
  lemma DissentIsVisible(json: Json, w: Watch, done: Disk, s: SessionId, l: Locator, e: Event, t: SessionId, m: Locator,
                         capacity: nat)
    requires Held(w, (s, l)) && Held(w, (t, m)) && |LineEvents(json, w.names, done, s, l)| <= capacity
    requires e in LineEvents(json, w.names, done, s, l) && e.id == m.id && BodyOf(json, w.names, done, t, m) != Some(e)
    requires Lookup(LineEvents(json, w.names, done, s, l), l.id).Some?
    ensures !Invisible(json, w, done, capacity)
  {
    var w0 := w.(cache := []);
    var events := LineEvents(json, w.names, done, s, l);
    LookupIs(events, l.id);
    MissServesItsWholeLine(json, w0, done, s, l, Lookup(events, l.id).value, s, l, capacity);
    MissServesItsWholeLine(json, w0, done, s, l, e, t, m, capacity);
    ResolveTwo(json, w0, done, (s, l), (t, m), capacity);
    assert w.cache[|w.cache|..] == [];
    assert AllHeld(w, [(s, l), (t, m)]);
    assert !ServedAfter(json, w, done, |w.cache|, [(s, l), (t, m)], capacity);
  }

  lemma ResolveTwo(json: Json, w: Watch, disk: Disk, p: (SessionId, Locator), q: (SessionId, Locator), capacity: nat)
    requires ResolveOne(json, w, disk, p.0, p.1, capacity).1.Some?
    requires ResolveOne(json, ResolveOne(json, w, disk, p.0, p.1, capacity).0, disk, q.0, q.1, capacity).1.Some?
    ensures var one := ResolveOne(json, w, disk, p.0, p.1, capacity);
      Resolve(json, w, disk, [p, q], capacity).1
          == [one.1.value, ResolveOne(json, one.0, disk, q.0, q.1, capacity).1.value]
  {
    assert [p, q][1..] == [q] && [q][1..] == [];
    var one := ResolveOne(json, w, disk, p.0, p.1, capacity);
    var two := ResolveOne(json, one.0, disk, q.0, q.1, capacity);
    assert Resolve(json, two.0, disk, [], capacity).1 == [];
    assert Resolve(json, one.0, disk, [q], capacity).1 == [two.1.value];
  }

  /** Locator `k` of a line just read is held, and stands for the event it was made from. */
  lemma NewLocatorStands(json: Json, w: Watch, done: Disk, s: SessionId, span: Span, k: nat, capacity: nat)
    requires s in w.files && k < |LineParse(json, w, s, span.line).events|
    requires span.offset == |FileOf(done, s)| && span.len == |span.line|
    ensures var w', done' := ConsumeLine(json, w, s, span, capacity), Grown(done, s, span.line);
      var events := LineParse(json, w, s, span.line).events;
      var l := LocatorsOf(events, span)[k];
      && Held(w', (s, l)) && l.id == events[k].id
      && LineEvents(json, w'.names, done', s, l) == Fresh(Decode(json, span.line), w.names, s).events
      && BodyOf(json, w'.names, done', s, l) == Some(events[k])
  {
    var events := LineParse(json, w, s, span.line).events;
    ConsumeLineIs(json, w, s, span, capacity);
    LineParseIs(json, w, s, span.line);
    NewLineIs(json, w, done, s, span, k);
    var w' := ConsumeLine(json, w, s, span, capacity);
    assert w'.files[s].locators[|w.files[s].locators| + k] == LocatorsOf(events, span)[k];
    FreshIsDistinct(Decode(json, span.line), w.names, s);
    assert events[k] in events;
    LookupIs(Fresh(Decode(json, span.line), w.names, s).events, events[k].id);
  }

  lemma OldLocatorStands(json: Json, w: Watch, done: Disk, s: SessionId, span: Span, t: SessionId, i: nat,
                         capacity: nat)
    requires s in w.files && AllSound(json, w, done, capacity) && NamesHold(json, w, done, s, span.line)
    requires t in w.files && i < |w.files[t].locators|
    ensures var w', done' := ConsumeLine(json, w, s, span, capacity), Grown(done, s, span.line);
      var l := w.files[t].locators[i];
      Held(w', (t, l)) && LineEvents(json, w'.names, done', t, l) == LineEvents(json, w.names, done, t, l)
  {
    var l := w.files[t].locators[i];
    assert Sound(json, w, done, t, l, capacity);
    ConsumeLineIs(json, w, s, span, capacity);
    OldLineStays(json, w, done, s, span.line, t, l, capacity);
    var w' := ConsumeLine(json, w, s, span, capacity);
    assert w'.files[t].locators[i] == l;
  }

  /** What any line yields under an indexed id is the body of that id's own locator. */
  lemma YieldedIsOwnBody(json: Json, w: Watch, done: Disk, t: SessionId, i: int, x: Event, capacity: nat)
    requires Indexed(w) && Backed(json, w, done, capacity) && Yields(json, w, done, t, i, x) && x.id in w.refs
    ensures var (u, j) := w.refs[x.id]; BodyOf(json, w.names, done, u, w.files[u].locators[j]) == Some(x)
  {
    var (u, j) := w.refs[x.id];
    var m := w.files[u].locators[j];
    var own := LineEvents(json, w.names, done, u, m);
    assert Sound(json, w, done, u, m, capacity);
    assert Agrees(json, w, done, own);
    LookupIs(own, x.id);
  }

  /** The line yields something else under an id that is indexed elsewhere. */
  lemma KnownDissent(json: Json, w: Watch, done: Disk, s: SessionId, span: Span, e: Event, t: SessionId, i: int,
                     x: Event, capacity: nat)
    requires s in w.files && Indexed(w) && Backed(json, w, done, capacity)
    requires NamesHold(json, w, done, s, span.line) && Fits(json, s, span.line, capacity)
    requires span.offset == |FileOf(done, s)| && span.len == |span.line|
    requires LineParse(json, w, s, span.line).events != [] && e in Fresh(Decode(json, span.line), w.names, s).events
    requires Yields(json, w, done, t, i, x) && x.id == e.id && x != e && e.id in w.refs
    ensures !Invisible(json, ConsumeLine(json, w, s, span, capacity), Grown(done, s, span.line), capacity)
  {
    var (u, j) := w.refs[e.id];
    YieldedIsOwnBody(json, w, done, t, i, x, capacity);
    KnownIsServedWrong(json, w, done, s, span, e, u, j, capacity);
  }

  lemma KnownIsServedWrong(json: Json, w: Watch, done: Disk, s: SessionId, span: Span, e: Event, u: SessionId, j: nat,
                           capacity: nat)
    requires s in w.files && AllSound(json, w, done, capacity)
    requires NamesHold(json, w, done, s, span.line) && Fits(json, s, span.line, capacity)
    requires span.offset == |FileOf(done, s)| && span.len == |span.line|
    requires LineParse(json, w, s, span.line).events != [] && e in Fresh(Decode(json, span.line), w.names, s).events
    requires u in w.files && j < |w.files[u].locators| && w.files[u].locators[j].id == e.id
    requires BodyOf(json, w.names, done, u, w.files[u].locators[j]) != Some(e)
    ensures !Invisible(json, ConsumeLine(json, w, s, span, capacity), Grown(done, s, span.line), capacity)
  {
    var w', done' := ConsumeLine(json, w, s, span, capacity), Grown(done, s, span.line);
    var events := LineParse(json, w, s, span.line).events;
    OldLocatorStands(json, w, done, s, span, u, j, capacity);
    NewLocatorStands(json, w, done, s, span, 0, capacity);
    FreshIdsIgnoreNames(Decode(json, span.line), w.names, map[], s);
    DissentIsVisible(json, w', done', s, LocatorsOf(events, span)[0], e, u, w.files[u].locators[j], capacity);
  }

  /** A line behind a locator yields something else under an id the new line brings in. */
  lemma NewDissent(json: Json, w: Watch, done: Disk, s: SessionId, span: Span, e: Event, t: SessionId, i: int, x: Event,
                   capacity: nat)
    requires s in w.files && Indexed(w) && Backed(json, w, done, capacity) && NamesHold(json, w, done, s, span.line)
    requires span.offset == |FileOf(done, s)| && span.len == |span.line|
    requires e in LineParse(json, w, s, span.line).events
    requires Yields(json, w, done, t, i, x) && x.id == e.id && x != e
    ensures !Invisible(json, ConsumeLine(json, w, s, span, capacity), Grown(done, s, span.line), capacity)
  {
    var w', done' := ConsumeLine(json, w, s, span, capacity), Grown(done, s, span.line);
    var events := LineParse(json, w, s, span.line).events;
    var k :| 0 <= k < |events| && events[k] == e;
    var l := w.files[t].locators[i];
    assert Sound(json, w, done, t, l, capacity);
    LookupIs(LineEvents(json, w.names, done, t, l), l.id);
    OldLocatorStands(json, w, done, s, span, t, i, capacity);
    NewLocatorStands(json, w, done, s, span, k, capacity);
    DissentIsVisible(json, w', done', t, l, x, s, LocatorsOf(events, span)[k], capacity);
  }

  /** Exactly which lines keep the cache invisible, among those that fit it and whose tool names hold:
      the lines that agree with every line behind a locator on the events both yield. After any other
      line, some evictions and reads serve a body its locator's bytes do not give. */
  lemma LineKeepsCacheInvisibleIff(json: Json, w: Watch, done: Disk, s: SessionId, span: Span, capacity: nat)
    requires s in w.files && Indexed(w) && Backed(json, w, done, capacity)
    requires NamesHold(json, w, done, s, span.line) && Fits(json, s, span.line, capacity)
    requires span.offset == |FileOf(done, s)| && span.len == |span.line|
    ensures Invisible(json, ConsumeLine(json, w, s, span, capacity), Grown(done, s, span.line), capacity)
       <==> LineAgrees(json, w, done, s, span.line)
  {
    var clean := Fresh(Decode(json, span.line), w.names, s).events;
    if LineAgrees(json, w, done, s, span.line) {
      ConsumeLineKeepsBacked(json, w, done, s, span, capacity);
      BackedIsInvisible(json, ConsumeLine(json, w, s, span, capacity), Grown(done, s, span.line), capacity);
    } else {
      var t, i, e, x :| e in clean && Yields(json, w, done, t, i, x) && x.id == e.id && x != e;
      if e.id in w.refs {
        KnownDissent(json, w, done, s, span, e, t, i, x, capacity);
      } else {
        LineParseIs(json, w, s, span.line);
        UnseenMember(clean, w.seen, e);
        NewDissent(json, w, done, s, span, e, t, i, x, capacity);
      }
    }
  }
}
