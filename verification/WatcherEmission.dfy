/**
 Every indexed event can be handed out: whatever was evicted and whatever tool names are bound by then,
 re-reading a locator's bytes finds the event of that id, as long as the events of one line fit in
 the cache together (session_watcher.py, lines 610 to 658).
 */
module WatcherEmission {
  import opened Common
  import opened SessionParser
  import opened LineSplitter
  import opened BodyCache
  import opened WatcherModel
  import opened WatcherRefresh

  /** The ids a line yields on its own; no tool name enters. */
  function LineIds(json: Json, s: SessionId, line: Bytes): seq<EventId> {
    IdsOf(Fresh(Decode(json, line), map[], s).events)
  }

  /** The one hypothesis on a line: its events fit in the cache together. */
  predicate Fits(json: Json, s: SessionId, line: Bytes, capacity: nat) {
    |LineIds(json, s, line)| <= capacity
  }

  ghost predicate AllFit(json: Json, s: SessionId, spans: seq<Span>, capacity: nat) {
    forall i :: 0 <= i < |spans| ==> Fits(json, s, spans[i].line, capacity)
  }

  /** The locator's bytes are consumed, and they yield its id. `done` holds each file's consumed bytes. */
  ghost predicate Readable(json: Json, done: Disk, s: SessionId, l: Locator, capacity: nat) {
    && l.offset + l.len <= |FileOf(done, s)|
    && Fits(json, s, LineAt(FileOf(done, s), l), capacity)
    && l.id in LineIds(json, s, LineAt(FileOf(done, s), l))
  }

  ghost predicate AllReadable(json: Json, w: Watch, done: Disk, capacity: nat) {
    && Bounded(w.cache, capacity)
    && forall s, i :: s in w.files && 0 <= i < |w.files[s].locators| ==>
        Readable(json, done, s, w.files[s].locators[i], capacity)
  }

  /** The disk still holds every consumed byte. */
  ghost predicate Holds(disk: Disk, done: Disk) {
    forall s :: s in done ==> done[s] <= FileOf(disk, s)
  }

  lemma ReparseFromDisk(disk: Disk, done: Disk, s: SessionId, l: Locator)
    requires Holds(disk, done) && l.offset + l.len <= |FileOf(done, s)|
    ensures LineAt(FileOf(disk, s), l) == LineAt(FileOf(done, s), l)
  {
    if s in done {
      assert done[s] <= FileOf(disk, s);
    }
  }

  lemma FreshIsDistinct(record: Option<Raw>, names: map<string, string>, s: SessionId)
    ensures DistinctIds(Fresh(record, names, s).events)
  {
    DedupOnlyHides(record, Parsed([], {}, names), s);
  }

  // ---------------------------------------------------------------- resolving

  lemma MissFinds(json: Json, w: Watch, file: Bytes, s: SessionId, l: Locator, capacity: nat)
    requires Bounded(w.cache, capacity)
    requires Fits(json, s, LineAt(file, l), capacity) && l.id in LineIds(json, s, LineAt(file, l))
    ensures var cache := PutAll(w.cache, Reparse(json, w.names, file, s, l).events, capacity);
      Bounded(cache, capacity) && Lookup(cache, l.id).Some?
  {
    var record := Decode(json, LineAt(file, l));
    var events := Reparse(json, w.names, file, s, l).events;
    FreshIsDistinct(record, w.names, s);
    FreshIdsIgnoreNames(record, w.names, map[], s);
    IdInIdsOf(events, l.id);
    var k :| 0 <= k < |events| && events[k].id == l.id;
    PutAllIs(w.cache, events, capacity);
    MissServedIff(w.cache, events, k, capacity);
  }

  /** Hit or miss, a readable locator gets a body of its own id; only the cache and the names may move. */
  lemma ResolveOneFinds(json: Json, w: Watch, disk: Disk, done: Disk, s: SessionId, l: Locator, capacity: nat)
    requires Bounded(w.cache, capacity) && Readable(json, done, s, l, capacity) && Holds(disk, done)
    ensures var (w', body) := ResolveOne(json, w, disk, s, l, capacity);
      && body.Some? && body.value.id == l.id
      && w' == w.(cache := w'.cache, names := w'.names) && Bounded(w'.cache, capacity)
  {
    LookupIs(w.cache, l.id);
    if Lookup(w.cache, l.id).Some? {
      TouchIs(w.cache, Lookup(w.cache, l.id).value, capacity);
    } else {
      ReparseFromDisk(disk, done, s, l);
      MissFinds(json, w, FileOf(disk, s), s, l, capacity);
      LookupIs(PutAll(w.cache, Reparse(json, w.names, FileOf(disk, s), s, l).events, capacity), l.id);
    }
  }

  ghost predicate Held(w: Watch, pair: (SessionId, Locator)) {
    pair.0 in w.files && pair.1 in w.files[pair.0].locators
  }

  ghost predicate AllHeld(w: Watch, pairs: seq<(SessionId, Locator)>) {
    forall p :: p in pairs ==> Held(w, p)
  }

  function PairIds(pairs: seq<(SessionId, Locator)>): seq<EventId> {
    seq(|pairs|, i requires 0 <= i < |pairs| => pairs[i].1.id)
  }

  lemma IdsOfFirst(pairs: seq<(SessionId, Locator)>, body: Event, rest: seq<Event>)
    requires pairs != [] && body.id == pairs[0].1.id && IdsOf(rest) == PairIds(pairs[1..])
    ensures IdsOf([body] + rest) == PairIds(pairs)
  {
    assert IdsOf([body] + rest) == [body.id] + IdsOf(rest);
    assert PairIds(pairs) == [pairs[0].1.id] + PairIds(pairs[1..]);
  }

  lemma ResolveFirst(json: Json, w: Watch, disk: Disk, done: Disk, pairs: seq<(SessionId, Locator)>, capacity: nat)
    returns (w1: Watch, body: Event)
    requires pairs != [] && AllReadable(json, w, done, capacity) && Holds(disk, done) && AllHeld(w, pairs)
    ensures ResolveOne(json, w, disk, pairs[0].0, pairs[0].1, capacity) == (w1, Some(body)) && body.id == pairs[0].1.id
    ensures w1 == w.(cache := w1.cache, names := w1.names)
    ensures AllReadable(json, w1, done, capacity) && AllHeld(w1, pairs[1..])
  {
    var p := pairs[0];
    assert Held(w, p);
    ResolveOneFinds(json, w, disk, done, p.0, p.1, capacity);
    var r := ResolveOne(json, w, disk, p.0, p.1, capacity);
    w1, body := r.0, r.1.value;
    forall q | q in pairs[1..] ensures Held(w1, q) {
      assert Held(w, q);
    }
  }

  /** None is missing: the bodies that come back are those of the ids asked for, one each and in order. */
  lemma {:induction false} ResolveFindsAll(json: Json, w: Watch, disk: Disk, done: Disk,
                                           pairs: seq<(SessionId, Locator)>, capacity: nat)
    requires AllReadable(json, w, done, capacity) && Holds(disk, done) && AllHeld(w, pairs)
    ensures var (w', events) := Resolve(json, w, disk, pairs, capacity);
      && IdsOf(events) == PairIds(pairs)
      && w' == w.(cache := w'.cache, names := w'.names) && AllReadable(json, w', done, capacity)
    decreases |pairs|
  {
    if pairs != [] {
      var w1, body := ResolveFirst(json, w, disk, done, pairs, capacity);
      ResolveFindsAll(json, w1, disk, done, pairs[1..], capacity);
      IdsOfFirst(pairs, body, Resolve(json, w1, disk, pairs[1..], capacity).1);
    }
  }

  // ---------------------------------------------------------------- what keeps locators readable

  lemma AddedIsReadable(json: Json, w: Watch, done: Disk, s: SessionId, span: Span, k: nat, capacity: nat)
    requires s in w.files && Fits(json, s, span.line, capacity)
    requires span.offset == |FileOf(done, s)| && span.len == |span.line|
    requires k < |LineParse(json, w, s, span.line).events|
    ensures Readable(json, Grown(done, s, span.line), s, LocatorsOf(LineParse(json, w, s, span.line).events, span)[k],
        capacity)
  {
    var record, events := Decode(json, span.line), LineParse(json, w, s, span.line).events;
    var l := LocatorsOf(events, span)[k];
    LineAtEnd(done, s, span, l);
    LineParseIs(json, w, s, span.line);
    var clean := Fresh(record, w.names, s).events;
    assert events[k] in clean;
    IdInIdsOf(clean, l.id);
    FreshIdsIgnoreNames(record, w.names, map[], s);
  }

  lemma LocatorStaysReadable(json: Json, w: Watch, w': Watch, done: Disk, s: SessionId, span: Span, t: SessionId,
                             i: nat, capacity: nat)
    requires s in w.files && Took(json, w, s, span, w', capacity) && AllReadable(json, w, done, capacity)
        && Fits(json, s, span.line, capacity)
    requires span.offset == |FileOf(done, s)| && span.len == |span.line|
    requires t in w'.files
    requires i < |w'.files[t].locators|
    ensures Readable(json, Grown(done, s, span.line), t, w'.files[t].locators[i], capacity)
  {
    var more := LocatorsOf(LineParse(json, w, s, span.line).events, span);
    WhichLocator(w, w', s, more, t, i);
    if t == s && i >= |w.files[s].locators| {
      AddedIsReadable(json, w, done, s, span, i - |w.files[s].locators|, capacity);
    } else {
      assert Readable(json, done, t, w.files[t].locators[i], capacity);
      LineAtGrown(done, s, span.line, t, w.files[t].locators[i]);
    }
  }

  lemma ConsumeLineKeepsReadable(json: Json, w: Watch, done: Disk, s: SessionId, span: Span, capacity: nat)
    requires s in w.files && AllReadable(json, w, done, capacity) && Fits(json, s, span.line, capacity)
    requires span.offset == |FileOf(done, s)| && span.len == |span.line|
    ensures AllReadable(json, ConsumeLine(json, w, s, span, capacity), Grown(done, s, span.line), capacity)
    ensures s in ConsumeLine(json, w, s, span, capacity).files
  {
    ConsumeLineIs(json, w, s, span, capacity);
    PutAllIs(w.cache, LineParse(json, w, s, span.line).events, capacity);
    var w' := ConsumeLine(json, w, s, span, capacity);
    forall t, i | t in w'.files && 0 <= i < |w'.files[t].locators|
      ensures Readable(json, Grown(done, s, span.line), t, w'.files[t].locators[i], capacity)
    {
      LocatorStaysReadable(json, w, w', done, s, span, t, i, capacity);
    }
  }

  lemma ConsumeFirstReadable(json: Json, w: Watch, done: Disk, s: SessionId, spans: seq<Span>, capacity: nat)
    returns (w1: Watch, done1: Disk)
    requires s in w.files && s in done && spans != [] && Abut(spans, |done[s]|)
    requires AllReadable(json, w, done, capacity) && AllFit(json, s, spans, capacity)
    ensures w1 == ConsumeLine(json, w, s, spans[0], capacity) && done1 == Grown(done, s, spans[0].line)
    ensures s in w1.files && s in done1 && Abut(spans[1..], |done1[s]|)
    ensures AllReadable(json, w1, done1, capacity) && AllFit(json, s, spans[1..], capacity)
  {
    w1, done1 := ConsumeLine(json, w, s, spans[0], capacity), Grown(done, s, spans[0].line);
    assert Fits(json, s, spans[0].line, capacity);
    AbutFirst(done, s, spans);
    ConsumeLineKeepsReadable(json, w, done, s, spans[0], capacity);
  }

  lemma {:induction false} ConsumeSpansKeepReadable(json: Json, w: Watch, done: Disk, s: SessionId, spans: seq<Span>,
                                                    capacity: nat)
    requires s in w.files && s in done && Abut(spans, |done[s]|)
    requires AllReadable(json, w, done, capacity) && AllFit(json, s, spans, capacity)
    ensures AllReadable(json, ConsumeSpans(json, w, s, spans, capacity), Grown(done, s, Joined(spans)), capacity)
    decreases |spans|
  {
    if spans == [] {
      GrownByNothing(done, s);
    } else {
      var w1, done1 := ConsumeFirstReadable(json, w, done, s, spans, capacity);
      ConsumeSpansKeepReadable(json, w1, done1, s, spans[1..], capacity);
      GrownTwice(done, s, spans[0].line, Joined(spans[1..]));
    }
  }

  lemma SameBooksReadable(json: Json, w: Watch, w': Watch, done: Disk, capacity: nat)
    requires AllReadable(json, w, done, capacity) && SameBooks(w, w')
    ensures AllReadable(json, w', done, capacity)
  {}

  /** A refresh whose lines fit keeps every locator readable. */
  lemma AdvanceKeepsReadable(json: Json, w: Watch, done: Disk, s: SessionId, file: Bytes, mtime: int, capacity: nat)
    requires s in w.files && s in done && w.files[s].consumed <= |file| && done[s] == file[..w.files[s].consumed]
    requires AllReadable(json, w, done, capacity)
    requires AllFit(json, s, Spans(Complete(json, w.files[s], file), w.files[s].consumed), capacity)
    ensures var w' := Advance(json, w, s, file, mtime, capacity);
      AllReadable(json, w', done[s := file[..w'.files[s].consumed]], capacity)
  {
    AdvanceMoves(json, w, done, s, file, mtime, capacity);
    var w' := Advance(json, w, s, file, mtime, capacity);
    if w' != w {
      var spans := Spans(Complete(json, w.files[s], file), w.files[s].consumed);
      SpansAbut(Complete(json, w.files[s], file), w.files[s].consumed);
      ConsumeSpansKeepReadable(json, w, done, s, spans, capacity);
      SameBooksReadable(json, ConsumeSpans(json, w, s, spans, capacity), w', Grown(done, s, Joined(spans)), capacity);
    }
  }

  lemma ForgetKeepsReadable(json: Json, w: Watch, done: Disk, s: SessionId, capacity: nat)
    requires s in w.files && AllReadable(json, w, done, capacity)
    ensures AllReadable(json, Forget(w, s), done[s := []], capacity)
  {
    forall t, i | t in Forget(w, s).files && 0 <= i < |Forget(w, s).files[t].locators|
      ensures Readable(json, done[s := []], t, Forget(w, s).files[t].locators[i], capacity)
    {
      assert Readable(json, done, t, w.files[t].locators[i], capacity);
    }
  }

  lemma DiscoverKeepsReadable(json: Json, w: Watch, done: Disk, s: SessionId, capacity: nat)
    requires s !in w.files && AllReadable(json, w, done, capacity)
    ensures AllReadable(json, Discover(w, s), done[s := []], capacity)
  {
    forall t, i | t in Discover(w, s).files && 0 <= i < |Discover(w, s).files[t].locators|
      ensures Readable(json, done[s := []], t, Discover(w, s).files[t].locators[i], capacity)
    {
      assert Readable(json, done, t, w.files[t].locators[i], capacity);
    }
  }
}
