/**
 How a refresh moves the watcher's books: line by line, each appending to one file's locators
 (session_watcher.py, lines 694 to 757). Nothing here depends on the cache or the tool names.
 */
module WatcherRefresh {
  import opened SessionParser
  import opened LineSplitter
  import opened BodyCache
  import opened WatcherModel

  // ---------------------------------------------------------------- one line

  function LocatorsOf(events: seq<Event>, span: Span): seq<Locator> {
    seq(|events|, i requires 0 <= i < |events| => Locator(events[i].id, events[i].timestamp, span.offset, span.len))
  }

  lemma {:induction false} AddEventsIs(w: Watch, s: SessionId, events: seq<Event>, span: Span, capacity: nat)
    requires s in w.files
    ensures var w' := AddEvents(w, s, events, span, capacity);
      && w'.files == w.files[s := w.files[s].(locators := w.files[s].locators + LocatorsOf(events, span))]
      && w'.cache == PutAll(w.cache, events, capacity)
      && w'.names == w.names && w'.seen == w.seen
    decreases |events|
  {
    var f := w.files[s];
    if events == [] {
      assert LocatorsOf(events, span) == [];
      assert f.locators + [] == f.locators;
    } else {
      var head := Locator(events[0].id, events[0].timestamp, span.offset, span.len);
      assert LocatorsOf(events, span) == [head] + LocatorsOf(events[1..], span);
      assert f.locators + [head] + LocatorsOf(events[1..], span) == f.locators + LocatorsOf(events, span);
      AddEventsIs(AddEvent(w, s, events[0], span, capacity), s, events[1..], span, capacity);
      PutAllCons(w.cache, events, capacity);
    }
  }

  function Grown(done: Disk, s: SessionId, line: Bytes): Disk {
    done[s := FileOf(done, s) + line]
  }

  /** What one line parses to against the shared dedup set and names. */
  function LineParse(json: Json, w: Watch, s: SessionId, line: Bytes): Parsed {
    ParseRecord(Decode(json, line), Parsed([], w.seen, w.names), s)
  }

  /** A line appends a locator for each event not seen before, in order, and caches those events. */
  ghost predicate Took(json: Json, w: Watch, s: SessionId, span: Span, w': Watch, capacity: nat)
    requires s in w.files
  {
    var parsed := LineParse(json, w, s, span.line);
    && w'.files == w.files[s := w.files[s].(locators := w.files[s].locators + LocatorsOf(parsed.events, span))]
    && w'.cache == PutAll(w.cache, parsed.events, capacity)
    && w'.names == parsed.names && w'.seen == parsed.seen
  }

  lemma ConsumeLineIs(json: Json, w: Watch, s: SessionId, span: Span, capacity: nat)
    requires s in w.files
    ensures Took(json, w, s, span, ConsumeLine(json, w, s, span, capacity), capacity)
  {
    var parsed := LineParse(json, w, s, span.line);
    AddEventsIs(w.(seen := parsed.seen, names := parsed.names), s, parsed.events, span, capacity);
  }

  /** Locator `k` of a line points at its event: the id, the time, and the byte range of the line. */
  lemma LineIsLocated(json: Json, w: Watch, s: SessionId, span: Span, capacity: nat, k: nat)
    requires s in w.files && k < |LineParse(json, w, s, span.line).events|
    ensures var e, was := LineParse(json, w, s, span.line).events[k], w.files[s].locators;
      var now := ConsumeLine(json, w, s, span, capacity).files[s].locators;
      && |now| == |was| + |LineParse(json, w, s, span.line).events| && was <= now
      && now[|was| + k] == Locator(e.id, e.timestamp, span.offset, span.len)
  {
    ConsumeLineIs(json, w, s, span, capacity);
  }

  /** What a line adds is what a fresh parse of it yields, without the ids seen before. */
  lemma LineParseIs(json: Json, w: Watch, s: SessionId, line: Bytes)
    ensures var events, clean := LineParse(json, w, s, line).events, Fresh(Decode(json, line), w.names, s).events;
      && events == Unseen(clean, w.seen)
      && Ids(events) !! w.seen
      && (forall e :: e in events ==> e in clean)
  {
    var record := Decode(json, line);
    DedupOnlyHides(record, Parsed([], w.seen, w.names), s);
    var clean := Fresh(record, w.names, s).events;
    UnseenIds(clean, w.seen);
    assert [] + Unseen(clean, w.seen) == Unseen(clean, w.seen);
    forall e | e in LineParse(json, w, s, line).events ensures e in clean {
      UnseenMember(clean, w.seen, e);
    }
  }

  /** A locator held after a line was held before, or is one of those it added. */
  lemma WhichLocator(w: Watch, w': Watch, s: SessionId, more: seq<Locator>, t: SessionId, i: nat)
    requires s in w.files && w'.files == w.files[s := w.files[s].(locators := w.files[s].locators + more)]
    requires t in w'.files && i < |w'.files[t].locators|
    ensures t in w.files
    ensures var n := |w.files[t].locators|;
      if t == s && i >= n then i - n < |more| && w'.files[t].locators[i] == more[i - n]
      else i < n && w'.files[t].locators[i] == w.files[t].locators[i]
  {}

  lemma LineAtGrown(done: Disk, s: SessionId, line: Bytes, s': SessionId, l: Locator)
    requires l.offset + l.len <= |FileOf(done, s')|
    ensures l.offset + l.len <= |FileOf(Grown(done, s, line), s')|
    ensures LineAt(FileOf(Grown(done, s, line), s'), l) == LineAt(FileOf(done, s'), l)
  {}

  lemma LineAtEnd(done: Disk, s: SessionId, span: Span, l: Locator)
    requires span.offset == |FileOf(done, s)| && span.len == |span.line| && l.offset == span.offset && l.len == span.len
    ensures l.offset + l.len <= |FileOf(Grown(done, s, span.line), s)|
    ensures LineAt(FileOf(Grown(done, s, span.line), s), l) == span.line
  {}

  // ---------------------------------------------------------------- all the lines of one refresh

  /** Spans that follow each other from `base` on. */
  ghost predicate Abut(spans: seq<Span>, base: nat) {
    spans != [] ==>
      spans[0].offset == base && spans[0].len == |spans[0].line| && Abut(spans[1..], base + spans[0].len)
  }

  /** The first of abutting spans ends the consumed bytes; the others follow it. */
  lemma AbutFirst(done: Disk, s: SessionId, spans: seq<Span>)
    requires s in done && spans != [] && Abut(spans, |done[s]|)
    ensures spans[0].offset == |FileOf(done, s)| && spans[0].len == |spans[0].line|
    ensures var done1 := Grown(done, s, spans[0].line); s in done1 && Abut(spans[1..], |done1[s]|)
  {}

  function Joined(spans: seq<Span>): Bytes {
    if spans == [] then [] else spans[0].line + Joined(spans[1..])
  }

  lemma {:induction false} SpansFromAbut(data: Bytes, pos: nat, base: nat)
    requires pos <= |data|
    ensures Abut(SpansFrom(data, pos, base), base + pos) && Joined(SpansFrom(data, pos, base)) == data[pos..]
    decreases |data| - pos
  {
    if pos < |data| {
      var next := LineEnd(data, pos);
      SpansFromAbut(data, next, base);
      var head, rest := Span(base + pos, next - pos, data[pos..next]), SpansFrom(data, next, base);
      assert ([head] + rest)[1..] == rest;
      assert data[pos..next] + data[next..] == data[pos..];
    }
  }

  lemma SpansAbut(data: Bytes, base: nat)
    ensures Abut(Spans(data, base), base) && Joined(Spans(data, base)) == data
  {
    SpansFromAbut(data, 0, base);
    assert data[0..] == data;
  }

  lemma GrownByNothing(done: Disk, s: SessionId)
    requires s in done
    ensures Grown(done, s, []) == done
  {
    assert done[s] + [] == done[s];
    assert done[s := done[s]] == done;
  }

  lemma GrownTwice(done: Disk, s: SessionId, a: Bytes, b: Bytes)
    requires s in done
    ensures Grown(Grown(done, s, a), s, b) == Grown(done, s, a + b)
  {
    assert done[s] + a + b == done[s] + (a + b);
  }

  /** `w'` has the same books as `w`: only consumed offsets, times and emission marks may differ. */
  ghost predicate SameBooks(w: Watch, w': Watch) {
    && w'.files.Keys == w.files.Keys && w'.names == w.names && w'.refs == w.refs && w'.cache == w.cache
    && forall s :: s in w.files ==> w'.files[s].locators == w.files[s].locators
  }

  lemma AdvanceConsumes(json: Json, w: Watch, s: SessionId, file: Bytes, mtime: int, capacity: nat)
    requires s in w.files && w.files[s].consumed <= |file|
    requires !((|file| == w.files[s].consumed && mtime == w.files[s].lastMtime)
        || Complete(json, w.files[s], file) == [])
    ensures var w', complete := Advance(json, w, s, file, mtime, capacity), Complete(json, w.files[s], file);
      && w'.files[s].consumed == w.files[s].consumed + |complete|
      && SameBooks(ConsumeSpans(json, w, s, Spans(complete, w.files[s].consumed), capacity), w')
  {}

  lemma AdvanceRests(json: Json, w: Watch, done: Disk, s: SessionId, file: Bytes, mtime: int, capacity: nat)
    requires s in w.files && s in done && w.files[s].consumed <= |file| && done[s] == file[..w.files[s].consumed]
    requires (|file| == w.files[s].consumed && mtime == w.files[s].lastMtime) || Complete(json, w.files[s], file) == []
    ensures Advance(json, w, s, file, mtime, capacity) == w && done[s := file[..w.files[s].consumed]] == done
  {
    assert done[s := done[s]] == done;
  }

  /** A refresh either leaves the books and the consumed bytes alone, or consumes exactly the complete lines. */
  lemma AdvanceMoves(json: Json, w: Watch, done: Disk, s: SessionId, file: Bytes, mtime: int, capacity: nat)
    requires s in w.files && s in done && w.files[s].consumed <= |file| && done[s] == file[..w.files[s].consumed]
    ensures var w' := Advance(json, w, s, file, mtime, capacity);
      var spans := Spans(Complete(json, w.files[s], file), w.files[s].consumed);
      && w'.files[s].consumed <= |file|
      && ((w' == w && done[s := file[..w'.files[s].consumed]] == done)
          || (SameBooks(ConsumeSpans(json, w, s, spans, capacity), w')
              && done[s := file[..w'.files[s].consumed]] == Grown(done, s, Joined(spans))))
  {
    var f := w.files[s];
    var complete := Complete(json, f, file);
    if (|file| == f.consumed && mtime == f.lastMtime) || complete == [] {
      AdvanceRests(json, w, done, s, file, mtime, capacity);
    } else {
      AdvanceConsumes(json, w, s, file, mtime, capacity);
      SpansAbut(complete, f.consumed);
      DoneGrows(json, f, done, s, file);
    }
  }

  lemma DoneGrows(json: Json, f: FileState, done: Disk, s: SessionId, file: Bytes)
    requires f.consumed <= |file| && s in done && done[s] == file[..f.consumed]
    ensures var n := f.consumed + |Complete(json, f, file)|;
      n <= |file| && done[s := file[..n]] == Grown(done, s, Complete(json, f, file))
  {
    CompleteExtends(json, f, file);
  }

  lemma CompleteExtends(json: Json, f: FileState, file: Bytes)
    requires f.consumed <= |file|
    ensures var n := f.consumed + |Complete(json, f, file)|;
        n <= |file| && file[..f.consumed] + Complete(json, f, file) == file[..n]
  {
    var rest := SplitAtLastCompleteLine(json, file[f.consumed..]).1;
    assert file == file[..f.consumed] + (Complete(json, f, file) + rest);
  }

  // ---------------------------------------------------------------- what a refresh leaves alone

  /** Refreshing one file only appends to that file's locators; its emission mark and every other file stay. */
  ghost predicate Extends(w: Watch, w': Watch, s: SessionId)
    requires s in w.files
  {
    && w'.files.Keys == w.files.Keys
    && (forall t :: t in w.files && t != s ==> w'.files[t] == w.files[t])
    && w.files[s].locators <= w'.files[s].locators
    && w'.files[s].emitted == w.files[s].emitted
  }

  lemma {:induction false} ConsumeSpansExtend(json: Json, w: Watch, s: SessionId, spans: seq<Span>, capacity: nat)
    requires s in w.files
    ensures Extends(w, ConsumeSpans(json, w, s, spans, capacity), s)
    decreases |spans|
  {
    if spans != [] {
      var parsed := ParseRecord(Decode(json, spans[0].line), Parsed([], w.seen, w.names), s);
      AddEventsIs(w.(seen := parsed.seen, names := parsed.names), s, parsed.events, spans[0], capacity);
      ConsumeSpansExtend(json, ConsumeLine(json, w, s, spans[0], capacity), s, spans[1..], capacity);
    }
  }

  lemma AdvanceExtends(json: Json, w: Watch, s: SessionId, file: Bytes, mtime: int, capacity: nat)
    requires s in w.files && w.files[s].consumed <= |file|
    ensures Extends(w, Advance(json, w, s, file, mtime, capacity), s)
  {
    ConsumeSpansExtend(json, w, s, Spans(Complete(json, w.files[s], file), w.files[s].consumed), capacity);
  }
}
