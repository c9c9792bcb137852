/**
 The shared locator index against one parse per file: over every run of the watcher, each file's
 locators are the ids a single parse of its consumed bytes yields
 (session_watcher.py, lines 660 to 757).
 */
module WatcherTailing {
  import opened Common
  import opened SessionParser
  import opened LineSplitter
  import opened Tailing
  import opened WatcherModel
  import opened WatcherRefresh
  import opened WatcherRuns

  type Owner = EventId -> SessionId

  const EMPTY := Parsed([], {}, map[])

  // ---------------------------------------------------------------- what a parse adds, as ids

  lemma IdsOfAppend(a: seq<Event>, b: seq<Event>)
    ensures IdsOf(a + b) == IdsOf(a) + IdsOf(b)
  {}

  function UnseenOf(ids: seq<EventId>, seen: set<EventId>): seq<EventId> {
    if ids == [] then [] else (if ids[0] in seen then [] else [ids[0]]) + UnseenOf(ids[1..], seen)
  }

  lemma {:induction false} UnseenIdsAre(events: seq<Event>, seen: set<EventId>)
    ensures IdsOf(Unseen(events, seen)) == UnseenOf(IdsOf(events), seen)
  {
    if events != [] {
      UnseenIdsAre(events[1..], seen);
      var ids := IdsOf(events);
      assert ids[1..] == IdsOf(events[1..]);
      IdsOfAppend(if events[0].id in seen then [] else [events[0]], Unseen(events[1..], seen));
    }
  }

  lemma {:induction false} UnseenOfAgrees(ids: seq<EventId>, seen: set<EventId>, seen': set<EventId>)
    requires forall id :: id in ids ==> (id in seen <==> id in seen')
    ensures UnseenOf(ids, seen) == UnseenOf(ids, seen')
  {
    if ids != [] {
      UnseenOfAgrees(ids[1..], seen, seen');
    }
  }

  // ---------------------------------------------------------------- one file's share of the index

  /** Every event the line yields belongs to session `s`. */
  ghost predicate OwnedBy(json: Json, owner: Owner, s: SessionId, line: Bytes) {
    forall id :: id in IdsOf(Fresh(Decode(json, line), map[], s).events) ==> owner(id) == s
  }

  /** File `s` holds the ids `acc` parsed, in order, and the shared dedup set knows exactly its ids. */
  ghost predicate Mirrors(w: Watch, s: SessionId, acc: Parsed, owner: Owner) {
    && s in w.files
    && LocatorIds(w.files[s].locators) == IdsOf(acc.events)
    && forall id :: owner(id) == s ==> (id in w.seen <==> id in acc.seen)
  }

  /** What parsing one line adds, as ids. */
  lemma ParsedIds(record: Option<Raw>, before: Parsed, s: SessionId)
    ensures var ids := IdsOf(Fresh(record, map[], s).events);
      var after := ParseRecord(record, before, s);
      && IdsOf(after.events) == IdsOf(before.events) + UnseenOf(ids, before.seen)
      && (forall id :: id in after.seen <==> id in before.seen || id in ids)
  {
    DedupOnlyHides(record, before, s);
    var clean := Fresh(record, before.names, s).events;
    FreshIdsIgnoreNames(record, before.names, map[], s);
    UnseenIdsAre(clean, before.seen);
    IdsOfAppend(before.events, Unseen(clean, before.seen));
    var ids := IdsOf(clean);
    forall id ensures id in Ids(clean) <==> id in ids {
      IdInIdsOf(clean, id);
    }
  }

  lemma ConsumeOwnLine(json: Json, w: Watch, s: SessionId, acc: Parsed, owner: Owner, span: Span, capacity: nat)
    requires Mirrors(w, s, acc, owner) && OwnedBy(json, owner, s, span.line)
    ensures Mirrors(ConsumeLine(json, w, s, span, capacity), s, ParseRecord(Decode(json, span.line), acc, s), owner)
  {
    var record := Decode(json, span.line);
    var w' := ConsumeLine(json, w, s, span, capacity);
    ConsumedLocators(json, w, s, span, capacity);
    ParsedIds(record, acc, s);
    UnseenOfAgrees(IdsOf(Fresh(record, map[], s).events), w.seen, acc.seen);
  }

  /** What one line does to its file's locators and to the dedup set, as ids. */
  lemma ConsumedLocators(json: Json, w: Watch, s: SessionId, span: Span, capacity: nat)
    requires s in w.files
    ensures var ids := IdsOf(Fresh(Decode(json, span.line), map[], s).events);
      var w' := ConsumeLine(json, w, s, span, capacity);
      && s in w'.files
      && LocatorIds(w'.files[s].locators) == LocatorIds(w.files[s].locators) + UnseenOf(ids, w.seen)
      && (forall id :: id in w'.seen <==> id in w.seen || id in ids)
  {
    var record := Decode(json, span.line);
    var parsed := ParseRecord(record, Parsed([], w.seen, w.names), s);
    ParsedIds(record, Parsed([], w.seen, w.names), s);
    var w1 := w.(seen := parsed.seen, names := parsed.names);
    AddEventsIs(w1, s, parsed.events, span, capacity);
    LocatorIdsAre(parsed.events, span, w.files[s].locators);
    var none: seq<Event> := [];
    assert IdsOf(none) == [];
    assert IdsOf(parsed.events) == UnseenOf(IdsOf(Fresh(record, map[], s).events), w.seen);
  }

  lemma LocatorIdsAre(events: seq<Event>, span: Span, locators: seq<Locator>)
    ensures LocatorIds(locators + LocatorsOf(events, span))
         == LocatorIds(locators) + IdsOf(events)
  {}

  /** Lines of another session leave this file's share alone. */
  lemma ConsumeOtherLine(json: Json, w: Watch, s: SessionId, acc: Parsed, owner: Owner, t: SessionId, span: Span,
                         capacity: nat)
    requires Mirrors(w, s, acc, owner) && t in w.files && t != s && OwnedBy(json, owner, t, span.line)
    ensures Mirrors(ConsumeLine(json, w, t, span, capacity), s, acc, owner)
  {
    var record := Decode(json, span.line);
    var parsed := ParseRecord(record, Parsed([], w.seen, w.names), t);
    ParsedIds(record, Parsed([], w.seen, w.names), t);
    var w1 := w.(seen := parsed.seen, names := parsed.names);
    AddEventsIs(w1, t, parsed.events, span, capacity);
  }

  ghost predicate AllOwned(json: Json, owner: Owner, s: SessionId, lines: seq<Bytes>) {
    forall line :: line in lines ==> OwnedBy(json, owner, s, line)
  }

  lemma {:induction false} ConsumeOwnSpans(json: Json, w: Watch, s: SessionId, acc: Parsed, owner: Owner,
                                           spans: seq<Span>, capacity: nat)
    requires Mirrors(w, s, acc, owner) && AllOwned(json, owner, s, LinesOf(spans))
    ensures Mirrors(ConsumeSpans(json, w, s, spans, capacity), s, ParseRecords(Decoded(json, LinesOf(spans)), acc, s),
        owner)
    decreases |spans|
  {
    if spans == [] {
      assert Decoded(json, LinesOf(spans)) == [];
    } else {
      var records := Decoded(json, LinesOf(spans));
      assert LinesOf(spans)[0] == spans[0].line && LinesOf(spans)[1..] == LinesOf(spans[1..]);
      assert records[0] == Decode(json, spans[0].line) && records[1..] == Decoded(json, LinesOf(spans[1..]));
      ConsumeOwnLine(json, w, s, acc, owner, spans[0], capacity);
      ConsumeOwnSpans(json, ConsumeLine(json, w, s, spans[0], capacity), s, ParseRecord(records[0], acc, s), owner,
          spans[1..], capacity);
    }
  }

  lemma {:induction false} ConsumeOtherSpans(json: Json, w: Watch, s: SessionId, acc: Parsed, owner: Owner,
                                             t: SessionId, spans: seq<Span>, capacity: nat)
    requires Mirrors(w, s, acc, owner) && t in w.files && t != s && AllOwned(json, owner, t, LinesOf(spans))
    ensures Mirrors(ConsumeSpans(json, w, t, spans, capacity), s, acc, owner)
    decreases |spans|
  {
    if spans != [] {
      assert LinesOf(spans)[0] == spans[0].line && LinesOf(spans)[1..] == LinesOf(spans[1..]);
      ConsumeOtherLine(json, w, s, acc, owner, t, spans[0], capacity);
      ConsumeOtherSpans(json, ConsumeLine(json, w, t, spans[0], capacity), s, acc, owner, t, spans[1..], capacity);
    }
  }

  // ---------------------------------------------------------------- the lines a refresh meets are lines of the file

  /** Cutting the tail off, at a line start or after a complete record, leaves owned lines. */
  lemma CutIsOwned(json: Json, owner: Owner, s: SessionId, p: Bytes, rest: Bytes)
    requires ObjectLines(json, p + rest) && AllOwned(json, owner, s, Lines(p + rest))
    requires AtLineStart(p) || Decode(json, LastLine(p)).Some?
    ensures AllOwned(json, owner, s, Lines(p))
  {
    if p == [] || rest == [] {
      assert p + rest == if p == [] then rest else p;
    } else {
      LinesAppend(p, rest);
      var a, b := Lines(p), Lines(rest);
      forall k | 0 <= k < |a| ensures OwnedBy(json, owner, s, a[k]) {
        JoinAt(a, b, AtLineStart(p), k);
        if k == |a| - 1 && !AtLineStart(p) {
          FusedLineIsBlank(json, p, rest);
          DecodeIgnoresTrailingBlank(json, a[k], b[0]);
          SameDecodeSameOwner(json, owner, s, a[k], a[k] + b[0]);
        }
      }
    }
  }

  lemma SameDecodeSameOwner(json: Json, owner: Owner, s: SessionId, line: Bytes, line': Bytes)
    requires Decode(json, line) == Decode(json, line')
    ensures OwnedBy(json, owner, s, line) <==> OwnedBy(json, owner, s, line')
  {}

  lemma JoinAt(a: seq<Bytes>, b: seq<Bytes>, abut: bool, k: nat)
    requires a != [] && b != [] && k < |a|
    ensures k < |Join(a, b, abut)| && Join(a, b, abut)[k] in Join(a, b, abut)
    ensures Join(a, b, abut)[k] == if k < |a| - 1 || abut then a[k] else a[k] + b[0]
  {}

  lemma PiecesAreOwned(json: Json, owner: Owner, s: SessionId, p: Bytes, d: Bytes, rest: Bytes)
    requires ObjectLines(json, p + d + rest) && AllOwned(json, owner, s, Lines(p + d + rest))
    requires AtLineStart(p) || Decode(json, LastLine(p)).Some?
    requires AtLineStart(d) || Decode(json, LastLine(d)).Some?
    ensures AllOwned(json, owner, s, Lines(d))
  {
    if d != [] {
      ObjectLinesPrefix(json, p + d, rest);
      if p == [] {
        assert p + d == d;
        CutIsOwned(json, owner, s, d, rest);
      } else {
        FusedLineIsDone(json, p, d);
        CutIsOwned(json, owner, s, p + d, rest);
        var a, b, whole := Lines(p), Lines(d), Lines(p + d);
        forall k | 0 <= k < |b| ensures OwnedBy(json, owner, s, b[k]) {
          if AtLineStart(p) {
            assert whole[|a| + k] == b[k];
          } else if k > 0 {
            assert whole[|a| - 1 + k] == b[k];
          } else {
            DecodeIgnoresTrailingBlank(json, [], b[0]);
          }
        }
      }
    }
  }

  // ---------------------------------------------------------------- refreshes, in any interleaving

  function Batch(json: Json, s: SessionId, file: Bytes, n: nat): Parsed
    requires n <= |file|
  {
    ParseOnce(json, file[..n], EMPTY, s)
  }

  /** File `s`, whose bytes will come to be `file`, is indexed as one parse of its consumed bytes would be. */
  ghost predicate Share(json: Json, w: Watch, s: SessionId, file: Bytes, owner: Owner) {
    && s in w.files && w.files[s].consumed <= |file|
    && var n := w.files[s].consumed;
    && Agrees(json, file, Tail(n, Batch(json, s, file, n)), EMPTY, s)
    && Mirrors(w, s, Batch(json, s, file, n), owner)
  }

  lemma MarkMirrors(w: Watch, s: SessionId, acc: Parsed, owner: Owner, t: SessionId, mark: bool)
    requires Mirrors(w, s, acc, owner) && t in w.files
    ensures Mirrors(MarkEmitted(w, t, mark), s, acc, owner)
    ensures MarkEmitted(w, t, mark).files[s].consumed == w.files[s].consumed
  {}

  lemma CutInThree(file: Bytes, whole: Bytes, n: nat, d: Bytes, rest: Bytes)
    requires n <= |file| && file <= whole && d + rest == file[n..]
    ensures whole == file[..n] + d + (rest + whole[|file|..]) && whole == file + whole[|file|..]
  {
    assert file == file[..n] + (d + rest);
  }

  /** The lines a refresh of a grown file parses are owned by that file. */
  lemma RefreshPieces(json: Json, f: FileState, file: Bytes, whole: Bytes, owner: Owner, s: SessionId)
    requires f.consumed <= |file| && file <= whole
    requires ObjectLines(json, whole) && AllOwned(json, owner, s, Lines(whole))
    requires AtLineStart(file[..f.consumed]) || Decode(json, LastLine(file[..f.consumed])).Some?
    ensures AllOwned(json, owner, s, LinesOf(Spans(Complete(json, f, file), f.consumed)))
    ensures ObjectLines(json, file)
  {
    var cut := SplitAtLastCompleteLine(json, file[f.consumed..]);
    SplitLeavesOnlyUnfinished(json, file[f.consumed..]);
    CutInThree(file, whole, f.consumed, cut.0, cut.1);
    ObjectLinesPrefix(json, file, whole[|file|..]);
    PiecesAreOwned(json, owner, s, file[..f.consumed], cut.0, cut.1 + whole[|file|..]);
    SpansAreLines(cut.0, f.consumed);
  }

  lemma AdvanceOwn(json: Json, w: Watch, s: SessionId, file: Bytes, mtime: int, acc: Parsed, owner: Owner,
                   capacity: nat)
    requires Mirrors(w, s, acc, owner) && w.files[s].consumed <= |file|
    requires AllOwned(json, owner, s, LinesOf(Spans(Complete(json, w.files[s], file), w.files[s].consumed)))
    ensures var w' := Advance(json, w, s, file, mtime, capacity);
      var t' := Tailing.Refresh(json, file, Tail(w.files[s].consumed, acc), s);
      s in w'.files && w'.files[s].consumed == t'.consumed && Mirrors(w', s, t'.parsed, owner)
  {
    var f := w.files[s];
    var complete := Complete(json, f, file);
    if (|file| == f.consumed && mtime == f.lastMtime) || complete == [] {
      SplitLeavesOnlyUnfinished(json, file[f.consumed..]);
      assert Decoded(json, Lines([])) == [];
      assert complete == [];
    } else {
      ConsumeOwnSpans(json, w, s, acc, owner, Spans(complete, f.consumed), capacity);
      SpansAreLines(complete, f.consumed);
    }
  }

  /** A refresh of the file itself extends its share by exactly what a batch parse would add. */
  lemma OwnRefreshKeepsShare(json: Json, w: Watch, s: SessionId, file: Bytes, whole: Bytes, mtime: int, mark: bool,
                             owner: Owner, capacity: nat)
    requires Share(json, w, s, whole, owner) && file <= whole && w.files[s].consumed <= |file|
    requires ObjectLines(json, whole) && AllOwned(json, owner, s, Lines(whole))
    ensures Share(json, WatcherModel.Refresh(json, w, s, file, mtime, mark, capacity), s, whole, owner)
  {
    var n := w.files[s].consumed;
    var t := Tail(n, Batch(json, s, whole, n));
    var t' := Tailing.Refresh(json, file, t, s);
    assert file[..n] == whole[..n];
    RefreshPieces(json, w.files[s], file, whole, owner, s);
    AgreesOnPrefix(json, file, whole, t, EMPTY, s);
    RefreshAgrees(json, file, t, EMPTY, s);
    AgreesOnPrefix(json, file, whole, t', EMPTY, s);
    AdvanceOwn(json, w, s, file, mtime, t.parsed, owner, capacity);
    MarkMirrors(Advance(json, w, s, file, mtime, capacity), s, t'.parsed, owner, s, mark);
  }

  /** A refresh of another session's file leaves it alone. */
  lemma OtherRefreshKeepsShare(json: Json, w: Watch, s: SessionId, whole: Bytes, owner: Owner,
                               t: SessionId, file: Bytes, whole': Bytes, mtime: int, mark: bool, capacity: nat)
    requires Share(json, w, s, whole, owner) && Share(json, w, t, whole', owner) && t != s
    requires file <= whole' && w.files[t].consumed <= |file|
    requires ObjectLines(json, whole') && AllOwned(json, owner, t, Lines(whole'))
    ensures Share(json, WatcherModel.Refresh(json, w, t, file, mtime, mark, capacity), s, whole, owner)
  {
    var f := w.files[t];
    var acc := Batch(json, s, whole, w.files[s].consumed);
    assert file[..f.consumed] == whole'[..f.consumed];
    RefreshPieces(json, f, file, whole', owner, t);
    ConsumeOtherSpans(json, w, s, acc, owner, t, Spans(Complete(json, f, file), f.consumed), capacity);
    AdvanceExtends(json, w, t, file, mtime, capacity);
    MarkMirrors(Advance(json, w, t, file, mtime, capacity), s, acc, owner, t, mark);
  }

  /** A file with nothing consumed, none of whose ids is held, has its share. */
  lemma NewFileHasShare(json: Json, w: Watch, s: SessionId, file: Bytes, owner: Owner)
    requires s in w.files && w.files[s].consumed == 0 && w.files[s].locators == []
    requires forall id :: owner(id) == s ==> id !in w.seen
    ensures Share(json, w, s, file, owner)
  {
    assert file[..0] == [];
    assert Decoded(json, Lines([])) == [];
  }

  // ---------------------------------------------------------------- who owns what is held

  /** Every id a file holds is its own. */
  ghost predicate OwnLocators(w: Watch, owner: Owner) {
    forall s, i :: s in w.files && 0 <= i < |w.files[s].locators| ==> owner(w.files[s].locators[i].id) == s
  }

  /** So an id is only in the dedup set while its owner is in the watcher, and holds it. */
  lemma SeenIsOwned(w: Watch, owner: Owner, id: EventId)
    requires Indexed(w) && OwnLocators(w, owner) && id in w.seen
    ensures owner(id) in w.files && id in IdSet(w.files[owner(id)].locators)
  {
    var (s, i) := w.refs[id];
    assert w.files[s].locators[i].id == id;
  }

  lemma LineIsOwned(json: Json, w: Watch, s: SessionId, owner: Owner, line: Bytes, e: Event)
    requires OwnedBy(json, owner, s, line) && e in LineParse(json, w, s, line).events
    ensures owner(e.id) == s
  {
    LineParseIs(json, w, s, line);
    FreshIdsIgnoreNames(Decode(json, line), w.names, map[], s);
    IdInIdsOf(Fresh(Decode(json, line), w.names, s).events, e.id);
  }

  lemma MoreOwnLocators(w: Watch, w': Watch, s: SessionId, more: seq<Locator>, owner: Owner)
    requires s in w.files && w'.files == w.files[s := w.files[s].(locators := w.files[s].locators + more)]
    requires OwnLocators(w, owner) && forall k :: 0 <= k < |more| ==> owner(more[k].id) == s
    ensures OwnLocators(w', owner)
  {
    forall t, i | t in w'.files && 0 <= i < |w'.files[t].locators| ensures owner(w'.files[t].locators[i].id) == t {
      WhichLocator(w, w', s, more, t, i);
    }
  }

  lemma ConsumeOwnsLocators(json: Json, w: Watch, s: SessionId, owner: Owner, span: Span, capacity: nat)
    requires s in w.files && OwnLocators(w, owner) && OwnedBy(json, owner, s, span.line)
    ensures OwnLocators(ConsumeLine(json, w, s, span, capacity), owner)
  {
    var events := LineParse(json, w, s, span.line).events;
    ConsumeLineIs(json, w, s, span, capacity);
    forall k | 0 <= k < |events| ensures owner(events[k].id) == s {
      LineIsOwned(json, w, s, owner, span.line, events[k]);
    }
    MoreOwnLocators(w, ConsumeLine(json, w, s, span, capacity), s, LocatorsOf(events, span), owner);
  }

  lemma {:induction false} ConsumeSpansOwnLocators(json: Json, w: Watch, s: SessionId, owner: Owner, spans: seq<Span>,
                                                   capacity: nat)
    requires s in w.files && OwnLocators(w, owner) && AllOwned(json, owner, s, LinesOf(spans))
    ensures OwnLocators(ConsumeSpans(json, w, s, spans, capacity), owner)
    decreases |spans|
  {
    if spans != [] {
      assert LinesOf(spans)[0] == spans[0].line && LinesOf(spans)[1..] == LinesOf(spans[1..]);
      ConsumeOwnsLocators(json, w, s, owner, spans[0], capacity);
      ConsumeSpansOwnLocators(json, ConsumeLine(json, w, s, spans[0], capacity), s, owner, spans[1..], capacity);
    }
  }

  lemma RefreshOwnsLocators(json: Json, w: Watch, s: SessionId, file: Bytes, mtime: int, mark: bool, owner: Owner,
                            capacity: nat)
    requires s in w.files && OwnLocators(w, owner) && w.files[s].consumed <= |file|
    requires AllOwned(json, owner, s, LinesOf(Spans(Complete(json, w.files[s], file), w.files[s].consumed)))
    ensures OwnLocators(WatcherModel.Refresh(json, w, s, file, mtime, mark, capacity), owner)
  {
    ConsumeSpansOwnLocators(json, w, s, owner, Spans(Complete(json, w.files[s], file), w.files[s].consumed), capacity);
  }

  // ---------------------------------------------------------------- over every run

  /** What each file will come to be, before its next truncation: lines of objects, owned by the file. */
  ghost predicate Planned(json: Json, wholes: Disk, owner: Owner) {
    forall s :: s in wholes ==> ObjectLines(json, wholes[s]) && AllOwned(json, owner, s, Lines(wholes[s]))
  }

  /** A step puts no file off its way; a truncation sets one on a new way. */
  ghost predicate OnTheWay(step: Step, wholes: Disk, wholes': Disk) {
    match step
    case Appear(s, content) => s in wholes && content <= wholes[s] && wholes' == wholes
    case Write(s, content) => s in wholes && content <= wholes[s] && wholes' == wholes
    case Truncate(s, content, _) => s in wholes' && content <= wholes'[s] && wholes' == wholes[s := wholes'[s]]
    case _ => wholes' == wholes
  }

  ghost predicate AllShares(json: Json, w: Watch, wholes: Disk, owner: Owner) {
    forall s :: s in w.files ==> s in wholes && Share(json, w, s, wholes[s], owner)
  }

  ghost predicate Prefixes(w: Watch, disk: Disk, wholes: Disk) {
    forall s :: s in w.files ==> s in wholes && FileOf(disk, s) <= wholes[s]
  }

  ghost predicate Shared(json: Json, sys: System, wholes: Disk, owner: Owner) {
    && Tracks(sys.w, sys.disk, sys.done) && Prefixes(sys.w, sys.disk, wholes)
    && OwnLocators(sys.w, owner) && AllShares(json, sys.w, wholes, owner)
  }

  lemma RefreshShares(json: Json, w: Watch, s: SessionId, file: Bytes, mtime: int, mark: bool, wholes: Disk,
                      owner: Owner, capacity: nat)
    requires AllShares(json, w, wholes, owner) && Planned(json, wholes, owner)
    requires s in w.files && file <= wholes[s] && w.files[s].consumed <= |file|
    ensures AllShares(json, WatcherModel.Refresh(json, w, s, file, mtime, mark, capacity), wholes, owner)
  {
    var w' := WatcherModel.Refresh(json, w, s, file, mtime, mark, capacity);
    RefreshKeepsFiles(json, w, s, file, mtime, mark, capacity);
    forall t | t in w'.files ensures t in wholes && Share(json, w', t, wholes[t], owner) {
      if t == s {
        OwnRefreshKeepsShare(json, w, s, file, wholes[s], mtime, mark, owner, capacity);
      } else {
        OtherRefreshKeepsShare(json, w, t, wholes[t], owner, s, file, wholes[s], mtime, mark, capacity);
      }
    }
  }

  lemma RefreshIsShared(json: Json, sys: System, s: SessionId, mtime: int, mark: bool, wholes: Disk, owner: Owner,
                        capacity: nat)
    requires Shared(json, sys, wholes, owner) && Planned(json, wholes, owner) && s in sys.w.files
    ensures Shared(json, AfterRefresh(json, sys, s, mtime, mark, capacity), wholes, owner)
  {
    var w, file := sys.w, FileOf(sys.disk, s);
    var f := w.files[s];
    assert Share(json, w, s, wholes[s], owner);
    assert file[..f.consumed] == wholes[s][..f.consumed];
    RefreshTracks(json, w, sys.disk, sys.done, s, mtime, mark, capacity);
    RefreshKeepsFiles(json, w, s, file, mtime, mark, capacity);
    RefreshPieces(json, f, file, wholes[s], owner, s);
    RefreshOwnsLocators(json, w, s, file, mtime, mark, owner, capacity);
    RefreshShares(json, w, s, file, mtime, mark, wholes, owner, capacity);
  }

  /** A discovered file holds nothing, and nothing of its own is in the dedup set yet. */
  lemma DiscoverOwn(json: Json, w: Watch, s: SessionId, whole: Bytes, owner: Owner)
    requires Indexed(w) && OwnLocators(w, owner) && s !in w.files
    ensures Share(json, Discover(w, s), s, whole, owner)
  {
    forall id | owner(id) == s ensures id !in w.seen {
      if id in w.seen {
        SeenIsOwned(w, owner, id);
      }
    }
    NewFileHasShare(json, Discover(w, s), s, whole, owner);
  }

  lemma DiscoverOther(json: Json, w: Watch, s: SessionId, t: SessionId, whole: Bytes, owner: Owner)
    requires s !in w.files && Share(json, w, t, whole, owner)
    ensures Share(json, Discover(w, s), t, whole, owner)
  {}

  lemma DiscoverShares(json: Json, w: Watch, s: SessionId, wholes: Disk, owner: Owner)
    requires Indexed(w) && OwnLocators(w, owner) && AllShares(json, w, wholes, owner) && s !in w.files && s in wholes
    ensures AllShares(json, Discover(w, s), wholes, owner)
  {
    forall t | t in Discover(w, s).files ensures t in wholes && Share(json, Discover(w, s), t, wholes[t], owner) {
      if t == s {
        DiscoverOwn(json, w, s, wholes[s], owner);
      } else {
        DiscoverOther(json, w, s, t, wholes[t], owner);
      }
    }
  }

  lemma DiscoverOwnsLocators(w: Watch, s: SessionId, owner: Owner)
    requires OwnLocators(w, owner)
    ensures OwnLocators(Discover(w, s), owner)
  {}

  lemma AppearIsShared(json: Json, sys: System, s: SessionId, content: Bytes, wholes: Disk, owner: Owner)
    requires Wellformed(sys) && Shared(json, sys, wholes, owner) && s !in sys.w.files
    requires s in wholes && content <= wholes[s]
    ensures Shared(json, Appeared(sys, s, content), wholes, owner)
  {
    DiscoverTracks(sys.w, sys.disk, sys.done, s, content);
    DiscoverOwnsLocators(sys.w, s, owner);
    DiscoverShares(json, sys.w, s, wholes, owner);
  }

  lemma ForgetOwn(json: Json, w: Watch, s: SessionId, whole: Bytes, owner: Owner)
    requires Indexed(w) && OwnLocators(w, owner) && s in w.files
    ensures Share(json, Forget(w, s), s, whole, owner)
  {
    forall id | owner(id) == s ensures id !in Forget(w, s).seen {
      if id in w.seen {
        SeenIsOwned(w, owner, id);
      }
    }
    NewFileHasShare(json, Forget(w, s), s, whole, owner);
  }

  lemma ForgetOther(json: Json, w: Watch, s: SessionId, t: SessionId, whole: Bytes, owner: Owner)
    requires OwnLocators(w, owner) && s in w.files && t != s && Share(json, w, t, whole, owner)
    ensures Share(json, Forget(w, s), t, whole, owner)
  {
    forall id | id in IdSet(w.files[s].locators) ensures owner(id) == s {
      var l :| l in w.files[s].locators && l.id == id;
      var i :| 0 <= i < |w.files[s].locators| && w.files[s].locators[i] == l;
    }
  }

  lemma ForgetShares(json: Json, w: Watch, s: SessionId, wholes: Disk, wholes': Disk, owner: Owner)
    requires Indexed(w) && OwnLocators(w, owner) && AllShares(json, w, wholes, owner) && s in w.files
    requires s in wholes' && wholes' == wholes[s := wholes'[s]]
    ensures AllShares(json, Forget(w, s), wholes', owner)
  {
    forall t | t in Forget(w, s).files ensures t in wholes' && Share(json, Forget(w, s), t, wholes'[t], owner) {
      if t == s {
        ForgetOwn(json, w, s, wholes'[s], owner);
      } else {
        ForgetOther(json, w, s, t, wholes[t], owner);
      }
    }
  }

  lemma ForgetOwnsLocators(w: Watch, s: SessionId, owner: Owner)
    requires OwnLocators(w, owner) && s in w.files
    ensures OwnLocators(Forget(w, s), owner)
  {}

  lemma WritePrefixes(w: Watch, disk: Disk, s: SessionId, content: Bytes, wholes: Disk, wholes': Disk)
    requires Prefixes(w, disk, wholes) && s in wholes' && content <= wholes'[s] && wholes' == wholes[s := wholes'[s]]
    ensures Prefixes(w, disk[s := content], wholes')
  {}

  lemma WriteTracks(w: Watch, disk: Disk, done: Disk, s: SessionId, content: Bytes)
    requires Tracks(w, disk, done) && s in w.files && s in done && done[s] <= content
    ensures Tracks(w, disk[s := content], done)
  {}

  lemma ForgetIsShared(json: Json, sys: System, s: SessionId, content: Bytes, wholes: Disk, wholes': Disk, owner: Owner)
    requires Wellformed(sys) && Shared(json, sys, wholes, owner) && s in sys.w.files
    requires s in wholes' && content <= wholes'[s] && wholes' == wholes[s := wholes'[s]]
    ensures Shared(json, Forgotten(sys, s, content), wholes', owner)
  {
    ForgetTracks(sys.w, sys.disk, sys.done, s, content);
    ForgetOwnsLocators(sys.w, s, owner);
    ForgetShares(json, sys.w, s, wholes, wholes', owner);
    WritePrefixes(sys.w, sys.disk, s, content, wholes, wholes');
  }

  /** Bodies, names and emission marks do not matter to the shares. */
  ghost predicate SameIndex(w: Watch, w': Watch) {
    && w'.files.Keys == w.files.Keys && w'.seen == w.seen
    && forall s :: s in w.files ==>
        w'.files[s].locators == w.files[s].locators && w'.files[s].consumed == w.files[s].consumed
  }

  lemma SameIndexShares(json: Json, w: Watch, w': Watch, wholes: Disk, owner: Owner)
    requires OwnLocators(w, owner) && AllShares(json, w, wholes, owner) && SameIndex(w, w')
    ensures OwnLocators(w', owner) && AllShares(json, w', wholes, owner)
  {
    forall s | s in w'.files ensures s in wholes && Share(json, w', s, wholes[s], owner) {
      assert Share(json, w, s, wholes[s], owner);
    }
  }

  lemma SameIndexTracks(w: Watch, w': Watch, disk: Disk, done: Disk, wholes: Disk)
    requires Tracks(w, disk, done) && Prefixes(w, disk, wholes) && SameIndex(w, w')
    ensures Tracks(w', disk, done) && Prefixes(w', disk, wholes)
  {}

  lemma SameIndexIsShared(json: Json, sys: System, sys': System, wholes: Disk, owner: Owner)
    requires Shared(json, sys, wholes, owner) && SameIndex(sys.w, sys'.w)
    requires sys'.disk == sys.disk && sys'.done == sys.done
    ensures Shared(json, sys', wholes, owner)
  {
    SameIndexShares(json, sys.w, sys'.w, wholes, owner);
    SameIndexTracks(sys.w, sys'.w, sys.disk, sys.done, wholes);
  }

  lemma EmitKeepsIndex(json: Json, sys: System, s: SessionId, capacity: nat)
    requires Wellformed(sys) && s in sys.w.files
    ensures var sys' := AfterEmit(json, sys, s, capacity);
      SameIndex(sys.w, sys'.w) && sys'.disk == sys.disk && sys'.done == sys.done
  {
    ResolveKeepsBooks(json, MarkEmitted(sys.w, s, true), sys.disk, Pending(sys.w, s), capacity);
  }

  lemma ReadKeepsIndex(json: Json, sys: System, pairs: seq<(SessionId, Locator)>, capacity: nat)
    ensures SameIndex(sys.w, Resolve(json, sys.w, sys.disk, pairs, capacity).0)
  {
    ResolveKeepsBooks(json, sys.w, sys.disk, pairs, capacity);
  }

  lemma WriteIsShared(json: Json, sys: System, s: SessionId, content: Bytes, wholes: Disk, owner: Owner)
    requires Shared(json, sys, wholes, owner) && s in sys.w.files && s in sys.done && sys.done[s] <= content
    requires s in wholes && content <= wholes[s]
    ensures Shared(json, sys.(disk := sys.disk[s := content]), wholes, owner)
  {
    WriteTracks(sys.w, sys.disk, sys.done, s, content);
    assert wholes[s := wholes[s]] == wholes;
    WritePrefixes(sys.w, sys.disk, s, content, wholes, wholes);
  }

  lemma NextIsShared(json: Json, sys: System, step: Step, wholes: Disk, wholes': Disk, owner: Owner, capacity: nat)
    requires Wellformed(sys) && Possible(sys, step) && Shared(json, sys, wholes, owner)
    requires OnTheWay(step, wholes, wholes') && Planned(json, wholes', owner)
    ensures Shared(json, Next(json, sys, step, capacity), wholes', owner)
  {
    match step
    case Appear(s, content) => AppearIsShared(json, sys, s, content, wholes, owner);
    case Write(s, content) => WriteIsShared(json, sys, s, content, wholes, owner);
    case Truncate(s, content, mtime) =>
      ForgetIsShared(json, sys, s, content, wholes, wholes', owner);
      RefreshIsShared(json, Forgotten(sys, s, content), s, mtime, false, wholes', owner, capacity);
    case Refreshed(s, mtime) => RefreshIsShared(json, sys, s, mtime, false, wholes, owner, capacity);
    case Prime(s, mtime) => RefreshIsShared(json, sys, s, mtime, true, wholes, owner, capacity);
    case PollEmit(s) =>
      EmitKeepsIndex(json, sys, s, capacity);
      SameIndexIsShared(json, sys, AfterEmit(json, sys, s, capacity), wholes, owner);
    case Read(pairs) =>
      ReadKeepsIndex(json, sys, pairs, capacity);
      SameIndexIsShared(json, sys, Next(json, sys, step, capacity), wholes, owner);
  }

  /** Each step of the run is on the way its files are planned to go; plans change at truncations only. */
  ghost predicate RunAsPlanned(json: Json, steps: seq<Step>, plans: seq<Disk>, owner: Owner) {
    && |plans| == |steps| + 1
    && (forall i :: 0 <= i < |plans| ==> Planned(json, plans[i], owner))
    && (forall i :: 0 <= i < |steps| ==> OnTheWay(steps[i], plans[i], plans[i + 1]))
  }

  lemma PlannedInit(json: Json, steps: seq<Step>, plans: seq<Disk>, owner: Owner)
    requires RunAsPlanned(json, steps, plans, owner) && steps != []
    ensures RunAsPlanned(json, steps[..|steps| - 1], plans[..|steps|], owner)
    ensures OnTheWay(steps[|steps| - 1], plans[|steps| - 1], plans[|steps|]) && Planned(json, plans[|steps|], owner)
  {
    forall i | 0 <= i < |steps| - 1
        ensures OnTheWay(steps[..|steps| - 1][i], plans[..|steps|][i], plans[..|steps|][i + 1]) {
      assert OnTheWay(steps[i], plans[i], plans[i + 1]);
    }
  }

  lemma {:induction false} EveryRunIsShared(json: Json, states: seq<System>, steps: seq<Step>, plans: seq<Disk>,
                                            owner: Owner, capacity: nat)
    requires Run(json, states, steps, capacity) && RunAsPlanned(json, steps, plans, owner)
    ensures Shared(json, states[|steps|], plans[|steps|], owner)
    decreases |steps|
  {
    if steps != [] {
      var n := |steps| - 1;
      RunInit(json, states, steps, capacity);
      PlannedInit(json, steps, plans, owner);
      EveryRunIsShared(json, states[..|steps|], steps[..n], plans[..|steps|], owner, capacity);
      EveryRunIsIndexed(json, states[..|steps|], steps[..n], capacity);
      NextIsShared(json, states[n], steps[n], plans[n], plans[n + 1], owner, capacity);
    }
  }

  /** The file's locators are, in order, the ids that one parse of its consumed bytes yields. */
  ghost predicate EqualsBatch(json: Json, sys: System, s: SessionId)
    requires s in sys.w.files
  {
    var f, file := sys.w.files[s], FileOf(sys.disk, s);
    f.consumed <= |file| && LocatorIds(f.locators) == IdsOf(ParseOnce(json, file[..f.consumed], EMPTY, s).events)
  }

  /** Incremental tailing of several files equals one batch parse per file. Over every run from an empty
      watcher, files appearing, growing and being truncated, refreshed, emitted and read in any
      interleaving: each file's locators are, in order, the event ids that parsing its consumed bytes once
      yields. */
  lemma IndexEqualsBatchPerFile(json: Json, states: seq<System>, steps: seq<Step>, plans: seq<Disk>, owner: Owner,
                                capacity: nat)
    requires Run(json, states, steps, capacity) && RunAsPlanned(json, steps, plans, owner)
    ensures var sys := states[|steps|]; forall s :: s in sys.w.files ==> EqualsBatch(json, sys, s)
  {
    EveryRunIsShared(json, states, steps, plans, owner, capacity);
    var sys, wholes := states[|steps|], plans[|steps|];
    forall s | s in sys.w.files ensures EqualsBatch(json, sys, s) {
      assert Share(json, sys.w, s, wholes[s], owner);
      assert FileOf(sys.disk, s)[..sys.w.files[s].consumed] == wholes[s][..sys.w.files[s].consumed];
    }
  }
}
