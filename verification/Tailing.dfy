/**
 Tailing one growing file: the part of `_ensure_cache_current` that decides how far to read and
 what to parse (session_watcher.py, lines 702 to 757), against a single parse of the same bytes.
 */
module Tailing {
  import opened Common
  import opened SessionParser
  import opened LineSplitter

  /** How far a file has been consumed, and what its lines parsed to. */
  datatype Tail = Tail(consumed: nat, parsed: Parsed)

  /** One refresh: read from the consumed offset, keep the unfinished line for later. */
  function Refresh(json: Json, file: Bytes, t: Tail, session: SessionId): Tail
    requires t.consumed <= |file|
  {
    var complete := SplitAtLastCompleteLine(json, file[t.consumed..]).0;
    Tail(t.consumed + |complete|, ParseRecords(Decoded(json, Lines(complete)), t.parsed, session))
  }

  /** What one parse of the whole of `data`, line by line, gives. */
  function ParseOnce(json: Json, data: Bytes, start: Parsed, session: SessionId): Parsed {
    ParseRecords(Decoded(json, Lines(data)), start, session)
  }

  /** No proper prefix of an object is complete (section 4 of RFC 8259): a line that already
      reads as a record at some cut holds only blanks after it. */
  ghost predicate ObjectLine(json: Json, line: Bytes) {
    forall k :: 0 < k < |line| && Decode(json, line[..k]).Some? ==> Blank(line[k..])
  }

  ghost predicate ObjectLines(json: Json, data: Bytes) {
    forall line :: line in Lines(data) ==> ObjectLine(json, line)
  }

  /** The tail agrees with one parse of everything consumed so far. */
  ghost predicate Agrees(json: Json, file: Bytes, t: Tail, start: Parsed, session: SessionId) {
    && t.consumed <= |file|
    && var done := file[..t.consumed];
    && (AtLineStart(done) || Decode(json, LastLine(done)).Some?)
    && t.parsed == ParseOnce(json, done, start, session)
  }

  lemma DecodedAppend(json: Json, a: seq<Bytes>, b: seq<Bytes>)
    ensures Decoded(json, a + b) == Decoded(json, a) + Decoded(json, b)
  {}

  lemma ParseOneLine(json: Json, line: Bytes, acc: Parsed, session: SessionId)
    ensures ParseRecords(Decoded(json, [line]), acc, session) == ParseRecord(Decode(json, line), acc, session)
  {
    var records := Decoded(json, [line]);
    assert records == [Decode(json, line)];
    assert records[1..] == [];
  }

  /** Lines parsed in two goes, the second starting inside a line that was already complete, parse
      to what the fused line does. */
  lemma JoinParses(json: Json, a: seq<Bytes>, b: seq<Bytes>, abut: bool, start: Parsed, session: SessionId)
    requires a != [] && b != []
    requires !abut ==> Blank(b[0])
    ensures ParseRecords(Decoded(json, b), ParseRecords(Decoded(json, a), start, session), session)
         == ParseRecords(Decoded(json, Join(a, b, abut)), start, session)
  {
    if abut {
      DecodedAppend(json, a, b);
      ParseRecordsAppend(Decoded(json, a), Decoded(json, b), start, session);
    } else {
      var init, last := a[..|a| - 1], a[|a| - 1];
      var acc := ParseRecords(Decoded(json, init), start, session);
      DecodeIgnoresTrailingBlank(json, last, b[0]);
      assert a == init + [last] && b == [b[0]] + b[1..];
      DecodedAppend(json, init, [last]);
      ParseRecordsAppend(Decoded(json, init), Decoded(json, [last]), start, session);
      DecodedAppend(json, [b[0]], b[1..]);
      ParseRecordsAppend(Decoded(json, [b[0]]), Decoded(json, b[1..]), ParseRecord(Decode(json, last), acc, session),
          session);
      assert Join(a, b, false) == init + ([last + b[0]] + b[1..]);
      DecodedAppend(json, init, [last + b[0]] + b[1..]);
      DecodedAppend(json, [last + b[0]], b[1..]);
      ParseRecordsAppend(Decoded(json, init), Decoded(json, [last + b[0]] + b[1..]), start, session);
      ParseRecordsAppend(Decoded(json, [last + b[0]]), Decoded(json, b[1..]), acc, session);
      ParseOneLine(json, last, acc, session);
      ParseOneLine(json, b[0], ParseRecord(Decode(json, last), acc, session), session);
      ParseOneLine(json, last + b[0], acc, session);
    }
  }

  lemma LastLineIsLast(data: Bytes)
    requires data != []
    ensures Lines(data) != [] && Lines(data)[|Lines(data)| - 1] == LastLine(data)
  {
    LinesAppend(data, [0]);
  }

  lemma ObjectLinePrefix(json: Json, line: Bytes, more: Bytes)
    requires ObjectLine(json, line + more)
    ensures ObjectLine(json, line)
  {
    forall k | 0 < k < |line| && Decode(json, line[..k]).Some? ensures Blank(line[k..]) {
      assert (line + more)[..k] == line[..k];
      assert (line + more)[k..] == line[k..] + more;
      forall i | 0 <= i < |line[k..]| ensures IsSpace(line[k..][i]) {
        assert (line[k..] + more)[i] == line[k..][i];
      }
    }
  }

  lemma ObjectLinesPrefix(json: Json, p: Bytes, d: Bytes)
    requires ObjectLines(json, p + d)
    ensures ObjectLines(json, p)
  {
    if p == [] || d == [] {
      assert p + d == if p == [] then d else p;
    } else {
      LinesAppend(p, d);
      var a, b, whole := Lines(p), Lines(d), Lines(p + d);
      forall k | 0 <= k < |a| ensures ObjectLine(json, a[k]) {
        if k < |a| - 1 || AtLineStart(p) {
          assert whole[k] == a[k];
        } else {
          assert whole[k] == a[k] + b[0];
          ObjectLinePrefix(json, a[k], b[0]);
        }
      }
    }
  }

  lemma FusedLineIsBlank(json: Json, p: Bytes, d: Bytes)
    requires p != [] && d != [] && ObjectLines(json, p + d) && !AtLineStart(p) && Decode(json, LastLine(p)).Some?
    ensures Lines(d) != [] && Blank(Lines(d)[0])
  {
    LinesAppend(p, d);
    var a, b, last := Lines(p), Lines(d), LastLine(p);
    assert Lines(p + d)[|a| - 1] == last + b[0];
    assert ObjectLine(json, last + b[0]);
    SplitConcat(last, b[0]);
    assert last != [];
  }

  lemma FusedLineIsDone(json: Json, p: Bytes, d: Bytes)
    requires p != [] && d != [] && ObjectLines(json, p + d)
    requires AtLineStart(p) || Decode(json, LastLine(p)).Some?
    requires AtLineStart(d) || Decode(json, LastLine(d)).Some?
    ensures Lines(p) != [] && Lines(d) != [] && Lines(p + d) == Join(Lines(p), Lines(d), AtLineStart(p))
    ensures !AtLineStart(p) ==> Blank(Lines(d)[0])
    ensures AtLineStart(p + d) || Decode(json, LastLine(p + d)).Some?
  {
    LinesAppend(p, d);
    if !AtLineStart(p) {
      FusedLineIsBlank(json, p, d);
    }
    if !AtLineStart(d) {
      JoinEnds(json, p, d);
    } else {
      assert (p + d)[|p + d| - 1] == d[|d| - 1];
    }
  }

  /** The joined stretch ends in a complete record if the second one does. */
  lemma JoinEnds(json: Json, p: Bytes, d: Bytes)
    requires p != [] && d != [] && Decode(json, LastLine(d)).Some?
    requires !AtLineStart(p) ==> Lines(d) != [] && Blank(Lines(d)[0])
    ensures LastLine(p + d) == LastLine(d)
  {
    LinesAppend(p, d);
    LastLineIsLast(d);
    LastLineIsLast(p + d);
    var a, b := Lines(p), Lines(d);
    if !AtLineStart(p) && |b| == 1 {
      DecodeIgnoresTrailingBlank(json, [], b[0]);
    }
    assert Join(a, b, AtLineStart(p))[|Join(a, b, AtLineStart(p))| - 1] == b[|b| - 1];
  }

  lemma ParseOnceNothing(json: Json, start: Parsed, session: SessionId)
    ensures ParseOnce(json, [], start, session) == start
  {
    assert Decoded(json, Lines([])) == [];
  }

  /** The consumed bytes and the newly complete ones, parsed in two goes or in one. */
  lemma AppendAgrees(json: Json, p: Bytes, d: Bytes, rest: Bytes, parsed: Parsed, start: Parsed, session: SessionId)
    requires ObjectLines(json, p + d + rest) && parsed == ParseOnce(json, p, start, session)
    requires AtLineStart(p) || Decode(json, LastLine(p)).Some?
    requires AtLineStart(d) || Decode(json, LastLine(d)).Some?
    ensures ParseRecords(Decoded(json, Lines(d)), parsed, session) == ParseOnce(json, p + d, start, session)
    ensures AtLineStart(p + d) || Decode(json, LastLine(p + d)).Some?
  {
    if d == [] {
      assert p + d == p;
      ParseOnceNothing(json, parsed, session);
    } else if p == [] {
      assert p + d == d;
      ParseOnceNothing(json, start, session);
    } else {
      ObjectLinesPrefix(json, p + d, rest);
      FusedLineIsDone(json, p, d);
      JoinParses(json, Lines(p), Lines(d), AtLineStart(p), start, session);
    }
  }

  /** Refreshing keeps the agreement, and leaves nothing but one unfinished line unread. */
  lemma RefreshAgrees(json: Json, file: Bytes, t: Tail, start: Parsed, session: SessionId)
    requires Agrees(json, file, t, start, session) && ObjectLines(json, file)
    ensures var t' := Refresh(json, file, t, session);
      && Agrees(json, file, t', start, session)
      && t.consumed <= t'.consumed
      && NoNewline(file[t'.consumed..])
      && Decode(json, file[t'.consumed..]).None?
  {
    var p, data := file[..t.consumed], file[t.consumed..];
    var d, rest := SplitAtLastCompleteLine(json, data).0, SplitAtLastCompleteLine(json, data).1;
    SplitLeavesOnlyUnfinished(json, data);
    CutInThree(file, t.consumed, d, rest);
    AppendAgrees(json, p, d, rest, t.parsed, start, session);
    StripBlank([]);
  }

  lemma CutInThree(file: Bytes, n: nat, d: Bytes, rest: Bytes)
    requires n <= |file| && file[n..] == d + rest
    ensures n + |d| <= |file| && file[..n + |d|] == file[..n] + d && file[n + |d|..] == rest
        && file == file[..n] + d + rest
  {
    assert file == file[..n] + file[n..];
  }

  // ---------------------------------------------------------------- whole runs

  /** The file as each refresh finds it: it only ever grows. */
  ghost predicate OnlyGrows(files: seq<Bytes>) {
    forall i :: 0 <= i < |files| - 1 ==> files[i] <= files[i + 1]
  }

  function TailRun(json: Json, files: seq<Bytes>, start: Parsed, session: SessionId): (t: Tail)
    requires OnlyGrows(files)
    ensures files == [] ==> t == Tail(0, start)
    ensures files != [] ==> t.consumed <= |files[|files| - 1]|
  {
    if files == [] then Tail(0, start)
    else
      var last := |files| - 1;
      var t := TailRun(json, files[..last], start, session);
      assert last > 0 ==> files[last - 1] <= files[last];
      Refresh(json, files[last], t, session)
  }

  lemma AgreesOnPrefix(json: Json, file: Bytes, whole: Bytes, t: Tail, start: Parsed, session: SessionId)
    requires file <= whole && t.consumed <= |file|
    ensures Agrees(json, file, t, start, session) <==> Agrees(json, whole, t, start, session)
  {
    assert whole[..t.consumed] == file[..t.consumed];
  }

  /** Up to the last refresh, the tail agrees with the file as that one finds it. */
  lemma {:induction false} TailSoFarAgrees(json: Json, files: seq<Bytes>, start: Parsed, session: SessionId)
    requires OnlyGrows(files) && files != [] && ObjectLines(json, files[|files| - 1])
    ensures Agrees(json, files[|files| - 1], TailRun(json, files[..|files| - 1], start, session), start, session)
    decreases |files|, 0
  {
    var last := |files| - 1;
    var file := files[last];
    if last == 0 {
      assert file[..0] == [];
      ParseOnceNothing(json, start, session);
    } else {
      var before := files[last - 1];
      assert before <= file;
      assert file == before + file[|before|..];
      ObjectLinesPrefix(json, before, file[|before|..]);
      TailingEqualsBatch(json, files[..last], start, session);
      AgreesOnPrefix(json, before, file, TailRun(json, files[..last], start, session), start, session);
    }
  }

  /** Incremental tailing equals a batch parse. However a file of complete-object lines is written
      out piecemeal and however often it is refreshed on the way, the events, the dedup set and the
      tool-name map are those of one parse of the consumed bytes; and after a refresh those are all
      the bytes except one unfinished line. No record is lost, split or parsed twice. */
  lemma {:induction false} TailingEqualsBatch(json: Json, files: seq<Bytes>, start: Parsed, session: SessionId)
    requires OnlyGrows(files) && files != [] && ObjectLines(json, files[|files| - 1])
    ensures var t := TailRun(json, files, start, session);
      var file := files[|files| - 1];
      && t.parsed == ParseOnce(json, file[..t.consumed], start, session)
      && NoNewline(file[t.consumed..])
      && Decode(json, file[t.consumed..]).None?
      && Agrees(json, file, t, start, session)
    decreases |files|, 1
  {
    var last := |files| - 1;
    TailSoFarAgrees(json, files, start, session);
    RefreshAgrees(json, files[last], TailRun(json, files[..last], start, session), start, session);
  }

  /** Handing the whole prefix to parse_session_lines at once adds its final sort: the two
      agree exactly when the lines carry their timestamps in order. */
  lemma BatchSortAgreesIff(json: Json, files: seq<Bytes>, start: Parsed, session: SessionId)
    requires OnlyGrows(files) && files != [] && ObjectLines(json, files[|files| - 1])
    ensures var t := TailRun(json, files, start, session);
      var batch := SortByTimestamp(ParseOnce(json, files[|files| - 1][..t.consumed], start, session).events);
      && multiset(batch) == multiset(t.parsed.events)
      && (batch == t.parsed.events <==> InTimeOrder(t.parsed.events))
  {
    TailingEqualsBatch(json, files, start, session);
    var t := TailRun(json, files, start, session);
    SortIsStable(t.parsed.events, 0);
    SortIsIdentityIff(t.parsed.events);
  }

  /** Two messages, the second stamped before the first. */
  function Backwards(text: Bytes): Option<Raw> {
    if text == [65] then Some(Raw("a", Some(2), QueuedRecord(Some("first"))))
    else if text == [66] then Some(Raw("b", Some(1), QueuedRecord(Some("second"))))
    else None
  }

  const BACKWARDS_FILE: Bytes := [65, NEWLINE, 66, NEWLINE]

  function Queued(uuid: string, ts: int, prompt: string, session: SessionId): Event {
    Event(MakeEventId(uuid, "queued"), ts, session, uuid, UserMessage(prompt))
  }

  lemma BackwardsLines()
    ensures Lines(BACKWARDS_FILE) == [[65, NEWLINE], [66, NEWLINE]] && ObjectLines(Backwards, BACKWARDS_FILE)
    ensures AfterLastNewline(BACKWARDS_FILE) == 4
    ensures Decoded(Backwards, Lines(BACKWARDS_FILE)) == [Backwards([65]), Backwards([66])]
  {
    var file := BACKWARDS_FILE;
    AfterLastNewlineIs(file, 4, 4);
    FirstNewlineFromIs(file, 0, 1);
    FirstNewlineFromIs(file, 2, 3);
    assert file[0..2] == [65, NEWLINE] && file[2..4] == [66, NEWLINE];
    assert LinesFrom(file, 4) == [] && LinesFrom(file, 2) == [[66, NEWLINE]];
    ShortLineDecodes(Backwards, 65);
    ShortLineDecodes(Backwards, 66);
  }

  lemma BackwardsParse(session: SessionId)
    ensures ParseRecords([Backwards([65]), Backwards([66])], Parsed([], {}, map[]), session).events
         == [Queued("a", 2, "first", session), Queued("b", 1, "second", session)]
  {
    var a, b := Queued("a", 2, "first", session), Queued("b", 1, "second", session);
    var start, one: Parsed := Parsed([], {}, map[]), Parsed([a], {a.id}, map[]);
    assert a.id[0] == 'a' && b.id[0] == 'b';
    assert [] + [a] == [a] && [a] + [b] == [a, b];
    assert ParseRecord(Backwards([65]), start, session) == one;
    assert [Backwards([65]), Backwards([66])][1..] == [Backwards([66])] && [Backwards([66])][1..] == [];
    assert ParseRecords([Backwards([66])], one, session) == ParseRecord(Backwards([66]), one, session);
  }

  /** Two such lines, read in one refresh: the index keeps them in file order, the batch swaps them. */
  lemma BackwardsTimesAreSwapped(session: SessionId)
    ensures OnlyGrows([BACKWARDS_FILE]) && ObjectLines(Backwards, BACKWARDS_FILE)
    ensures var start := Parsed([], {}, map[]);
      var t := TailRun(Backwards, [BACKWARDS_FILE], start, session);
      && t.consumed == 4
      && t.parsed.events == [Queued("a", 2, "first", session), Queued("b", 1, "second", session)]
      && SortByTimestamp(ParseOnce(Backwards, BACKWARDS_FILE, start, session).events) != t.parsed.events
  {
    var start := Parsed([], {}, map[]);
    var t := TailRun(Backwards, [BACKWARDS_FILE], start, session);
    BackwardsLines();
    BackwardsParse(session);
    assert [BACKWARDS_FILE][..0] == [] && BACKWARDS_FILE[0..] == BACKWARDS_FILE;
    assert TailRun(Backwards, [], start, session) == Tail(0, start);
    assert t == Refresh(Backwards, BACKWARDS_FILE, Tail(0, start), session);
    SortIsIdentityIff(t.parsed.events);
    assert t.parsed.events[0].timestamp > t.parsed.events[1].timestamp;
  }
}
