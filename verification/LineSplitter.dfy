/**
 Cutting appended bytes into lines
 (apps/system_interface/imbue/system_interface/session_watcher.py, lines 94 to 157).

 The JSON reader is the parameter `json`, applied to stripped text; `None` is a decode error.
 */
module LineSplitter {
  import opened Common
  import opened SessionParser

  type Byte = int  // the range of a byte plays no part below
  type Bytes = seq<Byte>
  type Json = Bytes -> Option<Raw>

  const NEWLINE: Byte := 10

  /** The ASCII whitespace that `bytes.strip` removes. */
  predicate IsSpace(b: Byte) {
    b == 32 || 9 <= b <= 13
  }

  ghost predicate Blank(data: Bytes) {
    forall i :: 0 <= i < |data| ==> IsSpace(data[i])
  }

  function StripLeft(data: Bytes): Bytes {
    if data != [] && IsSpace(data[0]) then StripLeft(data[1..]) else data
  }

  function StripRight(data: Bytes): Bytes {
    if data != [] && IsSpace(data[|data| - 1]) then StripRight(data[..|data| - 1]) else data
  }

  function Strip(data: Bytes): Bytes {
    StripRight(StripLeft(data))
  }

  /** What one line parses to; a line is complete when this is `Some`. */
  function Decode(json: Json, line: Bytes): Option<Raw> {
    var text := Strip(line);
    if text == [] then None else json(text)
  }

  function Decoded(json: Json, lines: seq<Bytes>): seq<Option<Raw>> {
    seq(|lines|, i requires 0 <= i < |lines| => Decode(json, lines[i]))
  }

  ghost predicate NoNewline(data: Bytes) {
    forall i :: 0 <= i < |data| ==> data[i] != NEWLINE
  }

  /** Index of the first newline at `i` or later, or the length when there is none (`data.find`). */
  function FirstNewlineFrom(data: Bytes, i: nat): (n: nat)
    requires i <= |data|
    ensures i <= n <= |data|
    decreases |data| - i
  {
    if i == |data| || data[i] == NEWLINE then i else FirstNewlineFrom(data, i + 1)
  }

  lemma {:induction false} FirstNewlineFromIs(data: Bytes, pos: nat, n: nat)
    requires pos <= n <= |data| && (n < |data| ==> data[n] == NEWLINE) && forall k :: pos <= k < n ==>
        data[k] != NEWLINE
    ensures FirstNewlineFrom(data, pos) == n
    decreases |data| - pos
  {
    if pos < n {
      FirstNewlineFromIs(data, pos + 1, n);
    }
  }

  lemma {:induction false} FirstNewlineFromFinds(data: Bytes, pos: nat)
    requires pos <= |data|
    ensures var n := FirstNewlineFrom(data, pos);
        (n < |data| ==> data[n] == NEWLINE) && forall k :: pos <= k < n ==> data[k] != NEWLINE
    decreases |data| - pos
  {
    if pos < |data| && data[pos] != NEWLINE {
      FirstNewlineFromFinds(data, pos + 1);
    }
  }

  /** Index just past the last newline before `i`, or 0 when there is none (`data.rfind` plus one). */
  function AfterLastNewlineBefore(data: Bytes, i: nat): (n: nat)
    requires i <= |data|
    ensures n <= i
    decreases i
  {
    if i == 0 || data[i - 1] == NEWLINE then i else AfterLastNewlineBefore(data, i - 1)
  }

  function AfterLastNewline(data: Bytes): nat {
    AfterLastNewlineBefore(data, |data|)
  }

  lemma {:induction false} AfterLastNewlineIs(data: Bytes, i: nat, n: nat)
    requires n <= i <= |data| && (n > 0 ==> data[n - 1] == NEWLINE) && forall k :: n <= k < i ==> data[k] != NEWLINE
    ensures AfterLastNewlineBefore(data, i) == n
    decreases i
  {
    if n < i {
      AfterLastNewlineIs(data, i - 1, n);
    }
  }

  lemma {:induction false} AfterLastNewlineFinds(data: Bytes, i: nat)
    requires i <= |data|
    ensures var n := AfterLastNewlineBefore(data, i);
        (n > 0 ==> data[n - 1] == NEWLINE) && forall k :: n <= k < i ==> data[k] != NEWLINE
    decreases i
  {
    if i > 0 && data[i - 1] != NEWLINE {
      AfterLastNewlineFinds(data, i - 1);
    }
  }

  ghost predicate AtLineStart(data: Bytes) {
    data == [] || data[|data| - 1] == NEWLINE
  }

  /** Just past the line that starts at `pos`. */
  function LineEnd(data: Bytes, pos: nat): (n: nat)
    requires pos < |data|
    ensures pos < n <= |data|
  {
    var n := FirstNewlineFrom(data, pos);
    if n == |data| then n else n + 1
  }

  /** The lines of `data` from `pos` on, each with its newline; the last one may lack it. */
  function LinesFrom(data: Bytes, pos: nat): seq<Bytes>
    requires pos <= |data|
    decreases |data| - pos
  {
    if pos == |data| then [] else [data[pos..LineEnd(data, pos)]] + LinesFrom(data, LineEnd(data, pos))
  }

  function Lines(data: Bytes): seq<Bytes> {
    LinesFrom(data, 0)
  }

  datatype Span = Span(offset: nat, len: nat, line: Bytes)

  /** The spans of the lines from `pos` on, in a file where `data` stands at offset `base`. */
  function SpansFrom(data: Bytes, pos: nat, base: nat): seq<Span>
    requires pos <= |data|
    decreases |data| - pos
  {
    if pos == |data| then []
    else
      var next := LineEnd(data, pos);
      [Span(base + pos, next - pos, data[pos..next])] + SpansFrom(data, next, base)
  }

  function Spans(data: Bytes, base: nat): seq<Span> {
    SpansFrom(data, 0, base)
  }

  /** _split_at_last_complete_line */
  function SplitAtLastCompleteLine(json: Json, data: Bytes): (r: (Bytes, Bytes))
    ensures r.0 + r.1 == data
  {
    var cut := AfterLastNewline(data);
    if cut == |data| then (data, [])
    else if Decode(json, data[cut..]).Some? then (data, [])
    else
      assert data[..cut] + data[cut..] == data;
      (data[..cut], data[cut..])
  }

  /** The last line of a stretch of bytes starts just past the newline before its last byte. */
  function LastLine(data: Bytes): Bytes
    requires data != []
  {
    data[AfterLastNewlineBefore(data, |data| - 1)..]
  }

  /** What is left behind is one unfinished line and nothing else; what is consumed ends at a
      line start, or with a record that is complete on its own. */
  lemma SplitLeavesOnlyUnfinished(json: Json, data: Bytes)
    ensures var (done, rest) := SplitAtLastCompleteLine(json, data);
      && done + rest == data
      && (rest != [] ==> Decode(json, rest).None? && NoNewline(rest) && AtLineStart(done))
      && (AtLineStart(done) || Decode(json, LastLine(done)).Some?)
  {
    var cut := AfterLastNewline(data);
    AfterLastNewlineFinds(data, |data|);
    if cut < |data| {
      AfterLastNewlineIs(data, |data| - 1, cut);
    }
  }

  /** _iter_line_spans */
  method IterLineSpans(data: Bytes, base: nat) returns (spans: seq<Span>)
    ensures spans == Spans(data, base)
  {
    spans := [];
    var pos := 0;
    ghost var goal, rest := Spans(data, base), Spans(data, base);
    while pos < |data|
      invariant 0 <= pos <= |data|
      invariant spans + rest == goal && rest == SpansFrom(data, pos, base)
      decreases |data| - pos
    {
      var newline := FirstNewlineFrom(data, pos);
      var nextPos := if newline == |data| then |data| else newline + 1;
      SpansStep(data, pos, base, nextPos);
      rest := SpansFrom(data, nextPos, base);
      spans := spans + [Span(base + pos, nextPos - pos, data[pos..nextPos])];
      pos := nextPos;
    }
  }

  lemma SpansStep(data: Bytes, pos: nat, base: nat, next: nat)
    requires pos < |data| && next == LineEnd(data, pos)
    ensures SpansFrom(data, pos, base) == [Span(base + pos, next - pos, data[pos..next])] + SpansFrom(data, next, base)
  {
    var rest := SpansFrom(data, next, base);
    assert SpansFrom(data, pos, base) == [Span(base + pos, next - pos, data[pos..next])] + rest;
  }

  /** Every span addresses exactly its own line: re-reading `len` bytes at `offset` gives it back. */
  lemma {:induction false} SpansTile(data: Bytes, pos: nat, base: nat, k: nat)
    requires pos <= |data| && k < |SpansFrom(data, pos, base)|
    ensures var s := SpansFrom(data, pos, base)[k];
      base + pos <= s.offset && s.offset + s.len <= base + |data| && s.len > 0
          && data[s.offset - base..s.offset - base + s.len] == s.line
    decreases k
  {
    if k > 0 {
      SpansTile(data, LineEnd(data, pos), base, k - 1);
    }
  }

  /** A line is not empty and holds no newline but its last byte; */
  ghost predicate IsLine(line: Bytes) {
    line != [] && NoNewline(line[..|line| - 1])
  }

  lemma {:induction false} LinesFromAreLines(data: Bytes, pos: nat)
    requires pos <= |data|
    ensures var lines := LinesFrom(data, pos);
      && (forall k :: 0 <= k < |lines| ==> IsLine(lines[k]))
      && (forall k :: 0 <= k < |lines| - 1 ==> !NoNewline(lines[k]))
      && Flatten(lines) == data[pos..]
    decreases |data| - pos
  {
    if pos < |data| {
      var next := LineEnd(data, pos);
      FirstNewlineFromFinds(data, pos);
      LinesFromAreLines(data, next);
      LinesStep(data, pos, next);
      var line, rest := data[pos..next], LinesFrom(data, next);
      assert next < |data| ==> line[next - 1 - pos] == NEWLINE;
      assert data[pos..] == line + data[next..];
      assert ([line] + rest)[1..] == rest;
    }
  }

  /** every line but the last ends in a newline, and together they are the bytes. */
  lemma LinesAreCutAtNewlines(data: Bytes)
    ensures forall k :: 0 <= k < |Lines(data)| ==> IsLine(Lines(data)[k])
    ensures forall k :: 0 <= k < |Lines(data)| - 1 ==> !NoNewline(Lines(data)[k])
    ensures Flatten(Lines(data)) == data
  {
    LinesFromAreLines(data, 0);
  }

  function LinesOf(spans: seq<Span>): seq<Bytes> {
    seq(|spans|, i requires 0 <= i < |spans| => spans[i].line)
  }

  lemma LinesOfCons(span: Span, spans: seq<Span>)
    ensures LinesOf([span] + spans) == [span.line] + LinesOf(spans)
  {}

  lemma {:induction false} SpansFromAreLines(data: Bytes, pos: nat, base: nat)
    requires pos <= |data|
    ensures LinesOf(SpansFrom(data, pos, base)) == LinesFrom(data, pos)
    decreases |data| - pos
  {
    if pos < |data| {
      var next := LineEnd(data, pos);
      SpansFromAreLines(data, next, base);
      LinesOfCons(Span(base + pos, next - pos, data[pos..next]), SpansFrom(data, next, base));
    }
  }

  lemma SpansAreLines(data: Bytes, base: nat)
    ensures LinesOf(Spans(data, base)) == Lines(data)
  {
    SpansFromAreLines(data, 0, base);
  }

  /** A line of one visible byte. */
  lemma ShortLineDecodes(json: Json, byte: Byte)
    requires !IsSpace(byte)
    ensures Decode(json, [byte, NEWLINE]) == json([byte])
  {
    assert StripLeft([byte, NEWLINE]) == [byte, NEWLINE];
    assert [byte, NEWLINE][..1] == [byte] && StripRight([byte]) == [byte];
  }

  // ---------------------------------------------------------------- where a cut falls

  lemma {:induction false} StripBlank(data: Bytes)
    requires Blank(data)
    ensures StripLeft(data) == []
  {
    if data != [] {
      StripBlank(data[1..]);
    }
  }

  lemma {:induction false} StripRightBlank(data: Bytes, tail: Bytes)
    requires Blank(tail)
    ensures StripRight(data + tail) == StripRight(data)
    decreases |tail|
  {
    if tail == [] {
      assert data + tail == data;
    } else {
      assert (data + tail)[..|data + tail| - 1] == data + tail[..|tail| - 1];
      StripRightBlank(data, tail[..|tail| - 1]);
    }
  }

  lemma {:induction false} StripLeftAppend(data: Bytes, tail: Bytes)
    ensures StripLeft(data + tail) == if StripLeft(data) == [] then StripLeft(tail) else StripLeft(data) + tail
  {
    if data == [] {
      assert data + tail == tail;
    } else {
      assert (data + tail)[1..] == data[1..] + tail;
      StripLeftAppend(data[1..], tail);
    }
  }

  /** The blanks around a line do not matter: the JSON reader gets the text between them, */
  lemma DecodeReadsTheText(json: Json, before: Bytes, text: Bytes, tail: Bytes)
    requires Blank(before) && Blank(tail)
    requires text != [] && !IsSpace(text[0]) && !IsSpace(text[|text| - 1])
    ensures Decode(json, before + text + tail) == json(text)
  {
    assert before + text + tail == before + (text + tail);
    StripBlank(before);
    StripLeftAppend(before, text + tail);
    StripRightBlank(text, tail);
  }

  /** and of blanks alone it gets nothing. */
  lemma DecodeIgnoresTrailingBlank(json: Json, data: Bytes, tail: Bytes)
    requires Blank(tail)
    ensures Decode(json, data + tail) == Decode(json, data)
    ensures Decode(json, tail).None?
  {
    StripBlank(tail);
    StripLeftAppend(data, tail);
    StripRightBlank(StripLeft(data), tail);
  }

  /** Two line lists joined: side by side, or with the last and the first line fused into one. */
  function Join(a: seq<Bytes>, b: seq<Bytes>, abut: bool): seq<Bytes>
    requires a != [] && b != []
  {
    if abut then a + b else a[..|a| - 1] + [a[|a| - 1] + b[0]] + b[1..]
  }

  lemma JoinCons(line: Bytes, a: seq<Bytes>, b: seq<Bytes>, abut: bool)
    requires a != [] && b != []
    ensures Join([line] + a, b, abut) == [line] + Join(a, b, abut)
  {
    if abut {
      assert [line] + a + b == [line] + (a + b);
    } else {
      var all, init, fused := [line] + a, a[..|a| - 1], [a[|a| - 1] + b[0]];
      assert all[|all| - 1] == a[|a| - 1];
      assert all[..|all| - 1] == [line] + init;
      assert [line] + init + fused + b[1..] == [line] + (init + fused + b[1..]);
    }
  }

  lemma LineEndBefore(p: Bytes, d: Bytes, pos: nat)
    requires pos < |p| && FirstNewlineFrom(p, pos) < |p|
    ensures LineEnd(p + d, pos) == LineEnd(p, pos)
  {
    FirstNewlineFromFinds(p, pos);
    FirstNewlineFromIs(p + d, pos, FirstNewlineFrom(p, pos));
  }

  lemma LineEndPast(p: Bytes, d: Bytes, pos: nat)
    requires pos < |d|
    ensures LineEnd(p + d, |p| + pos) == |p| + LineEnd(d, pos)
  {
    FirstNewlineFromFinds(d, pos);
    FirstNewlineFromIs(p + d, |p| + pos, |p| + FirstNewlineFrom(d, pos));
  }

  lemma LineEndAcross(p: Bytes, d: Bytes, pos: nat)
    requires pos < |p| && d != [] && FirstNewlineFrom(p, pos) == |p|
    ensures LineEnd(p + d, pos) == |p| + LineEnd(d, 0)
  {
    FirstNewlineFromFinds(p, pos);
    FirstNewlineFromFinds(d, 0);
    FirstNewlineFromIs(p + d, pos, |p| + FirstNewlineFrom(d, 0));
  }

  lemma LinesStep(data: Bytes, pos: nat, next: nat)
    requires pos < |data| && next == LineEnd(data, pos)
    ensures LinesFrom(data, pos) == [data[pos..next]] + LinesFrom(data, next)
  {}

  /** The lines of the second stretch are found again behind the first. */
  lemma {:induction false} LinesShift(p: Bytes, d: Bytes, pos: nat)
    requires pos <= |d|
    ensures LinesFrom(p + d, |p| + pos) == LinesFrom(d, pos)
    decreases |d| - pos
  {
    if pos < |d| {
      var next := LineEnd(d, pos);
      LinesShift(p, d, next);
      LineEndPast(p, d, pos);
      SlicePast(p, d, pos, next);
      LinesStep(d, pos, next);
      LinesStep(p + d, |p| + pos, |p| + next);
    }
  }

  lemma LastStretchStart(p: Bytes, pos: nat)
    requires pos < |p| && LineEnd(p, pos) == |p| && (pos == 0 || p[pos - 1] == NEWLINE)
    ensures AfterLastNewlineBefore(p, |p| - 1) == pos && (p[|p| - 1] == NEWLINE <==> FirstNewlineFrom(p, pos) < |p|)
  {
    FirstNewlineFromFinds(p, pos);
    AfterLastNewlineIs(p, |p| - 1, pos);
  }

  lemma LastStretchLine(p: Bytes, pos: nat)
    requires pos < |p| && LineEnd(p, pos) == |p| && (pos == 0 || p[pos - 1] == NEWLINE)
    ensures LastLine(p) == p[pos..]
  {
    LastStretchStart(p, pos);
  }

  lemma LastStretch(p: Bytes, pos: nat)
    requires pos < |p| && LineEnd(p, pos) == |p|
    ensures LinesFrom(p, pos) == [p[pos..]]
  {
    LinesStep(p, pos, |p|);
    SliceToEnd(p, pos);
  }

  lemma LastStretchAbuts(p: Bytes, d: Bytes, pos: nat)
    requires pos < |p| && LineEnd(p, pos) == |p| && FirstNewlineFrom(p, pos) < |p|
    ensures LinesFrom(p + d, pos) == [p[pos..]] + LinesFrom(d, 0)
  {
    LineEndBefore(p, d, pos);
    SliceBefore(p, d, pos, |p|);
    LinesShift(p, d, 0);
    LinesStep(p + d, pos, |p|);
  }

  lemma LastStretchFuses(p: Bytes, d: Bytes, pos: nat)
    requires pos < |p| && d != [] && FirstNewlineFrom(p, pos) == |p|
    ensures LinesFrom(p + d, pos) == [p[pos..] + LinesFrom(d, 0)[0]] + LinesFrom(d, 0)[1..]
  {
    var next := LineEnd(d, 0);
    LinesStep(d, 0, next);
    LineEndAcross(p, d, pos);
    SliceAcross(p, d, pos, next);
    LinesShift(p, d, next);
    LinesStep(p + d, pos, |p| + next);
  }

  lemma JoinOne(line: Bytes, b: seq<Bytes>, abut: bool)
    requires b != []
    ensures Join([line], b, abut) == if abut then [line] + b else [line + b[0]] + b[1..]
  {}

  lemma LinesAppendLast(p: Bytes, d: Bytes, pos: nat)
    requires pos < |p| && d != [] && (pos == 0 || p[pos - 1] == NEWLINE) && LineEnd(p, pos) == |p|
    ensures LinesFrom(d, 0) != [] && LinesFrom(p + d, pos) == Join([p[pos..]], LinesFrom(d, 0), AtLineStart(p))
  {
    LastStretchStart(p, pos);
    if AtLineStart(p) {
      LastStretchAbuts(p, d, pos);
    } else {
      LastStretchFuses(p, d, pos);
    }
    JoinOne(p[pos..], LinesFrom(d, 0), AtLineStart(p));
  }

  /** From any line start on, the lines of two stretches of bytes abut where they meet, or fuse. */
  lemma {:induction false} LinesAppendFrom(p: Bytes, d: Bytes, pos: nat)
    requires pos < |p| && d != [] && (pos == 0 || p[pos - 1] == NEWLINE)
    ensures LinesFrom(p, pos) != [] && LinesFrom(d, 0) != []
    ensures LinesFrom(p, pos)[|LinesFrom(p, pos)| - 1] == LastLine(p)
    ensures LinesFrom(p + d, pos) == Join(LinesFrom(p, pos), LinesFrom(d, 0), AtLineStart(p))
    decreases |p| - pos
  {
    var next := LineEnd(p, pos);
    if next == |p| {
      LastStretch(p, pos);
      LastStretchLine(p, pos);
      LinesAppendLast(p, d, pos);
    } else {
      NotLast(p, d, pos);
      LinesAppendFrom(p, d, next);
      JoinCons(p[pos..next], LinesFrom(p, next), LinesFrom(d, 0), AtLineStart(p));
    }
  }

  lemma NotLast(p: Bytes, d: Bytes, pos: nat)
    requires pos < |p| && LineEnd(p, pos) < |p|
    ensures var next := LineEnd(p, pos);
      p[next - 1] == NEWLINE && LinesFrom(p, pos) == [p[pos..next]] + LinesFrom(p, next)
          && LinesFrom(p + d, pos) == [p[pos..next]] + LinesFrom(p + d, next)
  {
    var next := LineEnd(p, pos);
    FirstNewlineFromFinds(p, pos);
    LineEndBefore(p, d, pos);
    SliceBefore(p, d, pos, next);
    LinesStep(p, pos, next);
    LinesStep(p + d, pos, next);
  }

  /** Where two stretches of bytes meet, their lines either abut or fuse into one. */
  lemma LinesAppend(p: Bytes, d: Bytes)
    requires p != [] && d != []
    ensures Lines(p) != [] && Lines(d) != []
    ensures Lines(p)[|Lines(p)| - 1] == LastLine(p)
    ensures Lines(p + d) == Join(Lines(p), Lines(d), AtLineStart(p))
  {
    LinesAppendFrom(p, d, 0);
  }
}
