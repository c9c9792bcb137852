/**
 The shell newline and comment scanner, and the splitting of a token list into commands
 (libs/tk_command_parsing/src/tk_command_parsing/parser.py, lines 68 to 94 and 146 to 251).
*/
module NewlineNormalizer {
  import opened Common

  predicate IsPunct(c: char) {
    c in "();<>|&"
  }

  /** After these a `#` begins a word. */
  predicate IsBoundary(c: char) {
    c in " \t\n" || IsPunct(c)
  }

  predicate AfterBoundary(prev: Option<char>) {
    prev.None? || IsBoundary(prev.value)
  }

  datatype Scan = Scan(inComment: bool, escaped: bool, quote: Option<char>, prev: Option<char>)

  const START := Scan(false, false, None, None)

  /** One character: the next state, and what is put out. */
  function Step(s: Scan, ch: char): (Scan, string) {
    if s.inComment then
      if ch == '\n' then (Scan(false, s.escaped, s.quote, Some('\n')), ";") else (s, "")
    else if s.escaped then (Scan(false, false, s.quote, Some(ch)), [ch])
    else if s.quote != Some('\'') && ch == '\\' then (Scan(false, true, s.quote, Some(ch)), [ch])
    else if s.quote.Some? then (Scan(false, false, if s.quote == Some(ch) then None else s.quote, Some(ch)), [ch])
    else if ch == '\'' || ch == '"' then (Scan(false, false, Some(ch), Some(ch)), [ch])
    else if ch == '#' && AfterBoundary(s.prev) then (Scan(true, false, None, s.prev), "")
    else (Scan(false, false, None, Some(ch)), if ch == '\n' then ";" else [ch])
  }

  function Run(s: Scan, cmd: string): string
    decreases |cmd|
  {
    if cmd == "" then "" else Step(s, cmd[0]).1 + Run(Step(s, cmd[0]).0, cmd[1..])
  }

  /** _newlines_to_semicolons */
  function Normalized(cmd: string): string {
    Run(START, cmd)
  }

  method NewlinesToSemicolons(cmd: string) returns (out: string)
    ensures out == Normalized(cmd)
  {
    out := "";
    var quote: Option<char> := None;
    var escaped, inComment := false, false;
    var prev: Option<char> := None;
    ghost var goal, rest, s := Normalized(cmd), Normalized(cmd), START;
    var i := 0;
    assert cmd[0..] == cmd;
    while i < |cmd|
      invariant 0 <= i <= |cmd| && s == Scan(inComment, escaped, quote, prev)
      invariant out + rest == goal && rest == Run(s, cmd[i..])
    {
      var ch := cmd[i];
      RunFrom(s, cmd, i);
      ghost var put := Step(s, ch).1;
      rest := Run(Step(s, ch).0, cmd[i + 1..]);
      assert out + put + rest == goal;
      ghost var was := out;
      if inComment {
        if ch == '\n' {
          inComment := false;
          out := out + ";";
          prev := Some('\n');
        }
      } else if escaped {
        out := out + [ch];
        escaped := false;
        prev := Some(ch);
      } else if quote != Some('\'') && ch == '\\' {
        out := out + [ch];
        escaped := true;
        prev := Some(ch);
      } else if quote.Some? {
        out := out + [ch];
        if quote == Some(ch) {
          quote := None;
        }
        prev := Some(ch);
      } else if ch == '\'' || ch == '"' {
        quote := Some(ch);
        out := out + [ch];
        prev := Some(ch);
      } else if ch == '#' && AfterBoundary(prev) {
        inComment := true;
      } else {
        out := out + if ch == '\n' then ";" else [ch];
        prev := Some(ch);
      }
      assert out == was + put;
      s := Step(s, ch).0;
      i := i + 1;
    }
  }

  lemma RunFrom(s: Scan, cmd: string, i: nat)
    requires i < |cmd|
    ensures Run(s, cmd[i..]) == Step(s, cmd[i]).1 + Run(Step(s, cmd[i]).0, cmd[i + 1..])
  {
    assert cmd[i..][1..] == cmd[i + 1..];
  }

  // ---------------------------------------------------------------- what the text reads as

  /** A character as the shell reads it: guarded by a quote or a backslash, plain, or a separator, which is
      how an unquoted `;` and an unquoted newline both read. Comments are not read at all. */
  datatype Glyph = Guarded(c: char) | Plain(p: char) | Separator

  function Reads(s: Scan, ch: char): seq<Glyph> {
    if s.inComment then if ch == '\n' then [Separator] else []
    else if s.escaped || (s.quote != Some('\'') && ch == '\\') || s.quote.Some? || ch == '\'' || ch == '"'
        then [Guarded(ch)]
    else if ch == '#' && AfterBoundary(s.prev) then []
    else if ch == '\n' || ch == ';' then [Separator]
    else [Plain(ch)]
  }

  function Reading(s: Scan, cmd: string): seq<Glyph>
    decreases |cmd|
  {
    if cmd == "" then [] else Reads(s, cmd[0]) + Reading(Step(s, cmd[0]).0, cmd[1..])
  }

  /** No unquoted newline is met and no comment begins. */
  predicate Clean(s: Scan, cmd: string)
    decreases |cmd|
  {
    cmd != "" ==>
      && !s.inComment
      && (!s.escaped && s.quote.None? ==> cmd[0] != '\n' && !(cmd[0] == '#' && AfterBoundary(s.prev)))
      && Clean(Step(s, cmd[0]).0, cmd[1..])
  }

  /** The scan of the output keeps step with the scan of the input, outside comments. */
  predicate InStep(s: Scan, o: Scan) {
    && !o.inComment && o.escaped == s.escaped && o.quote == s.quote
    && AfterBoundary(o.prev) == AfterBoundary(s.prev)
    && (s.inComment ==> !s.escaped && s.quote.None? && AfterBoundary(s.prev))
  }

  lemma StepInStep(s: Scan, o: Scan, ch: char)
    requires InStep(s, o)
    ensures var (s', out) := Step(s, ch);
      && |out| <= 1
      && (out == "" ==> InStep(s', o) && Reads(s, ch) == [])
      && (out != "" ==>
            && Step(o, out[0]).1 == out && InStep(s', Step(o, out[0]).0)
            && Reads(o, out[0]) == Reads(s, ch)
            && (!o.escaped && o.quote.None? ==> out[0] != '\n' && !(out[0] == '#' && AfterBoundary(o.prev))))
  {}

  /** Scanning the output changes nothing, finds no plain newline and no comment, and reads the same. */
  lemma {:induction false} OutputReadsSame(s: Scan, o: Scan, cmd: string)
    requires InStep(s, o)
    ensures Run(o, Run(s, cmd)) == Run(s, cmd)
    ensures Clean(o, Run(s, cmd))
    ensures Reading(o, Run(s, cmd)) == Reading(s, cmd)
    decreases |cmd|
  {
    if cmd != "" {
      StepInStep(s, o, cmd[0]);
      var s', out := Step(s, cmd[0]).0, Step(s, cmd[0]).1;
      var rest := Run(s', cmd[1..]);
      if out == "" {
        OutputReadsSame(s', o, cmd[1..]);
        assert out + rest == rest;
      } else {
        OutputReadsSame(s', Step(o, out[0]).0, cmd[1..]);
        assert (out + rest)[0] == out[0] && (out + rest)[1..] == rest;
      }
    }
  }

  /** The normaliser is idempotent, its output has no unquoted newline and no comment, and reads as the
      input does: quoted and escaped text verbatim, every line end outside quotes a separator. */
  lemma NormalizingPreservesTheReading(cmd: string)
    ensures Normalized(Normalized(cmd)) == Normalized(cmd)
    ensures Clean(START, Normalized(cmd))
    ensures Reading(START, Normalized(cmd)) == Reading(START, cmd)
  {
    OutputReadsSame(START, START, cmd);
  }

  lemma {:induction false} CleanIsKept(s: Scan, cmd: string)
    requires Clean(s, cmd)
    ensures Run(s, cmd) == cmd
    decreases |cmd|
  {
    if cmd != "" {
      CleanIsKept(Step(s, cmd[0]).0, cmd[1..]);
      assert cmd == [cmd[0]] + cmd[1..];
    }
  }

  /** Exactly the texts without unquoted newline and comment are left alone. */
  lemma UnchangedIffClean(cmd: string)
    ensures Normalized(cmd) == cmd <==> Clean(START, cmd)
  {
    NormalizingPreservesTheReading(cmd);
    if Clean(START, cmd) {
      CleanIsKept(START, cmd);
    }
  }

  // ---------------------------------------------------------------- the shell language itself

  /** Quoting and comments as in sections 2.2 and 2.3 of the Shell Command Language volume of IEEE Std
      1003.1: a `#` begins a comment where no word is under way, an escaped character belongs to a word,
      and a backslash before a newline is a line continuation, removed before words are recognised. */
  datatype Posix = Posix(inComment: bool, escaped: bool, quote: Option<char>, midWord: bool)

  /** A blank, a newline or an operator character ends a word (section 2.3, rules 4 to 7). */
  predicate EndsWord(c: char) {
    || c == ' ' || c == '\t' || c == '\n'
    || c == '|' || c == '&' || c == ';' || c == '(' || c == ')' || c == '<' || c == '>'
  }

  const POSIX_START := Posix(false, false, None, false)

  function PosixStep(p: Posix, ch: char): (Posix, string) {
    if p.inComment then
      if ch == '\n' then (Posix(false, false, None, false), ";") else (p, "")
    else if p.escaped then (Posix(false, false, p.quote, p.midWord || ch != '\n'), [ch])
    else if p.quote != Some('\'') && ch == '\\' then (Posix(false, true, p.quote, p.midWord), [ch])
    else if p.quote.Some? then (Posix(false, false, if p.quote == Some(ch) then None else p.quote, true), [ch])
    else if ch == '\'' || ch == '"' then (Posix(false, false, Some(ch), true), [ch])
    else if ch == '#' && !p.midWord then (Posix(true, false, None, false), "")
    else (Posix(false, false, None, !EndsWord(ch)), if ch == '\n' then ";" else [ch])
  }

  function PosixRun(p: Posix, cmd: string): string
    decreases |cmd|
  {
    if cmd == "" then "" else PosixStep(p, cmd[0]).1 + PosixRun(PosixStep(p, cmd[0]).0, cmd[1..])
  }

  /** Somewhere an unquoted `#` in the middle of a word directly follows an escaped blank, newline or
      operator character; `after` tells whether the character just read was such an escaped one. */
  predicate HashAfterEscapedBreak(p: Posix, after: bool, cmd: string)
    decreases |cmd|
  {
    && cmd != ""
    && ((!p.inComment && !p.escaped && p.quote.None? && cmd[0] == '#' && p.midWord && after)
        || HashAfterEscapedBreak(PosixStep(p, cmd[0]).0, !p.inComment && p.escaped && EndsWord(cmd[0]), cmd[1..]))
  }

  predicate Agree(s: Scan, p: Posix, after: bool) {
    && s.inComment == p.inComment && s.escaped == p.escaped && s.quote == p.quote
    && (!s.inComment && !s.escaped && s.quote.None? ==> (AfterBoundary(s.prev) <==> !p.midWord || after))
    && (s.inComment ==> !s.escaped && s.quote.None?)
    && (s.quote.Some? ==> s.quote.value == '\'' || s.quote.value == '"')
  }

  lemma StepAgrees(s: Scan, p: Posix, after: bool, ch: char)
    requires Agree(s, p, after)
    requires !(!p.inComment && !p.escaped && p.quote.None? && ch == '#' && p.midWord && after)
    ensures Step(s, ch).1 == PosixStep(p, ch).1
    ensures Agree(Step(s, ch).0, PosixStep(p, ch).0, !p.inComment && p.escaped && EndsWord(ch))
  {}

  /** Inside a comment the next character put out, if any, is the separator. */
  lemma {:induction false} CommentEndsInSeparator(s: Scan, cmd: string)
    requires s.inComment
    ensures Run(s, cmd) == "" || Run(s, cmd)[0] == ';'
  {
    if cmd != "" && cmd[0] != '\n' {
      CommentEndsInSeparator(s, cmd[1..]);
    }
  }

  lemma {:induction false} RunsAgreeIff(s: Scan, p: Posix, after: bool, cmd: string)
    requires Agree(s, p, after)
    ensures Run(s, cmd) == PosixRun(p, cmd) <==> !HashAfterEscapedBreak(p, after, cmd)
    decreases |cmd|
  {
    if cmd != "" {
      var ch := cmd[0];
      if !p.inComment && !p.escaped && p.quote.None? && ch == '#' && p.midWord && after {
        CommentEndsInSeparator(Step(s, ch).0, cmd[1..]);
        assert PosixRun(p, cmd)[0] == '#';
      } else {
        StepAgrees(s, p, after, ch);
        RunsAgreeIff(Step(s, ch).0, PosixStep(p, ch).0, !p.inComment && p.escaped && EndsWord(ch), cmd[1..]);
        var out, rest, rest' := Step(s, ch).1, Run(Step(s, ch).0, cmd[1..]), PosixRun(PosixStep(p, ch).0, cmd[1..]);
        assert (out + rest)[|out|..] == rest && (out + rest')[|out|..] == rest';
      }
    }
  }

  /** The scanner finds the shell's comments exactly when no `#` in mid-word follows an escaped break. */
  lemma MatchesTheShellIff(cmd: string)
    ensures Normalized(cmd) == PosixRun(POSIX_START, cmd) <==> !HashAfterEscapedBreak(POSIX_START, false, cmd)
  {
    RunsAgreeIff(START, POSIX_START, false, cmd);
  }

  /** `\;#...`: the shell reads one word, the scanner drops all of it after the semicolon as a comment. */
  lemma EscapedSemicolonThenHash(rest: string)
    ensures Normalized("\\;#" + rest) != PosixRun(POSIX_START, "\\;#" + rest)
  {
    var cmd := "\\;#" + rest;
    var p1 := PosixStep(POSIX_START, cmd[0]).0;
    var p2 := PosixStep(p1, cmd[1]).0;
    assert cmd[1..][0] == ';' && cmd[1..][1..][0] == '#';
    assert HashAfterEscapedBreak(p2, true, cmd[1..][1..]);
    assert HashAfterEscapedBreak(p1, false, cmd[1..]);
    assert HashAfterEscapedBreak(POSIX_START, false, cmd);
    MatchesTheShellIff(cmd);
  }

  // ---------------------------------------------------------------- commands in a token list

  type Token = string

  predicate IsPunctToken(tok: Token) {
    tok != "" && forall i :: 0 <= i < |tok| ==> IsPunct(tok[i])
  }

  predicate IsRedirect(tok: Token) {
    IsPunctToken(tok) && ('<' in tok || '>' in tok)
  }

  predicate IsControl(tok: Token) {
    IsPunctToken(tok) && !IsRedirect(tok)
  }

  predicate IsAngle(c: char) {
    c == '<' || c == '>'
  }

  predicate IsOther(c: char) {
    c == ';' || c == '&' || c == '|' || c == '(' || c == ')'
  }

  /** What a token is: a control operator holds none but `;`, `&`, `|` and parentheses; a redirect holds an
      angle bracket and none but those; anything else is a word. */
  lemma TokenKinds(tok: Token)
    ensures IsControl(tok) <==> tok != "" && forall i :: 0 <= i < |tok| ==> IsOther(tok[i])
    ensures IsRedirect(tok) <==>
      && (exists i :: 0 <= i < |tok| && IsAngle(tok[i]))
      && forall i :: 0 <= i < |tok| ==> IsOther(tok[i]) || IsAngle(tok[i])
  {
    forall i | 0 <= i < |tok| ensures IsPunct(tok[i]) <==> IsOther(tok[i]) || IsAngle(tok[i]) {}
    if i :| 0 <= i < |tok| && IsAngle(tok[i]) {
      assert tok[i] in tok;
    }
    if '<' in tok {
      var i :| 0 <= i < |tok| && tok[i] == '<';
      assert IsAngle(tok[i]);
    }
    if '>' in tok {
      var i :| 0 <= i < |tok| && tok[i] == '>';
      assert IsAngle(tok[i]);
    }
  }

  /** `words` and `has_redirect` of a segment. */
  datatype Segment = Segment(words: seq<Token>, hasRedirect: bool)

  /** The stretches between control operators. */
  function Stretches(tokens: seq<Token>): (r: seq<seq<Token>>)
    ensures |r| >= 1
  {
    if tokens == [] then [[]]
    else
      var init, last := Stretches(tokens[..|tokens| - 1]), tokens[|tokens| - 1];
      if IsControl(last) then init + [[]] else init[..|init| - 1] + [init[|init| - 1] + [last]]
  }

  function Words(stretch: seq<Token>): seq<Token> {
    if stretch == [] then []
    else
      var last := stretch[|stretch| - 1];
      Words(stretch[..|stretch| - 1]) + if IsPunctToken(last) then [] else [last]
  }

  predicate Redirects(stretch: seq<Token>) {
    exists i :: 0 <= i < |stretch| && IsRedirect(stretch[i])
  }

  function SegmentOf(stretch: seq<Token>): Segment {
    Segment(Words(stretch), Redirects(stretch))
  }

  function SegmentsOf(stretches: seq<seq<Token>>): seq<Segment> {
    if stretches == [] then [] else SegmentsOf(stretches[..|stretches| - 1]) + [SegmentOf(stretches[|stretches| - 1])]
  }

  function Segments(tokens: seq<Token>): seq<Segment> {
    SegmentsOf(Stretches(tokens))
  }

  lemma SegmentsOfSnoc(stretches: seq<seq<Token>>, stretch: seq<Token>)
    ensures SegmentsOf(stretches + [stretch]) == SegmentsOf(stretches) + [SegmentOf(stretch)]
  {
    assert (stretches + [stretch])[..|stretches|] == stretches;
  }

  /** The tokens again, a control operator between one stretch and the next. */
  function Joined(stretches: seq<seq<Token>>, controls: seq<Token>): seq<Token>
    requires |stretches| == |controls| + 1
    decreases |controls|
  {
    if controls == [] then stretches[0]
    else
      Joined(stretches[..|controls|], controls[..|controls| - 1]) + [controls[|controls| - 1]] + stretches[|controls|]
  }

  function Controls(tokens: seq<Token>): seq<Token> {
    if tokens == [] then []
    else Controls(tokens[..|tokens| - 1]) + if IsControl(tokens[|tokens| - 1]) then [tokens[|tokens| - 1]] else []
  }

  ghost predicate ControlFree(stretches: seq<seq<Token>>) {
    forall i, j :: 0 <= i < |stretches| && 0 <= j < |stretches[i]| ==> !IsControl(stretches[i][j])
  }

  /** No token is lost, reordered or put into another command: the stretches, free of control operators,
      joined by the control operators, are the tokens. */
  lemma {:induction false} StretchesSplitAtControls(tokens: seq<Token>)
    ensures ControlFree(Stretches(tokens))
    ensures |Stretches(tokens)| == |Controls(tokens)| + 1
    ensures Joined(Stretches(tokens), Controls(tokens)) == tokens
  {
    if tokens != [] {
      var n := |tokens| - 1;
      var last, init, controls := tokens[n], Stretches(tokens[..n]), Controls(tokens[..n]);
      StretchesSplitAtControls(tokens[..n]);
      PrefixSnoc(tokens, n);
      assert tokens[..n + 1] == tokens;
      if IsControl(last) {
        JoinedControl(init, controls, last);
      } else {
        assert controls + [] == controls;
        JoinedGrows(init, controls, last);
      }
    }
  }

  lemma JoinedControl(stretches: seq<seq<Token>>, controls: seq<Token>, last: Token)
    requires |stretches| == |controls| + 1
    ensures Joined(stretches + [[]], controls + [last]) == Joined(stretches, controls) + [last]
    ensures ControlFree(stretches) ==> ControlFree(stretches + [[]])
  {
    var cs, all := controls + [last], stretches + [[]];
    assert cs[..|cs| - 1] == controls && all[..|cs|] == stretches && all[|cs|] == [];
    assert Joined(stretches, controls) + [last] + [] == Joined(stretches, controls) + [last];
  }

  lemma JoinedGrows(stretches: seq<seq<Token>>, controls: seq<Token>, last: Token)
    requires |stretches| == |controls| + 1
    ensures Joined(stretches[..|controls|] + [stretches[|controls|] + [last]], controls)
        == Joined(stretches, controls) + [last]
    ensures ControlFree(stretches) && !IsControl(last) ==>
        ControlFree(stretches[..|controls|] + [stretches[|controls|] + [last]])
  {
    var n := |controls|;
    var grown := stretches[..n] + [stretches[n] + [last]];
    if n > 0 {
      assert grown[..n] == stretches[..n];
      var head := Joined(stretches[..n], controls[..n - 1]) + [controls[n - 1]];
      assert head + (stretches[n] + [last]) == (head + stretches[n]) + [last];
    }
  }

  /** A segment holds the words of its stretch: the tokens that are no operator, all of them, in order. */
  ghost predicate HoldsWords(stretch: seq<Token>, words: seq<Token>, at: seq<nat>) {
    && |at| == |words|
    && (forall k :: 0 <= k < |at| ==> at[k] < |stretch| && stretch[at[k]] == words[k] && !IsPunctToken(words[k]))
    && (forall j, k :: 0 <= j < k < |at| ==> at[j] < at[k])
    && (forall i :: 0 <= i < |stretch| && !IsPunctToken(stretch[i]) ==> i in at)
  }

  lemma HoldsOneMore(stretch: seq<Token>, words: seq<Token>, at: seq<nat>, tok: Token)
    requires HoldsWords(stretch, words, at)
    ensures if IsPunctToken(tok) then HoldsWords(stretch + [tok], words, at)
            else HoldsWords(stretch + [tok], words + [tok], at + [|stretch|])
  {
    var grown := stretch + [tok];
    assert grown[|stretch|] == tok && forall i :: 0 <= i < |stretch| ==> grown[i] == stretch[i];
    if !IsPunctToken(tok) {
      var all := at + [|stretch|];
      assert all[|at|] == |stretch|;
      forall i | 0 <= i < |grown| && !IsPunctToken(grown[i]) ensures i in all {
        if i < |stretch| {
          assert i in at;
        }
      }
    }
  }

  lemma {:induction false} WordsAre(stretch: seq<Token>) returns (at: seq<nat>)
    ensures HoldsWords(stretch, Words(stretch), at)
  {
    at := [];
    if stretch != [] {
      var n := |stretch| - 1;
      var init := WordsAre(stretch[..n]);
      HoldsOneMore(stretch[..n], Words(stretch[..n]), init, stretch[n]);
      assert stretch == stretch[..n] + [stretch[n]];
      ConcatNothing(Words(stretch[..n]));
      at := if IsPunctToken(stretch[n]) then init else init + [n];
    }
  }

  lemma {:induction false} SegmentsOfAre(stretches: seq<seq<Token>>, k: nat)
    requires k < |stretches|
    ensures |SegmentsOf(stretches)| == |stretches| && SegmentsOf(stretches)[k] == SegmentOf(stretches[k])
  {
    var n := |stretches| - 1;
    if n > 0 {
      SegmentsOfAre(stretches[..n], if k < n then k else 0);
    }
  }

  /** Segment by segment: one for each stretch between control operators, with the words of that stretch and
      the mark of a redirect exactly if it holds one. */
  lemma SegmentsHoldTheirStretches(tokens: seq<Token>, k: nat) returns (at: seq<nat>)
    requires k < |Stretches(tokens)|
    ensures |Segments(tokens)| == |Stretches(tokens)|
    ensures var stretch, segment := Stretches(tokens)[k], Segments(tokens)[k];
      && HoldsWords(stretch, segment.words, at)
      && (segment.hasRedirect <==> exists i :: 0 <= i < |stretch| && IsRedirect(stretch[i]))
  {
    SegmentsOfAre(Stretches(tokens), k);
    at := WordsAre(Stretches(tokens)[k]);
  }

  lemma StretchesSnoc(tokens: seq<Token>, i: nat, closed: seq<seq<Token>>, open: seq<Token>)
    requires i < |tokens| && Stretches(tokens[..i]) == closed + [open]
    ensures Stretches(tokens[..i + 1]) == if IsControl(tokens[i]) then closed + [open] + [[]]
        else closed + [open + [tokens[i]]]
  {
    assert tokens[..i + 1][..i] == tokens[..i];
    assert (closed + [open])[..|closed|] == closed;
  }

  /** The first `i` tokens are split: the closed stretches are segments, the open one is words and a mark. */
  ghost predicate Split(tokens: seq<Token>, i: nat, closed: seq<seq<Token>>, open: seq<Token>,
                        segments: seq<Segment>, words: seq<Token>, hasRedirect: bool) {
    && i <= |tokens| && Stretches(tokens[..i]) == closed + [open]
    && segments == SegmentsOf(closed) && SegmentOf(open) == Segment(words, hasRedirect)
  }

  lemma SplitAtControl(tokens: seq<Token>, i: nat, closed: seq<seq<Token>>, open: seq<Token>,
                       segments: seq<Segment>, words: seq<Token>, hasRedirect: bool)
    requires Split(tokens, i, closed, open, segments, words, hasRedirect) && i < |tokens| && IsControl(tokens[i])
    ensures Split(tokens, i + 1, closed + [open], [], segments + [Segment(words, hasRedirect)], [], false)
  {
    StretchesSnoc(tokens, i, closed, open);
    SegmentsOfSnoc(closed, open);
    EmptySegment();
  }

  lemma SplitGoesOn(tokens: seq<Token>, i: nat, closed: seq<seq<Token>>, open: seq<Token>,
                    segments: seq<Segment>, words: seq<Token>, hasRedirect: bool)
    requires Split(tokens, i, closed, open, segments, words, hasRedirect) && i < |tokens| && !IsControl(tokens[i])
    ensures Split(tokens, i + 1, closed, open + [tokens[i]], segments,
                  words + if IsPunctToken(tokens[i]) then [] else [tokens[i]], hasRedirect || IsRedirect(tokens[i]))
  {
    StretchesSnoc(tokens, i, closed, open);
    SegmentOfSnoc(open, tokens[i]);
  }

  lemma SplitEnds(tokens: seq<Token>, closed: seq<seq<Token>>, open: seq<Token>,
                  segments: seq<Segment>, words: seq<Token>, hasRedirect: bool)
    requires Split(tokens, |tokens|, closed, open, segments, words, hasRedirect)
    ensures Segments(tokens) == segments + [Segment(words, hasRedirect)]
  {
    assert tokens[..|tokens|] == tokens;
    SegmentsOfSnoc(closed, open);
  }

  /** The loop of parse_command over the tokens. */
  method SplitTokens(tokens: seq<Token>) returns (segments: seq<Segment>)
    ensures segments == Segments(tokens)
  {
    segments := [];
    var words: seq<Token> := [];
    var hasRedirect := false;
    ghost var closed: seq<seq<Token>>, open: seq<Token> := [], [];
    EmptySegment();
    var i := 0;
    while i < |tokens|
      invariant 0 <= i <= |tokens| && Split(tokens, i, closed, open, segments, words, hasRedirect)
    {
      var tok := tokens[i];
      if IsControl(tok) {
        SplitAtControl(tokens, i, closed, open, segments, words, hasRedirect);
        segments := segments + [Segment(words, hasRedirect)];
        words, hasRedirect := [], false;
        closed, open := closed + [open], [];
      } else {
        SplitGoesOn(tokens, i, closed, open, segments, words, hasRedirect);
        open := open + [tok];
        if IsRedirect(tok) {
          hasRedirect := true;
          ConcatNothing(words);
        } else {
          words := words + [tok];
        }
      }
      i := i + 1;
    }
    SplitEnds(tokens, closed, open, segments, words, hasRedirect);
    segments := segments + [Segment(words, hasRedirect)];
  }

  lemma EmptySegment()
    ensures SegmentOf([]) == Segment([], false)
  {}

  lemma SegmentOfSnoc(stretch: seq<Token>, tok: Token)
    requires !IsControl(tok)
    ensures SegmentOf(stretch + [tok])
         == Segment(Words(stretch) + if IsPunctToken(tok) then [] else [tok], Redirects(stretch) || IsRedirect(tok))
  {
    assert (stretch + [tok])[..|stretch|] == stretch;
    RedirectsSnoc(stretch, tok);
  }

  lemma RedirectsSnoc(stretch: seq<Token>, tok: Token)
    ensures Redirects(stretch + [tok]) <==> Redirects(stretch) || IsRedirect(tok)
  {
    var grown := stretch + [tok];
    if Redirects(stretch) {
      var i :| 0 <= i < |stretch| && IsRedirect(stretch[i]);
      assert grown[i] == stretch[i];
    }
    if IsRedirect(tok) {
      assert grown[|stretch|] == tok;
    }
    if Redirects(grown) {
      var i :| 0 <= i < |grown| && IsRedirect(grown[i]);
      assert i < |stretch| ==> stretch[i] == grown[i];
    }
  }
}
