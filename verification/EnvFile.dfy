/**
 The host env file: printing and parsing (libs/bootstrap/src/bootstrap/manager.py, lines 81 to 118).
*/
module EnvFile {
  import opened Common

  /** A dict in insertion order. */
  type Env = seq<(string, string)>

  /** Where `splitlines` cuts; `\r\n` is one break. */
  predicate IsBreak(c: char) {
    c in "\n\r\U{000B}\U{000C}\U{001C}\U{001D}\U{001E}\U{0085}\U{2028}\U{2029}"
  }

  /** What `strip` removes. */
  predicate IsSpace(c: char) {
    IsBreak(c) || c in " \t\U{001F}\U{00A0}\U{1680}\U{202F}\U{205F}\U{3000}" || '\U{2000}' <= c <= '\U{200A}'
  }

  function LStrip(s: string): string {
    if s != "" && IsSpace(s[0]) then LStrip(s[1..]) else s
  }

  function RStrip(s: string): string {
    if s != "" && IsSpace(s[|s| - 1]) then RStrip(s[..|s| - 1]) else s
  }

  function Strip(s: string): string {
    RStrip(LStrip(s))
  }

  /** The index of the first character of `s` equal to `c`, or |s|. */
  function Find(s: string, c: char): (n: nat)
    ensures n <= |s| && c !in s[..n] && (n < |s| ==> s[n] == c)
  {
    if s == "" || s[0] == c then 0 else
      assert s == [s[0]] + s[1..];
      assert s[..1 + Find(s[1..], c)] == [s[0]] + s[1..][..Find(s[1..], c)];
      1 + Find(s[1..], c)
  }

  function LineEnd(s: string): (n: nat)
    ensures n <= |s| && (forall i :: 0 <= i < n ==> !IsBreak(s[i])) && (n < |s| ==> IsBreak(s[n]))
  {
    if s == "" || IsBreak(s[0]) then 0 else 1 + LineEnd(s[1..])
  }

  function SplitLines(s: string): seq<string>
    decreases |s|
  {
    if s == "" then []
    else
      var n := LineEnd(s);
      if n == |s| then [s]
      else [s[..n]] + SplitLines(s[n + (if s[n] == '\r' && n + 1 < |s| && s[n + 1] == '\n' then 2 else 1)..])
  }

  /** `replace('\\"', '"')` */
  function Unescape(s: string): string
    decreases |s|
  {
    if s == "" then ""
    else if |s| >= 2 && s[0] == '\\' && s[1] == '"' then "\"" + Unescape(s[2..])
    else [s[0]] + Unescape(s[1..])
  }

  function Escape(s: string): string {
    if s == "" then "" else (if s[0] == '"' then "\\\"" else [s[0]]) + Escape(s[1..])
  }

  function Unquote(value: string): string {
    if |value| >= 2 && value[0] == '"' && value[|value| - 1] == '"' then Unescape(value[1..|value| - 1]) else value
  }

  /** One line: what it assigns, if anything. */
  function ParseLine(raw: string): Option<(string, string)> {
    var line := Strip(raw);
    if line == "" || line[0] == '#' || '=' !in line then None
    else
      var n := Find(line, '=');
      var key := Strip(line[..n]);
      if key == "" then None else Some((key, Unquote(line[n + 1..])))
  }

  /** `result[key] = value` */
  function Assign(env: Env, entry: (string, string)): Env {
    if env == [] then [entry]
    else if env[0].0 == entry.0 then [entry] + env[1..]
    else [env[0]] + Assign(env[1..], entry)
  }

  function ParseLines(lines: seq<string>): Env {
    if lines == [] then []
    else
      var before := ParseLines(lines[..|lines| - 1]);
      match ParseLine(lines[|lines| - 1])
      case None => before
      case Some(entry) => Assign(before, entry)
  }

  /** _parse_env_file */
  function Parse(content: string): Env {
    ParseLines(SplitLines(content))
  }

  method ParseEnvFile(content: string) returns (result: Env)
    ensures result == Parse(content)
    ensures LastWins(Entries(SplitLines(content)), result)
  {
    var lines := SplitLines(content);
    result := [];
    var i := 0;
    while i < |lines|
      invariant 0 <= i <= |lines| && result == ParseLines(lines[..i])
    {
      assert lines[..i + 1][..i] == lines[..i];
      var entry := ParseLine(lines[i]);
      if entry.Some? {
        result := Assign(result, entry.value);
      }
      i := i + 1;
    }
    assert lines[..i] == lines;
    LastLineWins(lines);
  }

  predicate NeedsQuotes(value: string) {
    ' ' in value || '"' in value || '\'' in value || '\n' in value
  }

  /** _format_env_value */
  function FormatValue(value: string): string {
    if NeedsQuotes(value) then "\"" + Escape(value) + "\"" else value
  }

  function FormatEntry(entry: (string, string)): string {
    entry.0 + "=" + FormatValue(entry.1)
  }

  function JoinLines(lines: seq<string>): string {
    if lines == [] then "" else if |lines| == 1 then lines[0] else lines[0] + "\n" + JoinLines(lines[1..])
  }

  function FormatEntries(env: Env): (r: seq<string>)
    ensures |r| == |env|
  {
    seq(|env|, i requires 0 <= i < |env| => FormatEntry(env[i]))
  }

  /** _format_env_file */
  function Format(env: Env): string {
    JoinLines(FormatEntries(env)) + "\n"
  }

  // ---------------------------------------------------------------- quoting

  lemma {:induction false} UnescapeEscape(s: string)
    ensures Unescape(Escape(s)) == s
    ensures Escape(s) != "" ==> Escape(s)[0] != '"'
  {
    if s != "" {
      UnescapeEscape(s[1..]);
      var rest := Escape(s[1..]);
      if s[0] == '"' {
        assert ("\\\"" + rest)[2..] == rest;
      } else {
        assert ([s[0]] + rest)[1..] == rest;
      }
      assert s == [s[0]] + s[1..];
    }
  }

  /** The printer leaves a value alone exactly if it holds no blank, quote or newline. */
  lemma PlainIsLeftAlone(value: string)
    ensures FormatValue(value) == value
       <==> forall c :: c in value ==> c != ' ' && c != '"' && c != '\'' && c != '\n'
  {
    EscapeGrows(value);
  }

  lemma {:induction false} EscapeGrows(s: string)
    ensures |Escape(s)| >= |s|
  {
    if s != "" {
      EscapeGrows(s[1..]);
    }
  }

  /** Quoting and escaping are undone for every value, whatever quotes and backslashes it holds. */
  lemma UnquoteFormat(value: string)
    ensures Unquote(FormatValue(value)) == value
  {
    UnescapeEscape(value);
    if NeedsQuotes(value) {
      var f := FormatValue(value);
      assert f[1..|f| - 1] == Escape(value);
    } else {
      assert |value| >= 2 ==> value[0] in value;
    }
  }

  // ---------------------------------------------------------------- one line

  ghost predicate Unbroken(s: string) {
    forall i :: 0 <= i < |s| ==> !IsBreak(s[i])
  }

  predicate Trimmed(s: string) {
    s != "" ==> !IsSpace(s[0]) && !IsSpace(s[|s| - 1])
  }

  lemma {:induction false} StripTrims(s: string)
    ensures Trimmed(Strip(s))
    ensures Trimmed(s) ==> Strip(s) == s
  {
    LStripTrims(s);
    RStripTrims(LStrip(s));
  }

  lemma {:induction false} LStripTrims(s: string)
    ensures LStrip(s) != "" ==> !IsSpace(LStrip(s)[0])
  {
    if s != "" && IsSpace(s[0]) {
      LStripTrims(s[1..]);
    }
  }

  lemma {:induction false} RStripTrims(s: string)
    ensures RStrip(s) <= s
    ensures RStrip(s) != "" ==> !IsSpace(RStrip(s)[|RStrip(s)| - 1])
  {
    if s != "" && IsSpace(s[|s| - 1]) {
      RStripTrims(s[..|s| - 1]);
    }
  }

  /** An entry that comes back from its own line; a caller can check this beforehand. */
  ghost predicate Portable(entry: (string, string)) {
    var (key, value) := entry;
    && key != "" && Trimmed(key) && '=' !in key && key[0] != '#' && Unbroken(key)
    && Unbroken(value) && (NeedsQuotes(value) || value == "" || !IsSpace(value[|value| - 1]))
  }

  lemma {:induction false} FindFirst(s: string, t: string, c: char)
    requires c !in s
    ensures Find(s + [c] + t, c) == |s|
  {
    if s != "" {
      assert s[0] != c;
      assert (s + [c] + t)[1..] == s[1..] + [c] + t;
      FindFirst(s[1..], t, c);
    }
  }

  lemma PortableLineIsTrimmed(entry: (string, string))
    requires Portable(entry)
    ensures Strip(FormatEntry(entry)) == FormatEntry(entry)
  {
    var key, value := entry.0, FormatValue(entry.1);
    var raw := key + "=" + value;
    assert raw[0] == key[0];
    assert raw[|raw| - 1] == if value == "" then '=' else value[|value| - 1];
    StripTrims(raw);
  }

  lemma PortableLineParses(entry: (string, string))
    requires Portable(entry)
    ensures ParseLine(FormatEntry(entry)) == Some(entry)
  {
    var key, value := entry.0, FormatValue(entry.1);
    var raw := key + "=" + value;
    PortableLineIsTrimmed(entry);
    assert raw == key + ['='] + value;
    assert raw[0] == key[0] && raw[|key|] == '=';
    FindFirst(key, value, '=');
    SplitConcat(key, ['='] + value);
    assert key + (['='] + value) == raw;
    assert raw[|key| + 1..] == value;
    StripTrims(key);
    UnquoteFormat(entry.1);
  }

  lemma StripIsWithin(s: string)
    ensures forall c :: c in Strip(s) ==> c in s
  {
    LStripIsWithin(s);
    RStripTrims(LStrip(s));
  }

  lemma {:induction false} LStripIsWithin(s: string)
    ensures |LStrip(s)| <= |s| && LStrip(s) == s[|s| - |LStrip(s)|..]
  {
    if s != "" && IsSpace(s[0]) {
      LStripIsWithin(s[1..]);
      assert s[1..][|s[1..]| - |LStrip(s)|..] == s[|s| - |LStrip(s)|..];
    }
  }

  lemma {:induction false} UnescapeIsWithin(s: string)
    ensures forall c :: c in Unescape(s) ==> c in s
    decreases |s|
  {
    if s != "" {
      if |s| >= 2 && s[0] == '\\' && s[1] == '"' {
        UnescapeIsWithin(s[2..]);
      } else {
        UnescapeIsWithin(s[1..]);
      }
    }
  }

  lemma UnquoteIsWithin(value: string)
    ensures forall c :: c in Unquote(value) ==> c in value
  {
    if |value| >= 2 {
      UnescapeIsWithin(value[1..|value| - 1]);
    }
  }

  /** What a line assigns is made of its own characters: never a line break, in a line. */
  lemma ParsedIsUnbroken(raw: string)
    requires Unbroken(raw) && ParseLine(raw).Some?
    ensures Unbroken(ParseLine(raw).value.0) && Unbroken(ParseLine(raw).value.1)
  {
    var line := Strip(raw);
    StripIsWithin(raw);
    assert Unbroken(line) by {
      forall i | 0 <= i < |line| ensures !IsBreak(line[i]) {
        assert line[i] in raw;
      }
    }
    var n := Find(line, '=');
    var value := line[n + 1..];
    StripIsWithin(line[..n]);
    UnquoteIsWithin(value);
    var k, v := ParseLine(raw).value.0, ParseLine(raw).value.1;
    forall i | 0 <= i < |k| ensures !IsBreak(k[i]) {
      assert k[i] in line[..n];
    }
    forall i | 0 <= i < |v| ensures !IsBreak(v[i]) {
      assert v[i] in value;
    }
  }

  lemma ParsedKeyIsPlain(raw: string)
    requires ParseLine(raw).Some?
    ensures var key := ParseLine(raw).value.0; key != "" && Trimmed(key) && '=' !in key && key[0] != '#'
  {
    var line := Strip(raw);
    StripTrims(raw);
    var n := Find(line, '=');
    StripTrims(line[..n]);
    StripIsWithin(line[..n]);
    RStripTrims(line[..n]);
    if n > 0 {
      assert line[..n][0] == line[0];
      assert LStrip(line[..n]) == line[..n];
    }
  }

  /** Stripping `key=value` cuts it at the end only, and shortens it if the value ends in white space. */
  lemma StripCutsTheEnd(key: string, value: string)
    requires key != "" && Trimmed(key) && value != "" && IsSpace(value[|value| - 1])
    ensures var raw := key + "=" + value; |Strip(raw)| < |raw| && Strip(raw) == raw[..|Strip(raw)|]
  {
    var raw := key + "=" + value;
    assert raw[0] == key[0];
    assert LStrip(raw) == raw;
    assert raw[|raw| - 1] == value[|value| - 1];
    RStripTrims(raw);
    RStripTrims(raw[..|raw| - 1]);
  }

  /** Where the first `=` of a stretch of `key=value` is. */
  lemma FindInPrefix(key: string, value: string, n: nat)
    requires '=' !in key && n <= |key| + 1 + |value| && '=' in (key + "=" + value)[..n]
    ensures n > |key| && Find((key + "=" + value)[..n], '=') == |key|
    ensures (key + "=" + value)[..n][|key| + 1..] == value[..n - |key| - 1]
  {
    var raw := key + "=" + value;
    var line := raw[..n];
    assert forall i :: 0 <= i < n && i < |key| ==> line[i] == key[i];
    assert n > |key| by {
      var i :| 0 <= i < n && line[i] == '=';
      assert i < |key| ==> key[i] == '=';
    }
    assert line == key + ['='] + value[..n - |key| - 1];
    FindFirst(key, value[..n - |key| - 1], '=');
  }

  /** A plain value that ends in white space loses it. */
  lemma TrailingSpaceIsLost(key: string, value: string)
    requires key != "" && Trimmed(key) && '=' !in key && key[0] != '#' && !NeedsQuotes(value) && value != ""
        && IsSpace(value[|value| - 1])
    ensures ParseLine(FormatEntry((key, value))) != Some((key, value))
  {
    var raw := key + "=" + value;
    var line := Strip(raw);
    StripCutsTheEnd(key, value);
    if '=' in line {
      FindInPrefix(key, value, |line|);
      var rest := value[..|line| - |key| - 1];
      assert |rest| >= 2 ==> rest[0] in value;
      assert Unquote(rest) == rest;
    }
  }

  lemma LineParsesIff(entry: (string, string))
    requires Unbroken(entry.0) && Unbroken(entry.1)
    ensures ParseLine(FormatEntry(entry)) == Some(entry) <==> Portable(entry)
  {
    if Portable(entry) {
      PortableLineParses(entry);
    } else if ParseLine(FormatEntry(entry)) == Some(entry) {
      ParsedKeyIsPlain(FormatEntry(entry));
      TrailingSpaceIsLost(entry.0, entry.1);
    }
  }

  // ---------------------------------------------------------------- lines

  lemma {:induction false} SplitIsUnbroken(s: string)
    ensures forall i :: 0 <= i < |SplitLines(s)| ==> Unbroken(SplitLines(s)[i])
    decreases |s|
  {
    if s != "" {
      var n := LineEnd(s);
      if n < |s| {
        SplitIsUnbroken(s[n + (if s[n] == '\r' && n + 1 < |s| && s[n + 1] == '\n' then 2 else 1)..]);
      }
    }
  }

  lemma SplitFirst(line: string, rest: string)
    requires Unbroken(line)
    ensures SplitLines(line + "\n" + rest) == [line] + SplitLines(rest)
  {
    var s := line + "\n" + rest;
    assert forall i :: 0 <= i < |line| ==> s[i] == line[i];
    assert s[|line|] == '\n';
    assert LineEnd(s) == |line|;
    assert s[..|line|] == line && s[|line| + 1..] == rest;
  }

  lemma {:induction false} SplitJoin(lines: seq<string>)
    requires lines != [] && forall i :: 0 <= i < |lines| ==> Unbroken(lines[i])
    ensures SplitLines(JoinLines(lines) + "\n") == lines
  {
    if |lines| == 1 {
      SplitFirst(lines[0], "");
      ConcatNothing(lines[0] + "\n");
      assert JoinLines(lines) + "\n" == lines[0] + "\n";
      assert SplitLines("") == [];
    } else {
      var rest := JoinLines(lines[1..]);
      SplitJoin(lines[1..]);
      SplitFirst(lines[0], rest + "\n");
      ConcatAssoc(lines[0] + "\n", rest, "\n");
      assert lines == [lines[0]] + lines[1..];
    }
  }

  lemma {:induction false} EscapeIsUnbroken(s: string)
    requires Unbroken(s)
    ensures Unbroken(Escape(s))
  {
    if s != "" {
      EscapeIsUnbroken(s[1..]);
    }
  }

  lemma EntryIsUnbroken(entry: (string, string))
    requires Unbroken(entry.0) && Unbroken(entry.1)
    ensures Unbroken(FormatEntry(entry))
  {
    EscapeIsUnbroken(entry.1);
  }

  // ---------------------------------------------------------------- the whole file

  ghost predicate DistinctKeys(env: Env) {
    forall i, j :: 0 <= i < j < |env| ==> env[i].0 != env[j].0
  }

  lemma {:induction false} AssignAdds(env: Env, entry: (string, string))
    ensures (forall i :: 0 <= i < |env| ==> env[i].0 != entry.0) ==> Assign(env, entry) == env + [entry]
    ensures |Assign(env, entry)| == |env| || Assign(env, entry) == env + [entry]
    ensures forall e :: e in Assign(env, entry) ==> e in env || e == entry
  {
    if env != [] {
      AssignAdds(env[1..], entry);
      assert env == [env[0]] + env[1..];
    }
  }

  ghost predicate AllSpace(s: string) {
    forall i :: 0 <= i < |s| ==> IsSpace(s[i])
  }

  /** `t` is `s` without the white space at its ends. */
  ghost predicate Stripped(s: string, t: string) {
    && (exists front, back :: AllSpace(front) && AllSpace(back) && s == front + t + back)
    && (t != "" ==> !IsSpace(t[0]) && !IsSpace(t[|t| - 1]))
  }

  lemma {:induction false} LStripIs(s: string) returns (front: string)
    ensures s == front + LStrip(s) && AllSpace(front) && (LStrip(s) != "" ==> !IsSpace(LStrip(s)[0]))
  {
    front := "";
    if s != "" && IsSpace(s[0]) {
      var rest := LStripIs(s[1..]);
      front := [s[0]] + rest;
    }
  }

  lemma {:induction false} RStripIs(s: string) returns (back: string)
    ensures s == RStrip(s) + back && AllSpace(back)
  {
    back := "";
    if s != "" && IsSpace(s[|s| - 1]) {
      var rest := RStripIs(s[..|s| - 1]);
      back := rest + [s[|s| - 1]];
    }
  }

  lemma {:induction false} RStripEnds(s: string)
    ensures RStrip(s) != "" ==> !IsSpace(RStrip(s)[|RStrip(s)| - 1]) && RStrip(s)[0] == s[0]
  {
    if s != "" && IsSpace(s[|s| - 1]) {
      RStripEnds(s[..|s| - 1]);
    }
  }

  lemma StripIs(s: string)
    ensures Stripped(s, Strip(s))
  {
    var front := LStripIs(s);
    var back := RStripIs(LStrip(s));
    RStripEnds(LStrip(s));
    assert s == front + Strip(s) + back;
  }

  /** What a line assigns: it is `key = value`, the line and its key stripped, neither a comment nor without
      a key; the first `=` divides them. */
  lemma LineAssigns(raw: string, line: string, left: string, key: string, value: string)
    requires line == Strip(raw) && line == left + "=" + value && '=' !in left && key == Strip(left)
    ensures Stripped(raw, line) && Stripped(left, key)
    ensures ParseLine(raw) == if line[0] == '#' || key == "" then None else Some((key, Unquote(value)))
  {
    StripIs(raw);
    StripIs(left);
    FindFirst(left, value, '=');
    assert line == left + ['='] + value;
    assert line[..|left|] == left && line[|left| + 1..] == value;
  }

  lemma OtherLinesAssignNothing(raw: string)
    requires '=' !in Strip(raw)
    ensures ParseLine(raw) == None
  {}

  /** What the lines assign, one after the other. */
  function Entries(lines: seq<string>): (r: seq<Option<(string, string)>>)
    ensures |r| == |lines|
  {
    seq(|lines|, i requires 0 <= i < |lines| => ParseLine(lines[i]))
  }

  function AssignAll(entries: seq<Option<(string, string)>>): Env {
    if entries == [] then []
    else
      match entries[|entries| - 1]
      case None => AssignAll(entries[..|entries| - 1])
      case Some(entry) => Assign(AssignAll(entries[..|entries| - 1]), entry)
  }

  lemma {:induction false} ParseAssignsAll(lines: seq<string>)
    ensures ParseLines(lines) == AssignAll(Entries(lines))
  {
    if lines != [] {
      ParseAssignsAll(lines[..|lines| - 1]);
      assert Entries(lines)[..|lines| - 1] == Entries(lines[..|lines| - 1]);
    }
  }

  predicate Sets(entry: Option<(string, string)>, key: string) {
    entry.Some? && entry.value.0 == key
  }

  /** Entry `n` is the last one that sets its key. */
  ghost predicate SetsLast(entries: seq<Option<(string, string)>>, n: int, e: (string, string)) {
    0 <= n < |entries| && entries[n] == Some(e) && forall m :: n < m < |entries| ==> !Sets(entries[m], e.0)
  }

  lemma {:induction false} AssignIs(env: Env, entry: (string, string))
    requires DistinctKeys(env)
    ensures DistinctKeys(Assign(env, entry))
    ensures forall e :: e in Assign(env, entry) <==> e == entry || (e in env && e.0 != entry.0)
  {
    if env != [] {
      AssignIs(env[1..], entry);
      assert env == [env[0]] + env[1..];
      var rest := if env[0].0 == entry.0 then env[1..] else Assign(env[1..], entry);
      forall j | 0 <= j < |rest| ensures rest[j].0 != env[0].0 {
        if env[0].0 == entry.0 {
          assert rest[j] == env[j + 1];
        } else {
          assert rest[j] in rest;
          if rest[j] != entry {
            var i :| 0 <= i < |env[1..]| && env[1..][i] == rest[j];
            assert env[i + 1] == rest[j];
          }
        }
      }
    }
  }

  lemma SetsLastSnoc(init: seq<Option<(string, string)>>, last: Option<(string, string)>, e: (string, string))
    ensures (exists n :: SetsLast(init + [last], n, e))
       <==> last == Some(e) || (!Sets(last, e.0) && exists n :: SetsLast(init, n, e))
  {
    var all := init + [last];
    assert all[|init|] == last && forall n :: 0 <= n < |init| ==> all[n] == init[n];
    if n :| SetsLast(all, n, e) {
      assert n < |init| ==> SetsLast(init, n, e);
    }
    if last == Some(e) {
      assert SetsLast(all, |init|, e);
    }
    if n :| SetsLast(init, n, e) && !Sets(last, e.0) {
      assert SetsLast(all, n, e);
    }
  }

  /** A key stands in the dict once, with the value of the last line that assigns to it. */
  ghost predicate LastWins(entries: seq<Option<(string, string)>>, env: Env) {
    DistinctKeys(env) && forall e :: e in env <==> exists n :: SetsLast(entries, n, e)
  }

  lemma {:induction false} LastEntryWins(entries: seq<Option<(string, string)>>)
    ensures LastWins(entries, AssignAll(entries))
  {
    if entries != [] {
      var init, last := entries[..|entries| - 1], entries[|entries| - 1];
      assert entries == init + [last];
      LastEntryWins(init);
      if last.Some? {
        AssignIs(AssignAll(init), last.value);
      }
      forall e ensures e in AssignAll(entries) <==> exists n :: SetsLast(entries, n, e) {
        SetsLastSnoc(init, last, e);
      }
    }
  }

  lemma LastLineWins(lines: seq<string>)
    ensures LastWins(Entries(lines), ParseLines(lines))
  {
    LastEntryWins(Entries(lines));
    ParseAssignsAll(lines);
  }

  lemma ParseLinesStep(lines: seq<string>)
    requires lines != []
    ensures var init, entry := lines[..|lines| - 1], ParseLine(lines[|lines| - 1]);
      && |ParseLines(lines)| <= |ParseLines(init)| + 1
      && (|ParseLines(lines)| > |ParseLines(init)| ==>
          entry.Some? && ParseLines(lines) == ParseLines(init) + [entry.value])
  {
    var entry := ParseLine(lines[|lines| - 1]);
    if entry.Some? {
      AssignAdds(ParseLines(lines[..|lines| - 1]), entry.value);
    }
  }

  lemma {:induction false} EntriesDoNotOutnumberLines(lines: seq<string>)
    ensures |ParseLines(lines)| <= |lines|
  {
    if lines != [] {
      ParseLinesStep(lines);
      EntriesDoNotOutnumberLines(lines[..|lines| - 1]);
    }
  }

  /** As many entries as lines means that every line gave its own entry. */
  lemma {:induction false} EachLineGivesOne(lines: seq<string>, i: nat)
    requires |ParseLines(lines)| == |lines| && i < |lines|
    ensures ParseLine(lines[i]) == Some(ParseLines(lines)[i])
  {
    ParseLinesStep(lines);
    EntriesDoNotOutnumberLines(lines[..|lines| - 1]);
    if i < |lines| - 1 {
      EachLineGivesOne(lines[..|lines| - 1], i);
    }
  }

  lemma {:induction false} LinesGiveEnv(lines: seq<string>, env: Env)
    requires |lines| == |env| && DistinctKeys(env) && forall i :: 0 <= i < |env| ==> ParseLine(lines[i]) == Some(env[i])
    ensures ParseLines(lines) == env
  {
    if lines != [] {
      var n := |lines| - 1;
      LinesGiveEnv(lines[..n], env[..n]);
      AssignAdds(env[..n], env[n]);
      assert env == env[..n] + [env[n]];
    }
  }

  lemma {:induction false} ParsedEntriesAreUnbroken(lines: seq<string>)
    requires forall i :: 0 <= i < |lines| ==> Unbroken(lines[i])
    ensures forall e :: e in ParseLines(lines) ==> Unbroken(e.0) && Unbroken(e.1)
  {
    if lines != [] {
      var init, last := lines[..|lines| - 1], lines[|lines| - 1];
      ParsedEntriesAreUnbroken(init);
      if ParseLine(last).Some? {
        ParsedIsUnbroken(last);
        AssignAdds(ParseLines(init), ParseLine(last).value);
      }
    }
  }

  lemma LinesGiveEnvIff(lines: seq<string>, env: Env)
    requires |lines| == |env| && DistinctKeys(env)
    ensures ParseLines(lines) == env <==> forall i :: 0 <= i < |env| ==> ParseLine(lines[i]) == Some(env[i])
  {
    if ParseLines(lines) == env {
      forall i | 0 <= i < |env| ensures ParseLine(lines[i]) == Some(env[i]) {
        EachLineGivesOne(lines, i);
      }
    }
    if forall i :: 0 <= i < |env| ==> ParseLine(lines[i]) == Some(env[i]) {
      LinesGiveEnv(lines, env);
    }
  }

  lemma UnbrokenRoundTrip(env: Env)
    requires env != [] && DistinctKeys(env) && forall i :: 0 <= i < |env| ==> Unbroken(env[i].0) && Unbroken(env[i].1)
    ensures Parse(Format(env)) == env <==> forall i :: 0 <= i < |env| ==> Portable(env[i])
  {
    var lines := FormatEntries(env);
    forall i | 0 <= i < |env| ensures Unbroken(lines[i]) {
      EntryIsUnbroken(env[i]);
    }
    SplitJoin(lines);
    LinesGiveEnvIff(lines, env);
    forall i | 0 <= i < |env| ensures ParseLine(lines[i]) == Some(env[i]) <==> Portable(env[i]) {
      LineParsesIff(env[i]);
    }
  }

  /** Parsing what was printed gives the dict back, in its order, exactly when every entry is portable:
      the key is trimmed, not empty, without `=` and not a comment, neither part holds a line break, and
      the value does not end in white space unless it is quoted. */
  lemma RoundTripIff(env: Env)
    requires DistinctKeys(env)
    ensures Parse(Format(env)) == env <==> forall e :: e in env ==> Portable(e)
  {
    if env == [] {
      SplitFirst("", "");
      assert Format(env) == "" + "\n" + "";
      assert SplitLines("") == [];
      assert ParseLines([""]) == [] by {
        assert [""][..0] == [];
      }
    } else if forall e :: e in env ==> Unbroken(e.0) && Unbroken(e.1) {
      UnbrokenRoundTrip(env);
    } else {
      SplitIsUnbroken(Format(env));
      ParsedEntriesAreUnbroken(SplitLines(Format(env)));
    }
  }

  /** A value with a newline is quoted by the printer, yet does not come back. */
  lemma NewlineValueIsLost(key: string, before: string, after: string)
    ensures NeedsQuotes(before + "\n" + after)
    ensures Parse(Format([(key, before + "\n" + after)])) != [(key, before + "\n" + after)]
  {
    var value := before + "\n" + after;
    assert value[|before|] == '\n';
    assert !Unbroken(value);
    assert (key, value) in [(key, value)];
    RoundTripIff([(key, value)]);
  }
}
