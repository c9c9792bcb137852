/**
 Optimistic messages and their reconciliation with the transcript
 (apps/system_interface/frontend/src/models/PendingMessages.ts, lines 38 to 121 and 163 to 246).
*/
module PendingMessages {
  import opened Common

  type AgentId = string
  type EventId = string

  datatype Status = Sending | Queued

  datatype Pending = Pending(id: nat, content: string, status: Status, sentWhileIdle: bool, prior: set<EventId>)

  datatype Event = Event(id: EventId, isUser: bool, content: string)

  // ---------------------------------------------------------------- text

  predicate IsSpace(c: char) {
    c in " \t\n\r\U{000B}\U{000C}\U{00A0}\U{1680}\U{2028}\U{2029}\U{202F}\U{205F}\U{3000}\U{FEFF}"
        || '\U{2000}' <= c <= '\U{200A}'
  }

  function TrimStart(s: string): string {
    if s != [] && IsSpace(s[0]) then TrimStart(s[1..]) else s
  }

  function TrimEnd(s: string): string {
    if s != [] && IsSpace(s[|s| - 1]) then TrimEnd(s[..|s| - 1]) else s
  }

  function Trim(s: string): string {
    TrimEnd(TrimStart(s))
  }

  /** Runs of white space become one blank. */
  function Collapse(s: string): string {
    if s == [] then []
    else if !IsSpace(s[0]) then [s[0]] + Collapse(s[1..])
    else if |s| > 1 && IsSpace(s[1]) then Collapse(s[1..])
    else " " + Collapse(s[1..])
  }

  /** normalizeContentForMatch */
  function Normalized(s: string): string {
    Collapse(Trim(s))
  }

  /** The words of a text, `word` being the one under way: its stretches without white space. */
  function WordsFrom(s: string, word: string): seq<string>
    decreases |s|
  {
    if s == "" then if word == "" then [] else [word]
    else if IsSpace(s[0]) then (if word == "" then [] else [word]) + WordsFrom(s[1..], "")
    else WordsFrom(s[1..], word + [s[0]])
  }

  function Words(s: string): seq<string> {
    WordsFrom(s, "")
  }

  function Spaced(words: seq<string>): string {
    if words == [] then "" else if |words| == 1 then words[0] else words[0] + " " + Spaced(words[1..])
  }

  lemma {:induction false} TrimStartWords(s: string)
    ensures Words(TrimStart(s)) == Words(s)
    ensures TrimStart(s) != "" ==> !IsSpace(TrimStart(s)[0])
  {
    if s != "" && IsSpace(s[0]) {
      TrimStartWords(s[1..]);
      assert Words(s) == [] + Words(s[1..]);
    }
  }

  lemma {:induction false} SpaceEndsNoWord(s: string, c: char, word: string)
    requires IsSpace(c)
    ensures WordsFrom(s + [c], word) == WordsFrom(s, word)
    decreases |s|
  {
    if s == "" {
      assert [] + [c] == [c] && [c][1..] == "";
    } else {
      assert (s + [c])[1..] == s[1..] + [c];
      SpaceEndsNoWord(s[1..], c, if IsSpace(s[0]) then "" else word + [s[0]]);
    }
  }

  lemma {:induction false} TrimEndWords(s: string)
    ensures Words(TrimEnd(s)) == Words(s)
  {
    if s != "" && IsSpace(s[|s| - 1]) {
      var init, last := s[..|s| - 1], s[|s| - 1];
      TrimEndWords(init);
      SpaceEndsNoWord(init, last, "");
      assert init + [last] == s;
    }
  }

  lemma {:induction false} TrimEndEnds(s: string)
    ensures TrimEnd(s) != "" ==> !IsSpace(TrimEnd(s)[|TrimEnd(s)| - 1]) && TrimEnd(s)[0] == s[0]
  {
    if s != "" && IsSpace(s[|s| - 1]) {
      TrimEndEnds(s[..|s| - 1]);
    }
  }

  lemma {:induction false} SomeWord(s: string, word: string)
    requires word != ""
    ensures WordsFrom(s, word) != []
    decreases |s|
  {
    if s != "" && !IsSpace(s[0]) {
      SomeWord(s[1..], word + [s[0]]);
    }
  }

  lemma SpacedCons(word: string, words: seq<string>)
    requires words != []
    ensures Spaced([word] + words) == word + " " + Spaced(words)
  {
    assert ([word] + words)[1..] == words;
  }

  lemma CollapseBlanks(s: string, word: string)
    requires |s| > 1 && IsSpace(s[0]) && IsSpace(s[1]) && word != ""
    ensures Collapse(s) == Collapse(s[1..]) && WordsFrom(s, word) == WordsFrom(s[1..], word)
  {
    assert WordsFrom(s[1..], "") == [] + WordsFrom(s[1..][1..], "");
  }

  lemma CollapseGap(s: string, word: string)
    requires |s| > 1 && IsSpace(s[0]) && !IsSpace(s[1]) && word != ""
    ensures Collapse(s) == " " + ([s[1]] + Collapse(s[2..]))
    ensures WordsFrom(s, word) == [word] + WordsFrom(s[2..], [s[1]])
  {
    assert s[1..][1..] == s[2..] && "" + [s[1]] == [s[1]];
  }

  lemma CollapseNextWord(s: string, word: string)
    requires |s| > 1 && IsSpace(s[0]) && !IsSpace(s[1]) && word != ""
    requires [s[1]] + Collapse(s[2..]) == Spaced(WordsFrom(s[2..], [s[1]]))
    ensures word + Collapse(s) == Spaced(WordsFrom(s, word))
  {
    var words := WordsFrom(s[2..], [s[1]]);
    CollapseGap(s, word);
    SomeWord(s[2..], [s[1]]);
    SpacedCons(word, words);
    ConcatAssoc(word, " ", Spaced(words));
  }

  lemma CollapseLetter(s: string, word: string)
    requires s != "" && !IsSpace(s[0])
    requires word + [s[0]] + Collapse(s[1..]) == Spaced(WordsFrom(s[1..], word + [s[0]]))
    ensures word + Collapse(s) == Spaced(WordsFrom(s, word))
  {
    ConcatAssoc(word, [s[0]], Collapse(s[1..]));
  }

  /** From inside a word on, in a text that does not end in white space. */
  lemma {:induction false} CollapseFrom(s: string, word: string)
    requires word != "" && (s != "" ==> !IsSpace(s[|s| - 1]))
    ensures word + Collapse(s) == Spaced(WordsFrom(s, word))
    decreases |s|
  {
    if s == "" {
      assert word + Collapse(s) == word;
    } else if !IsSpace(s[0]) {
      CollapseFrom(s[1..], word + [s[0]]);
      CollapseLetter(s, word);
    } else if IsSpace(s[1]) {
      CollapseBlanks(s, word);
      CollapseFrom(s[1..], word);
    } else {
      CollapseFrom(s[2..], [s[1]]);
      CollapseNextWord(s, word);
    }
  }

  /** The normal form is the words, one blank between them. */
  lemma NormalizedIsSpaced(s: string)
    ensures Normalized(s) == Spaced(Words(s))
  {
    var t := Trim(s);
    TrimStartWords(s);
    TrimEndWords(TrimStart(s));
    TrimEndEnds(TrimStart(s));
    if t != "" {
      CollapseFrom(t[1..], [t[0]]);
      assert "" + [t[0]] == [t[0]];
      assert t[1..] != "" ==> t[1..][|t[1..]| - 1] == t[|t| - 1];
    }
  }

  ghost predicate AreWords(words: seq<string>) {
    forall i :: 0 <= i < |words| ==> words[i] != "" && forall j :: 0 <= j < |words[i]| ==> !IsSpace(words[i][j])
  }

  lemma {:induction false} WordsFromAreWords(s: string, word: string)
    requires forall j :: 0 <= j < |word| ==> !IsSpace(word[j])
    ensures AreWords(WordsFrom(s, word))
    decreases |s|
  {
    if s != "" {
      if IsSpace(s[0]) {
        WordsFromAreWords(s[1..], "");
      } else {
        WordsFromAreWords(s[1..], word + [s[0]]);
      }
    }
  }

  lemma {:induction false} WordGoesOn(w: string, t: string, word: string)
    requires forall j :: 0 <= j < |w| ==> !IsSpace(w[j])
    ensures WordsFrom(w + t, word) == WordsFrom(t, word + w)
    decreases |w|
  {
    if w == "" {
      assert w + t == t && word + w == word;
    } else {
      assert (w + t)[1..] == w[1..] + t && word + [w[0]] + w[1..] == word + w;
      WordGoesOn(w[1..], t, word + [w[0]]);
    }
  }

  lemma {:induction false} WordsOfSpaced(words: seq<string>)
    requires AreWords(words)
    ensures Words(Spaced(words)) == words
    decreases |words|
  {
    if |words| == 1 {
      assert words[0] + "" == words[0] && "" + words[0] == words[0];
      WordGoesOn(words[0], "", "");
    } else if |words| > 1 {
      var rest := Spaced(words[1..]);
      WordsOfSpaced(words[1..]);
      assert Spaced(words) == words[0] + (" " + rest) && (" " + rest)[1..] == rest && "" + words[0] == words[0];
      WordGoesOn(words[0], " " + rest, "");
      assert words == [words[0]] + words[1..];
    }
  }

  /** Two texts match exactly if they have the same words. */
  lemma SameWordsIff(a: string, b: string)
    ensures Normalized(a) == Normalized(b) <==> Words(a) == Words(b)
  {
    NormalizedIsSpaced(a);
    NormalizedIsSpaced(b);
    WordsFromAreWords(a, "");
    WordsFromAreWords(b, "");
    WordsOfSpaced(Words(a));
    WordsOfSpaced(Words(b));
  }

  ghost predicate AllSpace(s: string) {
    forall i :: 0 <= i < |s| ==> IsSpace(s[i])
  }

  /** Trimming takes white space off both ends, all of it and nothing else. */
  lemma TrimIs(s: string) returns (front: string, back: string)
    ensures s == front + Trim(s) + back && AllSpace(front) && AllSpace(back)
    ensures Trim(s) != "" ==> !IsSpace(Trim(s)[0]) && !IsSpace(Trim(s)[|Trim(s)| - 1])
  {
    front := TrimStartIs(s);
    back := TrimEndIs(TrimStart(s));
    assert front + (Trim(s) + back) == front + Trim(s) + back;
    TrimStartWords(s);
    TrimEndEnds(TrimStart(s));
  }

  lemma {:induction false} TrimStartIs(s: string) returns (front: string)
    ensures s == front + TrimStart(s) && AllSpace(front)
  {
    front := "";
    if s != "" && IsSpace(s[0]) {
      var rest := TrimStartIs(s[1..]);
      front := [s[0]] + rest;
    }
  }

  lemma {:induction false} TrimEndIs(s: string) returns (back: string)
    ensures s == TrimEnd(s) + back && AllSpace(back)
  {
    if s != "" && IsSpace(s[|s| - 1]) {
      var init, last := s[..|s| - 1], s[|s| - 1];
      var rest := TrimEndIs(init);
      back := rest + [last];
      assert s == init + [last];
      ConcatAssoc(TrimEnd(init), rest, [last]);
    } else {
      back := "";
    }
  }

  // ---------------------------------------------------------------- the match

  predicate Eligible(p: Pending, e: Event) {
    e.isUser && e.id !in p.prior && Normalized(e.content) == Normalized(p.content)
  }

  /** A message can be matched to a user event of the same words that is not older than it. */
  lemma EligibleIff(p: Pending, e: Event)
    ensures Eligible(p, e) <==> e.isUser && e.id !in p.prior && Words(e.content) == Words(p.content)
  {
    SameWordsIff(e.content, p.content);
  }

  /** Which events a message could still be matched to. */
  function Free(events: seq<Event>, p: Pending, claimed: set<EventId>): (fits: seq<bool>)
    ensures |fits| == |events|
  {
    seq(|events|, i requires 0 <= i < |events| => Eligible(p, events[i]) && events[i].id !in claimed)
  }

  function First(fits: seq<bool>): (k: Option<nat>)
    ensures k.Some? ==> k.value < |fits| && fits[k.value]
    ensures forall i :: 0 <= i < (if k.Some? then k.value else |fits|) ==> !fits[i]
  {
    if fits == [] then None
    else if fits[0] then Some(0)
    else
      var k := First(fits[1..]);
      if k.Some? then Some(k.value + 1) else None
  }

  /** The earliest event a message can be matched to. */
  function Find(events: seq<Event>, p: Pending, claimed: set<EventId>): (k: Option<nat>)
    ensures k.Some? ==> k.value < |events|
  {
    First(Free(events, p, claimed))
  }

  lemma FindIsEligible(events: seq<Event>, p: Pending, claimed: set<EventId>)
    requires Find(events, p, claimed).Some?
    ensures var e := events[Find(events, p, claimed).value]; Eligible(p, e) && e.id !in claimed
  {
    assert Free(events, p, claimed)[Find(events, p, claimed).value];
  }

  lemma FindIsEarliest(events: seq<Event>, p: Pending, claimed: set<EventId>, i: nat)
    requires i < |events| && Eligible(p, events[i]) && events[i].id !in claimed
    ensures Find(events, p, claimed).Some? && Find(events, p, claimed).value <= i
  {
    assert Free(events, p, claimed)[i];
  }

  /** For each pending message in send order, the index of the event it is matched to. */
  function Greedy(list: seq<Pending>, events: seq<Event>, claimed: set<EventId>): (a: seq<Option<nat>>)
    ensures |a| == |list|
    ensures forall i :: 0 <= i < |a| && a[i].Some? ==> a[i].value < |events|
    decreases |list|
  {
    if list == [] then []
    else
      var k := Find(events, list[0], claimed);
      [k] + Greedy(list[1..], events, if k.Some? then claimed + {events[k.value].id} else claimed)
  }

  /** The messages left unmatched, in send order. */
  function Unmatched(list: seq<Pending>, a: seq<Option<nat>>): seq<Pending>
    requires |a| == |list|
  {
    if list == [] then [] else (if a[0].None? then [list[0]] else []) + Unmatched(list[1..], a[1..])
  }

  function Matched(a: seq<Option<nat>>): nat {
    if a == [] then 0 else (if a[0].Some? then 1 else 0) + Matched(a[1..])
  }

  /** A valid matching: eligible events, none already claimed, no event id twice. */
  ghost predicate Matching(list: seq<Pending>, events: seq<Event>, claimed: set<EventId>, a: seq<Option<nat>>) {
    && |a| == |list|
    && (forall i :: 0 <= i < |a| && a[i].Some? ==>
          a[i].value < |events| && Eligible(list[i], events[a[i].value]) && events[a[i].value].id !in claimed)
    && Injective(events, a)
  }

  ghost predicate Injective(events: seq<Event>, a: seq<Option<nat>>) {
    forall i, j :: 0 <= i < j < |a| && a[i].Some? && a[j].Some? ==>
      a[i].value < |events| && a[j].value < |events| && events[a[i].value].id != events[a[j].value].id
  }

  lemma MatchingCons(list: seq<Pending>, events: seq<Event>, claimed: set<EventId>, k: Option<nat>,
                     rest: seq<Option<nat>>)
    requires list != []
    requires k.Some? ==> k.value < |events| && Eligible(list[0], events[k.value]) && events[k.value].id !in claimed
    requires Matching(list[1..], events, if k.Some? then claimed + {events[k.value].id} else claimed, rest)
    ensures Matching(list, events, claimed, [k] + rest)
  {
    var a := [k] + rest;
    forall i | 0 < i < |a| && a[i].Some?
        ensures a[i].value < |events| && Eligible(list[i], events[a[i].value]) && events[a[i].value].id !in claimed
        && (k.Some? ==> events[a[i].value].id != events[k.value].id) {
      assert rest[i - 1] == a[i] && list[1..][i - 1] == list[i];
    }
  }

  /** Injective, content-equal, never a prior event. */
  lemma {:induction false} GreedyIsMatching(list: seq<Pending>, events: seq<Event>, claimed: set<EventId>)
    ensures Matching(list, events, claimed, Greedy(list, events, claimed))
    decreases |list|
  {
    if list != [] {
      var k := Find(events, list[0], claimed);
      if k.Some? {
        FindIsEligible(events, list[0], claimed);
      }
      var claimed' := if k.Some? then claimed + {events[k.value].id} else claimed;
      GreedyIsMatching(list[1..], events, claimed');
      MatchingCons(list, events, claimed, k, Greedy(list[1..], events, claimed'));
    }
  }

  lemma {:induction false} UnmatchedMembers(list: seq<Pending>, a: seq<Option<nat>>)
    requires |a| == |list|
    ensures |Unmatched(list, a)| == |list| - Matched(a)
    ensures forall p :: p in Unmatched(list, a) <==> exists i :: 0 <= i < |list| && a[i].None? && list[i] == p
  {
    if list != [] {
      UnmatchedMembers(list[1..], a[1..]);
      var rest := Unmatched(list[1..], a[1..]);
      forall p | p in rest ensures exists i :: 0 <= i < |list| && a[i].None? && list[i] == p {
        var i :| 0 <= i < |list[1..]| && a[1..][i].None? && list[1..][i] == p;
        assert a[i + 1].None? && list[i + 1] == p;
      }
      forall i | 0 < i < |list| && a[i].None? ensures list[i] in rest {
        assert a[1..][i - 1].None? && list[1..][i - 1] == list[i];
      }
    }
  }

  lemma {:induction false} UnmatchedSnoc(list: seq<Pending>, a: seq<Option<nat>>, p: Pending, k: Option<nat>)
    requires |a| == |list|
    ensures Unmatched(list + [p], a + [k]) == Unmatched(list, a) + if k.None? then [p] else []
  {
    if list == [] {
      assert Unmatched([p][1..], [k][1..]) == [];
      assert list + [p] == [p] && a + [k] == [k];
    } else {
      assert (list + [p])[1..] == list[1..] + [p] && (a + [k])[1..] == a[1..] + [k];
      UnmatchedSnoc(list[1..], a[1..], p, k);
    }
  }

  /** The positions a matching leaves out, in ascending order. */
  function Left(a: seq<Option<nat>>): seq<nat> {
    if a == [] then []
    else Left(a[..|a| - 1]) + if a[|a| - 1].None? then [|a| - 1] else []
  }

  ghost predicate Ascending(s: seq<nat>) {
    forall i, j :: 0 <= i < j < |s| ==> s[i] < s[j]
  }

  lemma {:induction false} LeftIs(a: seq<Option<nat>>)
    ensures Ascending(Left(a)) && forall i :: i in Left(a) <==> 0 <= i < |a| && a[i].None?
  {
    if a != [] {
      var init := a[..|a| - 1];
      LeftIs(init);
      forall k | 0 <= k < |Left(init)| ensures Left(init)[k] < |a| - 1 {
        assert Left(init)[k] in Left(init);
      }
    }
  }

  /** What is left keeps its send order: it is the list read at the unmatched positions, ascending. */
  lemma {:induction false} UnmatchedKeepsOrder(list: seq<Pending>, a: seq<Option<nat>>)
    requires |a| == |list|
    ensures Ascending(Left(a)) && forall i :: i in Left(a) <==> 0 <= i < |list| && a[i].None?
    ensures |Unmatched(list, a)| == |Left(a)|
    ensures forall k :: 0 <= k < |Left(a)| ==> Left(a)[k] < |list| && Unmatched(list, a)[k] == list[Left(a)[k]]
  {
    LeftIs(a);
    if a != [] {
      var n := |a| - 1;
      UnmatchedKeepsOrder(list[..n], a[..n]);
      UnmatchedSnoc(list[..n], a[..n], list[n], a[n]);
      assert list[..n] + [list[n]] == list && a[..n] + [a[n]] == a;
    }
  }

  // ---------------------------------------------------------------- no matching reconciles more

  /** The prior events come first: the snapshot was a prefix of the transcript. */
  ghost predicate PriorsFirst(p: Pending, events: seq<Event>) {
    forall i, j :: 0 <= i < j < |events| && events[i].isUser && events[j].isUser && events[i].id !in p.prior ==>
        events[j].id !in p.prior
  }

  ghost predicate DistinctEvents(events: seq<Event>) {
    forall i, j :: 0 <= i < j < |events| ==> events[i].id != events[j].id
  }

  /** Whoever uses event `k` gets `x` instead. */
  function Redirected(b: seq<Option<nat>>, k: nat, x: Option<nat>): (r: seq<Option<nat>>)
    ensures |r| == |b|
  {
    seq(|b|, i requires 0 <= i < |b| => if b[i] == Some(k) then x else b[i])
  }

  ghost predicate UsesOnce(b: seq<Option<nat>>, k: nat) {
    forall i, j :: 0 <= i < j < |b| ==> b[i] != Some(k) || b[j] != Some(k)
  }

  lemma {:induction false} RedirectedCounts(b: seq<Option<nat>>, k: nat, x: Option<nat>)
    requires UsesOnce(b, k)
    ensures Matched(Redirected(b, k, x)) + (if x.None? && Some(k) in b then 1 else 0) == Matched(b)
  {
    if b != [] {
      assert Redirected(b, k, x)[1..] == Redirected(b[1..], k, x);
      assert b == [b[0]] + b[1..];
      RedirectedCounts(b[1..], k, x);
    }
  }

  /** Whoever held `k` may as well have what the first message had: same content, and later. */
  lemma TakesOver(list: seq<Pending>, events: seq<Event>, claimed: set<EventId>, b: seq<Option<nat>>, k: nat, i: nat)
    requires DistinctEvents(events) && Matching(list, events, claimed, b) && 0 < i < |list|
    requires PriorsFirst(list[i], events) && k < |events| && Eligible(list[0], events[k])
    requires b[0].Some? ==> b[0].value >= k
    ensures var x := if b[i] == Some(k) then b[0] else b[i];
      x.Some? ==>
        x.value < |events| && Eligible(list[i], events[x.value]) && events[x.value].id !in claimed + {events[k].id}
  {}

  /** What a message may be matched to. */
  ghost predicate Allowed(p: Pending, events: seq<Event>, claimed: set<EventId>, x: Option<nat>) {
    x.Some? ==> x.value < |events| && Eligible(p, events[x.value]) && events[x.value].id !in claimed
  }

  lemma AllowedIsMatching(list: seq<Pending>, events: seq<Event>, claimed: set<EventId>, a: seq<Option<nat>>)
    requires |a| == |list| && Injective(events, a)
    requires forall i :: 0 <= i < |a| ==> Allowed(list[i], events, claimed, a[i])
    ensures Matching(list, events, claimed, a)
  {
    forall i | 0 <= i < |a| && a[i].Some?
      ensures a[i].value < |events| && Eligible(list[i], events[a[i].value]) && events[a[i].value].id !in claimed
    {
      assert Allowed(list[i], events, claimed, a[i]);
    }
  }

  /** The exchange: if the first message takes the earliest event `k`, the rest of any matching can do
      without `k`, whoever held it taking over what the first message had, which comes later. */
  lemma Exchange(list: seq<Pending>, events: seq<Event>, claimed: set<EventId>, b: seq<Option<nat>>, k: nat)
    requires list != [] && DistinctEvents(events) && Matching(list, events, claimed, b)
    requires forall p :: p in list ==> PriorsFirst(p, events)
    requires Find(events, list[0], claimed) == Some(k)
    ensures Matching(list[1..], events, claimed + {events[k].id}, Redirected(b[1..], k, b[0]))
    ensures 1 + Matched(Redirected(b[1..], k, b[0])) >= Matched(b)
  {
    var c := Redirected(b[1..], k, b[0]);
    FindIsEligible(events, list[0], claimed);
    if b[0].Some? {
      FindIsEarliest(events, list[0], claimed, b[0].value);
    }
    RedirectedStaysInjective(events, b, k);
    RedirectedCounts(b[1..], k, b[0]);
    forall i | 0 <= i < |c| ensures Allowed(list[1..][i], events, claimed + {events[k].id}, c[i]) {
      assert list[i + 1] in list;
      TakesOver(list, events, claimed, b, k, i + 1);
    }
    AllowedIsMatching(list[1..], events, claimed + {events[k].id}, c);
  }

  lemma RedirectedStaysInjective(events: seq<Event>, b: seq<Option<nat>>, k: nat)
    requires b != [] && Injective(events, b)
    ensures Injective(events, Redirected(b[1..], k, b[0])) && UsesOnce(b[1..], k)
  {
    var c := Redirected(b[1..], k, b[0]);
    forall i, j | 0 <= i < j < |c| && c[i].Some? && c[j].Some?
      ensures c[i].value < |events| && c[j].value < |events| && events[c[i].value].id != events[c[j].value].id
    {
      assert b[1..][i] == b[i + 1] && b[1..][j] == b[j + 1];
    }
    forall i, j | 0 <= i < j < |b[1..]| ensures b[1..][i] != Some(k) || b[1..][j] != Some(k) {
      assert b[1..][i] == b[i + 1] && b[1..][j] == b[j + 1];
    }
  }

  lemma {:induction false} GreedyIsMaximum(list: seq<Pending>, events: seq<Event>, claimed: set<EventId>,
                                           b: seq<Option<nat>>)
    requires DistinctEvents(events) && Matching(list, events, claimed, b)
    requires forall p :: p in list ==> PriorsFirst(p, events)
    ensures Matched(b) <= Matched(Greedy(list, events, claimed))
    decreases |list|
  {
    if list != [] {
      if b[0].Some? {
        FindIsEarliest(events, list[0], claimed, b[0].value);
      }
      match Find(events, list[0], claimed) {
        case None =>
          assert b[0].None?;
          GreedyIsMaximum(list[1..], events, claimed, b[1..]);
        case Some(k) =>
          Exchange(list, events, claimed, b, k);
          GreedyIsMaximum(list[1..], events, claimed + {events[k].id}, Redirected(b[1..], k, b[0]));
      }
    }
  }

  /** With prior sets that are not prefixes it need not be: the first message takes the only event the
      second could have. */
  lemma GreedyNeedsPriorsFirst(text: string)
    ensures exists list, events, b ::
      && DistinctEvents(events) && Matching(list, events, {}, b) && Matched(b) > Matched(Greedy(list, events, {}))
  {
    var events := [Event("a", true, text), Event("b", true, text)];
    var list := [Pending(0, text, Queued, false, {}), Pending(1, text, Queued, false, {"b"})];
    var b: seq<Option<nat>> := [Some(1), Some(0)];
    assert Matching(list, events, {}, b);
    FindIsEarliest(events, list[0], {}, 0);
    assert Find(events, list[1], {"a"}) == None by {
      if Find(events, list[1], {"a"}).Some? {
        FindIsEligible(events, list[1], {"a"});
      }
    }
    assert Greedy(list, events, {}) == [Some(0)] + Greedy(list[1..], events, {} + {"a"});
    assert list[1..] == [list[1]] && {} + {"a"} == {"a"};
    assert Greedy([list[1]], events, {"a"}) == [None] + Greedy([list[1]][1..], events, {"a"});
    assert Greedy(list, events, {}) == [Some(0), None];
    MatchedPair(Greedy(list, events, {}));
    MatchedPair(b);
  }

  lemma MatchedPair(a: seq<Option<nat>>)
    requires |a| == 2
    ensures Matched(a) == (if a[0].Some? then 1 else 0) + (if a[1].Some? then 1 else 0)
  {
    var rest := a[1..];
    assert rest[0] == a[1] && rest[1..] == [];
    assert Matched(rest[1..]) == 0 && Matched(rest) == (if a[1].Some? then 1 else 0) + Matched(rest[1..]);
  }

  // ---------------------------------------------------------------- two calls over a growing transcript

  ghost predicate InRange(events: seq<Event>, a: seq<Option<nat>>) {
    forall i :: 0 <= i < |a| && a[i].Some? ==> a[i].value < |events|
  }

  /** The ids a matching claims. */
  ghost function Claims(events: seq<Event>, a: seq<Option<nat>>): set<EventId>
    requires InRange(events, a)
  {
    set i | 0 <= i < |a| && a[i].Some? :: events[a[i].value].id
  }

  lemma ClaimsCons(events: seq<Event>, f: Option<nat>, rest: seq<Option<nat>>)
    requires InRange(events, rest) && (f.Some? ==> f.value < |events|)
    ensures InRange(events, [f] + rest) && Claims(events, rest) <= Claims(events, [f] + rest)
    ensures f.Some? ==> events[f.value].id in Claims(events, [f] + rest)
  {
    var a := [f] + rest;
    forall i | 0 <= i < |rest| && rest[i].Some? ensures events[rest[i].value].id in Claims(events, a) {
      assert a[i + 1] == rest[i];
    }
    assert a[0] == f;
  }

  lemma GreedyCons(list: seq<Pending>, events: seq<Event>, claimed: set<EventId>)
    returns (f: Option<nat>, claimed': set<EventId>, rest: seq<Option<nat>>)
    requires list != []
    ensures f == Find(events, list[0], claimed) && (f.Some? ==> f.value < |events|)
    ensures claimed' == if f.Some? then claimed + {events[f.value].id} else claimed
    ensures rest == Greedy(list[1..], events, claimed') && Greedy(list, events, claimed) == [f] + rest
  {
    f := Find(events, list[0], claimed);
    claimed' := if f.Some? then claimed + {events[f.value].id} else claimed;
    rest := Greedy(list[1..], events, claimed');
  }

  /** A message goes without an eligible event only if another message claimed that one; and what it gets
      is no later. */
  lemma {:induction false} GreedyServes(list: seq<Pending>, events: seq<Event>, claimed: set<EventId>, j: nat, k: nat)
    requires j < |list| && k < |events| && Eligible(list[j], events[k])
    ensures var a := Greedy(list, events, claimed);
      events[k].id in claimed + Claims(events, a) || (a[j].Some? && a[j].value <= k)
    decreases |list|
  {
    var f, claimed', rest := GreedyCons(list, events, claimed);
    ClaimsCons(events, f, rest);
    if j == 0 {
      if events[k].id !in claimed {
        FindIsEarliest(events, list[0], claimed, k);
      }
    } else {
      assert list[1..][j - 1] == list[j];
      GreedyServes(list[1..], events, claimed', j - 1, k);
    }
  }

  /** Whatever a leftover message could have had was claimed by another. */
  lemma LeftoversWereOutbid(list: seq<Pending>, events: seq<Event>, p: Pending, k: nat)
    requires p in Unmatched(list, Greedy(list, events, {})) && k < |events| && Eligible(p, events[k])
    ensures events[k].id in Claims(events, Greedy(list, events, {}))
  {
    var a := Greedy(list, events, {});
    UnmatchedMembers(list, a);
    var j :| 0 <= j < |list| && a[j].None? && list[j] == p;
    GreedyServes(list, events, {}, j, k);
  }

  /** `claimed` is forgotten between calls: over a transcript that grew from `events` to `later`, the second
      call reconciles a message against an event the first call had used exactly when some message left
      over could have had an event of the first call. */
  lemma SecondCallReusesIff(list: seq<Pending>, events: seq<Event>, later: seq<Event>)
    requires events <= later && DistinctEvents(later)
    ensures var a := Greedy(list, events, {});
      var rest := Unmatched(list, a);
      Claims(events, a) * Claims(later, Greedy(rest, later, {})) != {}
      <==> exists p, k :: p in rest && 0 <= k < |events| && Eligible(p, events[k])
  {
    var a := Greedy(list, events, {});
    var rest := Unmatched(list, a);
    var b := Greedy(rest, later, {});
    GreedyIsMatching(list, events, {});
    GreedyIsMatching(rest, later, {});
    if p, k :| p in rest && 0 <= k < |events| && Eligible(p, events[k]) {
      var j :| 0 <= j < |rest| && rest[j] == p;
      assert later[k] == events[k];
      GreedyServes(rest, later, {}, j, k);
      LeftoversWereOutbid(list, events, p, k);
      if later[k].id !in Claims(later, b) {
        var m := b[j].value;
        assert Eligible(p, later[m]) && later[m] == events[m];
        LeftoversWereOutbid(list, events, p, m);
        assert later[m].id in Claims(later, b);
        assert later[m].id in Claims(events, a) * Claims(later, b);
      } else {
        assert later[k].id in Claims(events, a) * Claims(later, b);
      }
    } else {
      forall id | id in Claims(later, b) ensures id !in Claims(events, a) {
        var j :| 0 <= j < |b| && b[j].Some? && later[b[j].value].id == id;
        assert rest[j] in rest && Eligible(rest[j], later[b[j].value]);
        forall i | 0 <= i < |a| && a[i].Some? ensures events[a[i].value].id != id {
          assert later[a[i].value] == events[a[i].value];
        }
      }
    }
  }

  /** Two identical sends and one event: the first call keeps one of them, the next drops it as well. */
  lemma IdenticalSendsCollapse(p: Pending, q: Pending, e: Event)
    requires Eligible(p, e) && Eligible(q, e)
    ensures var rest := Unmatched([p, q], Greedy([p, q], [e], {}));
      rest == [q] && Unmatched(rest, Greedy(rest, [e], {})) == []
  {
    var list := [p, q];
    assert list[1..] == [q] && [q][1..] == [];
    FindIsEarliest([e], p, {}, 0);
    FindIsEarliest([e], q, {}, 0);
    assert Find([e], q, {e.id}) == None by {
      if Find([e], q, {e.id}).Some? {
        FindIsEligible([e], q, {e.id});
      }
    }
    var none: seq<Option<nat>> := [];
    assert Greedy([q], [e], {} + {e.id}) == [None] + none by {
      assert {} + {e.id} == {e.id};
    }
    var a: seq<Option<nat>> := [Some(0), None];
    assert Greedy(list, [e], {}) == a;
    assert a[1..][1..] == [] && a[1..][0] == None;
    assert Unmatched([q], a[1..]) == [q] + Unmatched([q][1..], a[1..][1..]);
    var b: seq<Option<nat>> := [Some(0)];
    assert Greedy([q], [e], {}) == b && b[1..] == [];
  }

  // ---------------------------------------------------------------- the store

  function WithoutId(list: seq<Pending>, id: nat): seq<Pending> {
    if list == [] then [] else (if list[0].id == id then [] else [list[0]]) + WithoutId(list[1..], id)
  }

  lemma {:induction false} WithoutIdSnoc(list: seq<Pending>, p: Pending, id: nat)
    ensures WithoutId(list + [p], id) == WithoutId(list, id) + if p.id == id then [] else [p]
  {
    if list != [] {
      WithoutIdSnoc(list[1..], p, id);
      assert (list + [p])[1..] == list[1..] + [p];
    } else {
      assert list + [p] == [p] && [p][1..] == list;
    }
  }

  /** The list `left` is `list` read at the positions `kept`, ascending: those of other ids. */
  ghost predicate LeftAt(list: seq<Pending>, id: nat, left: seq<Pending>, kept: seq<nat>) {
    && Ascending(kept) && (forall i :: i in kept <==> 0 <= i < |list| && list[i].id != id)
    && |left| == |kept| && forall k :: 0 <= k < |kept| ==> kept[k] < |list| && left[k] == list[kept[k]]
  }

  lemma LeftAtSnoc(list: seq<Pending>, p: Pending, id: nat, left: seq<Pending>, kept: seq<nat>)
    requires LeftAt(list, id, left, kept)
    ensures p.id == id ==> LeftAt(list + [p], id, left, kept)
    ensures p.id != id ==> LeftAt(list + [p], id, left + [p], kept + [|list|])
  {
    assert forall k :: 0 <= k < |kept| ==> kept[k] in kept;
  }

  /** Only messages of that id go, and the others keep their order. */
  lemma {:induction false} WithoutIdKeeps(list: seq<Pending>, id: nat) returns (kept: seq<nat>)
    ensures LeftAt(list, id, WithoutId(list, id), kept)
  {
    if list == [] {
      kept := [];
    } else {
      var n := |list| - 1;
      var init, p := list[..n], list[n];
      var before := WithoutIdKeeps(init, id);
      WithoutIdSnoc(init, p, id);
      LeftAtSnoc(init, p, id, WithoutId(init, id), before);
      assert init + [p] == list;
      ConcatNothing(WithoutId(init, id));
      kept := if p.id == id then before else before + [n];
    }
  }

  function UserEventIds(events: seq<Event>): set<EventId> {
    set e | e in events && e.isUser :: e.id
  }

  lemma SnapshotMembers(events: seq<Event>, n: nat, k: nat)
    requires n <= |events| && k < |events| && events[k].isUser && DistinctEvents(events)
    ensures events[k].id in UserEventIds(events[..n]) <==> k < n
  {
    if k < n {
      assert events[..n][k] == events[k];
    } else {
      forall e | e in events[..n] ensures e.id != events[k].id {
        var i :| 0 <= i < n && events[i] == e;
      }
    }
  }

  /** The prior set of a message sent now stands first in every later transcript that starts where the
      snapshot did. */
  lemma SnapshotStandsFirst(p: Pending, events: seq<Event>, later: seq<Event>)
    requires p.prior == UserEventIds(events) && events <= later && DistinctEvents(later)
    ensures PriorsFirst(p, later)
    ensures forall k :: 0 <= k < |later| && later[k].isUser ==> (later[k].id in p.prior <==> k < |events|)
  {
    assert later[..|events|] == events;
    forall k | 0 <= k < |later| && later[k].isUser ensures later[k].id in p.prior <==> k < |events| {
      SnapshotMembers(later, |events|, k);
    }
  }

  // ---------------------------------------------------------------- history paged in after the send

  /** The snapshot is the held window, and a backfill adds older history in front of it: `front` was paged
      in after the sends, and message `j` was sent when `sends[j]` of the `rest` were there. */
  ghost predicate SentBefore(list: seq<Pending>, front: seq<Event>, rest: seq<Event>, sends: seq<nat>) {
    && |sends| == |list| && DistinctEvents(front + rest)
    && forall j :: 0 <= j < |list| ==> sends[j] <= |rest| && list[j].prior == UserEventIds(rest[..sends[j]])
  }

  /** Among the older events, just those paged in are eligible again. */
  lemma OlderIsFront(list: seq<Pending>, front: seq<Event>, rest: seq<Event>, sends: seq<nat>, j: nat, k: nat)
    requires SentBefore(list, front, rest, sends) && j < |list| && k < |front| + sends[j]
        && Eligible(list[j], (front + rest)[k])
    ensures k < |front|
  {
    forall m | 0 <= m < sends[j] && rest[m].isUser ensures rest[m].id in list[j].prior {
      assert rest[..sends[j]][m] == rest[m];
    }
  }

  lemma ClaimedByOne(events: seq<Event>, a: seq<Option<nat>>, i: nat)
    requires InRange(events, a) && DistinctEvents(events) && i < |events| && events[i].id in Claims(events, a)
    ensures exists m :: 0 <= m < |a| && a[m] == Some(i)
  {
    var m :| 0 <= m < |a| && a[m].Some? && events[a[m].value].id == events[i].id;
    assert a[m] == Some(i);
  }

  /** A message is matched to an event older than its send exactly when some message is eligible for an
      event paged in since. */
  lemma MatchUsesOlderEventIff(list: seq<Pending>, front: seq<Event>, rest: seq<Event>, sends: seq<nat>)
    requires SentBefore(list, front, rest, sends)
    ensures var a := Greedy(list, front + rest, {});
      (exists j :: 0 <= j < |list| && a[j].Some? && a[j].value < |front| + sends[j])
      <==> (exists j, i :: 0 <= j < |list| && 0 <= i < |front| && Eligible(list[j], front[i]))
  {
    var events := front + rest;
    var a := Greedy(list, events, {});
    GreedyIsMatching(list, events, {});
    if j :| 0 <= j < |list| && a[j].Some? && a[j].value < |front| + sends[j] {
      OlderIsFront(list, front, rest, sends, j, a[j].value);
      assert Eligible(list[j], front[a[j].value]);
    }
    if j, i :| 0 <= j < |list| && 0 <= i < |front| && Eligible(list[j], front[i]) {
      assert events[i] == front[i];
      GreedyServes(list, events, {}, j, i);
      if events[i].id in Claims(events, a) {
        ClaimedByOne(events, a, i);
      }
    }
  }

  lemma UnmatchedOne(p: Pending, events: seq<Event>)
    ensures Unmatched([p], Greedy([p], events, {})) == if Find(events, p, {}).Some? then [] else [p]
  {
    var none: seq<Option<nat>> := [];
    assert [p][1..] == [] && Greedy([p], events, {}) == [Find(events, p, {})] + none;
    assert Unmatched([p][1..], none) == [];
  }

  /** Nothing in the window a message was sent from matches it. */
  lemma SentMessageWaits(p: Pending, held: seq<Event>)
    requires p.prior == UserEventIds(held)
    ensures Unmatched([p], Greedy([p], held, {})) == [p]
  {
    UnmatchedOne(p, held);
    forall e | e in held && e.isUser ensures e.id in p.prior {}
    if Find(held, p, {}).Some? {
      FindIsEligible(held, p, {});
    }
  }

  /** An older identical message, paged in after the send, takes the bubble down before its own event arrives. */
  lemma OlderMessageTakesTheBubble(p: Pending, past: Event, held: seq<Event>)
    requires p.prior == UserEventIds(held) && DistinctEvents([past] + held)
    requires past.isUser && Normalized(past.content) == Normalized(p.content)
    ensures Unmatched([p], Greedy([p], held, {})) == [p]
    ensures Unmatched([p], Greedy([p], [past] + held, {})) == []
  {
    SentMessageWaits(p, held);
    PastIsNotPrior(past, held);
    FirstIsTaken(p, past, held);
  }

  lemma PastIsNotPrior(past: Event, held: seq<Event>)
    requires DistinctEvents([past] + held)
    ensures past.id !in UserEventIds(held)
  {
    forall e | e in held ensures e.id != past.id {
      var i :| 0 <= i < |held| && held[i] == e;
      assert ([past] + held)[i + 1] == e && ([past] + held)[0] == past;
    }
  }

  lemma FirstIsTaken(p: Pending, e: Event, events: seq<Event>)
    requires Eligible(p, e)
    ensures Unmatched([p], Greedy([p], [e] + events, {})) == []
  {
    UnmatchedOne(p, [e] + events);
    FindIsEarliest([e] + events, p, {}, 0);
  }

  class PendingMessageStore {
    var pendingByAgent: map<AgentId, seq<Pending>>
    var nextPendingId: nat

    constructor ()
      ensures Valid() && pendingByAgent == map[]
    {
      pendingByAgent, nextPendingId := map[], 0;
    }

    function Pendings(agentId: AgentId): seq<Pending>
      reads this`pendingByAgent
    {
      if agentId in pendingByAgent then pendingByAgent[agentId] else []
    }

    /** Ids are given out once. */
    ghost predicate Valid()
      reads this
    {
      forall a, p :: a in pendingByAgent && p in pendingByAgent[a] ==> p.id < nextPendingId && p.content != ""
    }

    method AddPendingMessage(agentId: AgentId, content: string, currentEvents: seq<Event>, idle: bool)
      returns (id: Option<nat>)
      requires Valid()
      modifies this
      ensures Valid()
      ensures id.None? <==> Trim(content) == ""
      ensures id.None? ==> pendingByAgent == old(pendingByAgent)
      ensures id.Some? ==>
                && (forall a, p :: a in old(pendingByAgent) && p in old(pendingByAgent)[a] ==> p.id != id.value)
                && pendingByAgent == old(pendingByAgent)[agentId :=
                    old(Pendings(agentId)) + [Pending(id.value, Trim(content), Sending, idle,
                    set e | e in currentEvents && e.isUser :: e.id)]]
    {
      var trimmed := Trim(content);
      if trimmed == "" {
        return None;
      }
      id := Some(nextPendingId);
      nextPendingId := nextPendingId + 1;
      pendingByAgent := pendingByAgent[agentId :=
          Pendings(agentId) + [Pending(id.value, trimmed, Sending, idle, UserEventIds(currentEvents))]];
    }

    method RemovePendingMessage(agentId: AgentId, id: nat)
      requires Valid()
      modifies this`pendingByAgent
      ensures Valid()
      ensures Pendings(agentId) == WithoutId(old(Pendings(agentId)), id)
      ensures forall a :: a != agentId ==> Pendings(a) == old(Pendings(a))
    {
      if agentId !in pendingByAgent {
        return;
      }
      ghost var kept := WithoutIdKeeps(pendingByAgent[agentId], id);
      assert forall p :: p in WithoutId(pendingByAgent[agentId], id) ==> p in pendingByAgent[agentId];
      pendingByAgent := pendingByAgent[agentId := WithoutId(pendingByAgent[agentId], id)];
    }

    /** reconcilePendingMessages */
    method ReconcilePendingMessages(agentId: AgentId, events: seq<Event>)
      requires Valid()
      modifies this`pendingByAgent
      ensures Valid()
      ensures agentId !in old(pendingByAgent) ==> pendingByAgent == old(pendingByAgent)
      ensures agentId in old(pendingByAgent) ==>
                var list := old(pendingByAgent)[agentId];
                pendingByAgent == old(pendingByAgent)[agentId := Unmatched(list, Greedy(list, events, {}))]
    {
      if agentId !in pendingByAgent {
        return;
      }
      var list := pendingByAgent[agentId];
      var remaining := Reconciled(list, events);
      if |remaining| != |list| {
        pendingByAgent := pendingByAgent[agentId := remaining];
      } else {
        assert remaining == list;
      }
    }
  }

  /** The loop of one call: what each message found, and what was claimed before it. */
  ghost predicate Trace(list: seq<Pending>, events: seq<Event>, a: seq<Option<nat>>, claims: seq<set<EventId>>) {
    && |a| <= |list| && |claims| == |a| + 1
    && forall k :: 0 <= k < |a| ==>
        a[k] == Find(events, list[k], claims[k]) && claims[k + 1] == After(events, a[k], claims[k])
  }

  ghost function After(events: seq<Event>, k: Option<nat>, claimed: set<EventId>): set<EventId> {
    if k.Some? && k.value < |events| then claimed + {events[k.value].id} else claimed
  }

  lemma {:induction false} TraceIsGreedy(list: seq<Pending>, events: seq<Event>, a: seq<Option<nat>>,
                                         claims: seq<set<EventId>>)
    requires |a| == |list| && Trace(list, events, a, claims)
    ensures a == Greedy(list, events, claims[0])
    decreases |list|
  {
    if list != [] {
      var rest, later := a[1..], claims[1..];
      forall k | 0 <= k < |rest|
          ensures rest[k] == Find(events, list[1..][k], later[k]) && later[k + 1] == After(events, rest[k], later[k]) {
        assert a[k + 1] == Find(events, list[k + 1], claims[k + 1])
            && claims[k + 1 + 1] == After(events, a[k + 1], claims[k + 1]);
      }
      TraceIsGreedy(list[1..], events, rest, later);
      assert a[0] == Find(events, list[0], claims[0]) && claims[0 + 1] == After(events, a[0], claims[0]);
      assert a == [a[0]] + rest;
    }
  }

  lemma TraceStep(list: seq<Pending>, events: seq<Event>, a: seq<Option<nat>>, claims: seq<set<EventId>>,
                  k: Option<nat>)
    requires |a| < |list| && Trace(list, events, a, claims) && k == Find(events, list[|a|], claims[|a|])
    ensures Trace(list, events, a + [k], claims + [After(events, k, claims[|a|])])
  {
    var claims' := claims + [After(events, k, claims[|a|])];
    forall j | 0 <= j < |a| + 1
        ensures (a + [k])[j] == Find(events, list[j], claims'[j])
        && claims'[j + 1] == After(events, (a + [k])[j], claims'[j]) {
      if j < |a| {
        assert a[j] == Find(events, list[j], claims[j]) && claims[j + 1] == After(events, a[j], claims[j]);
      }
    }
  }

  /** The loop with `claimed` and `remaining`. */
  method Reconciled(list: seq<Pending>, events: seq<Event>) returns (remaining: seq<Pending>)
    ensures remaining == Unmatched(list, Greedy(list, events, {}))
    ensures |remaining| == |list| ==> remaining == list
    ensures forall p :: p in remaining ==> p in list
  {
    var claimed: set<EventId> := {};
    remaining := [];
    ghost var a: seq<Option<nat>>, claims: seq<set<EventId>> := [], [{}];
    var i := 0;
    while i < |list|
      invariant 0 <= i <= |list| && |a| == i && Trace(list, events, a, claims) && claims[i] == claimed
          && claims[0] == {}
      invariant remaining == Unmatched(list[..i], a)
    {
      var found := Find(events, list[i], claimed);
      TraceStep(list, events, a, claims, found);
      PrefixSnoc(list, i);
      UnmatchedSnoc(list[..i], a, list[i], found);
      if found.Some? {
        claimed := claimed + {events[found.value].id};
      } else {
        remaining := remaining + [list[i]];
      }
      a, claims := a + [found], claims + [claimed];
      i := i + 1;
    }
    assert list[..i] == list;
    UnmatchedWereListed(list, a);
    if |remaining| == |list| {
      UnmatchedAll(list, a);
    }
    TraceIsGreedy(list, events, a, claims);
  }

  lemma {:induction false} UnmatchedWereListed(list: seq<Pending>, a: seq<Option<nat>>)
    requires |a| == |list|
    ensures forall p :: p in Unmatched(list, a) ==> p in list
  {
    if list != [] {
      UnmatchedWereListed(list[1..], a[1..]);
    }
  }

  lemma {:induction false} UnmatchedAll(list: seq<Pending>, a: seq<Option<nat>>)
    requires |a| == |list| && |Unmatched(list, a)| == |list|
    ensures Unmatched(list, a) == list
  {
    if list != [] {
      UnmatchedMembers(list[1..], a[1..]);
      UnmatchedAll(list[1..], a[1..]);
    }
  }
}
