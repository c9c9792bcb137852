/** Small vocabulary shared by every component model. */
module Common {

  datatype Option<+T> = None | Some(value: T)

  function Min(a: int, b: int): int { if a < b then a else b }

  function Max(a: int, b: int): int { if a < b then b else a }

  ghost predicate Distinct<T>(s: seq<T>) {
    forall i, j :: 0 <= i < j < |s| ==> s[i] != s[j]
  }

  /** The set of values a sequence holds. */
  ghost function Elements<T>(s: seq<T>): set<T> {
    set x | x in s
  }

  lemma DistinctAppend<T>(s: seq<T>, t: seq<T>)
    requires Distinct(s) && Distinct(t) && forall x :: x in s ==> x !in t
    ensures Distinct(s + t)
  {
    forall i, j | 0 <= i < j < |s + t| ensures (s + t)[i] != (s + t)[j] {
      if i < |s| <= j {
        assert s[i] in s;
      }
    }
  }

  // ---------------------------------------------------------------- slices

  lemma SliceBefore<T>(s: seq<T>, t: seq<T>, i: nat, j: nat)
    requires i <= j <= |s|
    ensures (s + t)[i..j] == s[i..j]
  {}

  lemma SplitConcat<T>(s: seq<T>, t: seq<T>)
    ensures (s + t)[..|s|] == s && (s + t)[|s|..] == t
  {}

  lemma SliceToEnd<T>(s: seq<T>, i: nat)
    requires i <= |s|
    ensures s[i..|s|] == s[i..]
  {}

  lemma SlicePast<T>(s: seq<T>, t: seq<T>, i: nat, j: nat)
    requires i <= j <= |t|
    ensures (s + t)[|s| + i..|s| + j] == t[i..j]
  {}

  lemma SliceAcross<T>(s: seq<T>, t: seq<T>, i: nat, j: nat)
    requires i <= |s| && j <= |t|
    ensures (s + t)[i..|s| + j] == s[i..] + t[0..j]
  {}

  lemma ConcatAssoc<T>(s: seq<T>, t: seq<T>, u: seq<T>)
    ensures s + (t + u) == (s + t) + u
  {}

  lemma ConcatNothing<T>(s: seq<T>)
    ensures s + [] == s
  {}

  lemma PrefixSnoc<T>(s: seq<T>, i: nat)
    requires i < |s|
    ensures s[..i + 1] == s[..i] + [s[i]]
  {}

  lemma PrefixMembers<T>(s: seq<T>, i: nat)
    requires i < |s| && Distinct(s)
    ensures s[i] !in s[..i] && forall x :: x in s[..i + 1] <==> x in s[..i] || x == s[i]
  {
    PrefixSnoc(s, i);
  }

  /** Lists one after the other. */
  function Flatten<T>(lists: seq<seq<T>>): seq<T> {
    if lists == [] then [] else lists[0] + Flatten(lists[1..])
  }

  lemma {:induction false} FlattenAppend<T>(a: seq<seq<T>>, b: seq<seq<T>>)
    ensures Flatten(a + b) == Flatten(a) + Flatten(b)
  {
    if a == [] {
      assert a + b == b;
    } else {
      assert (a + b)[1..] == a[1..] + b;
      FlattenAppend(a[1..], b);
    }
  }

  /** `list.remove`, a missing item being no error. */
  function Removed<T(==)>(s: seq<T>, x: T): seq<T> {
    if s == [] then [] else if s[0] == x then s[1..] else [s[0]] + Removed(s[1..], x)
  }

  /** The first occurrence goes and nothing else. */
  lemma {:induction false} RemovedIs<T>(s: seq<T>, x: T) returns (i: nat)
    ensures i <= |s| && x !in s[..i]
    ensures i < |s| ==> s[i] == x && Removed(s, x) == s[..i] + s[i + 1..]
    ensures i == |s| ==> Removed(s, x) == s
  {
    if s == [] || s[0] == x {
      i := 0;
    } else {
      var k := RemovedIs(s[1..], x);
      i := k + 1;
      assert s[..i] == [s[0]] + s[1..][..k];
    }
  }

  lemma RemovedKeeps<T>(s: seq<T>, x: T)
    requires Distinct(s)
    ensures Distinct(Removed(s, x)) && forall y :: y in Removed(s, x) <==> y in s && y != x
  {
    var i := RemovedIs(s, x);
    if i < |s| {
      assert s == s[..i] + [x] + s[i + 1..];
      assert x !in s[i + 1..];
    } else {
      assert s[..i] == s;
    }
  }

  // ---------------------------------------------------------------- what a queue was given

  /** Queued items; `None` is a queue's shutdown sentinel. */
  function Wrapped<T>(items: seq<T>): (r: seq<Option<T>>)
    ensures |r| == |items|
  {
    seq(|items|, i requires 0 <= i < |items| => Some(items[i]))
  }

  /** The items among what was put, without sentinels. */
  function Given<T>(puts: seq<Option<T>>): seq<T> {
    if puts == [] then []
    else Given(puts[..|puts| - 1]) + match puts[|puts| - 1] case Some(x) => [x] case None => []
  }

  lemma {:induction false} GivenWrapped<T>(items: seq<T>)
    ensures Given(Wrapped(items)) == items
  {
    if items != [] {
      var n := |items| - 1;
      GivenWrapped(items[..n]);
      assert Wrapped(items)[..n] == Wrapped(items[..n]);
      assert items == items[..n] + [items[n]];
    }
  }

  lemma GivenSnoc<T>(puts: seq<Option<T>>, x: Option<T>)
    ensures Given(puts + [x]) == Given(puts) + match x case Some(e) => [e] case None => []
  {
    assert (puts + [x])[..|puts|] == puts;
  }

  lemma {:induction false} GivenPrefix<T>(puts: seq<Option<T>>, more: seq<Option<T>>)
    ensures Given(puts) <= Given(puts + more)
    decreases |more|
  {
    if more == [] {
      assert puts + more == puts;
    } else {
      var n := |more| - 1;
      GivenPrefix(puts, more[..n]);
      assert puts + more == (puts + more[..n]) + [more[n]];
      GivenSnoc(puts + more[..n], more[n]);
    }
  }
}
