/**
 The window arithmetic of the virtualized message list
 (apps/system_interface/frontend/src/models/virtualWindow.ts, lines 39 to 104), over real heights.
*/
module VirtualWindow {
  datatype Result = Result(startIndex: nat, endIndex: nat, topPad: real, bottomPad: real, totalHeight: real)

  ghost predicate Heights(h: seq<real>) {
    forall i :: 0 <= i < |h| ==> h[i] >= 0.0
  }

  /** Height of the rows before `i`: the top edge of row `i`. */
  function Top(h: seq<real>, i: nat): real
    requires i <= |h|
  {
    if i == 0 then 0.0 else Top(h, i - 1) + h[i - 1]
  }

  function Bottom(h: seq<real>, i: nat): real
    requires i < |h|
  {
    Top(h, i + 1)
  }

  /** The row shows somewhere between `lo` and `hi`, the over-scanned viewport. */
  predicate Overlaps(h: seq<real>, i: nat, lo: real, hi: real)
    requires i < |h|
  {
    Bottom(h, i) > lo && Top(h, i) < hi
  }

  /** The slice: it starts at the first row that ends below `lo`, or at the last row if there is none, and
      goes on to the last row that starts above `hi`, but holds one row at least. */
  ghost predicate IsSlice(h: seq<real>, lo: real, hi: real, start: nat, end: nat) {
    && start < end <= |h|
    && (forall i :: 0 <= i < start ==> Bottom(h, i) <= lo)
    && (Bottom(h, start) > lo || start == |h| - 1)
    && (forall i :: end <= i < |h| ==> Top(h, i) >= hi)
    && (end == start + 1 || Top(h, end - 1) < hi)
  }

  /** computeVisibleWindow */
  method ComputeVisibleWindow(h: seq<real>, scrollTop: real, viewportHeight: real, overscanPx: real) returns (r: Result)
    ensures h == [] ==> r == Result(0, 0, 0.0, 0.0, 0.0)
    ensures h != [] ==>
        IsSlice(h, scrollTop - overscanPx, scrollTop + viewportHeight + overscanPx, r.startIndex, r.endIndex)
    ensures r.endIndex <= |h| && r.startIndex <= |h|
    ensures r.topPad == Top(h, r.startIndex) && r.bottomPad == Top(h, |h|) - Top(h, r.endIndex)
        && r.totalHeight == Top(h, |h|)
  {
    if |h| == 0 {
      return Result(0, 0, 0.0, 0.0, 0.0);
    }
    var windowTop := scrollTop - overscanPx;
    var windowBottom := scrollTop + viewportHeight + overscanPx;
    var startIndex := -1;
    var endIndex := 0;
    var topPad, offset := 0.0, 0.0;
    for i := 0 to |h|
      invariant offset == Top(h, i)
      invariant -1 <= startIndex < i && 0 <= endIndex <= i
      invariant startIndex == -1 ==> forall k :: 0 <= k < i ==> Bottom(h, k) <= windowTop
      invariant startIndex >= 0 ==>
                  topPad == Top(h, startIndex) && Bottom(h, startIndex) > windowTop
                      && forall k :: 0 <= k < startIndex ==> Bottom(h, k) <= windowTop
      invariant forall k :: endIndex <= k < i ==> Top(h, k) >= windowBottom
      invariant endIndex > 0 ==> Top(h, endIndex - 1) < windowBottom
    {
      var height := h[i];
      var rowTop := offset;
      var rowBottom := offset + height;
      if startIndex == -1 && rowBottom > windowTop {
        startIndex := i;
        topPad := rowTop;
      }
      if rowTop < windowBottom {
        endIndex := i + 1;
      }
      offset := offset + height;
    }
    var totalHeight := offset;
    if startIndex == -1 {
      var lastHeight := h[|h| - 1];
      return Result(|h| - 1, |h|, totalHeight - lastHeight, 0.0, totalHeight);
    }
    if endIndex <= startIndex {
      endIndex := startIndex + 1;
    }
    var bottomPad := 0.0;
    for i := endIndex to |h|
      invariant bottomPad == Top(h, i) - Top(h, endIndex)
    {
      bottomPad := bottomPad + h[i];
    }
    return Result(startIndex, endIndex, topPad, bottomPad, totalHeight);
  }

  lemma {:induction false} TopIsMonotone(h: seq<real>, i: nat, j: nat)
    requires Heights(h) && i <= j <= |h|
    ensures Top(h, i) <= Top(h, j)
    decreases j
  {
    if i < j {
      TopIsMonotone(h, i, j - 1);
    }
  }

  /** The height of the rows in a slice, added up from the slice alone. */
  function Sum(h: seq<real>): real {
    if h == [] then 0.0 else h[0] + Sum(h[1..])
  }

  lemma {:induction false} SumIsDifference(h: seq<real>, start: nat, end: nat)
    requires start <= end <= |h|
    ensures Sum(h[start..end]) == Top(h, end) - Top(h, start)
    decreases end - start
  {
    if start < end {
      SumIsDifference(h, start + 1, end);
      assert h[start..end][1..] == h[start + 1..end];
    }
  }

  /** The spacers and the rendered rows add up to the whole list, and the spacers are not negative. */
  lemma PadsAndRowsAddUp(h: seq<real>, start: nat, end: nat)
    requires Heights(h) && start <= end <= |h|
    ensures Top(h, start) + Sum(h[start..end]) + (Top(h, |h|) - Top(h, end)) == Sum(h)
    ensures Top(h, start) >= 0.0 && Top(h, |h|) - Top(h, end) >= 0.0
    ensures Top(h, start) == Sum(h[..start]) && Top(h, |h|) - Top(h, end) == Sum(h[end..])
  {
    SumIsDifference(h, start, end);
    SumIsDifference(h, 0, |h|);
    SumIsDifference(h, 0, start);
    SumIsDifference(h, end, |h|);
    assert h[0..|h|] == h && h[0..start] == h[..start] && h[end..|h|] == h[end..];
    TopIsMonotone(h, 0, start);
    TopIsMonotone(h, end, |h|);
  }

  /** Every row overlapping the over-scanned viewport is rendered; and if there is one, nothing else is.
      If there is none, one row is rendered all the same. */
  lemma SliceIsTheOverlap(h: seq<real>, lo: real, hi: real, start: nat, end: nat)
    requires Heights(h) && IsSlice(h, lo, hi, start, end)
    ensures forall i :: 0 <= i < |h| && Overlaps(h, i, lo, hi) ==> start <= i < end
    ensures (exists i :: 0 <= i < |h| && Overlaps(h, i, lo, hi)) ==> forall i :: start <= i < end ==>
        Overlaps(h, i, lo, hi)
    ensures (forall i :: 0 <= i < |h| ==> !Overlaps(h, i, lo, hi)) ==> end == start + 1
  {
    forall i | start <= i < end && (Overlaps(h, start, lo, hi) || end > start + 1) ensures Overlaps(h, i, lo, hi) {
      TopIsMonotone(h, start + 1, i + 1);
      TopIsMonotone(h, i, end - 1);
    }
    if end > start + 1 {
      TopIsMonotone(h, start, end - 1);
      assert Overlaps(h, start, lo, hi);
    }
    if j :| 0 <= j < |h| && Overlaps(h, j, lo, hi) {
      TopIsMonotone(h, start, j);
    }
  }

  /** The slice is determined, and scrolling down never moves either end of it up. */
  lemma SliceFollowsTheScroll(h: seq<real>, lo: real, hi: real, start: nat, end: nat, lo': real, hi': real, start': nat,
                              end': nat)
    requires Heights(h) && IsSlice(h, lo, hi, start, end) && IsSlice(h, lo', hi', start', end')
    requires lo <= lo' && hi <= hi'
    ensures start <= start' && end <= end'
    ensures lo == lo' && hi == hi' ==> start == start' && end == end'
  {
    forall i, j | 0 <= i <= j <= |h| ensures Top(h, i) <= Top(h, j) {
      TopIsMonotone(h, i, j);
    }
  }

  /** Scrolled past the end of a list that is not empty, no row overlaps, and the last one is rendered. */
  lemma PastTheEndTheLastRowShows(h: seq<real>, lo: real, hi: real, start: nat, end: nat)
    requires Heights(h) && h != [] && lo >= Top(h, |h|)
    ensures forall i :: 0 <= i < |h| ==> !Overlaps(h, i, lo, hi)
    ensures IsSlice(h, lo, hi, start, end) <==> start == |h| - 1 && end == |h|
  {
    forall i | 0 <= i < |h| ensures Bottom(h, i) <= lo {
      TopIsMonotone(h, i + 1, |h|);
    }
    if IsSlice(h, lo, hi, start, end) {
      SliceFollowsTheScroll(h, lo, hi, start, end, lo, hi, |h| - 1, |h|);
    }
  }
}
