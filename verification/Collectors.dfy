/**
 Paging over several session files (session_watcher.py, lines 417 to 448 and 504 to 608): each
 collector walks only the files it needs, and takes a slice of their concatenation.
 */
module Collectors {
  import opened Common
  import opened SessionParser
  import opened WatcherModel
  import opened SessionWatcher

  type Pair = (SessionFileState, Locator)
  type Refs = map<EventId, (SessionFileState, nat)>

  function Paired(state: SessionFileState): (r: seq<Pair>)
    reads state
    ensures |r| == |state.locators|
  {
    seq(|state.locators|, i requires 0 <= i < |state.locators| reads state => (state, state.locators[i]))
  }

  /** One list of pairs per file. */
  function Lists(states: seq<SessionFileState>): (r: seq<seq<Pair>>)
    reads states
    ensures |r| == |states|
  {
    seq(|states|, i requires 0 <= i < |states| reads states => Paired(states[i]))
  }

  /** The whole selected timeline. */
  function Timeline(states: seq<SessionFileState>): seq<Pair>
    reads states
  {
    Flatten(Lists(states))
  }

  function Last<T>(s: seq<T>, n: nat): seq<T> {
    if n <= |s| then s[|s| - n..] else s
  }

  function First<T>(s: seq<T>, n: nat): seq<T> {
    if n <= |s| then s[..n] else s
  }

  function Drop<T>(s: seq<T>, n: nat): seq<T> {
    if n < |s| then s[n..] else []
  }

  /** Taking from the tail one list further back. */
  lemma LastStep<T>(lists: seq<seq<T>>, pos: nat, limit: nat)
    requires pos < |lists|
    ensures var later := Flatten(lists[pos + 1..]);
      && Flatten(lists[pos..]) == lists[pos] + later
      && (|later| <= limit ==> Last(lists[pos], limit - |later|) + later == Last(Flatten(lists[pos..]), limit))
  {
    assert lists[pos..][1..] == lists[pos + 1..];
  }

  lemma LastOfSuffix<T>(lists: seq<seq<T>>, pos: nat, limit: nat)
    requires pos <= |lists| && (pos == 0 || |Flatten(lists[pos..])| >= limit)
    ensures Last(Flatten(lists), limit) == Last(Flatten(lists[pos..]), limit)
  {
    if pos == 0 {
      assert lists[0..] == lists;
    } else {
      FlattenAppend(lists[..pos], lists[pos..]);
      assert lists[..pos] + lists[pos..] == lists;
      LastOfConcat(Flatten(lists[..pos]), Flatten(lists[pos..]), limit);
    }
  }

  lemma LastOfConcat<T>(a: seq<T>, b: seq<T>, limit: nat)
    requires |b| >= limit
    ensures Last(a + b, limit) == Last(b, limit)
  {}

  lemma FirstStep<T>(lists: seq<seq<T>>, pos: nat, limit: nat)
    requires pos < |lists|
    ensures var earlier := Flatten(lists[..pos]);
      && Flatten(lists[..pos + 1]) == earlier + lists[pos]
      && (|earlier| <= limit ==>
          earlier + First(lists[pos], limit - |earlier|) == First(Flatten(lists[..pos + 1]), limit))
  {
    assert lists[..pos + 1] == lists[..pos] + [lists[pos]];
    FlattenAppend(lists[..pos], [lists[pos]]);
    assert Flatten([lists[pos]]) == lists[pos];
  }

  lemma FirstOfPrefix<T>(lists: seq<seq<T>>, pos: nat, limit: nat)
    requires pos <= |lists| && (pos == |lists| || |Flatten(lists[..pos])| >= limit)
    ensures First(Flatten(lists), limit) == First(Flatten(lists[..pos]), limit)
  {
    FlattenAppend(lists[..pos], lists[pos..]);
    assert lists[..pos] + lists[pos..] == lists;
  }

  /** _collect_tail_locked: the last `limit` of the timeline. */
  method CollectTail(states: seq<SessionFileState>, limit: nat) returns (collected: seq<Pair>)
    ensures collected == Last(Timeline(states), limit)
  {
    ghost var lists := Lists(states);
    collected := [];
    var needed: int := limit;
    var pos := |states| - 1;
    while needed > 0 && pos >= 0
      invariant -1 <= pos < |states| && 0 <= needed == limit - |collected|
      invariant collected == Last(Flatten(lists[pos + 1..]), limit)
      invariant needed > 0 ==> collected == Flatten(lists[pos + 1..])
    {
      var count := |states[pos].locators|;
      var start := Max(0, count - needed);
      var chunk := Paired(states[pos])[start..];
      LastStep(lists, pos, limit);
      assert chunk == Last(lists[pos], needed);
      collected := chunk + collected;
      needed := needed - (count - start);
      pos := pos - 1;
    }
    LastOfSuffix(lists, pos + 1, limit);
    assert lists[0..] == lists;
  }

  /** Position of a state in the selection, or the number of states (`states.index`). */
  function IndexOf(states: seq<SessionFileState>, state: SessionFileState): (i: nat)
    ensures i <= |states| && (i < |states| ==> states[i] == state)
    ensures i == |states| ==> state !in states
  {
    if states == [] || states[0] == state then 0 else 1 + IndexOf(states[1..], state)
  }

  /** What the locator index keeps for every reference it holds. */
  ghost predicate RefsHold(refs: Refs)
    reads set id | id in refs :: refs[id].0
  {
    forall id :: id in refs ==> refs[id].1 < |refs[id].0.locators| && refs[id].0.locators[refs[id].1].id == id
  }

  /** Where an id sits in the timeline, or None. */
  function TimelineIndex(states: seq<SessionFileState>, refs: Refs, id: EventId): Option<nat>
    reads states
  {
    if id !in refs || IndexOf(states, refs[id].0) == |states| then None
    else Some(|Flatten(Lists(states[..IndexOf(states, refs[id].0)]))| + refs[id].1)
  }

  /** The timeline up to, and from just after, entry `idx` of file `p`. */
  lemma TimelineAround(states: seq<SessionFileState>, p: nat, idx: nat)
    requires p < |states| && idx < |states[p].locators|
    ensures var g := |Flatten(Lists(states[..p]))| + idx;
      && g < |Timeline(states)| && Timeline(states)[g] == (states[p], states[p].locators[idx])
      && Timeline(states)[..g] == Flatten(ListsBefore(states, p, idx))
      && Timeline(states)[g + 1..] == Flatten(ListsAfter(states, p, idx))
  {
    var a, b, c := Lists(states[..p]), Paired(states[p]), Lists(states[p + 1..]);
    assert Lists(states) == a + ([b] + c);
    FlattenAppend(a, [b] + c);
    assert ([b] + c)[1..] == c;
    assert Flatten([b] + c) == b + Flatten(c);
    FlattenAppend(a, [b[..idx]]);
    assert Flatten([b[..idx]]) == b[..idx];
    assert ([b[idx + 1..]] + c)[1..] == c;
    var f := Flatten(a);
    assert Timeline(states) == f + (b + Flatten(c));
  }

  /** The files up to and including `p`, the last cut before entry `idx`. */
  function ListsBefore(states: seq<SessionFileState>, p: nat, idx: nat): (r: seq<seq<Pair>>)
    requires p < |states| && idx < |states[p].locators|
    reads states
    ensures |r| == p + 1
  {
    Lists(states[..p]) + [Paired(states[p])[..idx]]
  }

  /** The files from `p` on, the first cut after entry `idx`. */
  function ListsAfter(states: seq<SessionFileState>, p: nat, idx: nat): (r: seq<seq<Pair>>)
    requires p < |states| && idx < |states[p].locators|
    reads states
    ensures |r| == |states| - p
  {
    [Paired(states[p])[idx + 1..]] + Lists(states[p + 1..])
  }

  lemma ChunkBefore(states: seq<SessionFileState>, p: nat, idx: nat, pos: nat, needed: nat)
    requires Distinct(states) && p < |states| && idx < |states[p].locators| && pos <= p
    ensures var end := if states[pos] == states[p] then idx else |states[pos].locators|;
      end == |ListsBefore(states, p, idx)[pos]|
          && Paired(states[pos])[Max(0, end - needed)..end] == Last(ListsBefore(states, p, idx)[pos], needed)
  {
    assert pos < p ==> ListsBefore(states, p, idx)[pos] == Paired(states[pos]) && states[pos] != states[p];
  }

  lemma ChunkAfter(states: seq<SessionFileState>, p: nat, idx: nat, pos: nat, needed: nat)
    requires Distinct(states) && p < |states| && idx < |states[p].locators| && p <= pos < |states|
    ensures var start := if states[pos] == states[p] then idx + 1 else 0;
      Paired(states[pos])[start..Min(|states[pos].locators|, start + needed)]
          == First(ListsAfter(states, p, idx)[pos - p], needed)
  {
    assert pos > p ==> ListsAfter(states, p, idx)[pos - p] == Paired(states[pos]) && states[pos] != states[p];
  }

  /** One turn of the backward walk. */
  lemma BackChunk(states: seq<SessionFileState>, p: nat, idx: nat, pos: nat, collected: seq<Pair>, limit: nat)
    requires Distinct(states) && p < |states| && idx < |states[p].locators| && pos <= p
    requires |collected| < limit && collected == Flatten(ListsBefore(states, p, idx)[pos + 1..])
    ensures var end, needed := if states[pos] == states[p] then idx else |states[pos].locators|, limit - |collected|;
      var chunk, walked := Paired(states[pos])[Max(0, end - needed)..end], Flatten(ListsBefore(states, p, idx)[pos..]);
      && chunk + collected == Last(walked, limit)
      && |chunk| == end - Max(0, end - needed)
      && (|chunk| < needed ==> chunk + collected == walked)
  {
    ChunkBefore(states, p, idx, pos, limit - |collected|);
    LastStep(ListsBefore(states, p, idx), pos, limit);
  }

  lemma ForwardTake<T>(lists: seq<seq<T>>, k: nat, collected: seq<T>, limit: nat)
    requires k < |lists| && collected == Flatten(lists[..k]) && |collected| < limit
    ensures var chunk := First(lists[k], limit - |collected|);
      && collected + chunk == First(Flatten(lists[..k + 1]), limit)
      && (|chunk| < limit - |collected| ==> collected + chunk == Flatten(lists[..k + 1]))
  {
    FirstStep(lists, k, limit);
  }

  /** One turn of the forward walk. */
  lemma ForwardChunk(states: seq<SessionFileState>, p: nat, idx: nat, pos: nat, collected: seq<Pair>, limit: nat)
    requires Distinct(states) && p < |states| && idx < |states[p].locators| && p <= pos < |states|
    requires |collected| < limit && collected == Flatten(ListsAfter(states, p, idx)[..pos - p])
    ensures var start, needed := if states[pos] == states[p] then idx + 1 else 0, limit - |collected|;
      var end := Min(|states[pos].locators|, start + needed);
      var chunk, walked := Paired(states[pos])[start..end], Flatten(ListsAfter(states, p, idx)[..pos - p + 1]);
      && collected + chunk == First(walked, limit)
      && |chunk| == end - start
      && (|chunk| < needed ==> collected + chunk == walked)
  {
    ChunkAfter(states, p, idx, pos, limit - |collected|);
    ForwardTake(ListsAfter(states, p, idx), pos - p, collected, limit);
  }

  /** _collect_before_locked: the `limit` entries just before the cursor. */
  method CollectBefore(states: seq<SessionFileState>, refs: Refs, before: EventId, limit: nat)
    returns (collected: seq<Pair>)
    requires Distinct(states) && RefsHold(refs)
    ensures match TimelineIndex(states, refs, before)
            case None => collected == []
            case Some(g) => g < |Timeline(states)| && collected == Last(Timeline(states)[..g], limit)
  {
    collected := [];
    if before !in refs { return; }
    var statePos, refIdx := IndexOf(states, refs[before].0), refs[before].1;
    if statePos == |states| { return; }
    assert states[statePos] == refs[before].0;
    ghost var g := |Flatten(Lists(states[..statePos]))| + refIdx;
    assert TimelineIndex(states, refs, before) == Some(g);
    TimelineAround(states, statePos, refIdx);
    ghost var goal := Last(Timeline(states)[..g], limit);
    collected := WalkBack(states, statePos, refIdx, limit);
  }

  /** The backward walk of _collect_before_locked. */
  method WalkBack(states: seq<SessionFileState>, statePos: nat, refIdx: nat, limit: nat) returns (collected: seq<Pair>)
    requires Distinct(states) && statePos < |states| && refIdx < |states[statePos].locators|
    ensures collected == Last(Flatten(ListsBefore(states, statePos, refIdx)), limit)
  {
    ghost var lists := ListsBefore(states, statePos, refIdx);
    collected := [];
    var needed: int := limit;
    var pos: int := statePos;
    ghost var from: nat := statePos + 1;
    ghost var walked := Flatten(lists[from..]);
    while needed > 0 && pos >= 0
      invariant -1 <= pos <= statePos && from == pos + 1 && 0 <= needed == limit - |collected|
      invariant walked == Flatten(lists[from..]) && collected == Last(walked, limit)
      invariant needed > 0 ==> collected == walked
    {
      var state := states[pos];
      var end := if state == states[statePos] then refIdx else |state.locators|;
      var start := Max(0, end - needed);
      var chunk := Paired(state)[start..end];
      BackChunk(states, statePos, refIdx, pos, collected, limit);
      from := pos;
      walked := Flatten(lists[from..]);
      assert chunk + collected == Last(walked, limit);
      collected := chunk + collected;
      needed := needed - (end - start);
      pos := pos - 1;
    }
    LastOfSuffix(lists, from, limit);
    assert lists[0..] == lists;
  }

  /** _collect_after_locked: the `limit` entries just after the cursor. */
  method CollectAfter(states: seq<SessionFileState>, refs: Refs, after: EventId, limit: nat)
    returns (collected: seq<Pair>)
    requires Distinct(states) && RefsHold(refs)
    ensures match TimelineIndex(states, refs, after)
            case None => collected == []
            case Some(g) => g < |Timeline(states)| && collected == First(Timeline(states)[g + 1..], limit)
  {
    collected := [];
    if after !in refs { return; }
    var statePos, refIdx := IndexOf(states, refs[after].0), refs[after].1;
    if statePos == |states| { return; }
    assert states[statePos] == refs[after].0;
    ghost var g := |Flatten(Lists(states[..statePos]))| + refIdx;
    assert TimelineIndex(states, refs, after) == Some(g);
    TimelineAround(states, statePos, refIdx);
    ghost var goal := First(Timeline(states)[g + 1..], limit);
    collected := WalkForward(states, statePos, refIdx, limit);
  }

  /** The forward walk of _collect_after_locked. */
  method WalkForward(states: seq<SessionFileState>, statePos: nat, refIdx: nat, limit: nat)
    returns (collected: seq<Pair>)
    requires Distinct(states) && statePos < |states| && refIdx < |states[statePos].locators|
    ensures collected == First(Flatten(ListsAfter(states, statePos, refIdx)), limit)
  {
    ghost var lists := ListsAfter(states, statePos, refIdx);
    collected := [];
    var needed: int := limit;
    var pos := statePos;
    ghost var walked := Flatten(lists[..0]);
    while needed > 0 && pos < |states|
      invariant statePos <= pos <= |states| && 0 <= needed == limit - |collected|
      invariant walked == Flatten(lists[..pos - statePos]) && collected == First(walked, limit)
      invariant needed > 0 ==> collected == walked
    {
      var state := states[pos];
      var start := if state == states[statePos] then refIdx + 1 else 0;
      var end := Min(|state.locators|, start + needed);
      ForwardChunk(states, statePos, refIdx, pos, collected, limit);
      walked := Flatten(lists[..pos - statePos + 1]);
      collected := collected + Paired(state)[start..end];
      needed := needed - (end - start);
      pos := pos + 1;
    }
    FirstOfPrefix(lists, pos - statePos, limit);
    assert lists[..|lists|] == lists;
  }

  /** _collect_at_offset_locked: the `limit` entries from a global index on. */
  method CollectAtOffset(states: seq<SessionFileState>, offset: nat, limit: nat) returns (collected: seq<Pair>)
    requires limit > 0
    ensures collected == First(Drop(Timeline(states), offset), limit)
  {
    ghost var lists := Lists(states);
    collected := [];
    var skip, needed: int := offset, limit;
    var pos := 0;
    ghost var walked := Flatten(lists[..0]);
    while pos < |states|
      invariant 0 <= pos <= |states| && 0 < needed == limit - |collected| && walked == Flatten(lists[..pos])
      invariant collected == Drop(walked, offset) && skip == Remaining(|walked|, offset)
    {
      var count := |states[pos].locators|;
      FirstStep(lists, pos, limit);
      DropStep(walked, lists[pos], offset);
      walked := Flatten(lists[..pos + 1]);
      if skip >= count {
        skip := skip - count;
      } else {
        var start := skip;
        skip := 0;
        var end := Min(count, start + needed);
        ghost var whole := collected + lists[pos][start..];
        collected := collected + Paired(states[pos])[start..end];
        needed := needed - (end - start);
        if needed <= 0 {
          assert collected == First(whole, limit);
          AtOffsetIsFull(lists, pos, offset, limit);
          return;
        }
        assert collected == whole;
      }
      pos := pos + 1;
    }
    assert lists[..|lists|] == lists;
  }

  /** What is still to be skipped after `walked` entries. */
  function Remaining(walked: nat, offset: nat): nat {
    if walked <= offset then offset - walked else 0
  }

  lemma DropStep<T>(walked: seq<T>, list: seq<T>, offset: nat)
    ensures var skip := Remaining(|walked|, offset);
      && (skip >= |list| ==>
          Drop(walked + list, offset) == Drop(walked, offset) && Remaining(|walked + list|, offset) == skip - |list|)
      && (skip < |list| ==>
          Drop(walked + list, offset) == Drop(walked, offset) + list[skip..] && Remaining(|walked + list|, offset) == 0)
  {
    if |list| == 0 {
      ConcatNothing(walked);
    }
  }

  lemma AtOffsetIsFull<T>(lists: seq<seq<T>>, pos: nat, offset: nat, limit: nat)
    requires pos < |lists| && |Drop(Flatten(lists[..pos + 1]), offset)| >= limit
    ensures First(Drop(Flatten(lists), offset), limit) == First(Drop(Flatten(lists[..pos + 1]), offset), limit)
  {
    FlattenAppend(lists[..pos + 1], lists[pos + 1..]);
    assert lists[..pos + 1] + lists[pos + 1..] == lists;
    FirstOfDrop(Flatten(lists[..pos + 1]), Flatten(lists[pos + 1..]), offset, limit);
  }

  lemma FirstOfDrop<T>(a: seq<T>, b: seq<T>, offset: nat, limit: nat)
    requires |Drop(a, offset)| >= limit
    ensures First(Drop(a + b, offset), limit) == First(Drop(a, offset), limit)
  {}

  /** get_event_offset: the flat index, or -1. */
  method GetEventOffset(states: seq<SessionFileState>, refs: Refs, id: EventId) returns (offset: int)
    requires RefsHold(refs)
    ensures match TimelineIndex(states, refs, id) case None => offset == -1 case Some(g) => offset == g
  {
    if id !in refs { return -1; }
    var (refState, refIdx) := refs[id];
    var statePos := IndexOf(states, refState);
    if statePos == |states| { return -1; }
    offset := CountAll(states[..statePos]);
    offset := offset + refIdx;
  }

  /** get_total_event_count */
  method CountAll(states: seq<SessionFileState>) returns (total: nat)
    ensures total == |Timeline(states)|
  {
    ghost var lists := Lists(states);
    total := 0;
    var pos := 0;
    while pos < |states|
      invariant 0 <= pos <= |states| && total == |Flatten(lists[..pos])|
    {
      FirstStep(lists, pos, 0);
      total := total + |states[pos].locators|;
      pos := pos + 1;
    }
    assert lists[..|lists|] == lists;
  }

  /** The index names every entry of the selected files. */
  ghost predicate RefsCover(states: seq<SessionFileState>, refs: Refs)
    reads states
  {
    forall p, i :: 0 <= p < |states| && 0 <= i < |states[p].locators| ==>
      states[p].locators[i].id in refs && refs[states[p].locators[i].id] == (states[p], i)
  }

  lemma {:induction false} LocateInFlatten<T>(lists: seq<seq<T>>, g: nat) returns (p: nat, i: nat)
    requires g < |Flatten(lists)|
    ensures p < |lists| && i < |lists[p]| && g == |Flatten(lists[..p])| + i
  {
    if g < |lists[0]| {
      p, i := 0, g;
    } else {
      p, i := LocateInFlatten(lists[1..], g - |lists[0]|);
      assert lists[..p + 1][1..] == lists[1..][..p];
      p := p + 1;
    }
  }

  lemma {:induction false} IndexOfIs(states: seq<SessionFileState>, p: nat)
    requires Distinct(states) && p < |states|
    ensures IndexOf(states, states[p]) == p
  {
    if p > 0 {
      assert states[1..][p - 1] == states[p];
      assert Distinct(states[1..]) by {
        forall i, j | 0 <= i < j < |states[1..]| ensures states[1..][i] != states[1..][j] {
          assert states[i + 1] != states[j + 1];
        }
      }
      IndexOfIs(states[1..], p - 1);
    }
  }

  /** The offset of an id is its flat index: the first event of the window at `offset` reports `offset`
      back, and every id with an index sits exactly there. */
  lemma OffsetRoundTrip(states: seq<SessionFileState>, refs: Refs, offset: nat)
    requires Distinct(states) && RefsHold(refs) && RefsCover(states, refs) && offset < |Timeline(states)|
    ensures TimelineIndex(states, refs, Timeline(states)[offset].1.id) == Some(offset)
  {
    var p, i := LocateInFlatten(Lists(states), offset);
    TimelineAround(states, p, i);
    assert Lists(states)[..p] == Lists(states[..p]);
    IndexOfIs(states, p);
  }

  lemma IndexFindsItsId(states: seq<SessionFileState>, refs: Refs, id: EventId)
    requires Distinct(states) && RefsHold(refs) && TimelineIndex(states, refs, id).Some?
    ensures var g := TimelineIndex(states, refs, id).value; g < |Timeline(states)| && Timeline(states)[g].1.id == id
  {
    TimelineAround(states, IndexOf(states, refs[id].0), refs[id].1);
  }

  // ---------------------------------------------------------------- the watcher's own books

  /** A watcher whose index is exact meets what the collectors ask of references. */
  lemma WatcherRefsHold(w: AgentSessionWatcher, states: seq<SessionFileState>)
    requires w.Valid() && Indexed(w.Model()) && forall state :: state in states ==> w.Filed(state)
    ensures RefsHold(w.refs) && RefsCover(states, w.refs)
  {
    var m := w.Model();
    forall id | id in w.refs
        ensures w.refs[id].1 < |w.refs[id].0.locators| && w.refs[id].0.locators[w.refs[id].1].id == id {
      assert m.refs[id] == (w.refs[id].0.sessionId, w.refs[id].1);
      assert w.Filed(w.refs[id].0);
    }
    forall p, i | 0 <= p < |states| && 0 <= i < |states[p].locators|
      ensures states[p].locators[i].id in w.refs && w.refs[states[p].locators[i].id] == (states[p], i)
    {
      var session, id := states[p].sessionId, states[p].locators[i].id;
      assert w.Filed(states[p]) && m.files[session].locators[i].id == id;
      assert id in m.refs && m.refs[id] == (session, i);
      assert w.Filed(w.refs[id].0);
    }
  }

  /** The states of the sessions among `ids` that have one: all of them, no other, in the order of `ids`. */
  ghost predicate SelectedInOrder(all: map<SessionId, SessionFileState>, ids: seq<SessionId>,
                                  states: seq<SessionFileState>)
    reads states
  {
    && (forall state :: state in states ==> exists k :: 0 <= k < |ids| && ids[k] in all && all[ids[k]] == state)
    && (forall k :: 0 <= k < |ids| && ids[k] in all ==> all[ids[k]] in states)
    && (forall i, j, a, b :: 0 <= i < j < |states| && 0 <= a < |ids| && 0 <= b < |ids| ==>
          ids[a] == states[i].sessionId && ids[b] == states[j].sessionId ==> a < b)
  }

  lemma SelectedSnoc(all: map<SessionId, SessionFileState>, ids: seq<SessionId>, id: SessionId,
                     states: seq<SessionFileState>)
    requires SelectedInOrder(all, ids, states) && id !in ids && forall s :: s in all ==> all[s].sessionId == s
    ensures SelectedInOrder(all, ids + [id], if id in all then states + [all[id]] else states)
  {
    var ids', states' := ids + [id], if id in all then states + [all[id]] else states;
    forall state | state in states' ensures exists k :: 0 <= k < |ids'| && ids'[k] in all && all[ids'[k]] == state {
      if state in states {
        var k :| 0 <= k < |ids| && ids[k] in all && all[ids[k]] == state;
        assert ids'[k] == ids[k];
      } else {
        assert ids'[|ids|] == id;
      }
    }
    forall i, j, a, b | 0 <= i < j < |states'| && 0 <= a < |ids'| && 0 <= b < |ids'|
      && ids'[a] == states'[i].sessionId && ids'[b] == states'[j].sessionId ensures a < b
    {
      assert states[i] in states;
      if j < |states| {
        assert states[j] in states;
      }
    }
  }

  lemma SelectedAreDistinct(all: map<SessionId, SessionFileState>, ids: seq<SessionId>, states: seq<SessionFileState>)
    requires SelectedInOrder(all, ids, states) && forall s :: s in all ==> all[s].sessionId == s
    ensures Distinct(states) && forall state :: state in states ==>
        state.sessionId in ids && state.sessionId in all && all[state.sessionId] == state
  {
    forall i, j | 0 <= i < j < |states| ensures states[i] != states[j] {
      assert states[i] in states;
      var k :| 0 <= k < |ids| && ids[k] in all && all[ids[k]] == states[i];
      assert ids[k] == states[i].sessionId;
    }
  }

  lemma SelectedStep(all: map<SessionId, SessionFileState>, ids: seq<SessionId>, i: nat, states: seq<SessionFileState>)
    requires i < |ids| && Distinct(ids) && forall s :: s in all ==> all[s].sessionId == s
    requires SelectedInOrder(all, ids[..i], states)
    ensures SelectedInOrder(all, ids[..i + 1], if ids[i] in all then states + [all[ids[i]]] else states)
  {
    PrefixMembers(ids, i);
    PrefixSnoc(ids, i);
    SelectedSnoc(all, ids[..i], ids[i], states);
  }

  lemma SelectedAreFiled(w: AgentSessionWatcher, ids: seq<SessionId>, states: seq<SessionFileState>)
    requires w.Valid() && SelectedInOrder(w.sessionStates, ids, states)
    ensures Distinct(states) && forall state :: state in states ==> w.Filed(state)
  {
    SelectedAreDistinct(w.sessionStates, ids, states);
  }

  /** _ordered_selected_states_locked, for the main sessions: those that have a state, in history order. */
  method OrderedSelectedStates(w: AgentSessionWatcher, mainSessionIds: seq<SessionId>)
    returns (ordered: seq<SessionFileState>)
    requires w.Valid() && Distinct(mainSessionIds)
    ensures SelectedInOrder(w.sessionStates, mainSessionIds, ordered)
    ensures Distinct(ordered) && forall state :: state in ordered ==> w.Filed(state)
  {
    ordered := [];
    var i := 0;
    while i < |mainSessionIds|
      invariant 0 <= i <= |mainSessionIds|
      invariant SelectedInOrder(w.sessionStates, mainSessionIds[..i], ordered)
    {
      var id := mainSessionIds[i];
      SelectedStep(w.sessionStates, mainSessionIds, i, ordered);
      if id in w.sessionStates {
        ordered := ordered + [w.sessionStates[id]];
      }
      i := i + 1;
    }
    assert mainSessionIds[..i] == mainSessionIds;
    SelectedAreFiled(w, mainSessionIds, ordered);
  }
}
