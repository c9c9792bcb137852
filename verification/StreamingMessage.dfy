/**
 One agent's live stream and the snapshot fetch it races with
 (apps/system_interface/frontend/src/models/StreamingMessage.ts, lines 54 to 151).

 The server's log `log` is a list of distinct ids. A stream registered at position `r` delivers
 log[r], log[r + 1], ... in order; a snapshot is a page log[o..t] told together with a total.
 */
module StreamingMessage {
  import opened Common
  import opened TranscriptStore
  import opened TranscriptWindow

  datatype Stream = Stream(store: StoreView, buffer: Option<seq<Incoming>>, active: bool, disconnected: bool)

  /** connectToStream */
  function Connect(s: Stream): Stream {
    if s.active then s else s.(active := true, disconnected := false)
  }

  /** loadSnapshotWithStream up to the fetch: buffer first, then subscribe. */
  function BeginLoad(s: Stream): Stream {
    Connect(s.(buffer := Some([])))
  }

  /** onmessage */
  function Message(s: Stream, e: Incoming): Stream {
    match s.buffer
    case Some(b) => s.(buffer := Some(b + [e]))
    case None => s.(store := Append(s.store, [e]))
  }

  function Messages(s: Stream, events: seq<Incoming>): Stream
    decreases |events|
  {
    if events == [] then s else Messages(Message(s, events[0]), events[1..])
  }

  /** loadSnapshotWithStream after the fetch: the snapshot if there is one, then the buffer. */
  function FinishLoad(s: Stream, result: Option<Response>): Stream {
    var placed := if result.Some? then PlaceWindow(s.store, result.value) else s.store;
    var flushed := if s.buffer.Some? && s.buffer.value != [] && !s.disconnected then Append(placed, s.buffer.value)
        else placed;
    Stream(flushed, None, s.active, s.disconnected)
  }

  /** disconnectFromStream */
  function Disconnect(s: Stream): Stream {
    s.(disconnected := true, active := false)
  }

  /** onerror, up to the timer. */
  function Drop(s: Stream): Stream {
    s.(active := false)
  }

  /** The timer of onerror: reconnects unless the user closed the stream on purpose. */
  function Retry(s: Stream): Stream {
    if s.disconnected || s.active then s.(disconnected := false) else BeginLoad(s)
  }

  /** A tombstoned agent has no stream. */
  ghost predicate Sound(s: Stream) {
    s.disconnected ==> !s.active
  }

  lemma StepsKeepSound(s: Stream, e: Incoming, result: Option<Response>)
    requires Sound(s)
    ensures Sound(BeginLoad(s)) && Sound(Message(s, e)) && Sound(FinishLoad(s, result)) && Sound(Disconnect(s))
        && Sound(Drop(s)) && Sound(Retry(s))
    ensures BeginLoad(s).active && !BeginLoad(s).disconnected
  {}

  class AgentStream {
    var store: StoreView
    var buffer: Option<seq<Incoming>>
    var active: bool
    var explicitlyDisconnected: bool

    constructor ()
      ensures View() == Stream(StoreView([], map[], 0, 0, 0), None, false, false)
    {
      store, buffer, active, explicitlyDisconnected := StoreView([], map[], 0, 0, 0), None, false, false;
    }

    function View(): Stream
      reads this
    {
      Stream(store, buffer, active, explicitlyDisconnected)
    }

    method ConnectToStream()
      modifies this`active, this`explicitlyDisconnected
      ensures View() == Connect(old(View()))
    {
      if active {
        return;
      }
      explicitlyDisconnected := false;
      active := true;
    }

    method BeginLoadSnapshot()
      modifies this`buffer, this`active, this`explicitlyDisconnected
      ensures View() == BeginLoad(old(View()))
    {
      buffer := Some([]);
      ConnectToStream();
    }

    method OnMessage(event: Incoming)
      modifies this`buffer, this`store
      ensures View() == Message(old(View()), event)
    {
      if buffer.Some? {
        buffer := Some(buffer.value + [event]);
      } else {
        store := Append(store, [event]);
      }
    }

    method FinishLoadSnapshot(result: Option<Response>)
      requires buffer.Some?
      modifies this`buffer, this`store
      ensures View() == FinishLoad(old(View()), result)
    {
      if result.Some? {
        store := PlaceWindow(store, result.value);
      }
      var held := buffer.value;
      buffer := None;
      if |held| > 0 && !explicitlyDisconnected {
        store := Append(store, held);
      }
    }

    method DisconnectFromStream()
      modifies this`active, this`explicitlyDisconnected
      ensures View() == Disconnect(old(View()))
    {
      explicitlyDisconnected := true;
      active := false;
    }

    /** onerror of the open stream, up to setting the timer. */
    method OnError() returns (timerSet: bool)
      modifies this`active
      ensures timerSet == old(active) && !active
      ensures View() == if old(active) then Drop(old(View())) else old(View())
    {
      timerSet := active;
      active := false;
    }

    /** The timer of onerror: takes the tombstone away, and reconnects if there was none. */
    method RetryAfterError()
      modifies this`buffer, this`active, this`explicitlyDisconnected
      ensures View() == Retry(old(View()))
      ensures !explicitlyDisconnected && store == old(store)
      ensures old(explicitlyDisconnected) || old(active) ==> active == old(active) && buffer == old(buffer)
      ensures !old(explicitlyDisconnected) && !old(active) ==> active && buffer == Some([])
    {
      var wasExplicitlyDisconnected := explicitlyDisconnected;
      explicitlyDisconnected := false;
      if !wasExplicitlyDisconnected && !active {
        BeginLoadSnapshot();
      }
    }
  }

  // ---------------------------------------------------------------- deltas onto a window

  /** The deltas log[r..r + |batch|]. */
  ghost predicate Deltas(batch: seq<Incoming>, log: Log, r: nat) {
    r + |batch| <= |log| && forall i :: 0 <= i < |batch| ==> batch[i].id == log[r + i]
  }

  /** The store holds log[o..e] and, when `anchored`, knows of nothing after it. */
  ghost predicate Holds(v: StoreView, log: Log, o: nat, e: nat, anchored: bool) {
    && Exact(v) && v.firstOffset == o && o <= e <= |log| && v.ids == log[o..e]
    && v.total <= |log| && (anchored <==> v.total <= e)
  }

  lemma KnownDelta(v: StoreView, log: Log, o: nat, e: nat, r: nat, delta: Incoming)
    requires Holds(v, log, o, e, true) && o <= r < e && delta.id == log[r]
    ensures Holds(AppendOne(v, delta, true), log, o, e, true)
  {
    assert v.ids[r - o] == log[r];
  }

  lemma NextDelta(v: StoreView, log: Log, o: nat, e: nat, delta: Incoming)
    requires Distinct(log) && Holds(v, log, o, e, true) && e < |log| && delta.id == log[e]
    ensures Holds(AppendOne(v, delta, true), log, o, e + 1, true)
  {
    forall k | 0 <= k < |v.ids| ensures v.ids[k] != delta.id {
      assert v.ids[k] == log[o + k];
    }
    assert log[o..e] + [log[e]] == log[o..e + 1];
  }

  lemma DeltaOntoTail(v: StoreView, log: Log, o: nat, e: nat, r: nat, delta: Incoming)
    requires Distinct(log) && Holds(v, log, o, e, true) && o <= r <= e && r < |log| && delta.id == log[r]
    ensures Holds(AppendOne(v, delta, true), log, o, Max(e, r + 1), true)
  {
    if r < e {
      KnownDelta(v, log, o, e, r, delta);
    } else {
      NextDelta(v, log, o, e, delta);
    }
  }

  lemma FirstDelta(v: StoreView, log: Log, o: nat, e: nat, r: nat, batch: seq<Incoming>)
    returns (v1: StoreView, e1: nat, rest: seq<Incoming>)
    requires Distinct(log) && Holds(v, log, o, e, true) && o <= r <= e && Deltas(batch, log, r) && batch != []
    ensures Holds(v1, log, o, e1, true) && r + 1 <= e1 && Deltas(rest, log, r + 1) && |rest| == |batch| - 1
    ensures AppendAll(v, batch, true) == AppendAll(v1, rest, true)
    ensures Max(e1, r + 1 + |rest|) == Max(e, r + |batch|)
  {
    DeltaOntoTail(v, log, o, e, r, batch[0]);
    v1, e1, rest := AppendOne(v, batch[0], true), Max(e, r + 1), batch[1..];
  }

  lemma {:induction false} BatchOntoTail(v: StoreView, log: Log, o: nat, e: nat, r: nat, batch: seq<Incoming>)
    requires Distinct(log) && Holds(v, log, o, e, true) && o <= r <= e && Deltas(batch, log, r)
    ensures Holds(AppendAll(v, batch, true), log, o, Max(e, r + |batch|), true)
    decreases |batch|
  {
    if batch == [] {
      assert AppendAll(v, batch, true) == v && Max(e, r + |batch|) == e;
    } else {
      var v1, e1, rest := FirstDelta(v, log, o, e, r, batch);
      BatchOntoTail(v1, log, o, e1, r + 1, rest);
      assert Holds(AppendAll(v1, rest, true), log, o, Max(e1, r + 1 + |rest|), true);
    }
  }

  lemma AppendOntoTail(v: StoreView, log: Log, o: nat, e: nat, r: nat, batch: seq<Incoming>)
    requires Distinct(log) && Holds(v, log, o, e, true) && o <= r <= e && Deltas(batch, log, r)
    ensures Holds(Append(v, batch), log, o, Max(e, r + |batch|), true)
  {
    BatchOntoTail(v, log, o, e, r, batch);
  }

  lemma {:induction false} BatchOffTail(v: StoreView, batch: seq<Incoming>)
    ensures var v' := AppendAll(v, batch, false);
      v'.ids == v.ids && v'.firstOffset == v.firstOffset && v'.total == v.total && (Exact(v) ==> Exact(v'))
    decreases |batch|
  {
    if batch != [] {
      BatchOffTail(AppendOne(v, batch[0], false), batch[1..]);
    }
  }

  lemma AppendOffTail(v: StoreView, log: Log, o: nat, e: nat, batch: seq<Incoming>)
    requires Holds(v, log, o, e, false)
    ensures Holds(Append(v, batch), log, o, e, false)
  {
    BatchOffTail(v, batch);
  }

  /** What is held after deltas up to `last`. */
  function Reached(e: nat, last: nat, anchored: bool): nat {
    if anchored then Max(e, last) else e
  }

  lemma AppendReaches(v: StoreView, log: Log, o: nat, e: nat, anchored: bool, r: nat, batch: seq<Incoming>)
    requires Distinct(log) && Holds(v, log, o, e, anchored) && o <= r && (anchored ==> r <= e) && Deltas(batch, log, r)
    ensures Holds(Append(v, batch), log, o, Reached(e, r + |batch|, anchored), anchored)
  {
    if anchored {
      AppendOntoTail(v, log, o, e, r, batch);
    } else {
      AppendOffTail(v, log, o, e, batch);
    }
  }

  // ---------------------------------------------------------------- one fetch, any arrival order

  lemma {:induction false} MessagesBuffer(s: Stream, events: seq<Incoming>)
    requires s.buffer.Some?
    ensures Messages(s, events) == s.(buffer := Some(s.buffer.value + events))
    decreases |events|
  {
    if events != [] {
      MessagesBuffer(Message(s, events[0]), events[1..]);
      assert s.buffer.value + [events[0]] + events[1..] == s.buffer.value + events;
    } else {
      assert s.buffer.value + events == s.buffer.value;
    }
  }

  lemma {:induction false} MessagesReach(s: Stream, log: Log, o: nat, e: nat, anchored: bool, r: nat,
                                         events: seq<Incoming>)
    requires Distinct(log) && s.buffer.None? && Holds(s.store, log, o, e, anchored)
    requires o <= r && (anchored ==> r <= e) && Deltas(events, log, r)
    ensures var s' := Messages(s, events);
      s'.buffer.None? && Holds(s'.store, log, o, Reached(e, r + |events|, anchored), anchored)
    decreases |events|
  {
    if events != [] {
      AppendReaches(s.store, log, o, e, anchored, r, [events[0]]);
      MessagesReach(Message(s, events[0]), log, o, Reached(e, r + 1, anchored), anchored, r + 1, events[1..]);
    }
  }

  /** A load around which `before` arrives while the fetch is in flight and `after` once it is done. */
  function Load(s: Stream, before: seq<Incoming>, result: Option<Response>, after: seq<Incoming>): Stream {
    Messages(FinishLoad(Messages(BeginLoad(s), before), result), after)
  }

  lemma LoadFlushes(s: Stream, before: seq<Incoming>, result: Option<Response>)
    requires Sound(s)
    ensures var placed := if result.Some? then PlaceWindow(s.store, result.value) else s.store;
      FinishLoad(Messages(BeginLoad(s), before), result)
      == Stream(if before == [] then placed else Append(placed, before), None, true, false)
  {
    MessagesBuffer(BeginLoad(s), before);
    assert [] + before == before;
  }

  lemma LoadReaches(s: Stream, placed: StoreView, log: Log, o: nat, e: nat, anchored: bool, r: nat,
                    before: seq<Incoming>, result: Option<Response>, after: seq<Incoming>)
    requires Sound(s) && Distinct(log)
    requires placed == (if result.Some? then PlaceWindow(s.store, result.value) else s.store)
        && Holds(placed, log, o, e, anchored)
    requires o <= r && (anchored ==> r <= e) && Deltas(before, log, r) && Deltas(after, log, r + |before|)
    ensures Holds(Load(s, before, result, after).store, log, o, Reached(e, r + |before| + |after|, anchored), anchored)
  {
    LoadFlushes(s, before, result);
    var s1 := FinishLoad(Messages(BeginLoad(s), before), result);
    AppendReaches(placed, log, o, e, anchored, r, before);
    MessagesReach(s1, log, o, Reached(e, r + |before|, anchored), anchored, r + |before|, after);
  }

  lemma PlacedHolds(v: StoreView, log: Log, snapshot: Response, o: nat, t: nat)
    requires Distinct(log) && Serves(snapshot, log, o, t) && snapshot.offset == o
    ensures Holds(PlaceWindow(v, snapshot), log, o, t, snapshot.total == t)
  {
    PlaceWindowKeepsWindow(v, log, snapshot, o, t);
  }

  /** With the stream registered at `r` inside the snapshot's range, every event of the snapshot and
      every delta, whenever it arrives, is held exactly once and in order, if the snapshot reaches its
      own total. If its total was taken later, the deltas past it stay out and forward paging is due. */
  lemma SnapshotAndStreamMerge(s: Stream, log: Log, snapshot: Response, o: nat, t: nat, r: nat, before: seq<Incoming>,
                               after: seq<Incoming>)
    requires Sound(s) && Distinct(log) && Serves(snapshot, log, o, t) && snapshot.offset == o && o <= r <= t
    requires Deltas(before, log, r) && Deltas(after, log, r + |before|)
    ensures var last, v := r + |before| + |after|, Load(s, before, Some(snapshot), after).store;
      && Window(v, log) && v.firstOffset == o
      && (snapshot.total == t ==> v.ids == log[o..Max(t, last)] && !HasMoreAfter(v))
      && (snapshot.total > t ==> v.ids == log[o..t] && HasMoreAfter(v))
      && (v.ids == log[o..Max(t, last)] <==> snapshot.total == t || last <= t)
  {
    PlacedHolds(s.store, log, snapshot, o, t);
    LoadReaches(s, PlaceWindow(s.store, snapshot), log, o, t, snapshot.total == t, r, before, Some(snapshot), after);
  }

  // ---------------------------------------------------------------- and only then

  lemma {:induction false} BatchKeepsPrefix(v: StoreView, batch: seq<Incoming>, anchored: bool)
    ensures v.ids <= AppendAll(v, batch, anchored).ids && AppendAll(v, batch, anchored).firstOffset == v.firstOffset
    decreases |batch|
  {
    if batch != [] {
      BatchKeepsPrefix(AppendOne(v, batch[0], anchored), batch[1..], anchored);
    }
  }

  lemma {:induction false} MessagesKeepPrefix(s: Stream, events: seq<Incoming>)
    requires s.buffer.None?
    ensures s.store.ids <= Messages(s, events).store.ids && Messages(s, events).store.firstOffset == s.store.firstOffset
    decreases |events|
  {
    if events != [] {
      BatchKeepsPrefix(s.store, [events[0]], !HasMoreAfter(s.store));
      MessagesKeepPrefix(Message(s, events[0]), events[1..]);
    }
  }

  /** A first delta that is neither held nor next lands where log[e] belongs. */
  lemma StrayDelta(v: StoreView, log: Log, o: nat, e: nat, r: nat, batch: seq<Incoming>)
    requires Distinct(log) && Holds(v, log, o, e, true) && !(o <= r <= e) && batch != [] && Deltas(batch, log, r)
    ensures var v' := Append(v, batch);
      v'.firstOffset == o && |v'.ids| > e - o && v'.ids[e - o] == log[r]
  {
    assert forall k :: 0 <= k < |v.ids| ==> v.ids[k] == log[o + k];
    var v1 := AppendOne(v, batch[0], true);
    assert v1.ids == v.ids + [log[r]];
    BatchKeepsPrefix(v1, batch[1..], true);
  }

  lemma StrayIsOutOfPlace(ids: seq<EventId>, log: Log, o: nat, e: nat, r: nat, end: nat)
    requires Distinct(log) && o <= e && o <= end <= |log| && r < |log| && r != e
    requires |ids| > e - o && ids[e - o] == log[r]
    ensures ids != log[o..end]
  {
    if |ids| == end - o {
      assert log[o..end][e - o] == log[e];
    }
  }

  lemma LoadStrays(s: Stream, placed: StoreView, log: Log, o: nat, e: nat, r: nat,
                   before: seq<Incoming>, result: Option<Response>, after: seq<Incoming>)
    requires Sound(s) && Distinct(log)
    requires placed == (if result.Some? then PlaceWindow(s.store, result.value) else s.store)
        && Holds(placed, log, o, e, true)
    requires Deltas(before, log, r) && Deltas(after, log, r + |before|)
    requires before + after != [] && !(o <= r <= e)
    ensures var v := Load(s, before, result, after).store; |v.ids| > e - o && v.ids[e - o] == log[r]
  {
    LoadFlushes(s, before, result);
    var s1 := FinishLoad(Messages(BeginLoad(s), before), result);
    if before != [] {
      StrayDelta(placed, log, o, e, r, before);
      MessagesKeepPrefix(s1, after);
    } else {
      StrayDelta(placed, log, o, e, r, [after[0]]);
      MessagesKeepPrefix(Message(s1, after[0]), after[1..]);
    }
  }

  /** On a window that reaches the tail, the deltas continue the log exactly when the first of them is
      held or next: registered too early for the snapshot's start, or too late for its end, they do not.
      A failed fetch (no result) leaves the old window, to which the same applies. */
  lemma LoadContinuesIff(s: Stream, placed: StoreView, log: Log, o: nat, e: nat, r: nat,
                         before: seq<Incoming>, result: Option<Response>, after: seq<Incoming>)
    requires Sound(s) && Distinct(log)
    requires placed == (if result.Some? then PlaceWindow(s.store, result.value) else s.store)
        && Holds(placed, log, o, e, true)
    requires Deltas(before, log, r) && Deltas(after, log, r + |before|)
    ensures var v := Load(s, before, result, after).store;
      v.ids == log[o..Max(e, r + |before| + |after|)] <==> r <= e && (o <= r || before + after == [])
  {
    var v := Load(s, before, result, after).store;
    if before + after == [] {
      LoadFlushes(s, before, result);
    } else if o <= r <= e {
      LoadReaches(s, placed, log, o, e, true, r, before, result, after);
    } else {
      LoadStrays(s, placed, log, o, e, r, before, result, after);
      StrayIsOutOfPlace(v.ids, log, o, e, r, Max(e, r + |before| + |after|));
    }
  }
}
