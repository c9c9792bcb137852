/**
 The life of an agent's live stream: what the user asked for, what failed, and which timers fired
 (apps/system_interface/frontend/src/models/StreamingMessage.ts, lines 54 to 151). Whether there is a
 stream, whether it was closed on purpose, and what a load appends, told from that history alone.
 */
module StreamLife {
  import opened Common
  import opened TranscriptStore
  import opened TranscriptWindow
  import opened StreamingMessage

  datatype Step =
    | UserConnects
    | UserLoads
    | UserDisconnects
    | Errors
    | TimerFires
    | Arrives(e: Incoming)
    | LoadEnds(result: Option<Response>)

  /** The stream and the reconnect timers that have not fired yet. */
  datatype Life = Life(s: Stream, timers: nat)

  const BORN := Life(Stream(NOTHING, None, false, false), 0)

  /** An error of a stream that is not the open one is not looked at. */
  function Next(l: Life, step: Step): Life {
    match step
    case UserConnects => l.(s := Connect(l.s))
    case UserLoads => l.(s := BeginLoad(l.s))
    case UserDisconnects => l.(s := Disconnect(l.s))
    case Errors => if l.s.active then Life(Drop(l.s), l.timers + 1) else l
    case TimerFires => Life(Retry(l.s), Max(0, l.timers - 1))
    case Arrives(e) => l.(s := Message(l.s, e))
    case LoadEnds(result) => l.(s := FinishLoad(l.s, result))
  }

  function After(steps: seq<Step>): Life {
    if steps == [] then BORN else Next(After(steps[..|steps| - 1]), steps[|steps| - 1])
  }

  /** A timer was set, and a load begun, before they are over. */
  ghost predicate Possible(l: Life, step: Step) {
    match step
    case TimerFires => l.timers > 0
    case LoadEnds(_) => l.s.buffer.Some?
    case _ => true
  }

  ghost predicate Happens(steps: seq<Step>) {
    forall n :: 0 <= n < |steps| ==> Possible(After(steps[..n]), steps[n])
  }

  // ---------------------------------------------------------------- what the history says

  /** Asked for by the user. */
  predicate Opens(step: Step) {
    step.UserConnects? || step.UserLoads?
  }

  /** The user has closed the stream and not asked for it since, nor has a timer fired since. */
  ghost predicate ClosedOnPurpose(steps: seq<Step>) {
    exists i :: 0 <= i < |steps| && ClosedSince(steps, i)
  }

  ghost predicate ClosedSince(steps: seq<Step>, i: int)
    requires 0 <= i < |steps|
  {
    steps[i].UserDisconnects? && forall j :: i < j < |steps| ==> !Opens(steps[j]) && !steps[j].TimerFires?
  }

  /** The stream is asked for, or a timer fires while it is not closed on purpose. */
  ghost predicate Starts(steps: seq<Step>, i: int)
    requires 0 <= i < |steps|
  {
    Opens(steps[i]) || (steps[i].TimerFires? && !ClosedOnPurpose(steps[..i]))
  }

  ghost predicate UpSince(steps: seq<Step>, i: int)
    requires 0 <= i < |steps|
  {
    Starts(steps, i) && forall j :: i < j < |steps| ==> !steps[j].Errors? && !steps[j].UserDisconnects?
  }

  /** It has been started, and has neither failed nor been closed since. */
  ghost predicate Up(steps: seq<Step>) {
    exists i :: 0 <= i < |steps| && UpSince(steps, i)
  }

  lemma ClosedBefore(steps: seq<Step>, x: Step, i: nat)
    requires i < |steps|
    ensures ClosedSince(steps + [x], i) <==> ClosedSince(steps, i) && !Opens(x) && !x.TimerFires?
  {
    var all := steps + [x];
    assert all[|steps|] == x;
    assert forall j :: 0 <= j < |steps| ==> all[j] == steps[j];
  }

  lemma ClosedSnoc(steps: seq<Step>, x: Step)
    ensures ClosedOnPurpose(steps + [x])
       <==> x.UserDisconnects? || (ClosedOnPurpose(steps) && !Opens(x) && !x.TimerFires?)
  {
    var all := steps + [x];
    assert ClosedSince(all, |steps|) <==> x.UserDisconnects?;
    forall i | 0 <= i < |steps| ensures ClosedSince(all, i) <==> ClosedSince(steps, i) && !Opens(x) && !x.TimerFires? {
      ClosedBefore(steps, x, i);
    }
  }

  lemma UpBefore(steps: seq<Step>, x: Step, i: nat)
    requires i < |steps|
    ensures UpSince(steps + [x], i) <==> UpSince(steps, i) && !x.Errors? && !x.UserDisconnects?
  {
    var all := steps + [x];
    assert all[..i] == steps[..i] && all[|steps|] == x;
    assert forall j :: 0 <= j < |steps| ==> all[j] == steps[j];
  }

  lemma UpSnoc(steps: seq<Step>, x: Step)
    ensures Up(steps + [x])
       <==> Opens(x) || (x.TimerFires? && !ClosedOnPurpose(steps)) || (Up(steps) && !x.Errors? && !x.UserDisconnects?)
  {
    var all := steps + [x];
    assert all[..|steps|] == steps;
    assert UpSince(all, |steps|) <==> Opens(x) || (x.TimerFires? && !ClosedOnPurpose(steps));
    forall i | 0 <= i < |steps| ensures UpSince(all, i) <==> UpSince(steps, i) && !x.Errors? && !x.UserDisconnects? {
      UpBefore(steps, x, i);
    }
  }

  /** Over every history: there is a stream exactly if it was asked for, or a timer fired while it was not
      closed on purpose, and it has neither failed nor been closed since; and the tombstone stands exactly
      while it is closed on purpose. */
  lemma {:induction false} StreamIsUpIff(steps: seq<Step>)
    ensures After(steps).s.active <==> Up(steps)
    ensures After(steps).s.disconnected <==> ClosedOnPurpose(steps)
    ensures !(Up(steps) && ClosedOnPurpose(steps))
  {
    if steps != [] {
      var init, x := steps[..|steps| - 1], steps[|steps| - 1];
      assert steps == init + [x];
      StreamIsUpIff(init);
      ClosedSnoc(init, x);
      UpSnoc(init, x);
    }
  }

  // ---------------------------------------------------------------- closing on purpose

  function Fired(steps: seq<Step>): nat {
    if steps == [] then 0 else Fired(steps[..|steps| - 1]) + if steps[|steps| - 1].TimerFires? then 1 else 0
  }

  lemma {:induction false} FiredGrows(steps: seq<Step>, n: nat)
    requires n <= |steps|
    ensures Fired(steps[..n]) <= Fired(steps)
  {
    if n == |steps| {
      assert steps[..n] == steps;
    } else {
      assert steps[..|steps| - 1][..n] == steps[..n];
      FiredGrows(steps[..|steps| - 1], n);
    }
  }

  /** Closed on purpose, and nothing asked for since: the first timer takes the tombstone away, the second
      opens the stream. */
  lemma {:induction false} AfterClosing(before: seq<Step>, after: seq<Step>)
    requires forall step :: step in after ==> !Opens(step) && !step.UserDisconnects?
    ensures var s := After(before + [UserDisconnects] + after).s;
      && (Fired(after) == 0 ==> !s.active && s.disconnected)
      && (Fired(after) == 1 ==> !s.active && !s.disconnected)
    decreases |after|
  {
    if after == [] {
      assert before + [UserDisconnects] + after == before + [UserDisconnects];
      AfterSnoc(before, UserDisconnects);
    } else {
      var init, x := after[..|after| - 1], after[|after| - 1];
      assert before + [UserDisconnects] + after == (before + [UserDisconnects] + init) + [x];
      AfterSnoc(before + [UserDisconnects] + init, x);
      assert x in after;
      AfterClosing(before, init);
    }
  }

  lemma {:induction false} SecondTimer(after: seq<Step>) returns (n: nat)
    requires Fired(after) >= 2
    ensures n < |after| && after[n].TimerFires? && Fired(after[..n]) == 1
  {
    var init := after[..|after| - 1];
    if Fired(init) >= 2 {
      n := SecondTimer(init);
      assert init[..n] == after[..n];
    } else {
      n := |after| - 1;
    }
  }

  /** A stream closed on purpose and not asked for again comes back all the same exactly if two timers fire:
      the first one takes the tombstone that was meant for every one of them. */
  lemma ClosedComesBackIff(before: seq<Step>, after: seq<Step>)
    requires forall step :: step in after ==> !Opens(step) && !step.UserDisconnects?
    ensures (exists n :: 0 <= n <= |after| && After(before + [UserDisconnects] + after[..n]).s.active)
       <==> Fired(after) >= 2
  {
    if Fired(after) >= 2 {
      var n := SecondTimer(after);
      AfterClosing(before, after[..n]);
      PrefixSnoc(after, n);
      assert before + [UserDisconnects] + after[..n + 1] == (before + [UserDisconnects] + after[..n]) + [after[n]];
      AfterSnoc(before + [UserDisconnects] + after[..n], after[n]);
      assert After(before + [UserDisconnects] + after[..n + 1]).s.active;
    } else {
      forall n | 0 <= n <= |after| ensures !After(before + [UserDisconnects] + after[..n]).s.active {
        FiredGrows(after, n);
        AfterClosing(before, after[..n]);
      }
    }
  }

  /** With one timer pending at most, it stays down until it is asked for, however often it is closed again. */
  ghost predicate Down(l: Life) {
    !l.s.active && l.timers <= if l.s.disconnected then 1 else 0
  }

  lemma DownStays(l: Life, step: Step)
    requires Down(l) && Possible(l, step) && !Opens(step)
    ensures Down(Next(l, step))
  {}

  lemma AfterSnoc(steps: seq<Step>, x: Step)
    ensures After(steps + [x]) == Next(After(steps), x)
    ensures Happens(steps + [x]) ==> Happens(steps) && Possible(After(steps), x)
  {
    var all := steps + [x];
    assert all[..|steps|] == steps;
    if Happens(all) {
      HappenedBefore(all, |steps|);
      assert Possible(After(all[..|steps|]), all[|steps|]);
    }
  }

  lemma {:induction false} ClosedStaysDown(before: seq<Step>, after: seq<Step>)
    requires Happens(before + [UserDisconnects] + after) && After(before).timers <= 1
    requires forall step :: step in after ==> !Opens(step)
    ensures Down(After(before + [UserDisconnects] + after))
    decreases |after|
  {
    if after == [] {
      assert before + [UserDisconnects] + after == before + [UserDisconnects];
      AfterSnoc(before, UserDisconnects);
    } else {
      var init, x := after[..|after| - 1], after[|after| - 1];
      assert before + [UserDisconnects] + after == (before + [UserDisconnects] + init) + [x];
      AfterSnoc(before + [UserDisconnects] + init, x);
      ClosedStaysDown(before, init);
      DownStays(After(before + [UserDisconnects] + init), x);
    }
  }

  lemma HappenedBefore(steps: seq<Step>, n: nat)
    requires Happens(steps) && n <= |steps|
    ensures Happens(steps[..n])
  {
    forall k | 0 <= k < n ensures Possible(After(steps[..n][..k]), steps[..n][k]) {
      assert steps[..n][..k] == steps[..k];
      assert Possible(After(steps[..k]), steps[k]);
    }
  }

  /** A run in which it does not: dropped twice with a connect in between, so that two timers are pending. */
  lemma TwoTimersReopen()
    ensures var steps := [UserLoads, Errors, UserConnects, Errors, UserDisconnects, TimerFires, TimerFires];
      && Happens(steps) && After(steps).s.active && After(steps[..5]).timers == 2
  {
    var steps := [UserLoads, Errors, UserConnects, Errors, UserDisconnects, TimerFires, TimerFires];
    AfterFirst(steps, 0);
    AfterFirst(steps, 1);
    AfterFirst(steps, 2);
    AfterFirst(steps, 3);
    AfterFirst(steps, 4);
    AfterFirst(steps, 5);
    AfterFirst(steps, 6);
    assert steps[..7] == steps;
  }

  lemma AfterFirst(steps: seq<Step>, n: nat)
    requires n < |steps|
    ensures After(steps[..n + 1]) == Next(After(steps[..n]), steps[n])
  {
    assert steps[..n + 1][..n] == steps[..n];
  }

  /** A stream that failed and was not closed since is up again once a timer has fired. */
  lemma DroppedComesBack(before: seq<Step>, between: seq<Step>)
    requires Up(before) && forall step :: step in between ==> !step.UserDisconnects?
    ensures After(before + [Errors] + between + [TimerFires]).s.active
  {
    StreamIsUpIff(before);
    NotClosed(before + [Errors], between);
    ClosedSnoc(before, Errors);
    UpSnoc(before + [Errors] + between, TimerFires);
    StreamIsUpIff(before + [Errors] + between + [TimerFires]);
  }

  lemma {:induction false} NotClosed(before: seq<Step>, between: seq<Step>)
    requires forall step :: step in between ==> !step.UserDisconnects?
    ensures ClosedOnPurpose(before + between) ==> ClosedOnPurpose(before)
    decreases |between|
  {
    if between == [] {
      assert before + between == before;
    } else {
      var init, x := between[..|between| - 1], between[|between| - 1];
      assert before + between == (before + init) + [x];
      ClosedSnoc(before + init, x);
      NotClosed(before, init);
    }
  }

  // ---------------------------------------------------------------- what a load appends

  /** What has arrived since the last load began, by the user or by a timer that reconnects. */
  ghost function Waiting(steps: seq<Step>): seq<Incoming> {
    if steps == [] then []
    else
      var init, x := steps[..|steps| - 1], steps[|steps| - 1];
      match x
      case UserLoads => []
      case TimerFires => if ClosedOnPurpose(init) || Up(init) then Waiting(init) else []
      case Arrives(e) => Waiting(init) + [e]
      case _ => Waiting(init)
  }

  lemma {:induction false} BufferIsWaiting(steps: seq<Step>)
    ensures After(steps).s.buffer.Some? ==> After(steps).s.buffer.value == Waiting(steps)
  {
    if steps != [] {
      var init := steps[..|steps| - 1];
      BufferIsWaiting(init);
      StreamIsUpIff(init);
    }
  }

  /** A load that ends puts the page, if there is one, in place of the window, and appends what has arrived
      since it began exactly if the stream is not closed on purpose. */
  lemma LoadEndsWith(steps: seq<Step>, result: Option<Response>)
    requires Happens(steps + [LoadEnds(result)])
    ensures var was, now := After(steps).s.store, After(steps + [LoadEnds(result)]).s;
      var placed := if result.Some? then PlaceWindow(was, result.value) else was;
      && now.buffer.None?
      && now.store == if ClosedOnPurpose(steps) || Waiting(steps) == [] then placed else Append(placed, Waiting(steps))
  {
    var all := steps + [LoadEnds(result)];
    assert all[..|steps|] == steps;
    assert Possible(After(all[..|steps|]), all[|steps|]);
    BufferIsWaiting(steps);
    StreamIsUpIff(steps);
  }

  /** So a load that ends after a disconnect appends nothing, unless a timer has fired in between: then it
      does, for a stream the user has closed. */
  lemma ClosedLoadAppends(e: Incoming)
    ensures var steps := [UserLoads, Arrives(e), Errors, UserDisconnects, TimerFires, LoadEnds(None)];
      && Happens(steps) && !After(steps).s.active
      && After(steps).s.store == Append(NOTHING, [e]) && After(steps).s.store.ids == [e.id]
  {
    var steps := [UserLoads, Arrives(e), Errors, UserDisconnects, TimerFires, LoadEnds(None)];
    AfterFirst(steps, 0);
    AfterFirst(steps, 1);
    AfterFirst(steps, 2);
    AfterFirst(steps, 3);
    AfterFirst(steps, 4);
    AfterFirst(steps, 5);
    assert steps[..6] == steps && [] + [e] == [e] && [e][1..] == [];
    assert AppendAll(AppendOne(NOTHING, e, true), [], true) == AppendOne(NOTHING, e, true);
    assert AppendAll(NOTHING, [e], true) == AppendOne(NOTHING, e, true);
  }
}
