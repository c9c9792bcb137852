/**
 The watcher over whole runs: files appear, grow and are truncated; HTTP readers, the priming pass
 and the poll thread refresh them in any interleaving; the poll thread emits; readers resolve bodies.
 Each step is one lock-held section (session_watcher.py, lines 610 to 757, 849 to 866, 1084 to 1112).

 Three promises, under three hypotheses: the locator index is exact over every run; emission is
 exactly once if the events of each line fit in the cache together; served bodies are those the
 bytes give if, besides, the lines read agree with each other (WatcherBodies.Compatible).
 */
module WatcherRuns {
  import opened SessionParser
  import opened LineSplitter
  import opened WatcherModel
  import opened WatcherRefresh
  import opened WatcherEmission
  import opened WatcherBodies

  /** What `on_events` received for one file since it was primed, discovered or truncated. */
  datatype Ledger = Ledger(base: nat, sent: seq<EventId>)

  /** The watcher, the disk, the bytes consumed of each file, and what was emitted. */
  datatype System = System(w: Watch, disk: Disk, done: Disk, ledger: map<SessionId, Ledger>)

  const START := System(NEW_WATCH, map[], map[], map[])

  datatype Step =
    | Appear(s: SessionId, content: Bytes)
    | Write(s: SessionId, content: Bytes)
    | Truncate(s: SessionId, content: Bytes, mtime: int)
    | Refreshed(s: SessionId, mtime: int)
    | Prime(s: SessionId, mtime: int)
    | PollEmit(s: SessionId)
    | Read(pairs: seq<(SessionId, Locator)>)

  /** What the environment and the callers guarantee before each step. */
  ghost predicate Possible(sys: System, step: Step) {
    match step
    case Appear(s, content) => s !in sys.w.files
    // A file only grows past what was consumed ...
    case Write(s, content) => s in sys.w.files && s in sys.done && sys.done[s] <= content
    // ... or shrinks below it, and a refresh sees that before it grows back.
    case Truncate(s, content, mtime) => s in sys.w.files && |content| < sys.w.files[s].consumed
    case Refreshed(s, mtime) => s in sys.w.files
    // Priming is over before the poll thread emits anything.
    case Prime(s, mtime) => s in sys.w.files && s in sys.ledger && sys.ledger[s].sent == []
    case PollEmit(s) => s in sys.w.files
    case Read(pairs) => AllHeld(sys.w, pairs)
  }

  /** The index is exact, and each file has a ledger. */
  ghost predicate Wellformed(sys: System) {
    Indexed(sys.w) && sys.ledger.Keys == sys.w.files.Keys
  }

  /** One refresh under the lock, with `done` following the consumed offset. */
  function AfterRefresh(json: Json, sys: System, s: SessionId, mtime: int, mark: bool, capacity: nat): System
    requires s in sys.w.files
  {
    var file := FileOf(sys.disk, s);
    var w' := Refresh(json, sys.w, s, file, mtime, mark, capacity);
    System(w', sys.disk, sys.done[s := file[..w'.files[s].consumed]],
           if mark then sys.ledger[s := Ledger(|w'.files[s].locators|, [])] else sys.ledger)
  }

  /** The truncation branch: the file is now `content`, its index is gone and its ledger starts over. */
  function Forgotten(sys: System, s: SessionId, content: Bytes): System
    requires s in sys.w.files
  {
    System(Forget(sys.w, s), sys.disk[s := content], sys.done[s := []], sys.ledger[s := Ledger(0, [])])
  }

  function Appeared(sys: System, s: SessionId, content: Bytes): System {
    System(Discover(sys.w, s), sys.disk[s := content], sys.done[s := []], sys.ledger[s := Ledger(0, [])])
  }

  function Pending(w: Watch, s: SessionId): seq<(SessionId, Locator)>
    requires s in w.files && w.files[s].emitted <= |w.files[s].locators|
  {
    PairsFrom(s, w.files[s].locators, w.files[s].emitted)
  }

  /** The locked section of _poll_for_changes: take what is past the mark, move the mark, resolve. */
  function AfterEmit(json: Json, sys: System, s: SessionId, capacity: nat): System
    requires s in sys.w.files && s in sys.ledger && sys.w.files[s].emitted <= |sys.w.files[s].locators|
  {
    var (w', batch) := Resolve(json, MarkEmitted(sys.w, s, true), sys.disk, Pending(sys.w, s), capacity);
    System(w', sys.disk, sys.done, sys.ledger[s := Ledger(sys.ledger[s].base, sys.ledger[s].sent + IdsOf(batch))])
  }

  ghost function Next(json: Json, sys: System, step: Step, capacity: nat): System
    requires Wellformed(sys) && Possible(sys, step)
  {
    match step
    case Appear(s, content) => Appeared(sys, s, content)
    case Write(s, content) => sys.(disk := sys.disk[s := content])
    case Truncate(s, content, mtime) => AfterRefresh(json, Forgotten(sys, s, content), s, mtime, false, capacity)
    case Refreshed(s, mtime) => AfterRefresh(json, sys, s, mtime, false, capacity)
    case Prime(s, mtime) => AfterRefresh(json, sys, s, mtime, true, capacity)
    case PollEmit(s) => AfterEmit(json, sys, s, capacity)
    case Read(pairs) => sys.(w := Resolve(json, sys.w, sys.disk, pairs, capacity).0)
  }

  /** On a file found shorter than what was consumed, a refresh is the reset followed by a refresh. */
  lemma RefreshForgetsFirst(json: Json, w: Watch, s: SessionId, content: Bytes, mtime: int, capacity: nat)
    requires s in w.files && |content| < w.files[s].consumed
    ensures Refresh(json, w, s, content, mtime, false, capacity)
        == Refresh(json, Forget(w, s), s, content, mtime, false, capacity)
  {
    assert Reset(w, s, content) == Reset(Forget(w, s), s, content);
  }

  // ---------------------------------------------------------------- the index, whatever is read

  lemma {:induction false} ResolveKeepsBooks(json: Json, w: Watch, disk: Disk, pairs: seq<(SessionId, Locator)>,
                                             capacity: nat)
    ensures var w' := Resolve(json, w, disk, pairs, capacity).0; w' == w.(cache := w'.cache, names := w'.names)
    decreases |pairs|
  {
    if pairs != [] {
      ResolveKeepsBooks(json, ResolveOne(json, w, disk, pairs[0].0, pairs[0].1, capacity).0, disk, pairs[1..],
          capacity);
    }
  }

  lemma IndexIgnoresBodies(w: Watch, w': Watch)
    requires Indexed(w) && w' == w.(cache := w'.cache, names := w'.names)
    ensures Indexed(w')
  {}

  lemma DiscoverKeepsIndex(w: Watch, s: SessionId)
    requires Indexed(w)
    ensures Indexed(Discover(w, s))
  {}

  lemma RefreshKeepsFiles(json: Json, w: Watch, s: SessionId, file: Bytes, mtime: int, mark: bool, capacity: nat)
    requires s in w.files
    ensures Refresh(json, w, s, file, mtime, mark, capacity).files.Keys == w.files.Keys
  {}

  lemma NextIsWellformed(json: Json, sys: System, step: Step, capacity: nat)
    requires Wellformed(sys) && Possible(sys, step)
    ensures Wellformed(Next(json, sys, step, capacity))
  {
    match step
    case Appear(s, content) => DiscoverKeepsIndex(sys.w, s);
    case Write(s, content) =>
    case Truncate(s, content, mtime) =>
      ForgetKeepsIndex(sys.w, s);
      RefreshKeepsIndex(json, Forget(sys.w, s), s, content, mtime, false, capacity);
      RefreshKeepsFiles(json, Forget(sys.w, s), s, content, mtime, false, capacity);
    case Refreshed(s, mtime) =>
      RefreshKeepsIndex(json, sys.w, s, FileOf(sys.disk, s), mtime, false, capacity);
      RefreshKeepsFiles(json, sys.w, s, FileOf(sys.disk, s), mtime, false, capacity);
    case Prime(s, mtime) =>
      RefreshKeepsIndex(json, sys.w, s, FileOf(sys.disk, s), mtime, true, capacity);
      RefreshKeepsFiles(json, sys.w, s, FileOf(sys.disk, s), mtime, true, capacity);
    case PollEmit(s) =>
      var w1 := MarkEmitted(sys.w, s, true);
      MarkKeepsIndex(sys.w, s, true);
      ResolveKeepsBooks(json, w1, sys.disk, Pending(sys.w, s), capacity);
      IndexIgnoresBodies(w1, Resolve(json, w1, sys.disk, Pending(sys.w, s), capacity).0);
    case Read(pairs) =>
      ResolveKeepsBooks(json, sys.w, sys.disk, pairs, capacity);
      IndexIgnoresBodies(sys.w, Resolve(json, sys.w, sys.disk, pairs, capacity).0);
  }

  ghost predicate Run(json: Json, states: seq<System>, steps: seq<Step>, capacity: nat) {
    && |states| == |steps| + 1 && states[0] == START
    && forall i :: 0 <= i < |steps| ==> Moves(json, states[i], steps[i], states[i + 1], capacity)
  }

  ghost predicate Moves(json: Json, sys: System, step: Step, sys': System, capacity: nat) {
    Possible(sys, step) && (Wellformed(sys) ==> sys' == Next(json, sys, step, capacity))
  }

  lemma RunInit(json: Json, states: seq<System>, steps: seq<Step>, capacity: nat)
    requires Run(json, states, steps, capacity) && steps != []
    ensures Run(json, states[..|steps|], steps[..|steps| - 1], capacity)
    ensures Moves(json, states[|steps| - 1], steps[|steps| - 1], states[|steps|], capacity)
  {
    forall i | 0 <= i < |steps| - 1
        ensures Moves(json, states[..|steps|][i], steps[..|steps| - 1][i], states[..|steps|][i + 1], capacity) {
      assert Moves(json, states[i], steps[i], states[i + 1], capacity);
    }
  }

  /** Over every run and every interleaving, truncations included and whatever the lines hold: event
      ids are distinct across files, references and locator lists are inverse, the dedup set is the ids
      held, and no emission mark passes its list. */
  lemma {:induction false} EveryRunIsIndexed(json: Json, states: seq<System>, steps: seq<Step>, capacity: nat)
    requires Run(json, states, steps, capacity)
    ensures Wellformed(states[|steps|])
    decreases |steps|
  {
    if steps != [] {
      var n := |steps| - 1;
      RunInit(json, states, steps, capacity);
      EveryRunIsIndexed(json, states[..|steps|], steps[..n], capacity);
      NextIsWellformed(json, states[n], steps[n], capacity);
    }
  }

  // ---------------------------------------------------------------- emission, if lines fit the cache

  /** Emission is exactly once: what was handed to `on_events` is, in order, the locators between
      the file's starting mark and its emission mark. */
  ghost predicate Accounted(f: FileState, l: Ledger) {
    && l.base <= f.emitted <= |f.locators|
    && l.sent == LocatorIds(f.locators[l.base..f.emitted])
  }

  ghost predicate AllAccounted(w: Watch, ledger: map<SessionId, Ledger>) {
    ledger.Keys == w.files.Keys && forall s :: s in w.files ==> Accounted(w.files[s], ledger[s])
  }

  /** `done` is the consumed prefix of each file on disk. */
  ghost predicate Tracks(w: Watch, disk: Disk, done: Disk) {
    && done.Keys == w.files.Keys
    && forall s :: s in w.files ==>
        w.files[s].consumed <= |FileOf(disk, s)| && done[s] == FileOf(disk, s)[..w.files[s].consumed]
  }

  ghost predicate Emitting(json: Json, sys: System, capacity: nat) {
    && Wellformed(sys) && Tracks(sys.w, sys.disk, sys.done)
    && AllReadable(json, sys.w, sys.done, capacity) && AllAccounted(sys.w, sys.ledger)
  }

  /** The lines a refresh parses. */
  function LinesToParse(json: Json, w: Watch, s: SessionId, file: Bytes): seq<Span>
    requires s in w.files
  {
    var f := Reset(w, s, file).files[s];
    Spans(Complete(json, f, file), f.consumed)
  }

  /** The events of each line the step parses fit in the cache together. */
  ghost predicate Fitting(json: Json, sys: System, step: Step, capacity: nat)
    requires Possible(sys, step)
  {
    match step
    case Truncate(s, content, _) => AllFit(json, s, LinesToParse(json, sys.w, s, content), capacity)
    case Refreshed(s, _) => AllFit(json, s, LinesToParse(json, sys.w, s, FileOf(sys.disk, s)), capacity)
    case Prime(s, _) => AllFit(json, s, LinesToParse(json, sys.w, s, FileOf(sys.disk, s)), capacity)
    case _ => true
  }

  lemma TracksHolds(w: Watch, disk: Disk, done: Disk)
    requires Tracks(w, disk, done)
    ensures Holds(disk, done)
  {}

  lemma ExtendTracks(w: Watch, w': Watch, disk: Disk, done: Disk, s: SessionId)
    requires Tracks(w, disk, done) && s in w.files && Extends(w, w', s) && w'.files[s].consumed <= |FileOf(disk, s)|
    ensures Tracks(w', disk, done[s := FileOf(disk, s)[..w'.files[s].consumed]])
  {}

  lemma MarkTracks(w: Watch, disk: Disk, done: Disk, s: SessionId, mark: bool)
    requires Tracks(w, disk, done) && s in w.files
    ensures Tracks(MarkEmitted(w, s, mark), disk, done)
  {}

  lemma RefreshTracks(json: Json, w: Watch, disk: Disk, done: Disk, s: SessionId, mtime: int, mark: bool, capacity: nat)
    requires Tracks(w, disk, done) && s in w.files
    ensures var w' := Refresh(json, w, s, FileOf(disk, s), mtime, mark, capacity);
      Tracks(w', disk, done[s := FileOf(disk, s)[..w'.files[s].consumed]])
  {
    var file := FileOf(disk, s);
    var w1 := Advance(json, w, s, file, mtime, capacity);
    AdvanceExtends(json, w, s, file, mtime, capacity);
    ExtendTracks(w, w1, disk, done, s);
    MarkTracks(w1, disk, done[s := file[..w1.files[s].consumed]], s, mark);
    RefreshMarks(json, w, s, file, mtime, mark, capacity);
  }

  lemma RefreshMarks(json: Json, w: Watch, s: SessionId, file: Bytes, mtime: int, mark: bool, capacity: nat)
    requires s in w.files && w.files[s].consumed <= |file|
    ensures var w1, w' := Advance(json, w, s, file, mtime, capacity), Refresh(json, w, s, file, mtime, mark, capacity);
      SameBooks(w1, w') && w'.files[s].consumed == w1.files[s].consumed
  {}

  lemma RefreshKeepsReadable(json: Json, w: Watch, disk: Disk, done: Disk, s: SessionId, mtime: int, mark: bool,
                             capacity: nat)
    requires Tracks(w, disk, done) && AllReadable(json, w, done, capacity) && s in w.files
    requires AllFit(json, s, LinesToParse(json, w, s, FileOf(disk, s)), capacity)
    ensures var w' := Refresh(json, w, s, FileOf(disk, s), mtime, mark, capacity);
      AllReadable(json, w', done[s := FileOf(disk, s)[..w'.files[s].consumed]], capacity)
  {
    var file := FileOf(disk, s);
    var w1, w' := Advance(json, w, s, file, mtime, capacity), Refresh(json, w, s, file, mtime, mark, capacity);
    AdvanceKeepsReadable(json, w, done, s, file, mtime, capacity);
    RefreshMarks(json, w, s, file, mtime, mark, capacity);
    SameBooksReadable(json, w1, w', done[s := file[..w'.files[s].consumed]], capacity);
  }

  lemma ExtendAccounts(f: FileState, f': FileState, l: Ledger)
    requires Accounted(f, l) && f.locators <= f'.locators && f'.emitted == f.emitted
    ensures Accounted(f', l)
  {
    assert f'.locators[l.base..f'.emitted] == f.locators[l.base..f.emitted];
  }

  lemma AdvanceAccounts(json: Json, w: Watch, ledger: map<SessionId, Ledger>, s: SessionId, file: Bytes, mtime: int,
                        capacity: nat)
    requires AllAccounted(w, ledger) && s in w.files && w.files[s].consumed <= |file|
    ensures AllAccounted(Advance(json, w, s, file, mtime, capacity), ledger)
  {
    AdvanceExtends(json, w, s, file, mtime, capacity);
    var w1 := Advance(json, w, s, file, mtime, capacity);
    forall t | t in w.files ensures Accounted(w1.files[t], ledger[t]) {
      ExtendAccounts(w.files[t], w1.files[t], ledger[t]);
    }
  }

  lemma MarkAccounts(w: Watch, ledger: map<SessionId, Ledger>, s: SessionId)
    requires AllAccounted(w, ledger) && s in w.files
    ensures AllAccounted(MarkEmitted(w, s, true), ledger[s := Ledger(|w.files[s].locators|, [])])
  {}

  lemma RefreshEmits(json: Json, sys: System, s: SessionId, mtime: int, mark: bool, capacity: nat)
    requires Emitting(json, sys, capacity) && s in sys.w.files
    requires AllFit(json, s, LinesToParse(json, sys.w, s, FileOf(sys.disk, s)), capacity)
    ensures Emitting(json, AfterRefresh(json, sys, s, mtime, mark, capacity), capacity)
  {
    var file := FileOf(sys.disk, s);
    RefreshKeepsIndex(json, sys.w, s, file, mtime, mark, capacity);
    RefreshTracks(json, sys.w, sys.disk, sys.done, s, mtime, mark, capacity);
    RefreshKeepsReadable(json, sys.w, sys.disk, sys.done, s, mtime, mark, capacity);
    AdvanceAccounts(json, sys.w, sys.ledger, s, file, mtime, capacity);
    MarkAccounts(Advance(json, sys.w, s, file, mtime, capacity), sys.ledger, s);
  }

  lemma ForgetTracks(w: Watch, disk: Disk, done: Disk, s: SessionId, content: Bytes)
    requires Tracks(w, disk, done) && s in w.files
    ensures Tracks(Forget(w, s), disk[s := content], done[s := []])
  {}

  lemma ForgetAccounts(w: Watch, ledger: map<SessionId, Ledger>, s: SessionId)
    requires AllAccounted(w, ledger) && s in w.files
    ensures AllAccounted(Forget(w, s), ledger[s := Ledger(0, [])])
  {}

  lemma ForgetEmits(json: Json, sys: System, s: SessionId, content: Bytes, capacity: nat)
    requires Emitting(json, sys, capacity) && s in sys.w.files
    ensures Emitting(json, Forgotten(sys, s, content), capacity)
  {
    ForgetKeepsIndex(sys.w, s);
    ForgetTracks(sys.w, sys.disk, sys.done, s, content);
    ForgetKeepsReadable(json, sys.w, sys.done, s, capacity);
    ForgetAccounts(sys.w, sys.ledger, s);
  }

  lemma DiscoverAccounts(w: Watch, ledger: map<SessionId, Ledger>, s: SessionId)
    requires AllAccounted(w, ledger) && s !in w.files
    ensures AllAccounted(Discover(w, s), ledger[s := Ledger(0, [])])
  {}

  lemma DiscoverTracks(w: Watch, disk: Disk, done: Disk, s: SessionId, content: Bytes)
    requires Tracks(w, disk, done) && s !in w.files
    ensures Tracks(Discover(w, s), disk[s := content], done[s := []])
  {}

  lemma AppearEmits(json: Json, sys: System, s: SessionId, content: Bytes, capacity: nat)
    requires Emitting(json, sys, capacity) && s !in sys.w.files
    ensures Emitting(json, Appeared(sys, s, content), capacity)
  {
    DiscoverKeepsIndex(sys.w, s);
    DiscoverKeepsReadable(json, sys.w, sys.done, s, capacity);
    DiscoverAccounts(sys.w, sys.ledger, s);
    DiscoverTracks(sys.w, sys.disk, sys.done, s, content);
  }

  lemma EmitAccounts(f: FileState, l: Ledger)
    requires Accounted(f, l)
    ensures Accounted(f.(emitted := |f.locators|), l.(sent := l.sent + LocatorIds(f.locators[f.emitted..])))
  {
    assert f.locators[l.base..f.emitted] + f.locators[f.emitted..] == f.locators[l.base..|f.locators|];
  }

  lemma PendingIsHeld(w: Watch, s: SessionId)
    requires s in w.files && w.files[s].emitted <= |w.files[s].locators|
    ensures AllHeld(MarkEmitted(w, s, true), Pending(w, s)) && SameBooks(w, MarkEmitted(w, s, true))
  {}

  lemma MarkedIsReadable(json: Json, sys: System, s: SessionId, capacity: nat)
    requires Emitting(json, sys, capacity) && s in sys.w.files
    ensures var w1 := MarkEmitted(sys.w, s, true);
      && Indexed(w1) && Tracks(w1, sys.disk, sys.done) && AllReadable(json, w1, sys.done, capacity)
      && AllHeld(w1, Pending(sys.w, s)) && SameBooks(sys.w, w1)
  {
    PendingIsHeld(sys.w, s);
    MarkKeepsIndex(sys.w, s, true);
    MarkTracks(sys.w, sys.disk, sys.done, s, true);
    SameBooksReadable(json, sys.w, MarkEmitted(sys.w, s, true), sys.done, capacity);
  }

  lemma PendingIds(w: Watch, s: SessionId)
    requires s in w.files && w.files[s].emitted <= |w.files[s].locators|
    ensures PairIds(Pending(w, s)) == LocatorIds(w.files[s].locators[w.files[s].emitted..])
  {}

  lemma ResolveKeepsReadable(json: Json, w: Watch, disk: Disk, done: Disk, pairs: seq<(SessionId, Locator)>,
                             capacity: nat)
    requires Indexed(w) && Tracks(w, disk, done) && AllReadable(json, w, done, capacity) && AllHeld(w, pairs)
    ensures var (w', events) := Resolve(json, w, disk, pairs, capacity);
      && IdsOf(events) == PairIds(pairs) && w'.files == w.files
      && Indexed(w') && AllReadable(json, w', done, capacity)
  {
    TracksHolds(w, disk, done);
    ResolveFindsAll(json, w, disk, done, pairs, capacity);
    IndexIgnoresBodies(w, Resolve(json, w, disk, pairs, capacity).0);
  }

  /** The batch is exactly what was pending, whole and in order, whichever thread parsed it. */
  lemma EmitSends(json: Json, sys: System, s: SessionId, capacity: nat)
    requires Emitting(json, sys, capacity) && s in sys.w.files
    ensures var f, sys' := sys.w.files[s], AfterEmit(json, sys, s, capacity);
      && sys'.ledger == sys.ledger[s := Ledger(sys.ledger[s].base,
          sys.ledger[s].sent + LocatorIds(f.locators[f.emitted..]))]
      && sys'.w.files == sys.w.files[s := f.(emitted := |f.locators|)]
      && Indexed(sys'.w) && AllReadable(json, sys'.w, sys.done, capacity)
  {
    MarkedIsReadable(json, sys, s, capacity);
    ResolveKeepsReadable(json, MarkEmitted(sys.w, s, true), sys.disk, sys.done, Pending(sys.w, s), capacity);
    PendingIds(sys.w, s);
  }

  lemma EmittedTracks(w: Watch, w': Watch, disk: Disk, done: Disk, s: SessionId)
    requires Tracks(w, disk, done) && s in w.files
        && w'.files == w.files[s := w.files[s].(emitted := |w.files[s].locators|)]
    ensures Tracks(w', disk, done)
  {}

  lemma EmittedAccounts(w: Watch, w': Watch, ledger: map<SessionId, Ledger>, s: SessionId)
    requires AllAccounted(w, ledger) && s in w.files
        && w'.files == w.files[s := w.files[s].(emitted := |w.files[s].locators|)]
    ensures AllAccounted(w', ledger[s := Ledger(ledger[s].base,
        ledger[s].sent + LocatorIds(w.files[s].locators[w.files[s].emitted..]))])
  {
    EmitAccounts(w.files[s], ledger[s]);
  }

  lemma EmitEmits(json: Json, sys: System, s: SessionId, capacity: nat)
    requires Emitting(json, sys, capacity) && s in sys.w.files
    ensures Emitting(json, AfterEmit(json, sys, s, capacity), capacity)
  {
    var sys' := AfterEmit(json, sys, s, capacity);
    EmitSends(json, sys, s, capacity);
    EmittedTracks(sys.w, sys'.w, sys.disk, sys.done, s);
    EmittedAccounts(sys.w, sys'.w, sys.ledger, s);
    assert sys'.ledger.Keys == sys.ledger.Keys;
  }

  lemma ReadEmits(json: Json, sys: System, pairs: seq<(SessionId, Locator)>, capacity: nat)
    requires Emitting(json, sys, capacity) && AllHeld(sys.w, pairs)
    ensures Emitting(json, sys.(w := Resolve(json, sys.w, sys.disk, pairs, capacity).0), capacity)
  {
    ResolveKeepsReadable(json, sys.w, sys.disk, sys.done, pairs, capacity);
  }

  lemma ForgottenLines(json: Json, w: Watch, s: SessionId, content: Bytes)
    requires s in w.files && |content| < w.files[s].consumed
    ensures LinesToParse(json, Forget(w, s), s, content) == LinesToParse(json, w, s, content)
  {}

  lemma NextEmits(json: Json, sys: System, step: Step, capacity: nat)
    requires Emitting(json, sys, capacity) && Possible(sys, step) && Fitting(json, sys, step, capacity)
    ensures Emitting(json, Next(json, sys, step, capacity), capacity)
  {
    match step
    case Appear(s, content) => AppearEmits(json, sys, s, content, capacity);
    case Write(s, content) =>
    case Truncate(s, content, mtime) =>
      ForgetEmits(json, sys, s, content, capacity);
      ForgottenLines(json, sys.w, s, content);
      RefreshEmits(json, Forgotten(sys, s, content), s, mtime, false, capacity);
    case Refreshed(s, mtime) => RefreshEmits(json, sys, s, mtime, false, capacity);
    case Prime(s, mtime) => RefreshEmits(json, sys, s, mtime, true, capacity);
    case PollEmit(s) => EmitEmits(json, sys, s, capacity);
    case Read(pairs) => ReadEmits(json, sys, pairs, capacity);
  }

  ghost predicate AlwaysFitting(json: Json, states: seq<System>, steps: seq<Step>, capacity: nat)
    requires Run(json, states, steps, capacity)
  {
    forall i :: 0 <= i < |steps| ==>
        Moves(json, states[i], steps[i], states[i + 1], capacity) && Fitting(json, states[i], steps[i], capacity)
  }

  /** Over every run in which the events of each line fit in the cache together: each file's emitted
      batches concatenate to exactly its locators from the starting mark to the emission mark, in order,
      whichever thread parsed them, whatever the LRU evicted and however tool names were rebound. */
  lemma {:induction false} EveryRunEmitsOnce(json: Json, states: seq<System>, steps: seq<Step>, capacity: nat)
    requires Run(json, states, steps, capacity) && AlwaysFitting(json, states, steps, capacity)
    ensures Emitting(json, states[|steps|], capacity)
    decreases |steps|
  {
    if steps != [] {
      var n := |steps| - 1;
      RunInit(json, states, steps, capacity);
      EveryRunEmitsOnce(json, states[..|steps|], steps[..n], capacity);
      NextEmits(json, states[n], steps[n], capacity);
    }
  }

  // ---------------------------------------------------------------- bodies, if lines agree

  /** The lines the step parses are compatible with what is held. */
  ghost predicate Agreeing(json: Json, sys: System, step: Step, capacity: nat)
    requires Possible(sys, step)
  {
    match step
    case Truncate(s, content, _) =>
      AllCompatible(json, Forget(sys.w, s), sys.done[s := []], s, LinesToParse(json, sys.w, s, content), capacity)
    case Refreshed(s, _) => AllCompatible(json, sys.w, sys.done, s, LinesToParse(json, sys.w, s, FileOf(sys.disk, s)),
        capacity)
    case Prime(s, _) => AllCompatible(json, sys.w, sys.done, s, LinesToParse(json, sys.w, s, FileOf(sys.disk, s)),
        capacity)
    case _ => true
  }

  ghost predicate Faithful(json: Json, sys: System, capacity: nat) {
    Emitting(json, sys, capacity) && Backed(json, sys.w, sys.done, capacity)
  }

  lemma RefreshIsFaithful(json: Json, sys: System, s: SessionId, mtime: int, mark: bool, capacity: nat)
    requires Faithful(json, sys, capacity) && s in sys.w.files
    requires var spans := LinesToParse(json, sys.w, s, FileOf(sys.disk, s));
      AllFit(json, s, spans, capacity) && AllCompatible(json, sys.w, sys.done, s, spans, capacity)
    ensures Faithful(json, AfterRefresh(json, sys, s, mtime, mark, capacity), capacity)
  {
    var file := FileOf(sys.disk, s);
    var w1, w' := Advance(json, sys.w, s, file, mtime, capacity), Refresh(json, sys.w, s, file, mtime, mark, capacity);
    RefreshEmits(json, sys, s, mtime, mark, capacity);
    AdvanceKeepsBacked(json, sys.w, sys.done, s, file, mtime, capacity);
    RefreshMarks(json, sys.w, s, file, mtime, mark, capacity);
    SameBooksBacked(json, w1, w', sys.done[s := file[..w'.files[s].consumed]], capacity);
  }

  lemma AppearKeepsBacked(json: Json, w: Watch, done: Disk, s: SessionId, capacity: nat)
    requires Backed(json, w, done, capacity) && s !in w.files
    ensures Backed(json, Discover(w, s), done[s := []], capacity)
  {
    FewerLocatorsBacked(json, w, done, Discover(w, s), done[s := []], capacity);
  }

  /** Every body handed to `on_events` is the one its bytes give. */
  lemma EmitIsFaithful(json: Json, sys: System, s: SessionId, capacity: nat)
    requires Faithful(json, sys, capacity) && s in sys.w.files
    ensures Faithful(json, AfterEmit(json, sys, s, capacity), capacity)
    ensures var batch := Resolve(json, MarkEmitted(sys.w, s, true), sys.disk, Pending(sys.w, s), capacity).1;
      Serves(json, sys.w.names, sys.done, Pending(sys.w, s), batch)
  {
    var w1 := MarkEmitted(sys.w, s, true);
    EmitEmits(json, sys, s, capacity);
    MarkedIsReadable(json, sys, s, capacity);
    SameBooksBacked(json, sys.w, w1, sys.done, capacity);
    TracksHolds(sys.w, sys.disk, sys.done);
    ResolveServesEveryBody(json, w1, sys.disk, sys.done, Pending(sys.w, s), capacity);
  }

  /** And so is every body a reader gets, one for each locator it asks for. */
  lemma ReadIsFaithful(json: Json, sys: System, pairs: seq<(SessionId, Locator)>, capacity: nat)
    requires Faithful(json, sys, capacity) && AllHeld(sys.w, pairs)
    ensures var (w', events) := Resolve(json, sys.w, sys.disk, pairs, capacity);
      Faithful(json, sys.(w := w'), capacity) && Serves(json, sys.w.names, sys.done, pairs, events)
  {
    ReadEmits(json, sys, pairs, capacity);
    TracksHolds(sys.w, sys.disk, sys.done);
    ResolveServesEveryBody(json, sys.w, sys.disk, sys.done, pairs, capacity);
  }

  lemma ForgetIsFaithful(json: Json, sys: System, s: SessionId, content: Bytes, capacity: nat)
    requires Faithful(json, sys, capacity) && s in sys.w.files
    ensures Faithful(json, Forgotten(sys, s, content), capacity)
  {
    ForgetEmits(json, sys, s, content, capacity);
    ForgetKeepsBacked(json, sys.w, sys.done, s, capacity);
  }

  lemma NextIsFaithful(json: Json, sys: System, step: Step, capacity: nat)
    requires Faithful(json, sys, capacity) && Possible(sys, step)
    requires Fitting(json, sys, step, capacity) && Agreeing(json, sys, step, capacity)
    ensures Faithful(json, Next(json, sys, step, capacity), capacity)
  {
    match step
    case Appear(s, content) =>
      AppearEmits(json, sys, s, content, capacity);
      AppearKeepsBacked(json, sys.w, sys.done, s, capacity);
    case Write(s, content) => NextEmits(json, sys, step, capacity);
    case Truncate(s, content, mtime) =>
      ForgetIsFaithful(json, sys, s, content, capacity);
      ForgottenLines(json, sys.w, s, content);
      RefreshIsFaithful(json, Forgotten(sys, s, content), s, mtime, false, capacity);
    case Refreshed(s, mtime) => RefreshIsFaithful(json, sys, s, mtime, false, capacity);
    case Prime(s, mtime) => RefreshIsFaithful(json, sys, s, mtime, true, capacity);
    case PollEmit(s) => EmitIsFaithful(json, sys, s, capacity);
    case Read(pairs) => ReadIsFaithful(json, sys, pairs, capacity);
  }

  ghost predicate AlwaysAgreeing(json: Json, states: seq<System>, steps: seq<Step>, capacity: nat)
    requires Run(json, states, steps, capacity)
  {
    forall i :: 0 <= i < |steps| ==>
        Moves(json, states[i], steps[i], states[i + 1], capacity) && Agreeing(json, states[i], steps[i], capacity)
  }

  /** Over every run whose lines fit and agree: every held body is what its bytes re-parse to, whatever
      the LRU evicted and will evict, and the cache says nothing else. */
  lemma {:induction false} EveryRunIsFaithful(json: Json, states: seq<System>, steps: seq<Step>, capacity: nat)
    requires Run(json, states, steps, capacity)
    requires AlwaysFitting(json, states, steps, capacity) && AlwaysAgreeing(json, states, steps, capacity)
    ensures Faithful(json, states[|steps|], capacity)
    ensures Invisible(json, states[|steps|].w, states[|steps|].done, capacity)
    decreases |steps|
  {
    if steps != [] {
      var n := |steps| - 1;
      RunInit(json, states, steps, capacity);
      EveryRunIsFaithful(json, states[..|steps|], steps[..n], capacity);
      NextIsFaithful(json, states[n], steps[n], capacity);
    }
    BackedIsInvisible(json, states[|steps|].w, states[|steps|].done, capacity);
  }
}
