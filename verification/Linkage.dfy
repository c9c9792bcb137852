/**
 Late subagent linkage: which copies of an Agent parent the clients get
 (apps/system_interface/imbue/system_interface/session_watcher.py, lines 759 to 821 and 1084 to 1201).

 A parent is an assistant message with Agent tool calls. Its dict is shared by the body cache and the
 cache of unlinked parents, so it is one cell here, `dicts[uuid]`; `sent[uuid]` is the last copy emitted.
 */
module Linkage {
  import opened Common
  import opened Links

  type Uuid = string

  // ---------------------------------------------------------------- the steps

  datatype State = State(maps: Maps, dicts: map<Uuid, seq<Call>>, cached: set<Uuid>, sent: map<Uuid, seq<Call>>)

  ghost predicate DistinctCalls(calls: seq<Call>) {
    forall i, j :: 0 <= i < j < |calls| ==> calls[i].id != calls[j].id
  }

  ghost predicate DiscoverStep(s: State, s': State, sub: SubId, meta: Metadata, toolUse: Option<CallId>) {
    sub != "" && s' == State(Discovered(s.maps, sub, meta, toolUse), s.dicts, s.cached, s.sent)
  }

  /** A poll: learns from the batch's results, enriches its parents, caches the unlinked ones, emits all. */
  ghost predicate PollStep(s: State, s': State, results: seq<Result>, parents: map<Uuid, seq<Call>>) {
    && s'.maps == Learned(s.maps, results)
    && s'.dicts.Keys == s.dicts.Keys + parents.Keys && s'.sent.Keys == s.sent.Keys + parents.Keys
    && (forall u :: u in parents ==>
        s'.dicts[u] == Enrich(s'.maps, if u in s.dicts then s.dicts[u] else parents[u]) && s'.sent[u] == s'.dicts[u])
    && (forall u :: u in s.dicts && u !in parents ==> s'.dicts[u] == s.dicts[u])
    && (forall u :: u in s.sent && u !in parents ==> s'.sent[u] == s.sent[u])
    && (forall u ::
          u in s'.cached <==>
            u in s.cached || (u in parents && u != "" && HasAgent(s'.dicts[u]) && !FullyEnriched(s'.dicts[u])))
  }

  /** A rebroadcast takes the lock once to list the cached parents, once for the turn of each, and once to
      retire the complete ones; it then emits. Between those sections other threads discover, learn and read. */
  datatype Phase = Idle | Passing(todo: set<Uuid>, relinked: set<Uuid>, full: set<Uuid>, began: Maps)

  /** The state and the rebroadcast under way; `began` is what was known when it began. */
  datatype World = World(s: State, phase: Phase)

  function Begun(w: World): World {
    World(w.s, Passing(w.s.cached, {}, {}, w.s.maps))
  }

  /** The turn of a cached parent: enriched, to be sent if its linked set changed, dropped if complete. */
  function Turned(w: World, u: Uuid): World
    requires w.phase.Passing? && u in w.s.dicts
  {
    var was, now := w.s.dicts[u], Enrich(w.s.maps, w.s.dicts[u]);
    var Passing(todo, relinked, full, began) := w.phase;
    World(w.s.(dicts := w.s.dicts[u := now]),
          Passing(todo - {u}, if Linked(now) != Linked(was) then relinked + {u} else relinked,
                  if FullyEnriched(now) then full + {u} else full, began))
  }

  /** The state once the rebroadcast under way, if any, retires and emits what it has found so far. */
  function Settled(w: World): State {
    match w.phase
    case Idle => w.s
    case Passing(_, relinked, full, _) =>
      State(w.s.maps, w.s.dicts, w.s.cached - full, Emitted(w.s.sent, w.s.dicts, relinked))
  }

  function Emitted(sent: map<Uuid, seq<Call>>, dicts: map<Uuid, seq<Call>>, relinked: set<Uuid>): map<Uuid, seq<Call>> {
    map u | u in sent.Keys + relinked * dicts.Keys :: if u in relinked && u in dicts then dicts[u] else sent[u]
  }

  /** A read path: learns from its results and enriches the dicts it returns. */
  ghost predicate ReadStep(s: State, s': State, results: seq<Result>, refs: set<Uuid>) {
    && s'.maps == Learned(s.maps, results) && s'.cached == s.cached && s'.sent == s.sent
    && s.dicts.Keys <= s'.dicts.Keys && refs <= s'.dicts.Keys
    && (forall u :: u in s.dicts ==> s'.dicts[u] == if u in refs then Enrich(s'.maps, s.dicts[u]) else s.dicts[u])
    && (forall u :: u in s'.dicts && u !in s.dicts ==> DistinctCalls(s'.dicts[u]) && JustParsed(s'.maps, s'.dicts[u]))
  }

  /** As the parser yields them: without metadata. */
  ghost predicate Bare(calls: seq<Call>) {
    forall i :: 0 <= i < |calls| ==> calls[i].metadata.None?
  }

  /** Freshly parsed and enriched. */
  ghost predicate JustParsed(m: Maps, calls: seq<Call>) {
    exists bare :: Bare(bare) && calls == Enrich(m, bare)
  }

  // ---------------------------------------------------------------- what every step keeps

  /** Call by call, the same ones carry metadata. */
  ghost predicate SameLinks(a: seq<Call>, b: seq<Call>) {
    |a| == |b| && forall i :: 0 <= i < |a| ==>
        a[i].id == b[i].id && a[i].isAgent == b[i].isAgent && (a[i].metadata.Some? <==> b[i].metadata.Some?)
  }

  /** The last copy sent of a parent is as linked as its dict; it is cached until that is complete. */
  ghost predicate Tracked(s: State, u: Uuid)
    requires u in s.sent && u in s.dicts
  {
    && SameLinks(s.sent[u], s.dicts[u])
    && (u in s.cached <==> u != "" && HasAgent(s.dicts[u]) && !FullyEnriched(s.dicts[u]))
  }

  ghost predicate Inv(s: State) {
    && Consistent(s.maps)
    && s.sent.Keys <= s.dicts.Keys && s.cached <= s.sent.Keys
    && (forall u :: u in s.dicts ==> DistinctCalls(s.dicts[u]))
    && (forall u :: u in s.sent ==> u != "" && Tracked(s, u))
  }

  /** With distinct call ids, enriching changes the linked set exactly when some call gains metadata. */
  lemma LinkedTellsLinks(m: Maps, calls: seq<Call>)
    requires DistinctCalls(calls)
    ensures Linked(Enrich(m, calls)) == Linked(calls) <==> SameLinks(calls, Enrich(m, calls))
    ensures Linked(calls) <= Linked(Enrich(m, calls))
    ensures DistinctCalls(Enrich(m, calls)) && HasAgent(Enrich(m, calls)) == HasAgent(calls)
  {
    var r := Enrich(m, calls);
    if HasAgent(calls) {
      var i :| 0 <= i < |calls| && calls[i].isAgent;
      assert r[i].isAgent;
    }
    forall i | 0 <= i < |calls| && calls[i].metadata.None? && r[i].metadata.Some?
        ensures calls[i].id in Linked(r) && calls[i].id !in Linked(calls) {
      assert r[i].isAgent && r[i].id == calls[i].id;
    }
    forall id | id in Linked(calls) ensures id in Linked(r) {
      var i :| 0 <= i < |calls| && calls[i].isAgent && calls[i].metadata.Some? && calls[i].id == id;
      assert r[i].isAgent && r[i].metadata.Some? && r[i].id == id;
    }
    if SameLinks(calls, r) {
      forall id | id in Linked(r) ensures id in Linked(calls) {
        var i :| 0 <= i < |r| && r[i].isAgent && r[i].metadata.Some? && r[i].id == id;
        assert calls[i].isAgent && calls[i].metadata.Some? && calls[i].id == id;
      }
    }
  }

  lemma SameLinksKeep(a: seq<Call>, b: seq<Call>)
    requires SameLinks(a, b)
    ensures HasAgent(a) == HasAgent(b) && FullyEnriched(a) == FullyEnriched(b)
  {
    if HasAgent(a) {
      var i :| 0 <= i < |a| && a[i].isAgent;
      assert b[i].isAgent;
    }
    if HasAgent(b) {
      var i :| 0 <= i < |b| && b[i].isAgent;
      assert a[i].isAgent;
    }
  }

  /** What is complete, or has no Agent call, is not changed in its links by enriching it again. */
  lemma SettledStays(m: Maps, calls: seq<Call>)
    requires FullyEnriched(calls) || !HasAgent(calls)
    ensures SameLinks(calls, Enrich(m, calls)) && FullyEnriched(Enrich(m, calls)) == FullyEnriched(calls)
  {
    var r := Enrich(m, calls);
    forall i | 0 <= i < |calls|
        ensures r[i].metadata.Some? == calls[i].metadata.Some? && r[i].isAgent == calls[i].isAgent
        && r[i].id == calls[i].id {}
    SameLinksKeep(calls, r);
  }

  lemma DiscoverKeeps(s: State, s': State, sub: SubId, meta: Metadata, toolUse: Option<CallId>)
    requires Inv(s) && DiscoverStep(s, s', sub, meta, toolUse)
    ensures Inv(s')
  {
    DiscoveryKeepsAvailable(s.maps, sub, meta, toolUse, "");
    forall u | u in s'.sent ensures Tracked(s', u) {
      assert Tracked(s, u);
    }
  }

  /** The parents of a poll are emitted for the first time, have distinct call ids and a message uuid. */
  lemma PollKeeps(s: State, s': State, results: seq<Result>, parents: map<Uuid, seq<Call>>)
    requires Inv(s) && PollStep(s, s', results, parents)
    requires forall u :: u in parents ==> u !in s.sent && u != "" && DistinctCalls(parents[u])
    ensures Inv(s')
  {
    LearningKeepsAvailable(s.maps, results, "");
    forall u | u in s'.dicts ensures DistinctCalls(s'.dicts[u]) {
      if u in parents {
        LinkedTellsLinks(s'.maps, if u in s.dicts then s.dicts[u] else parents[u]);
      }
    }
    forall u | u in s'.sent ensures u != "" && Tracked(s', u) {
      if u in s.sent {
        assert Tracked(s, u);
      }
    }
  }

  /** A reader that attaches nothing new to a cached parent's dict does no harm. */
  lemma ReadKeeps(s: State, s': State, results: seq<Result>, refs: set<Uuid>)
    requires Inv(s) && ReadStep(s, s', results, refs)
    requires forall u :: u in s.cached && u in refs ==> SameLinks(s.dicts[u], Enrich(s'.maps, s.dicts[u]))
    ensures Inv(s')
  {
    LearningKeepsAvailable(s.maps, results, "");
    forall u | u in s'.dicts ensures DistinctCalls(s'.dicts[u]) {
      if u in s.dicts {
        LinkedTellsLinks(s'.maps, s.dicts[u]);
      }
    }
    forall u | u in s'.sent ensures u != "" && Tracked(s', u) {
      assert Tracked(s, u);
      if u in refs {
        if u !in s.cached {
          SettledStays(s'.maps, s.dicts[u]);
        }
        SameLinksKeep(s.dicts[u], s'.dicts[u]);
      }
    }
  }

  // ---------------------------------------------------------------- whole runs

  datatype Step =
    | Discover(sub: SubId, meta: Metadata, toolUse: Option<CallId>)
    | Poll(results: seq<Result>, parents: map<Uuid, seq<Call>>)
    | Read(readResults: seq<Result>, refs: set<Uuid>)
    | Begin
    | Turn(u: Uuid)
    | End

  /** A reader attaches no metadata to a cached parent's dict. */
  ghost predicate Harmless(s: State, refs: set<Uuid>, s': State) {
    forall u :: u in s.cached && u in refs && u in s.dicts ==> SameLinks(s.dicts[u], Enrich(s'.maps, s.dicts[u]))
  }

  /** Polls and rebroadcasts are made by one thread; discovery and reads come in between anything. The
      hypotheses: parents are emitted once, and readers are harmless. */
  ghost predicate Next(w: World, step: Step, w': World) {
    match step
    case Discover(sub, meta, toolUse) => w'.phase == w.phase && DiscoverStep(w.s, w'.s, sub, meta, toolUse)
    case Read(results, refs) =>
      w'.phase == w.phase && ReadStep(w.s, w'.s, results, refs) && Harmless(w.s, refs, w'.s)
    case Poll(results, parents) =>
      && w.phase.Idle? && w'.phase.Idle? && PollStep(w.s, w'.s, results, parents)
      && (forall u :: u in parents ==> u !in w.s.sent && u != "" && DistinctCalls(parents[u]))
      && (forall u :: u in parents && u !in w.s.dicts ==> Bare(parents[u]))
    case Begin => w.phase.Idle? && w' == Begun(w)
    case Turn(u) => w.phase.Passing? && u in w.phase.todo && u in w.s.dicts && w' == Turned(w, u)
    case End => w.phase.Passing? && w.phase.todo == {} && w' == World(Settled(w), Idle)
  }

  ghost predicate Run(states: seq<World>, steps: seq<Step>) {
    && |states| == |steps| + 1
    && states[0] == World(EMPTY, Idle)
    && forall i :: 0 <= i < |steps| ==> Next(states[i], steps[i], states[i + 1])
  }

  /** Parents whose turn is over carry all that was known when the rebroadcast began. */
  ghost predicate PassInv(w: World) {
    w.phase.Passing? ==>
      && w.phase.todo + w.phase.relinked + w.phase.full <= w.s.cached <= w.s.sent.Keys <= w.s.dicts.Keys
      && w.phase.todo !! w.phase.relinked + w.phase.full
      && Consistent(w.phase.began) && Grows(w.phase.began, w.s.maps)
      && forall u :: u in w.s.cached && u !in w.phase.todo ==> CarriesAllKnown(w.phase.began, w.s.dicts[u])
  }

  /** Were the rebroadcast to end now, every last copy sent would be as linked as its dict. */
  ghost predicate WorldInv(w: World) {
    Inv(Settled(w)) && PassInv(w)
  }

  lemma GrowsOn(m0: Maps, m1: Maps, m2: Maps)
    requires Grows(m0, m1) && Grows(m1, m2)
    ensures Grows(m0, m2)
  {}

  lemma DiscoverKeepsPass(w: World, w': World, sub: SubId, meta: Metadata, toolUse: Option<CallId>)
    requires WorldInv(w) && w'.phase == w.phase && DiscoverStep(w.s, w'.s, sub, meta, toolUse)
    ensures WorldInv(w')
  {
    DiscoverKeeps(Settled(w), Settled(w'), sub, meta, toolUse);
    if w.phase.Passing? {
      DiscoveryGrows(w.s.maps, sub, meta, toolUse);
      GrowsOn(w.phase.began, w.s.maps, w'.s.maps);
    }
  }

  lemma EmittedSame(sent: map<Uuid, seq<Call>>, dicts: map<Uuid, seq<Call>>)
    ensures Emitted(sent, dicts, {}) == sent
  {}

  lemma BeginKeeps(w: World)
    requires WorldInv(w) && w.phase.Idle?
    ensures WorldInv(Begun(w)) && Settled(Begun(w)) == Settled(w)
  {
    EmittedSame(w.s.sent, w.s.dicts);
    assert w.s.cached - {} == w.s.cached;
  }

  /** The parent whose turn it is. */
  lemma TurnTracks(w: World, u: Uuid)
    requires WorldInv(w) && w.phase.Passing? && u in w.phase.todo
    ensures var s' := Settled(Turned(w, u));
      u in s'.sent && u in s'.dicts && Tracked(s', u) && DistinctCalls(s'.dicts[u])
    ensures CarriesAllKnown(w.phase.began, Turned(w, u).s.dicts[u])
  {
    var s := Settled(w);
    assert u in s.sent && Tracked(s, u) && s.sent[u] == w.s.sent[u];
    LinkedTellsLinks(w.s.maps, w.s.dicts[u]);
    EnrichedCarriesAll(w.s.maps, w.s.dicts[u]);
    EarlierKnownCarry(w.phase.began, w.s.maps, Enrich(w.s.maps, w.s.dicts[u]));
  }

  /** Only the parent `u` differs. */
  ghost predicate SameElsewhere(s: State, s': State, u: Uuid) {
    && s'.maps == s.maps && s'.dicts.Keys == s.dicts.Keys && s'.sent.Keys == s.sent.Keys
    && (forall v :: v in s.dicts && v != u ==> s'.dicts[v] == s.dicts[v])
    && (forall v :: v in s.sent && v != u ==> s'.sent[v] == s.sent[v])
    && (forall v :: v != u ==> (v in s'.cached <==> v in s.cached))
  }

  lemma TurnLeavesOthers(w: World, u: Uuid)
    requires WorldInv(w) && w.phase.Passing? && u in w.phase.todo
    ensures SameElsewhere(Settled(w), Settled(Turned(w, u)), u)
  {}

  lemma OneTracked(s: State, s': State, u: Uuid)
    requires Inv(s) && SameElsewhere(s, s', u)
    requires u in s'.sent && u in s'.dicts && Tracked(s', u) && DistinctCalls(s'.dicts[u])
    ensures Inv(s')
  {
    forall v | v in s'.sent ensures v != "" && v in s'.dicts && Tracked(s', v) {
      if v != u {
        assert Tracked(s, v);
      }
    }
  }

  lemma TurnKeepsSettled(w: World, u: Uuid)
    requires WorldInv(w) && w.phase.Passing? && u in w.phase.todo
    ensures Inv(Settled(Turned(w, u)))
  {
    TurnTracks(w, u);
    TurnLeavesOthers(w, u);
    OneTracked(Settled(w), Settled(Turned(w, u)), u);
  }

  lemma TurnKeepsPass(w: World, u: Uuid)
    requires WorldInv(w) && w.phase.Passing? && u in w.phase.todo
    ensures PassInv(Turned(w, u))
  {
    TurnTracks(w, u);
  }

  lemma TurnKeeps(w: World, u: Uuid)
    requires WorldInv(w) && w.phase.Passing? && u in w.phase.todo
    ensures WorldInv(Turned(w, u))
  {
    TurnKeepsSettled(w, u);
    TurnKeepsPass(w, u);
  }

  lemma EndKeeps(w: World)
    requires WorldInv(w) && w.phase.Passing?
    ensures WorldInv(World(Settled(w), Idle))
  {}

  lemma SameLinksBack(a: seq<Call>, b: seq<Call>)
    requires SameLinks(a, b)
    ensures SameLinks(b, a)
  {}

  /** What is emitted at the end is the dict as a reader may have found it in between. */
  lemma ReadTracks(w: World, w': World, results: seq<Result>, refs: set<Uuid>, late: State)
    requires WorldInv(w) && w'.phase == w.phase && ReadStep(w.s, w'.s, results, refs) && Harmless(w.s, refs, w'.s)
    requires late == Settled(w').(sent := Settled(w).sent)
    ensures Inv(late)
  {
    ReadKeeps(Settled(w), late, results, refs);
  }

  lemma ReadKeepsPass(w: World, w': World, results: seq<Result>, refs: set<Uuid>)
    requires WorldInv(w) && w'.phase == w.phase && ReadStep(w.s, w'.s, results, refs) && Harmless(w.s, refs, w'.s)
    ensures WorldInv(w')
  {
    var s', late := Settled(w'), Settled(w').(sent := Settled(w).sent);
    ReadTracks(w, w', results, refs, late);
    forall u | u in s'.sent ensures u != "" && Tracked(s', u) {
      assert Tracked(late, u);
    }
    if w.phase.Passing? {
      LearningGrows(w.s.maps, results);
      GrowsOn(w.phase.began, w.s.maps, w'.s.maps);
      forall u | u in w.s.cached && u !in w.phase.todo ensures CarriesAllKnown(w.phase.began, w'.s.dicts[u]) {
        if u in refs {
          SameLinksBack(w.s.dicts[u], w'.s.dicts[u]);
          SameLinksCarry(w.phase.began, w'.s.dicts[u], w.s.dicts[u]);
        }
      }
    }
  }

  lemma NextKeeps(w: World, step: Step, w': World)
    requires WorldInv(w) && Next(w, step, w')
    ensures WorldInv(w')
  {
    match step
    case Discover(sub, meta, toolUse) => DiscoverKeepsPass(w, w', sub, meta, toolUse);
    case Poll(results, parents) => PollKeeps(w.s, w'.s, results, parents);
    case Read(results, refs) => ReadKeepsPass(w, w', results, refs);
    case Begin => BeginKeeps(w);
    case Turn(u) => TurnKeeps(w, u);
    case End => EndKeeps(w);
  }

  lemma {:induction false} EveryRunTracks(states: seq<World>, steps: seq<Step>, n: nat)
    requires Run(states, steps) && n <= |steps|
    ensures WorldInv(states[n])
  {
    if n > 0 {
      EveryRunTracks(states, steps, n - 1);
      NextKeeps(states[n - 1], steps[n - 1], states[n - 1 + 1]);
    }
  }

  /** The rebroadcast that began at `m` is still under way. */
  ghost predicate UnderWay(steps: seq<Step>, m: nat, n: nat) {
    m < n <= |steps| && steps[m].Begin? && forall k :: m < k < n ==> !steps[k].End?
  }

  lemma {:induction false} BeganThen(states: seq<World>, steps: seq<Step>, m: nat, n: nat)
    requires Run(states, steps) && UnderWay(steps, m, n)
    ensures states[n].phase.Passing? && states[n].phase.began == states[m].s.maps
    decreases n
  {
    assert Next(states[n - 1], steps[n - 1], states[n - 1 + 1]);
    if m < n - 1 {
      BeganThen(states, steps, m, n - 1);
    }
  }

  // ---------------------------------------------------------------- what the run found and heard

  /** The subagents discovered and the results learned, in order. */
  function FactsOf(steps: seq<Step>): seq<Fact> {
    if steps == [] then []
    else
      FactsOf(steps[..|steps| - 1])
      + match steps[|steps| - 1]
        case Discover(sub, meta, toolUse) => [Found(sub, meta, toolUse)]
        case Poll(results, _) => HeardAll(results)
        case Read(results, _) => HeardAll(results)
        case _ => []
  }

  lemma NextRemembers(w: World, step: Step, w': World, facts: seq<Fact>, more: seq<Fact>)
    requires Next(w, step, w') && w.s.maps == MapsOf(facts) && Named(facts)
    requires more == match step
                     case Discover(sub, meta, toolUse) => [Found(sub, meta, toolUse)]
                     case Poll(results, _) => HeardAll(results)
                     case Read(results, _) => HeardAll(results)
                     case _ => []
    ensures w'.s.maps == MapsOf(facts + more) && Named(facts + more)
  {
    match step
    case Discover(sub, meta, toolUse) => assert (facts + more)[..|facts|] == facts;
    case Poll(results, _) => LearnedIsHeard(facts, results);
    case Read(results, _) => LearnedIsHeard(facts, results);
    case _ => assert facts + more == facts;
  }

  /** What is known at any moment is what the run has found and heard by then. */
  lemma {:induction false} EveryRunRemembers(states: seq<World>, steps: seq<Step>, n: nat)
    requires Run(states, steps) && n <= |steps|
    ensures states[n].s.maps == MapsOf(FactsOf(steps[..n])) && Named(FactsOf(steps[..n]))
  {
    if n > 0 {
      EveryRunRemembers(states, steps, n - 1);
      assert steps[..n][..n - 1] == steps[..n - 1] && Next(states[n - 1], steps[n - 1], states[n - 1 + 1]);
      var facts, all := FactsOf(steps[..n - 1]), FactsOf(steps[..n]);
      NextRemembers(states[n - 1], steps[n - 1], states[n], facts, all[|facts|..]);
      assert facts + all[|facts|..] == all;
    }
  }

  /** The metadata was what the run knew for the call at some moment up to `n`. */
  ghost predicate WasKnown(steps: seq<Step>, n: nat, call: CallId, meta: Metadata)
    requires n <= |steps|
  {
    exists k :: 0 <= k <= n && KnownFor(FactsOf(steps[..k]), call, meta)
  }

  /** Only Agent calls carry metadata, and only such as was known for them. */
  ghost predicate Sourced(steps: seq<Step>, n: nat, calls: seq<Call>)
    requires n <= |steps|
  {
    forall i :: 0 <= i < |calls| && calls[i].metadata.Some? ==>
      calls[i].isAgent && WasKnown(steps, n, calls[i].id, calls[i].metadata.value)
  }

  ghost predicate AllSourced(steps: seq<Step>, n: nat, s: State)
    requires n <= |steps|
  {
    && (forall u :: u in s.dicts ==> Sourced(steps, n, s.dicts[u]))
    && (forall u :: u in s.sent ==> Sourced(steps, n, s.sent[u]))
  }

  lemma SourcedLater(steps: seq<Step>, n: nat, n': nat, calls: seq<Call>)
    requires n <= n' <= |steps| && Sourced(steps, n, calls)
    ensures Sourced(steps, n', calls)
  {
    forall i | 0 <= i < |calls| && calls[i].metadata.Some?
        ensures calls[i].isAgent && WasKnown(steps, n', calls[i].id, calls[i].metadata.value) {
      var k :| 0 <= k <= n && KnownFor(FactsOf(steps[..k]), calls[i].id, calls[i].metadata.value);
      assert 0 <= k <= n';
    }
  }

  /** What is enriched carries what is known then, or what it carried before. */
  lemma EnrichedIsSourced(steps: seq<Step>, n: nat, m: Maps, calls: seq<Call>)
    requires n <= |steps| && m == MapsOf(FactsOf(steps[..n])) && Named(FactsOf(steps[..n])) && Sourced(steps, n, calls)
    ensures Sourced(steps, n, Enrich(m, calls))
  {
    var r := Enrich(m, calls);
    forall i | 0 <= i < |calls| && r[i].metadata.Some?
        ensures r[i].isAgent && WasKnown(steps, n, r[i].id, r[i].metadata.value) {
      if MetadataFor(m, calls[i].id).Some? && calls[i].isAgent {
        MetadataIsKnown(FactsOf(steps[..n]), calls[i].id, r[i].metadata.value);
      }
    }
  }

  lemma BareIsSourced(steps: seq<Step>, n: nat, calls: seq<Call>)
    requires n <= |steps| && Bare(calls)
    ensures Sourced(steps, n, calls)
  {}

  lemma PollIsSourced(w: World, w': World, steps: seq<Step>, n: nat, results: seq<Result>,
                      parents: map<Uuid, seq<Call>>)
    requires n < |steps| && Next(w, Poll(results, parents), w') && AllSourced(steps, n + 1, w.s)
    requires w'.s.maps == MapsOf(FactsOf(steps[..n + 1])) && Named(FactsOf(steps[..n + 1]))
    ensures AllSourced(steps, n + 1, w'.s)
  {
    forall u | u in w'.s.dicts ensures Sourced(steps, n + 1, w'.s.dicts[u]) {
      if u in parents {
        if u !in w.s.dicts {
          BareIsSourced(steps, n + 1, parents[u]);
        }
        EnrichedIsSourced(steps, n + 1, w'.s.maps, if u in w.s.dicts then w.s.dicts[u] else parents[u]);
      }
    }
  }

  lemma ReadIsSourced(w: World, w': World, steps: seq<Step>, n: nat, results: seq<Result>, refs: set<Uuid>)
    requires n < |steps| && Next(w, Read(results, refs), w') && AllSourced(steps, n + 1, w.s)
    requires w'.s.maps == MapsOf(FactsOf(steps[..n + 1])) && Named(FactsOf(steps[..n + 1]))
    ensures AllSourced(steps, n + 1, w'.s)
  {
    forall u | u in w'.s.dicts ensures Sourced(steps, n + 1, w'.s.dicts[u]) {
      if u !in w.s.dicts {
        var bare :| Bare(bare) && w'.s.dicts[u] == Enrich(w'.s.maps, bare);
        BareIsSourced(steps, n + 1, bare);
        EnrichedIsSourced(steps, n + 1, w'.s.maps, bare);
      } else if u in refs {
        EnrichedIsSourced(steps, n + 1, w'.s.maps, w.s.dicts[u]);
      }
    }
  }

  lemma NextIsSourced(w: World, step: Step, w': World, steps: seq<Step>, n: nat)
    requires n < |steps| && Next(w, step, w') && AllSourced(steps, n + 1, w.s)
    requires w'.s.maps == MapsOf(FactsOf(steps[..n + 1])) && Named(FactsOf(steps[..n + 1]))
    ensures AllSourced(steps, n + 1, w'.s)
  {
    match step
    case Poll(results, parents) => PollIsSourced(w, w', steps, n, results, parents);
    case Read(results, refs) => ReadIsSourced(w, w', steps, n, results, refs);
    case Turn(u) => EnrichedIsSourced(steps, n + 1, w.s.maps, w.s.dicts[u]);
    case _ =>
  }

  /** Over every run: whatever metadata a dict or an emitted copy carries was known, at some moment of the
      run, for that very call. */
  lemma {:induction false} EveryRunIsSourced(states: seq<World>, steps: seq<Step>, n: nat)
    requires Run(states, steps) && n <= |steps|
    ensures AllSourced(steps, n, states[n].s)
  {
    if n > 0 {
      var was := states[n - 1].s;
      EveryRunIsSourced(states, steps, n - 1);
      EveryRunRemembers(states, steps, n);
      assert Next(states[n - 1], steps[n - 1], states[n - 1 + 1]);
      forall u | u in was.dicts ensures Sourced(steps, n, was.dicts[u]) {
        SourcedLater(steps, n - 1, n, was.dicts[u]);
      }
      forall u | u in was.sent ensures Sourced(steps, n, was.sent[u]) {
        SourcedLater(steps, n - 1, n, was.sent[u]);
      }
      NextIsSourced(states[n - 1], steps[n - 1], states[n], steps, n - 1);
    }
  }

  /** Every Agent call for which the facts give metadata carries some. */
  ghost predicate CarriesAllFound(facts: seq<Fact>, calls: seq<Call>) {
    forall i, meta :: 0 <= i < |calls| && calls[i].isAgent && KnownFor(facts, calls[i].id, meta) ==>
      calls[i].metadata.Some?
  }

  lemma CarriesFound(facts: seq<Fact>, calls: seq<Call>)
    requires Named(facts) && CarriesAllKnown(MapsOf(facts), calls)
    ensures CarriesAllFound(facts, calls)
  {
    forall i, meta | 0 <= i < |calls| && calls[i].isAgent && KnownFor(facts, calls[i].id, meta)
        ensures calls[i].metadata.Some? {
      MetadataIsKnown(facts, calls[i].id, meta);
    }
  }

  /** Some Agent call lacks metadata. */
  ghost predicate Incomplete(calls: seq<Call>) {
    exists i :: 0 <= i < |calls| && calls[i].isAgent && calls[i].metadata.None?
  }

  lemma IncompleteIff(calls: seq<Call>)
    ensures Incomplete(calls) <==> HasAgent(calls) && !FullyEnriched(calls)
  {
    if i :| 0 <= i < |calls| && calls[i].isAgent && calls[i].metadata.None? {
      assert calls[i].isAgent;
    }
    if HasAgent(calls) && !FullyEnriched(calls) {
      var i :| 0 <= i < |calls| && calls[i].isAgent && calls[i].metadata.None?;
    }
  }

  lemma CachedWhileIncomplete(states: seq<World>, steps: seq<Step>, n: nat, u: Uuid)
    requires Run(states, steps) && n <= |steps| && states[n].phase.Idle? && u in states[n].s.sent
    ensures u in states[n].s.cached <==> Incomplete(states[n].s.sent[u])
  {
    EveryRunTracks(states, steps, n);
    var s := states[n].s;
    assert Tracked(s, u);
    SameLinksKeep(s.sent[u], s.dicts[u]);
    IncompleteIff(s.sent[u]);
  }

  lemma EndCarriesFound(states: seq<World>, steps: seq<Step>, m: nat, n: nat, u: Uuid)
    requires Run(states, steps) && n < |steps| && UnderWay(steps, m, n) && steps[n].End?
    requires u in states[n + 1].s.sent && HasAgent(states[n + 1].s.sent[u])
    ensures CarriesAllFound(FactsOf(steps[..m]), states[n + 1].s.sent[u])
  {
    EveryRunTracks(states, steps, n);
    BeganThen(states, steps, m, n);
    assert Next(states[n], steps[n], states[n + 1]);
    EndCarriesAll(states[n], u);
    EveryRunRemembers(states, steps, m);
    CarriesFound(FactsOf(steps[..m]), states[n + 1].s.sent[u]);
  }

  /** Over every run, other threads discovering, learning and reading between any two sections of a
      rebroadcast: a parent is cached exactly while its last emitted copy lacks metadata for some Agent
      call; the end of a rebroadcast leaves the clients a copy with metadata for every Agent call for which
      the run had found and heard enough when it began, the parent being retired once this is every call;
      and what a copy carries was found for that call. */
  lemma LinkageReachesClients(states: seq<World>, steps: seq<Step>, m: nat, n: nat, u: Uuid)
    requires Run(states, steps) && n < |steps| && u in states[n + 1].s.sent
    ensures var w := states[n + 1];
      && (w.phase.Idle? ==> (u in w.s.cached <==> Incomplete(w.s.sent[u])))
      && (UnderWay(steps, m, n) && steps[n].End? ==> CarriesAllFound(FactsOf(steps[..m]), w.s.sent[u]))
      && Sourced(steps, n + 1, w.s.sent[u])
  {
    EveryRunIsSourced(states, steps, n + 1);
    if states[n + 1].phase.Idle? {
      CachedWhileIncomplete(states, steps, n + 1, u);
    }
    if UnderWay(steps, m, n) && steps[n].End? && HasAgent(states[n + 1].s.sent[u]) {
      EndCarriesFound(states, steps, m, n, u);
    }
  }

  /** Every Agent call whose metadata is known carries it. */
  ghost predicate CarriesAllKnown(m: Maps, calls: seq<Call>) {
    forall i :: 0 <= i < |calls| && calls[i].isAgent && MetadataFor(m, calls[i].id).Some? ==> calls[i].metadata.Some?
  }

  lemma EnrichedCarriesAll(m: Maps, calls: seq<Call>)
    ensures CarriesAllKnown(m, Enrich(m, calls))
  {}

  lemma CompleteCarriesAll(m: Maps, calls: seq<Call>)
    requires FullyEnriched(calls)
    ensures CarriesAllKnown(m, calls)
  {}

  lemma SameLinksCarry(m: Maps, a: seq<Call>, b: seq<Call>)
    requires SameLinks(a, b) && CarriesAllKnown(m, b)
    ensures CarriesAllKnown(m, a)
  {
    forall i | 0 <= i < |a| && a[i].isAgent && MetadataFor(m, a[i].id).Some? ensures a[i].metadata.Some? {
      assert b[i].isAgent && b[i].id == a[i].id;
    }
  }

  lemma EarlierKnownCarry(m: Maps, m': Maps, calls: seq<Call>)
    requires Consistent(m) && Grows(m, m') && CarriesAllKnown(m', calls)
    ensures CarriesAllKnown(m, calls)
  {}

  lemma EndCarriesAll(w: World, u: Uuid)
    requires WorldInv(w) && w.phase.Passing? && w.phase.todo == {}
    requires u in Settled(w).sent && HasAgent(Settled(w).sent[u])
    ensures CarriesAllKnown(w.phase.began, Settled(w).sent[u])
  {
    var s := Settled(w);
    assert Tracked(s, u);
    SameLinksKeep(s.sent[u], s.dicts[u]);
    if u !in w.s.cached {
      CompleteCarriesAll(w.phase.began, s.dicts[u]);
    }
    SameLinksCarry(w.phase.began, s.sent[u], s.dicts[u]);
  }

  // ---------------------------------------------------------------- and with readers in between

  /** Whatever readers did before, the turn of a parent brings the clients' copy up to the dict exactly when
      it was already, or when the turn itself attaches something. */
  lemma TurnDeliversIff(w: World, u: Uuid)
    requires w.phase.Passing? && u in w.phase.todo && u !in w.phase.relinked && u in w.s.dicts && u in w.s.sent
    ensures var s' := Settled(Turned(w, u));
      Linked(s'.sent[u]) == Linked(s'.dicts[u])
      <==> Linked(w.s.sent[u]) == Linked(w.s.dicts[u])
           || Linked(Enrich(w.s.maps, w.s.dicts[u])) != Linked(w.s.dicts[u])
  {}

  /** The step by which a reader makes the copy stale. */
  lemma ReaderOvertakesIff(s: State, s': State, results: seq<Result>, refs: set<Uuid>, u: Uuid)
    requires Inv(s) && ReadStep(s, s', results, refs) && u in s.sent
    ensures SameLinks(s'.sent[u], s'.dicts[u])
        <==> u !in refs || u !in s.cached || SameLinks(s.dicts[u], Enrich(s'.maps, s.dicts[u]))
  {
    assert Tracked(s, u);
    if u in refs && u !in s.cached {
      SettledStays(s'.maps, s.dicts[u]);
    }
  }

  const EMPTY := State(Maps(map[], [], map[]), map[], {}, map[])

  /** A run from the start in which a page request gets there first: the parent is emitted and cached, its
      metadata appears, a reader attaches it, and the rebroadcast retires the parent without sending it. */
  lemma ReaderLosesTheUpgrade(u: Uuid, call: CallId, sub: SubId, meta: Metadata)
    requires u != "" && sub != ""
    ensures exists s0, s1, s2 ::
      && PollStep(EMPTY, s0, [], map[u := [Call(call, true, None)]]) && u in s0.cached
      && DiscoverStep(s0, s1, sub, meta, Some(call)) && ReadStep(s1, s2, [], {u}) && u in s2.dicts
      && var s3 := Settled(Turned(Begun(World(s2, Idle)), u));
      && u !in s3.cached && u in s3.dicts && FullyEnriched(s3.dicts[u]) && u in s3.sent && !FullyEnriched(s3.sent[u])
  {
    var bare, rich := [Call(call, true, None)], [Call(call, true, Some(meta))];
    var m1 := Maps(map[sub := meta], [(sub, call)], map[]);
    var s0 := State(EMPTY.maps, map[u := bare], {u}, map[u := bare]);
    var s1 := State(m1, map[u := bare], {u}, map[u := bare]);
    var s2 := State(m1, map[u := rich], {u}, map[u := bare]);
    BareParentIsCached(u, call);
    assert bare[0].isAgent && rich[0].isAgent && MetadataFor(m1, call) == Some(meta);
    assert Enrich(m1, bare) == rich && Enrich(m1, rich) == rich;
    assert DiscoverStep(s0, s1, sub, meta, Some(call));
    assert ReadStep(s1, s2, [], {u});
    assert Settled(Turned(Begun(World(s2, Idle)), u)) == State(m1, s2.dicts, {}, s2.sent);
  }

  lemma BareParentIsCached(u: Uuid, call: CallId)
    requires u != ""
    ensures var bare := [Call(call, true, None)];
      PollStep(EMPTY, State(EMPTY.maps, map[u := bare], {u}, map[u := bare]), [], map[u := bare])
  {
    var bare := [Call(call, true, None)];
    assert bare[0].isAgent && MetadataFor(EMPTY.maps, call) == None && Enrich(EMPTY.maps, bare) == bare;
  }

  // ---------------------------------------------------------------- the watcher's fields and loops

  lemma EnrichTwice(m: Maps, calls: seq<Call>)
    ensures Enrich(m, Enrich(m, calls)) == Enrich(m, calls)
  {}

  /** The turns of some parents, one after the other, with nothing in between. */
  function TurnAll(w: World, us: seq<Uuid>): World
    requires w.phase.Passing? && forall u :: u in us ==> u in w.s.dicts
    decreases |us|
  {
    if us == [] then w else TurnAll(Turned(w, us[0]), us[1..])
  }

  /** Undisturbed turns enrich each parent with what is known, and find those that gain a link or are complete. */
  lemma {:induction false} TurnAllIs(w: World, us: seq<Uuid>)
    requires w.phase.Passing? && Distinct(us) && forall u :: u in us ==> u in w.s.dicts
    ensures var w', m := TurnAll(w, us), w.s.maps;
      && w'.phase.Passing? && w'.phase.todo == w.phase.todo - Elements(us) && w'.s == w.s.(dicts := w'.s.dicts)
      && w'.s.dicts.Keys == w.s.dicts.Keys
      && (forall u :: u in w.s.dicts ==> w'.s.dicts[u] == if u in us then Enrich(m, w.s.dicts[u]) else w.s.dicts[u])
      && (forall u :: u in w'.phase.relinked <==>
            u in w.phase.relinked || (u in us && Linked(Enrich(m, w.s.dicts[u])) != Linked(w.s.dicts[u])))
      && (forall u :: u in w'.phase.full <==>
            u in w.phase.full || (u in us && FullyEnriched(Enrich(m, w.s.dicts[u]))))
    decreases |us|
  {
    if us != [] {
      assert us == [us[0]] + us[1..];
      assert us[0] !in us[1..];
      TurnAllIs(Turned(w, us[0]), us[1..]);
    }
  }

  lemma {:induction false} TurnAllSnoc(w: World, us: seq<Uuid>, u: Uuid)
    requires w.phase.Passing? && u in w.s.dicts && forall v :: v in us ==> v in w.s.dicts
    ensures var w' := TurnAll(w, us);
      && w'.phase.Passing? && w'.s.dicts.Keys == w.s.dicts.Keys
      && TurnAll(w, us + [u]) == Turned(w', u)
    decreases |us|
  {
    if us == [] {
      assert [] + [u] == [u] && [u][1..] == [];
      assert TurnAll(Turned(w, u), []) == Turned(w, u);
    } else {
      assert (us + [u])[1..] == us[1..] + [u];
      TurnAllSnoc(Turned(w, us[0]), us[1..], u);
    }
  }

  class LinkageWatcher {
    var subagentMetadata: map<SubId, Metadata>
    var subagentToolUseId: seq<(SubId, CallId)>
    var subagentIdByToolCall: map<CallId, SubId>
    var dicts: map<Uuid, seq<Call>>
    var unlinkedAgentParents: seq<Uuid>
    ghost var sent: map<Uuid, seq<Call>>
    /** What was discovered and learned so far. */
    ghost var facts: seq<Fact>

    constructor ()
      ensures Valid() && View() == EMPTY
    {
      subagentMetadata, subagentToolUseId, subagentIdByToolCall, dicts := map[], [], map[], map[];
      unlinkedAgentParents, sent, facts := [], map[], [];
    }

    /** The maps hold what was discovered and learned. */
    ghost predicate Remembers()
      reads this`subagentMetadata, this`subagentToolUseId, this`subagentIdByToolCall, this`facts
    {
      Known() == MapsOf(facts) && Named(facts)
    }

    /** Each parent is listed once, and its dict can be enriched. */
    ghost predicate Listed()
      reads this
    {
      Distinct(unlinkedAgentParents) && forall u :: u in unlinkedAgentParents ==> u in dicts
    }

    /** Between polls, every listed parent has been emitted, too. */
    ghost predicate Valid()
      reads this
    {
      Remembers() && Listed() && forall u :: u in unlinkedAgentParents ==> u in sent
    }

    ghost function Known(): Maps
      reads this`subagentMetadata, this`subagentToolUseId, this`subagentIdByToolCall
    {
      Maps(subagentMetadata, subagentToolUseId, subagentIdByToolCall)
    }

    ghost function View(): State
      reads this
    {
      State(Known(), dicts, Elements(unlinkedAgentParents), sent)
    }

    /** Lines 1031 to 1042: what a subagent's meta.json tells, once. */
    method ResolveMetadata(sub: SubId, metadata: Metadata, toolUse: Option<CallId>)
      requires sub != "" && Valid()
      modifies this`subagentMetadata, this`subagentToolUseId, this`facts
      ensures Valid() && DiscoverStep(old(View()), View(), sub, metadata, toolUse)
      ensures facts == old(facts) + [Found(sub, metadata, toolUse)]
    {
      assert (facts + [Found(sub, metadata, toolUse)])[..|facts|] == facts;
      facts := facts + [Found(sub, metadata, toolUse)];
      if sub in subagentMetadata {
        return;
      }
      subagentMetadata := subagentMetadata[sub := metadata];
      if toolUse.Some? {
        subagentToolUseId := subagentToolUseId + [(sub, toolUse.value)];
      }
    }

    /** Lines 784 to 803: subagent_by_tool_call, the toolUseIds first. */
    method SubagentByToolCall() returns (links: map<CallId, SubId>)
      ensures forall c ::
        (c in links <==> LinkFor(Known(), c).Some?) && (c in links ==> LinkFor(Known(), c) == Some(links[c]))
    {
      links := map[];
      var i := 0;
      while i < |subagentToolUseId|
        invariant 0 <= i <= |subagentToolUseId|
        invariant forall c :: (c in links <==> ToolUseLink(subagentToolUseId[..i], c).Some?)
                              && (c in links ==> ToolUseLink(subagentToolUseId[..i], c) == Some(links[c]))
      {
        assert subagentToolUseId[..i + 1][..i] == subagentToolUseId[..i];
        links := links[subagentToolUseId[i].1 := subagentToolUseId[i].0];
        i := i + 1;
      }
      assert subagentToolUseId[..i] == subagentToolUseId;
      ghost var direct := links;
      var rest := subagentIdByToolCall.Keys;
      while rest != {}
        invariant rest <= subagentIdByToolCall.Keys
        invariant forall c :: c in direct ==> c in links && links[c] == direct[c]
        invariant forall c :: c !in direct ==> (c in links <==> c in subagentIdByToolCall.Keys - rest)
        invariant forall c :: c !in direct && c in links ==> links[c] == subagentIdByToolCall[c]
      {
        var c :| c in rest;
        rest := rest - {c};
        if c !in links {
          links := links[c := subagentIdByToolCall[c]];
        }
      }
    }

    /** Lines 805 to 821, for one assistant message. */
    method EnrichCalls(calls: seq<Call>, links: map<CallId, SubId>) returns (r: seq<Call>)
      requires Remembers()
      requires forall c ::
        (c in links <==> LinkFor(Known(), c).Some?) && (c in links ==> LinkFor(Known(), c) == Some(links[c]))
      ensures r == Enrich(Known(), calls)
      ensures AttachesAll(facts, calls, r)
    {
      EnrichAttachesAll(facts, calls);
      r := EnrichEach(calls, links);
    }

    /** The loop. */
    method EnrichEach(calls: seq<Call>, links: map<CallId, SubId>) returns (r: seq<Call>)
      requires forall c ::
        (c in links <==> LinkFor(Known(), c).Some?) && (c in links ==> LinkFor(Known(), c) == Some(links[c]))
      ensures r == Enrich(Known(), calls)
    {
      r := calls;
      var i := 0;
      while i < |calls|
        invariant 0 <= i <= |calls| == |r|
        invariant forall k :: 0 <= k < i ==> r[k] == EnrichCall(Known(), calls[k])
        invariant forall k :: i <= k < |calls| ==> r[k] == calls[k]
      {
        if calls[i].isAgent && calls[i].id in links && links[calls[i].id] != "" {
          var metadata := Lookup(subagentMetadata, links[calls[i].id]);
          if metadata.Some? {
            r := r[i := Call(calls[i].id, true, metadata)];
          }
        }
        i := i + 1;
      }
    }

    method Accumulate(results: seq<Result>)
      requires Remembers()
      modifies this`subagentIdByToolCall, this`facts
      ensures Remembers() && facts == old(facts) + HeardAll(results)
      ensures subagentIdByToolCall == Accumulated(old(subagentIdByToolCall), results)
    {
      LearnedIsHeard(facts, results);
      facts := facts + HeardAll(results);
      var i := 0;
      ghost var goal := Accumulated(subagentIdByToolCall, results);
      assert results[0..] == results;
      while i < |results|
        modifies this`subagentIdByToolCall
        invariant 0 <= i <= |results| && Accumulated(subagentIdByToolCall, results[i..]) == goal
      {
        assert results[i..][1..] == results[i + 1..];
        if results[i].call !in subagentIdByToolCall {
          subagentIdByToolCall := subagentIdByToolCall[results[i].call := results[i].sub];
        }
        i := i + 1;
      }
    }

    /** One message of the batch. */
    method EnrichMessage(u: Uuid, links: map<CallId, SubId>)
      requires Remembers() && u in dicts
      requires forall c ::
        (c in links <==> LinkFor(Known(), c).Some?) && (c in links ==> LinkFor(Known(), c) == Some(links[c]))
      modifies this`dicts
      ensures dicts == old(dicts)[u := Enrich(Known(), old(dicts)[u])]
    {
      var r := EnrichCalls(dicts[u], links);
      dicts := dicts[u := r];
    }

    /** _enrich_subagent_metadata on a batch: its tool_results, and its assistant messages by uuid. */
    method EnrichSubagentMetadata(results: seq<Result>, uuids: seq<Uuid>)
      requires Remembers() && forall u :: u in uuids ==> u in dicts
      modifies this`subagentIdByToolCall, this`dicts, this`facts
      ensures Remembers() && facts == old(facts) + HeardAll(results)
      ensures Known() == Learned(old(Known()), results)
      ensures dicts.Keys == old(dicts).Keys
      ensures forall u :: u in dicts ==>
          dicts[u] == if u in uuids then Enrich(Known(), old(dicts)[u]) else old(dicts)[u]
    {
      Accumulate(results);
      var links := SubagentByToolCall();
      var i := 0;
      while i < |uuids|
        modifies this`dicts
        invariant 0 <= i <= |uuids| && dicts.Keys == old(dicts).Keys
        invariant forall u :: u in dicts ==>
            dicts[u] == if u in uuids[..i] then Enrich(Known(), old(dicts)[u]) else old(dicts)[u]
      {
        EnrichTwice(Known(), old(dicts)[uuids[i]]);
        assert uuids[..i + 1] == uuids[..i] + [uuids[i]];
        EnrichMessage(uuids[i], links);
        i := i + 1;
      }
      assert uuids[..i] == uuids;
    }

    /** _cache_unlinked_agent_parents */
    method CacheUnlinkedAgentParents(uuids: seq<Uuid>)
      requires Listed() && forall u :: u in uuids ==> u in dicts
      modifies this`unlinkedAgentParents
      ensures Listed()
      ensures forall u :: u in unlinkedAgentParents <==>
                            u in old(unlinkedAgentParents)
                                || (u in uuids && u != "" && Incomplete(dicts[u]))
    {
      var i := 0;
      while i < |uuids|
        modifies this`unlinkedAgentParents
        invariant 0 <= i <= |uuids| && Listed()
        invariant forall u :: u in unlinkedAgentParents <==>
                                u in old(unlinkedAgentParents)
                                    || (u in uuids[..i] && u != "" && Incomplete(dicts[u]))
      {
        assert uuids[..i + 1] == uuids[..i] + [uuids[i]];
        IncompleteIff(dicts[uuids[i]]);
        if HasAgent(dicts[uuids[i]]) && !FullyEnriched(dicts[uuids[i]]) && uuids[i] != ""
            && uuids[i] !in unlinkedAgentParents {
          unlinkedAgentParents := unlinkedAgentParents + [uuids[i]];
        }
        i := i + 1;
      }
      assert uuids[..i] == uuids;
    }

    /** Lines 1110 to 1112 of a poll, for a batch whose dicts are already shared with the body cache. */
    method EmitBatch(results: seq<Result>, uuids: seq<Uuid>, ghost parents: map<Uuid, seq<Call>>)
      requires Valid() && forall u :: u in uuids <==> u in parents
      requires forall u :: u in parents ==> u in dicts && dicts[u] == parents[u]
      modifies this
      ensures Valid() && PollStep(old(View()), View(), results, parents)
      ensures facts == old(facts) + HeardAll(results)
    {
      EnrichSubagentMetadata(results, uuids);
      CacheUnlinkedAgentParents(uuids);
      forall u | u in uuids ensures Incomplete(dicts[u]) <==> HasAgent(dicts[u]) && !FullyEnriched(dicts[u]) {
        IncompleteIff(dicts[u]);
      }
      sent := map u | u in sent.Keys + parents.Keys :: if u in parents then dicts[u] else sent[u];
    }

    method RelinkOne(u: Uuid) returns (gained: bool, complete: bool)
      requires Remembers() && u in dicts
      modifies this`dicts, this`subagentIdByToolCall, this`facts
      ensures Remembers() && facts == old(facts)
      ensures Known() == old(Known()) && dicts == old(dicts)[u := Enrich(Known(), old(dicts)[u])]
      ensures gained <==> Linked(dicts[u]) != Linked(old(dicts)[u])
      ensures complete <==> FullyEnriched(dicts[u])
    {
      var before := Linked(dicts[u]);
      ConcatNothing(facts);
      EnrichSubagentMetadata([], [u]);
      gained, complete := Linked(dicts[u]) != before, FullyEnriched(dicts[u]);
    }

    /** Lines 1161 to 1167, for one parent: its turn in the rebroadcast `w`, whatever came before it. */
    method TakeTurn(u: Uuid, relinked: seq<Uuid>, full: seq<Uuid>, ghost w: World)
      returns (relinked': seq<Uuid>, full': seq<Uuid>)
      requires Remembers() && w.s == View() && w.phase.Passing? && u in dicts
      requires w.phase.relinked == Elements(relinked) && w.phase.full == Elements(full)
      modifies this`dicts, this`subagentIdByToolCall, this`facts
      ensures Remembers() && facts == old(facts)
      ensures var w' := Turned(w, u);
        View() == w'.s && Elements(relinked') == w'.phase.relinked && Elements(full') == w'.phase.full
    {
      var gained, complete := RelinkOne(u);
      relinked' := if gained then relinked + [u] else relinked;
      full' := if complete then full + [u] else full;
    }

    /** The loop over the cached parents, when no other thread comes in between. */
    method TakeTurns(cached: seq<Uuid>, ghost w: World) returns (relinked: seq<Uuid>, full: seq<Uuid>)
      requires Remembers() && w.s == View() && w.phase.Passing? && w.phase.relinked == w.phase.full == {}
      requires forall u :: u in cached ==> u in dicts
      modifies this`dicts, this`subagentIdByToolCall, this`facts
      ensures Remembers() && facts == old(facts)
      ensures var w' := TurnAll(w, cached);
        && w'.phase.Passing? && View() == w'.s && dicts.Keys == old(dicts).Keys
        && Elements(relinked) == w'.phase.relinked && Elements(full) == w'.phase.full
    {
      relinked, full := [], [];
      var i := 0;
      ghost var now := w;
      while i < |cached|
        modifies this`dicts, this`subagentIdByToolCall, this`facts
        invariant 0 <= i <= |cached| && now == TurnAll(w, cached[..i])
        invariant Remembers() && facts == old(facts)
        invariant now.s == View() && now.phase.Passing? && dicts.Keys == old(dicts).Keys
        invariant now.phase.relinked == Elements(relinked) && now.phase.full == Elements(full)
      {
        PrefixSnoc(cached, i);
        TurnAllSnoc(w, cached[..i], cached[i]);
        relinked, full := TakeTurn(cached[i], relinked, full, now);
        now := Turned(now, cached[i]);
        i := i + 1;
      }
      assert cached[..i] == cached;
    }

    /** _rebroadcast_relinked_parents: begins, takes every turn and ends, telling what it emits. */
    method RebroadcastRelinkedParents() returns (relinked: seq<Uuid>)
      requires Valid()
      modifies this
      ensures Valid() && facts == old(facts)
      ensures var w := TurnAll(Begun(World(old(View()), Idle)), old(unlinkedAgentParents));
        && w.phase.Passing? && w.phase.todo == {} && View() == Settled(w)
        && Elements(relinked) == w.phase.relinked
    {
      ghost var w := Begun(World(View(), Idle));
      TurnAllIs(w, unlinkedAgentParents);
      var full;
      relinked, full := TakeTurns(unlinkedAgentParents, w);
      ghost var w' := TurnAll(w, unlinkedAgentParents);
      unlinkedAgentParents := Without(unlinkedAgentParents, full);
      sent := Emitted(sent, dicts, Elements(relinked));
      assert Elements(unlinkedAgentParents) == w'.s.cached - w'.phase.full;
    }
  }

  method Without(s: seq<Uuid>, gone: seq<Uuid>) returns (r: seq<Uuid>)
    requires Distinct(s)
    ensures Distinct(r) && forall u :: u in r <==> u in s && u !in gone
  {
    r := [];
    var i := 0;
    while i < |s|
      invariant 0 <= i <= |s| && Distinct(r) && forall u :: u in r <==> u in s[..i] && u !in gone
    {
      PrefixMembers(s, i);
      if s[i] !in gone {
        r := r + [s[i]];
      }
      i := i + 1;
    }
    assert s[..i] == s;
  }
}
