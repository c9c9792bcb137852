/**
 Which subagent an Agent tool call belongs to, and which metadata it gets
 (apps/system_interface/imbue/system_interface/session_watcher.py, lines 759 to 821 and 984 to 1042).
 */
module Links {
  import opened Common

  type CallId = string
  type SubId = string

  datatype Metadata = Metadata(agentType: string, description: string, sessionId: SubId)

  datatype Call = Call(id: CallId, isAgent: bool, metadata: Option<Metadata>)

  /** What is known of subagents: their metadata, the toolUseId of each in the order discovered, and the
      subagent each tool_result named. */
  datatype Maps = Maps(metadata: map<SubId, Metadata>, toolUse: seq<(SubId, CallId)>, results: map<CallId, SubId>)

  datatype Result = Result(call: CallId, sub: SubId)

  // ---------------------------------------------------------------- linkage

  /** The last subagent whose meta.json names the call. */
  function ToolUseLink(pairs: seq<(SubId, CallId)>, call: CallId): Option<SubId> {
    if pairs == [] then None
    else if pairs[|pairs| - 1].1 == call then Some(pairs[|pairs| - 1].0)
    else ToolUseLink(pairs[..|pairs| - 1], call)
  }

  function LinkFor(m: Maps, call: CallId): Option<SubId> {
    match ToolUseLink(m.toolUse, call)
    case Some(sub) => Some(sub)
    case None => if call in m.results then Some(m.results[call]) else None
  }

  function Lookup(metadata: map<SubId, Metadata>, sub: SubId): Option<Metadata> {
    if sub in metadata then Some(metadata[sub])
    else if "agent-" + sub in metadata then Some(metadata["agent-" + sub])
    else None
  }

  function MetadataFor(m: Maps, call: CallId): Option<Metadata> {
    match LinkFor(m, call)
    case None => None
    case Some(sub) => if sub == "" then None else Lookup(m.metadata, sub)
  }

  function EnrichCall(m: Maps, c: Call): Call {
    if c.isAgent && MetadataFor(m, c.id).Some? then Call(c.id, true, MetadataFor(m, c.id)) else c
  }

  function Enrich(m: Maps, calls: seq<Call>): (r: seq<Call>)
    ensures |r| == |calls|
  {
    seq(|calls|, i requires 0 <= i < |calls| => EnrichCall(m, calls[i]))
  }

  /** meta.json of a subagent read for the first time. */
  function Discovered(m: Maps, sub: SubId, meta: Metadata, toolUse: Option<CallId>): Maps {
    if sub in m.metadata then m
    else Maps(m.metadata[sub := meta], if toolUse.Some? then m.toolUse + [(sub, toolUse.value)]
        else m.toolUse, m.results)
  }

  /** setdefault for each tool_result of a batch. */
  function Accumulated(results: map<CallId, SubId>, batch: seq<Result>): map<CallId, SubId>
    decreases |batch|
  {
    if batch == [] then results
    else Accumulated(if batch[0].call in results then results else results[batch[0].call := batch[0].sub], batch[1..])
  }

  function Learned(m: Maps, batch: seq<Result>): Maps {
    Maps(m.metadata, m.toolUse, Accumulated(m.results, batch))
  }

  predicate HasAgent(calls: seq<Call>) {
    exists i :: 0 <= i < |calls| && calls[i].isAgent
  }

  predicate FullyEnriched(calls: seq<Call>) {
    HasAgent(calls) && forall i :: 0 <= i < |calls| && calls[i].isAgent ==> calls[i].metadata.Some?
  }

  /** _linked_agent_tool_call_ids */
  function Linked(calls: seq<Call>): set<CallId> {
    set i | 0 <= i < |calls| && calls[i].isAgent && calls[i].metadata.Some? :: calls[i].id
  }

  // ---------------------------------------------------------------- what is known only grows

  /** Every subagent that names a call has metadata: both are written in one locked section. */
  ghost predicate Consistent(m: Maps) {
    forall i :: 0 <= i < |m.toolUse| ==> m.toolUse[i].0 in m.metadata && m.toolUse[i].0 != ""
  }

  lemma {:induction false} ToolUseLinkIsNamed(pairs: seq<(SubId, CallId)>, call: CallId)
    ensures ToolUseLink(pairs, call).Some? ==>
        exists i :: 0 <= i < |pairs| && pairs[i].0 == ToolUseLink(pairs, call).value
  {
    if pairs != [] && pairs[|pairs| - 1].1 != call {
      ToolUseLinkIsNamed(pairs[..|pairs| - 1], call);
    }
  }

  lemma {:induction false} AccumulatedKeeps(results: map<CallId, SubId>, batch: seq<Result>)
    ensures forall c :: c in results ==>
        c in Accumulated(results, batch) && Accumulated(results, batch)[c] == results[c]
    decreases |batch|
  {
    if batch != [] {
      AccumulatedKeeps(if batch[0].call in results then results
          else results[batch[0].call := batch[0].sub], batch[1..]);
    }
  }

  /** Metadata once available for a call stays available, although the subagent linked may change. */
  lemma DiscoveryKeepsAvailable(m: Maps, sub: SubId, meta: Metadata, toolUse: Option<CallId>, call: CallId)
    requires Consistent(m) && sub != ""
    ensures Consistent(Discovered(m, sub, meta, toolUse))
    ensures MetadataFor(m, call).Some? ==> MetadataFor(Discovered(m, sub, meta, toolUse), call).Some?
  {
    if sub !in m.metadata && toolUse.Some? {
      assert (m.toolUse + [(sub, toolUse.value)])[..|m.toolUse|] == m.toolUse;
    }
  }

  lemma LearningKeepsAvailable(m: Maps, batch: seq<Result>, call: CallId)
    requires Consistent(m)
    ensures Consistent(Learned(m, batch))
    ensures MetadataFor(m, call).Some? ==> MetadataFor(Learned(m, batch), call).Some?
  {
    AccumulatedKeeps(m.results, batch);
  }

  /** A toolUseId decides over a tool_result, and what it decides is always ready to attach. */
  lemma ToolUseDecides(m: Maps, call: CallId)
    requires Consistent(m) && ToolUseLink(m.toolUse, call).Some?
    ensures MetadataFor(m, call).Some? && MetadataFor(m, call) == Lookup(m.metadata, ToolUseLink(m.toolUse, call).value)
  {
    ToolUseLinkIsNamed(m.toolUse, call);
  }

  /** What is known grew: metadata available for a call stays available. */
  ghost predicate Grows(m: Maps, m': Maps) {
    Consistent(m) ==> Consistent(m') && forall c :: MetadataFor(m, c).Some? ==> MetadataFor(m', c).Some?
  }

  lemma DiscoveryGrows(m: Maps, sub: SubId, meta: Metadata, toolUse: Option<CallId>)
    requires sub != ""
    ensures Grows(m, Discovered(m, sub, meta, toolUse))
  {
    if Consistent(m) {
      forall c ensures Consistent(Discovered(m, sub, meta, toolUse))
        && (MetadataFor(m, c).Some? ==> MetadataFor(Discovered(m, sub, meta, toolUse), c).Some?) {
        DiscoveryKeepsAvailable(m, sub, meta, toolUse, c);
      }
    }
  }

  lemma LearningGrows(m: Maps, batch: seq<Result>)
    ensures Grows(m, Learned(m, batch))
  {
    if Consistent(m) {
      forall c ensures Consistent(Learned(m, batch))
          && (MetadataFor(m, c).Some? ==> MetadataFor(Learned(m, batch), c).Some?) {
        LearningKeepsAvailable(m, batch, c);
      }
    }
  }

  // ---------------------------------------------------------------- told from what was found and heard

  /** A subagent's meta.json was read, or a tool_result that names a subagent. */
  datatype Fact = Found(sub: SubId, meta: Metadata, toolUse: Option<CallId>) | Heard(call: CallId, sub: SubId)

  ghost predicate FirstFound(facts: seq<Fact>, i: int, sub: SubId) {
    && 0 <= i < |facts| && facts[i].Found? && facts[i].sub == sub
    && forall j :: 0 <= j < i ==> !(facts[j].Found? && facts[j].sub == sub)
  }

  ghost predicate HasMeta(facts: seq<Fact>, sub: SubId, meta: Metadata) {
    exists i :: FirstFound(facts, i, sub) && facts[i].meta == meta
  }

  /** A subagent found for the first time whose toolUseId is the call. */
  ghost predicate Claims(facts: seq<Fact>, i: int, call: CallId) {
    0 <= i < |facts| && facts[i].Found? && FirstFound(facts, i, facts[i].sub) && facts[i].toolUse == Some(call)
  }

  ghost predicate LastClaims(facts: seq<Fact>, i: int, call: CallId) {
    Claims(facts, i, call) && forall j :: i < j < |facts| ==> !Claims(facts, j, call)
  }

  ghost predicate FirstHeard(facts: seq<Fact>, k: int, call: CallId) {
    && 0 <= k < |facts| && facts[k].Heard? && facts[k].call == call
    && forall j :: 0 <= j < k ==> !(facts[j].Heard? && facts[j].call == call)
  }

  /** The metadata for a call: that of the last subagent found whose toolUseId is the call; if there is none,
      that of the subagent the first tool_result for the call names, under that id or with `agent-` before it. */
  ghost predicate KnownFor(facts: seq<Fact>, call: CallId, meta: Metadata) {
    || (exists i :: LastClaims(facts, i, call) && facts[i].meta == meta)
    || ((forall i :: !Claims(facts, i, call))
        && exists k :: FirstHeard(facts, k, call) && facts[k].sub != "" && NamedMeta(facts, facts[k].sub, meta))
  }

  ghost predicate NamedMeta(facts: seq<Fact>, sub: SubId, meta: Metadata) {
    HasMeta(facts, sub, meta) || (HasMeta(facts, "agent-" + sub, meta) && forall m :: !HasMeta(facts, sub, m))
  }

  /** The maps after these facts. */
  function MapsOf(facts: seq<Fact>): Maps {
    if facts == [] then Maps(map[], [], map[])
    else
      match facts[|facts| - 1]
      case Found(sub, meta, toolUse) => Discovered(MapsOf(facts[..|facts| - 1]), sub, meta, toolUse)
      case Heard(call, sub) => Learned(MapsOf(facts[..|facts| - 1]), [Result(call, sub)])
  }

  ghost predicate Named(facts: seq<Fact>) {
    forall i :: 0 <= i < |facts| && facts[i].Found? ==> facts[i].sub != ""
  }

  lemma FirstFoundSnoc(facts: seq<Fact>, x: Fact, i: int, sub: SubId)
    ensures FirstFound(facts + [x], i, sub)
       <==> FirstFound(facts, i, sub)
            || (i == |facts| && x.Found? && x.sub == sub && forall j :: !FirstFound(facts, j, sub))
  {
    var all := facts + [x];
    assert forall j :: 0 <= j < |facts| ==> all[j] == facts[j];
    if i == |facts| && x.Found? && x.sub == sub {
      if j :| 0 <= j < |facts| && facts[j].Found? && facts[j].sub == sub {
        var first := FoundFirst(facts, j);
      }
    }
  }

  lemma {:induction false} FoundFirst(facts: seq<Fact>, j: nat) returns (first: nat)
    requires j < |facts| && facts[j].Found?
    ensures first <= j && FirstFound(facts, first, facts[j].sub)
  {
    first := j;
    if i :| 0 <= i < j && facts[i].Found? && facts[i].sub == facts[j].sub {
      first := FoundFirst(facts, i);
    }
  }

  lemma HasMetaSnoc(facts: seq<Fact>, x: Fact, sub: SubId, meta: Metadata)
    ensures HasMeta(facts + [x], sub, meta)
       <==> HasMeta(facts, sub, meta)
            || (x.Found? && x.sub == sub && x.meta == meta && forall j :: !FirstFound(facts, j, sub))
  {
    var all := facts + [x];
    forall i ensures FirstFound(all, i, sub)
       <==> FirstFound(facts, i, sub)
            || (i == |facts| && x.Found? && x.sub == sub && forall j :: !FirstFound(facts, j, sub)) {
      FirstFoundSnoc(facts, x, i, sub);
    }
    if HasMeta(facts, sub, meta) {
      var i :| FirstFound(facts, i, sub) && facts[i].meta == meta;
      assert FirstFound(all, i, sub) && all[i].meta == meta;
    }
    if x.Found? && x.sub == sub && x.meta == meta && forall j :: !FirstFound(facts, j, sub) {
      assert FirstFound(all, |facts|, sub) && all[|facts|].meta == meta;
    }
  }

  lemma {:induction false} MetadataIs(facts: seq<Fact>, sub: SubId)
    ensures sub in MapsOf(facts).metadata <==> exists i :: FirstFound(facts, i, sub)
    ensures var m := MapsOf(facts).metadata;
      forall meta :: HasMeta(facts, sub, meta) <==> (sub in m && m[sub] == meta)
  {
    if facts != [] {
      var init, x := facts[..|facts| - 1], facts[|facts| - 1];
      assert facts == init + [x];
      MetadataIs(init, sub);
      forall i ensures FirstFound(init, i, sub) ==> FirstFound(facts, i, sub) {
        FirstFoundSnoc(init, x, i, sub);
      }
      FirstFoundSnoc(init, x, |init|, sub);
      if i :| FirstFound(facts, i, sub) {
        FirstFoundSnoc(init, x, i, sub);
      }
      forall meta ensures HasMeta(facts, sub, meta)
        <==> HasMeta(init, sub, meta)
             || (x.Found? && x.sub == sub && x.meta == meta && forall j :: !FirstFound(init, j, sub)) {
        HasMetaSnoc(init, x, sub, meta);
      }
    }
  }

  lemma ClaimsSnoc(facts: seq<Fact>, x: Fact, i: int, call: CallId)
    ensures Claims(facts + [x], i, call)
       <==> Claims(facts, i, call)
            || (i == |facts| && x.Found? && x.toolUse == Some(call) && forall j :: !FirstFound(facts, j, x.sub))
  {
    var all := facts + [x];
    if 0 <= i < |all| && all[i].Found? {
      FirstFoundSnoc(facts, x, i, all[i].sub);
    }
  }

  lemma LinkSnoc(facts: seq<Fact>, x: Fact, call: CallId)
    ensures var m := MapsOf(facts);
      ToolUseLink(MapsOf(facts + [x]).toolUse, call)
      == if x.Found? && x.sub !in m.metadata && x.toolUse == Some(call) then Some(x.sub)
         else ToolUseLink(m.toolUse, call)
  {
    var m := MapsOf(facts);
    assert (facts + [x])[..|facts|] == facts;
    if x.Found? && x.sub !in m.metadata && x.toolUse.Some? {
      assert (m.toolUse + [(x.sub, x.toolUse.value)])[..|m.toolUse|] == m.toolUse;
    }
  }

  lemma LastClaimsSnoc(facts: seq<Fact>, x: Fact, i: int, call: CallId)
    ensures LastClaims(facts + [x], i, call) <==>
      if Claims(facts + [x], |facts|, call) then i == |facts| else LastClaims(facts, i, call)
  {
    var all := facts + [x];
    forall j ensures Claims(all, j, call) <==> Claims(facts, j, call) || (j == |facts| && Claims(all, j, call)) {
      ClaimsSnoc(facts, x, j, call);
    }
  }

  lemma {:induction false} ClaimedLast(facts: seq<Fact>, i: nat, call: CallId) returns (last: nat)
    requires Claims(facts, i, call)
    ensures LastClaims(facts, last, call)
    decreases |facts| - i
  {
    last := i;
    if j :| i < j < |facts| && Claims(facts, j, call) {
      last := ClaimedLast(facts, j, call);
    }
  }

  /** The last claim is what the list of toolUseIds says. */
  lemma {:induction false} ToolUseIs(facts: seq<Fact>, call: CallId)
    ensures (forall i :: !Claims(facts, i, call)) ==> ToolUseLink(MapsOf(facts).toolUse, call) == None
    ensures forall i :: LastClaims(facts, i, call) ==> ToolUseLink(MapsOf(facts).toolUse, call) == Some(facts[i].sub)
  {
    if facts != [] {
      var init, x := facts[..|facts| - 1], facts[|facts| - 1];
      assert facts == init + [x];
      ToolUseIs(init, call);
      LinkSnoc(init, x, call);
      forall i ensures Claims(init, i, call) ==> Claims(facts, i, call) {
        ClaimsSnoc(init, x, i, call);
      }
      ClaimsSnoc(init, x, |init|, call);
      if x.Found? {
        MetadataIs(init, x.sub);
      }
      forall i | LastClaims(facts, i, call) ensures ToolUseLink(MapsOf(facts).toolUse, call) == Some(facts[i].sub) {
        LastClaimsSnoc(init, x, i, call);
      }
    }
  }

  lemma ResultsSnoc(facts: seq<Fact>, x: Fact, call: CallId)
    ensures var r, r' := MapsOf(facts).results, MapsOf(facts + [x]).results;
      r' == if x.Heard? && x.call !in r then r[x.call := x.sub] else r
  {
    assert (facts + [x])[..|facts|] == facts;
    if x.Heard? {
      var r := MapsOf(facts).results;
      var batch := [Result(x.call, x.sub)];
      assert batch[1..] == [];
      assert Accumulated(r, batch) == Accumulated(if x.call in r then r else r[x.call := x.sub], []);
    }
  }

  /** The first tool_result heard for a call is the one that is kept. */
  lemma {:induction false} ResultsAre(facts: seq<Fact>, call: CallId)
    ensures call in MapsOf(facts).results <==> exists k :: FirstHeard(facts, k, call)
    ensures forall k :: FirstHeard(facts, k, call) ==>
        call in MapsOf(facts).results && MapsOf(facts).results[call] == facts[k].sub
  {
    if facts != [] {
      var init, x := facts[..|facts| - 1], facts[|facts| - 1];
      assert facts == init + [x];
      ResultsAre(init, call);
      ResultsSnoc(init, x, call);
      forall k ensures FirstHeard(facts, k, call) <==> FirstHeard(init, k, call) || HeardNow(init, x, k, call) {
        FirstHeardSnoc(init, x, k, call);
      }
      if x.Heard? && x.call == call && call !in MapsOf(init).results {
        assert HeardNow(init, x, |init|, call);
      }
    }
  }

  ghost predicate HeardNow(facts: seq<Fact>, x: Fact, k: int, call: CallId) {
    k == |facts| && x.Heard? && x.call == call && call !in MapsOf(facts).results
  }

  lemma {:induction false} FirstHeardSnoc(facts: seq<Fact>, x: Fact, k: int, call: CallId)
    requires call in MapsOf(facts).results <==> exists j :: FirstHeard(facts, j, call)
    ensures FirstHeard(facts + [x], k, call) <==> FirstHeard(facts, k, call) || HeardNow(facts, x, k, call)
  {
    var all := facts + [x];
    assert forall j :: 0 <= j < |facts| ==> all[j] == facts[j];
    if k == |facts| && x.Heard? && x.call == call {
      if j :| 0 <= j < |facts| && facts[j].Heard? && facts[j].call == call {
        var first := HeardFirst(facts, j);
      }
    }
  }

  lemma {:induction false} HeardFirst(facts: seq<Fact>, j: nat) returns (first: nat)
    requires j < |facts| && facts[j].Heard?
    ensures first <= j && FirstHeard(facts, first, facts[j].call)
  {
    first := j;
    if i :| 0 <= i < j && facts[i].Heard? && facts[i].call == facts[j].call {
      first := HeardFirst(facts, i);
    }
  }

  lemma LookupIs(facts: seq<Fact>, sub: SubId, meta: Metadata)
    ensures Lookup(MapsOf(facts).metadata, sub) == Some(meta) <==> NamedMeta(facts, sub, meta)
  {
    MetadataIs(facts, sub);
    MetadataIs(facts, "agent-" + sub);
    var found := MapsOf(facts).metadata;
    if sub in found {
      assert HasMeta(facts, sub, found[sub]);
    }
  }

  /** A toolUseId decides. */
  lemma ClaimDecides(facts: seq<Fact>, i: int, call: CallId, meta: Metadata)
    requires Named(facts) && LastClaims(facts, i, call)
    ensures MetadataFor(MapsOf(facts), call) == Some(meta) <==> facts[i].meta == meta
    ensures KnownFor(facts, call, meta) <==> facts[i].meta == meta
  {
    ToolUseIs(facts, call);
    MetadataIs(facts, facts[i].sub);
    assert HasMeta(facts, facts[i].sub, facts[i].meta);
  }

  lemma ResultDecides(facts: seq<Fact>, call: CallId, meta: Metadata)
    requires forall i :: !Claims(facts, i, call)
    ensures MetadataFor(MapsOf(facts), call) == Some(meta) <==> KnownFor(facts, call, meta)
  {
    ToolUseIs(facts, call);
    ResultsAre(facts, call);
    if call in MapsOf(facts).results {
      var k :| FirstHeard(facts, k, call);
      LookupIs(facts, facts[k].sub, meta);
    }
  }

  /** The metadata the watcher's maps give for a call is exactly what was found and heard of it. */
  lemma MetadataIsKnown(facts: seq<Fact>, call: CallId, meta: Metadata)
    requires Named(facts)
    ensures MetadataFor(MapsOf(facts), call) == Some(meta) <==> KnownFor(facts, call, meta)
  {
    if i :| Claims(facts, i, call) {
      var last := ClaimedLast(facts, i, call);
      ClaimDecides(facts, last, call, meta);
    } else {
      ResultDecides(facts, call, meta);
    }
  }

  // ---------------------------------------------------------------- what enriching attaches

  /** An Agent call gets what is known for it, if anything, and keeps what it had otherwise; other calls are
      left alone. */
  ghost predicate Attaches(facts: seq<Fact>, was: Call, now: Call) {
    && now.id == was.id && now.isAgent == was.isAgent
    && (forall meta :: was.isAgent && KnownFor(facts, was.id, meta) ==> now.metadata == Some(meta))
    && ((forall meta :: !KnownFor(facts, was.id, meta)) || !was.isAgent ==> now.metadata == was.metadata)
  }

  lemma EnrichAttaches(facts: seq<Fact>, calls: seq<Call>, i: nat)
    requires Named(facts) && i < |calls|
    ensures Attaches(facts, calls[i], Enrich(MapsOf(facts), calls)[i])
  {
    forall meta ensures MetadataFor(MapsOf(facts), calls[i].id) == Some(meta) <==> KnownFor(facts, calls[i].id, meta) {
      MetadataIsKnown(facts, calls[i].id, meta);
    }
    if MetadataFor(MapsOf(facts), calls[i].id).Some? {
      assert KnownFor(facts, calls[i].id, MetadataFor(MapsOf(facts), calls[i].id).value);
    }
  }

  ghost predicate AttachesAll(facts: seq<Fact>, was: seq<Call>, now: seq<Call>) {
    |now| == |was| && forall i :: 0 <= i < |was| ==> Attaches(facts, was[i], now[i])
  }

  /** What enriching attaches is exactly what was found and heard. */
  lemma EnrichAttachesAll(facts: seq<Fact>, calls: seq<Call>)
    requires Named(facts)
    ensures AttachesAll(facts, calls, Enrich(MapsOf(facts), calls))
  {
    forall i | 0 <= i < |calls| ensures Attaches(facts, calls[i], Enrich(MapsOf(facts), calls)[i]) {
      EnrichAttaches(facts, calls, i);
    }
  }

  // ---------------------------------------------------------------- a batch of results

  function HeardAll(batch: seq<Result>): (r: seq<Fact>)
    ensures |r| == |batch|
  {
    seq(|batch|, i requires 0 <= i < |batch| => Heard(batch[i].call, batch[i].sub))
  }

  lemma {:induction false} AccumulatedSnoc(results: map<CallId, SubId>, batch: seq<Result>, x: Result)
    ensures Accumulated(results, batch + [x]) == Accumulated(Accumulated(results, batch), [x])
    decreases |batch|
  {
    if batch == [] {
      assert [] + [x] == [x];
    } else {
      assert (batch + [x])[1..] == batch[1..] + [x];
      AccumulatedSnoc(if batch[0].call in results then results else results[batch[0].call := batch[0].sub],
                      batch[1..], x);
    }
  }

  lemma {:induction false} LearnedIsHeard(facts: seq<Fact>, batch: seq<Result>)
    ensures MapsOf(facts + HeardAll(batch)) == Learned(MapsOf(facts), batch)
    ensures Named(facts) ==> Named(facts + HeardAll(batch))
    decreases |batch|
  {
    if batch == [] {
      assert facts + HeardAll(batch) == facts;
    } else {
      var init, x := batch[..|batch| - 1], batch[|batch| - 1];
      assert batch == init + [x];
      LearnedIsHeard(facts, init);
      AccumulatedSnoc(MapsOf(facts).results, init, x);
      var all := facts + HeardAll(batch);
      assert all == (facts + HeardAll(init)) + [Heard(x.call, x.sub)];
      assert all[..|all| - 1] == facts + HeardAll(init);
    }
  }
}
