/**
 Per-agent event queues with replay (apps/system_interface/imbue/system_interface/event_queues.py).

 A queue is an identity; `puts[q]` is everything ever put into it, `None` being the shutdown sentinel.
 A broadcast stores under the lock and puts after releasing it: a `Flight` is such a broadcast with the
 queues it has still to serve.
 */
module EventQueues {
  import opened Common

  type AgentId = string
  type Event = string
  type QueueId = nat

  datatype Behavior = STORE | FLUSH | IGNORE

  datatype Registry = Registry(queues: map<AgentId, seq<QueueId>>, buffers: map<AgentId, seq<Event>>, isShutdown: bool,
                               puts: map<QueueId, seq<Option<Event>>>)

  function At<T>(m: map<AgentId, seq<T>>, a: AgentId): seq<T> {
    if a in m then m[a] else []
  }

  /** `BufferBehavior(...)`: no text means STORE, an unknown one is an error. */
  function BehaviorOf(text: Option<string>): Option<Behavior> {
    match text
    case None => Some(STORE)
    case Some(t) =>
      if t == "store" then Some(STORE) else if t == "ignore" then Some(IGNORE) else if t == "flush" then Some(FLUSH)
          else None
  }

  // ---------------------------------------------------------------- the locked sections

  function Register(r: Registry, a: AgentId, q: QueueId): Registry {
    if r.isShutdown then r.(puts := r.puts[q := [None]])
    else r.(puts := r.puts[q := Wrapped(At(r.buffers, a))], queues := r.queues[a := At(r.queues, a) + [q]])
  }

  function Unregister(r: Registry, a: AgentId, q: QueueId): Registry {
    if a !in r.queues then r
    else
      var left := Removed(r.queues[a], q);
      r.(queues := if left == [] then r.queues - {a} else r.queues[a := left])
  }

  function Stored(buffers: map<AgentId, seq<Event>>, a: AgentId, b: Behavior, e: Event): map<AgentId, seq<Event>> {
    match b
    case STORE => buffers[a := At(buffers, a) + [e]]
    case FLUSH => buffers - {a}
    case IGNORE => buffers
  }

  /** The locked part of broadcast; the puts to At(r.queues, a) come after. */
  function BroadcastLocked(r: Registry, a: AgentId, b: Behavior, e: Event): Registry {
    r.(buffers := Stored(r.buffers, a, b, e))
  }

  function Put(r: Registry, q: QueueId, e: Event): Registry
    requires q in r.puts
  {
    r.(puts := r.puts[q := r.puts[q] + [Some(e)]])
  }

  predicate Listed(r: Registry, q: QueueId) {
    exists a :: a in r.queues && q in r.queues[a]
  }

  ghost function Shutdown(r: Registry): Registry {
    Registry(map[], map[], true, map q | q in r.puts :: if Listed(r, q) then r.puts[q] + [None] else r.puts[q])
  }

  // ---------------------------------------------------------------- the system

  datatype Flight = Flight(agent: AgentId, event: Event, remaining: seq<QueueId>)

  /** Still open, or unregistered or ended by the shutdown when the agent's history was `at` long. */
  datatype Fate = Open | Left(at: nat) | Ended(at: nat)

  /** What the calls alone say about a queue: when in its agent's history it was registered, whether that
      was after the shutdown, and how it ended. Nothing here looks at the registry. */
  datatype Sub = Sub(agent: AgentId, late: bool, from: nat, fate: Fate)

  datatype System = System(
    reg: Registry,
    flights: seq<Flight>,
    subs: map<QueueId, Sub>,
    history: map<AgentId, seq<(Behavior, Event)>>,
    down: bool)

  datatype Step =
    | DoRegister(agent: AgentId, q: QueueId)
    | DoUnregister(agent: AgentId, q: QueueId)
    | DoBroadcast(agent: AgentId, behavior: Behavior, event: Event)
    | DoPut(flight: nat)
    | DoShutdown

  /** A new queue is a new identity; a flight that puts has a queue left to serve. */
  predicate Enabled(s: System, step: Step) {
    match step
    case DoRegister(_, q) => q !in s.reg.puts
    case DoPut(i) => i < |s.flights| && s.flights[i].remaining != [] && s.flights[i].remaining[0] in s.reg.puts
    case _ => true
  }

  function Joined(s: System, a: AgentId): Sub {
    var n := |At(s.history, a)|;
    Sub(a, s.down, n, if s.down then Ended(n) else Open)
  }

  function Parted(s: System, a: AgentId, q: QueueId): map<QueueId, Sub> {
    if q in s.subs && s.subs[q].agent == a && s.subs[q].fate.Open?
    then s.subs[q := s.subs[q].(fate := Left(|At(s.history, a)|))]
    else s.subs
  }

  function AllEnded(s: System): map<QueueId, Sub> {
    map q | q in s.subs ::
      if s.subs[q].fate.Open? then s.subs[q].(fate := Ended(|At(s.history, s.subs[q].agent)|)) else s.subs[q]
  }

  ghost function Next(s: System, step: Step): System
    requires Enabled(s, step)
  {
    match step
    case DoRegister(a, q) => s.(reg := Register(s.reg, a, q), subs := s.subs[q := Joined(s, a)])
    case DoUnregister(a, q) => s.(reg := Unregister(s.reg, a, q), subs := Parted(s, a, q))
    case DoBroadcast(a, b, e) =>
      s.(reg := BroadcastLocked(s.reg, a, b, e),
         flights := s.flights + [Flight(a, e, At(s.reg.queues, a))],
         history := s.history[a := At(s.history, a) + [(b, e)]])
    case DoPut(i) =>
      var f := s.flights[i];
      s.(reg := Put(s.reg, f.remaining[0], f.event),
         flights := s.flights[i := Flight(f.agent, f.event, f.remaining[1..])])
    case DoShutdown => s.(reg := Shutdown(s.reg), subs := AllEnded(s), down := true)
  }

  // ---------------------------------------------------------------- what is on its way

  /** The events in flight towards `q`, in the order broadcast. */
  function Pending(flights: seq<Flight>, q: QueueId): seq<Event> {
    if flights == [] then []
    else (if q in flights[0].remaining then [flights[0].event] else []) + Pending(flights[1..], q)
  }

  lemma {:induction false} PendingSnoc(flights: seq<Flight>, f: Flight, q: QueueId)
    ensures Pending(flights + [f], q) == Pending(flights, q) + if q in f.remaining then [f.event] else []
  {
    if flights == [] {
      assert flights + [f] == [f] && [f][1..] == [];
    } else {
      assert (flights + [f])[1..] == flights[1..] + [f];
      PendingSnoc(flights[1..], f, q);
    }
  }

  /** A put takes its event out of what is on its way to that queue, and to no other. */
  lemma {:induction false} PendingPut(flights: seq<Flight>, i: nat, q: QueueId)
    requires i < |flights| && flights[i].remaining != [] && Distinct(flights[i].remaining)
    ensures var f := flights[i];
      var after := flights[i := Flight(f.agent, f.event, f.remaining[1..])];
      && (q != f.remaining[0] ==> Pending(after, q) == Pending(flights, q))
      && (q == f.remaining[0] ==> multiset(Pending(after, q)) + multiset{f.event} == multiset(Pending(flights, q)))
  {
    var f := flights[i];
    var g := Flight(f.agent, f.event, f.remaining[1..]);
    assert f.remaining == [f.remaining[0]] + f.remaining[1..];
    if i == 0 {
      assert flights[0 := g][1..] == flights[1..];
    } else {
      PendingPut(flights[1..], i - 1, q);
      assert flights[i := g][1..] == flights[1..][i - 1 := g];
    }
  }

  lemma {:induction false} NothingPending(flights: seq<Flight>, q: QueueId)
    requires forall k :: 0 <= k < |flights| ==> q !in flights[k].remaining
    ensures Pending(flights, q) == []
  {
    if flights != [] {
      NothingPending(flights[1..], q);
    }
  }

  lemma {:induction false} OnlyOneFlight(flights: seq<Flight>, i: nat, q: QueueId)
    requires i < |flights| && q in flights[i].remaining
    requires forall k :: 0 <= k < |flights| && k != i ==> q !in flights[k].remaining
    ensures Pending(flights, q) == [flights[i].event]
  {
    if i == 0 {
      NothingPending(flights[1..], q);
    } else {
      OnlyOneFlight(flights[1..], i - 1, q);
    }
  }

  // ---------------------------------------------------------------- the account of one queue

  /** Replay first and in order; put plus on its way are, event for event, replay plus live. */
  ghost predicate Balanced(snapshot: seq<Event>, live: seq<Event>, given: seq<Event>, pending: seq<Event>) {
    snapshot <= given && multiset(given) + multiset(pending) == multiset(snapshot) + multiset(live)
  }

  lemma BalancedHears(snapshot: seq<Event>, live: seq<Event>, given: seq<Event>, pending: seq<Event>, e: Event)
    requires Balanced(snapshot, live, given, pending)
    ensures Balanced(snapshot, live + [e], given, pending + [e])
  {
    assert multiset(pending + [e]) == multiset(pending) + multiset([e]);
    assert multiset(live + [e]) == multiset(live) + multiset([e]);
    assert multiset(given) + multiset(pending + [e]) == (multiset(given) + multiset(pending)) + multiset([e]);
    assert multiset(snapshot) + multiset(live + [e]) == (multiset(snapshot) + multiset(live)) + multiset([e]);
  }

  lemma BalancedTakes(snapshot: seq<Event>, live: seq<Event>, given: seq<Event>, pending: seq<Event>, e: Event,
                      pending': seq<Event>)
    requires Balanced(snapshot, live, given, pending) && multiset(pending') + multiset{e} == multiset(pending)
    ensures Balanced(snapshot, live, given + [e], pending')
  {
    assert (given + [e])[..|snapshot|] == given[..|snapshot|];
  }

  lemma BalancedSettles(snapshot: seq<Event>, live: seq<Event>, given: seq<Event>)
    requires Balanced(snapshot, live, given, [])
    ensures multiset(given[|snapshot|..]) == multiset(live)
  {
    assert given == snapshot + given[|snapshot|..];
    forall e: Event ensures multiset(given[|snapshot|..])[e] == multiset(live)[e] {
      assert multiset(given)[e] == multiset(snapshot)[e] + multiset(given[|snapshot|..])[e];
      assert multiset(given) == multiset(snapshot) + multiset(live);
    }
  }

  /** In order: put, then on its way, is replay, then live. */
  predicate InOrder(snapshot: seq<Event>, live: seq<Event>, given: seq<Event>, pending: seq<Event>) {
    given + pending == snapshot + live
  }

  lemma InOrderHears(snapshot: seq<Event>, live: seq<Event>, given: seq<Event>, pending: seq<Event>, e: Event)
    requires InOrder(snapshot, live, given, pending)
    ensures InOrder(snapshot, live + [e], given, pending + [e])
  {
    assert given + (pending + [e]) == (given + pending) + [e];
    assert snapshot + (live + [e]) == (snapshot + live) + [e];
  }

  // ---------------------------------------------------------------- what a queue is owed

  /** What was stored since the last flush. */
  function StoredSinceFlush(history: seq<(Behavior, Event)>): seq<Event> {
    if history == [] then []
    else
      var before := StoredSinceFlush(history[..|history| - 1]);
      match history[|history| - 1].0
      case STORE => before + [history[|history| - 1].1]
      case FLUSH => []
      case IGNORE => before
  }

  function EventsOf(history: seq<(Behavior, Event)>): (events: seq<Event>)
    ensures |events| == |history|
  {
    seq(|history|, i requires 0 <= i < |history| => history[i].1)
  }

  /** How long the agent's history was when the queue stopped being subscribed; all of it so far if it still is. */
  function End(sub: Sub, history: seq<(Behavior, Event)>): nat {
    match sub.fate
    case Open => |history|
    case Left(at) => at
    case Ended(at) => at
  }

  predicate Placed(sub: Sub, history: seq<(Behavior, Event)>) {
    sub.from <= End(sub, history) <= |history| && (sub.late ==> sub.fate == Ended(sub.from))
  }

  /** What is replayed at registration. */
  function Replay(sub: Sub, history: seq<(Behavior, Event)>): seq<Event>
    requires Placed(sub, history)
  {
    if sub.late then [] else StoredSinceFlush(history[..sub.from])
  }

  /** What was broadcast to the agent while the queue was subscribed. */
  function Live(sub: Sub, history: seq<(Behavior, Event)>): seq<Event>
    requires Placed(sub, history)
  {
    EventsOf(history[sub.from..End(sub, history)])
  }

  lemma JoinedOwes(sub: Sub, history: seq<(Behavior, Event)>)
    requires sub.from == |history| && (if sub.late then sub.fate == Ended(|history|) else sub.fate.Open?)
    ensures Placed(sub, history) && Live(sub, history) == []
    ensures Replay(sub, history) == if sub.late then [] else StoredSinceFlush(history)
  {
    assert history[..|history|] == history;
  }

  lemma OwedGrows(sub: Sub, history: seq<(Behavior, Event)>, b: Behavior, e: Event)
    requires Placed(sub, history)
    ensures var history' := history + [(b, e)];
      && Placed(sub, history') && Replay(sub, history') == Replay(sub, history)
      && Live(sub, history') == if sub.fate.Open? then Live(sub, history) + [e] else Live(sub, history)
  {
    var history' := history + [(b, e)];
    assert history'[..sub.from] == history[..sub.from];
    if sub.fate.Open? {
      assert history'[sub.from..] == history[sub.from..] + [(b, e)];
    } else {
      assert history'[sub.from..End(sub, history)] == history[sub.from..End(sub, history)];
    }
  }

  // ---------------------------------------------------------------- the invariant

  ghost predicate SubPlaced(s: System, q: QueueId)
    requires q in s.subs
  {
    Placed(s.subs[q], At(s.history, s.subs[q].agent))
  }

  function ReplayOf(s: System, q: QueueId): seq<Event>
    requires q in s.subs && SubPlaced(s, q)
  {
    Replay(s.subs[q], At(s.history, s.subs[q].agent))
  }

  function LiveOf(s: System, q: QueueId): seq<Event>
    requires q in s.subs && SubPlaced(s, q)
  {
    Live(s.subs[q], At(s.history, s.subs[q].agent))
  }

  ghost function GivenTo(s: System, q: QueueId): seq<Event>
    requires q in s.reg.puts
  {
    Given(s.reg.puts[q])
  }

  ghost predicate Delivered(s: System, q: QueueId) {
    && q in s.subs && q in s.reg.puts && SubPlaced(s, q)
    && Balanced(ReplayOf(s, q), LiveOf(s, q), GivenTo(s, q), Pending(s.flights, q))
  }

  predicate Subscribed(s: System, q: QueueId, a: AgentId) {
    q in s.subs && s.subs[q].agent == a && s.subs[q].fate.Open?
  }

  /** A queue is listed for an agent exactly while it is subscribed to it, and once. */
  ghost predicate Lists(s: System) {
    && (forall a :: a in s.reg.queues ==> Distinct(s.reg.queues[a]))
    && (forall a, q :: q in At(s.reg.queues, a) <==> Subscribed(s, q, a))
    && s.reg.isShutdown == s.down
    && (s.down ==> forall q :: q in s.subs ==> !s.subs[q].fate.Open?)
  }

  ghost predicate FlightsKnown(s: System) {
    forall i :: 0 <= i < |s.flights| ==> FlightKnown(s, s.flights[i])
  }

  ghost predicate FlightKnown(s: System, f: Flight) {
    Distinct(f.remaining) && forall q :: q in f.remaining ==> q in s.subs && s.subs[q].agent == f.agent
  }

  /** One sentinel in each queue the shutdown ended, none in any other. */
  ghost predicate Sentinels(s: System) {
    forall q :: q in s.reg.puts && q in s.subs ==>
      multiset(s.reg.puts[q])[None] == if s.subs[q].fate.Ended? then 1 else 0
  }

  /** The buffer replays exactly what was stored since the last flush. */
  ghost predicate Replays(s: System) {
    !s.down ==> forall a :: At(s.reg.buffers, a) == StoredSinceFlush(At(s.history, a))
  }

  ghost predicate Tidy(s: System) {
    s.subs.Keys == s.reg.puts.Keys && Lists(s) && FlightsKnown(s) && Sentinels(s)
  }

  ghost predicate Inv(s: System) {
    Tidy(s) && Replays(s) && forall q :: q in s.subs ==> Delivered(s, q)
  }

  // ---------------------------------------------------------------- what every step keeps

  lemma RegisterLists(s: System, a: AgentId, q: QueueId)
    requires Tidy(s) && Enabled(s, DoRegister(a, q))
    ensures Lists(Next(s, DoRegister(a, q)))
  {
    var s' := Next(s, DoRegister(a, q));
    assert q !in At(s.reg.queues, a);
    forall b, p ensures p in At(s'.reg.queues, b) <==> Subscribed(s', p, b) {
      assert p in At(s.reg.queues, b) <==> Subscribed(s, p, b);
    }
  }

  lemma RegisterTidy(s: System, a: AgentId, q: QueueId)
    requires Tidy(s) && Enabled(s, DoRegister(a, q))
    ensures Tidy(Next(s, DoRegister(a, q)))
  {
    var s' := Next(s, DoRegister(a, q));
    RegisterLists(s, a, q);
    forall k | 0 <= k < |s.flights| ensures FlightKnown(s', s.flights[k]) {
      assert FlightKnown(s, s.flights[k]);
    }
    if !s.down {
      assert None !in s'.reg.puts[q];
    }
  }

  lemma NewQueue(s: System, a: AgentId, q: QueueId)
    requires Tidy(s) && Replays(s) && Enabled(s, DoRegister(a, q))
    ensures var s' := Next(s, DoRegister(a, q));
      && q in s'.subs && q in s'.reg.puts && SubPlaced(s', q)
      && GivenTo(s', q) == ReplayOf(s', q) && LiveOf(s', q) == [] && Pending(s'.flights, q) == []
  {
    forall k | 0 <= k < |s.flights| ensures q !in s.flights[k].remaining {
      assert FlightKnown(s, s.flights[k]);
    }
    NothingPending(s.flights, q);
    JoinedOwes(Joined(s, a), At(s.history, a));
    if s.down {
      var none: seq<Option<Event>> := [];
      GivenSnoc(none, None);
      assert none + [None] == [None];
    } else {
      GivenWrapped(At(s.reg.buffers, a));
    }
  }

  lemma UnregisterTidy(s: System, a: AgentId, q: QueueId)
    requires Tidy(s)
    ensures Tidy(Next(s, DoUnregister(a, q)))
  {
    var s' := Next(s, DoUnregister(a, q));
    if a in s.reg.queues {
      RemovedKeeps(s.reg.queues[a], q);
    }
    forall b, p ensures p in At(s'.reg.queues, b) <==> Subscribed(s', p, b) {
      assert p in At(s.reg.queues, b) <==> Subscribed(s, p, b);
    }
    forall k | 0 <= k < |s.flights| ensures FlightKnown(s', s.flights[k]) {
      assert FlightKnown(s, s.flights[k]);
    }
  }

  lemma BroadcastTidy(s: System, a: AgentId, b: Behavior, e: Event)
    requires Tidy(s)
    ensures Tidy(Next(s, DoBroadcast(a, b, e)))
  {
    var s' := Next(s, DoBroadcast(a, b, e));
    forall x, p ensures p in At(s'.reg.queues, x) <==> Subscribed(s', p, x) {
      assert p in At(s.reg.queues, x) <==> Subscribed(s, p, x);
    }
    forall k | 0 <= k < |s'.flights| ensures FlightKnown(s', s'.flights[k]) {
      if k < |s.flights| {
        assert FlightKnown(s, s.flights[k]);
      }
    }
  }

  lemma BroadcastReplays(s: System, a: AgentId, b: Behavior, e: Event)
    requires Replays(s)
    ensures Replays(Next(s, DoBroadcast(a, b, e)))
  {
    var s' := Next(s, DoBroadcast(a, b, e));
    var h := At(s.history, a);
    assert (h + [(b, e)])[..|h|] == h;
    if !s.down {
      assert At(s.reg.buffers, a) == StoredSinceFlush(h);
      forall x ensures At(s'.reg.buffers, x) == StoredSinceFlush(At(s'.history, x)) {
        if x != a {
          assert At(s'.reg.buffers, x) == At(s.reg.buffers, x);
        }
      }
    }
  }

  lemma PutTidy(s: System, i: nat)
    requires Tidy(s) && Enabled(s, DoPut(i))
    ensures Tidy(Next(s, DoPut(i)))
  {
    var s', f := Next(s, DoPut(i)), s.flights[i];
    assert FlightKnown(s, f);
    assert f.remaining == [f.remaining[0]] + f.remaining[1..];
    forall x, p ensures p in At(s'.reg.queues, x) <==> Subscribed(s', p, x) {
      assert p in At(s.reg.queues, x) <==> Subscribed(s, p, x);
    }
    forall k | 0 <= k < |s'.flights| ensures FlightKnown(s', s'.flights[k]) {
      if k != i {
        assert FlightKnown(s, s.flights[k]);
      }
    }
  }

  lemma ListedIffOpen(s: System, q: QueueId)
    requires Lists(s)
    ensures Listed(s.reg, q) <==> q in s.subs && s.subs[q].fate.Open?
  {
    if Listed(s.reg, q) {
      var a :| a in s.reg.queues && q in s.reg.queues[a];
      assert q in At(s.reg.queues, a);
    }
    if q in s.subs && s.subs[q].fate.Open? {
      assert Subscribed(s, q, s.subs[q].agent);
    }
  }

  lemma ShutdownTidy(s: System)
    requires Tidy(s)
    ensures Tidy(Next(s, DoShutdown))
  {
    var s' := Next(s, DoShutdown);
    forall k | 0 <= k < |s.flights| ensures FlightKnown(s', s.flights[k]) {
      assert FlightKnown(s, s.flights[k]);
    }
    forall q | q in s'.reg.puts && q in s'.subs
      ensures multiset(s'.reg.puts[q])[None] == if s'.subs[q].fate.Ended? then 1 else 0
    {
      ListedIffOpen(s, q);
      assert multiset(s.reg.puts[q])[None] == if s.subs[q].fate.Ended? then 1 else 0;
    }
  }

  lemma NextTidy(s: System, step: Step)
    requires Tidy(s) && Replays(s) && Enabled(s, step)
    ensures Tidy(Next(s, step)) && Replays(Next(s, step))
  {
    match step
    case DoRegister(a, q) => RegisterTidy(s, a, q);
    case DoUnregister(a, q) => UnregisterTidy(s, a, q);
    case DoBroadcast(a, b, e) => BroadcastTidy(s, a, b, e); BroadcastReplays(s, a, b, e);
    case DoPut(i) => PutTidy(s, i);
    case DoShutdown => ShutdownTidy(s);
  }

  // ---------------------------------------------------------------- the account over one step

  /** Every step but a put to `q` leaves what `q` was given; its live events and what is on its way grow together. */
  predicate Hears(s: System, step: Step, q: QueueId) {
    step.DoBroadcast? && Subscribed(s, q, step.agent)
  }

  lemma BroadcastPends(s: System, a: AgentId, b: Behavior, e: Event, q: QueueId)
    requires Tidy(s)
    ensures Pending(Next(s, DoBroadcast(a, b, e)).flights, q)
         == if Subscribed(s, q, a) then Pending(s.flights, q) + [e] else Pending(s.flights, q)
  {
    PendingSnoc(s.flights, Flight(a, e, At(s.reg.queues, a)), q);
    assert q in At(s.reg.queues, a) <==> Subscribed(s, q, a);
    ConcatNothing(Pending(s.flights, q));
  }

  lemma BroadcastHeard(s: System, a: AgentId, b: Behavior, e: Event, q: QueueId)
    requires Tidy(s) && q in s.subs && SubPlaced(s, q)
    ensures var s', heard := Next(s, DoBroadcast(a, b, e)), Subscribed(s, q, a);
      && SubPlaced(s', q) && ReplayOf(s', q) == ReplayOf(s, q)
      && LiveOf(s', q) == (if heard then LiveOf(s, q) + [e] else LiveOf(s, q))
      && Pending(s'.flights, q) == (if heard then Pending(s.flights, q) + [e] else Pending(s.flights, q))
  {
    BroadcastPends(s, a, b, e, q);
    if s.subs[q].agent == a {
      OwedGrows(s.subs[q], At(s.history, a), b, e);
    }
  }

  lemma StillOwed(s: System, step: Step, q: QueueId)
    requires Enabled(s, step) && !step.DoBroadcast? && q in s.subs && SubPlaced(s, q)
        && !(step.DoRegister? && step.q == q)
    ensures var s' := Next(s, step);
      q in s'.subs && SubPlaced(s', q) && ReplayOf(s', q) == ReplayOf(s, q) && LiveOf(s', q) == LiveOf(s, q)
  {
  }

  lemma ShutdownGives(s: System, q: QueueId)
    requires q in s.reg.puts
    ensures q in Next(s, DoShutdown).reg.puts && GivenTo(Next(s, DoShutdown), q) == GivenTo(s, q)
  {
    GivenSnoc(s.reg.puts[q], None);
  }

  /** What a step other than a put leaves as it was. */
  lemma Accounts(s: System, step: Step, q: QueueId)
    requires Tidy(s) && Enabled(s, step) && !step.DoPut? && q in s.subs && SubPlaced(s, q)
    ensures var s', heard := Next(s, step), Hears(s, step, q);
      && q in s'.subs && q in s'.reg.puts && SubPlaced(s', q) && ReplayOf(s', q) == ReplayOf(s, q)
      && LiveOf(s', q) == (if heard then LiveOf(s, q) + [step.event] else LiveOf(s, q))
      && Pending(s'.flights, q) == (if heard then Pending(s.flights, q) + [step.event] else Pending(s.flights, q))
      && GivenTo(s', q) == GivenTo(s, q)
  {
    if step.DoBroadcast? {
      BroadcastHeard(s, step.agent, step.behavior, step.event, q);
    } else {
      StillOwed(s, step, q);
      if step.DoShutdown? {
        ShutdownGives(s, q);
      }
    }
  }

  lemma PutDelivers(s: System, i: nat, q: QueueId)
    requires Tidy(s) && Enabled(s, DoPut(i)) && Delivered(s, q)
    ensures Delivered(Next(s, DoPut(i)), q)
  {
    var s', f := Next(s, DoPut(i)), s.flights[i];
    assert FlightKnown(s, f);
    PendingPut(s.flights, i, q);
    StillOwed(s, DoPut(i), q);
    if q == f.remaining[0] {
      GivenSnoc(s.reg.puts[q], Some(f.event));
      BalancedTakes(ReplayOf(s, q), LiveOf(s, q), GivenTo(s, q), Pending(s.flights, q), f.event,
          Pending(s'.flights, q));
    }
  }

  lemma NextDelivers(s: System, step: Step, q: QueueId)
    requires Inv(s) && Enabled(s, step) && q in Next(s, step).subs
    ensures Delivered(Next(s, step), q)
  {
    if step.DoRegister? && step.q == q {
      NewQueue(s, step.agent, q);
    } else {
      assert Delivered(s, q);
      if step.DoPut? {
        PutDelivers(s, step.flight, q);
      } else {
        Accounts(s, step, q);
        if Hears(s, step, q) {
          BalancedHears(ReplayOf(s, q), LiveOf(s, q), GivenTo(s, q), Pending(s.flights, q), step.event);
        }
      }
    }
  }

  lemma NextKeeps(s: System, step: Step)
    requires Inv(s) && Enabled(s, step)
    ensures Inv(Next(s, step))
  {
    NextTidy(s, step);
    forall q | q in Next(s, step).subs ensures Delivered(Next(s, step), q) {
      NextDelivers(s, step, q);
    }
  }

  // ---------------------------------------------------------------- runs

  const START := System(Registry(map[], map[], false, map[]), [], map[], map[], false)

  ghost predicate Possible(s: System, steps: seq<Step>)
    decreases |steps|
  {
    steps != [] ==> Enabled(s, steps[0]) && Possible(Next(s, steps[0]), steps[1..])
  }

  ghost function Run(s: System, steps: seq<Step>): System
    requires Possible(s, steps)
    decreases |steps|
  {
    if steps == [] then s else Run(Next(s, steps[0]), steps[1..])
  }

  lemma RunCons(s: System, step: Step, rest: seq<Step>)
    requires Enabled(s, step) && Possible(Next(s, step), rest)
    ensures Possible(s, [step] + rest) && Run(s, [step] + rest) == Run(Next(s, step), rest)
  {
    assert ([step] + rest)[1..] == rest;
  }

  lemma {:induction false} RunKeeps(s: System, steps: seq<Step>)
    requires Inv(s) && Possible(s, steps)
    ensures Inv(Run(s, steps))
    decreases |steps|
  {
    if steps != [] {
      NextKeeps(s, steps[0]);
      RunKeeps(Next(s, steps[0]), steps[1..]);
    }
  }

  /** Over every interleaving of locked sections and late puts, for a queue registered when its agent's
      history was `from` long: it starts with what was stored since the last flush before `from`; it is
      listed exactly while it is subscribed; and once nothing is on its way to it, it has got each event
      of the history from `from` to its end exactly as often as it was broadcast, and nothing else. */
  lemma ReplayThenLiveExactlyOnce(steps: seq<Step>, q: QueueId)
    requires Possible(START, steps) && q in Run(START, steps).subs
    ensures var s := Run(START, steps);
      var sub := s.subs[q];
      var h := At(s.history, sub.agent);
      && q in s.reg.puts && sub.from <= End(sub, h) <= |h|
      && (forall a :: q in At(s.reg.queues, a) <==> a == sub.agent && sub.fate.Open?)
      && var replay := if sub.late then [] else StoredSinceFlush(h[..sub.from]);
      && replay <= GivenTo(s, q)
      && (Pending(s.flights, q) == [] ==>
            multiset(GivenTo(s, q)[|replay|..]) == multiset(EventsOf(h[sub.from..End(sub, h)])))
      && multiset(s.reg.puts[q])[None] == if sub.fate.Ended? then 1 else 0
  {
    RunKeeps(START, steps);
    var s := Run(START, steps);
    assert Delivered(s, q);
    if Pending(s.flights, q) == [] {
      BalancedSettles(ReplayOf(s, q), LiveOf(s, q), GivenTo(s, q));
    }
    forall a ensures q in At(s.reg.queues, a) <==> a == s.subs[q].agent && s.subs[q].fate.Open? {
      assert q in At(s.reg.queues, a) <==> Subscribed(s, q, a);
    }
  }

  // ---------------------------------------------------------------- order

  ghost predicate QueueInOrder(s: System, q: QueueId) {
    && q in s.subs && q in s.reg.puts && SubPlaced(s, q)
    && InOrder(ReplayOf(s, q), LiveOf(s, q), GivenTo(s, q), Pending(s.flights, q))
  }

  /** A put to `q` is of the first event on its way to `q`. */
  ghost predicate InTurn(s: System, step: Step, q: QueueId)
    requires Enabled(s, step)
  {
    step.DoPut? && s.flights[step.flight].remaining[0] == q ==>
      [s.flights[step.flight].event] + Pending(Next(s, step).flights, q) == Pending(s.flights, q)
  }

  lemma InOrderTakesIff(snapshot: seq<Event>, live: seq<Event>, given: seq<Event>, pending: seq<Event>, e: Event,
                        pending': seq<Event>)
    requires InOrder(snapshot, live, given, pending)
    ensures InOrder(snapshot, live, given + [e], pending') <==> [e] + pending' == pending
  {
    assert given + [e] + pending' == given + ([e] + pending');
    SplitConcat(given, [e] + pending');
    SplitConcat(given, pending);
  }

  lemma PutKeepsOrderIff(s: System, i: nat, q: QueueId)
    requires Tidy(s) && Enabled(s, DoPut(i)) && QueueInOrder(s, q)
    ensures QueueInOrder(Next(s, DoPut(i)), q) <==> InTurn(s, DoPut(i), q)
  {
    var s', f := Next(s, DoPut(i)), s.flights[i];
    assert FlightKnown(s, f);
    StillOwed(s, DoPut(i), q);
    if q == f.remaining[0] {
      GivenSnoc(s.reg.puts[q], Some(f.event));
      InOrderTakesIff(ReplayOf(s, q), LiveOf(s, q), GivenTo(s, q), Pending(s.flights, q), f.event,
          Pending(s'.flights, q));
    } else {
      PendingPut(s.flights, i, q);
    }
  }

  /** The one step that can break the order is a put out of turn, and it always does. */
  lemma StepKeepsOrderIff(s: System, step: Step, q: QueueId)
    requires Tidy(s) && Enabled(s, step) && QueueInOrder(s, q)
    ensures QueueInOrder(Next(s, step), q) <==> InTurn(s, step, q)
  {
    if step.DoPut? {
      PutKeepsOrderIff(s, step.flight, q);
    } else {
      Accounts(s, step, q);
      if Hears(s, step, q) {
        InOrderHears(ReplayOf(s, q), LiveOf(s, q), GivenTo(s, q), Pending(s.flights, q), step.event);
      }
    }
  }

  ghost predicate AlwaysInOrder(s: System, steps: seq<Step>, q: QueueId)
    requires Possible(s, steps)
    decreases |steps|
  {
    QueueInOrder(s, q) && (steps != [] ==> AlwaysInOrder(Next(s, steps[0]), steps[1..], q))
  }

  ghost predicate AlwaysInTurn(s: System, steps: seq<Step>, q: QueueId)
    requires Possible(s, steps)
    decreases |steps|
  {
    steps != [] ==> InTurn(s, steps[0], q) && AlwaysInTurn(Next(s, steps[0]), steps[1..], q)
  }

  lemma {:induction false} RunInOrderIff(s: System, steps: seq<Step>, q: QueueId)
    requires Tidy(s) && Replays(s) && QueueInOrder(s, q) && Possible(s, steps)
    ensures AlwaysInOrder(s, steps, q) <==> AlwaysInTurn(s, steps, q)
    decreases |steps|
  {
    if steps != [] {
      StepKeepsOrderIff(s, steps[0], q);
      NextTidy(s, steps[0]);
      if InTurn(s, steps[0], q) {
        RunInOrderIff(Next(s, steps[0]), steps[1..], q);
      } else {
        assert !QueueInOrder(Next(s, steps[0]), q);
      }
    }
  }

  /** From its registration on, a queue stays in order (given, then on its way, is replay, then live) over
      a run exactly if every put to it is of the first event on its way to it. */
  lemma OrderKeptIff(before: seq<Step>, a: AgentId, q: QueueId, steps: seq<Step>)
    requires Possible(START, before) && Enabled(Run(START, before), DoRegister(a, q))
    requires Possible(Next(Run(START, before), DoRegister(a, q)), steps)
    ensures var s := Next(Run(START, before), DoRegister(a, q));
      AlwaysInOrder(s, steps, q) <==> AlwaysInTurn(s, steps, q)
  {
    RunKeeps(START, before);
    var s0 := Run(START, before);
    NewQueue(s0, a, q);
    NextTidy(s0, DoRegister(a, q));
    RunInOrderIff(Next(s0, DoRegister(a, q)), steps, q);
  }

  // ---------------------------------------------------------------- one producer per agent

  /** No broadcast of an agent starts while another of the same agent still has puts to do. */
  predicate Alone(s: System, step: Step) {
    step.DoBroadcast? ==> forall i :: 0 <= i < |s.flights| && s.flights[i].agent == step.agent ==>
        s.flights[i].remaining == []
  }

  ghost predicate OneAtATime(s: System) {
    forall i, j :: 0 <= i < j < |s.flights| && s.flights[i].agent == s.flights[j].agent
      ==> s.flights[i].remaining == [] || s.flights[j].remaining == []
  }

  ghost predicate Ordered(s: System) {
    Tidy(s) && Replays(s) && OneAtATime(s) && forall q :: q in s.subs ==> QueueInOrder(s, q)
  }

  lemma OnlyFlightTo(s: System, i: nat, q: QueueId)
    requires Tidy(s) && OneAtATime(s) && i < |s.flights| && q in s.flights[i].remaining
    ensures forall k :: 0 <= k < |s.flights| && k != i ==> q !in s.flights[k].remaining
  {
    assert FlightKnown(s, s.flights[i]);
    forall k | 0 <= k < |s.flights| && k != i ensures q !in s.flights[k].remaining {
      assert FlightKnown(s, s.flights[k]);
    }
  }

  lemma OneAtATimeIsInTurn(s: System, step: Step, q: QueueId)
    requires Tidy(s) && OneAtATime(s) && Enabled(s, step)
    ensures InTurn(s, step, q)
  {
    if step.DoPut? && s.flights[step.flight].remaining[0] == q {
      var i, s' := step.flight, Next(s, step);
      var f := s.flights[i];
      assert FlightKnown(s, f);
      OnlyFlightTo(s, i, q);
      OnlyOneFlight(s.flights, i, q);
      assert f.remaining == [q] + f.remaining[1..];
      NothingPending(s'.flights, q);
    }
  }

  lemma NextInOrder(s: System, step: Step, q: QueueId)
    requires Ordered(s) && Enabled(s, step) && q in Next(s, step).subs
    ensures QueueInOrder(Next(s, step), q)
  {
    if step.DoRegister? && step.q == q {
      NewQueue(s, step.agent, q);
    } else {
      assert QueueInOrder(s, q);
      OneAtATimeIsInTurn(s, step, q);
      StepKeepsOrderIff(s, step, q);
    }
  }

  lemma NextOneAtATime(s: System, step: Step)
    requires OneAtATime(s) && Enabled(s, step) && Alone(s, step)
    ensures OneAtATime(Next(s, step))
  {}

  lemma NextOrdered(s: System, step: Step)
    requires Ordered(s) && Enabled(s, step) && Alone(s, step)
    ensures Ordered(Next(s, step))
  {
    NextTidy(s, step);
    NextOneAtATime(s, step);
    forall q | q in Next(s, step).subs ensures QueueInOrder(Next(s, step), q) {
      NextInOrder(s, step, q);
    }
  }

  ghost predicate SingleProducer(s: System, steps: seq<Step>)
    requires Possible(s, steps)
    decreases |steps|
  {
    steps != [] ==> Alone(s, steps[0]) && SingleProducer(Next(s, steps[0]), steps[1..])
  }

  lemma {:induction false} RunOrdered(s: System, steps: seq<Step>)
    requires Ordered(s) && Possible(s, steps) && SingleProducer(s, steps)
    ensures Ordered(Run(s, steps))
    decreases |steps|
  {
    if steps != [] {
      NextOrdered(s, steps[0]);
      RunOrdered(Next(s, steps[0]), steps[1..]);
    }
  }

  /** With one producer per agent, what a queue was given, then what is on its way, is what was stored
      since the last flush before its registration, and then the agent's later events, in order. */
  lemma SingleProducerKeepsOrder(steps: seq<Step>, q: QueueId)
    requires Possible(START, steps) && SingleProducer(START, steps) && q in Run(START, steps).subs
    ensures var s := Run(START, steps);
      var sub := s.subs[q];
      var h := At(s.history, sub.agent);
      && q in s.reg.puts && sub.from <= End(sub, h) <= |h|
      && GivenTo(s, q) + Pending(s.flights, q)
         == (if sub.late then [] else StoredSinceFlush(h[..sub.from])) + EventsOf(h[sub.from..End(sub, h)])
  {
    RunOrdered(START, steps);
    assert QueueInOrder(Run(START, steps), q);
  }

  /** Two threads have broadcast for one agent and neither has put yet. */
  function Overlapping(a: AgentId, q: QueueId, e0: Event, e1: Event): System {
    System(
      Registry(map[a := [q]], map[], false, map[q := []]),
      [Flight(a, e0, [q]), Flight(a, e1, [q])],
      map[q := Sub(a, false, 0, Open)],
      map[a := [(IGNORE, e0), (IGNORE, e1)]],
      false)
  }

  lemma OverlappingIsReached(a: AgentId, q: QueueId, e0: Event, e1: Event)
    ensures var steps := [DoRegister(a, q), DoBroadcast(a, IGNORE, e0), DoBroadcast(a, IGNORE, e1)];
      Possible(START, steps) && Run(START, steps) == Overlapping(a, q, e0, e1)
  {
    var s1 := System(Registry(map[a := [q]], map[], false, map[q := []]), [], map[q := Sub(a, false, 0, Open)], map[],
        false);
    assert Wrapped<Event>([]) == [] && [] + [q] == [q];
    assert Register(START.reg, a, q) == s1.reg;
    assert Next(START, DoRegister(a, q)) == s1;
    var s2 := s1.(flights := [Flight(a, e0, [q])], history := map[a := [(IGNORE, e0)]]);
    assert [] + [Flight(a, e0, [q])] == [Flight(a, e0, [q])] && [] + [(IGNORE, e0)] == [(IGNORE, e0)];
    assert Next(s1, DoBroadcast(a, IGNORE, e0)) == s2;
    assert [(IGNORE, e0)] + [(IGNORE, e1)] == [(IGNORE, e0), (IGNORE, e1)];
    assert Next(s2, DoBroadcast(a, IGNORE, e1)) == Overlapping(a, q, e0, e1);
    RunCons(s2, DoBroadcast(a, IGNORE, e1), []);
    RunCons(s1, DoBroadcast(a, IGNORE, e0), [DoBroadcast(a, IGNORE, e1)]);
    RunCons(START, DoRegister(a, q), [DoBroadcast(a, IGNORE, e0), DoBroadcast(a, IGNORE, e1)]);
  }

  /** The thread that broadcast second puts first: the events arrive the other way round. */
  lemma OverlappingMaySwap(a: AgentId, q: QueueId, e0: Event, e1: Event)
    ensures var s, steps := Overlapping(a, q, e0, e1), [DoPut(1), DoPut(0)];
      Possible(s, steps) && GivenTo(Run(s, steps), q) == [e1, e0] && Pending(Run(s, steps).flights, q) == []
  {
    var s := Overlapping(a, q, e0, e1);
    assert [q][1..] == [];
    var s1 := Next(s, DoPut(1));
    assert s1.flights == [Flight(a, e0, [q]), Flight(a, e1, [])] && s1.reg.puts[q] == [Some(e1)];
    var s2 := Next(s1, DoPut(0));
    assert s2.flights == [Flight(a, e0, []), Flight(a, e1, [])] && s2.reg.puts[q] == Wrapped([e1, e0]);
    RunCons(s1, DoPut(0), []);
    RunCons(s, DoPut(1), [DoPut(0)]);
    GivenWrapped([e1, e0]);
    NothingPending(s2.flights, q);
  }

  // ---------------------------------------------------------------- the registry and its loops

  class AgentEventQueues {
    var queues: map<AgentId, seq<QueueId>>
    var eventBuffers: map<AgentId, seq<Event>>
    var isShutdown: bool
    /** What was put into each queue, in order. */
    var puts: map<QueueId, seq<Option<Event>>>

    constructor ()
      ensures View() == START.reg
    {
      queues, eventBuffers, isShutdown, puts := map[], map[], false, map[];
    }

    function View(): Registry
      reads this
    {
      Registry(queues, eventBuffers, isShutdown, puts)
    }

    /** register, for a queue object not seen before. */
    method RegisterQueue(agentId: AgentId, q: QueueId)
      requires q !in puts
      modifies this
      ensures View() == Register(old(View()), agentId, q)
    {
      puts := puts[q := []];
      if isShutdown {
        puts := puts[q := puts[q] + [None]];
        assert puts[q] == [None];
        assert puts == old(puts)[q := [None]];
        return;
      }
      var buffered := At(eventBuffers, agentId);
      var i := 0;
      while i < |buffered|
        modifies this`puts
        invariant 0 <= i <= |buffered| && puts == old(puts)[q := Wrapped(buffered[..i])]
      {
        assert Wrapped(buffered[..i + 1]) == Wrapped(buffered[..i]) + [Some(buffered[i])];
        puts := puts[q := puts[q] + [Some(buffered[i])]];
        i := i + 1;
      }
      assert buffered[..i] == buffered;
      queues := queues[agentId := At(queues, agentId) + [q]];
    }

    method UnregisterQueue(agentId: AgentId, q: QueueId)
      modifies this`queues
      ensures View() == Unregister(old(View()), agentId, q)
      ensures At(queues, agentId) == Removed(At(old(queues), agentId), q)
      ensures agentId in queues ==> queues[agentId] != []
      ensures forall a :: a != agentId ==> At(queues, a) == At(old(queues), a) && (a in queues <==> a in old(queues))
    {
      if agentId in queues {
        queues := queues[agentId := Removed(queues[agentId], q)];
        if queues[agentId] == [] {
          queues := queues - {agentId};
        }
      }
    }

    /** The locked section of broadcast: which queues are to be served once the lock is released. */
    method BroadcastUnderLock(agentId: AgentId, behavior: Behavior, event: Event) returns (targets: seq<QueueId>)
      modifies this`eventBuffers
      ensures View() == BroadcastLocked(old(View()), agentId, behavior, event) && targets == At(queues, agentId)
    {
      match behavior {
        case STORE =>
          if agentId !in eventBuffers {
            eventBuffers := eventBuffers[agentId := []];
          }
          eventBuffers := eventBuffers[agentId := eventBuffers[agentId] + [event]];
        case FLUSH => eventBuffers := eventBuffers - {agentId};
        case IGNORE =>
      }
      targets := At(queues, agentId);
    }

    /** broadcast, up to the release of the lock; `text` is the event's buffer behaviour, if it has one. An
        unknown one raises before anything is touched: no targets at all. */
    method Broadcast(agentId: AgentId, text: Option<string>, event: Event) returns (targets: Option<seq<QueueId>>)
      modifies this`eventBuffers
      ensures targets == if text.None? || text.value in ["store", "ignore", "flush"] then Some(At(queues, agentId))
          else None
      ensures text.None? || text.value == "store" ==>
          eventBuffers == old(eventBuffers)[agentId := At(old(eventBuffers), agentId) + [event]]
      ensures text == Some("flush") ==> eventBuffers == old(eventBuffers) - {agentId}
      ensures text.Some? && text.value != "store" && text.value != "flush" ==> eventBuffers == old(eventBuffers)
      ensures BehaviorOf(text).None? ==> targets.None? && View() == old(View())
      ensures BehaviorOf(text).Some? ==>
        targets == Some(At(queues, agentId)) && View()
            == BroadcastLocked(old(View()), agentId, BehaviorOf(text).value, event)
    {
      var behavior := BehaviorOf(text);
      if behavior.None? {
        return None;
      }
      var listed := BroadcastUnderLock(agentId, behavior.value, event);
      targets := Some(listed);
    }

    /** The puts of one broadcast, one after the other. */
    method PutAll(targets: seq<QueueId>, event: Event)
      requires Distinct(targets) && forall q :: q in targets ==> q in puts
      modifies this`puts
      ensures puts.Keys == old(puts).Keys
      ensures forall q :: q in puts ==> puts[q] == if q in targets then old(puts)[q] + [Some(event)] else old(puts)[q]
    {
      var i := 0;
      while i < |targets|
        modifies this`puts
        invariant 0 <= i <= |targets| && puts.Keys == old(puts).Keys
        invariant forall q :: q in puts ==>
            puts[q] == if q in targets[..i] then old(puts)[q] + [Some(event)] else old(puts)[q]
      {
        PrefixMembers(targets, i);
        puts := puts[targets[i] := puts[targets[i]] + [Some(event)]];
        i := i + 1;
      }
      assert targets[..i] == targets;
    }

    method ShutDown()
      requires forall a, q :: a in queues && q in queues[a] ==> q in puts
      requires forall a :: a in queues ==> Distinct(queues[a])
      requires forall a, b, q :: a in queues && b in queues && q in queues[a] && q in queues[b] ==> a == b
      modifies this
      ensures View() == Shutdown(old(View()))
      ensures queues == map[] && eventBuffers == map[] && isShutdown
    {
      isShutdown := true;
      var rest := queues.Keys;
      while rest != {}
        modifies this`puts
        invariant rest <= queues.Keys && puts.Keys == old(puts).Keys
        invariant forall q :: q in puts ==>
            puts[q] == if ListedOutside(rest, q) then old(puts)[q] + [None] else old(puts)[q]
      {
        var a :| a in rest;
        SentinelEach(queues[a]);
        rest := rest - {a};
      }
      queues, eventBuffers := map[], map[];
    }

    ghost predicate ListedOutside(rest: set<AgentId>, q: QueueId)
      reads this`queues
    {
      exists a :: a in queues && a !in rest && q in queues[a]
    }

    method SentinelEach(targets: seq<QueueId>)
      requires Distinct(targets) && forall q :: q in targets ==> q in puts
      modifies this`puts
      ensures puts.Keys == old(puts).Keys
      ensures forall q :: q in puts ==> puts[q] == if q in targets then old(puts)[q] + [None] else old(puts)[q]
    {
      var i := 0;
      while i < |targets|
        modifies this`puts
        invariant 0 <= i <= |targets| && puts.Keys == old(puts).Keys
        invariant forall q :: q in puts ==> puts[q] == if q in targets[..i] then old(puts)[q] + [None] else old(puts)[q]
      {
        PrefixMembers(targets, i);
        puts := puts[targets[i] := puts[targets[i]] + [None]];
        i := i + 1;
      }
      assert targets[..i] == targets;
    }
  }
}
