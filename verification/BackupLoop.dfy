/**
 The backup tick loop over time (libs/host_backup/src/host_backup/runner.py, lines 49 to 161 and 496 to 501).

 Time is real. What the loop reads from outside in one turn, the clock included, is an `Env`.
*/
module BackupLoop {
  import opened Common

  datatype Config = Config(gap: real, poll: real, interval: real)

  const DEFAULT_POLL := 15.0

  datatype Load = Loaded(config: Config) | Unreadable

  /** How a tick ends: it returns, or it raises and the loop wakes again after its recovery sleep. */
  datatype Outcome = Finishes(end: real) | Raises(raisedAt: real, wakeAt: real)

  /** One turn: the config file, the two mtimes, when the decision is taken, how a tick would go, and when
      an idle sleep would be over; or an error before the decision. */
  datatype Env =
    | Turn(load: Load, backupMtime: Option<real>, envMtime: Option<real>, checkAt: real, outcome: Outcome,
        idleUntil: real)
    | Fails(failLoad: Load, failedAt: real, recoveredAt: real)

  datatype State = State(backupMtime: Option<real>, envMtime: Option<real>, lastTickEnd: Option<real>,
                         lastKnown: Option<Config>)

  const FRESH := State(None, None, None, None)

  /** A tick that was started, by which config, and when it returned or raised. */
  datatype Attempt = Attempt(config: Config, start: real, stop: real, raised: bool)

  function MaxReal(a: real, b: real): real {
    if a < b then b else a
  }

  /** _safe_load_config: the config to use, which is also the last known one. */
  function Known(s: State, load: Load): Option<Config> {
    match load
    case Loaded(c) => Some(c)
    case Unreadable => s.lastKnown
  }

  /** _max_safe_gap */
  function MaxSafeGap(known: Option<Config>): real {
    match known
    case None => DEFAULT_POLL
    case Some(c) => MaxReal(c.gap, c.poll)
  }

  predicate Changed(now: Option<real>, seen: Option<real>) {
    now.Some? && seen.Some? && now != seen
  }

  datatype Reason = NoConfig | Startup | MinGapNotElapsed | ConfigChange | Interval | IntervalNotElapsed

  /** _should_tick_now, branch by branch. */
  function Decision(s: State, config: Option<Config>, backupMtime: Option<real>, envMtime: Option<real>,
                    now: real): (bool, Reason) {
    if config.None? then (false, NoConfig)
    else if s.lastTickEnd.None? then (true, Startup)
    else
      var elapsed := now - s.lastTickEnd.value;
      if elapsed < config.value.gap then (false, MinGapNotElapsed)
      else if Changed(backupMtime, s.backupMtime) then (true, ConfigChange)
      else if Changed(envMtime, s.envMtime) then (true, ConfigChange)
      else if elapsed >= config.value.interval then (true, Interval)
      else (false, IntervalNotElapsed)
  }

  /** A tick is due exactly if there is a config and either no tick has finished yet, or the gap has passed
      and a file changed or the interval has passed too. */
  lemma TickIsDueIff(s: State, config: Option<Config>, backupMtime: Option<real>, envMtime: Option<real>, now: real)
    ensures Decision(s, config, backupMtime, envMtime, now).0 <==>
            config.Some? && (s.lastTickEnd.None?
                             || (now >= s.lastTickEnd.value + config.value.gap
                                 && (Changed(backupMtime, s.backupMtime) || Changed(envMtime, s.envMtime)
                                     || now >= s.lastTickEnd.value + config.value.interval)))
  {}

  function IdleSleep(config: Option<Config>): real {
    match config
    case None => DEFAULT_POLL
    case Some(c) => c.poll
  }

  predicate Ticks(s: State, e: Env) {
    e.Turn? && Decision(s, Known(s, e.load), e.backupMtime, e.envMtime, e.checkAt).0
  }

  /** _service_iteration with the handler around it: the next state, when the next turn begins, and the
      tick attempted, if any. */
  function Iterate(s: State, e: Env): (State, real, Option<Attempt>) {
    match e
    case Fails(load, _, recoveredAt) => (s.(lastKnown := Known(s, load)), recoveredAt, None)
    case Turn(load, backupMtime, envMtime, checkAt, outcome, idleUntil) =>
      var config := Known(s, load);
      if !Decision(s, config, backupMtime, envMtime, checkAt).0 || config.None?
          then (s.(lastKnown := config), idleUntil, None)
      else
        match outcome
        case Finishes(end) =>
          (State(backupMtime, envMtime, Some(end), config), end, Some(Attempt(config.value, checkAt, end, false)))
        case Raises(raisedAt, wakeAt) =>
          (State(backupMtime, envMtime, s.lastTickEnd, config), wakeAt,
              Some(Attempt(config.value, checkAt, raisedAt, true)))
  }

  /** The clock does not go back and no sleep is cut short. */
  predicate Timely(s: State, now: real, e: Env) {
    match e
    case Fails(load, failedAt, recoveredAt) => now <= failedAt && failedAt + MaxSafeGap(Known(s, load)) <= recoveredAt
    case Turn(load, _, _, checkAt, outcome, idleUntil) =>
      && now <= checkAt && checkAt + IdleSleep(Known(s, load)) <= idleUntil
      && match outcome
         case Finishes(end) => checkAt <= end
         case Raises(raisedAt, wakeAt) => checkAt <= raisedAt && raisedAt + MaxSafeGap(Known(s, load)) <= wakeAt
  }

  // ---------------------------------------------------------------- runs

  /** The loop in progress: its state, the time, and the attempts so far. */
  datatype Loop = Loop(state: State, now: real, attempts: seq<Attempt>)

  function Next(l: Loop, e: Env): Loop {
    var r := Iterate(l.state, e);
    Loop(r.0, r.1, l.attempts + if r.2.Some? then [r.2.value] else [])
  }

  predicate AllTimely(l: Loop, envs: seq<Env>)
    decreases |envs|
  {
    envs != [] ==> Timely(l.state, l.now, envs[0]) && AllTimely(Next(l, envs[0]), envs[1..])
  }

  function Run(l: Loop, envs: seq<Env>): Loop
    decreases |envs|
  {
    if envs == [] then l else Run(Next(l, envs[0]), envs[1..])
  }

  function Begin(now: real): Loop {
    Loop(FRESH, now, [])
  }

  /** `b` follows `a`: no sooner than b's gap after a tick that returned, and no sooner than a's gap and a
      poll after one that raised. */
  predicate Spaced(a: Attempt, b: Attempt) {
    a.start <= a.stop && a.stop + (if a.raised then MaxReal(a.config.gap, a.config.poll) else b.config.gap) <= b.start
  }

  ghost predicate Inv(l: Loop) {
    && (forall i :: 0 <= i < |l.attempts| - 1 ==> Spaced(l.attempts[i], l.attempts[i + 1]))
    && (l.attempts != [] ==>
          var last := l.attempts[|l.attempts| - 1];
          && last.start <= last.stop <= l.now
          && (!last.raised ==> l.state.lastTickEnd == Some(last.stop))
          && (last.raised ==> last.stop + MaxReal(last.config.gap, last.config.poll) <= l.now))
  }

  /** Sleeps are not negative. */
  predicate Sane(e: Env) {
    (e.Turn? && e.load.Loaded? ==> e.load.config.poll >= 0.0 && e.load.config.gap >= 0.0)
    && (e.Fails? && e.failLoad.Loaded? ==> e.failLoad.config.poll >= 0.0 && e.failLoad.config.gap >= 0.0)
  }

  predicate SaneState(s: State) {
    s.lastKnown.Some? ==> s.lastKnown.value.poll >= 0.0 && s.lastKnown.value.gap >= 0.0
  }

  lemma NextKeeps(l: Loop, e: Env)
    requires Inv(l) && Timely(l.state, l.now, e) && Sane(e) && SaneState(l.state)
    ensures Inv(Next(l, e)) && SaneState(Next(l, e).state) && l.now <= Next(l, e).now
  {
    var l' := Next(l, e);
    if |l'.attempts| > |l.attempts| && l.attempts != [] {
      var n := |l.attempts| - 1;
      assert Spaced(l'.attempts[n], l'.attempts[n + 1]);
    }
  }

  lemma {:induction false} RunKeeps(l: Loop, envs: seq<Env>)
    requires Inv(l) && AllTimely(l, envs) && SaneState(l.state) && forall e :: e in envs ==> Sane(e)
    ensures Inv(Run(l, envs)) && SaneState(Run(l, envs).state)
    decreases |envs|
  {
    if envs != [] {
      NextKeeps(l, envs[0]);
      RunKeeps(Next(l, envs[0]), envs[1..]);
    }
  }

  /** Over every run, whatever the config files say from turn to turn: successive tick attempts keep their
      distance, whether ticks return or raise. */
  lemma AttemptsAreSpaced(now: real, envs: seq<Env>, i: nat)
    requires AllTimely(Begin(now), envs) && forall e :: e in envs ==> Sane(e)
    requires i + 1 < |Run(Begin(now), envs).attempts|
    ensures var attempts := Run(Begin(now), envs).attempts; Spaced(attempts[i], attempts[i + 1])
  {
    RunKeeps(Begin(now), envs);
  }

  // ---------------------------------------------------------------- what the loop remembers

  function LoadOf(e: Env): Load {
    match e
    case Turn(load, _, _, _, _, _) => load
    case Fails(load, _, _) => load
  }

  /** The config file could last be read in turn `n`, and said `c`. */
  ghost predicate LastLoaded(envs: seq<Env>, n: int, c: Config) {
    && 0 <= n < |envs| && LoadOf(envs[n]) == Loaded(c)
    && forall m :: n < m < |envs| ==> LoadOf(envs[m]).Unreadable?
  }

  /** Turn `n` of the run attempts a tick. */
  ghost predicate TicksAt(now: real, envs: seq<Env>, n: int)
    requires 0 <= n < |envs|
  {
    Ticks(Run(Begin(now), envs[..n]).state, envs[n])
  }

  /** The last attempt was that of turn `n`. */
  ghost predicate LastTick(now: real, envs: seq<Env>, n: int) {
    0 <= n < |envs| && TicksAt(now, envs, n) && forall m :: n < m < |envs| ==> !TicksAt(now, envs, m)
  }

  /** The last attempt that returned was that of turn `n`. */
  ghost predicate LastReturn(now: real, envs: seq<Env>, n: int) {
    && 0 <= n < |envs| && TicksAt(now, envs, n) && envs[n].outcome.Finishes?
    && forall m :: n < m < |envs| ==> !(TicksAt(now, envs, m) && envs[m].outcome.Finishes?)
  }

  lemma {:induction false} RunSnoc(l: Loop, envs: seq<Env>, e: Env)
    ensures Run(l, envs + [e]) == Next(Run(l, envs), e)
    decreases |envs|
  {
    if envs == [] {
      assert [] + [e] == [e] && [e][1..] == [];
    } else {
      assert (envs + [e])[1..] == envs[1..] + [e];
      RunSnoc(Next(l, envs[0]), envs[1..], e);
    }
  }

  /** What the loop knows is what it saw: the config last read, the mtimes of the last attempt, and the end of
      the last attempt that returned. */
  ghost predicate Remembers(now: real, envs: seq<Env>, s: State) {
    && (forall n, c :: LastLoaded(envs, n, c) ==> s.lastKnown == Some(c))
    && ((forall n :: 0 <= n < |envs| ==> LoadOf(envs[n]).Unreadable?) ==> s.lastKnown == None)
    && (forall n :: LastTick(now, envs, n) ==> s.backupMtime == envs[n].backupMtime && s.envMtime == envs[n].envMtime)
    && (forall n :: LastReturn(now, envs, n) ==> s.lastTickEnd == Some(envs[n].outcome.end))
    && ((forall n :: 0 <= n < |envs| ==> !(TicksAt(now, envs, n) && envs[n].outcome.Finishes?)) ==>
          s.lastTickEnd == None)
  }

  /** An earlier turn is as it was; the new one comes after it. */
  lemma TicksBefore(now: real, init: seq<Env>, e: Env, m: nat)
    requires m < |init|
    ensures (init + [e])[m] == init[m] && (TicksAt(now, init + [e], m) <==> TicksAt(now, init, m))
  {
    assert (init + [e])[..m] == init[..m];
  }

  lemma TicksNow(now: real, init: seq<Env>, e: Env)
    ensures (init + [e])[|init|] == e && (TicksAt(now, init + [e], |init|) <==> Ticks(Run(Begin(now), init).state, e))
  {
    assert (init + [e])[..|init|] == init;
  }

  lemma LoadedBefore(init: seq<Env>, e: Env, n: int, c: Config)
    requires n != |init|
    ensures LastLoaded(init + [e], n, c) <==> LastLoaded(init, n, c) && LoadOf(e).Unreadable?
  {
    assert (init + [e])[|init|] == e && forall m :: 0 <= m < |init| ==> (init + [e])[m] == init[m];
  }

  lemma TickBefore(now: real, init: seq<Env>, e: Env, n: int)
    requires n != |init|
    ensures LastTick(now, init + [e], n) <==> LastTick(now, init, n) && !Ticks(Run(Begin(now), init).state, e)
  {
    TicksNow(now, init, e);
    forall m | 0 <= m < |init| ensures TicksAt(now, init + [e], m) <==> TicksAt(now, init, m) {
      TicksBefore(now, init, e, m);
    }
  }

  lemma ReturnBefore(now: real, init: seq<Env>, e: Env, n: int)
    requires n != |init|
    ensures LastReturn(now, init + [e], n)
       <==> LastReturn(now, init, n) && !(Ticks(Run(Begin(now), init).state, e) && e.outcome.Finishes?)
  {
    TicksNow(now, init, e);
    forall m | 0 <= m < |init|
        ensures (init + [e])[m] == init[m] && (TicksAt(now, init + [e], m) <==> TicksAt(now, init, m)) {
      TicksBefore(now, init, e, m);
    }
  }

  lemma RemembersConfig(init: seq<Env>, e: Env, known: Option<Config>, known': Option<Config>)
    requires forall n, c :: LastLoaded(init, n, c) ==> known == Some(c)
    requires (forall n :: 0 <= n < |init| ==> LoadOf(init[n]).Unreadable?) ==> known == None
    requires known' == if LoadOf(e).Loaded? then Some(LoadOf(e).config) else known
    ensures forall n, c :: LastLoaded(init + [e], n, c) ==> known' == Some(c)
    ensures (forall n :: 0 <= n < |init + [e]| ==> LoadOf((init + [e])[n]).Unreadable?) ==> known' == None
  {
    var envs := init + [e];
    assert envs[|init|] == e && forall m :: 0 <= m < |init| ==> envs[m] == init[m];
    forall n, c | LastLoaded(envs, n, c) ensures known' == Some(c) {
      if n != |init| {
        LoadedBefore(init, e, n, c);
      }
    }
  }

  lemma RemembersTick(now: real, init: seq<Env>, e: Env, s: State, s': State)
    requires s == Run(Begin(now), init).state && s' == Iterate(s, e).0
    requires forall n :: LastTick(now, init, n) ==>
        s.backupMtime == init[n].backupMtime && s.envMtime == init[n].envMtime
    ensures forall n :: LastTick(now, init + [e], n) ==>
        s'.backupMtime == (init + [e])[n].backupMtime && s'.envMtime == (init + [e])[n].envMtime
  {
    TicksNow(now, init, e);
    forall n | LastTick(now, init + [e], n)
        ensures s'.backupMtime == (init + [e])[n].backupMtime && s'.envMtime == (init + [e])[n].envMtime {
      if n != |init| {
        TickBefore(now, init, e, n);
        TicksBefore(now, init, e, n);
      }
    }
  }

  lemma RemembersReturn(now: real, init: seq<Env>, e: Env, s: State, s': State)
    requires s == Run(Begin(now), init).state && s' == Iterate(s, e).0
    requires forall n :: LastReturn(now, init, n) ==> s.lastTickEnd == Some(init[n].outcome.end)
    requires (forall n :: 0 <= n < |init| ==> !(TicksAt(now, init, n) && init[n].outcome.Finishes?)) ==>
        s.lastTickEnd == None
    ensures forall n :: LastReturn(now, init + [e], n) ==> s'.lastTickEnd == Some((init + [e])[n].outcome.end)
    ensures (forall n :: 0 <= n < |init + [e]| ==>
        !(TicksAt(now, init + [e], n) && (init + [e])[n].outcome.Finishes?)) ==> s'.lastTickEnd == None
  {
    var envs := init + [e];
    TicksNow(now, init, e);
    forall m | 0 <= m < |init| ensures envs[m] == init[m] && (TicksAt(now, envs, m) <==> TicksAt(now, init, m)) {
      TicksBefore(now, init, e, m);
    }
    forall n | LastReturn(now, envs, n) ensures s'.lastTickEnd == Some(envs[n].outcome.end) {
      if n != |init| {
        ReturnBefore(now, init, e, n);
      }
    }
    if forall n :: 0 <= n < |envs| ==> !(TicksAt(now, envs, n) && envs[n].outcome.Finishes?) {
      assert !(TicksAt(now, envs, |init|) && envs[|init|].outcome.Finishes?);
      forall n | 0 <= n < |init| ensures !(TicksAt(now, init, n) && init[n].outcome.Finishes?) {
        assert !(TicksAt(now, envs, n) && envs[n].outcome.Finishes?);
      }
    }
  }

  lemma RemembersMore(now: real, init: seq<Env>, e: Env, s: State)
    requires s == Run(Begin(now), init).state && Remembers(now, init, s)
    ensures Remembers(now, init + [e], Iterate(s, e).0)
  {
    var s' := Iterate(s, e).0;
    RemembersConfig(init, e, s.lastKnown, s'.lastKnown);
    RemembersTick(now, init, e, s, s');
    RemembersReturn(now, init, e, s, s');
  }

  /** Over every run the loop remembers exactly what it saw. */
  lemma {:induction false} EveryRunRemembers(now: real, envs: seq<Env>)
    ensures Remembers(now, envs, Run(Begin(now), envs).state)
  {
    if envs != [] {
      var init, e := envs[..|envs| - 1], envs[|envs| - 1];
      assert envs == init + [e];
      EveryRunRemembers(now, init);
      RunSnoc(Begin(now), init, e);
      RemembersMore(now, init, e, Run(Begin(now), init).state);
    }
  }

  /** Between one decision and the next there is a poll, or the default one while no config has been read;
      after a turn that failed, the gap if that is longer. */
  lemma TurnsAreApart(l: Loop, e: Env)
    requires Timely(l.state, l.now, e) && !Ticks(l.state, e)
    ensures var known, now := Known(l.state, LoadOf(e)), Next(l, e).now;
      && (e.Turn? ==> now >= e.checkAt + if known.Some? then known.value.poll else 15.0)
      && (e.Fails? && known.Some? ==> now >= e.failedAt + known.value.poll && now >= e.failedAt + known.value.gap)
      && (e.Fails? && known.None? ==> now >= e.failedAt + 15.0)
  {}

  /** As long as no attempt has returned, a turn attempts a tick exactly if some config has been read. */
  lemma FirstTicksAsHistorySays(now: real, envs: seq<Env>, e: Env)
    requires e.Turn? && forall n :: 0 <= n < |envs| ==> !(TicksAt(now, envs, n) && envs[n].outcome.Finishes?)
    ensures TicksAt(now, envs + [e], |envs|) <==> e.load.Loaded? || exists n, c :: LastLoaded(envs, n, c)
  {
    TicksNow(now, envs, e);
    EveryRunRemembers(now, envs);
    if !exists n, c :: LastLoaded(envs, n, c) {
      NothingLoaded(envs);
    }
  }

  lemma {:induction false} NothingLoaded(envs: seq<Env>)
    requires forall n, c :: !LastLoaded(envs, n, c)
    ensures forall n :: 0 <= n < |envs| ==> LoadOf(envs[n]).Unreadable?
  {
    if envs != [] {
      var init, last := envs[..|envs| - 1], envs[|envs| - 1];
      assert envs == init + [last];
      if LoadOf(last).Loaded? {
        assert LastLoaded(envs, |init|, LoadOf(last).config);
      }
      forall n, c ensures !LastLoaded(init, n, c) {
        if n != |init| {
          LoadedBefore(init, last, n, c);
        }
      }
      NothingLoaded(init);
    }
  }

  /** The file was there both times, and its mtime is another. */
  predicate Differ(now: Option<real>, before: Option<real>) {
    now.Some? && before.Some? && now.value != before.value
  }

  /** So a turn attempts a tick exactly if, under the config last read, the gap since the last attempt that
      returned is over, and a file has changed since the last attempt or the interval is over too. */
  lemma TicksAsHistorySays(now: real, envs: seq<Env>, e: Env, c: Config, tick: nat, done: nat)
    requires e.Turn? && LastTick(now, envs, tick) && LastReturn(now, envs, done)
    requires exists n :: LastLoaded(envs + [e], n, c)
    ensures var end := envs[done].outcome.end;
      TicksAt(now, envs + [e], |envs|) <==>
        && e.checkAt >= end + c.gap
        && (Differ(e.backupMtime, envs[tick].backupMtime) || Differ(e.envMtime, envs[tick].envMtime)
            || e.checkAt >= end + c.interval)
  {
    var all, s := envs + [e], Run(Begin(now), envs).state;
    assert all[..|envs|] == envs && all[|envs|] == e;
    EveryRunRemembers(now, envs);
    var n :| LastLoaded(all, n, c);
    if n < |envs| {
      LoadedBefore(envs, e, n, c);
    }
    assert Known(s, e.load) == Some(c);
    TickIsDueIff(s, Some(c), e.backupMtime, e.envMtime, e.checkAt);
  }

  // ---------------------------------------------------------------- under one config

  /** The config file always reads the same, no turn fails before its decision, and neither the decision
      nor waking from an idle sleep takes longer than `slack`. */
  predicate Steady(l: Loop, envs: seq<Env>, c: Config, slack: real)
    decreases |envs|
  {
    envs != [] ==>
      && envs[0].Turn? && envs[0].load == Loaded(c)
      && envs[0].checkAt <= l.now + slack && envs[0].idleUntil <= envs[0].checkAt + c.poll + slack
      && Steady(Next(l, envs[0]), envs[1..], c, slack)
  }

  /** Since a tick ended at `end`, no later than `due` after it plus a poll. */
  ghost predicate Waiting(l: Loop, n: nat, end: real, c: Config, slack: real) {
    |l.attempts| == n && l.state.lastTickEnd == Some(end) && l.now <= end + MaxReal(c.interval, c.gap) + c.poll + slack
  }

  lemma {:induction false} NextTickIsInTime(l: Loop, envs: seq<Env>, c: Config, slack: real, end: real)
    requires Steady(l, envs, c, slack) && Waiting(l, |l.attempts|, end, c, slack) && slack >= 0.0
    ensures var r := Run(l, envs);
      if |r.attempts| > |l.attempts|
      then r.attempts[|l.attempts|].start <= end + MaxReal(c.interval, c.gap) + c.poll + slack + slack
      else Waiting(r, |l.attempts|, end, c, slack)
    decreases |envs|
  {
    if envs != [] {
      var l' := Next(l, envs[0]);
      if Ticks(l.state, envs[0]) {
        RunExtends(l', envs[1..]);
      } else {
        NextTickIsInTime(l', envs[1..], c, slack, end);
      }
    }
  }

  lemma {:induction false} RunExtends(l: Loop, envs: seq<Env>)
    ensures l.attempts <= Run(l, envs).attempts
    decreases |envs|
  {
    if envs != [] {
      RunExtends(Next(l, envs[0]), envs[1..]);
    }
  }

  /** Under one config, after a tick that returned: the next one starts no sooner than the gap and no later
      than the longer of interval and gap, plus one poll (and the slack of a check and a sleep); as long as
      none has started, that time is not over. */
  lemma TickSpacingUnderOneConfig(now: real, before: seq<Env>, after: seq<Env>, c: Config, slack: real)
    requires AllTimely(Begin(now), before) && (forall e :: e in before ==> Sane(e))
        && (forall e :: e in after ==> Sane(e))
    requires c.poll >= 0.0 && slack >= 0.0 && c.gap >= 0.0
    requires var l := Run(Begin(now), before);
      && l.attempts != [] && !l.attempts[|l.attempts| - 1].raised && l.now == l.attempts[|l.attempts| - 1].stop
      && AllTimely(l, after) && Steady(l, after, c, slack)
    ensures var l, r := Run(Begin(now), before), Run(Run(Begin(now), before), after);
      var n, end := |l.attempts|, l.attempts[|l.attempts| - 1].stop;
      if |r.attempts| > n
      then r.attempts[n].config == c && end + c.gap <= r.attempts[n].start <= end + MaxReal(c.interval, c.gap) + c.poll
          + slack + slack
      else r.now <= end + MaxReal(c.interval, c.gap) + c.poll + slack
  {
    var l := Run(Begin(now), before);
    RunKeeps(Begin(now), before);
    var n, end := |l.attempts|, l.attempts[|l.attempts| - 1].stop;
    NextTickIsInTime(l, after, c, slack, end);
    var r := Run(l, after);
    if |r.attempts| > n {
      RunKeeps(l, after);
      RunExtends(l, after);
      assert r.attempts[n - 1] == l.attempts[n - 1];
      assert Spaced(r.attempts[n - 1], r.attempts[n - 1 + 1]);
      SteadyConfig(l, after, c, slack);
    }
  }

  lemma {:induction false} SteadyConfig(l: Loop, envs: seq<Env>, c: Config, slack: real)
    requires Steady(l, envs, c, slack)
    ensures forall i :: |l.attempts| <= i < |Run(l, envs).attempts| ==> Run(l, envs).attempts[i].config == c
    decreases |envs|
  {
    if envs != [] {
      SteadyConfig(Next(l, envs[0]), envs[1..], c, slack);
      RunExtends(Next(l, envs[0]), envs[1..]);
    }
  }

  /** The two files keep the given mtimes. */
  predicate FilesStay(envs: seq<Env>, backupMtime: Option<real>, envMtime: Option<real>) {
    forall e :: e in envs && e.Turn? ==> e.backupMtime == backupMtime && e.envMtime == envMtime
  }

  /** The last tick that returned did so at `end`, and the mtimes are those last looked at. */
  ghost predicate UsedUp(s: State, backupMtime: Option<real>, envMtime: Option<real>, end: real) {
    s.backupMtime == backupMtime && s.envMtime == envMtime && s.lastTickEnd == Some(end)
  }

  /** Without a change, a tick is due exactly at the later of gap and interval. */
  lemma UnchangedIsDueIff(s: State, e: Env, end: real)
    requires e.Turn? && UsedUp(s, e.backupMtime, e.envMtime, end)
    ensures var known := Known(s, e.load);
      Ticks(s, e) <==> known.Some? && e.checkAt >= end + MaxReal(known.value.gap, known.value.interval)
  {
    TickIsDueIff(s, Known(s, e.load), e.backupMtime, e.envMtime, e.checkAt);
  }

  /** While the files stay as they are, the next attempt waits for the later of gap and interval. */
  lemma {:induction false} UsedUpWaits(l: Loop, envs: seq<Env>, backupMtime: Option<real>, envMtime: Option<real>,
                                       end: real)
    requires UsedUp(l.state, backupMtime, envMtime, end) && FilesStay(envs, backupMtime, envMtime)
    ensures var n, r := |l.attempts|, Run(l, envs);
      |r.attempts| > n ==>
        r.attempts[n].start >= end + MaxReal(r.attempts[n].config.gap, r.attempts[n].config.interval)
    decreases |envs|
  {
    if envs != [] {
      var e, l' := envs[0], Next(l, envs[0]);
      if Ticks(l.state, e) {
        UnchangedIsDueIff(l.state, e, end);
        RunExtends(l', envs[1..]);
      } else {
        UsedUpWaits(l', envs[1..], backupMtime, envMtime, end);
      }
    }
  }

  /** A tick that raises has used up the change that set it off: over every run in which the files then stay
      as they are, whatever the config says from turn to turn, no tick is attempted before the later of gap
      and interval since the last tick that returned. */
  lemma RaisedChangeTickWaits(l: Loop, e: Env, envs: seq<Env>)
    requires e.Turn? && Ticks(l.state, e) && e.outcome.Raises? && l.state.lastTickEnd.Some?
    requires FilesStay(envs, e.backupMtime, e.envMtime)
    ensures var n, r, end := |l.attempts| + 1, Run(Next(l, e), envs), l.state.lastTickEnd.value;
      |r.attempts| > n ==>
        r.attempts[n].start >= end + MaxReal(r.attempts[n].config.gap, r.attempts[n].config.interval)
  {
    UsedUpWaits(Next(l, e), envs, e.backupMtime, e.envMtime, l.state.lastTickEnd.value);
  }

  /** Some turn takes its decision at `due` or later. */
  predicate ReachesTime(envs: seq<Env>, due: real) {
    exists e :: e in envs && e.Turn? && e.checkAt >= due
  }

  lemma {:induction false} UsedUpIsRetriedIff(l: Loop, envs: seq<Env>, c: Config, backupMtime: Option<real>,
                                              envMtime: Option<real>, end: real)
    requires UsedUp(l.state, backupMtime, envMtime, end) && FilesStay(envs, backupMtime, envMtime)
    requires forall e :: e in envs ==> e.Turn? && e.load == Loaded(c)
    ensures |Run(l, envs).attempts| > |l.attempts| <==> ReachesTime(envs, end + MaxReal(c.gap, c.interval))
    decreases |envs|
  {
    if envs != [] {
      var e, l' := envs[0], Next(l, envs[0]);
      UnchangedIsDueIff(l.state, e, end);
      if Ticks(l.state, e) {
        RunExtends(l', envs[1..]);
      } else {
        UsedUpIsRetriedIff(l', envs[1..], c, backupMtime, envMtime, end);
      }
    }
  }

  /** And under one config it is attempted again exactly if some turn takes its decision at that time or later. */
  lemma RaisedChangeTickIsRetriedIff(l: Loop, e: Env, envs: seq<Env>, c: Config)
    requires e.Turn? && Ticks(l.state, e) && e.outcome.Raises? && l.state.lastTickEnd.Some?
    requires FilesStay(envs, e.backupMtime, e.envMtime) && forall e' :: e' in envs ==> e'.Turn? && e'.load == Loaded(c)
    ensures |Run(Next(l, e), envs).attempts| > |l.attempts| + 1
       <==> ReachesTime(envs, l.state.lastTickEnd.value + MaxReal(c.gap, c.interval))
  {
    UsedUpIsRetriedIff(Next(l, e), envs, c, e.backupMtime, e.envMtime, l.state.lastTickEnd.value);
  }

  // ---------------------------------------------------------------- the loop's fields

  class LoopState {
    var lastBackupTomlMtime: Option<real>
    var lastResticEnvMtime: Option<real>
    var lastTickEndMonotonic: Option<real>
    var lastKnownConfig: Option<Config>

    constructor ()
      ensures View() == FRESH
    {
      lastBackupTomlMtime, lastResticEnvMtime, lastTickEndMonotonic, lastKnownConfig := None, None, None, None;
    }

    function View(): State
      reads this
    {
      State(lastBackupTomlMtime, lastResticEnvMtime, lastTickEndMonotonic, lastKnownConfig)
    }

    method SafeLoadConfig(load: Load) returns (config: Option<Config>)
      modifies this`lastKnownConfig
      ensures config == Known(old(View()), load) && View() == old(View()).(lastKnown := config)
    {
      match load {
        case Unreadable => config := lastKnownConfig;
        case Loaded(c) =>
          lastKnownConfig := Some(c);
          config := Some(c);
      }
    }

    /** One turn of the loop; `now` is when the next one begins. */
    method ServiceIteration(e: Env) returns (now: real, attempt: Option<Attempt>)
      modifies this
      ensures (View(), now, attempt) == Iterate(old(View()), e)
    {
      match e {
        case Fails(load, failedAt, recoveredAt) =>
          var ignored := SafeLoadConfig(load);
          return recoveredAt, None;
        case Turn(load, backupMtime, envMtime, checkAt, outcome, idleUntil) =>
          var config := SafeLoadConfig(load);
          var decision := Decision(View(), config, backupMtime, envMtime, checkAt);
          if !decision.0 {
            return idleUntil, None;
          }
          lastBackupTomlMtime := backupMtime;
          lastResticEnvMtime := envMtime;
          match outcome {
            case Finishes(end) =>
              lastTickEndMonotonic := Some(end);
              return end, Some(Attempt(config.value, checkAt, end, false));
            case Raises(raisedAt, wakeAt) =>
              return wakeAt, Some(Attempt(config.value, checkAt, raisedAt, true));
          }
      }
    }

    /** _run_loop, for as many turns as there are environments. */
    method RunLoop(envs: seq<Env>, start: real) returns (now: real, attempts: seq<Attempt>)
      requires View() == FRESH
      modifies this
      ensures Loop(View(), now, attempts) == Run(Begin(start), envs)
    {
      now, attempts := start, [];
      ghost var goal := Run(Begin(start), envs);
      ghost var l := Begin(start);
      var i := 0;
      assert envs[0..] == envs;
      while i < |envs|
        invariant 0 <= i <= |envs| && l == Loop(View(), now, attempts) && Run(l, envs[i..]) == goal
      {
        assert envs[i..][1..] == envs[i + 1..];
        l := Next(l, envs[i]);
        var attempt;
        now, attempt := ServiceIteration(envs[i]);
        if attempt.Some? {
          attempts := attempts + [attempt.value];
        }
        i := i + 1;
      }
    }
  }
}
