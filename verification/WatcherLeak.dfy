/**
 Two runs at whose end the body cache is visible (session_watcher.py, lines 633 to 658). In the first,
 one file's line answers a call another file's line has already answered, differently; both bodies are
 evicted; re-reading the second line then puts its answer in the cache under the id the first line owns.
 In the second, a call is read after its result: cached, the result does not know its tool's name;
 re-read, it does.
 */
module WatcherLeak {
  import opened Common
  import opened SessionParser
  import opened LineSplitter
  import opened BodyCache
  import opened WatcherModel
  import opened WatcherRefresh
  import opened WatcherEmission
  import opened WatcherBodies
  import opened WatcherRuns

  const CAPACITY := 2

  /** One byte of text and a newline. */
  predicate IsShortLine(line: Bytes) {
    |line| == 2 && line[0] != NEWLINE && line[1] == NEWLINE
  }

  /** A line that on its own yields `events` and names the tools `names`. */
  ghost predicate Alone(json: Json, s: SessionId, line: Bytes, events: seq<Event>, names: map<string, string>) {
    IsShortLine(line) && Fresh(Decode(json, line), map[], s) == Parsed(events, Ids(events), names)
  }

  ghost predicate Plain(json: Json, s: SessionId, line: Bytes, events: seq<Event>) {
    Alone(json, s, line, events, map[])
  }

  lemma ShortLineIsCut(json: Json, w: Watch, s: SessionId, file: Bytes, line: Bytes)
    requires s in w.files && w.files[s].consumed <= |file| && file[w.files[s].consumed..] == line && IsShortLine(line)
    ensures Complete(json, w.files[s], file) == line
    ensures LinesToParse(json, w, s, file) == [Span(w.files[s].consumed, 2, line)]
  {
    AfterLastNewlineIs(line, 2, 2);
    FirstNewlineFromIs(line, 0, 1);
    assert SpansFrom(line, 2, w.files[s].consumed) == [];
    assert line[0..2] == line;
  }

  lemma OneLineRefresh(json: Json, w: Watch, s: SessionId, file: Bytes, line: Bytes, mtime: int)
    requires s in w.files && w.files[s].consumed <= |file| && file[w.files[s].consumed..] == line && IsShortLine(line)
    ensures var w1 := ConsumeLine(json, w, s, Span(w.files[s].consumed, 2, line), CAPACITY);
      && s in w1.files
      && Refresh(json, w, s, file, mtime, false, CAPACITY)
         == w1.(files := w1.files[s := w1.files[s].(consumed := w.files[s].consumed + 2, lastMtime := mtime)])
  {
    var span := Span(w.files[s].consumed, 2, line);
    ShortLineIsCut(json, w, s, file, line);
    var w1 := ConsumeLine(json, w, s, span, CAPACITY);
    assert [span][1..] == [] && ConsumeSpans(json, w1, s, [], CAPACITY) == w1;
    assert ConsumeSpans(json, w, s, [span], CAPACITY) == w1;
  }

  lemma LineAlone(json: Json, w: Watch, s: SessionId, offset: nat, line: Bytes, events: seq<Event>,
                  names: map<string, string>)
    requires s in w.files && w.names == map[] && Alone(json, s, line, events, names) && Unseen(events, w.seen) != []
    ensures var f, news, span := w.files[s], Unseen(events, w.seen), Span(offset, 2, line);
      var w' := ConsumeLine(json, w, s, span, CAPACITY);
      && w'.files == w.files[s := f.(locators := f.locators + LocatorsOf(news, span))]
      && w'.seen == w.seen + Ids(events) && w'.names == names && w'.cache == PutAll(w.cache, news, CAPACITY)
  {
    ConsumeLineIs(json, w, s, Span(offset, 2, line), CAPACITY);
    LineParseIs(json, w, s, line);
    DedupOnlyHides(Decode(json, line), Parsed([], w.seen, w.names), s);
    NamesMoveTogether(Decode(json, line), w.seen, w.names, s);
  }

  /** `sys'` is `sys` after one further line of file `s` was read, with `news` new in it. */
  ghost predicate ReadOne(sys: System, sys': System, s: SessionId, line: Bytes, mtime: int, events: seq<Event>,
                          news: seq<Event>, names: map<string, string>)
    requires s in sys.w.files
  {
    var f := sys.w.files[s];
    && sys'.w.files == sys.w.files[s := FileState(f.consumed + 2, mtime,
         f.locators + LocatorsOf(news, Span(f.consumed, 2, line)), f.emitted)]
    && sys'.w.seen == sys.w.seen + Ids(events) && sys'.w.names == names
    && sys'.w.cache == PutAll(sys.w.cache, news, CAPACITY)
    && sys'.disk == sys.disk && sys'.done == sys.done[s := FileOf(sys.disk, s)]
  }

  lemma ReadOneIs(sys: System, sys': System, w1: Watch, s: SessionId, file: Bytes, line: Bytes, mtime: int,
                  events: seq<Event>, news: seq<Event>, names: map<string, string>)
    requires s in sys.w.files && s in w1.files && file == FileOf(sys.disk, s)
    requires var f := sys.w.files[s];
      && f.consumed + 2 == |file|
      && w1.files == sys.w.files[s := f.(locators := f.locators + LocatorsOf(news, Span(f.consumed, 2, line)))]
      && w1.seen == sys.w.seen + Ids(events) && w1.names == names && w1.cache == PutAll(sys.w.cache, news, CAPACITY)
      && sys'.w == w1.(files := w1.files[s := w1.files[s].(consumed := f.consumed + 2, lastMtime := mtime)])
    requires sys'.disk == sys.disk && sys'.done == sys.done[s := file[..sys'.w.files[s].consumed]]
    ensures ReadOne(sys, sys', s, line, mtime, events, news, names)
  {
    assert file[..|file|] == file;
  }

  /** A refresh that finds one line, with something new in it. */
  lemma RefreshAlone(json: Json, sys: System, s: SessionId, line: Bytes, mtime: int, events: seq<Event>,
                     news: seq<Event>, names: map<string, string>) returns (sys': System)
    requires s in sys.w.files && sys.w.names == map[] && Alone(json, s, line, events, names)
    requires sys.w.files[s].consumed <= |FileOf(sys.disk, s)| && FileOf(sys.disk, s)[sys.w.files[s].consumed..] == line
    requires Unseen(events, sys.w.seen) == news && news != []
    ensures sys' == AfterRefresh(json, sys, s, mtime, false, CAPACITY)
    ensures ReadOne(sys, sys', s, line, mtime, events, news, names)
  {
    var f, file := sys.w.files[s], FileOf(sys.disk, s);
    sys' := AfterRefresh(json, sys, s, mtime, false, CAPACITY);
    OneLineRefresh(json, sys.w, s, file, line, mtime);
    LineAlone(json, sys.w, s, f.consumed, line, events, names);
    var w1 := ConsumeLine(json, sys.w, s, Span(f.consumed, 2, line), CAPACITY);
    ReadOneIs(sys, sys', w1, s, file, line, mtime, events, news, names);
  }

  lemma FitsAlone(json: Json, sys: System, s: SessionId, line: Bytes, events: seq<Event>, names: map<string, string>)
    requires s in sys.w.files && Alone(json, s, line, events, names) && |events| <= CAPACITY
    requires sys.w.files[s].consumed <= |FileOf(sys.disk, s)| && FileOf(sys.disk, s)[sys.w.files[s].consumed..] == line
    ensures AllFit(json, s, LinesToParse(json, sys.w, s, FileOf(sys.disk, s)), CAPACITY)
  {
    ShortLineIsCut(json, sys.w, s, FileOf(sys.disk, s), line);
  }

  // ---------------------------------------------------------------- the run

  /** Line A, of file `s`, yields `a`; line B, of file `t`, yields `b` under the same id, and `d`; line C
      yields two further events. */
  ghost predicate Leaky(json: Json, s: SessionId, t: SessionId, lineA: Bytes, lineB: Bytes, lineC: Bytes,
                        a: Event, b: Event, d: Event, x: Event, y: Event)
  {
    && s != t && Plain(json, s, lineA, [a]) && Plain(json, t, lineB, [b, d]) && Plain(json, s, lineC, [x, y])
    && b.id == a.id && b != a && a.id != d.id
    && x.id != a.id && x.id != d.id && y.id != a.id && y.id != d.id && y.id != x.id
  }

  /** File `s` appears with line A and is read; file `t` appears with line B and is read; line C is
      appended to `s` and read. */
  function LeakSteps(s: SessionId, t: SessionId, lineA: Bytes, lineB: Bytes, lineC: Bytes): seq<Step> {
    StepsToB(s, t, lineA, lineB) + [Write(s, lineA + lineC), Refreshed(s, 2)]
  }

  function StepsToA(s: SessionId, lineA: Bytes): seq<Step> {
    [Appear(s, lineA), Refreshed(s, 1)]
  }

  function StepsToB(s: SessionId, t: SessionId, lineA: Bytes, lineB: Bytes): seq<Step> {
    StepsToA(s, lineA) + [Appear(t, lineB), Refreshed(t, 1)]
  }

  lemma UnseenOne(e: Event, seen: set<EventId>)
    ensures Unseen([e], seen) == (if e.id in seen then [] else [e]) && Ids([e]) == {e.id}
  {
    assert [e][1..] == [] && Unseen([], seen) == [];
  }

  lemma UnseenPair(e0: Event, e1: Event, seen: set<EventId>)
    ensures Unseen([e0, e1], seen) == (if e0.id in seen then [] else [e0]) + (if e1.id in seen then [] else [e1])
    ensures Ids([e0, e1]) == {e0.id, e1.id}
  {
    UnseenOne(e0, seen);
    UnseenOne(e1, seen);
    assert [e0, e1] == [e0] + [e1];
    UnseenAppend([e0], [e1], seen);
  }

  lemma Overwritten<K, V>(m: map<K, V>, k: K, a: V, b: V)
    ensures m[k := a][k := b] == m[k := b]
  {}

  /** A file appears with one plain line and is read. */
  ghost predicate NewFileRead(sys: System, sys': System, t: SessionId, line: Bytes, events: seq<Event>,
                              news: seq<Event>)
  {
    && sys'.w.files == sys.w.files[t := FileState(2, 1, LocatorsOf(news, Span(0, 2, line)), 0)]
    && sys'.w.seen == sys.w.seen + Ids(events) && sys'.w.names == map[]
    && sys'.w.cache == PutAll(sys.w.cache, news, CAPACITY)
    && sys'.disk == sys.disk[t := line] && sys'.done == sys.done[t := line]
  }

  lemma NewFileIs(sys: System, sys1: System, sys': System, t: SessionId, line: Bytes, events: seq<Event>,
                  news: seq<Event>)
    requires t !in sys.w.files && sys1 == Appeared(sys, t, line)
    requires ReadOne(sys1, sys', t, line, 1, events, news, map[])
    ensures NewFileRead(sys, sys', t, line, events, news)
  {
    var none: seq<Locator>, locators := [], LocatorsOf(news, Span(0, 2, line));
    assert none + locators == locators;
    Overwritten(sys.w.files, t, NEW_FILE, FileState(2, 1, locators, 0));
    Overwritten(sys.done, t, [], line);
  }

  lemma NewFileRefresh(json: Json, sys: System, t: SessionId, line: Bytes, events: seq<Event>, news: seq<Event>)
    returns (sys': System)
    requires t !in sys.w.files && sys.w.names == map[] && Plain(json, t, line, events)
    requires Unseen(events, sys.w.seen) == news && news != []
    ensures sys' == AfterRefresh(json, Appeared(sys, t, line), t, 1, false, CAPACITY)
    ensures NewFileRead(sys, sys', t, line, events, news)
  {
    assert line[0..] == line;
    sys' := RefreshAlone(json, Appeared(sys, t, line), t, line, 1, events, news, map[]);
    NewFileIs(sys, Appeared(sys, t, line), sys', t, line, events, news);
  }

  /** The two latest events of a line fill the cache. */
  lemma OnlyTheLatest(cache: seq<Event>, x: Event, y: Event, d: Event)
    requires Bounded(PutAll(cache, [x, y], CAPACITY), CAPACITY) && x.id != y.id && d.id != x.id && d.id != y.id
    ensures Lookup(PutAll(cache, [x, y], CAPACITY), d.id).None?
  {
    PutAllKeepsTheLast(cache, [x, y], CAPACITY);
    var kept := PutAll(cache, [x, y], CAPACITY);
    assert kept[|kept| - 2..] == [x, y] && |kept| == 2;
    assert kept == [x, y];
    LookupIs(kept, d.id);
  }

  /** Reading the pairs serves some body that is not its locator's. */
  ghost predicate LeaksOn(json: Json, sys: System, pairs: seq<(SessionId, Locator)>) {
    && AllHeld(sys.w, pairs)
    && !Serves(json, sys.w.names, sys.done, pairs, Resolve(json, sys.w, sys.disk, pairs, CAPACITY).1)
  }

  ghost predicate Leaks(json: Json, sys: System) {
    exists pairs :: LeaksOn(json, sys, pairs)
  }

  lemma SecondIsWrong(json: Json, names: map<string, string>, done: Disk, p: (SessionId, Locator),
                      q: (SessionId, Locator), d: Event, b: Event)
    requires BodyOf(json, names, done, q.0, q.1) != Some(b)
    ensures !Serves(json, names, done, [p, q], [d, b])
  {
    assert [p, q][1] == q && [d, b][1] == b;
  }

  lemma LeakShows(json: Json, sys: System, s: SessionId, la: Locator, a: Event, b: Event, t: SessionId, ld: Locator,
                  d: Event)
    requires Bounded(sys.w.cache, CAPACITY) && Lookup(sys.w.cache, ld.id).None?
    requires Held(sys.w, (s, la)) && Held(sys.w, (t, ld)) && sys.done == sys.disk
    requires LineEvents(json, sys.w.names, sys.disk, s, la) == [a]
        && LineEvents(json, sys.w.names, sys.disk, t, ld) == [b, d]
    requires la.id == a.id == b.id && ld.id == d.id && a != b && d.id != b.id
    ensures Leaks(json, sys)
  {
    MissServesItsWholeLine(json, sys.w, sys.disk, t, ld, [b, d][0], s, la, CAPACITY);
    MissServesItsWholeLine(json, sys.w, sys.disk, t, ld, [b, d][1], t, ld, CAPACITY);
    ResolveTwo(json, sys.w, sys.disk, (t, ld), (s, la), CAPACITY);
    SecondIsWrong(json, sys.w.names, sys.done, (t, ld), (s, la), d, b);
    assert LeaksOn(json, sys, [(t, ld), (s, la)]);
  }

  lemma LineEventsAre(json: Json, disk: Disk, s: SessionId, line: Bytes, at: nat, events: seq<Event>, l: Locator)
    requires Plain(json, s, line, events) && at + 2 <= |FileOf(disk, s)| && FileOf(disk, s)[at..at + 2] == line
    requires l.offset == at && l.len == 2
    ensures LineEvents(json, map[], disk, s, l) == events
  {
    assert LineAt(FileOf(disk, s), l) == line;
  }

  ghost predicate FittingRun(json: Json, states: seq<System>, steps: seq<Step>) {
    && Run(json, states, steps, CAPACITY) && AlwaysFitting(json, states, steps, CAPACITY)
    && Wellformed(states[|steps|])
  }

  lemma OneMore(json: Json, states: seq<System>, steps: seq<Step>, step: Step) returns (states': seq<System>)
    requires FittingRun(json, states, steps)
    requires Possible(states[|steps|], step) && Fitting(json, states[|steps|], step, CAPACITY)
    ensures FittingRun(json, states', steps + [step])
    ensures states' == states + [Next(json, states[|steps|], step, CAPACITY)]
  {
    var n := |steps|;
    states' := states + [Next(json, states[n], step, CAPACITY)];
    NextIsWellformed(json, states[n], step, CAPACITY);
    forall i | 0 <= i < n + 1
      ensures Moves(json, states'[i], (steps + [step])[i], states'[i + 1], CAPACITY)
          && Fitting(json, states'[i], (steps + [step])[i], CAPACITY)
    {
      if i < n {
        assert Moves(json, states[i], steps[i], states[i + 1], CAPACITY);
      }
    }
  }

  /** A change on disk, then the refresh that sees it. */
  lemma TwoMore(json: Json, states: seq<System>, steps: seq<Step>, change: Step, sys1: System, refresh: Step)
    returns (states': seq<System>)
    requires FittingRun(json, states, steps) && Possible(states[|steps|], change)
    requires Fitting(json, states[|steps|], change, CAPACITY) && sys1 == Next(json, states[|steps|], change, CAPACITY)
    requires Wellformed(sys1) && Possible(sys1, refresh) && Fitting(json, sys1, refresh, CAPACITY)
    ensures FittingRun(json, states', steps + [change, refresh])
    ensures states'[|steps| + 2] == Next(json, sys1, refresh, CAPACITY)
    ensures states'[|steps|] == states[|steps|]
  {
    states' := OneMore(json, states, steps, change);
    states' := OneMore(json, states', steps + [change], refresh);
    assert steps + [change] + [refresh] == steps + [change, refresh];
  }

  /** Line A is read. */
  ghost predicate ReadA(sys: System, s: SessionId, lineA: Bytes, a: Event) {
    && sys.w.files == map[s := FileState(2, 1, LocatorsOf([a], Span(0, 2, lineA)), 0)]
    && sys.w.seen == {a.id} && sys.w.names == map[] && sys.w.cache == [a]
    && sys.disk == map[s := lineA] && sys.done == map[s := lineA]
  }

  /** Line B too, and its second event indexed. */
  ghost predicate ReadB(sys: System, s: SessionId, t: SessionId, lineA: Bytes, lineB: Bytes, a: Event, d: Event) {
    && sys.w.files == map[s := FileState(2, 1, LocatorsOf([a], Span(0, 2, lineA)), 0),
                          t := FileState(2, 1, LocatorsOf([d], Span(0, 2, lineB)), 0)]
    && sys.w.seen == {a.id, d.id} && sys.w.names == map[]
    && sys.disk == map[s := lineA, t := lineB] && sys.done == map[s := lineA, t := lineB]
  }

  /** A run of six steps ends with one locator of `a`, one of `d`, and only later bodies in the cache. */
  ghost predicate LeakEnd(sys: System, s: SessionId, t: SessionId, lineA: Bytes, lineB: Bytes, lineC: Bytes,
                          a: Event, d: Event, x: Event, y: Event)
  {
    && sys.w.files.Keys == {s, t}
    && sys.w.files[s].locators == LocatorsOf([a], Span(0, 2, lineA)) + LocatorsOf([x, y], Span(2, 2, lineC))
    && sys.w.files[t].locators == LocatorsOf([d], Span(0, 2, lineB))
    && sys.w.names == map[] && (exists cache :: sys.w.cache == PutAll(cache, [x, y], CAPACITY))
    && sys.disk == sys.done == map[s := lineA + lineC, t := lineB]
  }

  lemma FirstBody(a: Event)
    ensures PutAll([], [a], CAPACITY) == [a]
  {
    PutAllKeepsTheLast([], [a], CAPACITY);
    PutAllIs([], [a], CAPACITY);
    assert [a][1..] == [];
  }

  lemma AfterA(json: Json, s: SessionId, lineA: Bytes, a: Event) returns (sys': System)
    requires Plain(json, s, lineA, [a])
    ensures sys' == AfterRefresh(json, Appeared(START, s, lineA), s, 1, false, CAPACITY) && ReadA(sys', s, lineA, a)
  {
    UnseenOne(a, {});
    FirstBody(a);
    sys' := NewFileRefresh(json, START, s, lineA, [a], [a]);
  }

  lemma AfterB(json: Json, sys: System, s: SessionId, t: SessionId, lineA: Bytes, lineB: Bytes, a: Event, b: Event,
               d: Event) returns (sys': System)
    requires s != t && ReadA(sys, s, lineA, a) && Plain(json, t, lineB, [b, d]) && b.id == a.id != d.id
    ensures sys' == AfterRefresh(json, Appeared(sys, t, lineB), t, 1, false, CAPACITY)
    ensures ReadB(sys', s, t, lineA, lineB, a, d)
  {
    UnseenPair(b, d, sys.w.seen);
    assert [] + [d] == [d];
    sys' := NewFileRefresh(json, sys, t, lineB, [b, d], [d]);
    ReadBIs(sys, sys', s, t, lineA, lineB, a, b, d);
  }

  lemma ReadBIs(sys: System, sys': System, s: SessionId, t: SessionId, lineA: Bytes, lineB: Bytes, a: Event, b: Event,
                d: Event)
    requires s != t && ReadA(sys, s, lineA, a) && b.id == a.id != d.id
    requires NewFileRead(sys, sys', t, lineB, [b, d], [d]) && Ids([b, d]) == {b.id, d.id}
    ensures ReadB(sys', s, t, lineA, lineB, a, d)
  {}

  lemma AfterC(json: Json, sys: System, s: SessionId, t: SessionId, lineA: Bytes, lineB: Bytes, lineC: Bytes,
               a: Event, d: Event, x: Event, y: Event, sys1: System) returns (sys': System)
    requires s != t && ReadB(sys, s, t, lineA, lineB, a, d) && |lineA| == 2 && Plain(json, s, lineC, [x, y])
    requires x.id != a.id && x.id != d.id && y.id != a.id && y.id != d.id
    requires sys1 == sys.(disk := sys.disk[s := lineA + lineC])
    ensures sys' == AfterRefresh(json, sys1, s, 2, false, CAPACITY)
    ensures LeakEnd(sys', s, t, lineA, lineB, lineC, a, d, x, y)
  {
    UnseenPair(x, y, sys.w.seen);
    assert (lineA + lineC)[2..] == lineC && [x] + [y] == [x, y];
    sys' := RefreshAlone(json, sys1, s, lineC, 2, [x, y], [x, y], map[]);
    EndIs(sys, sys1, sys', s, t, lineA, lineB, lineC, a, d, x, y);
  }

  lemma EndIs(sys: System, sys1: System, sys': System, s: SessionId, t: SessionId, lineA: Bytes, lineB: Bytes,
              lineC: Bytes, a: Event, d: Event, x: Event, y: Event)
    requires s != t && ReadB(sys, s, t, lineA, lineB, a, d) && sys1 == sys.(disk := sys.disk[s := lineA + lineC])
    requires ReadOne(sys1, sys', s, lineC, 2, [x, y], [x, y], map[])
    ensures LeakEnd(sys', s, t, lineA, lineB, lineC, a, d, x, y)
  {}

  lemma AppearedFits(json: Json, sys: System, t: SessionId, line: Bytes, events: seq<Event>)
    requires Wellformed(sys) && t !in sys.w.files && Plain(json, t, line, events) && |events| <= CAPACITY
    ensures var sys1 := Appeared(sys, t, line);
      Wellformed(sys1) && Possible(sys1, Refreshed(t, 1)) && Fitting(json, sys1, Refreshed(t, 1), CAPACITY)
  {
    NextIsWellformed(json, sys, Appear(t, line), CAPACITY);
    assert line[0..] == line;
    FitsAlone(json, Appeared(sys, t, line), t, line, events, map[]);
  }

  lemma RunOnToA(json: Json, before: seq<System>, steps: seq<Step>, s: SessionId, lineA: Bytes, a: Event)
    returns (states: seq<System>)
    requires FittingRun(json, before, steps) && before[|steps|] == START && Plain(json, s, lineA, [a])
    ensures FittingRun(json, states, steps + StepsToA(s, lineA)) && ReadA(states[|steps| + 2], s, lineA, a)
  {
    var sys1 := Appeared(START, s, lineA);
    AppearedFits(json, START, s, lineA, [a]);
    states := TwoMore(json, before, steps, Appear(s, lineA), sys1, Refreshed(s, 1));
    var after := AfterA(json, s, lineA, a);
  }

  lemma StartFits(json: Json) returns (states: seq<System>, steps: seq<Step>)
    ensures FittingRun(json, states, steps) && |steps| == 0 && states[0] == START
  {
    states, steps := [START], [];
  }

  lemma RunToA(json: Json, s: SessionId, lineA: Bytes, a: Event) returns (states: seq<System>)
    requires Plain(json, s, lineA, [a])
    ensures FittingRun(json, states, StepsToA(s, lineA)) && ReadA(states[2], s, lineA, a)
  {
    var before, steps := StartFits(json);
    states := RunOnToA(json, before, steps, s, lineA, a);
    assert steps + StepsToA(s, lineA) == StepsToA(s, lineA);
  }

  lemma RunOnToB(json: Json, before: seq<System>, steps: seq<Step>, s: SessionId, t: SessionId, lineA: Bytes,
                 lineB: Bytes, a: Event, b: Event, d: Event) returns (states: seq<System>)
    requires FittingRun(json, before, steps) && s != t && ReadA(before[|steps|], s, lineA, a)
    requires Plain(json, t, lineB, [b, d]) && b.id == a.id != d.id
    ensures FittingRun(json, states, steps + [Appear(t, lineB), Refreshed(t, 1)])
    ensures ReadB(states[|steps| + 2], s, t, lineA, lineB, a, d)
  {
    var sys := before[|steps|];
    var sys1 := Appeared(sys, t, lineB);
    AppearedFits(json, sys, t, lineB, [b, d]);
    states := TwoMore(json, before, steps, Appear(t, lineB), sys1, Refreshed(t, 1));
    var after := AfterB(json, sys, s, t, lineA, lineB, a, b, d);
  }

  lemma RunOnToC(json: Json, before: seq<System>, steps: seq<Step>, s: SessionId, t: SessionId, lineA: Bytes,
                 lineB: Bytes, lineC: Bytes, a: Event, d: Event, x: Event, y: Event) returns (states: seq<System>)
    requires FittingRun(json, before, steps) && s != t && ReadB(before[|steps|], s, t, lineA, lineB, a, d)
    requires |lineA| == 2 && Plain(json, s, lineC, [x, y])
    requires x.id != a.id && x.id != d.id && y.id != a.id && y.id != d.id
    ensures FittingRun(json, states, steps + [Write(s, lineA + lineC), Refreshed(s, 2)])
    ensures LeakEnd(states[|steps| + 2], s, t, lineA, lineB, lineC, a, d, x, y)
  {
    var sys := before[|steps|];
    var sys1 := sys.(disk := sys.disk[s := lineA + lineC]);
    assert sys.done[s] == lineA <= lineA + lineC && (lineA + lineC)[2..] == lineC;
    NextIsWellformed(json, sys, Write(s, lineA + lineC), CAPACITY);
    FitsAlone(json, sys1, s, lineC, [x, y], map[]);
    states := TwoMore(json, before, steps, Write(s, lineA + lineC), sys1, Refreshed(s, 2));
    var after := AfterC(json, sys, s, t, lineA, lineB, lineC, a, d, x, y, sys1);
  }

  lemma RunToB(json: Json, s: SessionId, t: SessionId, lineA: Bytes, lineB: Bytes, a: Event, b: Event, d: Event)
    returns (states: seq<System>)
    requires s != t && Plain(json, s, lineA, [a]) && Plain(json, t, lineB, [b, d]) && b.id == a.id != d.id
    ensures FittingRun(json, states, StepsToB(s, t, lineA, lineB)) && ReadB(states[4], s, t, lineA, lineB, a, d)
  {
    states := RunToA(json, s, lineA, a);
    states := RunOnToB(json, states, StepsToA(s, lineA), s, t, lineA, lineB, a, b, d);
  }

  lemma RunToTheEnd(json: Json, s: SessionId, t: SessionId, lineA: Bytes, lineB: Bytes, lineC: Bytes,
                    a: Event, b: Event, d: Event, x: Event, y: Event) returns (states: seq<System>)
    requires Leaky(json, s, t, lineA, lineB, lineC, a, b, d, x, y)
    ensures FittingRun(json, states, LeakSteps(s, t, lineA, lineB, lineC))
    ensures LeakEnd(states[6], s, t, lineA, lineB, lineC, a, d, x, y)
  {
    states := RunToB(json, s, t, lineA, lineB, a, b, d);
    states := RunOnToC(json, states, StepsToB(s, t, lineA, lineB), s, t, lineA, lineB, lineC, a, d, x, y);
  }

  lemma EndLeaks(json: Json, sys: System, s: SessionId, t: SessionId, lineA: Bytes, lineB: Bytes, lineC: Bytes,
                 a: Event, b: Event, d: Event, x: Event, y: Event)
    requires Leaky(json, s, t, lineA, lineB, lineC, a, b, d, x, y)
    requires LeakEnd(sys, s, t, lineA, lineB, lineC, a, d, x, y) && Bounded(sys.w.cache, CAPACITY)
    ensures Leaks(json, sys)
  {
    var la, ld := LocatorsOf([a], Span(0, 2, lineA))[0], LocatorsOf([d], Span(0, 2, lineB))[0];
    assert sys.w.files[s].locators[0] == la && sys.w.files[t].locators[0] == ld;
    assert (lineA + lineC)[0..2] == lineA && lineB[0..2] == lineB;
    LineEventsAre(json, sys.disk, s, lineA, 0, [a], la);
    LineEventsAre(json, sys.disk, t, lineB, 0, [b, d], ld);
    var cache :| sys.w.cache == PutAll(cache, [x, y], CAPACITY);
    OnlyTheLatest(cache, x, y, d);
    LeakShows(json, sys, s, la, a, b, t, ld, d);
  }

  // ---------------------------------------------------------------- two records sharing a uuid

  const RESULT_C := RawResult("c", "first", false, None)
  const RESULT_D := RawResult("d", "second", false, None)
  const RESULT_E := RawResult("c", "other", false, None)

  function Answers(uuid: string, results: seq<RawResult>): Raw {
    Raw(uuid, Some(1), UserRecord(false, "", false, None, results))
  }

  /** "A" answers call c; "B", under the same uuid, answers it otherwise and answers d; "C" is another record. */
  function SharedUuid(text: Bytes): Option<Raw> {
    if text == [65] then Some(Answers("u", [RESULT_C]))
    else if text == [66] then Some(Answers("u", [RESULT_E, RESULT_D]))
    else if text == [67] then Some(Answers("v", [RESULT_C, RESULT_D]))
    else None
  }

  lemma AnswerIds(uuid: string)
    ensures var c, d := MakeEventId(uuid, "tool_result-" + "c"), MakeEventId(uuid, "tool_result-" + "d"); c != d
  {
    var c, d := MakeEventId(uuid, "tool_result-" + "c"), MakeEventId(uuid, "tool_result-" + "d");
    assert c[|c| - 1] == 'c' && d[|d| - 1] == 'd';
  }

  lemma AnswersParse(uuid: string, r0: RawResult, r1: RawResult, s: SessionId)
    requires uuid != "" && r0.callId == "c" && r1.callId == "d"
    ensures var raw := Answers(uuid, [r0, r1]);
      var e0, e1 := ResultEvent(raw, 1, None, r0, map[], s), ResultEvent(raw, 1, None, r1, map[], s);
      Fresh(Some(raw), map[], s) == Parsed([e0, e1], Ids([e0, e1]), map[])
  {
    var raw := Answers(uuid, [r0, r1]);
    var e0, e1 := ResultEvent(raw, 1, None, r0, map[], s), ResultEvent(raw, 1, None, r1, map[], s);
    AnswerIds(uuid);
    UnseenPair(e0, e1, {});
    var start, acc: Parsed := Parsed([], {}, map[]), Parsed([e0], {e0.id}, map[]);
    assert [r0, r1][1..] == [r1] && [r1][1..] == [] && [] + [e0] == [e0] && [e0] + [e1] == [e0, e1];
    assert Emit(start, e0) == acc;
    assert ParseResults(raw, 1, None, [r1], acc, s) == ParseResults(raw, 1, None, [], Emit(acc, e1), s);
    assert ParseResults(raw, 1, None, [r0, r1], start, s) == ParseResults(raw, 1, None, [r1], acc, s);
    assert Fresh(Some(raw), map[], s) == ParseResults(raw, 1, None, [r0, r1], start, s);
  }

  lemma AnswerParses(uuid: string, r: RawResult, names: map<string, string>, s: SessionId)
    requires uuid != "" && r.callId != ""
    ensures var raw := Answers(uuid, [r]);
      var e := ResultEvent(raw, 1, None, r, names, s);
      Fresh(Some(raw), names, s) == Parsed([e], Ids([e]), names)
  {
    var e := ResultEvent(Answers(uuid, [r]), 1, None, r, names, s);
    UnseenOne(e, {});
    var start: Parsed := Parsed([], {}, names);
    assert [r][1..] == [] && [] + [e] == [e];
    assert ParseResults(Answers(uuid, [r]), 1, None, [r], start, s)
        == ParseResults(Answers(uuid, [r]), 1, None, [], Emit(start, e), s);
    assert Fresh(Some(Answers(uuid, [r])), names, s) == ParseResults(Answers(uuid, [r]), 1, None, [r], start, s);
  }

  lemma SharedUuidLeaks() returns (a: Event, b: Event, d: Event, x: Event, y: Event)
    ensures Leaky(SharedUuid, "a", "b", [65, NEWLINE], [66, NEWLINE], [67, NEWLINE], a, b, d, x, y)
  {
    ShortLineDecodes(SharedUuid, 65);
    ShortLineDecodes(SharedUuid, 66);
    ShortLineDecodes(SharedUuid, 67);
    AnswerParses("u", RESULT_C, map[], "a");
    AnswersParse("u", RESULT_E, RESULT_D, "b");
    AnswersParse("v", RESULT_C, RESULT_D, "a");
    a := ResultEvent(Answers("u", [RESULT_C]), 1, None, RESULT_C, map[], "a");
    b := ResultEvent(Answers("u", [RESULT_E, RESULT_D]), 1, None, RESULT_E, map[], "b");
    d := ResultEvent(Answers("u", [RESULT_E, RESULT_D]), 1, None, RESULT_D, map[], "b");
    x := ResultEvent(Answers("v", [RESULT_C, RESULT_D]), 1, None, RESULT_C, map[], "a");
    y := ResultEvent(Answers("v", [RESULT_C, RESULT_D]), 1, None, RESULT_D, map[], "a");
    AnswerIds("u");
    AnswerIds("v");
    assert "a"[0] != "b"[0];
    assert a.id[0] == 'u' && d.id[0] == 'u' && x.id[0] == 'v' && y.id[0] == 'v';
  }

  /** From the start, six possible steps, all of whose lines fit the cache, lead to a state where reading
      two indexed events serves one of them with the other file's body. */
  lemma PartlyKnownLineIsVisible() returns (states: seq<System>, steps: seq<Step>)
    ensures Run(SharedUuid, states, steps, CAPACITY) && AlwaysFitting(SharedUuid, states, steps, CAPACITY)
    ensures Leaks(SharedUuid, states[|steps|])
  {
    var a, b, d, x, y := SharedUuidLeaks();
    steps := LeakSteps("a", "b", [65, NEWLINE], [66, NEWLINE], [67, NEWLINE]);
    states := RunToTheEnd(SharedUuid, "a", "b", [65, NEWLINE], [66, NEWLINE], [67, NEWLINE], a, b, d, x, y);
    EveryRunEmitsOnce(SharedUuid, states, steps, CAPACITY);
    EndLeaks(SharedUuid, states[6], "a", "b", [65, NEWLINE], [66, NEWLINE], [67, NEWLINE], a, b, d, x, y);
  }

  // ---------------------------------------------------------------- a tool named after its result

  const USE_C := ToolUse("c", "Bash", "")

  const NAMED: map<string, string> := map["c" := "Bash"]

  const LINE_A: Bytes := [65, NEWLINE]

  const LINE_B: Bytes := [66, NEWLINE]

  /** "A" answers call c; "B", read after it, is the record that made the call. */
  function LateName(text: Bytes): Option<Raw> {
    if text == [65] then Some(Answers("u", [RESULT_C]))
    else if text == [66] then Some(Raw("v", Some(1), AssistantRecord(false, "", [USE_C])))
    else None
  }

  function Answer(names: map<string, string>): Event {
    ResultEvent(Answers("u", [RESULT_C]), 1, None, RESULT_C, names, "a")
  }

  function TheCall(): Event {
    Event(MakeEventId("v", "assistant"), 1, "a", "v", AssistantMessage("", [USE_C]))
  }

  lemma CallParses()
    ensures Fresh(LateName([66]), map[], "a") == Parsed([TheCall()], Ids([TheCall()]), NAMED)
    ensures TheCall().id != Answer(map[]).id
  {
    var none: map<string, string> := map[];
    assert [USE_C][1..] == [] && [] + [TheCall()] == [TheCall()];
    assert AddNames(none, [USE_C]) == AddNames(NAMED, []) == NAMED;
    UnseenOne(TheCall(), {});
    assert TheCall().id[0] == 'v' && Answer(none).id[0] == 'u';
  }

  lemma LinesAlone()
    ensures Plain(LateName, "a", LINE_A, [Answer(map[])]) && Alone(LateName, "a", LINE_B, [TheCall()], NAMED)
    ensures Decode(LateName, LINE_A) == LateName([65]) && Decode(LateName, LINE_B) == LateName([66])
  {
    ShortLineDecodes(LateName, 65);
    ShortLineDecodes(LateName, 66);
    AnswerParses("u", RESULT_C, map[], "a");
    CallParses();
  }

  /** The answer is served from the cache as it was first parsed; re-reading its line names the tool. */
  ghost predicate TwoBodies(sys: System, l: Locator) {
    && Held(sys.w, ("a", l))
    && ResolveOne(LateName, sys.w, sys.disk, "a", l, CAPACITY).1 == Some(Answer(map[]))
    && ResolveOne(LateName, sys.w.(cache := []), sys.disk, "a", l, CAPACITY).1 == Some(Answer(NAMED))
  }

  /** A second line is read, which names tools; both events are in the cache. */
  ghost predicate ReadNames(sys: System, s: SessionId, lineA: Bytes, lineB: Bytes, a: Event, b: Event,
                            names: map<string, string>)
  {
    && sys.w.files.Keys == {s}
    && sys.w.files[s].locators == LocatorsOf([a], Span(0, 2, lineA)) + LocatorsOf([b], Span(2, 2, lineB))
    && sys.w.names == names && sys.w.cache == [a, b]
    && sys.disk == sys.done == map[s := lineA + lineB]
  }

  lemma TwoBodiesFit(a: Event, b: Event)
    requires a.id != b.id
    ensures PutAll([a], [b], CAPACITY) == [a, b] && Bounded([a, b], CAPACITY)
  {
    assert [b][..0] == [] && [a][1..] == [] && Ids([a]) == {a.id};
    WithoutAbsent([a], b.id);
    assert PutAll([a], [], CAPACITY) == [a];
  }

  lemma ReadNamesIs(sys: System, sys1: System, sys': System, s: SessionId, lineA: Bytes, lineB: Bytes, a: Event,
                    b: Event, names: map<string, string>)
    requires ReadA(sys, s, lineA, a) && sys1 == sys.(disk := sys.disk[s := lineA + lineB]) && a.id != b.id
    requires ReadOne(sys1, sys', s, lineB, 2, [b], [b], names)
    ensures ReadNames(sys', s, lineA, lineB, a, b, names)
  {
    TwoBodiesFit(a, b);
  }

  lemma AfterNames(json: Json, sys: System, s: SessionId, lineA: Bytes, lineB: Bytes, a: Event, b: Event,
                   names: map<string, string>, sys1: System) returns (sys': System)
    requires ReadA(sys, s, lineA, a) && |lineA| == 2 && Alone(json, s, lineB, [b], names) && a.id != b.id
    requires sys1 == sys.(disk := sys.disk[s := lineA + lineB])
    ensures sys' == AfterRefresh(json, sys1, s, 2, false, CAPACITY)
    ensures ReadNames(sys', s, lineA, lineB, a, b, names)
  {
    UnseenOne(b, sys.w.seen);
    assert (lineA + lineB)[2..] == lineB;
    sys' := RefreshAlone(json, sys1, s, lineB, 2, [b], [b], names);
    ReadNamesIs(sys, sys1, sys', s, lineA, lineB, a, b, names);
  }

  lemma NamesFit(json: Json, sys: System, s: SessionId, lineA: Bytes, lineB: Bytes, a: Event, b: Event,
                 names: map<string, string>)
    requires ReadA(sys, s, lineA, a) && |lineA| == 2 && Alone(json, s, lineB, [b], names) && Wellformed(sys)
    ensures var sys1 := sys.(disk := sys.disk[s := lineA + lineB]);
      && Possible(sys, Write(s, lineA + lineB)) && Possible(sys1, Refreshed(s, 2)) && Wellformed(sys1)
      && Fitting(json, sys1, Refreshed(s, 2), CAPACITY)
  {
    assert sys.done[s] == lineA <= lineA + lineB && (lineA + lineB)[2..] == lineB;
    NextIsWellformed(json, sys, Write(s, lineA + lineB), CAPACITY);
    FitsAlone(json, sys.(disk := sys.disk[s := lineA + lineB]), s, lineB, [b], names);
  }

  lemma RunOnToNames(json: Json, before: seq<System>, steps: seq<Step>, s: SessionId, lineA: Bytes, lineB: Bytes,
                     a: Event, b: Event, names: map<string, string>) returns (states: seq<System>)
    requires FittingRun(json, before, steps) && ReadA(before[|steps|], s, lineA, a) && |lineA| == 2
    requires Alone(json, s, lineB, [b], names) && a.id != b.id
    ensures FittingRun(json, states, steps + [Write(s, lineA + lineB), Refreshed(s, 2)])
    ensures states[|steps|] == before[|steps|]
    ensures ReadNames(states[|steps| + 2], s, lineA, lineB, a, b, names)
  {
    var sys := before[|steps|];
    var sys1 := sys.(disk := sys.disk[s := lineA + lineB]);
    NamesFit(json, sys, s, lineA, lineB, a, b, names);
    var after := AfterNames(json, sys, s, lineA, lineB, a, b, names, sys1);
    states := TwoMore(json, before, steps, Write(s, lineA + lineB), sys1, Refreshed(s, 2));
  }

  /** The first event is served as it was first parsed while it is cached, and with its tool named once
      it was evicted. */
  lemma CachedAndReread(json: Json, sys: System, s: SessionId, lineA: Bytes, lineB: Bytes, a: Event, a': Event,
                        b: Event, names: map<string, string>, l: Locator)
    requires ReadNames(sys, s, lineA, lineB, a, b, names) && |lineA| == 2 && a.id != b.id
    requires Fresh(Decode(json, lineA), names, s).events == [a'] && a'.id == a.id
    requires l == LocatorsOf([a], Span(0, 2, lineA))[0]
    ensures Held(sys.w, (s, l)) && BodyOf(json, names, sys.done, s, l) == Some(a')
    ensures ResolveOne(json, sys.w, sys.disk, s, l, CAPACITY).1 == Some(a)
    ensures ResolveOne(json, sys.w.(cache := []), sys.disk, s, l, CAPACITY).1 == Some(a')
  {
    assert sys.w.files[s].locators[0] == l;
    assert (lineA + lineB)[0..2] == lineA && LineAt(lineA + lineB, l) == lineA;
    assert LineEvents(json, names, sys.disk, s, l) == [a'];
    assert [a', b][0] == a' && [a'][0] == a';
    MissServesItsWholeLine(json, sys.w.(cache := []), sys.disk, s, l, [a'][0], s, l, CAPACITY);
  }

  lemma ServedAlone(json: Json, sys: System, s: SessionId, l: Locator, a: Event)
    requires Held(sys.w, (s, l)) && ResolveOne(json, sys.w, sys.disk, s, l, CAPACITY).1 == Some(a)
    requires BodyOf(json, sys.w.names, sys.done, s, l) != Some(a)
    ensures Leaks(json, sys)
  {
    var pairs := [(s, l)];
    assert pairs[1..] == [];
    assert Resolve(json, sys.w, sys.disk, pairs, CAPACITY).1[0] == a;
    assert !ServesOne(json, sys.w.names, sys.done, pairs[0], a);
    assert LeaksOn(json, sys, pairs);
  }

  lemma TheLineHeld(sys: System) returns (l: Locator)
    requires ReadA(sys, "a", LINE_A, Answer(map[]))
    ensures sys.w.files.Keys == {"a"} && sys.w.files["a"].locators == [l]
    ensures LineAt(FileOf(sys.done, "a"), l) == LINE_A
    ensures LineEvents(LateName, sys.w.names, sys.done, "a", l) == [Answer(map[])]
  {
    l := LocatorsOf([Answer(map[])], Span(0, 2, LINE_A))[0];
    LinesAlone();
    assert LINE_A[0..2] == LINE_A;
  }

  /** The call comes after the answer that needs its name ... */
  lemma NameComesLate(sys: System)
    requires ReadA(sys, "a", LINE_A, Answer(map[]))
    ensures !NamesHold(LateName, sys.w, sys.done, "a", LINE_B)
  {
    var l := TheLineHeld(sys);
    LinesAlone();
    CallParses();
    UnseenOne(TheCall(), sys.w.seen);
    LineParseIs(LateName, sys.w, "a", LINE_B);
    NamesMoveTogether(LateName([66]), sys.w.seen, map[], "a");
    assert l in sys.w.files["a"].locators && RESULT_C in Answers("u", [RESULT_C]).payload.results;
    assert "c" in ResultCalls(Decode(LateName, LineAt(FileOf(sys.done, "a"), l)));
    assert "c" in LineParse(LateName, sys.w, "a", LINE_B).names.Keys - sys.w.names.Keys;
  }

  lemma OnlyLineYields(json: Json, w: Watch, done: Disk, s: SessionId, l: Locator, a: Event, t: SessionId, i: int,
                       x: Event)
    requires w.files.Keys == {s} && w.files[s].locators == [l] && LineEvents(json, w.names, done, s, l) == [a]
    requires Yields(json, w, done, t, i, x)
    ensures x == a
  {
    assert w.files[t].locators[i] == l;
  }

  lemma OtherIdAgrees(json: Json, w: Watch, done: Disk, s: SessionId, l: Locator, a: Event, b: Event)
    requires w.files.Keys == {s} && w.files[s].locators == [l] && LineEvents(json, w.names, done, s, l) == [a]
    requires a.id != b.id
    ensures Agrees(json, w, done, [b])
  {
    forall t, i, x | Yields(json, w, done, t, i, x) ensures x.id != b.id {
      OnlyLineYields(json, w, done, s, l, a, t, i, x);
    }
  }

  /** ... but disagrees with nothing that is held. */
  lemma TheCallAgrees(sys: System)
    requires ReadA(sys, "a", LINE_A, Answer(map[]))
    ensures LineAgrees(LateName, sys.w, sys.done, "a", LINE_B)
  {
    var l := TheLineHeld(sys);
    CallParses();
    OtherIdAgrees(LateName, sys.w, sys.done, "a", l, Answer(map[]), TheCall());
    LinesAlone();
  }

  /** From the start, four possible steps: an answer is read, then the call it answers. The answer is then
      served without the tool's name from the cache and with it after an eviction, although both lines fit
      and agree. */
  lemma LateNameIsVisible() returns (states: seq<System>, steps: seq<Step>, l: Locator)
    ensures Run(LateName, states, steps, CAPACITY) && AlwaysFitting(LateName, states, steps, CAPACITY)
    ensures |steps| == 4 && Leaks(LateName, states[4]) && TwoBodies(states[4], l)
    ensures LineAgrees(LateName, states[2].w, states[2].done, "a", LINE_B)
    ensures !NamesHold(LateName, states[2].w, states[2].done, "a", LINE_B)
  {
    var a, a', b := Answer(map[]), Answer(NAMED), TheCall();
    LinesAlone();
    CallParses();
    AnswerParses("u", RESULT_C, NAMED, "a");
    states := RunToA(LateName, "a", LINE_A, a);
    states := RunOnToNames(LateName, states, StepsToA("a", LINE_A), "a", LINE_A, LINE_B, a, b, NAMED);
    steps := StepsToA("a", LINE_A) + [Write("a", LINE_A + LINE_B), Refreshed("a", 2)];
    NameComesLate(states[2]);
    TheCallAgrees(states[2]);
    l := LocatorsOf([a], Span(0, 2, LINE_A))[0];
    CachedAndReread(LateName, states[4], "a", LINE_A, LINE_B, a, a', b, NAMED, l);
    ServedAlone(LateName, states[4], "a", l, a);
  }
}
