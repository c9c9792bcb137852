/**
 The session watcher itself: one object per session file and one for the agent, updated in place
 (session_watcher.py, lines 196 to 297, 504 to 757 and 1084 to 1112). Each method is one section
 run under the lock; what the disk holds is passed in.
 */
module SessionWatcher {
  import opened Common
  import opened SessionParser
  import opened LineSplitter
  import opened BodyCache
  import opened WatcherModel

  class SessionFileState {
    const sessionId: SessionId
    var consumed: nat
    var lastMtime: int
    var locators: seq<Locator>
    var emitted: nat

    constructor (sessionId: SessionId)
      ensures this.sessionId == sessionId && View() == NEW_FILE
    {
      this.sessionId := sessionId;
      consumed, lastMtime, locators, emitted := 0, 0, [], 0;
    }

    ghost function View(): FileState
      reads this
    {
      FileState(consumed, lastMtime, locators, emitted)
    }
  }

  class AgentSessionWatcher {
    const json: Json
    const capacity: nat
    var sessionStates: map<SessionId, SessionFileState>
    var seen: set<EventId>
    var names: map<string, string>
    var refs: map<EventId, (SessionFileState, nat)>
    var cache: seq<Event>

    constructor (json: Json, capacity: nat)
      ensures Valid() && Model() == NEW_WATCH
      ensures this.json == json && this.capacity == capacity && sessionStates == map[]
    {
      this.json, this.capacity := json, capacity;
      sessionStates, seen, names, refs, cache := map[], {}, map[], map[], [];
    }

    /** States are filed under their own session id, and every reference is to a filed state. */
    ghost predicate Valid()
      reads this
    {
      && (forall s :: s in sessionStates ==> sessionStates[s].sessionId == s)
      && (forall id :: id in refs ==> Filed(refs[id].0))
    }

    ghost predicate Filed(state: SessionFileState)
      reads this
    {
      state.sessionId in sessionStates && sessionStates[state.sessionId] == state
    }

    ghost function Model(): Watch
      reads this, sessionStates.Values
    {
      Watch(map s | s in sessionStates :: sessionStates[s].View(), seen, names,
            map id | id in refs :: (refs[id].0.sessionId, refs[id].1), cache)
    }

    method DiscoverSession(session: SessionId)
      requires Valid()
      modifies this`sessionStates
      ensures Valid() && Model() == Discover(old(Model()), session)
      ensures session in sessionStates
      ensures forall s :: s in old(sessionStates) ==> s in sessionStates && sessionStates[s] == old(sessionStates)[s]
    {
      if session in sessionStates {
        return;
      }
      var state := new SessionFileState(session);
      sessionStates := sessionStates[session := state];
    }

    /** _cache_put_locked */
    method CachePutLocked(event: Event)
      modifies this`cache
      ensures cache == Put(old(cache), event, capacity)
    {
      cache := Touch(cache, event);
      ghost var grown := cache;
      while |cache| > capacity
        invariant |cache| <= |grown| && cache == grown[|grown| - |cache|..]
        invariant |cache| == |grown| || |cache| >= capacity
      {
        cache := cache[1..];
      }
    }

    /** The body of the event loop of _ensure_cache_current. */
    method IndexEvent(state: SessionFileState, event: Event, span: Span)
      requires Valid() && Filed(state)
      modifies this`refs, this`cache, state`locators
      ensures Valid() && Filed(state)
      ensures Model() == AddEvent(old(Model()), state.sessionId, event, span, capacity)
    {
      var locator := Locator(event.id, event.timestamp, span.offset, span.len);
      ghost var was, s := Model(), state.sessionId;
      ghost var named := Named(was, s, locator);
      assert AddEvent(was, s, event, span, capacity) == named.(cache := Put(was.cache, event, capacity));
      AppendLocator(state, locator);
      CachePutLocked(event);
      assert Model() == named.(cache := Put(was.cache, event, capacity));
    }

    /** The locator and the reference to it. */
    method AppendLocator(state: SessionFileState, locator: Locator)
      requires Valid() && Filed(state)
      modifies this`refs, state`locators
      ensures Valid() && Filed(state)
      ensures Model() == Named(old(Model()), state.sessionId, locator)
    {
      refs := refs[locator.id := (state, |state.locators|)];
      state.locators := state.locators + [locator];
      ghost var want := Named(old(Model()), state.sessionId, locator);
      assert Model().files == want.files;
      assert Model().refs == want.refs;
    }

    /** The event loop itself. */
    method IndexEvents(state: SessionFileState, events: seq<Event>, span: Span)
      requires Valid() && Filed(state)
      modifies this`refs, this`cache, state`locators
      ensures Valid() && Filed(state)
      ensures Model() == AddEvents(old(Model()), state.sessionId, events, span, capacity)
    {
      ghost var start, s := Model(), state.sessionId;
      var i := 0;
      while i < |events|
        invariant 0 <= i <= |events|
        invariant Valid() && Filed(state)
        invariant AddEvents(Model(), s, events[i..], span, capacity) == AddEvents(start, s, events, span, capacity)
      {
        assert events[i..][1..] == events[i + 1..];
        IndexEvent(state, events[i], span);
        i := i + 1;
      }
    }

    /** The body of the span loop of _ensure_cache_current. */
    method ConsumeSpan(state: SessionFileState, span: Span)
      requires Valid() && Filed(state)
      modifies this`seen, this`names, this`refs, this`cache, state`locators
      ensures Valid() && Filed(state)
      ensures Model() == ConsumeLine(json, old(Model()), state.sessionId, span, capacity)
    {
      var events, seen', names' := ParseSessionLines([Decode(json, span.line)], seen, names, state.sessionId);
      OneLineParse(Decode(json, span.line), seen, names, state.sessionId);
      ghost var was := Model();
      seen, names := seen', names';
      assert Model() == was.(seen := seen', names := names');
      IndexEvents(state, events, span);
    }

    /** _ensure_cache_current; `file` and `mtime` are what the disk reports. Every return path of the
        source ends with the same priming mark. */
    method EnsureCacheCurrent(state: SessionFileState, file: Bytes, mtime: int, markAllEmitted: bool)
      requires Valid() && Filed(state)
      modifies this`seen, this`names, this`refs, this`cache, state
      ensures Valid() && Filed(state)
      ensures Model() == Refresh(json, old(Model()), state.sessionId, file, mtime, markAllEmitted, capacity)
    {
      if |file| < state.consumed {
        ForgetState(state);
      }
      ReadAppended(state, file, mtime);
      MarkAllEmitted(state, markAllEmitted);
    }

    /** The part of _ensure_cache_current that reads and parses what was appended. */
    method ReadAppended(state: SessionFileState, file: Bytes, mtime: int)
      requires Valid() && Filed(state) && state.consumed <= |file|
      modifies this`seen, this`names, this`refs, this`cache, state
      ensures Valid() && Filed(state)
      ensures Model() == Advance(json, old(Model()), state.sessionId, file, mtime, capacity)
    {
      if |file| == state.consumed && mtime == state.lastMtime {
        return;
      }
      var complete := SplitAtLastCompleteLine(json, file[state.consumed..]).0;
      if complete == [] {
        return;
      }
      AdvanceIs(json, Model(), state.sessionId, file, mtime, capacity, complete);
      ConsumeAppended(state, complete, mtime);
    }

    /** Parse the complete lines, then move the state past them. */
    method ConsumeAppended(state: SessionFileState, complete: Bytes, mtime: int)
      requires Valid() && Filed(state)
      modifies this`seen, this`names, this`refs, this`cache, state
      ensures Valid() && Filed(state)
      ensures Model() == Consumed(json, old(Model()), state.sessionId, complete, mtime, capacity)
    {
      var consumed := state.consumed + |complete|;
      ghost var parsed := ConsumeSpans(json, Model(), state.sessionId, Spans(complete, state.consumed), capacity);
      ghost var want := Consumed(json, Model(), state.sessionId, complete, mtime, capacity);
      assert want == Stamped(parsed, state.sessionId, consumed, mtime);
      ParseComplete(state, complete);
      FinishRefresh(state, consumed, mtime, parsed);
    }

    /** The span loop of _ensure_cache_current. */
    method ParseComplete(state: SessionFileState, complete: Bytes)
      requires Valid() && Filed(state)
      modifies this`seen, this`names, this`refs, this`cache, state`locators
      ensures Valid() && Filed(state)
      ensures Model() == ConsumeSpans(json, old(Model()), state.sessionId, Spans(complete, state.consumed), capacity)
    {
      ghost var s := state.sessionId;
      ghost var start := Model();
      var spans := IterLineSpans(complete, state.consumed);
      var i := 0;
      while i < |spans|
        invariant 0 <= i <= |spans|
        invariant Valid() && Filed(state)
        invariant ConsumeSpans(json, Model(), s, spans[i..], capacity) == ConsumeSpans(json, start, s, spans, capacity)
      {
        assert spans[i..][1..] == spans[i + 1..];
        ConsumeSpan(state, spans[i]);
        i := i + 1;
      }
    }

    /** The purge loop of the truncation branch. */
    method DropIds(locators: seq<Locator>)
      modifies this`seen, this`refs
      ensures seen == old(seen) - IdSet(locators) && refs == old(refs) - IdSet(locators)
    {
      var i := 0;
      while i < |locators|
        invariant 0 <= i <= |locators|
        invariant seen == old(seen) - IdSet(locators[..i])
        invariant refs == old(refs) - IdSet(locators[..i])
      {
        assert locators[..i + 1] == locators[..i] + [locators[i]];
        assert IdSet(locators[..i + 1]) == IdSet(locators[..i]) + {locators[i].id};
        seen := seen - {locators[i].id};
        refs := refs - {locators[i].id};
        i := i + 1;
      }
      assert locators[..i] == locators;
    }

    /** The truncation branch of _ensure_cache_current. */
    method ForgetState(state: SessionFileState)
      requires Valid() && Filed(state)
      modifies this`seen, this`refs, state
      ensures Valid() && Filed(state)
      ensures Model() == Forget(old(Model()), state.sessionId)
      ensures state.consumed == 0
    {
      ghost var gone := IdSet(state.locators);
      DropIds(state.locators);
      assert Model().refs == old(Model()).refs - gone;
      assert Model().files == old(Model()).files;
      ClearState(state);
    }

    method ClearState(state: SessionFileState)
      requires Valid() && Filed(state)
      modifies state`consumed, state`locators, state`emitted
      ensures Valid() && Filed(state)
      ensures var s := state.sessionId; var was := old(Model());
        Model() == was.(files := was.files[s := FileState(0, was.files[s].lastMtime, [], 0)])
      ensures state.consumed == 0
    {
      state.consumed, state.locators, state.emitted := 0, [], 0;
      ghost var s := state.sessionId;
      ghost var files := old(Model()).files;
      assert Model().files == files[s := FileState(0, files[s].lastMtime, [], 0)];
    }

    method FinishRefresh(state: SessionFileState, consumed: nat, mtime: int, ghost was: Watch)
      requires Valid() && Filed(state) && Model() == was
      modifies state`consumed, state`lastMtime
      ensures Valid() && Filed(state)
      ensures Model() == Stamped(was, state.sessionId, consumed, mtime)
    {
      state.consumed, state.lastMtime := consumed, mtime;
      ghost var s := state.sessionId;
      ghost var files := old(Model()).files;
      assert Model().files == files[s := files[s].(consumed := consumed, lastMtime := mtime)];
    }

    method MarkAllEmitted(state: SessionFileState, mark: bool)
      requires Valid() && Filed(state)
      modifies state`emitted
      ensures Valid() && Filed(state)
      ensures Model() == MarkEmitted(old(Model()), state.sessionId, mark)
    {
      if mark {
        state.emitted := |state.locators|;
      }
      assert Model().files == MarkEmitted(old(Model()), state.sessionId, mark).files;
    }

    /** The locked section of _poll_for_changes for one state: the batch handed to `on_events`. */
    method EmitPending(state: SessionFileState, disk: Disk) returns (batch: seq<Event>)
      requires Valid() && Filed(state) && state.emitted <= |state.locators|
      modifies this`names, this`cache, state`emitted
      ensures Valid() && Filed(state)
      ensures var was, s := old(Model()), state.sessionId;
        var want := Resolve(json, MarkEmitted(was, s, true), disk,
            PairsFrom(s, was.files[s].locators, was.files[s].emitted), capacity);
        Model() == want.0 && batch == want.1
    {
      var pairs := PairsFrom(state.sessionId, state.locators, state.emitted);
      MarkAllEmitted(state, true);
      batch := ResolveBodies(pairs, disk);
    }

    /** _resolve_bodies_locked */
    method ResolveBodies(pairs: seq<(SessionId, Locator)>, disk: Disk) returns (events: seq<Event>)
      requires Valid()
      modifies this`names, this`cache
      ensures Valid()
      ensures var want := Resolve(json, old(Model()), disk, pairs, capacity); Model() == want.0 && events == want.1
    {
      events := [];
      ghost var want := Resolve(json, Model(), disk, pairs, capacity);
      assert pairs[0..] == pairs && [] + want.1 == want.1;
      var i := 0;
      while i < |pairs|
        invariant 0 <= i <= |pairs|
        invariant Valid()
        invariant var rest := Resolve(json, Model(), disk, pairs[i..], capacity);
            rest.0 == want.0 && events + rest.1 == want.1
      {
        assert pairs[i..][1..] == pairs[i + 1..];
        ResolveStep(json, Model(), disk, pairs[i..], capacity, events);
        var body := ResolveBody(pairs[i].0, pairs[i].1, disk);
        if body.Some? {
          events := events + [body.value];
        }
        i := i + 1;
      }
      assert pairs[i..] == [] && events + [] == events;
    }

    method CacheAll(events: seq<Event>)
      modifies this`cache
      ensures cache == PutAll(old(cache), events, capacity)
    {
      var i := 0;
      while i < |events|
        invariant 0 <= i <= |events|
        invariant cache == PutAll(old(cache), events[..i], capacity)
      {
        assert events[..i + 1][..i] == events[..i];
        CachePutLocked(events[i]);
        i := i + 1;
      }
      assert events[..i] == events;
    }

    /** One turn of the loop of _resolve_bodies_locked. */
    method ResolveBody(session: SessionId, locator: Locator, disk: Disk) returns (body: Option<Event>)
      requires Valid()
      modifies this`names, this`cache
      ensures Valid()
      ensures var want := ResolveOne(json, old(Model()), disk, session, locator, capacity);
          Model() == want.0 && body == want.1
    {
      body := Lookup(cache, locator.id);
      if body.Some? {
        cache := Touch(cache, body.value);
      } else {
        var reparsed := Reparse(json, names, FileOf(disk, session), session, locator);
        names := reparsed.names;
        CacheAll(reparsed.events);
        body := Lookup(cache, locator.id);
      }
      assert Model().files == old(Model()).files && Model().refs == old(Model()).refs;
    }
  }

  lemma OneLineParse(record: Option<Raw>, seen: set<EventId>, names: map<string, string>, s: SessionId)
    ensures var acc := Parsed([], seen, names);
      && ParseRecords([record], acc, s) == ParseRecord(record, acc, s)
      && SortByTimestamp(ParseRecord(record, acc, s).events) == ParseRecord(record, acc, s).events
  {
    OneRecordNeedsNoSort(record, seen, names, s);
    assert [record][1..] == [];
  }

  lemma ResolveStep(json: Json, w: Watch, disk: Disk, pairs: seq<(SessionId, Locator)>, capacity: nat,
                    events: seq<Event>)
    requires pairs != []
    ensures var one := ResolveOne(json, w, disk, pairs[0].0, pairs[0].1, capacity);
      var whole, rest := Resolve(json, w, disk, pairs, capacity), Resolve(json, one.0, disk, pairs[1..], capacity);
      whole.0 == rest.0 && events + whole.1 == (if one.1.Some? then events + [one.1.value] else events) + rest.1
  {
    var one := ResolveOne(json, w, disk, pairs[0].0, pairs[0].1, capacity);
    var rest := Resolve(json, one.0, disk, pairs[1..], capacity);
    var own := if one.1.Some? then [one.1.value] else [];
    assert Resolve(json, w, disk, pairs, capacity) == (rest.0, own + rest.1);
    ConcatAssoc(events, own, rest.1);
    ConcatNothing(events);
  }

  /** One more locator, and the reference to it. */
  function Named(w: Watch, s: SessionId, locator: Locator): Watch
    requires s in w.files
  {
    w.(files := w.files[s := w.files[s].(locators := w.files[s].locators + [locator])],
       refs := w.refs[locator.id := (s, |w.files[s].locators|)])
  }

  /** What a refresh writes back last. */
  function Stamped(w: Watch, s: SessionId, consumed: nat, mtime: int): Watch
    requires s in w.files
  {
    w.(files := w.files[s := w.files[s].(consumed := consumed, lastMtime := mtime)])
  }

  function Consumed(json: Json, w: Watch, s: SessionId, complete: Bytes, mtime: int, capacity: nat): Watch
    requires s in w.files
  {
    Stamped(ConsumeSpans(json, w, s, Spans(complete, w.files[s].consumed), capacity), s,
        w.files[s].consumed + |complete|, mtime)
  }

  lemma AdvanceIs(json: Json, w: Watch, s: SessionId, file: Bytes, mtime: int, capacity: nat, complete: Bytes)
    requires s in w.files && w.files[s].consumed <= |file| && complete == Complete(json, w.files[s], file)
        && complete != []
    requires !(|file| == w.files[s].consumed && mtime == w.files[s].lastMtime)
    ensures Advance(json, w, s, file, mtime, capacity) == Consumed(json, w, s, complete, mtime, capacity)
  {}
}
