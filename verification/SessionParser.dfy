/**
 Session records and their conversion into transcript events
 (apps/system_interface/imbue/system_interface/session_parser.py).

 What the JSON reader and the text helpers compute for one record (extracted text, previews,
 sentinel tests) is given as the fields of `Raw`; every branch that decides whether an event
 is emitted, with which id, and how the dedup set and the tool-name map move, is modelled.
 */
module SessionParser {
  import opened Common

  type EventId = string
  type SessionId = string

  /** One tool_use block of an assistant record. */
  datatype ToolUse = ToolUse(callId: string, name: string, inputPreview: string)

  /** One tool_result block of a user record; `trailer` is the agentId found in its text. */
  datatype RawResult = RawResult(callId: string, output: string, isError: bool, trailer: Option<string>)

  datatype Payload =
    | AssistantRecord(isResumeReply: bool, text: string, uses: seq<ToolUse>)
    | UserRecord(hasUserText: bool, text: string, isHidden: bool, agentId: Option<string>, results: seq<RawResult>)
    | QueuedRecord(prompt: Option<string>)
    | OtherRecord

  datatype Raw = Raw(uuid: string, timestamp: Option<int>, payload: Payload)

  datatype Body =
    | AssistantMessage(text: string, toolCalls: seq<ToolUse>)
    | UserMessage(content: string)
    | ToolResult(callId: string, toolName: string, output: string, isError: bool, subagentId: Option<string>)

  datatype Event = Event(id: EventId, timestamp: int, session: SessionId, messageUuid: string, body: Body)

  /** The dedup set and the tool-name map threaded through the parse, with the events so far. */
  datatype Parsed = Parsed(events: seq<Event>, seen: set<EventId>, names: map<string, string>)

  function MakeEventId(uuid: string, suffix: string): EventId {
    uuid + "-" + suffix
  }

  function AddNames(names: map<string, string>, uses: seq<ToolUse>): map<string, string>
    decreases |uses|
  {
    if uses == [] then names
    else
      var use := uses[0];
      AddNames(if use.callId != "" && use.name != "" then names[use.callId := use.name] else names, uses[1..])
  }

  function ExtractSubagentId(structured: Option<string>, trailer: Option<string>): Option<string> {
    if structured.Some? && structured.value != "" then structured else trailer
  }

  function NameOf(names: map<string, string>, callId: string): string {
    if callId in names then names[callId] else "unknown"
  }

  /** The event a tool_result block becomes when its id is new. */
  function ResultEvent(raw: Raw, ts: int, agentId: Option<string>, result: RawResult,
                       names: map<string, string>, session: SessionId): Event
  {
    var name := NameOf(names, result.callId);
    var subagent := if name == "Agent" then ExtractSubagentId(agentId, result.trailer) else None;
    Event(MakeEventId(raw.uuid, "tool_result-" + result.callId), ts, session, raw.uuid,
          ToolResult(result.callId, name, result.output, result.isError, subagent))
  }

  function ParseResults(raw: Raw, ts: int, agentId: Option<string>, results: seq<RawResult>,
                        acc: Parsed, session: SessionId): Parsed
    decreases |results|
  {
    if results == [] then acc
    else
      var event := ResultEvent(raw, ts, agentId, results[0], acc.names, session);
      var next := if results[0].callId == "" || event.id in acc.seen then acc else Emit(acc, event);
      ParseResults(raw, ts, agentId, results[1..], next, session)
  }

  function Emit(acc: Parsed, event: Event): Parsed {
    acc.(events := acc.events + [event], seen := acc.seen + {event.id})
  }

  /** One decoded record; `None` stands for a blank or malformed line. */
  function ParseRecord(record: Option<Raw>, acc: Parsed, session: SessionId): Parsed {
    if record.None? || record.value.uuid == "" || record.value.timestamp.None? then acc
    else
      var raw := record.value;
      var ts := raw.timestamp.value;
      match raw.payload
      case AssistantRecord(isResumeReply, text, uses) =>
        var id := MakeEventId(raw.uuid, "assistant");
        if id in acc.seen || isResumeReply then acc
        else Emit(acc.(names := AddNames(acc.names, uses)),
            Event(id, ts, session, raw.uuid, AssistantMessage(text, uses)))
      case UserRecord(hasUserText, text, isHidden, agentId, results) =>
        var id := MakeEventId(raw.uuid, "user");
        var acc' :=
          if hasUserText && id !in acc.seen && text != "" && !isHidden
          then Emit(acc, Event(id, ts, session, raw.uuid, UserMessage(text))) else acc;
        ParseResults(raw, ts, agentId, results, acc', session)
      case QueuedRecord(prompt) =>
        var id := MakeEventId(raw.uuid, "queued");
        if prompt.None? || id in acc.seen then acc
        else Emit(acc, Event(id, ts, session, raw.uuid, UserMessage(prompt.value)))
      case OtherRecord => acc
  }

  /** The record loop of parse_session_lines, before the final sort. */
  function ParseRecords(records: seq<Option<Raw>>, acc: Parsed, session: SessionId): Parsed
    decreases |records|
  {
    if records == [] then acc
    else ParseRecords(records[1..], ParseRecord(records[0], acc, session), session)
  }

  // ---------------------------------------------------------------- the parse, relative to a fresh one

  ghost function Ids(events: seq<Event>): set<EventId> {
    set e | e in events :: e.id
  }

  ghost predicate DistinctIds(events: seq<Event>) {
    forall i, j :: 0 <= i < j < |events| ==> events[i].id != events[j].id
  }

  /** The events whose id is not in `seen`, in order. */
  function Unseen(events: seq<Event>, seen: set<EventId>): seq<Event> {
    if events == [] then []
    else (if events[0].id in seen then [] else [events[0]]) + Unseen(events[1..], seen)
  }

  lemma {:induction false} UnseenAppend(a: seq<Event>, b: seq<Event>, seen: set<EventId>)
    ensures Unseen(a + b, seen) == Unseen(a, seen) + Unseen(b, seen)
  {
    if a == [] {
      assert a + b == b;
    } else {
      assert (a + b)[1..] == a[1..] + b;
      UnseenAppend(a[1..], b, seen);
    }
  }

  lemma {:induction false} UnseenMember(events: seq<Event>, seen: set<EventId>, e: Event)
    ensures e in Unseen(events, seen) <==> e in events && e.id !in seen
  {
    if events != [] {
      UnseenMember(events[1..], seen, e);
    }
  }

  /** A parse from nothing but the tool-name map: how `_reparse_line_locked` calls the parser. */
  function Fresh(record: Option<Raw>, names: map<string, string>, session: SessionId): Parsed {
    ParseRecord(record, Parsed([], {}, names), session)
  }

  /** `acc` is what a parse from `before` shows once `before.seen` hides its events. */
  ghost predicate Masks(acc: Parsed, clean: Parsed, before: Parsed) {
    && acc.events == before.events + Unseen(clean.events, before.seen)
    && acc.seen == before.seen + Ids(clean.events)
    && clean.seen == Ids(clean.events)
    && DistinctIds(clean.events)
  }

  lemma EmitMasks(acc: Parsed, clean: Parsed, before: Parsed, event: Event)
    requires Masks(acc, clean, before)
    requires event.id !in clean.seen
    ensures Masks(if event.id in acc.seen then acc else Emit(acc, event), Emit(clean, event), before)
  {
    UnseenAppend(clean.events, [event], before.seen);
    assert Ids(clean.events + [event]) == Ids(clean.events) + {event.id};
    assert Unseen([event], before.seen) == if event.id in before.seen then [] else [event];
    forall i, j | 0 <= i < j < |clean.events + [event]|
      ensures (clean.events + [event])[i].id != (clean.events + [event])[j].id
    {
      assert clean.events[i].id in Ids(clean.events);
    }
    if event.id !in before.seen {
      assert before.events + Unseen(clean.events, before.seen) + [event]
          == before.events + (Unseen(clean.events, before.seen) + [event]);
    } else {
      assert Unseen(clean.events, before.seen) + [] == Unseen(clean.events, before.seen);
    }
  }

  lemma {:induction false} ParseResultsMasks(raw: Raw, ts: int, agentId: Option<string>, results: seq<RawResult>,
                                             acc: Parsed, clean: Parsed, before: Parsed, session: SessionId)
    requires Masks(acc, clean, before) && acc.names == clean.names
    ensures Masks(ParseResults(raw, ts, agentId, results, acc, session),
                  ParseResults(raw, ts, agentId, results, clean, session), before)
    ensures ParseResults(raw, ts, agentId, results, acc, session).names == acc.names
    ensures ParseResults(raw, ts, agentId, results, clean, session).names == clean.names
    decreases |results|
  {
    if results != [] {
      var event := ResultEvent(raw, ts, agentId, results[0], acc.names, session);
      if results[0].callId == "" || event.id in clean.seen {
        ParseResultsMasks(raw, ts, agentId, results[1..], acc, clean, before, session);
      } else {
        EmitMasks(acc, clean, before, event);
        var acc' := if event.id in acc.seen then acc else Emit(acc, event);
        ParseResultsMasks(raw, ts, agentId, results[1..], acc', Emit(clean, event), before, session);
      }
    }
  }

  /** Deduplication only hides events: parsing a record against any dedup set emits exactly the
      events a fresh parse would, minus those already seen, in the same order and with the same bodies. */
  lemma DedupOnlyHides(record: Option<Raw>, before: Parsed, session: SessionId)
    ensures Masks(ParseRecord(record, before, session), Fresh(record, before.names, session), before)
  {
    var clean := Parsed([], {}, before.names);
    assert before.events + Unseen([], before.seen) == before.events;
    assert Masks(before, clean, before);
    if record.Some? && record.value.uuid != "" && record.value.timestamp.Some? {
      var raw := record.value;
      var ts := raw.timestamp.value;
      match raw.payload
      case AssistantRecord(isResumeReply, text, uses) =>
        EmitMasks(before, clean, before, Event(MakeEventId(raw.uuid, "assistant"), ts, session, raw.uuid,
            AssistantMessage(text, uses)));
      case UserRecord(hasUserText, text, isHidden, agentId, results) =>
        var event := Event(MakeEventId(raw.uuid, "user"), ts, session, raw.uuid, UserMessage(text));
        if hasUserText && text != "" && !isHidden {
          EmitMasks(before, clean, before, event);
          var acc' := if event.id in before.seen then before else Emit(before, event);
          ParseResultsMasks(raw, ts, agentId, results, acc', Emit(clean, event), before, session);
        } else {
          ParseResultsMasks(raw, ts, agentId, results, before, clean, before, session);
        }
      case QueuedRecord(prompt) =>
        if prompt.Some? {
          EmitMasks(before, clean, before, Event(MakeEventId(raw.uuid, "queued"), ts, session, raw.uuid,
              UserMessage(prompt.value)));
        }
      case OtherRecord =>
    }
  }

  // ---------------------------------------------------------------- tool names

  /** The call ids whose tool name the record's events depend on. */
  function ResultCalls(record: Option<Raw>): set<string> {
    if record.Some? && record.value.payload.UserRecord?
    then set r | r in record.value.payload.results :: r.callId else {}
  }

  lemma {:induction false} ParseResultsNames(raw: Raw, ts: int, agentId: Option<string>, results: seq<RawResult>,
                                             acc: Parsed, acc': Parsed, session: SessionId)
    requires acc.events == acc'.events && acc.seen == acc'.seen
    requires forall r :: r in results ==> NameOf(acc.names, r.callId) == NameOf(acc'.names, r.callId)
    ensures ParseResults(raw, ts, agentId, results, acc, session).events
        == ParseResults(raw, ts, agentId, results, acc', session).events
    decreases |results|
  {
    if results != [] {
      assert results[0] in results;
      var event := ResultEvent(raw, ts, agentId, results[0], acc.names, session);
      var quiet := results[0].callId == "" || event.id in acc.seen;
      ParseResultsNames(raw, ts, agentId, results[1..],
                        if quiet then acc else Emit(acc, event), if quiet then acc' else Emit(acc', event), session);
    }
  }

  /** A record's events depend on the name map only through the calls its tool results answer. */
  lemma EventsDependOnResultNames(record: Option<Raw>, names: map<string, string>, names': map<string, string>,
                                  session: SessionId)
    requires forall c :: c in ResultCalls(record) ==> NameOf(names, c) == NameOf(names', c)
    ensures Fresh(record, names, session).events == Fresh(record, names', session).events
  {
    if record.Some? && record.value.uuid != "" && record.value.timestamp.Some? && record.value.payload.UserRecord? {
      var raw := record.value;
      var ts := raw.timestamp.value;
      var UserRecord(hasUserText, text, isHidden, agentId, results) := raw.payload;
      forall r | r in results ensures NameOf(names, r.callId) == NameOf(names', r.callId) {
        assert r.callId in ResultCalls(record);
      }
      var acc, acc' := Parsed([], {}, names), Parsed([], {}, names');
      var event := Event(MakeEventId(raw.uuid, "user"), ts, session, raw.uuid, UserMessage(text));
      if hasUserText && text != "" && !isHidden {
        acc, acc' := Emit(acc, event), Emit(acc', event);
      }
      ParseResultsNames(raw, ts, agentId, results, acc, acc', session);
    }
  }

  lemma {:induction false} AddNamesOverrides(names: map<string, string>, uses: seq<ToolUse>)
    ensures AddNames(names, uses) == names + AddNames(map[], uses)
    decreases |uses|
  {
    if uses == [] {
      assert names + map[] == names;
    } else {
      var use := uses[0];
      var step := if use.callId != "" && use.name != "" then map[use.callId := use.name] else map[];
      AddNamesOverrides(names + step, uses[1..]);
      AddNamesOverrides(step, uses[1..]);
      assert map[] + step == step;
      assert names + step + AddNames(map[], uses[1..]) == names + (step + AddNames(map[], uses[1..]));
      assert names + step == if use.callId != "" && use.name != "" then names[use.callId := use.name] else names;
    }
  }

  /** Re-reading a record whose names are already in the map leaves the map alone. */
  lemma NamesSettle(record: Option<Raw>, names: map<string, string>, whole: map<string, string>, session: SessionId)
    requires Fresh(record, names, session).names.Items <= whole.Items
    ensures Fresh(record, whole, session).names == whole
  {
    if record.Some? && record.value.uuid != "" && record.value.timestamp.Some? {
      var raw := record.value;
      var ts := raw.timestamp.value;
      match raw.payload
      case AssistantRecord(isResumeReply, text, uses) =>
        if !isResumeReply {
          AddNamesOverrides(names, uses);
          AddNamesOverrides(whole, uses);
          var added := AddNames(map[], uses);
          forall c | c in added ensures c in whole && whole[c] == added[c] {
            assert (c, added[c]) in (names + added).Items;
          }
          assert whole + added == whole;
        }
      case UserRecord(hasUserText, text, isHidden, agentId, results) =>
        var acc := Parsed([], {}, whole);
        assert Masks(acc, acc, acc);
        ParseResultsKeepNames(raw, ts, agentId, results, if hasUserText && text != "" && !isHidden
                              then Emit(acc, Event(MakeEventId(raw.uuid, "user"), ts, session, raw.uuid,
                                  UserMessage(text))) else acc, session);
      case _ =>
    }
  }

  lemma {:induction false} ParseResultsKeepNames(raw: Raw, ts: int, agentId: Option<string>, results: seq<RawResult>,
                                                 acc: Parsed, session: SessionId)
    ensures ParseResults(raw, ts, agentId, results, acc, session).names == acc.names
    decreases |results|
  {
    if results != [] {
      var event := ResultEvent(raw, ts, agentId, results[0], acc.names, session);
      ParseResultsKeepNames(raw, ts, agentId, results[1..],
                            if results[0].callId == "" || event.id in acc.seen then acc else Emit(acc, event), session);
    }
  }

  // ---------------------------------------------------------------- ids do not depend on tool names

  function IdsOf(events: seq<Event>): (ids: seq<EventId>)
    ensures |ids| == |events|
  {
    seq(|events|, i requires 0 <= i < |events| => events[i].id)
  }

  lemma IdInIdsOf(events: seq<Event>, id: EventId)
    ensures id in IdsOf(events) <==> id in Ids(events)
    ensures id in Ids(events) ==> exists k :: 0 <= k < |events| && events[k].id == id
  {
    if id in Ids(events) {
      var e :| e in events && e.id == id;
      var k :| 0 <= k < |events| && events[k] == e;
      assert IdsOf(events)[k] == id;
    }
    if id in IdsOf(events) {
      var k :| 0 <= k < |events| && IdsOf(events)[k] == id;
      assert events[k] in events;
    }
  }

  lemma {:induction false} ParseResultsIds(raw: Raw, ts: int, agentId: Option<string>, results: seq<RawResult>,
                                           acc: Parsed, acc': Parsed, session: SessionId)
    requires acc.seen == acc'.seen && IdsOf(acc.events) == IdsOf(acc'.events)
    ensures var r, r' := ParseResults(raw, ts, agentId, results, acc, session),
        ParseResults(raw, ts, agentId, results, acc', session);
      r.seen == r'.seen && IdsOf(r.events) == IdsOf(r'.events)
    decreases |results|
  {
    if results != [] {
      var e, e' := ResultEvent(raw, ts, agentId, results[0], acc.names, session),
          ResultEvent(raw, ts, agentId, results[0], acc'.names, session);
      if results[0].callId == "" || e.id in acc.seen {
        ParseResultsIds(raw, ts, agentId, results[1..], acc, acc', session);
      } else {
        IdsOfSnoc(acc.events, e);
        IdsOfSnoc(acc'.events, e');
        ParseResultsIds(raw, ts, agentId, results[1..], Emit(acc, e), Emit(acc', e'), session);
      }
    }
  }

  lemma IdsOfSnoc(events: seq<Event>, e: Event)
    ensures IdsOf(events + [e]) == IdsOf(events) + [e.id]
  {}

  /** Which ids a record yields does not depend on the tool names known when it is read. */
  lemma FreshIdsIgnoreNames(record: Option<Raw>, names: map<string, string>, names': map<string, string>,
                            session: SessionId)
    ensures IdsOf(Fresh(record, names, session).events) == IdsOf(Fresh(record, names', session).events)
  {
    if record.Some? && record.value.uuid != "" && record.value.timestamp.Some? && record.value.payload.UserRecord? {
      var raw := record.value;
      var ts := raw.timestamp.value;
      var UserRecord(hasUserText, text, isHidden, agentId, results) := raw.payload;
      var event := Event(MakeEventId(raw.uuid, "user"), ts, session, raw.uuid, UserMessage(text));
      var acc, acc' := Parsed([], {}, names), Parsed([], {}, names');
      if hasUserText && text != "" && !isHidden {
        acc, acc' := Emit(acc, event), Emit(acc', event);
      }
      ParseResultsIds(raw, ts, agentId, results, acc, acc', session);
    }
  }

  // ---------------------------------------------------------------- the final stable sort

  ghost predicate InTimeOrder(events: seq<Event>) {
    forall i, j :: 0 <= i < j < |events| ==> events[i].timestamp <= events[j].timestamp
  }

  /** Insert after every event that is not later: what a stable sort does with the next element. */
  function InsertInOrder(sorted: seq<Event>, e: Event): seq<Event> {
    if sorted == [] || sorted[|sorted| - 1].timestamp <= e.timestamp then sorted + [e]
    else InsertInOrder(sorted[..|sorted| - 1], e) + [sorted[|sorted| - 1]]
  }

  /** `new_events.sort(key=timestamp)`: Python's stable sort. */
  function SortByTimestamp(events: seq<Event>): seq<Event> {
    if events == [] then []
    else InsertInOrder(SortByTimestamp(events[..|events| - 1]), events[|events| - 1])
  }

  /** The events carrying one timestamp, in order. */
  function AtTime(events: seq<Event>, t: int): seq<Event> {
    if events == [] then []
    else AtTime(events[..|events| - 1], t) + (if events[|events| - 1].timestamp == t then [events[|events| - 1]]
        else [])
  }

  lemma {:induction false} InsertInOrderKeeps(sorted: seq<Event>, e: Event)
    ensures multiset(InsertInOrder(sorted, e)) == multiset(sorted) + multiset{e}
  {
    if sorted != [] && sorted[|sorted| - 1].timestamp > e.timestamp {
      InsertInOrderKeeps(sorted[..|sorted| - 1], e);
      assert sorted == sorted[..|sorted| - 1] + [sorted[|sorted| - 1]];
    }
  }

  lemma {:induction false} InsertInOrderSorts(sorted: seq<Event>, e: Event)
    requires InTimeOrder(sorted)
    ensures InTimeOrder(InsertInOrder(sorted, e))
  {
    if sorted != [] && sorted[|sorted| - 1].timestamp > e.timestamp {
      var init, last := sorted[..|sorted| - 1], sorted[|sorted| - 1];
      InsertInOrderSorts(init, e);
      InsertInOrderKeeps(init, e);
      var front := InsertInOrder(init, e);
      forall i | 0 <= i < |front| ensures front[i].timestamp <= last.timestamp {
        assert front[i] in multiset(front);
      }
    }
  }

  lemma AtTimeLast(events: seq<Event>, e: Event, t: int)
    ensures AtTime(events + [e], t) == AtTime(events, t) + (if e.timestamp == t then [e] else [])
  {
    assert (events + [e])[..|events|] == events;
  }

  lemma {:induction false} InsertInOrderIsStable(sorted: seq<Event>, e: Event, t: int)
    requires InTimeOrder(sorted)
    ensures AtTime(InsertInOrder(sorted, e), t) == AtTime(sorted, t) + (if e.timestamp == t then [e] else [])
  {
    if sorted == [] || sorted[|sorted| - 1].timestamp <= e.timestamp {
      AtTimeLast(sorted, e, t);
    } else {
      var init, last := sorted[..|sorted| - 1], sorted[|sorted| - 1];
      InsertInOrderIsStable(init, e, t);
      AtTimeLast(InsertInOrder(init, e), last, t);
    }
  }

  /** Sorting by timestamp orders the events, keeps them all, and keeps equal timestamps in parse order. */
  lemma {:induction false} SortIsStable(events: seq<Event>, t: int)
    ensures InTimeOrder(SortByTimestamp(events))
    ensures multiset(SortByTimestamp(events)) == multiset(events)
    ensures AtTime(SortByTimestamp(events), t) == AtTime(events, t)
  {
    if events != [] {
      var init, last := events[..|events| - 1], events[|events| - 1];
      assert events == init + [last];
      SortIsStable(init, t);
      var sorted := SortByTimestamp(init);
      InsertInOrderSorts(sorted, last);
      InsertInOrderKeeps(sorted, last);
      InsertInOrderIsStable(sorted, last, t);
    }
  }

  /** The sort leaves a parse alone exactly when its timestamps never go backwards. */
  lemma {:induction false} SortIsIdentityIff(events: seq<Event>)
    ensures SortByTimestamp(events) == events <==> InTimeOrder(events)
  {
    if InTimeOrder(events) {
      if events != [] {
        SortIsIdentityIff(events[..|events| - 1]);
        assert events == events[..|events| - 1] + [events[|events| - 1]];
      }
    } else {
      SortIsStable(events, 0);
    }
  }

  /** parse_session_lines: the record loop, then the sort. */
  method ParseSessionLines(records: seq<Option<Raw>>, existing: set<EventId>, toolNames: map<string, string>,
                           session: SessionId)
    returns (events: seq<Event>, seen: set<EventId>, names: map<string, string>)
    ensures var whole := ParseRecords(records, Parsed([], existing, toolNames), session);
            events == SortByTimestamp(whole.events) && seen == whole.seen && names == whole.names
    ensures InTimeOrder(events)
  {
    var acc := Parsed([], existing, toolNames);
    var i := 0;
    while i < |records|
      invariant 0 <= i <= |records|
      invariant ParseRecords(records[i..], acc, session)
          == ParseRecords(records, Parsed([], existing, toolNames), session)
    {
      acc := ParseRecord(records[i], acc, session);
      assert records[i..][1..] == records[i + 1..];
      i := i + 1;
    }
    SortIsStable(acc.events, 0);
    events, seen, names := SortByTimestamp(acc.events), acc.seen, acc.names;
  }

  lemma {:induction false} ParseResultsOneTime(raw: Raw, ts: int, agentId: Option<string>, results: seq<RawResult>,
                                               acc: Parsed, session: SessionId)
    requires forall e :: e in acc.events ==> e.timestamp == ts
    ensures forall e :: e in ParseResults(raw, ts, agentId, results, acc, session).events ==> e.timestamp == ts
    decreases |results|
  {
    if results != [] {
      var event := ResultEvent(raw, ts, agentId, results[0], acc.names, session);
      ParseResultsOneTime(raw, ts, agentId, results[1..],
                          if results[0].callId == "" || event.id in acc.seen then acc else Emit(acc, event), session);
    }
  }

  /** The watcher hands the parser one line at a time, and the events of one record share its
      timestamp, so the sort never reorders what the watcher indexes. */
  lemma OneRecordNeedsNoSort(record: Option<Raw>, seen: set<EventId>, names: map<string, string>, session: SessionId)
    ensures var events := ParseRecord(record, Parsed([], seen, names), session).events;
            SortByTimestamp(events) == events
  {
    var acc := Parsed([], seen, names);
    var events := ParseRecord(record, acc, session).events;
    if record.Some? && record.value.timestamp.Some? && record.value.uuid != "" && record.value.payload.UserRecord? {
      var raw := record.value;
      var ts := raw.timestamp.value;
      var UserRecord(hasUserText, text, isHidden, agentId, results) := raw.payload;
      var event := Event(MakeEventId(raw.uuid, "user"), ts, session, raw.uuid, UserMessage(text));
      ParseResultsOneTime(raw, ts, agentId, results,
                          if hasUserText && event.id !in acc.seen && text != "" && !isHidden then Emit(acc, event)
                              else acc, session);
      forall i, j | 0 <= i < j < |events| ensures events[i].timestamp <= events[j].timestamp {
        assert events[i] in events && events[j] in events;
      }
    }
    SortIsIdentityIff(events);
  }

  lemma {:induction false} ParseRecordsAppend(a: seq<Option<Raw>>, b: seq<Option<Raw>>, acc: Parsed, session: SessionId)
    ensures ParseRecords(a + b, acc, session) == ParseRecords(b, ParseRecords(a, acc, session), session)
    decreases |a|
  {
    if a == [] {
      assert a + b == b;
    } else {
      assert (a + b)[1..] == a[1..] + b;
      ParseRecordsAppend(a[1..], b, ParseRecord(a[0], acc, session), session);
    }
  }
}
