/**
 What a session file's records say, and what the parser makes of them: which events come out and what
 they carry (apps/system_interface/imbue/system_interface/session_parser.py, lines 249 to 546).
 */
module RecordEvents {
  import opened Common
  import opened SessionParser

  // ---------------------------------------------------------------- what a record says

  /** The message of the record itself. */
  ghost predicate TellsMessage(raw: Raw, e: Event) {
    match raw.payload
    case AssistantRecord(isResumeReply, text, uses) =>
      !isResumeReply && e.id == raw.uuid + "-" + "assistant" && e.body == AssistantMessage(text, uses)
    case UserRecord(hasUserText, text, isHidden, _, _) =>
      hasUserText && text != "" && !isHidden && e.id == raw.uuid + "-" + "user" && e.body == UserMessage(text)
    case QueuedRecord(prompt) =>
      prompt.Some? && e.id == raw.uuid + "-" + "queued" && e.body == UserMessage(prompt.value)
    case OtherRecord => false
  }

  /** Only an Agent call has a subagent: the one the record names, or else the one in the result's trailer. */
  ghost predicate NamesSubagent(toolName: string, agentId: Option<string>, trailer: Option<string>, sub: Option<string>)
  {
    match sub
    case Some(x) =>
      toolName == "Agent" && (if agentId.None? || agentId.value == "" then trailer else agentId) == Some(x)
    case None => toolName == "Agent" ==> (agentId.None? || agentId.value == "") && trailer.None?
  }

  /** The answer of tool_result `at`, unless it is blank or an earlier one answers the same call. */
  ghost predicate TellsAnswer(raw: Raw, at: nat, e: Event) {
    && raw.payload.UserRecord? && at < |raw.payload.results|
    && var r := raw.payload.results[at];
    && r.callId != "" && (forall j :: 0 <= j < at ==> raw.payload.results[j].callId != r.callId)
    && e.id == raw.uuid + "-" + ("tool_result-" + r.callId)
    && e.body.ToolResult? && e.body.callId == r.callId && e.body.output == r.output && e.body.isError == r.isError
    && NamesSubagent(e.body.toolName, raw.payload.agentId, r.trailer, e.body.subagentId)
  }

  /** The record tells the event `e`: its own message, at place -1, or the answer of its tool_result `at`. A
      record without uuid or timestamp tells nothing. */
  ghost predicate Tells(record: Option<Raw>, s: SessionId, at: int, e: Event) {
    && record.Some? && record.value.uuid != "" && record.value.timestamp == Some(e.timestamp)
    && e.session == s && e.messageUuid == record.value.uuid
    && (if at == -1 then TellsMessage(record.value, e) else 0 <= at && TellsAnswer(record.value, at, e))
  }

  /** An answer carries the name its call is known by, if it is. */
  ghost predicate CalledBy(names: map<string, string>, e: Event) {
    e.body.ToolResult? ==> e.body.toolName == if e.body.callId in names then names[e.body.callId] else "unknown"
  }

  /** The message first, then the answers as they stand. */
  ghost predicate InPlace(record: Option<Raw>, s: SessionId, events: seq<Event>) {
    forall i, j, a, b :: 0 <= i < j < |events| && Tells(record, s, a, events[i]) && Tells(record, s, b, events[j]) ==>
      a < b
  }

  // ---------------------------------------------------------------- one record

  /** The message and the first `n` results have been read. */
  ghost predicate ReadSoFar(record: Option<Raw>, s: SessionId, names: map<string, string>, n: nat, events: seq<Event>) {
    && (forall e :: e in events <==> CalledBy(names, e) && exists at :: at < n && Tells(record, s, at, e))
    && InPlace(record, s, events)
  }

  lemma AnswerIsTold(raw: Raw, ts: int, s: SessionId, names: map<string, string>, n: nat)
    requires raw.uuid != "" && raw.timestamp == Some(ts) && raw.payload.UserRecord? && n < |raw.payload.results|
    ensures var r := raw.payload.results[n];
      var e := ResultEvent(raw, ts, raw.payload.agentId, r, names, s);
      && CalledBy(names, e) && e.id == raw.uuid + "-" + ("tool_result-" + r.callId)
      && (r.callId != "" && (forall j :: 0 <= j < n ==> raw.payload.results[j].callId != r.callId)
          <==> Tells(Some(raw), s, n, e))
      && (forall e' :: Tells(Some(raw), s, n, e') && CalledBy(names, e') ==> e' == e)
  {}

  lemma AnswerIdsDiffer(uuid: string, c: string, c': string)
    requires uuid + "-" + ("tool_result-" + c) == uuid + "-" + ("tool_result-" + c')
    ensures c == c'
  {
    var p := uuid + "-";
    SplitConcat(p, "tool_result-" + c);
    SplitConcat(p, "tool_result-" + c');
    SplitConcat("tool_result-", c);
    SplitConcat("tool_result-", c');
  }

  lemma AnswerIsNoMessage(uuid: string, c: string)
    ensures uuid + "-" + ("tool_result-" + c) != uuid + "-" + "user"
  {
    assert (uuid + "-" + ("tool_result-" + c))[|uuid| + 1] == 't';
    assert (uuid + "-" + "user")[|uuid| + 1] == 'u';
  }

  lemma {:induction false} FirstAnswer(results: seq<RawResult>, j: nat) returns (first: nat)
    requires j < |results|
    ensures first <= j && results[first].callId == results[j].callId
    ensures forall i :: 0 <= i < first ==> results[i].callId != results[j].callId
  {
    first := j;
    if i :| 0 <= i < j && results[i].callId == results[j].callId {
      first := FirstAnswer(results, i);
    }
  }

  /** An answer is new exactly if no earlier result answers the same call. */
  lemma AnswerIsNewIff(raw: Raw, ts: int, s: SessionId, names: map<string, string>, n: nat, events: seq<Event>)
    requires raw.uuid != "" && raw.timestamp == Some(ts) && raw.payload.UserRecord? && n < |raw.payload.results|
    requires ReadSoFar(Some(raw), s, names, n, events) && raw.payload.results[n].callId != ""
    ensures var results := raw.payload.results;
      raw.uuid + "-" + ("tool_result-" + results[n].callId) in Ids(events)
      <==> exists j :: 0 <= j < n && results[j].callId == results[n].callId
  {
    var results := raw.payload.results;
    var id := raw.uuid + "-" + ("tool_result-" + results[n].callId);
    if e :| e in events && e.id == id {
      var at :| at < n && Tells(Some(raw), s, at, e);
      if at == -1 {
        AnswerIsNoMessage(raw.uuid, results[n].callId);
      } else {
        AnswerIdsDiffer(raw.uuid, results[at].callId, results[n].callId);
      }
    }
    if j :| 0 <= j < n && results[j].callId == results[n].callId {
      var first := FirstAnswer(results, j);
      AnswerIsTold(raw, ts, s, names, first);
      var e := ResultEvent(raw, ts, raw.payload.agentId, results[first], names, s);
      assert Tells(Some(raw), s, first, e) && first < n;
      assert e in events;
    }
  }

  lemma ReadOneMore(record: Option<Raw>, s: SessionId, names: map<string, string>, n: nat, events: seq<Event>, e: Event)
    requires ReadSoFar(record, s, names, n, events) && Tells(record, s, n, e) && CalledBy(names, e)
    requires forall e' :: Tells(record, s, n, e') && CalledBy(names, e') ==> e' == e
    requires forall a, e' :: e' in events && Tells(record, s, a, e') ==> a < n
    requires forall a :: Tells(record, s, a, e) ==> a == n
    ensures ReadSoFar(record, s, names, n + 1, events + [e])
  {
    forall x ensures x in events + [e] <==> CalledBy(names, x) && exists at :: at < n + 1 && Tells(record, s, at, x) {
      if CalledBy(names, x) && x !in events {
        if at :| at < n + 1 && Tells(record, s, at, x) {
          assert at == n;
        }
      }
      if x in events {
        var at :| at < n && Tells(record, s, at, x);
        assert at < n + 1;
      }
    }
    forall i, j, a, b | 0 <= i < j < |events + [e]| && Tells(record, s, a, (events + [e])[i])
        && Tells(record, s, b, (events + [e])[j]) ensures a < b {
      if j < |events| {
        assert Tells(record, s, a, events[i]) && Tells(record, s, b, events[j]);
      } else {
        assert events[i] in events;
      }
    }
  }

  /** An event has one place in its record. */
  lemma PlaceIsUnique(record: Option<Raw>, s: SessionId, a: int, b: int, e: Event)
    requires Tells(record, s, a, e) && Tells(record, s, b, e)
    ensures a == b
  {}

  lemma ReadNothingMore(record: Option<Raw>, s: SessionId, names: map<string, string>, n: nat, events: seq<Event>)
    requires ReadSoFar(record, s, names, n, events) && forall e :: !Tells(record, s, n, e)
    ensures ReadSoFar(record, s, names, n + 1, events)
  {
    forall e ensures e in events <==> CalledBy(names, e) && exists at :: at < n + 1 && Tells(record, s, at, e) {
      if CalledBy(names, e) {
        if at :| at < n + 1 && Tells(record, s, at, e) {
          assert at != n;
        }
      }
    }
  }

  lemma ReadOneResult(raw: Raw, ts: int, s: SessionId, names: map<string, string>, n: nat, events: seq<Event>)
    requires raw.uuid != "" && raw.timestamp == Some(ts) && raw.payload.UserRecord? && n < |raw.payload.results|
    requires ReadSoFar(Some(raw), s, names, n, events)
    ensures var r := raw.payload.results[n];
      var e := ResultEvent(raw, ts, raw.payload.agentId, r, names, s);
      ReadSoFar(Some(raw), s, names, n + 1, if r.callId == "" || e.id in Ids(events) then events else events + [e])
  {
    var r := raw.payload.results[n];
    var e := ResultEvent(raw, ts, raw.payload.agentId, r, names, s);
    AnswerIsTold(raw, ts, s, names, n);
    if r.callId == "" {
      ReadNothingMore(Some(raw), s, names, n, events);
    } else {
      AnswerIsNewIff(raw, ts, s, names, n, events);
      if e.id in Ids(events) {
        ReadNothingMore(Some(raw), s, names, n, events);
      } else {
        forall a, e' | e' in events && Tells(Some(raw), s, a, e') ensures a < n {
          var at :| at < n && Tells(Some(raw), s, at, e');
          PlaceIsUnique(Some(raw), s, a, at, e');
        }
        forall a | Tells(Some(raw), s, a, e) ensures a == n {
          PlaceIsUnique(Some(raw), s, a, n, e);
        }
        ReadOneMore(Some(raw), s, names, n, events, e);
      }
    }
  }

  lemma ReadNext(raw: Raw, ts: int, s: SessionId, n: nat, acc: Parsed) returns (acc': Parsed)
    requires raw.uuid != "" && raw.timestamp == Some(ts) && raw.payload.UserRecord? && n < |raw.payload.results|
    requires ReadSoFar(Some(raw), s, acc.names, n, acc.events) && acc.seen == Ids(acc.events)
    ensures var e := ResultEvent(raw, ts, raw.payload.agentId, raw.payload.results[n], acc.names, s);
        acc' == if raw.payload.results[n].callId == "" || e.id in acc.seen then acc else Emit(acc, e)
    ensures ReadSoFar(Some(raw), s, acc.names, n + 1, acc'.events) && acc'.seen == Ids(acc'.events)
  {
    var e := ResultEvent(raw, ts, raw.payload.agentId, raw.payload.results[n], acc.names, s);
    acc' := if raw.payload.results[n].callId == "" || e.id in acc.seen then acc else Emit(acc, e);
    ReadOneResult(raw, ts, s, acc.names, n, acc.events);
    assert Ids(acc.events + [e]) == Ids(acc.events) + {e.id};
  }

  lemma {:induction false} ReadResults(raw: Raw, ts: int, s: SessionId, n: nat, acc: Parsed)
    requires raw.uuid != "" && raw.timestamp == Some(ts) && raw.payload.UserRecord? && n <= |raw.payload.results|
    requires ReadSoFar(Some(raw), s, acc.names, n, acc.events) && acc.seen == Ids(acc.events)
    ensures var results := raw.payload.results;
      ReadSoFar(Some(raw), s, acc.names, |results|,
                ParseResults(raw, ts, raw.payload.agentId, results[n..], acc, s).events)
    decreases |raw.payload.results| - n
  {
    var results := raw.payload.results;
    if n < |results| {
      var acc' := ReadNext(raw, ts, s, n, acc);
      assert results[n..][1..] == results[n + 1..];
      ReadResults(raw, ts, s, n + 1, acc');
    }
  }

  lemma ReadMessage(record: Option<Raw>, s: SessionId, names: map<string, string>, events: seq<Event>)
    requires |events| <= 1 && forall e :: e in events <==> Tells(record, s, -1, e)
    ensures ReadSoFar(record, s, names, 0, events)
  {
    forall e ensures e in events <==> CalledBy(names, e) && exists at :: at < 0 && Tells(record, s, at, e) {
      if e in events {
        assert Tells(record, s, -1, e);
      }
    }
  }

  /** How many places a record has after its message. */
  function Places(record: Option<Raw>): nat {
    if record.Some? && record.value.payload.UserRecord? then |record.value.payload.results| else 0
  }

  lemma ReadAll(record: Option<Raw>, names: map<string, string>, s: SessionId)
    ensures ReadSoFar(record, s, names, Places(record), Fresh(record, names, s).events)
  {
    if record.None? || record.value.uuid == "" || record.value.timestamp.None? {
    } else if record.value.payload.UserRecord? {
      var raw, ts := record.value, record.value.timestamp.value;
      var UserRecord(hasUserText, text, isHidden, agentId, results) := raw.payload;
      var e := Event(MakeEventId(raw.uuid, "user"), ts, s, raw.uuid, UserMessage(text));
      var start: Parsed := Parsed([], {}, names);
      var acc := if hasUserText && text != "" && !isHidden then Emit(start, e) else start;
      ReadMessage(record, s, names, acc.events);
      assert results[0..] == results;
      ReadResults(raw, ts, s, 0, acc);
    } else {
      ReadMessage(record, s, names, Fresh(record, names, s).events);
    }
  }

  /** What a record yields is exactly what it tells: every event of it and no other, in place, answers under
      the names by which their calls are known. */
  lemma RecordYieldsWhatItTells(record: Option<Raw>, names: map<string, string>, s: SessionId)
    ensures var events := Fresh(record, names, s).events;
      && (forall e :: e in events <==> CalledBy(names, e) && exists at :: Tells(record, s, at, e))
      && InPlace(record, s, events)
  {
    ReadAll(record, names, s);
    forall at, e | Tells(record, s, at, e) ensures at < Places(record) {}
  }

  /** A record yields nothing exactly if it has no uuid or no timestamp, or there is nothing in it to tell. */
  lemma RecordYieldsNothingIff(record: Option<Raw>, names: map<string, string>, s: SessionId)
    ensures Fresh(record, names, s).events == [] <==>
      record.None? || record.value.uuid == "" || record.value.timestamp.None?
      || match record.value.payload
         case AssistantRecord(isResumeReply, _, _) => isResumeReply
         case UserRecord(hasUserText, text, isHidden, _, results) =>
           (!hasUserText || text == "" || isHidden) && forall j :: 0 <= j < |results| ==> results[j].callId == ""
         case QueuedRecord(prompt) => prompt.None?
         case OtherRecord => true
  {
    RecordYieldsWhatItTells(record, names, s);
    var events := Fresh(record, names, s).events;
    if record.Some? && record.value.uuid != "" && record.value.timestamp.Some? && record.value.payload.UserRecord? {
      var raw, ts := record.value, record.value.timestamp.value;
      var results := raw.payload.results;
      if raw.payload.hasUserText && raw.payload.text != "" && !raw.payload.isHidden {
        var e := Event(raw.uuid + "-" + "user", ts, s, raw.uuid, UserMessage(raw.payload.text));
        assert Tells(record, s, -1, e);
        assert e in events;
      }
      if j :| 0 <= j < |results| && results[j].callId != "" {
        var first := FirstAnswer(results, j);
        AnswerIsTold(raw, ts, s, names, first);
        assert ResultEvent(raw, ts, raw.payload.agentId, results[first], names, s) in events;
      }
      if events != [] {
        assert events[0] in events;
      }
    }
  }

  // ---------------------------------------------------------------- many records

  ghost predicate TellsId(record: Option<Raw>, s: SessionId, id: EventId) {
    exists at, e :: Tells(record, s, at, e) && e.id == id
  }

  /** Record `k` is the first that tells the id. */
  ghost predicate FirstTells(records: seq<Option<Raw>>, s: SessionId, k: int, id: EventId) {
    && 0 <= k < |records| && TellsId(records[k], s, id)
    && forall j :: 0 <= j < k ==> !TellsId(records[j], s, id)
  }

  /** Each event is one told under an id new to the file, by the first of `n` records that tells it. */
  ghost predicate EachIsTold(records: seq<Option<Raw>>, s: SessionId, existing: set<EventId>, n: nat,
                             events: seq<Event>)
  {
    forall e :: e in events ==>
      e.id !in existing && exists k, at :: 0 <= k < n && FirstTells(records, s, k, e.id) && Tells(records[k], s, at, e)
  }

  /** Each id told by one of `n` records is known. */
  ghost predicate NoneIsLost(records: seq<Option<Raw>>, s: SessionId, n: nat, known: set<EventId>)
    requires n <= |records|
  {
    forall k, id :: 0 <= k < n && TellsId(records[k], s, id) ==> id in known
  }

  /** Record by record, and within each in place. */
  ghost predicate InFileOrder(records: seq<Option<Raw>>, s: SessionId, events: seq<Event>) {
    forall i, j, k, m, a, b :: 0 <= i < j < |events| ==> InOrder(records, s, events[i], events[j], k, m, a, b)
  }

  ghost predicate InOrder(records: seq<Option<Raw>>, s: SessionId, e: Event, e': Event, k: int, m: int, a: int, b: int)
  {
    && FirstTells(records, s, k, e.id) && Tells(records[k], s, a, e)
    && FirstTells(records, s, m, e'.id) && Tells(records[m], s, b, e')
    ==> k < m || (k == m && a < b)
  }

  /** The name the message gives the call: that of its last use under the call's id. */
  function CallName(calls: seq<ToolUse>, call: string): Option<string> {
    if calls == [] then None
    else if calls[|calls| - 1].callId == call != "" && calls[|calls| - 1].name != "" then Some(calls[|calls| - 1].name)
    else CallName(calls[..|calls| - 1], call)
  }

  /** The name a call is known by after some events: the one the last of them gives it, else the one it had. */
  function NameAfter(names: map<string, string>, events: seq<Event>, call: string): string {
    if events == [] then if call in names then names[call] else "unknown"
    else
      var last := events[|events| - 1];
      if last.body.AssistantMessage? && CallName(last.body.toolCalls, call).Some?
      then CallName(last.body.toolCalls, call).value
      else NameAfter(names, events[..|events| - 1], call)
  }

  /** Answers carry the names their calls are known by when they are read. */
  ghost predicate AnswersAreNamed(names: map<string, string>, events: seq<Event>) {
    forall p :: 0 <= p < |events| && events[p].body.ToolResult? ==>
      events[p].body.toolName == NameAfter(names, events[..p], events[p].body.callId)
  }

  lemma FirstTellsIsUnique(records: seq<Option<Raw>>, s: SessionId, k: int, m: int, id: EventId)
    requires FirstTells(records, s, k, id) && FirstTells(records, s, m, id)
    ensures k == m
  {}

  lemma {:induction false} UnseenInPlace(record: Option<Raw>, s: SessionId, events: seq<Event>, seen: set<EventId>)
    requires InPlace(record, s, events)
    ensures InPlace(record, s, Unseen(events, seen))
  {
    if events != [] {
      var head, rest := if events[0].id in seen then [] else [events[0]], Unseen(events[1..], seen);
      assert forall i :: 0 <= i < |events[1..]| ==> events[1..][i] == events[i + 1];
      UnseenInPlace(record, s, events[1..], seen);
      forall j, a, b | 0 <= j < |rest| && Tells(record, s, a, events[0]) && Tells(record, s, b, rest[j]) ensures a < b {
        UnseenMember(events[1..], seen, rest[j]);
        var i :| 0 <= i < |events[1..]| && events[1..][i] == rest[j];
        assert events[i + 1] == rest[j];
      }
    }
  }

  /** What one more record adds. */
  ghost predicate Adds(record: Option<Raw>, s: SessionId, acc: Parsed, more: seq<Event>, acc': Parsed) {
    && acc'.events == acc.events + more && acc'.seen >= acc.seen + Ids(more)
    && (forall e :: e in more ==> e.id !in acc.seen && CalledBy(acc.names, e) && exists at :: Tells(record, s, at, e))
    && (forall id :: TellsId(record, s, id) ==> id in acc'.seen)
    && InPlace(record, s, more)
    && (forall id :: id in acc'.seen ==> id in acc.seen + Ids(more))
  }

  lemma RecordAdds(record: Option<Raw>, s: SessionId, acc: Parsed) returns (more: seq<Event>)
    ensures Adds(record, s, acc, more, ParseRecord(record, acc, s))
    ensures more == Unseen(Fresh(record, acc.names, s).events, acc.seen)
  {
    var clean := Fresh(record, acc.names, s).events;
    more := Unseen(clean, acc.seen);
    DedupOnlyHides(record, acc, s);
    RecordYieldsWhatItTells(record, acc.names, s);
    UnseenInPlace(record, s, clean, acc.seen);
    forall e ensures e in more <==> e in clean && e.id !in acc.seen {
      UnseenMember(clean, acc.seen, e);
    }
    forall id | TellsId(record, s, id) ensures id in Ids(clean) {
      TellsIdYields(record, acc.names, s, id);
    }
    forall id | id in Ids(clean) && id !in acc.seen ensures id in Ids(more) {
      var e :| e in clean && e.id == id;
      assert e in more;
    }
  }

  lemma TellsIdYields(record: Option<Raw>, names: map<string, string>, s: SessionId, id: EventId)
    requires TellsId(record, s, id)
    ensures id in Ids(Fresh(record, names, s).events)
  {
    RecordYieldsWhatItTells(record, names, s);
    var at, e :| Tells(record, s, at, e) && e.id == id;
    if e.body.ToolResult? {
      var raw := record.value;
      AnswerIsTold(raw, e.timestamp, s, names, at);
      assert ResultEvent(raw, e.timestamp, raw.payload.agentId, raw.payload.results[at], names, s)
          in Fresh(record, names, s).events;
    } else {
      assert e in Fresh(record, names, s).events;
    }
  }

  lemma MoreIsTold(records: seq<Option<Raw>>, s: SessionId, existing: set<EventId>, n: nat, acc: Parsed,
                   more: seq<Event>, acc': Parsed)
    requires n < |records| && Adds(records[n], s, acc, more, acc')
    requires EachIsTold(records, s, existing, n, acc.events) && NoneIsLost(records, s, n, acc.seen)
    requires existing <= acc.seen
    ensures EachIsTold(records, s, existing, n + 1, acc'.events) && NoneIsLost(records, s, n + 1, acc'.seen)
  {
    forall e | e in acc'.events
      ensures e.id !in existing
      ensures exists k, at :: 0 <= k < n + 1 && FirstTells(records, s, k, e.id) && Tells(records[k], s, at, e)
    {
      if e in acc.events {
        var k, at :| 0 <= k < n && FirstTells(records, s, k, e.id) && Tells(records[k], s, at, e);
        assert 0 <= k < n + 1;
      } else {
        assert e in more;
        var at :| Tells(records[n], s, at, e);
        assert FirstTells(records, s, n, e.id);
      }
    }
  }

  lemma MoreIsInOrder(records: seq<Option<Raw>>, s: SessionId, existing: set<EventId>, n: nat, acc: Parsed,
                      more: seq<Event>, acc': Parsed)
    requires n < |records| && Adds(records[n], s, acc, more, acc')
    requires EachIsTold(records, s, existing, n, acc.events) && NoneIsLost(records, s, n, acc.seen)
    requires InFileOrder(records, s, acc.events)
    ensures InFileOrder(records, s, acc'.events)
  {
    var events := acc'.events;
    forall i, j, k, m, a, b | 0 <= i < j < |events| ensures InOrder(records, s, events[i], events[j], k, m, a, b) {
      if FirstTells(records, s, k, events[i].id) && Tells(records[k], s, a, events[i])
          && FirstTells(records, s, m, events[j].id) && Tells(records[m], s, b, events[j]) {
        if j < |acc.events| {
          assert InOrder(records, s, acc.events[i], acc.events[j], k, m, a, b);
        } else {
          NewIsFromHere(records, s, n, acc, more, acc', events[j], m);
          if i < |acc.events| {
            assert acc.events[i] in acc.events;
            var k', at :| 0 <= k' < n && FirstTells(records, s, k', events[i].id)
                          && Tells(records[k'], s, at, events[i]);
            FirstTellsIsUnique(records, s, k, k', events[i].id);
          } else {
            NewIsFromHere(records, s, n, acc, more, acc', events[i], k);
            assert more[i - |acc.events|] == events[i] && more[j - |acc.events|] == events[j];
          }
        }
      }
    }
  }

  lemma NewIsFromHere(records: seq<Option<Raw>>, s: SessionId, n: nat, acc: Parsed, more: seq<Event>, acc': Parsed,
                      e: Event, k: int)
    requires n < |records| && Adds(records[n], s, acc, more, acc') && NoneIsLost(records, s, n, acc.seen)
    requires e in more && FirstTells(records, s, k, e.id)
    ensures k == n
  {
    var at :| Tells(records[n], s, at, e);
    assert TellsId(records[n], s, e.id);
    assert FirstTells(records, s, n, e.id);
    FirstTellsIsUnique(records, s, k, n, e.id);
  }

  // ---------------------------------------------------------------- the names of calls

  lemma {:induction false} AddNamesGives(names: map<string, string>, uses: seq<ToolUse>, call: string)
    ensures NameOf(AddNames(names, uses), call)
         == if CallName(uses, call).Some? then CallName(uses, call).value else NameOf(names, call)
    decreases |uses|
  {
    if uses != [] {
      var use := uses[0];
      AddNamesGives(if use.callId != "" && use.name != "" then names[use.callId := use.name] else names, uses[1..],
                    call);
      CallNameCons(uses, call);
    }
  }

  lemma {:induction false} CallNameCons(uses: seq<ToolUse>, call: string)
    requires uses != []
    ensures CallName(uses, call) == if CallName(uses[1..], call).Some? then CallName(uses[1..], call)
        else CallName([uses[0]], call)
  {
    var n := |uses| - 1;
    if n > 0 {
      assert uses[1..][..n - 1] == uses[..n][1..] && uses[1..][n - 1] == uses[n];
      CallNameCons(uses[..n], call);
    } else {
      assert uses == [uses[0]] && uses[1..] == [];
    }
  }

  lemma NameAfterSnoc(names: map<string, string>, events: seq<Event>, e: Event, call: string)
    ensures NameAfter(names, events + [e], call)
         == if e.body.AssistantMessage? && CallName(e.body.toolCalls, call).Some?
            then CallName(e.body.toolCalls, call).value
            else NameAfter(names, events, call)
  {
    assert (events + [e])[..|events|] == events;
  }

  lemma {:induction false} NameAfterAnswers(names: map<string, string>, events: seq<Event>, more: seq<Event>,
                                            call: string)
    requires forall e :: e in more ==> !e.body.AssistantMessage?
    ensures NameAfter(names, events + more, call) == NameAfter(names, events, call)
    decreases |more|
  {
    if more == [] {
      assert events + more == events;
    } else {
      var init, last := more[..|more| - 1], more[|more| - 1];
      assert more == init + [last];
      NameAfterAnswers(names, events, init, call);
      NameAfterSnoc(names, events + init, last, call);
      assert events + more == (events + init) + [last];
    }
  }

  /** The map says what the events say. */
  ghost predicate NamesFollow(names: map<string, string>, acc: Parsed) {
    forall call :: NameOf(acc.names, call) == NameAfter(names, acc.events, call)
  }

  lemma RecordNames(record: Option<Raw>, s: SessionId, names: map<string, string>, acc: Parsed)
    requires NamesFollow(names, acc) && AnswersAreNamed(names, acc.events)
    ensures var acc' := ParseRecord(record, acc, s); NamesFollow(names, acc') && AnswersAreNamed(names, acc'.events)
  {
    var acc' := ParseRecord(record, acc, s);
    var more := RecordAdds(record, s, acc);
    if record.Some? && record.value.uuid != "" && record.value.timestamp.Some?
        && record.value.payload.AssistantRecord? {
      AssistantNames(record, s, names, acc);
    } else {
      SameNames(record, s, acc);
      AnswersNames(record, s, names, acc, more, acc');
    }
  }

  lemma SameNames(record: Option<Raw>, s: SessionId, acc: Parsed)
    requires record.None? || record.value.uuid == "" || record.value.timestamp.None?
        || !record.value.payload.AssistantRecord?
    ensures ParseRecord(record, acc, s).names == acc.names
  {
    if record.Some? && record.value.uuid != "" && record.value.timestamp.Some? && record.value.payload.UserRecord? {
      var raw, ts := record.value, record.value.timestamp.value;
      var UserRecord(hasUserText, text, isHidden, agentId, results) := raw.payload;
      var e := Event(MakeEventId(raw.uuid, "user"), ts, s, raw.uuid, UserMessage(text));
      ParseResultsKeepNames(raw, ts, agentId, results, acc, s);
      ParseResultsKeepNames(raw, ts, agentId, results, Emit(acc, e), s);
    }
  }

  lemma AnswersNames(record: Option<Raw>, s: SessionId, names: map<string, string>, acc: Parsed, more: seq<Event>,
                     acc': Parsed)
    requires NamesFollow(names, acc) && AnswersAreNamed(names, acc.events) && Adds(record, s, acc, more, acc')
    requires acc'.names == acc.names
    requires record.None? || record.value.uuid == "" || record.value.timestamp.None?
        || !record.value.payload.AssistantRecord?
    ensures NamesFollow(names, acc') && AnswersAreNamed(names, acc'.events)
  {
    forall e | e in more ensures !e.body.AssistantMessage? {
      var at :| Tells(record, s, at, e);
    }
    forall call ensures NameOf(acc'.names, call) == NameAfter(names, acc'.events, call) {
      NameAfterAnswers(names, acc.events, more, call);
    }
    forall p | 0 <= p < |acc'.events| && acc'.events[p].body.ToolResult?
      ensures acc'.events[p].body.toolName == NameAfter(names, acc'.events[..p], acc'.events[p].body.callId)
    {
      if p < |acc.events| {
        assert acc'.events[..p] == acc.events[..p];
      } else {
        var q := p - |acc.events|;
        assert acc'.events[p] == more[q] && acc'.events[..p] == acc.events + more[..q];
        NameAfterAnswers(names, acc.events, more[..q], more[q].body.callId);
      }
    }
  }

  lemma AssistantNames(record: Option<Raw>, s: SessionId, names: map<string, string>, acc: Parsed)
    requires record.Some? && record.value.uuid != "" && record.value.timestamp.Some?
        && record.value.payload.AssistantRecord?
    requires NamesFollow(names, acc) && AnswersAreNamed(names, acc.events)
    ensures var acc' := ParseRecord(record, acc, s); NamesFollow(names, acc') && AnswersAreNamed(names, acc'.events)
  {
    var acc' := ParseRecord(record, acc, s);
    if acc' != acc {
      var e := acc'.events[|acc.events|];
      var uses := record.value.payload.uses;
      assert acc'.events == acc.events + [e] && acc'.names == AddNames(acc.names, uses) && e.body.toolCalls == uses;
      forall call ensures NameOf(acc'.names, call) == NameAfter(names, acc'.events, call) {
        AddNamesGives(acc.names, uses, call);
        NameAfterSnoc(names, acc.events, e, call);
      }
      forall p | 0 <= p < |acc'.events| && acc'.events[p].body.ToolResult?
        ensures acc'.events[p].body.toolName == NameAfter(names, acc'.events[..p], acc'.events[p].body.callId)
      {
        assert acc'.events[..p] == acc.events[..p];
      }
    }
  }

  // ---------------------------------------------------------------- the whole parse

  /** The events are what the first `n` records tell that was not there before, in file order, answers under
      the names their calls had been given by then. */
  ghost predicate Transcribes(records: seq<Option<Raw>>, s: SessionId, existing: set<EventId>,
                              names: map<string, string>, n: nat, acc: Parsed)
    requires n <= |records|
  {
    && EachIsTold(records, s, existing, n, acc.events) && NoneIsLost(records, s, n, acc.seen)
    && acc.seen == existing + Ids(acc.events) && InFileOrder(records, s, acc.events)
    && NamesFollow(names, acc) && AnswersAreNamed(names, acc.events)
  }

  lemma TranscribesMore(records: seq<Option<Raw>>, s: SessionId, existing: set<EventId>, names: map<string, string>,
                        n: nat, acc: Parsed)
    requires n < |records| && Transcribes(records, s, existing, names, n, acc)
    ensures Transcribes(records, s, existing, names, n + 1, ParseRecord(records[n], acc, s))
  {
    var acc' := ParseRecord(records[n], acc, s);
    var more := RecordAdds(records[n], s, acc);
    MoreIsTold(records, s, existing, n, acc, more, acc');
    MoreIsInOrder(records, s, existing, n, acc, more, acc');
    RecordNames(records[n], s, names, acc);
    assert Ids(acc'.events) == Ids(acc.events) + Ids(more);
  }

  lemma {:induction false} ParseTranscribesFrom(records: seq<Option<Raw>>, s: SessionId, existing: set<EventId>,
                                                names: map<string, string>, n: nat, acc: Parsed)
    requires n <= |records| && Transcribes(records, s, existing, names, n, acc)
    ensures Transcribes(records, s, existing, names, |records|, ParseRecords(records[n..], acc, s))
    decreases |records| - n
  {
    if n < |records| {
      TranscribesMore(records, s, existing, names, n, acc);
      assert records[n..][1..] == records[n + 1..];
      ParseTranscribesFrom(records, s, existing, names, n + 1, ParseRecord(records[n], acc, s));
    }
  }

  /** What the record loop yields: each event is one that the records tell under an id not there before, as
      the first record to tell that id tells it; no such id is left out; they stand in file order; and every
      answer carries the name that the last message before it gave its call. */
  lemma ParseTranscribes(records: seq<Option<Raw>>, s: SessionId, existing: set<EventId>, names: map<string, string>)
    ensures Transcribes(records, s, existing, names, |records|,
                        ParseRecords(records, Parsed([], existing, names), s))
  {
    assert records[0..] == records;
    ParseTranscribesFrom(records, s, existing, names, 0, Parsed([], existing, names));
  }
}
