# Verified models of the transcript pipeline and its supporting cores

An agent writes its conversation as append-only JSONL session files. A server process tails those
files, keeps a bodyless index of every event plus a bounded cache of parsed bodies, pages the index
to browsers and broadcasts what is new; the browser holds a sliding window of the same log. This
project models that pipeline in Dafny, with seven smaller cores of the same repository, and proves
what they are for. `dafny verify dfyconfig.toml` checks everything.

## The transcript pipeline

The simple specification is one flat list of events. Files, in the order they build on each other:

- `SessionParser.dfy`, `LineSplitter.dfy`, `Tailing.dfy`: cutting appended bytes into complete lines
  and parsing them, threading one dedup set and one tool-name map; however a file is written out and
  refreshed, the result is that of one parse of the consumed prefix.
- `RecordEvents.dfy`: what that parse is, said on the records: which events each tells and what they carry.
- `BodyCache.dfy`, `WatcherModel.dfy`, `WatcherRefresh.dfy`: the bounded LRU, the watcher as a value,
  and how a refresh moves its books line by line.
- `WatcherEmission.dfy`, `WatcherBodies.dfy`, `WatcherRuns.dfy`: its lock-held sections as steps. Over
  every interleaving of readers, priming and the poll thread the index is exact; emission is exactly
  once if each line's events fit the cache; the LRU is invisible if, besides, the lines agree.
- `WatcherLeak.dfy`: two runs at whose end it is not.
- `SessionWatcher.dfy`: the watcher as the objects the source updates in place (the agent's maps, one
  shared state object per file), each method proved equal to a step of the value model.
- `WatcherTailing.dfy`: several files sharing the dedup set and the name map, against one parse each,
  over every run with files appearing and being truncated.
- `Collectors.dfy`: the four multi-file page collectors against slices of the flat list.
- `EventsEndpoint.dfy`: how a page, its offset and the total become one response, on a watcher whose
  index is exact, and that the responses are what the client's window counts on.
- `TranscriptStore.dfy`, `TranscriptObjects.dfy`, `TranscriptWindow.dfy`: the client's store as a
  value, on shared event objects, and against the server's log over whole sessions.
- `StreamingMessage.dfy`: one snapshot fetch racing with the live stream.
- `StreamLife.dfy`: when that stream is up, over every run of connects, errors, timers and disconnects.
- `Links.dfy`, `Linkage.dfy`: which subagent a call is linked to, said on what was found and heard; and
  metadata that arrives after its parent was broadcast.

## Supporting cores

- `EventQueues.dfy`: replay and live fan-out, with puts made after the lock is released.
- `Broadcaster.dfy`: bounded WebSocket queues and the eviction of clients that make no progress.
- `PendingMessages.dfy`: greedy matching of optimistic messages to transcript events.
- `NewlineNormalizer.dfy`: the shell newline and comment scanner, and segment splitting.
- `BackupLoop.dfy`: the backup tick loop over time.
- `VirtualWindow.dfy`: which rows of a long list to render.
- `EnvFile.dfy`: the env-file printer and parser.
- `Common.dfy`: vocabulary and slice lemmas shared by the others.

## Hypotheses

The code does not give the properties without these; each stands as a `requires` where it is used.

- A file only grows, or shrinks below the consumed offset and is refreshed before it grows past it
  again. A rewrite of the same size is not seen (`session_watcher.py:694-712`).
- No proper prefix of an object is complete (section 4 of RFC 8259): a line complete before its
  newline arrives holds only blanks after that point (`Tailing.ObjectLine`).
- A line holds no Unicode line break other than the newline, because `splitlines` would cut it.
- The LRU capacity is at least the number of events of a line (`WatcherEmission.Fits`); this is all
  emission needs, and `BodyCache.MissServedIff` is exact in it.
- For served bodies: a record's tool_use lines precede its results and no call is named twice differently
  (`WatcherBodies.NamesHold`; without it, `WatcherLeak.LateNameIsVisible`), and a line agrees with the
  lines behind locators on the events both yield
  (`WatcherBodies.LineAgrees`, exact by `LineKeepsCacheInvisibleIff`; without it,
  `WatcherLeak.PartlyKnownLineIsVisible`).
- Each event id belongs to one session (`WatcherTailing.OwnedBy`).
- A page lands on the window it was requested for, since there is no generation token, and a live
  event is held or the next one after the window (`TranscriptWindow.Legal`).
- The flat log the client pages over grows at its end: of the main sessions only the last one still
  grows (`EventsEndpoint.LastFileGrowsTheEnd`, `EarlierFileMovesTheRest`).
- One snapshot load per agent is in flight at a time.
- For the greedy match to be maximum, no history is paged in between a send and its reconciliation, so
  that the snapshot stands first in the transcript (`PendingMessages.SnapshotStandsFirst`).
- The session ids of the history are distinct (`EventsEndpoint.GetEvents`).
- Parents are emitted once, with distinct call ids and a message uuid, parsed without metadata; no reader attaches metadata to
  a cached parent's shared dict. Without the last, `Linkage.ReaderOvertakesIff` and
  `Linkage.TurnDeliversIff` say exactly what is lost.
- Queues promise each event once, not the order of live events. Order takes one producer per agent
  (`EventQueues.SingleProducer`), or exactly that every put is in turn (`EventQueues.OrderKeptIff`).
- Backup poll interval and gap are not negative, the clock does not go back, sleeps are not cut short.

## Where the code differs from what it says

- Two identical sends are meant to reconcile against two events. `claimed` is local to one call, so
  the next call drops the second bubble with the first one's event
  (`PendingMessages.IdenticalSendsCollapse`, exact condition in `SecondCallReusesIff`).
- The virtual window is documented as empty when no row overlaps; the code renders one row
  (`VirtualWindow.SliceIsTheOverlap`; past the end, the last one: `PastTheEndTheLastRowShows`).
- The env printer quotes values with newlines as if they could come back; the parser cuts lines first
  (`EnvFile.NewlineValueIsLost`, exact condition in `RoundTripIff`).
- The scanner treats an escaped blank, newline or operator as the end of a word; the shell does not
  (`NewlineNormalizer.EscapedSemicolonThenHash`, exact condition in `MatchesTheShellIff`).
- A jump to or past the end leaves an empty window that no paging can leave, although older history is
  known (`TranscriptWindow.JumpPastEndStrands`).
- The snapshot is said to drop no delta. If its total was taken after its page, deltas past the total
  are not appended and wait for forward paging; if the stream was registered before the page's start,
  or a failed fetch left an older window, deltas land out of place
  (`StreamingMessage.SnapshotAndStreamMerge`, `LoadContinuesIff`).
- A disconnect is meant to keep a pending reconnect timer down. The tombstone serves one timer only, so
  after two drops the second timer reopens the stream (`StreamLife.TwoTimersReopen`, exact condition in
  `ClosedComesBackIff`), and a load that ends after the disconnect and a timer still appends its buffer
  (`StreamLife.ClosedLoadAppends`, exactly when in `LoadEndsWith`).
- A parent is said to be re-broadcast once its metadata attaches; a page request that enriches the
  shared dict first makes the rebroadcast see no change (`Linkage.ReaderLosesTheUpgrade`).
- The parser's final sort would reorder a batch whose timestamps go backwards, the incremental path
  keeps file order (`Tailing.BackwardsTimesAreSwapped`, exact condition in `BatchSortAgreesIff`).
- A tick set off by a changed file that raises is not tried again for that change before the interval
  is over (`BackupLoop.RaisedChangeTickWaits`, exactly when in `RaisedChangeTickIsRetriedIff`).
- The store's version is meant to move exactly when something that renders changes. `reset`,
  `markReachedStart` and `reconcileTotalAtTail` always move it (exact conditions in
  `TranscriptStore.ResetKeepsVersionLawIff`, `MarkReachedStartKeepsVersionLawIff` and
  `ReconcileTotalKeepsVersionLawIff`, a window for each in `RepeatedCallsCount`); on the windows their
  requests were made for, the fetches obey it (`TranscriptWindow.FetchesKeepVersionLaw`).
- An older identical message is meant never to claim a pending one. The snapshot that prevents it is the
  held window only, so one paged in after the send does (`PendingMessages.OlderMessageTakesTheBubble`,
  exact condition in `MatchUsesOlderEventIff`).
- `hasMoreAfter` is said to tell whether newer history exists. It compares with the total last told, so a
  window from 0 to that total asks for nothing although the log has grown
  (`TranscriptWindow.GrowthIsNotPagedIn`, exact condition in `PagingCompletesIff`).


## Model

| member | source | states |
|---|---|---|
| SessionParser.ParseSessionLines | apps/system_interface/imbue/system_interface/session_parser.py:249-305 | the record loop and final sort: returned events are the stable time sort of the fold that RecordEvents.ParseTranscribes describes, and the caller's dedup set and name map end as the fold leaves them |
| SessionParser.DedupOnlyHides | apps/system_interface/imbue/system_interface/session_parser.py:308-496 | parsing a record against any dedup set emits exactly the events of a fresh parse minus those already seen, same order and bodies, and adds exactly the record's ids to the set |
| SessionParser.EventsDependOnResultNames | apps/system_interface/imbue/system_interface/session_parser.py:402-496 | a record's events depend on the tool-name map only through the calls its tool results answer |
| SessionParser.AddNamesOverrides | apps/system_interface/imbue/system_interface/session_parser.py:308-400 | registering tool names is a right-biased map merge whatever was known before |
| SessionParser.NamesSettle | apps/system_interface/imbue/system_interface/session_parser.py:308-400 | re-reading a record whose names are in the map already leaves the map alone |
| SessionParser.SortIsStable | apps/system_interface/imbue/system_interface/session_parser.py:300-305 | the final sort is in time order, keeps every event, and keeps events of equal time in parse order |
| SessionParser.SortIsIdentityIff | apps/system_interface/imbue/system_interface/session_parser.py:300-305 | the sort changes nothing exactly when timestamps never go backwards |
| SessionParser.OneRecordNeedsNoSort | apps/system_interface/imbue/system_interface/session_parser.py:249-305 | one line's events are never reordered by the sort, so line-by-line indexing keeps file order |
| SessionParser.ParseRecordsAppend | apps/system_interface/imbue/system_interface/session_parser.py:249-305 | parsing in two goes, threading set and map, is parsing in one |
| RecordEvents.RecordYieldsWhatItTells | apps/system_interface/imbue/system_interface/session_parser.py:308-546 | said on the record alone: which events come out, in which order, and what each carries (id, time, session, uuid; assistant text and calls; user and queued content; each answer's call, output, error flag, tool name and subagent) |
| RecordEvents.RecordYieldsNothingIff | apps/system_interface/imbue/system_interface/session_parser.py:249-546 | a record yields nothing exactly without uuid or timestamp, or as a resume reply, without visible user text and answers that name a call, as an attachment without a prompt, or as any other record |
| RecordEvents.AddNamesGives | apps/system_interface/imbue/system_interface/session_parser.py:334-351 | after a message each call has the name of the last named use of it, or else the one it had |
| RecordEvents.ParseTranscribes | apps/system_interface/imbue/system_interface/session_parser.py:249-546 | over a whole list of records: every event is told by its record, every told event that was not known is there, in file order, and every answer carries the name the last message before it gave its call |
| LineSplitter.SplitLeavesOnlyUnfinished | apps/system_interface/imbue/system_interface/session_watcher.py:94-132 | the split loses no byte; what stays behind is one line without newline that does not decode, and what is consumed ends at a line start or with a record complete on its own |
| LineSplitter.IterLineSpans | apps/system_interface/imbue/system_interface/session_watcher.py:135-157 | the loop yields exactly the spans of the lines |
| LineSplitter.SpansTile | apps/system_interface/imbue/system_interface/session_watcher.py:135-157 | every span lies inside the data and re-reading its byte range gives back its line |
| LineSplitter.SpansAreLines | apps/system_interface/imbue/system_interface/session_watcher.py:135-157 | the lines of the spans are the lines of the data, all of them in order |
| LineSplitter.LinesAreCutAtNewlines | apps/system_interface/imbue/system_interface/session_watcher.py:135-157 | a line holds no newline but its last byte, every line but the last ends in one, and together they are the bytes |
| LineSplitter.LinesAppend | apps/system_interface/imbue/system_interface/session_watcher.py:111-157 | where two stretches of bytes meet, their line lists abut if the first ends at a line start and otherwise fuse exactly one pair of lines |
| LineSplitter.DecodeReadsTheText | apps/system_interface/imbue/system_interface/session_watcher.py:94-108 | whatever blanks surround it, the JSON reader gets exactly the text between them |
| LineSplitter.DecodeIgnoresTrailingBlank | apps/system_interface/imbue/system_interface/session_watcher.py:94-108 | trailing blanks never change whether or how a line decodes |
| Tailing.RefreshAgrees | apps/system_interface/imbue/system_interface/session_watcher.py:702-757 | one refresh of a file of complete-object lines keeps the parsed state equal to one parse of the consumed prefix, never moves the offset back, and leaves only an unfinished line |
| Tailing.TailingEqualsBatch | apps/system_interface/imbue/system_interface/session_watcher.py:660-757 | for every schedule of partial writes and refreshes: events, dedup set and name map equal those of parsing the consumed prefix once |
| Tailing.BatchSortAgreesIff | apps/system_interface/imbue/system_interface/session_parser.py:249-305 | handing the whole prefix to the parser at once permutes the tailed events, and gives the same list exactly when timestamps are in order |
| Tailing.BackwardsTimesAreSwapped | apps/system_interface/imbue/system_interface/session_parser.py:300-305 | two messages of one file, the second stamped earlier: tailing keeps file order, the batch swaps them |
| Tailing.JoinParses | apps/system_interface/imbue/system_interface/session_watcher.py:702-757 | a line continued after it was already complete parses as if it had been read whole |
| Tailing.ObjectLinesPrefix | apps/system_interface/imbue/system_interface/session_watcher.py:94-132 | a prefix of a file of objects none of whose proper prefixes is complete is such a file |
| BodyCache.PutIs | apps/system_interface/imbue/system_interface/session_watcher.py:610-616 | a put keeps the cache bounded and distinct, holds the new body last, and never brings back another |
| BodyCache.PutAllIs | apps/system_interface/imbue/system_interface/session_watcher.py:610-656 | after a line's events are put, each held body is one of them or one held before under another id |
| BodyCache.UsedBodySurvives | apps/system_interface/imbue/system_interface/session_watcher.py:610-656 | a body that was just used outlives any fewer than `capacity` others put after it |
| BodyCache.PutAllKeepsTheLast | apps/system_interface/imbue/system_interface/session_watcher.py:610-616 | putting distinct events ends with the last `capacity` of them, whatever was cached |
| BodyCache.MissServedIff | apps/system_interface/imbue/system_interface/session_watcher.py:618-656 | after a miss re-reads a line, the wanted body is there exactly if fewer than `capacity` events follow it in that line |
| WatcherModel.AddEventKeepsIndex | apps/system_interface/imbue/system_interface/session_watcher.py:736-752 | one event indexed keeps refs the exact inverse of the locator lists |
| WatcherModel.ConsumeLineKeepsIndex | apps/system_interface/imbue/system_interface/session_watcher.py:728-752 | one line consumed keeps ids distinct across files, the dedup set exactly the ids held, refs the exact inverse, marks within lists |
| WatcherModel.ForgetKeepsIndex | apps/system_interface/imbue/system_interface/session_watcher.py:694-706 | the truncation reset purges exactly that file's ids and keeps the index exact |
| WatcherModel.RefreshKeepsIndex | apps/system_interface/imbue/system_interface/session_watcher.py:660-757 | a whole refresh, truncation and priming mark included, keeps the index exact |
| WatcherRefresh.LineIsLocated | apps/system_interface/imbue/system_interface/session_watcher.py:728-752 | the locators a line adds carry, in order, its events' ids and times and the byte range of the line |
| WatcherModel.LineAtReads | apps/system_interface/imbue/system_interface/session_watcher.py:643-646 | a re-read gives the bytes at the locator's offset, as many as its length and the file allow |
| WatcherBodies.ResolveServesEveryBody | apps/system_interface/imbue/system_interface/session_watcher.py:618-656 | for every reachable cache: each requested body comes back, none missing, equal to what re-parsing its byte range gives; cache within capacity, index and names untouched |
| WatcherBodies.ConsumeLineKeepsBacked | apps/system_interface/imbue/system_interface/session_watcher.py:728-752 | a line that agrees with what lines behind locators yield, and whose tool names hold, keeps every held body reproducible from its bytes |
| WatcherBodies.AdvanceKeepsBacked | apps/system_interface/imbue/system_interface/session_watcher.py:694-757 | so does a refresh of any number of such lines |
| WatcherBodies.LineKeepsCacheInvisibleIff | apps/system_interface/imbue/system_interface/session_watcher.py:633-656 | the exact condition on a line: whatever is evicted and read after it, bodies are those the bytes give, if and only if the line yields nothing else under any id that a line behind a locator yields too |
| WatcherBodies.HeldEventAgreesIff | apps/system_interface/imbue/system_interface/session_watcher.py:633-656 | for an id already indexed, agreeing is being the body its own locator stands for |
| WatcherBodies.MissServesItsWholeLine | apps/system_interface/imbue/system_interface/session_watcher.py:633-656 | after a miss every event of the re-read line is served from that line, whichever line its own locator names |
| WatcherBodies.MissTeachesItsNames | apps/system_interface/imbue/system_interface/session_watcher.py:633-656 | and the names that line gives its calls are known from then on |
| WatcherBodies.ServedIsTold | apps/system_interface/imbue/system_interface/session_watcher.py:618-656 | a served body is what the record on its line tells, answers under the names then known |
| WatcherBodies.ServedBodySurvives | apps/system_interface/imbue/system_interface/session_watcher.py:618-656 | a body served from the cache outlives any fewer than `capacity` others put after it: serving it made it the youngest |
| WatcherLeak.PartlyKnownLineIsVisible | apps/system_interface/imbue/system_interface/session_watcher.py:633-656 | a run of six steps from the start, all lines within the cache, after which two reads serve one of the two events with another file's body |
| WatcherLeak.LateNameIsVisible | apps/system_interface/imbue/system_interface/session_watcher.py:633-656 | a run of four steps from the start, all lines fitting and agreeing, in which a call is read after its result: the result is served without the tool's name while cached and with it once evicted |
| WatcherRuns.EveryRunIsIndexed | apps/system_interface/imbue/system_interface/session_watcher.py:694-757 | over every interleaving of appearing, growing and truncated files, readers, priming and emission, whatever the lines hold: ids distinct across files, references inverse to the lists, dedup set exactly the ids held, marks within the lists |
| WatcherRuns.EveryRunEmitsOnce | apps/system_interface/imbue/system_interface/session_watcher.py:660-757 | over every such run whose lines each fit the cache: every file's batches concatenate to exactly its locators from the starting mark to the emission mark, in order, whatever was evicted and however tool names were rebound |
| WatcherRuns.EveryRunIsFaithful | apps/system_interface/imbue/system_interface/session_watcher.py:610-757 | if the lines read also agree with each other, every held body is what its bytes give, whatever is evicted next |
| WatcherRuns.NextIsWellformed | apps/system_interface/imbue/system_interface/session_watcher.py:694-757 | every single step keeps the index exact |
| WatcherRuns.NextEmits | apps/system_interface/imbue/system_interface/session_watcher.py:849-866 | every single step keeps emission exactly once |
| WatcherRuns.NextIsFaithful | apps/system_interface/imbue/system_interface/session_watcher.py:610-658 | every single step keeps bodies reproducible |
| WatcherRuns.EmitSends | apps/system_interface/imbue/system_interface/session_watcher.py:1084-1112 | a poll emits exactly what was pending, whole and in order, whichever thread parsed it |
| WatcherRuns.EmitIsFaithful | apps/system_interface/imbue/system_interface/session_watcher.py:1084-1112 | and each body in the batch is the one its bytes give |
| WatcherRuns.RefreshEmits | apps/system_interface/imbue/system_interface/session_watcher.py:660-757 | a refresh by any thread, priming or not, keeps emission exactly once |
| WatcherRuns.ForgetEmits | apps/system_interface/imbue/system_interface/session_watcher.py:694-706 | a truncated file starts over with an empty index and ledger, and nothing else moves |
| WatcherEmission.ResolveFindsAll | apps/system_interface/imbue/system_interface/session_watcher.py:618-658 | if each line fits the cache, one body of each requested id comes back, in order, whatever was evicted and whatever tool names are bound |
| WatcherEmission.AdvanceKeepsReadable | apps/system_interface/imbue/system_interface/session_watcher.py:694-757 | a refresh of lines that fit keeps every locator readable |
| WatcherRuns.RefreshForgetsFirst | apps/system_interface/imbue/system_interface/session_watcher.py:694-706 | on a file shorter than consumed a refresh is the reset followed by a plain refresh |
| SessionWatcher.AgentSessionWatcher.EnsureCacheCurrent | apps/system_interface/imbue/system_interface/session_watcher.py:660-757 | the object's new state is the refresh of its old one, aliasing of file states included |
| SessionWatcher.AgentSessionWatcher.ReadAppended | apps/system_interface/imbue/system_interface/session_watcher.py:702-757 | reads, parses and indexes exactly what was appended |
| SessionWatcher.AgentSessionWatcher.ParseComplete | apps/system_interface/imbue/system_interface/session_watcher.py:728-752 | the span loop folds the lines in order |
| SessionWatcher.AgentSessionWatcher.ConsumeSpan | apps/system_interface/imbue/system_interface/session_watcher.py:728-752 | one line is parsed and its events are indexed in order |
| SessionWatcher.AgentSessionWatcher.IndexEvent | apps/system_interface/imbue/system_interface/session_watcher.py:736-752 | one locator, one reference, one cache put |
| SessionWatcher.AgentSessionWatcher.CachePutLocked | apps/system_interface/imbue/system_interface/session_watcher.py:610-616 | the put and trim loop is the bounded LRU put |
| SessionWatcher.AgentSessionWatcher.ForgetState | apps/system_interface/imbue/system_interface/session_watcher.py:694-706 | the purge loop removes exactly the file's ids and clears its state |
| SessionWatcher.AgentSessionWatcher.DropIds | apps/system_interface/imbue/system_interface/session_watcher.py:694-706 | the purge removes each listed id from the dedup set and from the references, and no other |
| SessionWatcher.AgentSessionWatcher.EmitPending | apps/system_interface/imbue/system_interface/session_watcher.py:1084-1112 | takes what is past the mark, moves the mark, resolves the bodies |
| SessionWatcher.AgentSessionWatcher.ResolveBodies | apps/system_interface/imbue/system_interface/session_watcher.py:618-631 | the loop skips missing bodies and keeps request order |
| SessionWatcher.AgentSessionWatcher.ResolveBody | apps/system_interface/imbue/system_interface/session_watcher.py:618-656 | a hit moves to the end of the LRU, a miss re-reads the line and puts all of it |
| SessionWatcher.AgentSessionWatcher.DiscoverSession | apps/system_interface/imbue/system_interface/session_watcher.py:934-970 | a session is registered once; known ones keep their state object |
| Collectors.CollectTail | apps/system_interface/imbue/system_interface/session_watcher.py:504-522 | the backward walk returns the last `limit` entries of the flat timeline |
| Collectors.CollectBefore | apps/system_interface/imbue/system_interface/session_watcher.py:524-553 | the `limit` entries just before the cursor's flat index, nothing for an unknown cursor |
| Collectors.CollectAfter | apps/system_interface/imbue/system_interface/session_watcher.py:555-583 | the `limit` entries just after it |
| Collectors.CollectAtOffset | apps/system_interface/imbue/system_interface/session_watcher.py:585-608 | the `limit` entries from a flat offset on, clamped to the end |
| Collectors.GetEventOffset | apps/system_interface/imbue/system_interface/session_watcher.py:417-436 | the flat index of the id, -1 for an unknown one |
| Collectors.CountAll | apps/system_interface/imbue/system_interface/session_watcher.py:438-448 | the length of the timeline |
| Collectors.OffsetRoundTrip | apps/system_interface/imbue/system_interface/server.py:219-266 | the first event of the window at offset o reports o back |
| Collectors.IndexFindsItsId | apps/system_interface/imbue/system_interface/session_watcher.py:417-436 | the entry at an id's reported index carries that id |
| Collectors.TimelineAround | apps/system_interface/imbue/system_interface/session_watcher.py:524-583 | cutting one file at the cursor and taking whole files around it splits the timeline exactly at the cursor |
| Collectors.WatcherRefsHold | apps/system_interface/imbue/system_interface/session_watcher.py:733-748 | a watcher with an exact index meets what the collectors ask: each reference finds its id, each entry of a filed state has its reference |
| Collectors.OrderedSelectedStates | apps/system_interface/imbue/system_interface/session_watcher.py:491-502 | the states selected are those of the main sessions that have one: all of them, none twice, in history order |
| Collectors.SelectedAreDistinct | apps/system_interface/imbue/system_interface/session_watcher.py:491-502 | so they are distinct, and each is the state registered for its session |
| EventsEndpoint.GetEvents | apps/system_interface/imbue/system_interface/server.py:219-266 | on a watcher with an exact index: the main sessions that have a state, in history order; the entries the query asks for, as many as asked (50 if not a positive number), the flat index of the first (the total when there is none) and the whole length |
| EventsEndpoint.PageHasItsBodies | apps/system_interface/imbue/system_interface/server.py:233-258 | the page and the bodies sent are of the same ids, in order, so the response is empty exactly if the page is |
| EventsEndpoint.AnswerAcrossGrowth | apps/system_interface/imbue/system_interface/server.py:258-266 | if the log grows between the sections for page, total and offset, the response still places a stretch of the log |
| EventsEndpoint.LastFileGrowsTheEnd | apps/system_interface/imbue/system_interface/session_watcher.py:491-502 | growth of the last selected file is growth of the flat log at its end |
| EventsEndpoint.EarlierFileMovesTheRest | apps/system_interface/imbue/system_interface/session_watcher.py:491-502 | growth of an earlier file is not |
| EventsEndpoint.Page | apps/system_interface/imbue/system_interface/server.py:238-258 | before, after, offset or tail, each against the stretch of the timeline it names; an unknown cursor gives nothing |
| EventsEndpoint.Stretch | apps/system_interface/imbue/system_interface/server.py:238-256 | the stretch of the timeline for a query holds exactly the entries it wants: up to `limit` before or after the cursor, from the offset, or at the end |
| EventsEndpoint.AnswerPlacesAWindow | apps/system_interface/frontend/src/models/Response.ts:465-508 | whatever stretch the server answers with, empty or not, placing it leaves the client a window on the log |
| EventsEndpoint.BackfillAnswerFits | apps/system_interface/frontend/src/models/Response.ts:510-536 | the client's first event sits at its first offset on the server, so the page before it ends where the window starts |
| EventsEndpoint.ForwardAnswerFits | apps/system_interface/frontend/src/models/Response.ts:539-563 | its last event sits just before its end, so the page after it starts where the window ends |
| WatcherTailing.IndexEqualsBatchPerFile | apps/system_interface/imbue/system_interface/session_watcher.py:660-757 | over every run from the empty watcher, files appearing, growing and being truncated, refreshed, emitted and read in any interleaving: each file's locator ids are, in order, those of one parse of its consumed bytes, shared dedup set and name map notwithstanding |
| WatcherTailing.OwnRefreshKeepsShare | apps/system_interface/imbue/system_interface/session_watcher.py:660-757 | a file's own refresh extends its share by what the batch parse adds |
| WatcherTailing.OtherRefreshKeepsShare | apps/system_interface/imbue/system_interface/session_watcher.py:660-757 | another file's refresh leaves it alone |
| WatcherTailing.EveryRunIsShared | apps/system_interface/imbue/system_interface/session_watcher.py:660-757 | over every such run each file is indexed as one parse of its consumed bytes would be, and every id it holds is its own |
| WatcherTailing.SeenIsOwned | apps/system_interface/imbue/system_interface/session_watcher.py:196-218 | an id is in the dedup set only while its owner is in the watcher and holds it, so a file just discovered or just truncated starts with nothing |
| WatcherTailing.NextIsShared | apps/system_interface/imbue/system_interface/session_watcher.py:694-757 | every single step keeps that, discovery and truncation included |
| WatcherTailing.NewFileHasShare | apps/system_interface/imbue/system_interface/session_watcher.py:196-218 | a file with nothing consumed, none of whose ids is held, has the empty share |
| WatcherTailing.PiecesAreOwned | apps/system_interface/imbue/system_interface/session_watcher.py:111-132 | the lines a refresh meets belong to the file's lines even when a complete record was consumed before its newline |
| TranscriptStore.MergeUpgrades | apps/system_interface/frontend/src/models/Response.ts:418-438 | a merge changes nothing but missing metadata, and never replaces or loses any |
| TranscriptStore.MergeAttaches | apps/system_interface/frontend/src/models/Response.ts:418-438 | after a merge a call without metadata carries exactly that of the last incoming call of its id, if that has some, and stays without otherwise; every call else is as it was |
| TranscriptStore.AppendCompletes | apps/system_interface/frontend/src/models/Response.ts:226-249 | over a batch of live events, each call of a held message keeps the metadata it had or ends with the first that the batch brings for it |
| TranscriptStore.AppendKeepsMetadata | apps/system_interface/frontend/src/models/Response.ts:226-249 | no batch of live events loses or replaces attached metadata |
| TranscriptStore.PagingKeepsMetadata | apps/system_interface/frontend/src/models/Response.ts:257-317 | neither does paging or eviction, for what stays held |
| TranscriptStore.PrependIsExact | apps/system_interface/frontend/src/models/Response.ts:257-273 | after a prepend the id map still names exactly the held events, each once |
| TranscriptStore.AppendForwardIsExact | apps/system_interface/frontend/src/models/Response.ts:277-292 | the same after a forward page |
| TranscriptStore.EvictIsExact | apps/system_interface/frontend/src/models/Response.ts:301-317 | the same after an eviction |
| TranscriptStore.ResetIsExact | apps/system_interface/frontend/src/models/Response.ts:320-328 | the same after a reset |
| TranscriptStore.AppendAllIsExact | apps/system_interface/frontend/src/models/Response.ts:226-249 | the same after live events |
| TranscriptStore.FlagsTellChange | apps/system_interface/frontend/src/models/Response.ts:226-249 | `added` and `merged` together say exactly whether a batch changed what renders: a change is never undone later in it |
| TranscriptStore.AppendIs | apps/system_interface/frontend/src/models/Response.ts:211-249 | the loop with its flags gives the specified store, and the version moves exactly on a change |
| TranscriptStore.AppendKeepsVersionLaw | apps/system_interface/frontend/src/models/Response.ts:203-249 | live events move the version by one exactly if held events, their content, the offset or the total read changed |
| TranscriptStore.PagingKeepsVersionLaw | apps/system_interface/frontend/src/models/Response.ts:257-317 | so do both paging mutators and eviction, whatever they are given |
| TranscriptStore.ResetKeepsVersionLawIff | apps/system_interface/frontend/src/models/Response.ts:320-328 | a reset breaks the law exactly if it places what is already there |
| TranscriptStore.MarkReachedStartKeepsVersionLawIff | apps/system_interface/frontend/src/models/Response.ts:331-339 | marking the start breaks it exactly on a window that starts there, told no other total |
| TranscriptStore.ReconcileTotalKeepsVersionLawIff | apps/system_interface/frontend/src/models/Response.ts:343-348 | reconciling the total breaks it exactly if the total reads the same afterwards |
| TranscriptStore.RepeatedCallsCount | apps/system_interface/frontend/src/models/Response.ts:203-211 | a window of one event on which each of the three changes nothing and counts |
| TranscriptObjects.MergeLateSubagentMetadata | apps/system_interface/frontend/src/models/Response.ts:418-438 | on the shared event object: each call without metadata carries that of the last incoming call of its id, no other changes, and the report says exactly whether one did |
| TranscriptObjects.Store.Append | apps/system_interface/frontend/src/models/Response.ts:226-249 | on shared event objects: the new view is the specified append, changed exactly if the view is |
| TranscriptObjects.Store.AppendLoop | apps/system_interface/frontend/src/models/Response.ts:226-242 | each turn of the loop adds or merges one event, the flags recording which |
| TranscriptObjects.Store.Prepend | apps/system_interface/frontend/src/models/Response.ts:257-273 | the specified prepend; true exactly if the version moved |
| TranscriptObjects.Store.AppendForward | apps/system_interface/frontend/src/models/Response.ts:277-292 | the specified forward page; true exactly if the version moved |
| TranscriptObjects.Store.Evict | apps/system_interface/frontend/src/models/Response.ts:301-317 | the specified eviction and the number removed |
| TranscriptObjects.Store.Reset | apps/system_interface/frontend/src/models/Response.ts:320-328 | the specified replacement of list, map, offset and total |
| TranscriptObjects.Store.MarkReachedStart | apps/system_interface/frontend/src/models/Response.ts:331-339 | offset zero, the reported total, one version |
| TranscriptObjects.Store.ReconcileTotalAtTail | apps/system_interface/frontend/src/models/Response.ts:343-348 | the reported total, one version |
| TranscriptObjects.Store.NotYetHeld | apps/system_interface/frontend/src/models/Response.ts:257-260 | the filter keeps exactly the events whose id is not held, in order |
| TranscriptObjects.Store.Without | apps/system_interface/frontend/src/models/Response.ts:301-312 | the delete loop of evict removes exactly the ids of the removed events |
| TranscriptObjects.Store.ValidIsExact | apps/system_interface/frontend/src/models/Response.ts:152-158 | a valid store's list and id map are exact inverses |
| TranscriptWindow.SessionKeepsWindow | apps/system_interface/frontend/src/models/Response.ts:226-348 | after any sequence of loads, jumps, pages, live events and evictions over a growing log, held events are one stretch of the log, the id map is its index, and the end is within total |
| TranscriptWindow.SessionKeepsMetadata | apps/system_interface/frontend/src/models/Response.ts:226-348 | over any session of loads, pages, live events and evictions, an event held throughout ends with all the metadata it ever had, as long as no placed window answers with less |
| TranscriptWindow.SessionComesFrom | apps/system_interface/frontend/src/models/Response.ts:226-348 | whatever the session, what is held of an event is what was held before or what one of its answers or live events said, with only metadata attached since |
| TranscriptWindow.PlaceKeepsMetadataIff | apps/system_interface/frontend/src/models/Response.ts:319-330 | a placed window keeps an event's metadata exactly if the answer carries it |
| TranscriptWindow.BackfillKeepsWindow | apps/system_interface/frontend/src/models/Response.ts:510-536 | a backfill strictly lowers the offset by a page, keeps the end, and is a no-op only at 0 or on an empty window |
| TranscriptWindow.ForwardKeepsWindow | apps/system_interface/frontend/src/models/Response.ts:539-563 | a forward page strictly moves the end towards the total |
| TranscriptWindow.PagesArePlaced | apps/system_interface/frontend/src/models/Response.ts:510-563 | a page that adds something puts the window where the server says, under the total it tells |
| TranscriptWindow.EmptyAnswersEndPaging | apps/system_interface/frontend/src/models/Response.ts:510-563 | an empty page marks the start as reached, or the end once the total told is; nothing held changes |
| TranscriptWindow.PrependUnplaced | apps/system_interface/frontend/src/models/Response.ts:257-273 | an older page told without its place moves the window's start back by exactly what it adds |
| TranscriptWindow.PlaceWindowKeepsWindow | apps/system_interface/frontend/src/models/Response.ts:465-508 | a load or jump places one stretch of the log |
| TranscriptWindow.AppendKeepsWindow | apps/system_interface/frontend/src/models/Response.ts:226-249 | live events that are held or next keep the window |
| TranscriptWindow.EvictKeepsWindow | apps/system_interface/frontend/src/models/Response.ts:301-317 | an overfull window is cut to the target size from its old end, keeps its end, and is never emptied; any other is left alone |
| TranscriptWindow.PagingCompletesIff | apps/system_interface/frontend/src/models/Response.ts:510-563 | from any window, with whatever total: enough rounds of paging both ways hold the whole log once and in order, if and only if the log is empty, or the window holds something and has older history, a known newer end, or the end of the log |
| TranscriptWindow.GrowthIsNotPagedIn | apps/system_interface/frontend/src/models/Response.ts:497-563 | a window on a whole short log that then grows has nothing to ask for and never moves |
| TranscriptWindow.FetchesKeepVersionLaw | apps/system_interface/frontend/src/models/Response.ts:510-563 | on the windows their requests were made for, both fetches move the version exactly if something that renders changed |
| TranscriptWindow.JumpPastEndStrands | apps/system_interface/frontend/src/models/Response.ts:497-508 | a jump leaves an empty window exactly if it is at or past the end; then more is known before it and no paging moves it |
| TranscriptWindow.WindowEndsWithinTotal | apps/system_interface/frontend/src/models/Response.ts:176-193 | the end never exceeds `total`, and `hasMoreAfter` compares it with the stored total |
| StreamingMessage.SnapshotAndStreamMerge | apps/system_interface/frontend/src/models/StreamingMessage.ts:70-129 | registered inside the snapshot's range, for any split of the deltas around the fetch: every snapshot event and delta held once and in order if the snapshot reaches its own total; otherwise later deltas stay out and forward paging is due; and exactly then |
| StreamingMessage.LoadContinuesIff | apps/system_interface/frontend/src/models/StreamingMessage.ts:98-129 | deltas continue the window, loaded or old after a failed fetch, exactly if the first is held or next |
| StreamingMessage.StepsKeepSound | apps/system_interface/frontend/src/models/StreamingMessage.ts:54-151 | no agent has both a stream and a tombstone |
| StreamLife.StreamIsUpIff | apps/system_interface/frontend/src/models/StreamingMessage.ts:54-151 | over every run, in terms of what the user did and what happened: when the stream is up and when it is closed on purpose, never both |
| StreamLife.ClosedStaysDown | apps/system_interface/frontend/src/models/StreamingMessage.ts:85-151 | closed by the user with at most one timer pending: down until the next connect or load, whatever errors, timers and arrivals come |
| StreamLife.TwoTimersReopen | apps/system_interface/frontend/src/models/StreamingMessage.ts:85-96 | two drops before the disconnect leave two timers, and the second reopens the stream |
| StreamLife.ClosedComesBackIff | apps/system_interface/frontend/src/models/StreamingMessage.ts:85-96 | a stream closed by the user and not reopened is up at some moment if and only if at least two timers have fired since |
| StreamLife.DroppedComesBack | apps/system_interface/frontend/src/models/StreamingMessage.ts:85-96 | a stream that dropped and was not closed since is up again once a timer fires |
| StreamLife.LoadEndsWith | apps/system_interface/frontend/src/models/StreamingMessage.ts:110-129 | a load ends with its snapshot if it got one, followed by what arrived since it began exactly if the stream is not then closed on purpose |
| StreamLife.ClosedLoadAppends | apps/system_interface/frontend/src/models/StreamingMessage.ts:85-129 | a load that ends after a disconnect and a timer appends its buffer although the user has closed the stream |
| StreamingMessage.AgentStream.BeginLoadSnapshot | apps/system_interface/frontend/src/models/StreamingMessage.ts:110-120 | buffer first, then subscribe |
| StreamingMessage.AgentStream.OnMessage | apps/system_interface/frontend/src/models/StreamingMessage.ts:70-83 | a message goes to the buffer while a load is in flight, to the store otherwise |
| StreamingMessage.AgentStream.FinishLoadSnapshot | apps/system_interface/frontend/src/models/StreamingMessage.ts:121-129 | snapshot if any, then the buffer unless the user disconnected meanwhile |
| StreamingMessage.AgentStream.ConnectToStream | apps/system_interface/frontend/src/models/StreamingMessage.ts:54-62 | an open stream is left alone; a new one clears the tombstone |
| StreamingMessage.AgentStream.DisconnectFromStream | apps/system_interface/frontend/src/models/StreamingMessage.ts:139-151 | tombstone set, stream gone |
| StreamingMessage.AgentStream.OnError | apps/system_interface/frontend/src/models/StreamingMessage.ts:85-96 | an error takes the open stream down and sets the timer, which no other error does |
| StreamingMessage.AgentStream.RetryAfterError | apps/system_interface/frontend/src/models/StreamingMessage.ts:89-94 | the timer takes the tombstone away; only without one, and with no stream, does a new load begin with an empty buffer and a stream |
| Linkage.LinkageReachesClients | apps/system_interface/imbue/system_interface/session_watcher.py:1114-1200 | over every run, with discovery, learning and harmless reads between any two sections of a rebroadcast: a parent is cached exactly while its last emitted copy has an Agent call without metadata; when a rebroadcast ends, that copy carries for each call all that had been found and heard when it began; and nothing is attached that was not found for that call |
| Linkage.EveryRunRemembers | apps/system_interface/imbue/system_interface/session_watcher.py:759-821 | what the watcher knows at any moment is what the run has found and heard by then |
| Linkage.EveryRunIsSourced | apps/system_interface/imbue/system_interface/session_watcher.py:759-821 | all metadata in a shared dict or an emitted copy was found and heard earlier in the run, for that very call |
| Links.MetadataIsKnown | apps/system_interface/imbue/system_interface/session_watcher.py:784-821 | said on the discoveries and tool results in order: a call's metadata is that first found for the last subagent whose toolUseId is the call, else that of x or of `agent-` and x for the x its first result named |
| Links.EnrichAttachesAll | apps/system_interface/imbue/system_interface/session_watcher.py:805-821 | an Agent call ends with what is known of it and otherwise as it was; no other call is touched |
| Linkage.EveryRunTracks | apps/system_interface/imbue/system_interface/session_watcher.py:759-821 | over every run, were the rebroadcast under way to end now, the last emitted copy is as linked as the shared dict |
| Linkage.TurnKeeps | apps/system_interface/imbue/system_interface/session_watcher.py:1161-1167 | the turn of one cached parent keeps that: to be re-emitted whenever its linked set grows, retired only when complete |
| Linkage.EndCarriesAll | apps/system_interface/imbue/system_interface/session_watcher.py:1169-1175 | what the end of a rebroadcast emits carries everything known when it began |
| Linkage.ReadKeepsPass | apps/system_interface/imbue/system_interface/session_watcher.py:338-414 | a read between two turns that attaches nothing new to a cached parent keeps that, although what is emitted is the dict as the read left it |
| Linkage.PollKeeps | apps/system_interface/imbue/system_interface/session_watcher.py:1084-1136 | so does a poll that enriches, caches and emits new parents |
| Linkage.DiscoverKeeps | apps/system_interface/imbue/system_interface/session_watcher.py:984-1042 | so does metadata arriving |
| Linkage.ReadKeeps | apps/system_interface/imbue/system_interface/session_watcher.py:338-414 | so does a read that attaches nothing new to a cached parent |
| Linkage.TurnDeliversIff | apps/system_interface/imbue/system_interface/session_watcher.py:1161-1167 | whatever readers did, the turn of a parent brings the clients' copy level with the dict exactly if it was level or the turn itself attaches something |
| Linkage.ReaderOvertakesIff | apps/system_interface/imbue/system_interface/session_watcher.py:759-821 | a read makes the emitted copy stale exactly if it attaches something to a cached parent |
| Linkage.ReaderLosesTheUpgrade | apps/system_interface/imbue/system_interface/session_watcher.py:1138-1175 | a run from the empty state: a page request enriches the shared dict first, the parent is retired, its card never upgraded |
| Links.DiscoveryKeepsAvailable | apps/system_interface/imbue/system_interface/session_watcher.py:1024-1042 | metadata once available for a call stays available as subagents are discovered, though the subagent linked may change |
| Links.LearningKeepsAvailable | apps/system_interface/imbue/system_interface/session_watcher.py:793-803 | the same as tool results are learned |
| Links.DiscoveryGrows | apps/system_interface/imbue/system_interface/session_watcher.py:1024-1042 | discovery between two turns of a rebroadcast only adds to what is known |
| Links.LearningGrows | apps/system_interface/imbue/system_interface/session_watcher.py:793-803 | and so does learning |
| Links.ToolUseDecides | apps/system_interface/imbue/system_interface/session_watcher.py:784-803 | a toolUseId decides over a tool result, and what it decides is ready to attach |
| Linkage.LinkedTellsLinks | apps/system_interface/imbue/system_interface/session_watcher.py:1177-1185 | with distinct call ids the linked set changes exactly when some call gains metadata |
| Linkage.LinkageWatcher.EnrichSubagentMetadata | apps/system_interface/imbue/system_interface/session_watcher.py:759-821 | the loops learn the batch's results and enrich exactly the batch's messages |
| Linkage.LinkageWatcher.SubagentByToolCall | apps/system_interface/imbue/system_interface/session_watcher.py:784-803 | the two loops build the link map, toolUseIds first |
| Linkage.LinkageWatcher.EnrichCalls | apps/system_interface/imbue/system_interface/session_watcher.py:805-821 | every Agent call for which something was found and heard is given it; every other call stays as it was |
| Linkage.LinkageWatcher.CacheUnlinkedAgentParents | apps/system_interface/imbue/system_interface/session_watcher.py:1114-1136 | caches exactly the batch's messages with a uuid that have an Agent call without metadata, each once |
| Linkage.LinkageWatcher.EmitBatch | apps/system_interface/imbue/system_interface/session_watcher.py:1109-1112 | enrich, cache, emit is one poll step; afterwards every cached parent is listed once and has been emitted |
| Linkage.LinkageWatcher.ResolveMetadata | apps/system_interface/imbue/system_interface/session_watcher.py:1031-1042 | a subagent's metadata is recorded once, as one discovery step |
| Linkage.LinkageWatcher.TakeTurn | apps/system_interface/imbue/system_interface/session_watcher.py:1161-1167 | one turn of the loop is the specified turn, whatever came before it |
| Linkage.TurnAllIs | apps/system_interface/imbue/system_interface/session_watcher.py:1157-1167 | turns with nothing in between enrich each listed parent with what is known and find exactly those that gain links and those complete |
| Linkage.LinkageWatcher.RebroadcastRelinkedParents | apps/system_interface/imbue/system_interface/session_watcher.py:1138-1175 | begins, takes the turn of every cached parent and ends, emitting exactly those found to gain links |
| EventQueues.ReplayThenLiveExactlyOnce | apps/system_interface/imbue/system_interface/event_queues.py:33-87 | over every interleaving of locked sections and late puts: a queue is listed exactly while registered, not unregistered and before the shutdown; it starts with what was stored since the last flush before its registration; once nothing is under way it has got each later event of its agent's history exactly as often as broadcast; one sentinel exactly if the shutdown ended it |
| EventQueues.SingleProducerKeepsOrder | apps/system_interface/imbue/system_interface/event_queues.py:56-68 | with one producer per agent, given plus under way is that replay and then the agent's later history, in order |
| EventQueues.OrderKeptIff | apps/system_interface/imbue/system_interface/event_queues.py:56-68 | from its registration on, a queue stays in order over a run if and only if every put to it is of the first event under way to it |
| EventQueues.StepKeepsOrderIff | apps/system_interface/imbue/system_interface/event_queues.py:56-68 | the one step that breaks the order is a put out of turn, and it always does |
| EventQueues.OverlappingIsReached | apps/system_interface/imbue/system_interface/event_queues.py:56-68 | two broadcasts for one agent can both be under way |
| EventQueues.OverlappingMaySwap | apps/system_interface/imbue/system_interface/event_queues.py:56-68 | and then arrive the other way round |
| EventQueues.NextKeeps | apps/system_interface/imbue/system_interface/event_queues.py:33-87 | every step keeps the account of every queue |
| EventQueues.NextOrdered | apps/system_interface/imbue/system_interface/event_queues.py:56-68 | every step of a lone producer keeps the order |
| EventQueues.BroadcastReplays | apps/system_interface/imbue/system_interface/event_queues.py:56-66 | STORE, FLUSH and IGNORE keep the buffer equal to what the history says was stored since the last flush |
| EventQueues.AgentEventQueues.RegisterQueue | apps/system_interface/imbue/system_interface/event_queues.py:33-43 | replays the buffer in order and lists the queue, or leaves it the sentinel after shutdown |
| EventQueues.AgentEventQueues.UnregisterQueue | apps/system_interface/imbue/system_interface/event_queues.py:45-54 | the first occurrence of the queue goes and with the last one the agent's entry; no other agent, buffer or queue changes |
| EventQueues.AgentEventQueues.BroadcastUnderLock | apps/system_interface/imbue/system_interface/event_queues.py:56-66 | updates the buffer by behaviour and snapshots the listed queues |
| EventQueues.AgentEventQueues.Broadcast | apps/system_interface/imbue/system_interface/event_queues.py:56-66 | text by text: no behaviour or `store` buffers the event, `ignore` leaves the buffer, `flush` empties it, any other text raises before anything is touched |
| EventQueues.AgentEventQueues.PutAll | apps/system_interface/imbue/system_interface/event_queues.py:67-68 | each target gets the event once, no other queue changes |
| EventQueues.AgentEventQueues.ShutDown | apps/system_interface/imbue/system_interface/event_queues.py:80-87 | each listed queue gets one sentinel after what it had, others nothing; then nothing is listed or buffered |
| Broadcaster.EveryClientIsServed | apps/system_interface/imbue/system_interface/ws_broadcaster.py:56-88 | over every run a registered client has at most 1000 queued and fewer than 50 rejections in a row, and has read or will read a subsequence of the broadcasts since it registered, all of them if never full |
| Broadcaster.EveryHandlerReadsInOrder | apps/system_interface/imbue/system_interface/ws_broadcaster.py:34-111 | over every run, for clients evicted or gone too, what the handler took is a subsequence of the broadcasts: nothing twice, nothing out of order |
| Broadcaster.DrainingClientIsNeverEvicted | apps/system_interface/imbue/system_interface/ws_broadcaster.py:73-88 | a client that takes something within every 50 broadcasts is never evicted |
| Broadcaster.StalledClientIsEvictedIff | apps/system_interface/imbue/system_interface/ws_broadcaster.py:73-88 | a handler that stops taking is evicted by exactly the 50th broadcast its full queue rejects, for every list of broadcasts |
| Broadcaster.EvictionNeedsAStall | apps/system_interface/imbue/system_interface/ws_broadcaster.py:73-88 | a broadcast evicts exactly a full queue's client with 49 rejections, and then 50 broadcasts came since its last take |
| Broadcaster.EvictedFindsTheSentinel | apps/system_interface/imbue/system_interface/ws_broadcaster.py:90-111 | an evicted client's queue is exactly the sentinel until its handler takes it, whatever else happens |
| Broadcaster.TryEachIs | apps/system_interface/imbue/system_interface/ws_broadcaster.py:73-88 | the loop tries each client once, whatever the others do, and gives up exactly those with 50 rejections |
| Broadcaster.WebSocketBroadcaster.BroadcastText | apps/system_interface/imbue/system_interface/ws_broadcaster.py:73-88 | every registered client meets the broadcast as specified, others are untouched |
| Broadcaster.WebSocketBroadcaster.DisconnectLocked | apps/system_interface/imbue/system_interface/ws_broadcaster.py:90-111 | the client is unlisted and left with exactly the sentinel |
| Broadcaster.WebSocketBroadcaster.DrainQueue | apps/system_interface/imbue/system_interface/ws_broadcaster.py:25-32 | empties that queue only |
| Broadcaster.WebSocketBroadcaster.Register | apps/system_interface/imbue/system_interface/ws_broadcaster.py:56-62 | a new client starts empty with no rejections |
| Broadcaster.WebSocketBroadcaster.Unregister | apps/system_interface/imbue/system_interface/ws_broadcaster.py:64-71 | the client is unlisted, its queue left as it is |
| Broadcaster.WebSocketBroadcaster.Shutdown | apps/system_interface/imbue/system_interface/ws_broadcaster.py:165-175 | every registered client is left with the sentinel alone |
| PendingMessages.GreedyIsMatching | apps/system_interface/frontend/src/models/PendingMessages.ts:206-246 | within one call the match is injective, content-equal and never uses a prior event |
| PendingMessages.GreedyIsMaximum | apps/system_interface/frontend/src/models/PendingMessages.ts:206-246 | when prior sets stand first in the transcript, no valid matching reconciles more |
| PendingMessages.GreedyNeedsPriorsFirst | apps/system_interface/frontend/src/models/PendingMessages.ts:221-246 | with a prior set that is not a prefix it can reconcile fewer: concrete case |
| PendingMessages.SnapshotStandsFirst | apps/system_interface/frontend/src/models/PendingMessages.ts:74-82 | the snapshot taken at send time stands first in every later transcript that starts where the snapshot did |
| PendingMessages.MatchUsesOlderEventIff | apps/system_interface/frontend/src/models/PendingMessages.ts:69-72 | with history paged in front after the sends, a message is matched to an event older than its send if and only if some message is eligible for an event paged in |
| PendingMessages.OlderMessageTakesTheBubble | apps/system_interface/frontend/src/models/PendingMessages.ts:69-72 | an older identical message, paged in after the send, takes the bubble down |
| PendingMessages.UnmatchedKeepsOrder | apps/system_interface/frontend/src/models/PendingMessages.ts:212-246 | what remains is the list read at the unmatched positions, all of them, in ascending order |
| PendingMessages.SecondCallReusesIff | apps/system_interface/frontend/src/models/PendingMessages.ts:206-246 | a later call over a grown transcript reuses an event of the first exactly if a message left over could have had one of the first call's events |
| PendingMessages.IdenticalSendsCollapse | apps/system_interface/frontend/src/models/PendingMessages.ts:206-246 | two identical sends and one event: the first call keeps one, the next drops it too |
| PendingMessages.GreedyServes | apps/system_interface/frontend/src/models/PendingMessages.ts:221-246 | a message goes without an eligible event only if another claimed it, and gets none later than it could |
| PendingMessages.SameWordsIff | apps/system_interface/frontend/src/models/PendingMessages.ts:190-204 | two texts are taken for the same exactly if they are the same words in order |
| PendingMessages.EligibleIff | apps/system_interface/frontend/src/models/PendingMessages.ts:221-235 | a message can be matched exactly to a user event of the same words whose id was not there when it was sent |
| PendingMessages.TrimIs | apps/system_interface/frontend/src/models/PendingMessages.ts:101-101 | trimming takes all white space off both ends and nothing else |
| PendingMessages.WithoutIdKeeps | apps/system_interface/frontend/src/models/PendingMessages.ts:163-172 | what a removal leaves is the list read at the positions of other ids, ascending |
| PendingMessages.Reconciled | apps/system_interface/frontend/src/models/PendingMessages.ts:211-246 | the loop with `claimed` and `remaining` is the greedy match |
| PendingMessages.PendingMessageStore.AddPendingMessage | apps/system_interface/frontend/src/models/PendingMessages.ts:96-121 | blank text adds nothing; otherwise a fresh id, trimmed text and the current user events as prior set, appended |
| PendingMessages.PendingMessageStore.ReconcilePendingMessages | apps/system_interface/frontend/src/models/PendingMessages.ts:206-246 | the agent's list becomes the unmatched ones, other agents' lists stay |
| PendingMessages.PendingMessageStore.RemovePendingMessage | apps/system_interface/frontend/src/models/PendingMessages.ts:163-172 | the messages of that id go from that agent's list, other agents' lists stay |
| NewlineNormalizer.NewlinesToSemicolons | libs/tk_command_parsing/src/tk_command_parsing/parser.py:146-200 | the character loop computes the scan |
| NewlineNormalizer.NormalizingPreservesTheReading | libs/tk_command_parsing/src/tk_command_parsing/parser.py:146-200 | idempotent; the output has no unquoted newline and no comment; quoted and escaped text is verbatim and every unquoted line end reads as a separator |
| NewlineNormalizer.UnchangedIffClean | libs/tk_command_parsing/src/tk_command_parsing/parser.py:146-200 | left alone are exactly the texts without unquoted newline and comment |
| NewlineNormalizer.MatchesTheShellIff | libs/tk_command_parsing/src/tk_command_parsing/parser.py:146-200 | comments are found as sections 2.2 and 2.3 of the Shell Command Language say exactly if no `#` in mid-word follows an escaped blank, newline or operator |
| NewlineNormalizer.EscapedSemicolonThenHash | libs/tk_command_parsing/src/tk_command_parsing/parser.py:163-200 | concrete family where the scanner drops text the shell keeps |
| NewlineNormalizer.SplitTokens | libs/tk_command_parsing/src/tk_command_parsing/parser.py:79-94 | the token loop yields one segment per stretch between control operators |
| NewlineNormalizer.StretchesSplitAtControls | libs/tk_command_parsing/src/tk_command_parsing/parser.py:79-94 | the stretches hold no control operator and, joined by the control operators, are the tokens |
| NewlineNormalizer.SegmentsHoldTheirStretches | libs/tk_command_parsing/src/tk_command_parsing/parser.py:79-94 | there is one segment for each stretch, holding its words in order and the redirect mark exactly if the stretch holds one |
| NewlineNormalizer.TokenKinds | libs/tk_command_parsing/src/tk_command_parsing/parser.py:213-225 | a control operator is punctuation without an angle bracket, a redirect is punctuation with one, anything else is a word |
| BackupLoop.AttemptsAreSpaced | libs/host_backup/src/host_backup/runner.py:49-113 | over every run and any configs: next attempt no sooner than its gap after a tick that returned, and no sooner than the old gap and poll after one that raised |
| BackupLoop.TickSpacingUnderOneConfig | libs/host_backup/src/host_backup/runner.py:82-161 | under one config, after a tick that returned the next starts between the gap and the longer of interval and gap plus one poll; until then that time is not over |
| BackupLoop.EveryRunRemembers | libs/host_backup/src/host_backup/runner.py:67-124 | over every run the loop remembers exactly what it saw: the files at the last attempt, when the last tick returned, the last config read |
| BackupLoop.TicksAsHistorySays | libs/host_backup/src/host_backup/runner.py:82-161 | said on the run's history: a turn attempts a tick exactly if the gap since the last tick that returned is over, and a file differs from the last attempt or the interval is over too |
| BackupLoop.FirstTicksAsHistorySays | libs/host_backup/src/host_backup/runner.py:82-161 | as long as no attempt has returned, exactly if some config has been read |
| BackupLoop.TurnsAreApart | libs/host_backup/src/host_backup/runner.py:82-113 | a turn without a tick lasts a poll, 15 seconds without a config; one that failed, the gap too |
| BackupLoop.UnchangedIsDueIff | libs/host_backup/src/host_backup/runner.py:127-161 | with the files as last looked at, a tick is due exactly at the later of gap and interval |
| BackupLoop.RaisedChangeTickWaits | libs/host_backup/src/host_backup/runner.py:82-161 | over every run in which the files stay as they are after a tick that raised, under any configs: no attempt before the later of gap and interval since the last tick that returned |
| BackupLoop.RaisedChangeTickIsRetriedIff | libs/host_backup/src/host_backup/runner.py:82-161 | under one config it is then attempted again exactly if some turn decides at that time or later |
| BackupLoop.LoopState.ServiceIteration | libs/host_backup/src/host_backup/runner.py:82-113 | one turn on the mutable state is the specified turn, the recovery handler included |
| BackupLoop.LoopState.SafeLoadConfig | libs/host_backup/src/host_backup/runner.py:116-124 | an unreadable file falls back on the last known config |
| BackupLoop.LoopState.RunLoop | libs/host_backup/src/host_backup/runner.py:49-65 | any number of turns of the loop is the specified run |
| VirtualWindow.ComputeVisibleWindow | apps/system_interface/frontend/src/models/virtualWindow.ts:46-104 | the loops return the specified slice, and pads and total that are exact sums of heights |
| VirtualWindow.PadsAndRowsAddUp | apps/system_interface/frontend/src/models/virtualWindow.ts:28-37 | top pad, rendered rows and bottom pad add up to the whole list, pads not negative |
| VirtualWindow.SliceIsTheOverlap | apps/system_interface/frontend/src/models/virtualWindow.ts:39-104 | every row overlapping the over-scanned viewport is rendered and, if there is one, nothing else; with none, one row is |
| VirtualWindow.PastTheEndTheLastRowShows | apps/system_interface/frontend/src/models/virtualWindow.ts:79-90 | scrolled past the end no row overlaps, and exactly the last one is rendered |
| VirtualWindow.SliceFollowsTheScroll | apps/system_interface/frontend/src/models/virtualWindow.ts:46-104 | the slice is determined by its conditions, and scrolling down never moves either end up |
| EnvFile.RoundTripIff | libs/bootstrap/src/bootstrap/manager.py:81-117 | parse(format(env)) == env exactly if every entry is portable: key trimmed, not empty, no `=`, no leading `#`; no line break in either part; value not ending in white space unless quoted |
| EnvFile.UnquoteFormat | libs/bootstrap/src/bootstrap/manager.py:98-112 | quoting and escaping are undone for every value, whatever quotes and backslashes it holds |
| EnvFile.LineParsesIff | libs/bootstrap/src/bootstrap/manager.py:91-112 | an unbroken entry comes back from its own line exactly if it is portable |
| EnvFile.LineAssigns | libs/bootstrap/src/bootstrap/manager.py:91-104 | the first `=` of a stripped line divides key and value; it assigns unless it starts with `#` or the key is empty |
| EnvFile.OtherLinesAssignNothing | libs/bootstrap/src/bootstrap/manager.py:91-97 | a line without `=` assigns nothing |
| EnvFile.StripIs | libs/bootstrap/src/bootstrap/manager.py:91-100 | stripping takes all white space off both ends and nothing else |
| EnvFile.LastLineWins | libs/bootstrap/src/bootstrap/manager.py:91-104 | over all lines, a key is held exactly if some line assigns it, with the value of the last that does |
| EnvFile.PlainIsLeftAlone | libs/bootstrap/src/bootstrap/manager.py:107-112 | the printer leaves a value alone exactly if it holds no blank, quote or newline |
| EnvFile.NewlineValueIsLost | libs/bootstrap/src/bootstrap/manager.py:107-117 | a value with a newline is quoted by the printer yet never comes back |
| EnvFile.TrailingSpaceIsLost | libs/bootstrap/src/bootstrap/manager.py:91-103 | a plain value ending in white space loses it |
| EnvFile.ParseEnvFile | libs/bootstrap/src/bootstrap/manager.py:81-104 | the line loop is the specified parse: a key is held exactly if some line assigns it, with the value of the last line that does |
| EnvFile.SplitJoin | libs/bootstrap/src/bootstrap/manager.py:91-117 | joining unbroken lines and splitting again gives the lines back |

## Left out

- JSON and UTF-8 decoding, text extraction, truncation, slash commands, authentication patterns and sentinel texts: given as the fields of `SessionParser.Raw` or as the `json` parameter; JSON values that are not objects are not told apart from undecodable lines.
- Timestamps are integers in the models; the source compares their texts.
- The body cache's `OrderedDict` is a list of events in recency order; events carry no further fields.
- File discovery, watchdog observers, sleeps and wake events, failing `stat` and `open` calls: steps "a file appeared", "grew", "was truncated" stand for them.
- `get_all_events` and its time sort across files, per-session selection, `session_id` filters.
- Truncation racing a body re-read by another thread, overlapping snapshot loads of one agent: the code makes no promise there.
- The linkage maps filled inside the refresh, and seeding at priming: `Linkage` has results arrive with polls and reads instead.
- HTTP, server-sent events and WebSocket transport, redraws, reconnect backoff timing, the login modal.
- Flags of pending messages other than their content: status changes and the clearing of queued messages on idle are not modelled.
- `flag_values`, `_classify_segment` and the lexer: tokens are given.
- What one backup tick does, its events and its id; only its start, its end and whether it raises. `_emit_tick_error` is taken not to raise.
- Floating point: heights and times are real numbers.
- StreamingMessage.AgentStream.OnMessage: the agent's store is a value here, not the object store of TranscriptObjects, because what matters is the order of arrivals.
- SessionWatcher.AgentSessionWatcher.ResolveBodies: bodies are values, so the sharing of one body dict between cache and readers is modelled in Linkage only.
- Linkage.LinkageWatcher.EmitBatch: an emitted copy is taken at emission; the source hands out the shared dict, which may gain metadata before it is serialised.
- Broadcaster.WebSocketBroadcaster.BroadcastText: clients are numbers, standing for `id(queue)`; reuse of an identity after a queue is freed is not modelled.
- EventsEndpoint.GetEvents: the method runs at one moment, the index being current already; the log growing between its three locked sections is the subject of AnswerAcrossGrowth. Unknown agents and unreadable numbers are not told apart from their defaults.
- Linkage.ReaderOvertakesIff: one cell per uuid stands for the dict that the body cache and the cache of unlinked parents share; once the body is evicted, a reader enriches a freshly parsed dict and the cached parent stays level, which is not told apart here.
