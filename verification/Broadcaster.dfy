/**
 WebSocket clients with bounded queues and eviction
 (apps/system_interface/imbue/system_interface/ws_broadcaster.py, lines 15 to 111 and 165 to 175).
*/
module Broadcaster {
  import opened Common

  type Text = string
  type ClientId = nat

  const CLIENT_QUEUE_MAX_SIZE := 1000
  const MAX_CONSECUTIVE_QUEUE_FULL := 50

  /** What the broadcaster and the handler share about one client; `full` counts rejections in a row. */
  datatype Client = Client(registered: bool, queue: seq<Option<Text>>, full: nat)

  /** One broadcast, as it meets one registered client: put, or counted as rejected. */
  function Tried(c: Client, text: Text): Client {
    if |c.queue| < CLIENT_QUEUE_MAX_SIZE then Client(true, c.queue + [Some(text)], 0)
        else Client(true, c.queue, c.full + 1)
  }

  /** And evicted if that is one rejection too many. */
  function Offer(c: Client, text: Text): Client {
    if Tried(c, text).full < MAX_CONSECUTIVE_QUEUE_FULL then Tried(c, text) else Client(false, [None], 0)
  }

  // ---------------------------------------------------------------- one client over every run

  /** The client with its history: what its handler took, what was broadcast while it was registered,
      whether a broadcast ever found its queue full, and how many came since its last take. */
  datatype Watched = Watched(client: Client, taken: seq<Option<Text>>, sent: seq<Text>, everFull: bool, stalled: nat)

  datatype Step = Broadcast(text: Text) | Take | Leave

  const JOINED := Watched(Client(true, [], 0), [], [], false, 0)

  function Next(w: Watched, step: Step): Watched {
    match step
    case Broadcast(text) =>
      if !w.client.registered then w
      else Watched(Offer(w.client, text), w.taken, w.sent + [text], w.everFull
          || |w.client.queue| >= CLIENT_QUEUE_MAX_SIZE, w.stalled + 1)
    case Take =>
      if w.client.queue == [] then w
      else Watched(Client(w.client.registered, w.client.queue[1..], w.client.full), w.taken + [w.client.queue[0]],
          w.sent, w.everFull, 0)
    case Leave => Watched(Client(false, w.client.queue, 0), w.taken, w.sent, w.everFull, w.stalled)
  }

  function Run(w: Watched, steps: seq<Step>): Watched
    decreases |steps|
  {
    if steps == [] then w else Run(Next(w, steps[0]), steps[1..])
  }

  /** `a` is `b` with some items left out. */
  predicate Subsequence(a: seq<Text>, b: seq<Text>)
    decreases |b|
  {
    if a == [] then true
    else if b == [] then false
    else (a[|a| - 1] == b[|b| - 1] && Subsequence(a[..|a| - 1], b[..|b| - 1])) || Subsequence(a, b[..|b| - 1])
  }

  lemma SubsequenceGrows(a: seq<Text>, b: seq<Text>, x: Text)
    requires Subsequence(a, b)
    ensures Subsequence(a, b + [x]) && Subsequence(a + [x], b + [x])
  {
    assert (b + [x])[..|b|] == b && (a + [x])[..|a|] == a;
  }

  lemma {:induction false} SubsequencePrefix(a: seq<Text>, b: seq<Text>, n: nat)
    requires Subsequence(a, b) && n <= |a|
    ensures Subsequence(a[..n], b)
    decreases |b|
  {
    if n < |a| {
      var a1, b1 := a[..|a| - 1], b[..|b| - 1];
      assert a1[..n] == a[..n];
      if Subsequence(a1, b1) && a[|a| - 1] == b[|b| - 1] {
        SubsequencePrefix(a1, b1, n);
        assert b == b1 + [b[|b| - 1]];
        SubsequenceGrows(a[..n], b1, b[|b| - 1]);
      } else {
        SubsequencePrefix(a, b1, n);
        assert b == b1 + [b[|b| - 1]];
        SubsequenceGrows(a[..n], b1, b[|b| - 1]);
      }
    } else {
      assert a[..n] == a;
    }
  }

  /** What the handler has taken and may still take. */
  function Seen(w: Watched): seq<Option<Text>> {
    w.taken + w.client.queue
  }

  ghost predicate Bounded(w: Watched) {
    && |w.client.queue| <= CLIENT_QUEUE_MAX_SIZE
    && w.client.full < MAX_CONSECUTIVE_QUEUE_FULL
    && (|w.client.queue| == CLIENT_QUEUE_MAX_SIZE ==> w.client.full <= w.stalled)
  }

  ghost predicate NoSentinel(s: seq<Option<Text>>) {
    forall i :: 0 <= i < |s| ==> s[i].Some?
  }

  /** A client still registered. */
  ghost predicate Served(w: Watched) {
    && Bounded(w)
    && NoSentinel(Seen(w))
    && Subsequence(Given(Seen(w)), w.sent)
    && (!w.everFull ==> Given(Seen(w)) == w.sent)
  }

  lemma OfferSeen(w: Watched, text: Text)
    requires w.client.registered && Next(w, Broadcast(text)).client.registered
    ensures Seen(Next(w, Broadcast(text))) == if |w.client.queue| < CLIENT_QUEUE_MAX_SIZE then Seen(w) + [Some(text)]
        else Seen(w)
  {}

  lemma OfferIsBounded(w: Watched, text: Text)
    requires w.client.registered && Bounded(w) && Next(w, Broadcast(text)).client.registered
    ensures Bounded(Next(w, Broadcast(text)))
  {}

  lemma OfferIsSeen(w: Watched, text: Text)
    requires Served(w)
    ensures NoSentinel(Seen(w) + [Some(text)]) && Subsequence(Given(Seen(w)), w.sent + [text])
    ensures Subsequence(Given(Seen(w) + [Some(text)]), w.sent + [text])
    ensures !w.everFull ==> Given(Seen(w) + [Some(text)]) == w.sent + [text]
  {
    SubsequenceGrows(Given(Seen(w)), w.sent, text);
    GivenSnoc(Seen(w), Some(text));
  }

  lemma OfferServes(w: Watched, text: Text)
    requires w.client.registered && Served(w) && Next(w, Broadcast(text)).client.registered
    ensures Served(Next(w, Broadcast(text)))
  {
    OfferSeen(w, text);
    OfferIsBounded(w, text);
    OfferIsSeen(w, text);
  }

  lemma TakeLeavesSeen(w: Watched)
    ensures Seen(Next(w, Take)) == Seen(w)
  {
    if w.client.queue != [] {
      assert w.taken + w.client.queue == (w.taken + [w.client.queue[0]]) + w.client.queue[1..];
    }
  }

  lemma TakeServes(w: Watched)
    requires w.client.registered && Served(w)
    ensures Served(Next(w, Take))
  {
    TakeLeavesSeen(w);
  }

  /** Eviction takes 50 broadcasts in a row that found no room since the client last took anything. */
  lemma EvictionNeedsAStall(w: Watched, text: Text)
    requires w.client.registered && Served(w)
    ensures !Next(w, Broadcast(text)).client.registered
        <==> |w.client.queue| == CLIENT_QUEUE_MAX_SIZE && w.client.full == MAX_CONSECUTIVE_QUEUE_FULL - 1
    ensures !Next(w, Broadcast(text)).client.registered ==>
        Next(w, Broadcast(text)).stalled >= MAX_CONSECUTIVE_QUEUE_FULL
    ensures !Next(w, Broadcast(text)).client.registered ==> Next(w, Broadcast(text)).client.queue == [None]
  {}

  lemma {:induction false} RunServes(w: Watched, steps: seq<Step>)
    requires w.client.registered && Served(w) && Run(w, steps).client.registered
    ensures Served(Run(w, steps))
    decreases |steps|
  {
    if steps != [] {
      if !Next(w, steps[0]).client.registered {
        StaysOut(Next(w, steps[0]), steps[1..]);
      }
      match steps[0] {
        case Broadcast(text) => OfferServes(w, text);
        case Take => TakeServes(w);
        case Leave =>
      }
      RunServes(Next(w, steps[0]), steps[1..]);
    }
  }

  lemma {:induction false} StaysOut(w: Watched, steps: seq<Step>)
    requires !w.client.registered
    ensures !Run(w, steps).client.registered && Run(w, steps).client.queue
        == w.client.queue[Min(Takes(steps), |w.client.queue|)..]
    decreases |steps|
  {
    if steps != [] {
      StaysOut(Next(w, steps[0]), steps[1..]);
    }
  }

  function Takes(steps: seq<Step>): nat {
    if steps == [] then 0 else (if steps[0].Take? then 1 else 0) + Takes(steps[1..])
  }

  /** Over every run: a client still registered has a bounded queue, has not been rejected 50 times in a
      row, and has read or will read a subsequence of the broadcasts since it registered, all of them if
      its queue was never full. */
  lemma EveryClientIsServed(steps: seq<Step>)
    requires Run(JOINED, steps).client.registered
    ensures Served(Run(JOINED, steps))
  {
    RunServes(JOINED, steps);
  }

  /** What the handler has taken and may still take is a subsequence of the broadcasts. */
  ghost predicate ReadsInOrder(w: Watched) {
    Subsequence(Given(Seen(w)), w.sent)
  }

  lemma TakenIsInOrder(w: Watched)
    requires ReadsInOrder(w)
    ensures Subsequence(Given(w.taken), w.sent)
  {
    var taken, seen := Given(w.taken), Given(Seen(w));
    GivenPrefix(w.taken, w.client.queue);
    assert seen[..|taken|] == taken;
    SubsequencePrefix(seen, w.sent, |taken|);
  }

  lemma PutReadsInOrder(w: Watched, text: Text)
    requires ReadsInOrder(w) && w.client.registered && Next(w, Broadcast(text)).client.registered
    ensures ReadsInOrder(Next(w, Broadcast(text)))
  {
    SubsequenceGrows(Given(Seen(w)), w.sent, text);
    GivenSnoc(Seen(w), Some(text));
    OfferSeen(w, text);
  }

  /** Eviction throws the queue away; what was taken before stays in order. */
  lemma EvictionReadsInOrder(w: Watched, text: Text)
    requires ReadsInOrder(w) && w.client.registered && !Next(w, Broadcast(text)).client.registered
    ensures ReadsInOrder(Next(w, Broadcast(text)))
  {
    assert Seen(Next(w, Broadcast(text))) == w.taken + [None];
    GivenSnoc(w.taken, None);
    assert Given(w.taken) + [] == Given(w.taken);
    TakenIsInOrder(w);
    SubsequenceGrows(Given(w.taken), w.sent, text);
  }

  lemma NextReadsInOrder(w: Watched, step: Step)
    requires ReadsInOrder(w)
    ensures ReadsInOrder(Next(w, step))
  {
    match step
    case Broadcast(text) =>
      if w.client.registered {
        if Next(w, step).client.registered {
          PutReadsInOrder(w, text);
        } else {
          EvictionReadsInOrder(w, text);
        }
      }
    case Take => TakeLeavesSeen(w);
    case Leave =>
  }

  lemma {:induction false} RunReadsInOrder(w: Watched, steps: seq<Step>)
    requires ReadsInOrder(w)
    ensures ReadsInOrder(Run(w, steps))
    decreases |steps|
  {
    if steps != [] {
      NextReadsInOrder(w, steps[0]);
      RunReadsInOrder(Next(w, steps[0]), steps[1..]);
    }
  }

  /** Over every run, also for a client that was evicted or left: what its handler has taken is, without
      sentinels, a subsequence of the broadcasts while it was registered. Nothing is sent twice or out of
      order, whatever is thrown away. */
  lemma EveryHandlerReadsInOrder(steps: seq<Step>)
    ensures Subsequence(Given(Run(JOINED, steps).taken), Run(JOINED, steps).sent)
  {
    RunReadsInOrder(JOINED, steps);
    TakenIsInOrder(Run(JOINED, steps));
  }

  /** An evicted client's queue holds exactly the sentinel until its handler takes it, whatever else happens. */
  lemma EvictedFindsTheSentinel(w: Watched, text: Text, steps: seq<Step>)
    requires w.client.registered && !Next(w, Broadcast(text)).client.registered
    ensures Run(Next(w, Broadcast(text)), steps).client.queue == if Takes(steps) == 0 then [None] else []
  {
    StaysOut(Next(w, Broadcast(text)), steps);
  }

  // ---------------------------------------------------------------- draining clients, stalled clients

  /** The handler takes something at least once between any 50 broadcasts it is still registered for. */
  ghost predicate Drains(w: Watched, steps: seq<Step>)
    decreases |steps|
  {
    steps != [] ==>
      && (steps[0].Broadcast? ==> w.stalled < MAX_CONSECUTIVE_QUEUE_FULL - 1)
      && steps[0] != Leave
      && Drains(Next(w, steps[0]), steps[1..])
  }

  lemma {:induction false} DrainingKeepsServed(w: Watched, steps: seq<Step>)
    requires w.client.registered && Served(w) && Drains(w, steps)
    ensures Run(w, steps).client.registered
    decreases |steps|
  {
    if steps != [] {
      match steps[0] {
        case Broadcast(text) =>
          EvictionNeedsAStall(w, text);
          OfferServes(w, text);
        case Take => TakeServes(w);
        case Leave =>
      }
      DrainingKeepsServed(Next(w, steps[0]), steps[1..]);
    }
  }

  lemma DrainingClientIsNeverEvicted(steps: seq<Step>)
    requires Drains(JOINED, steps)
    ensures Run(JOINED, steps).client.registered
  {
    DrainingKeepsServed(JOINED, steps);
  }

  function Broadcasts(texts: seq<Text>): (r: seq<Step>)
    ensures |r| == |texts|
  {
    seq(|texts|, i requires 0 <= i < |texts| => Broadcast(texts[i]))
  }

  /** A handler that stops taking is evicted by exactly the 50th broadcast its full queue rejects. */
  lemma {:induction false} StalledClientIsEvictedIff(w: Watched, texts: seq<Text>)
    requires w.client.registered && Served(w)
    ensures var room := CLIENT_QUEUE_MAX_SIZE - |w.client.queue|;
      Run(w, Broadcasts(texts)).client.registered <==>
        |texts| < room + MAX_CONSECUTIVE_QUEUE_FULL - if room == 0 then w.client.full else 0
    decreases |texts|
  {
    if texts != [] {
      assert Broadcasts(texts)[1..] == Broadcasts(texts[1..]);
      var w1 := Next(w, Broadcast(texts[0]));
      if w1.client.registered {
        OfferServes(w, texts[0]);
        StalledClientIsEvictedIff(w1, texts[1..]);
      } else {
        StaysOut(w1, Broadcasts(texts[1..]));
      }
    }
  }

  // ---------------------------------------------------------------- the broadcaster and its loops

  /** The maps the loop of broadcast goes over, and the list of clients it gives up. */
  datatype Books = Books(contents: map<ClientId, seq<Option<Text>>>, full: map<ClientId, nat>, dead: seq<ClientId>)

  function TryNext(b: Books, q: ClientId, text: Text): Books
    requires q in b.contents && q in b.full
  {
    if |b.contents[q]| < CLIENT_QUEUE_MAX_SIZE
    then Books(b.contents[q := b.contents[q] + [Some(text)]], b.full[q := 0], b.dead)
    else
      var n := b.full[q] + 1;
      Books(b.contents, b.full[q := n], if n >= MAX_CONSECUTIVE_QUEUE_FULL then b.dead + [q] else b.dead)
  }

  function TryEach(b: Books, clients: seq<ClientId>, text: Text): Books
    requires forall q :: q in clients ==> q in b.contents && q in b.full
    decreases |clients|
  {
    if clients == [] then b else TryEach(TryNext(b, clients[0], text), clients[1..], text)
  }

  function Entry(b: Books, q: ClientId): Client
    requires q in b.contents && q in b.full
  {
    Client(true, b.contents[q], b.full[q])
  }

  /** One rejection too many. */
  predicate RejectedTooOften(b: Books, q: ClientId, text: Text)
    requires q in b.contents && q in b.full
  {
    Tried(Entry(b, q), text).full >= MAX_CONSECUTIVE_QUEUE_FULL
  }

  lemma TryNextIs(b: Books, q: ClientId, text: Text)
    requires q in b.contents && q in b.full
    ensures var r := TryNext(b, q, text);
      && r.contents.Keys == b.contents.Keys && r.full.Keys == b.full.Keys
      && (forall p :: p in b.contents && p != q ==> r.contents[p] == b.contents[p])
      && (forall p :: p in b.full && p != q ==> r.full[p] == b.full[p])
      && Entry(r, q) == Tried(Entry(b, q), text)
      && (forall p ::
            p in r.dead <==> p in b.dead || (p == q && RejectedTooOften(b, q, text)))
  {}

  /** Each client is tried once, whatever the others do. */
  lemma {:induction false} TryEachIs(b: Books, clients: seq<ClientId>, text: Text)
    requires Distinct(clients) && forall q :: q in clients ==> q in b.contents && q in b.full
    ensures var r := TryEach(b, clients, text);
      && r.contents.Keys == b.contents.Keys && r.full.Keys == b.full.Keys
      && (forall q :: q in b.contents && q !in clients ==> r.contents[q] == b.contents[q])
      && (forall q :: q in b.full && q !in clients ==> r.full[q] == b.full[q])
      && (forall q :: q in clients ==> Entry(r, q) == Tried(Entry(b, q), text))
      && (forall q ::
            q in r.dead <==> q in b.dead || (q in clients && RejectedTooOften(b, q, text)))
    decreases |clients|
  {
    if clients != [] {
      var b1 := TryNext(b, clients[0], text);
      assert clients == [clients[0]] + clients[1..];
      assert clients[0] !in clients[1..];
      TryNextIs(b, clients[0], text);
      TryEachIs(b1, clients[1..], text);
    }
  }

  class WebSocketBroadcaster {
    var clientQueues: seq<ClientId>
    var consecutiveQueueFull: map<ClientId, nat>
    /** What each queue holds now. */
    var contents: map<ClientId, seq<Option<Text>>>

    constructor ()
      ensures Valid() && clientQueues == [] && contents == map[]
    {
      clientQueues, consecutiveQueueFull, contents := [], map[], map[];
    }

    ghost predicate Valid()
      reads this
    {
      && Distinct(clientQueues)
      && (forall q :: q in clientQueues <==> q in consecutiveQueueFull)
      && (forall q :: q in clientQueues ==> q in contents)
    }

    function ClientOf(q: ClientId): Client
      requires q in contents
      reads this
    {
      Client(q in clientQueues, contents[q], if q in consecutiveQueueFull then consecutiveQueueFull[q] else 0)
    }

    method Register(q: ClientId)
      requires Valid() && q !in contents
      modifies this
      ensures Valid() && contents.Keys == old(contents).Keys + {q} && ClientOf(q) == JOINED.client
      ensures forall p :: p in old(contents) ==> ClientOf(p) == old(ClientOf(p))
    {
      contents := contents[q := []];
      clientQueues := clientQueues + [q];
      consecutiveQueueFull := consecutiveQueueFull[q := 0];
    }

    method Unregister(q: ClientId)
      requires Valid() && q in contents
      modifies this`clientQueues, this`consecutiveQueueFull
      ensures Valid() && ClientOf(q) == Client(false, contents[q], 0)
      ensures forall p :: p in contents && p != q ==> ClientOf(p) == old(ClientOf(p))
    {
      consecutiveQueueFull := consecutiveQueueFull - {q};
      RemovedKeeps(clientQueues, q);
      clientQueues := Removed(clientQueues, q);
    }

    method DrainQueue(q: ClientId)
      requires q in contents
      modifies this`contents
      ensures contents == old(contents)[q := []]
    {
      while contents[q] != []
        modifies this`contents
        invariant contents.Keys == old(contents).Keys && forall p :: p in contents && p != q ==>
            contents[p] == old(contents)[p]
        decreases |contents[q]|
      {
        contents := contents[q := contents[q][1..]];
      }
    }

    method DisconnectLocked(dead: ClientId)
      requires Valid() && dead in contents
      modifies this
      ensures Valid() && contents.Keys == old(contents).Keys && ClientOf(dead) == Client(false, [None], 0)
      ensures forall p :: p in contents && p != dead ==> ClientOf(p) == old(ClientOf(p))
      ensures forall p :: p in clientQueues <==> p in old(clientQueues) && p != dead
    {
      consecutiveQueueFull := consecutiveQueueFull - {dead};
      RemovedKeeps(clientQueues, dead);
      clientQueues := Removed(clientQueues, dead);
      LeaveSentinel(dead);
    }

    /** One turn of the loop over the clients. */
    method TryOne(q: ClientId, text: Text, dead: seq<ClientId>) returns (dead': seq<ClientId>)
      requires q in contents && q in consecutiveQueueFull
      modifies this`contents, this`consecutiveQueueFull
      ensures contents.Keys == old(contents).Keys && consecutiveQueueFull.Keys == old(consecutiveQueueFull).Keys
      ensures Books(contents, consecutiveQueueFull, dead')
          == TryNext(old(Books(contents, consecutiveQueueFull, dead)), q, text)
    {
      dead' := dead;
      if |contents[q]| < CLIENT_QUEUE_MAX_SIZE {
        contents := contents[q := contents[q] + [Some(text)]];
        consecutiveQueueFull := consecutiveQueueFull[q := 0];
      } else {
        var newCount := consecutiveQueueFull[q] + 1;
        consecutiveQueueFull := consecutiveQueueFull[q := newCount];
        if newCount >= MAX_CONSECUTIVE_QUEUE_FULL {
          dead' := dead' + [q];
        }
      }
    }

    method TryLoop(text: Text) returns (dead: seq<ClientId>)
      requires Valid()
      modifies this`contents, this`consecutiveQueueFull
      ensures contents.Keys == old(contents).Keys && consecutiveQueueFull.Keys == old(consecutiveQueueFull).Keys
      ensures Books(contents, consecutiveQueueFull, dead)
          == TryEach(old(Books(contents, consecutiveQueueFull, [])), clientQueues, text)
    {
      dead := [];
      ghost var books := Books(contents, consecutiveQueueFull, []);
      ghost var goal := TryEach(books, clientQueues, text);
      ghost var now := books;
      var i := 0;
      assert clientQueues[0..] == clientQueues;
      while i < |clientQueues|
        modifies this`contents, this`consecutiveQueueFull
        invariant 0 <= i <= |clientQueues| && now == Books(contents, consecutiveQueueFull, dead)
        invariant contents.Keys == books.contents.Keys && consecutiveQueueFull.Keys == books.full.Keys
        invariant TryEach(now, clientQueues[i..], text) == goal
      {
        var q := clientQueues[i];
        assert clientQueues[i..][0] == q && clientQueues[i..][1..] == clientQueues[i + 1..];
        dead := TryOne(q, text, dead);
        now := TryNext(now, q, text);
        i := i + 1;
      }
    }

    /** The loop over the clients: puts the text, counts rejections, and tells which clients are given up. */
    method TryAll(text: Text) returns (dead: seq<ClientId>)
      requires Valid()
      modifies this`contents, this`consecutiveQueueFull
      ensures Valid() && contents.Keys == old(contents).Keys
      ensures forall q :: q in contents ==>
          ClientOf(q) == if q in clientQueues then Tried(old(ClientOf(q)), text) else old(ClientOf(q))
      ensures forall q :: q in dead <==> q in clientQueues && ClientOf(q).full >= MAX_CONSECUTIVE_QUEUE_FULL
    {
      TryEachIs(Books(contents, consecutiveQueueFull, []), clientQueues, text);
      dead := TryLoop(text);
    }

    method DisconnectAll(dead: seq<ClientId>)
      requires Valid() && forall q :: q in dead ==> q in contents
      modifies this
      ensures Valid() && contents.Keys == old(contents).Keys
      ensures forall q :: q in contents ==>
          ClientOf(q) == if q in dead then Client(false, [None], 0) else old(ClientOf(q))
    {
      ghost var were := map q | q in contents :: ClientOf(q);
      var i := 0;
      while i < |dead|
        invariant 0 <= i <= |dead| && Valid() && contents.Keys == were.Keys
        invariant forall q :: q in were ==> ClientOf(q) == if q in dead[..i] then Client(false, [None], 0) else were[q]
      {
        assert dead[..i + 1] == dead[..i] + [dead[i]];
        DisconnectLocked(dead[i]);
        i := i + 1;
      }
      assert dead[..i] == dead;
    }

    /** broadcast: every registered client meets it as `Offer` says, no other client is touched. */
    method BroadcastText(text: Text)
      requires Valid()
      modifies this
      ensures Valid() && contents.Keys == old(contents).Keys
      ensures forall q :: q in contents ==>
          ClientOf(q) == if q in old(clientQueues) then Offer(old(ClientOf(q)), text) else old(ClientOf(q))
    {
      var dead := TryAll(text);
      DisconnectAll(dead);
    }

    method LeaveSentinel(q: ClientId)
      requires q in contents
      modifies this`contents
      ensures contents == old(contents)[q := [None]]
    {
      DrainQueue(q);
      contents := contents[q := contents[q] + [None]];
      assert contents[q] == [None];
    }

    /** shutdown: every registered client is left with the sentinel alone. */
    method Shutdown()
      requires Valid()
      modifies this
      ensures Valid() && clientQueues == [] && contents.Keys == old(contents).Keys
      ensures forall q :: q in contents ==> contents[q] == if q in old(clientQueues) then [None] else old(contents)[q]
    {
      var i := 0;
      while i < |clientQueues|
        modifies this`contents
        invariant 0 <= i <= |clientQueues| && contents.Keys == old(contents).Keys
        invariant forall q :: q in contents ==>
            contents[q] == if q in clientQueues[..i] then [None] else old(contents)[q]
      {
        PrefixSnoc(clientQueues, i);
        LeaveSentinel(clientQueues[i]);
        i := i + 1;
      }
      assert clientQueues[..i] == clientQueues;
      clientQueues, consecutiveQueueFull := [], map[];
    }
  }
}
