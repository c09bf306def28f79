/** Requests multiplexed over one connection: the client's drive task with its
    wrapping id allocator and map of waiters, two FIFO wires, and a server that
    answers each frame it reads with one response of the same id. */
module Multiplexing {

  // ------------------------------------------------------------------
  // Request ids
  // ------------------------------------------------------------------

  const MAX_ID: nat := 0xFFFF_FFFF_FFFF_FFFF

  /** `wrapping_add(1).max(1)` on a 64-bit id. */
  function NextId(id: nat): nat {
    var wrapped := (id + 1) % (MAX_ID + 1);
    if wrapped > 1 then wrapped else 1
  }

  /** The n-th id allocated, counting from 1. */
  function Nth(n: nat): nat
    requires n >= 1
  {
    if n == 1 then 1 else NextId(Nth(n - 1))
  }

  lemma NextIdCases(id: nat)
    requires 1 <= id <= MAX_ID
    ensures NextId(id) == if id == MAX_ID then 1 else id + 1
  {
  }

  /** How many times the ids have wrapped before the n-th. */
  ghost function Rounds(n: nat): nat
    requires n >= 1
  {
    if n == 1 then 0 else Rounds(n - 1) + if Nth(n - 1) == MAX_ID then 1 else 0
  }

  /** Ids run through 1..2^64-1 and start over: never 0. */
  lemma {:induction false} IdCycle(n: nat)
    requires n >= 1
    ensures n == Rounds(n) * MAX_ID + Nth(n) && 1 <= Nth(n) <= MAX_ID
  {
    if n > 1 {
      IdCycle(n - 1);
      NextIdCases(Nth(n - 1));
    }
  }

  lemma MultipleOrNothing(k: int, n: nat)
    ensures k <= 0 ==> k * n <= 0
    ensures k >= 1 ==> k * n >= n
  {
  }

  lemma Remainder(q: int, r: nat)
    requires r < MAX_ID
    ensures (q * MAX_ID + r) % MAX_ID == r
  {
  }

  /** The n-th id allocated in closed form. */
  lemma IdClosedForm(n: nat)
    requires n >= 1
    ensures Nth(n) == (n - 1) % MAX_ID + 1
  {
    IdCycle(n);
    Remainder(Rounds(n), Nth(n) - 1);
  }

  lemma IdsDistinct(n: nat, m: nat)
    requires 1 <= n < m < n + MAX_ID
    ensures Nth(n) != Nth(m)
  {
    IdCycle(n);
    IdCycle(m);
    var rounds := Rounds(m) - Rounds(n);
    assert Nth(n) == Nth(m) ==> m - n == rounds * MAX_ID;
    MultipleOrNothing(rounds, MAX_ID);
  }

  /** Two allocations share an id exactly when a whole number of rounds lies
      between them. */
  lemma SameIdIff(n: nat, m: nat)
    requires 1 <= n <= m
    ensures Nth(n) == Nth(m) <==> (m - n) % MAX_ID == 0
  {
    IdCycle(n);
    IdCycle(m);
    var rounds := Rounds(m) - Rounds(n);
    if Nth(m) >= Nth(n) {
      assert m - n == rounds * MAX_ID + (Nth(m) - Nth(n));
      Remainder(rounds, Nth(m) - Nth(n));
    } else {
      assert m - n == (rounds - 1) * MAX_ID + (Nth(m) + MAX_ID - Nth(n));
      Remainder(rounds - 1, Nth(m) + MAX_ID - Nth(n));
    }
  }

  // ------------------------------------------------------------------
  // The protocol
  // ------------------------------------------------------------------

  /** What a caller of `request` gets. `about` is history: the call the server
      was answering. */
  datatype Outcome<R> = Answer(response: R, about: nat) | ProtocolError | TransportError | Gone

  datatype Call<M, R> = Call(message: M, outcomes: seq<Outcome<R>>)

  /** A request frame. `call` (whose it is) and `n` (which allocation its id
      was) are history. */
  datatype Frame<M> = Frame(id: nat, message: M, call: nat, n: nat)

  /** What the server sends: the response to a frame, or an event of a run. */
  datatype ServerFrame<M, R> = Response(id: nat, response: R, about: Frame<M>) | RunEvent(event: R)

  /** `ends` is whether the server leaves after the response: a refused hello,
      or an accepted shutdown. */
  datatype Server<M> = Reading | Handling(frame: Frame<M>, ends: bool) | Ended

  /** `pending` maps an id to the call waiting for it, and `forwarded` is what the
      client passed to its event channel. `issued`, `received` and `answered` (ids
      read and answered by the server) and `lost` (a frame read but not answered)
      are history. */
  datatype Link<M, R> = Link(
    calls: seq<Call<M, R>>, queue: seq<nat>, nextId: nat, issued: nat, pending: map<nat, nat>, driving: bool, forwarded: seq<R>,
    requests: seq<Frame<M>>, responses: seq<ServerFrame<M, R>>,
    server: Server<M>, received: seq<nat>, answered: seq<nat>, lost: seq<Frame<M>>)

  datatype Action<M, R> =
    | Request(message: M)
    | Dequeue(encodes: bool, sent: bool)
    | ClientsDropped
    | Incoming
    | ConnectionLost
    | ServerReceive(ends: bool)
    | ServerRespond(response: R, written: bool)
    | ServerEvent(event: R)
    | ServerEnd

  ghost function Init<M, R>(): Link<M, R> {
    Link([], [], 1, 0, map[], true, [], [], [], Reading, [], [], [])
  }

  ghost function Resolve<M, R>(calls: seq<Call<M, R>>, k: nat, o: Outcome<R>): seq<Call<M, R>> {
    if k < |calls| then calls[k := calls[k].(outcomes := calls[k].outcomes + [o])] else calls
  }

  /** `drive` returns: every waiter is told, and the requests still queued lose
      their senders. */
  ghost function Stop<M, R>(s: Link<M, R>): Link<M, R> {
    s.(driving := false, pending := map[], queue := [],
       calls := seq(|s.calls|, k requires 0 <= k < |s.calls| =>
         if k in s.pending.Values then s.calls[k].(outcomes := s.calls[k].outcomes + [TransportError])
         else if k in s.queue then s.calls[k].(outcomes := s.calls[k].outcomes + [Gone])
         else s.calls[k]))
  }

  /** Insert a waiter; one already waiting on the id loses its sender. */
  ghost function Await<M, R>(s: Link<M, R>, id: nat, k: nat): Link<M, R> {
    s.(calls := if id in s.pending then Resolve(s.calls, s.pending[id], Gone) else s.calls,
       pending := s.pending[id := k])
  }

  ghost function Dequeued<M, R>(s: Link<M, R>, encodes: bool, sent: bool): Link<M, R>
    requires s.queue != []
  {
    var k, id := s.queue[0], s.nextId;
    var t := s.(queue := s.queue[1..], nextId := NextId(id), issued := s.issued + 1);
    if !encodes then t.(calls := Resolve(t.calls, k, ProtocolError))
    else if !sent then Stop(t.(calls := Resolve(t.calls, k, TransportError)))
    else if k < |t.calls| then
      Await(t.(requests := t.requests + [Frame(id, t.calls[k].message, k, t.issued)]), id, k)
    else t
  }

  ghost function Received<M, R>(s: Link<M, R>): Link<M, R>
    requires s.responses != []
  {
    var frame, t := s.responses[0], s.(responses := s.responses[1..]);
    if frame.Response? && frame.id in s.pending then
      t.(calls := Resolve(t.calls, s.pending[frame.id], Answer(frame.response, frame.about.call)),
         pending := s.pending - {frame.id})
    else if frame.RunEvent? then t.(forwarded := s.forwarded + [frame.event])
    else t
  }

  ghost function Step<M, R>(s: Link<M, R>, a: Action<M, R>): Link<M, R> {
    match a
    case Request(message) =>
      s.(calls := s.calls + [Call(message, if s.driving then [] else [Gone])],
         queue := if s.driving then s.queue + [|s.calls|] else s.queue)
    case Dequeue(encodes, sent) => if s.driving && s.queue != [] then Dequeued(s, encodes, sent) else s
    case ClientsDropped => if s.driving && s.queue == [] then Stop(s) else s
    case Incoming => if s.driving && s.responses != [] then Received(s) else s
    case ConnectionLost => if s.driving then Stop(s) else s
    case ServerReceive(ends) =>
      if s.server.Reading? && s.requests != [] then
        s.(server := Handling(s.requests[0], ends), requests := s.requests[1..],
           received := s.received + [s.requests[0].id])
      else s
    case ServerRespond(response, written) =>
      if !s.server.Handling? then s
      else if !written then s.(server := Ended, lost := s.lost + [s.server.frame])
      else
        s.(responses := s.responses + [Response(s.server.frame.id, response, s.server.frame)],
           answered := s.answered + [s.server.frame.id],
           server := if s.server.ends then Ended else Reading)
    case ServerEvent(event) => if s.server.Ended? then s else s.(responses := s.responses + [RunEvent(event)])
    case ServerEnd => if s.server.Reading? then s.(server := Ended) else s
  }

  ghost function Exec<M, R>(actions: seq<Action<M, R>>): Link<M, R> {
    if actions == [] then Init()
    else Step(Exec(actions[..|actions| - 1]), actions[|actions| - 1])
  }

  // ------------------------------------------------------------------
  // Exactly one outcome per call, with no hypothesis
  // ------------------------------------------------------------------

  ghost predicate Waiting<M, R>(s: Link<M, R>, k: nat) {
    k in s.queue || k in s.pending.Values
  }

  /** A call has no outcome while it waits and exactly one afterwards; each
      call waits in one place. */
  ghost predicate Resolution<M, R>(s: Link<M, R>) {
    && (forall k :: 0 <= k < |s.calls| ==> |s.calls[k].outcomes| == if Waiting(s, k) then 0 else 1)
    && (forall i :: 0 <= i < |s.queue| ==> s.queue[i] < |s.calls| && s.queue[i] !in s.pending.Values)
    && (forall i, j :: 0 <= i < j < |s.queue| ==> s.queue[i] != s.queue[j])
    && (forall id :: id in s.pending ==> s.pending[id] < |s.calls|)
    && (forall id, other :: id in s.pending && other in s.pending && id != other ==> s.pending[id] != s.pending[other])
    && (!s.driving ==> s.queue == [] && s.pending == map[])
  }

  lemma StopResolution<M, R>(s: Link<M, R>)
    requires Resolution(s)
    ensures Resolution(Stop(s))
  {
  }

  /** Taking call `k` out of the queue and giving it an outcome. */
  lemma PopResolution<M, R>(s: Link<M, R>, o: Outcome<R>)
    requires Resolution(s) && s.queue != []
    ensures Resolution(s.(queue := s.queue[1..], calls := Resolve(s.calls, s.queue[0], o)))
  {
    var k := s.queue[0];
    var t := s.(queue := s.queue[1..], calls := Resolve(s.calls, k, o));
    forall m | 0 <= m < |t.calls| ensures |t.calls[m].outcomes| == if Waiting(t, m) then 0 else 1 {
      assert m != k ==> (m in s.queue <==> m in t.queue);
    }
  }

  /** Taking an id out of the map and giving its call an outcome. */
  lemma RemoveResolution<M, R>(s: Link<M, R>, id: nat, o: Outcome<R>)
    requires Resolution(s) && id in s.pending
    ensures Resolution(s.(pending := s.pending - {id}, calls := Resolve(s.calls, s.pending[id], o)))
  {
    var k := s.pending[id];
    var t := s.(pending := s.pending - {id}, calls := Resolve(s.calls, k, o));
    forall m | 0 <= m < |t.calls| ensures |t.calls[m].outcomes| == if Waiting(t, m) then 0 else 1 {
      if m != k && m in s.pending.Values {
        var other :| other in s.pending && s.pending[other] == m;
        assert t.pending[other] == m;
      }
    }
  }

  /** Moving the head of the queue into the map under a free id. */
  lemma MoveResolution<M, R>(s: Link<M, R>, id: nat)
    requires Resolution(s) && s.queue != [] && s.driving && id !in s.pending
    ensures Resolution(s.(queue := s.queue[1..], pending := s.pending[id := s.queue[0]]))
  {
    var k := s.queue[0];
    var t := s.(queue := s.queue[1..], pending := s.pending[id := k]);
    assert t.pending.Values == s.pending.Values + {k} by {
      assert t.pending[id] == k;
      forall other | other in s.pending ensures s.pending[other] in t.pending.Values {
        assert t.pending[other] == s.pending[other];
      }
    }
    forall m | 0 <= m < |t.calls| ensures |t.calls[m].outcomes| == if Waiting(t, m) then 0 else 1 {
      assert m != k ==> (m in s.queue <==> m in t.queue);
    }
  }

  lemma FailedResolution<M, R>(s: Link<M, R>, encodes: bool)
    requires Resolution(s) && s.driving && s.queue != []
    ensures Resolution(Dequeued(s, encodes, false))
  {
    var k := s.queue[0];
    var issued := s.(nextId := NextId(s.nextId), issued := s.issued + 1);
    assert Resolution(issued);
    if !encodes {
      PopResolution(issued, ProtocolError);
    } else {
      PopResolution(issued, TransportError);
      StopResolution(issued.(queue := s.queue[1..], calls := Resolve(s.calls, k, TransportError)));
    }
  }

  lemma SentResolution<M, R>(s: Link<M, R>)
    requires Resolution(s) && s.driving && s.queue != []
    ensures Resolution(Dequeued(s, true, true))
  {
    var k, id := s.queue[0], s.nextId;
    var framed := s.(nextId := NextId(id), issued := s.issued + 1,
                     requests := s.requests + [Frame(id, s.calls[k].message, k, s.issued + 1)]);
    assert Resolution(framed);
    if id in s.pending {
      RemoveResolution(framed, id, Gone);
      var freed := framed.(pending := s.pending - {id}, calls := Resolve(s.calls, s.pending[id], Gone));
      MoveResolution(freed, id);
      assert freed.pending[id := k] == s.pending[id := k];
    } else {
      MoveResolution(framed, id);
    }
  }

  lemma DequeuedResolution<M, R>(s: Link<M, R>, encodes: bool, sent: bool)
    requires Resolution(s) && s.driving && s.queue != []
    ensures Resolution(Dequeued(s, encodes, sent))
  {
    if encodes && sent {
      SentResolution(s);
    } else {
      FailedResolution(s, encodes);
      assert Dequeued(s, encodes, sent) == Dequeued(s, encodes, false);
    }
  }

  lemma ReceivedResolution<M, R>(s: Link<M, R>)
    requires Resolution(s) && s.driving && s.responses != []
    ensures Resolution(Received(s))
  {
    var frame, t := s.responses[0], s.(responses := s.responses[1..]);
    assert Resolution(t);
    if frame.Response? && frame.id in s.pending {
      RemoveResolution(t, frame.id, Answer(frame.response, frame.about.call));
    }
  }

  lemma RequestResolution<M, R>(s: Link<M, R>, message: M)
    requires Resolution(s)
    ensures Resolution(Step(s, Request(message)))
  {
    var t := Step(s, Request(message));
    forall m | 0 <= m < |t.calls| ensures |t.calls[m].outcomes| == if Waiting(t, m) then 0 else 1 {
      assert m < |s.calls| ==> (m in s.queue <==> m in t.queue);
      assert s.driving && m == |s.calls| ==> t.queue[|s.queue|] == m;
    }
  }

  lemma StepResolution<M, R>(s: Link<M, R>, a: Action<M, R>)
    requires Resolution(s)
    ensures Resolution(Step(s, a))
  {
    match a
    case Request(message) => RequestResolution(s, message);
    case Dequeue(encodes, sent) =>
      if s.driving && s.queue != [] {
        DequeuedResolution(s, encodes, sent);
      }
    case ClientsDropped => StopResolution(s);
    case Incoming =>
      if s.driving && s.responses != [] {
        ReceivedResolution(s);
      }
    case ConnectionLost => StopResolution(s);
    case _ =>
      var t := Step(s, a);
      assert t.calls == s.calls && t.queue == s.queue && t.pending == s.pending && t.driving == s.driving;
  }

  lemma {:induction false} ExecResolution<M, R>(actions: seq<Action<M, R>>)
    ensures Resolution(Exec(actions))
    decreases |actions|
  {
    if actions != [] {
      ExecResolution(actions[..|actions| - 1]);
      StepResolution(Exec(actions[..|actions| - 1]), actions[|actions| - 1]);
    }
  }

  /** Every call is resolved at most once, and exactly once unless it still
      waits; when `drive` has returned, every call ever made has been resolved
      exactly once. */
  lemma ResolvedOnce<M, R>(actions: seq<Action<M, R>>, k: nat)
    requires k < |Exec(actions).calls|
    ensures var s := Exec(actions);
            && |s.calls[k].outcomes| <= 1
            && (s.calls[k].outcomes == [] <==> Waiting(s, k))
            && (!s.driving ==> |s.calls[k].outcomes| == 1)
  {
    ExecResolution(actions);
  }

  // ------------------------------------------------------------------
  // Conservation of ids, and answers to the right caller
  // ------------------------------------------------------------------

  ghost function Answers<M, R>(responses: seq<ServerFrame<M, R>>): seq<Frame<M>> {
    if responses == [] then []
    else (if responses[0].Response? then [responses[0].about] else []) + Answers(responses[1..])
  }

  ghost function InHand<M>(server: Server<M>): seq<Frame<M>> {
    if server.Handling? then [server.frame] else []
  }

  /** Every frame in flight, oldest first: answered and on its way back, lost,
      being handled, or still on its way. */
  ghost function InFlight<M, R>(s: Link<M, R>): seq<Frame<M>> {
    Answers(s.responses) + (s.lost + InHand(s.server) + s.requests)
  }

  ghost predicate Genuine<M, R>(f: Frame<M>, issued: nat, calls: seq<Call<M, R>>) {
    && 1 <= f.n <= issued && f.id == Nth(f.n)
    && f.call < |calls| && f.message == calls[f.call].message
  }

  /** Frames are genuine, and in the order of their allocations and calls. */
  ghost predicate Ordered<M, R>(frames: seq<Frame<M>>, issued: nat, calls: seq<Call<M, R>>) {
    && (forall i :: 0 <= i < |frames| ==> Genuine(frames[i], issued, calls))
    && (forall i, j :: 0 <= i < j < |frames| ==> frames[i].n < frames[j].n && frames[i].call < frames[j].call)
  }

  /** The queue is in the order of the calls, all later than those in flight. */
  ghost predicate Queued<M>(frames: seq<Frame<M>>, queue: seq<nat>) {
    && (forall i, j :: 0 <= i < j < |queue| ==> queue[i] < queue[j])
    && (forall i, j :: 0 <= i < |frames| && 0 <= j < |queue| ==> frames[i].call < queue[j])
  }

  ghost predicate Carries<M>(frames: seq<Frame<M>>, id: nat) {
    exists i :: 0 <= i < |frames| && frames[i].id == id
  }

  /** Frame `i` is the newest with its id, and `call` is its call. */
  ghost predicate NewestAt<M>(frames: seq<Frame<M>>, id: nat, call: nat, i: nat) {
    i < |frames| && frames[i].id == id && frames[i].call == call && forall j :: i < j < |frames| ==> frames[j].id != id
  }

  /** Every waiter is the caller of the newest frame in flight with its id. */
  ghost predicate Newest<M>(pending: map<nat, nat>, frames: seq<Frame<M>>) {
    forall id :: id in pending ==> HasNewest(frames, id, pending[id])
  }

  ghost predicate HasNewest<M>(frames: seq<Frame<M>>, id: nat, call: nat) {
    exists i: nat :: NewestAt(frames, id, call, i)
  }

  /** The server answers in order, one response with the request's id for each
      frame it read, but for the one in hand or lost. */
  ghost predicate ServerOk<M, R>(s: Link<M, R>) {
    && (forall i :: 0 <= i < |s.responses| && s.responses[i].Response? ==> s.responses[i].id == s.responses[i].about.id)
    && (!s.server.Ended? ==> s.lost == [])
    && |s.lost| <= 1
    && s.received == s.answered + Ids(s.lost) + Ids(InHand(s.server))
  }

  ghost function Ids<M>(frames: seq<Frame<M>>): seq<nat> {
    if frames == [] then [] else Ids(frames[..|frames| - 1]) + [frames[|frames| - 1].id]
  }

  /** What holds in every state, collisions or not. */
  ghost predicate Tracked<M, R>(s: Link<M, R>) {
    && Ordered(InFlight(s), s.issued, s.calls) && Queued(InFlight(s), s.queue)
    && s.nextId == Nth(s.issued + 1)
    && (s.driving ==> Newest(s.pending, InFlight(s)))
  }

  /** The pending map is exactly the frames in flight, no two with one id. */
  ghost predicate PendingIs<M>(pending: map<nat, nat>, frames: seq<Frame<M>>) {
    && (forall i :: 0 <= i < |frames| ==> frames[i].id in pending && pending[frames[i].id] == frames[i].call)
    && (forall id :: id in pending ==> Carries(frames, id))
    && (forall i, j :: 0 <= i < j < |frames| ==> frames[i].id != frames[j].id)
  }

  ghost predicate AnswersMatch<M, R>(calls: seq<Call<M, R>>) {
    forall k, i :: 0 <= k < |calls| && 0 <= i < |calls[k].outcomes| && calls[k].outcomes[i].Answer? ==>
      calls[k].outcomes[i].about == k
  }

  lemma NewestAppend<M>(pending: map<nat, nat>, frames: seq<Frame<M>>, f: Frame<M>)
    requires Newest(pending, frames)
    ensures Newest(pending[f.id := f.call], frames + [f])
  {
    var pending' := pending[f.id := f.call];
    forall id | id in pending' ensures HasNewest(frames + [f], id, pending'[id]) {
      if id == f.id {
        assert NewestAt(frames + [f], id, f.call, |frames|);
      } else {
        assert HasNewest(frames, id, pending[id]);
        var i: nat :| NewestAt(frames, id, pending[id], i);
        assert NewestAt(frames + [f], id, pending[id], i);
      }
    }
  }

  lemma NewestPop<M>(pending: map<nat, nat>, frames: seq<Frame<M>>)
    requires Newest(pending, frames) && frames != []
    ensures Newest(pending - {frames[0].id}, frames[1..])
  {
    var pending' := pending - {frames[0].id};
    forall id | id in pending' ensures HasNewest(frames[1..], id, pending'[id]) {
      assert HasNewest(frames, id, pending[id]);
      var i: nat :| NewestAt(frames, id, pending[id], i);
      assert NewestAt(frames[1..], id, pending[id], i - 1);
    }
  }

  lemma PendingAppend<M>(pending: map<nat, nat>, frames: seq<Frame<M>>, f: Frame<M>)
    requires PendingIs(pending, frames) && f.id !in pending
    ensures PendingIs(pending[f.id := f.call], frames + [f])
  {
    forall id | id in pending[f.id := f.call] ensures Carries(frames + [f], id) {
      if id == f.id {
        assert (frames + [f])[|frames|].id == id;
      } else {
        var i :| 0 <= i < |frames| && frames[i].id == id;
        assert (frames + [f])[i].id == id;
      }
    }
  }

  lemma PendingPop<M>(pending: map<nat, nat>, frames: seq<Frame<M>>)
    requires PendingIs(pending, frames) && frames != []
    ensures PendingIs(pending - {frames[0].id}, frames[1..])
  {
    forall id | id in pending - {frames[0].id} ensures Carries(frames[1..], id) {
      var i :| 0 <= i < |frames| && frames[i].id == id;
      assert frames[1..][i - 1].id == id;
    }
  }

  lemma OrderedKept<M, R>(frames: seq<Frame<M>>, issued: nat, calls: seq<Call<M, R>>, issued': nat, calls': seq<Call<M, R>>)
    requires Ordered(frames, issued, calls) && issued <= issued' && |calls| <= |calls'|
    requires forall k :: 0 <= k < |calls| ==> calls'[k].message == calls[k].message
    ensures Ordered(frames, issued', calls')
  {
  }

  lemma OrderedTail<M, R>(frames: seq<Frame<M>>, issued: nat, calls: seq<Call<M, R>>)
    requires Ordered(frames, issued, calls) && frames != []
    ensures Ordered(frames[1..], issued, calls)
  {
  }

  lemma {:induction false} AnswersAppend<M, R>(responses: seq<ServerFrame<M, R>>, f: ServerFrame<M, R>)
    ensures Answers(responses + [f]) == Answers(responses) + if f.Response? then [f.about] else []
  {
    if responses != [] {
      assert (responses + [f])[1..] == responses[1..] + [f];
      AnswersAppend(responses[1..], f);
    }
  }

  // The server moves frames along.

  lemma ServerKeep<M, R>(s: Link<M, R>, t: Link<M, R>)
    requires ServerOk(s) && t.server == s.server && t.lost == s.lost && t.received == s.received && t.answered == s.answered
    requires t.responses == s.responses || (s.responses != [] && t.responses == s.responses[1..])
             || (|t.responses| == |s.responses| + 1 && t.responses[..|s.responses|] == s.responses
                 && t.responses[|s.responses|].RunEvent?)
    ensures ServerOk(t)
  {
  }

  lemma ServerReads<M, R>(s: Link<M, R>, ends: bool)
    requires ServerOk(s)
    ensures ServerOk(Step(s, ServerReceive(ends)))
  {
    if s.requests != [] {
      assert Ids([s.requests[0]]) == [s.requests[0].id];
    }
  }

  lemma ServerLoses<M, R>(s: Link<M, R>, response: R)
    requires ServerOk(s) && s.server.Handling?
    ensures ServerOk(Step(s, ServerRespond(response, false)))
  {
    var f := s.server.frame;
    assert s.lost + [f] == [f] && Ids([f]) == [f.id] && s.received == s.answered + [f.id];
  }

  lemma ServerWrites<M, R>(s: Link<M, R>, response: R)
    requires ServerOk(s) && s.server.Handling?
    ensures ServerOk(Step(s, ServerRespond(response, true)))
  {
    var f := s.server.frame;
    assert Ids([f]) == [f.id] && s.received == s.answered + [f.id];
  }

  lemma ServerAnswers<M, R>(s: Link<M, R>, response: R, written: bool)
    requires ServerOk(s)
    ensures ServerOk(Step(s, ServerRespond(response, written)))
  {
    if s.server.Handling? {
      if written {
        ServerWrites(s, response);
      } else {
        ServerLoses(s, response);
      }
    }
  }

  lemma ServerStep<M, R>(s: Link<M, R>, a: Action<M, R>)
    requires ServerOk(s)
    ensures ServerOk(Step(s, a))
  {
    match a
    case ServerReceive(ends) => ServerReads(s, ends);
    case ServerRespond(response, written) => ServerAnswers(s, response, written);
    case ServerEnd =>
    case _ => ServerKeep(s, Step(s, a));
  }

  lemma {:induction false} ExecServerOk<M, R>(actions: seq<Action<M, R>>)
    ensures ServerOk(Exec(actions))
    decreases |actions|
  {
    if actions != [] {
      ExecServerOk(actions[..|actions| - 1]);
      ServerStep(Exec(actions[..|actions| - 1]), actions[|actions| - 1]);
    }
  }

  lemma RespondMoves<M, R>(s: Link<M, R>, response: R, written: bool)
    requires ServerOk(s) && s.server.Handling?
    ensures InFlight(Step(s, ServerRespond(response, written))) == InFlight(s)
  {
    var t, f := Step(s, ServerRespond(response, written)), s.server.frame;
    if written {
      AnswersAppend(s.responses, Response(f.id, response, f));
      assert Answers(t.responses) == Answers(s.responses) + [f];
      assert t.lost + InHand(t.server) + t.requests == s.requests;
      assert s.lost + InHand(s.server) + s.requests == [f] + s.requests;
    } else {
      assert t.lost + InHand(t.server) + t.requests == s.lost + InHand(s.server) + s.requests;
    }
  }

  predicate ServerMove<M, R>(a: Action<M, R>) {
    a.ServerReceive? || a.ServerRespond? || a.ServerEvent? || a.ServerEnd?
  }

  lemma ReadMoves<M, R>(s: Link<M, R>, ends: bool)
    requires ServerOk(s) && s.server.Reading? && s.requests != []
    ensures InFlight(Step(s, ServerReceive(ends))) == InFlight(s)
  {
    var t := Step(s, ServerReceive(ends));
    assert t.lost + InHand(t.server) + t.requests == s.lost + InHand(s.server) + s.requests;
  }

  lemma ClientUntouched<M, R>(s: Link<M, R>, a: Action<M, R>)
    requires ServerMove(a)
    ensures var t := Step(s, a);
            && t.calls == s.calls && t.queue == s.queue && t.issued == s.issued && t.nextId == s.nextId
            && t.pending == s.pending && t.driving == s.driving
  {
  }

  /** It neither makes nor drops any, and leaves the client alone. */
  lemma ServerMoves<M, R>(s: Link<M, R>, a: Action<M, R>)
    requires ServerOk(s) && ServerMove(a)
    ensures var t := Step(s, a);
            && InFlight(t) == InFlight(s)
            && t.calls == s.calls && t.queue == s.queue && t.issued == s.issued && t.nextId == s.nextId
            && t.pending == s.pending && t.driving == s.driving
  {
    ClientUntouched(s, a);
    match a
    case ServerReceive(ends) =>
      if s.server.Reading? && s.requests != [] {
        ReadMoves(s, ends);
      }
    case ServerRespond(response, written) =>
      if s.server.Handling? {
        RespondMoves(s, response, written);
      }
    case ServerEvent(event) => EventMoves(s, event);
    case ServerEnd => EndMoves(s);
  }

  lemma EventMoves<M, R>(s: Link<M, R>, event: R)
    ensures InFlight(Step(s, ServerEvent(event))) == InFlight(s)
  {
    AnswersAppend(s.responses, RunEvent(event));
    assert Answers(s.responses) + [] == Answers(s.responses);
  }

  lemma EndMoves<M, R>(s: Link<M, R>)
    ensures InFlight(Step(s, ServerEnd)) == InFlight(s)
  {
  }

  lemma InFlightNext<M, R>(s: Link<M, R>)
    requires s.responses != []
    ensures InFlight(s) == (if s.responses[0].Response? then [s.responses[0].about] else [])
                         + InFlight(s.(responses := s.responses[1..]))
  {
  }

  /** Receiving takes the oldest frame out of flight, if it answers one. */
  lemma ReceivedMoves<M, R>(s: Link<M, R>)
    requires ServerOk(s) && s.responses != []
    ensures var t := Received(s);
            if s.responses[0].Response? then
              && InFlight(s) != [] && InFlight(s)[0] == s.responses[0].about && InFlight(s)[0].id == s.responses[0].id
              && InFlight(t) == InFlight(s)[1..] && t.pending == s.pending - {InFlight(s)[0].id}
            else InFlight(t) == InFlight(s) && t == s.(responses := s.responses[1..], forwarded := t.forwarded)
    ensures var t := Received(s); t.queue == s.queue && t.issued == s.issued && t.nextId == s.nextId && t.driving == s.driving
    ensures var t := Received(s); |t.calls| == |s.calls| && forall k :: 0 <= k < |s.calls| ==> t.calls[k].message == s.calls[k].message
  {
    InFlightNext(s);
    var t, rest := Received(s), s.(responses := s.responses[1..]);
    assert InFlight(t) == InFlight(rest);
    if s.responses[0].Response? {
      assert InFlight(s)[1..] == InFlight(rest);
    } else {
      assert [] + InFlight(rest) == InFlight(rest);
    }
  }

  // What is kept without any hypothesis.

  lemma TrackedKept<M, R>(s: Link<M, R>, t: Link<M, R>)
    requires Tracked(s) && InFlight(t) == InFlight(s) && s.issued <= t.issued && t.nextId == Nth(t.issued + 1)
    requires |s.calls| <= |t.calls| && forall k :: 0 <= k < |s.calls| ==> t.calls[k].message == s.calls[k].message
    requires Queued(InFlight(s), t.queue) && (t.driving ==> s.driving && t.pending == s.pending)
    ensures Tracked(t)
  {
    OrderedKept(InFlight(s), s.issued, s.calls, t.issued, t.calls);
  }

  lemma OrderedMore<M, R>(frames: seq<Frame<M>>, issued: nat, calls: seq<Call<M, R>>, queue: seq<nat>, f: Frame<M>)
    requires Ordered(frames, issued, calls) && queue != [] && Queued(frames, queue)
    requires f.n == issued + 1 && f.call == queue[0] && Genuine(f, issued + 1, calls)
    ensures Ordered(frames + [f], issued + 1, calls) && Queued(frames + [f], queue[1..])
  {
  }

  lemma SentFlight<M, R>(s: Link<M, R>, f: Frame<M>)
    ensures InFlight(s.(requests := s.requests + [f])) == InFlight(s) + [f]
  {
  }

  /** A frame goes out. */
  lemma SendTracked<M, R>(s: Link<M, R>)
    requires Resolution(s) && Tracked(s) && s.driving && s.queue != []
    ensures var t := Dequeued(s, true, true);
            var f := Frame(s.nextId, s.calls[s.queue[0]].message, s.queue[0], s.issued + 1);
            Tracked(t) && InFlight(t) == InFlight(s) + [f] && t.pending == s.pending[f.id := f.call]
  {
    var t := Dequeued(s, true, true);
    var frames := InFlight(s);
    var f := Frame(s.nextId, s.calls[s.queue[0]].message, s.queue[0], s.issued + 1);
    SentFlight(s, f);
    assert InFlight(t) == InFlight(s.(requests := s.requests + [f]));
    OrderedMore(frames, s.issued, s.calls, s.queue, f);
    OrderedKept(frames + [f], t.issued, s.calls, t.issued, t.calls);
    NewestAppend(s.pending, frames, f);
  }

  lemma FailTracked<M, R>(s: Link<M, R>, encodes: bool, sent: bool)
    requires Tracked(s) && s.driving && s.queue != [] && !(encodes && sent)
    ensures Tracked(Dequeued(s, encodes, sent)) && InFlight(Dequeued(s, encodes, sent)) == InFlight(s)
  {
    TrackedKept(s, Dequeued(s, encodes, sent));
  }

  /** The oldest frame is out of flight and its id is free. */
  lemma PoppedTracked<M, R>(s: Link<M, R>, t: Link<M, R>)
    requires Tracked(s) && s.driving && InFlight(s) != [] && InFlight(t) == InFlight(s)[1..]
    requires t.pending == s.pending - {InFlight(s)[0].id}
    requires t.queue == s.queue && t.issued == s.issued && t.nextId == s.nextId
    requires |t.calls| == |s.calls| && forall k :: 0 <= k < |s.calls| ==> t.calls[k].message == s.calls[k].message
    ensures Tracked(t)
  {
    OrderedTail(InFlight(s), s.issued, s.calls);
    OrderedKept(InFlight(s)[1..], s.issued, s.calls, s.issued, t.calls);
    NewestPop(s.pending, InFlight(s));
  }

  lemma ResponseTracked<M, R>(s: Link<M, R>)
    requires ServerOk(s) && Tracked(s) && s.driving && s.responses != [] && s.responses[0].Response?
    ensures Tracked(Received(s))
  {
    ReceivedMoves(s);
    PoppedTracked(s, Received(s));
  }

  lemma EventTracked<M, R>(s: Link<M, R>)
    requires ServerOk(s) && Tracked(s) && s.driving && s.responses != [] && s.responses[0].RunEvent?
    ensures Tracked(Received(s))
  {
    ReceivedMoves(s);
    TrackedKept(s, Received(s));
  }

  lemma ReceiveTracked<M, R>(s: Link<M, R>)
    requires ServerOk(s) && Tracked(s) && s.driving && s.responses != []
    ensures Tracked(Received(s))
  {
    if s.responses[0].Response? {
      ResponseTracked(s);
    } else {
      EventTracked(s);
    }
  }

  lemma DequeueTracked<M, R>(s: Link<M, R>, encodes: bool, sent: bool)
    requires Resolution(s) && Tracked(s)
    ensures Tracked(Step(s, Dequeue(encodes, sent)))
  {
    if s.driving && s.queue != [] {
      if encodes && sent {
        SendTracked(s);
      } else {
        FailTracked(s, encodes, sent);
      }
    }
  }

  lemma StopTracked<M, R>(s: Link<M, R>)
    requires Tracked(s)
    ensures Tracked(Stop(s))
  {
    TrackedKept(s, Stop(s));
  }

  lemma ServerTracked<M, R>(s: Link<M, R>, a: Action<M, R>)
    requires ServerOk(s) && Tracked(s) && ServerMove(a)
    ensures Tracked(Step(s, a))
  {
    ServerMoves(s, a);
    TrackedKept(s, Step(s, a));
  }

  lemma StepTracked<M, R>(s: Link<M, R>, a: Action<M, R>)
    requires Resolution(s) && ServerOk(s) && Tracked(s)
    ensures Tracked(Step(s, a))
  {
    match a
    case Request(message) => RequestTracked(s, message);
    case Dequeue(encodes, sent) => DequeueTracked(s, encodes, sent);
    case ClientsDropped => StopTracked(s);
    case Incoming =>
      if s.driving && s.responses != [] {
        ReceiveTracked(s);
      }
    case ConnectionLost => StopTracked(s);
    case _ => ServerTracked(s, a);
  }

  lemma RequestTracked<M, R>(s: Link<M, R>, message: M)
    requires Resolution(s) && Tracked(s)
    ensures Tracked(Step(s, Request(message)))
  {
    var t := Step(s, Request(message));
    assert InFlight(t) == InFlight(s);
    assert forall i :: 0 <= i < |InFlight(s)| ==> Genuine(InFlight(s)[i], s.issued, s.calls);
    TrackedKept(s, t);
  }

  lemma {:induction false} ExecTracked<M, R>(actions: seq<Action<M, R>>)
    ensures Tracked(Exec(actions)) && Resolution(Exec(actions)) && ServerOk(Exec(actions))
    decreases |actions|
  {
    ExecResolution(actions);
    ExecServerOk(actions);
    if actions != [] {
      var before := actions[..|actions| - 1];
      ExecTracked(before);
      StepTracked(Exec(before), actions[|actions| - 1]);
    }
  }

  // ------------------------------------------------------------------
  // Collisions
  // ------------------------------------------------------------------

  /** The next request sent would go out under an id somebody still waits on. */
  ghost predicate Collides<M, R>(s: Link<M, R>) {
    s.driving && s.queue != [] && s.nextId in s.pending
  }

  /** Some request did. */
  ghost predicate EverCollides<M, R>(actions: seq<Action<M, R>>) {
    actions != [] &&
      (EverCollides(actions[..|actions| - 1])
       || (actions[|actions| - 1] == Dequeue(true, true) && Collides(Exec(actions[..|actions| - 1]))))
  }

  lemma SameIdLater(n: nat, m: nat)
    requires 1 <= n < m && Nth(n) == Nth(m)
    ensures m - n >= MAX_ID && (m - n) % MAX_ID == 0
  {
    SameIdIff(n, m);
    if m - n < MAX_ID {
      IdsDistinct(n, m);
    }
  }

  /** The frame's id was allocated a positive multiple of 2^64 - 1 allocations
      before the next one. */
  ghost predicate WholeRoundsAgo<M>(f: Frame<M>, issued: nat) {
    f.n <= issued && issued + 1 - f.n >= MAX_ID && (issued + 1 - f.n) % MAX_ID == 0
  }

  lemma PendingWraps<M, R>(s: Link<M, R>) returns (i: nat)
    requires Tracked(s) && s.driving && s.nextId in s.pending
    ensures i < |InFlight(s)| && InFlight(s)[i].id == s.nextId && InFlight(s)[i].call == s.pending[s.nextId]
    ensures WholeRoundsAgo(InFlight(s)[i], s.issued)
  {
    assert HasNewest(InFlight(s), s.nextId, s.pending[s.nextId]);
    i :| NewestAt(InFlight(s), s.nextId, s.pending[s.nextId], i);
    assert Genuine(InFlight(s)[i], s.issued, s.calls);
    SameIdLater(InFlight(s)[i].n, s.issued + 1);
  }

  /** The next id is pending only if it was allocated a positive multiple of
      2^64 - 1 allocations ago, and that request is still in flight. No hypothesis
      is needed. */
  lemma ReuseMeansWrap<M, R>(actions: seq<Action<M, R>>) returns (i: nat)
    requires Exec(actions).driving && Exec(actions).nextId in Exec(actions).pending
    ensures var s := Exec(actions);
            && i < |InFlight(s)| && InFlight(s)[i].id == s.nextId && InFlight(s)[i].call == s.pending[s.nextId]
            && WholeRoundsAgo(InFlight(s)[i], s.issued)
  {
    ExecTracked(actions);
    i := PendingWraps(Exec(actions));
  }

  /** No frame has been in flight for 2^64 - 1 allocations. */
  ghost predicate Young<M>(frames: seq<Frame<M>>, issued: nat) {
    forall i :: 0 <= i < |frames| ==> issued + 1 < frames[i].n + MAX_ID
  }

  ghost predicate AlwaysYoung<M(!new), R(!new)>(actions: seq<Action<M, R>>) {
    forall k :: 0 <= k <= |actions| ==> Young(InFlight(Exec(actions[..k])), Exec(actions[..k]).issued)
  }

  /** There is no collision unless a request stays in flight across 2^64 - 1 id
      allocations. */
  lemma {:induction false} YoungNeverCollides<M(!new), R(!new)>(actions: seq<Action<M, R>>)
    requires AlwaysYoung(actions)
    ensures !EverCollides(actions)
    decreases |actions|
  {
    if actions != [] {
      var before := actions[..|actions| - 1];
      assert forall k :: 0 <= k <= |before| ==> before[..k] == actions[..k];
      YoungNeverCollides(before);
      assert Young(InFlight(Exec(before)), Exec(before).issued);
      if Collides(Exec(before)) {
        var _ := ReuseMeansWrap(before);
      }
    }
  }

  lemma IssuedStep<M, R>(s: Link<M, R>, a: Action<M, R>)
    ensures s.issued <= Step(s, a).issued
  {
  }

  lemma EarlyYoung<M, R>(s: Link<M, R>)
    requires Tracked(s) && s.issued < MAX_ID
    ensures Young(InFlight(s), s.issued)
  {
    assert Ordered(InFlight(s), s.issued, s.calls);
  }

  lemma {:induction false} IssuedGrows<M, R>(actions: seq<Action<M, R>>, k: nat)
    requires k <= |actions|
    ensures Exec(actions[..k]).issued <= Exec(actions).issued
    decreases |actions|
  {
    if k == |actions| {
      assert actions[..k] == actions;
    } else {
      var before := actions[..|actions| - 1];
      assert actions[..k] == before[..k];
      IssuedGrows(before, k);
      IssuedStep(Exec(before), actions[|actions| - 1]);
    }
  }

  /** The requests in flight are all young until 2^64 - 1 ids have been allocated;
      so until then there is no collision. */
  lemma YoungWhileIdsLast<M(!new), R(!new)>(actions: seq<Action<M, R>>)
    requires Exec(actions).issued < MAX_ID
    ensures AlwaysYoung(actions) && !EverCollides(actions)
  {
    forall k | 0 <= k <= |actions| ensures Young(InFlight(Exec(actions[..k])), Exec(actions[..k]).issued) {
      IssuedGrows(actions, k);
      ExecTracked(actions[..k]);
      EarlyYoung(Exec(actions[..k]));
    }
    YoungNeverCollides(actions);
  }

  ghost predicate SomeoneGone<M, R>(calls: seq<Call<M, R>>) {
    exists k :: 0 <= k < |calls| && Gone in calls[k].outcomes
  }

  ghost predicate SameOutcomes<M, R>(calls: seq<Call<M, R>>, calls': seq<Call<M, R>>) {
    && |calls| <= |calls'|
    && (forall k :: 0 <= k < |calls| ==> calls'[k].outcomes == calls[k].outcomes)
    && (forall k :: |calls| <= k < |calls'| ==> calls'[k].outcomes == [])
  }

  lemma SameGone<M, R>(calls: seq<Call<M, R>>, calls': seq<Call<M, R>>)
    requires SameOutcomes(calls, calls')
    ensures SomeoneGone(calls') <==> SomeoneGone(calls)
    ensures AnswersMatch(calls') <==> AnswersMatch(calls)
  {
    if SomeoneGone(calls) {
      var k :| 0 <= k < |calls| && Gone in calls[k].outcomes;
      assert Gone in calls'[k].outcomes;
    }
    if SomeoneGone(calls') {
      var k :| 0 <= k < |calls'| && Gone in calls'[k].outcomes;
      assert k < |calls| && Gone in calls[k].outcomes;
    }
    if AnswersMatch(calls') {
      forall k, i | 0 <= k < |calls| && 0 <= i < |calls[k].outcomes| && calls[k].outcomes[i].Answer?
        ensures calls[k].outcomes[i].about == k
      {
        assert calls'[k].outcomes[i].about == k;
      }
    }
  }

  lemma ResolveGone<M, R>(calls: seq<Call<M, R>>, k: nat, o: Outcome<R>)
    requires k < |calls| && calls[k].outcomes == []
    ensures SomeoneGone(Resolve(calls, k, o)) <==> SomeoneGone(calls) || o.Gone?
    ensures AnswersMatch(Resolve(calls, k, o)) <==> AnswersMatch(calls) && (o.Answer? ==> o.about == k)
  {
    var calls' := Resolve(calls, k, o);
    assert calls'[k].outcomes == [o];
    assert forall m :: 0 <= m < |calls| && m != k ==> calls'[m] == calls[m];
    if SomeoneGone(calls) {
      var m :| 0 <= m < |calls| && Gone in calls[m].outcomes;
      assert Gone in calls'[m].outcomes;
    }
    if o.Gone? {
      assert Gone in calls'[k].outcomes;
    }
    if AnswersMatch(calls') {
      assert o.Answer? ==> calls'[k].outcomes[0].about == k;
      forall m, i | 0 <= m < |calls| && 0 <= i < |calls[m].outcomes| && calls[m].outcomes[i].Answer?
        ensures calls[m].outcomes[i].about == m
      {
        assert calls'[m].outcomes[i].about == m;
      }
    }
  }

  lemma PendingWaits<M, R>(s: Link<M, R>, id: nat)
    requires Resolution(s) && id in s.pending
    ensures s.pending[id] < |s.calls| && s.calls[s.pending[id]].outcomes == []
  {
    assert s.pending[id] in s.pending.Values;
    assert Waiting(s, s.pending[id]);
  }

  lemma QueuedWaits<M, R>(s: Link<M, R>)
    requires Resolution(s) && s.queue != []
    ensures s.queue[0] < |s.calls| && s.calls[s.queue[0]].outcomes == []
  {
    assert s.queue[0] in s.queue;
    assert Waiting(s, s.queue[0]);
  }

  lemma DequeueGone<M, R>(s: Link<M, R>, encodes: bool, sent: bool)
    requires Resolution(s) && s.driving && s.queue != [] && Dequeued(s, encodes, sent).driving
    ensures SomeoneGone(Dequeued(s, encodes, sent).calls)
       <==> SomeoneGone(s.calls) || (encodes && sent && s.nextId in s.pending)
  {
    QueuedWaits(s);
    if !encodes {
      ResolveGone(s.calls, s.queue[0], ProtocolError);
    } else if s.nextId in s.pending {
      PendingWaits(s, s.nextId);
      ResolveGone(s.calls, s.pending[s.nextId], Gone);
    }
  }

  lemma StepGone<M, R>(s: Link<M, R>, a: Action<M, R>)
    requires Resolution(s) && ServerOk(s) && Step(s, a).driving
    ensures s.driving
    ensures SomeoneGone(Step(s, a).calls) <==> SomeoneGone(s.calls) || (a == Dequeue(true, true) && Collides(s))
  {
    match a
    case Request(_) => SameGone(s.calls, Step(s, a).calls);
    case Dequeue(encodes, sent) =>
      if s.driving && s.queue != [] {
        DequeueGone(s, encodes, sent);
      }
    case ClientsDropped =>
    case Incoming =>
      if s.driving && s.responses != [] && s.responses[0].Response? && s.responses[0].id in s.pending {
        PendingWaits(s, s.responses[0].id);
        ResolveGone(s.calls, s.pending[s.responses[0].id], Answer(s.responses[0].response, s.responses[0].about.call));
      }
    case ConnectionLost =>
    case _ => ServerMoves(s, a);
  }

  /** While `drive` runs a caller has been told that the client is gone if and only
      if a request went out under an id still pending. */
  lemma {:induction false} GoneExactlyOnCollision<M, R>(actions: seq<Action<M, R>>)
    requires Exec(actions).driving
    ensures SomeoneGone(Exec(actions).calls) <==> EverCollides(actions)
    decreases |actions|
  {
    if actions != [] {
      var before := actions[..|actions| - 1];
      ExecTracked(before);
      StepGone(Exec(before), actions[|actions| - 1]);
      GoneExactlyOnCollision(before);
    }
  }

  // ------------------------------------------------------------------
  // The right caller
  // ------------------------------------------------------------------

  /** The response that comes next would go to the caller of a newer request that
      was sent under the same id and is in flight too. */
  ghost predicate Misanswers<M, R>(s: Link<M, R>) {
    && s.driving && s.responses != [] && s.responses[0].Response? && s.responses[0].id in s.pending
    && exists i :: 0 < i < |InFlight(s)| && InFlight(s)[i].id == s.responses[0].id
  }

  /** Some response did. */
  ghost predicate EverMisanswers<M, R>(actions: seq<Action<M, R>>) {
    actions != [] &&
      (EverMisanswers(actions[..|actions| - 1])
       || (actions[|actions| - 1].Incoming? && Misanswers(Exec(actions[..|actions| - 1]))))
  }

  /** Which waiter the next response resolves: its own caller, exactly if no newer
      frame in flight carries the id. */
  lemma WaiterOf<M, R>(s: Link<M, R>)
    requires ServerOk(s) && Tracked(s) && s.driving && s.responses != [] && s.responses[0].Response?
    requires s.responses[0].id in s.pending
    ensures s.pending[s.responses[0].id] == s.responses[0].about.call <==> !Misanswers(s)
  {
    ReceivedMoves(s);
    var frames, id := InFlight(s), s.responses[0].id;
    assert HasNewest(frames, id, s.pending[id]);
    var n: nat :| NewestAt(frames, id, s.pending[id], n);
    if n > 0 {
      assert frames[n].id == id && frames[0].call < frames[n].call;
    }
  }

  lemma DequeueAnswers<M, R>(s: Link<M, R>, encodes: bool, sent: bool)
    requires Resolution(s) && s.driving && s.queue != []
    ensures AnswersMatch(Dequeued(s, encodes, sent).calls) <==> AnswersMatch(s.calls)
  {
    QueuedWaits(s);
    if !encodes {
      ResolveGone(s.calls, s.queue[0], ProtocolError);
    } else if !sent {
      ResolveGone(s.calls, s.queue[0], TransportError);
      StopAnswers(s.(queue := s.queue[1..], nextId := NextId(s.nextId), issued := s.issued + 1,
                     calls := Resolve(s.calls, s.queue[0], TransportError)));
    } else if s.nextId in s.pending {
      PendingWaits(s, s.nextId);
      ResolveGone(s.calls, s.pending[s.nextId], Gone);
    }
  }

  lemma StopAnswers<M, R>(s: Link<M, R>)
    ensures AnswersMatch(Stop(s).calls) <==> AnswersMatch(s.calls)
  {
    var t := Stop(s);
    forall k | 0 <= k < |s.calls|
      ensures t.calls[k].outcomes == s.calls[k].outcomes || t.calls[k].outcomes == s.calls[k].outcomes + [TransportError]
              || t.calls[k].outcomes == s.calls[k].outcomes + [Gone]
    {
    }
    if AnswersMatch(t.calls) {
      forall k, i | 0 <= k < |s.calls| && 0 <= i < |s.calls[k].outcomes| && s.calls[k].outcomes[i].Answer?
        ensures s.calls[k].outcomes[i].about == k
      {
        assert t.calls[k].outcomes[i] == s.calls[k].outcomes[i];
      }
    }
  }

  lemma RequestAnswers<M, R>(s: Link<M, R>, message: M)
    ensures AnswersMatch(Step(s, Request(message)).calls) <==> AnswersMatch(s.calls)
  {
    var t := Step(s, Request(message));
    assert forall k :: 0 <= k < |s.calls| ==> t.calls[k] == s.calls[k];
    if AnswersMatch(t.calls) {
      forall k, i | 0 <= k < |s.calls| && 0 <= i < |s.calls[k].outcomes| && s.calls[k].outcomes[i].Answer?
        ensures s.calls[k].outcomes[i].about == k
      {
        assert t.calls[k].outcomes[i].about == k;
      }
    }
  }

  lemma IncomingAnswers<M, R>(s: Link<M, R>)
    requires Resolution(s) && ServerOk(s) && Tracked(s)
    ensures AnswersMatch(Step(s, Incoming).calls) <==> AnswersMatch(s.calls) && !Misanswers(s)
  {
    if s.driving && s.responses != [] && s.responses[0].Response? && s.responses[0].id in s.pending {
      PendingWaits(s, s.responses[0].id);
      ResolveGone(s.calls, s.pending[s.responses[0].id], Answer(s.responses[0].response, s.responses[0].about.call));
      WaiterOf(s);
    }
  }

  lemma StepAnswers<M, R>(s: Link<M, R>, a: Action<M, R>)
    requires Resolution(s) && ServerOk(s) && Tracked(s)
    ensures AnswersMatch(Step(s, a).calls) <==> AnswersMatch(s.calls) && !(a.Incoming? && Misanswers(s))
  {
    match a
    case Request(message) => RequestAnswers(s, message);
    case Dequeue(encodes, sent) =>
      if s.driving && s.queue != [] {
        DequeueAnswers(s, encodes, sent);
      }
    case ClientsDropped => StopAnswers(s);
    case Incoming => IncomingAnswers(s);
    case ConnectionLost => StopAnswers(s);
    case _ => ServerMoves(s, a);
  }

  lemma {:induction false} MatchExactly<M, R>(actions: seq<Action<M, R>>)
    ensures AnswersMatch(Exec(actions).calls) <==> !EverMisanswers(actions)
    decreases |actions|
  {
    if actions != [] {
      var before := actions[..|actions| - 1];
      ExecTracked(before);
      StepAnswers(Exec(before), actions[|actions| - 1]);
      MatchExactly(before);
    }
  }

  // ------------------------------------------------------------------
  // With no collision
  // ------------------------------------------------------------------

  lemma DequeuePending<M, R>(s: Link<M, R>, encodes: bool, sent: bool)
    requires Resolution(s) && Tracked(s) && s.driving && s.queue != [] && PendingIs(s.pending, InFlight(s))
    requires encodes && sent ==> s.nextId !in s.pending
    ensures var t := Dequeued(s, encodes, sent); t.driving ==> PendingIs(t.pending, InFlight(t))
  {
    if encodes && sent {
      SendTracked(s);
      PendingAppend(s.pending, InFlight(s), Frame(s.nextId, s.calls[s.queue[0]].message, s.queue[0], s.issued + 1));
    } else {
      FailTracked(s, encodes, sent);
    }
  }

  lemma ReceivePending<M, R>(s: Link<M, R>)
    requires ServerOk(s) && s.responses != [] && PendingIs(s.pending, InFlight(s))
    ensures PendingIs(Received(s).pending, InFlight(Received(s)))
  {
    ReceivedMoves(s);
    if s.responses[0].Response? {
      PendingPop(s.pending, InFlight(s));
    }
  }

  lemma StepPending<M, R>(s: Link<M, R>, a: Action<M, R>)
    requires Resolution(s) && ServerOk(s) && Tracked(s)
    requires s.driving ==> PendingIs(s.pending, InFlight(s))
    requires !(a == Dequeue(true, true) && Collides(s))
    ensures Step(s, a).driving ==> PendingIs(Step(s, a).pending, InFlight(Step(s, a)))
  {
    match a
    case Request(_) => assert InFlight(Step(s, a)) == InFlight(s);
    case Dequeue(encodes, sent) =>
      if s.driving && s.queue != [] {
        DequeuePending(s, encodes, sent);
      }
    case ClientsDropped =>
    case Incoming =>
      if s.driving && s.responses != [] {
        ReceivePending(s);
      }
    case ConnectionLost =>
    case _ => ServerMoves(s, a);
  }

  lemma {:induction false} ExecPending<M, R>(actions: seq<Action<M, R>>)
    requires !EverCollides(actions)
    ensures Exec(actions).driving ==> PendingIs(Exec(actions).pending, InFlight(Exec(actions)))
    ensures !EverMisanswers(actions)
    decreases |actions|
  {
    if actions != [] {
      var before := actions[..|actions| - 1];
      ExecPending(before);
      ExecTracked(before);
      StepPending(Exec(before), actions[|actions| - 1]);
      PendingAnswers(Exec(before));
    }
  }

  lemma PendingAnswers<M, R>(s: Link<M, R>)
    requires ServerOk(s) && (s.driving ==> PendingIs(s.pending, InFlight(s)))
    ensures !Misanswers(s)
  {
    if s.driving && s.responses != [] && s.responses[0].Response? {
      ReceivedMoves(s);
    }
  }

  // What the server handed over, by value.

  datatype Reply<R> = Reply(call: nat, response: R)

  /** Every response the server was given to send, in order, with the call whose frame
      it was handling. */
  ghost function Given<M, R>(actions: seq<Action<M, R>>): seq<Reply<R>> {
    if actions == [] then []
    else
      var before, a := actions[..|actions| - 1], actions[|actions| - 1];
      Given(before) + if a.ServerRespond? && a.written && Exec(before).server.Handling? then
                        [Reply(Exec(before).server.frame.call, a.response)]
                      else []
  }

  /** The replies on the wire. */
  ghost function Replies<M, R>(responses: seq<ServerFrame<M, R>>): seq<Reply<R>> {
    if responses == [] then []
    else (if responses[0].Response? then [Reply(responses[0].about.call, responses[0].response)] else []) + Replies(responses[1..])
  }

  ghost predicate Suffix<T>(part: seq<T>, whole: seq<T>) {
    |part| <= |whole| && whole[|whole| - |part|..] == part
  }

  /** The given replies are in the order of their calls, before all calls still with
      the server, on their way to it, or queued. */
  ghost predicate GivenFirst<M, R>(given: seq<Reply<R>>, s: Link<M, R>) {
    && (forall i, j :: 0 <= i < j < |given| ==> given[i].call < given[j].call)
    && (forall i, j :: 0 <= i < |given| && 0 <= j < |InHand(s.server) + s.requests| ==>
          given[i].call < (InHand(s.server) + s.requests)[j].call)
    && (forall i, j :: 0 <= i < |given| && 0 <= j < |s.queue| ==> given[i].call < s.queue[j])
    && (forall i :: 0 <= i < |given| ==> given[i].call < |s.calls|)
  }

  ghost predicate AnswersGiven<M, R>(given: seq<Reply<R>>, calls: seq<Call<M, R>>) {
    forall k, i :: 0 <= k < |calls| && 0 <= i < |calls[k].outcomes| && calls[k].outcomes[i].Answer? ==>
      Reply(calls[k].outcomes[i].about, calls[k].outcomes[i].response) in given
  }

  ghost predicate Handed<M, R>(given: seq<Reply<R>>, s: Link<M, R>) {
    Suffix(Replies(s.responses), given) && GivenFirst(given, s) && AnswersGiven(given, s.calls)
  }

  lemma {:induction false} RepliesAppend<M, R>(responses: seq<ServerFrame<M, R>>, f: ServerFrame<M, R>)
    ensures Replies(responses + [f]) == Replies(responses) + if f.Response? then [Reply(f.about.call, f.response)] else []
  {
    if responses != [] {
      assert (responses + [f])[1..] == responses[1..] + [f];
      RepliesAppend(responses[1..], f);
    }
  }

  lemma SuffixAppend<T>(part: seq<T>, whole: seq<T>, more: seq<T>)
    requires Suffix(part, whole)
    ensures Suffix(part + more, whole + more)
  {
  }

  lemma SuffixTail<T>(first: seq<T>, part: seq<T>, whole: seq<T>)
    requires Suffix(first + part, whole)
    ensures Suffix(part, whole)
    ensures first != [] ==> first[0] in whole
  {
    var n := |whole| - |first + part|;
    assert whole[n..][|first|..] == part;
    if first != [] {
      assert whole[n] == (first + part)[0];
    }
  }

  /** A step that neither answers nor resolves with an answer. */
  lemma HandedKept<M, R>(given: seq<Reply<R>>, s: Link<M, R>, t: Link<M, R>)
    requires Handed(given, s) && Replies(t.responses) == Replies(s.responses)
    requires |s.calls| <= |t.calls|
    requires forall j :: 0 <= j < |t.queue| ==> t.queue[j] in s.queue || t.queue[j] >= |s.calls|
    requires forall j :: 0 <= j < |InHand(t.server) + t.requests| ==>
               (InHand(t.server) + t.requests)[j] in InHand(s.server) + s.requests
               || (InHand(t.server) + t.requests)[j].call in s.queue
    requires forall k, i :: 0 <= k < |t.calls| && 0 <= i < |t.calls[k].outcomes| && t.calls[k].outcomes[i].Answer? ==>
               k < |s.calls| && i < |s.calls[k].outcomes| && s.calls[k].outcomes[i] == t.calls[k].outcomes[i]
    ensures Handed(given, t)
  {
    forall i, j | 0 <= i < |given| && 0 <= j < |InHand(t.server) + t.requests|
      ensures given[i].call < (InHand(t.server) + t.requests)[j].call
    {
      var f := (InHand(t.server) + t.requests)[j];
      if f in InHand(s.server) + s.requests {
        var m :| 0 <= m < |InHand(s.server) + s.requests| && (InHand(s.server) + s.requests)[m] == f;
        assert given[i].call < (InHand(s.server) + s.requests)[m].call;
      }
    }
  }

  lemma RequestHanded<M, R>(given: seq<Reply<R>>, s: Link<M, R>, message: M)
    requires Handed(given, s)
    ensures Handed(given, Step(s, Request(message)))
  {
    HandedKept(given, s, Step(s, Request(message)));
  }

  lemma StopHanded<M, R>(given: seq<Reply<R>>, s: Link<M, R>)
    requires Handed(given, s)
    ensures Handed(given, Stop(s))
  {
    HandedKept(given, s, Stop(s));
  }

  lemma SendHanded<M, R>(given: seq<Reply<R>>, s: Link<M, R>)
    requires Handed(given, s) && Resolution(s) && s.queue != []
    ensures Handed(given, Dequeued(s, true, true))
  {
    var t := Dequeued(s, true, true);
    var f := Frame(s.nextId, s.calls[s.queue[0]].message, s.queue[0], s.issued + 1);
    assert InHand(t.server) + t.requests == InHand(s.server) + s.requests + [f];
    HandedKept(given, s, t);
  }

  lemma FailHanded<M, R>(given: seq<Reply<R>>, s: Link<M, R>, encodes: bool)
    requires Handed(given, s) && Resolution(s) && s.queue != []
    ensures Handed(given, Dequeued(s, encodes, false))
  {
    var k := s.queue[0];
    var t := s.(queue := s.queue[1..], nextId := NextId(s.nextId), issued := s.issued + 1,
                calls := Resolve(s.calls, k, if encodes then TransportError else ProtocolError));
    HandedKept(given, s, t);
    if encodes {
      StopHanded(given, t);
    }
  }

  lemma ReceiveHanded<M, R>(given: seq<Reply<R>>, s: Link<M, R>)
    requires Handed(given, s) && s.responses != []
    ensures Handed(given, Received(s))
  {
    var f, t := s.responses[0], Received(s);
    var first := if f.Response? then [Reply(f.about.call, f.response)] else [];
    assert Replies(s.responses) == first + Replies(s.responses[1..]);
    SuffixTail(first, Replies(s.responses[1..]), given);
    if f.Response? {
      assert first[0] in given;
    }
    assert t.server == s.server && t.requests == s.requests;
  }

  /** One reply more, for the call in hand. */
  lemma GivesOne<M, R>(given: seq<Reply<R>>, s: Link<M, R>, t: Link<M, R>, reply: Reply<R>)
    requires GivenFirst(given, s) && s.server.Handling? && reply.call == s.server.frame.call
    requires t.queue == s.queue && t.calls == s.calls && InHand(t.server) + t.requests == s.requests
    requires reply.call < |s.calls|
    requires forall j :: 0 <= j < |s.requests| ==> reply.call < s.requests[j].call
    requires forall j :: 0 <= j < |s.queue| ==> reply.call < s.queue[j]
    ensures GivenFirst(given + [reply], t)
  {
    var frames := InHand(s.server) + s.requests;
    assert frames[0] == s.server.frame && forall j :: 0 <= j < |s.requests| ==> frames[1 + j] == s.requests[j];
  }

  lemma RespondHanded<M, R>(given: seq<Reply<R>>, s: Link<M, R>, response: R)
    requires Handed(given, s) && s.server.Handling? && ServerOk(s) && Tracked(s)
    ensures Handed(given + [Reply(s.server.frame.call, response)], Step(s, ServerRespond(response, true)))
  {
    var f, t := s.server.frame, Step(s, ServerRespond(response, true));
    RepliesAppend(s.responses, Response(f.id, response, f));
    SuffixAppend(Replies(s.responses), given, [Reply(f.call, response)]);
    InHandLate(s);
    assert InHand(t.server) + t.requests == s.requests;
    GivesOne(given, s, t, Reply(f.call, response));
  }

  lemma LateIn<M, R>(frames: seq<Frame<M>>, n: nat, issued: nat, calls: seq<Call<M, R>>, queue: seq<nat>)
    requires Ordered(frames, issued, calls) && Queued(frames, queue) && n < |frames|
    ensures frames[n].call < |calls|
    ensures forall j :: n < j < |frames| ==> frames[n].call < frames[j].call
    ensures forall j :: 0 <= j < |queue| ==> frames[n].call < queue[j]
  {
    assert Genuine(frames[n], issued, calls);
  }

  /** The frame in hand is before everything behind it. */
  lemma InHandLate<M, R>(s: Link<M, R>)
    requires s.server.Handling? && ServerOk(s) && Tracked(s)
    ensures s.server.frame.call < |s.calls|
    ensures forall j :: 0 <= j < |s.requests| ==> s.server.frame.call < s.requests[j].call
    ensures forall j :: 0 <= j < |s.queue| ==> s.server.frame.call < s.queue[j]
  {
    var n := |Answers(s.responses)|;
    var frames := InFlight(s);
    LateIn(frames, n, s.issued, s.calls, s.queue);
    assert s.lost + InHand(s.server) + s.requests == [s.server.frame] + s.requests;
    assert frames[n] == s.server.frame;
    assert forall j :: 0 <= j < |s.requests| ==> frames[n + 1 + j] == s.requests[j];
  }

  /** A move of the server that gives nothing. */
  lemma GivesNothing<M, R>(given: seq<Reply<R>>, s: Link<M, R>, t: Link<M, R>)
    requires Handed(given, s) && Replies(t.responses) == Replies(s.responses)
    requires t.calls == s.calls && t.queue == s.queue
    requires InHand(t.server) + t.requests == InHand(s.server) + s.requests || InHand(t.server) + t.requests == s.requests
    ensures Handed(given, t)
  {
    forall i, j | 0 <= i < |given| && 0 <= j < |InHand(t.server) + t.requests|
      ensures given[i].call < (InHand(t.server) + t.requests)[j].call
    {
      if InHand(t.server) + t.requests != InHand(s.server) + s.requests {
        assert (InHand(t.server) + t.requests)[j] == (InHand(s.server) + s.requests)[|InHand(s.server)| + j];
      }
    }
  }

  lemma EventHanded<M, R>(given: seq<Reply<R>>, s: Link<M, R>, event: R)
    requires Handed(given, s)
    ensures Handed(given, Step(s, ServerEvent(event)))
  {
    RepliesAppend(s.responses, RunEvent(event));
    assert Replies(s.responses) + [] == Replies(s.responses);
    GivesNothing(given, s, Step(s, ServerEvent(event)));
  }

  lemma ReadHanded<M, R>(given: seq<Reply<R>>, s: Link<M, R>, ends: bool)
    requires Handed(given, s)
    ensures Handed(given, Step(s, ServerReceive(ends)))
  {
    var t := Step(s, ServerReceive(ends));
    if t != s {
      assert InHand(t.server) + t.requests == InHand(s.server) + s.requests;
      GivesNothing(given, s, t);
    }
  }

  lemma LoseHanded<M, R>(given: seq<Reply<R>>, s: Link<M, R>, response: R)
    requires Handed(given, s)
    ensures Handed(given, Step(s, ServerRespond(response, false)))
  {
    var t := Step(s, ServerRespond(response, false));
    if s.server.Handling? {
      assert InHand(t.server) + t.requests == s.requests;
      GivesNothing(given, s, t);
    }
  }

  lemma EndHanded<M, R>(given: seq<Reply<R>>, s: Link<M, R>)
    requires Handed(given, s)
    ensures Handed(given, Step(s, ServerEnd))
  {
    var t := Step(s, ServerEnd);
    assert InHand(t.server) + t.requests == InHand(s.server) + s.requests;
    GivesNothing(given, s, t);
  }

  lemma StepHanded<M, R>(given: seq<Reply<R>>, s: Link<M, R>, a: Action<M, R>)
    requires Handed(given, s) && Resolution(s) && ServerOk(s) && Tracked(s)
    ensures Handed(given + if a.ServerRespond? && a.written && s.server.Handling? then [Reply(s.server.frame.call, a.response)] else [],
                   Step(s, a))
  {
    assert given + [] == given;
    match a
    case Request(message) => RequestHanded(given, s, message);
    case Dequeue(encodes, sent) =>
      if s.driving && s.queue != [] {
        if encodes && sent {
          SendHanded(given, s);
        } else {
          FailHanded(given, s, encodes);
          assert Dequeued(s, encodes, sent) == Dequeued(s, encodes, false);
        }
      }
    case ClientsDropped => StopHanded(given, s);
    case Incoming =>
      if s.driving && s.responses != [] {
        ReceiveHanded(given, s);
      }
    case ConnectionLost => StopHanded(given, s);
    case ServerReceive(ends) => ReadHanded(given, s, ends);
    case ServerRespond(response, written) =>
      if written && s.server.Handling? {
        RespondHanded(given, s, response);
      } else if !written {
        LoseHanded(given, s, response);
      }
    case ServerEvent(event) => EventHanded(given, s, event);
    case ServerEnd => EndHanded(given, s);
  }

  lemma {:induction false} ExecHanded<M, R>(actions: seq<Action<M, R>>)
    ensures Handed(Given(actions), Exec(actions))
    decreases |actions|
  {
    if actions != [] {
      var before := actions[..|actions| - 1];
      ExecHanded(before);
      ExecTracked(before);
      StepHanded(Given(before), Exec(before), actions[|actions| - 1]);
    }
  }

  /** Responses are written as they were given: those still unread are, in order and
      by value, the last ones the server was given; and it was given at most one for
      each call. No hypothesis is needed. */
  lemma RepliesAsGiven<M, R>(actions: seq<Action<M, R>>)
    ensures Suffix(Replies(Exec(actions).responses), Given(actions))
    ensures forall i, j :: 0 <= i < j < |Given(actions)| ==> Given(actions)[i].call < Given(actions)[j].call
  {
    ExecHanded(actions);
  }

  /** Everybody who is answered got the one response that the server was given while
      it handled that very call. */
  ghost predicate RightAnswers<M, R>(actions: seq<Action<M, R>>) {
    forall k, i :: 0 <= k < |Exec(actions).calls| && 0 <= i < |Exec(actions).calls[k].outcomes|
                   && Exec(actions).calls[k].outcomes[i].Answer? ==>
      IsReplyOf(actions, k, Exec(actions).calls[k].outcomes[i])
  }

  ghost predicate IsReplyOf<M, R>(actions: seq<Action<M, R>>, k: nat, o: Outcome<R>) {
    && o.Answer? && o.about == k && Reply(k, o.response) in Given(actions)
    && forall i :: 0 <= i < |Given(actions)| && Given(actions)[i].call == k ==> Given(actions)[i].response == o.response
  }

  lemma OneReply<R>(given: seq<Reply<R>>, reply: Reply<R>)
    requires forall i, j :: 0 <= i < j < |given| ==> given[i].call < given[j].call
    requires reply in given
    ensures forall i :: 0 <= i < |given| && given[i].call == reply.call ==> given[i].response == reply.response
  {
    var m :| 0 <= m < |given| && given[m] == reply;
  }

  lemma MatchIsRight<M, R>(actions: seq<Action<M, R>>)
    ensures RightAnswers(actions) <==> AnswersMatch(Exec(actions).calls)
  {
    ExecHanded(actions);
    var calls, given := Exec(actions).calls, Given(actions);
    if AnswersMatch(calls) {
      forall k, i | 0 <= k < |calls| && 0 <= i < |calls[k].outcomes| && calls[k].outcomes[i].Answer?
        ensures IsReplyOf(actions, k, calls[k].outcomes[i])
      {
        OneReply(given, Reply(k, calls[k].outcomes[i].response));
      }
    }
    if RightAnswers(actions) {
      forall k, i | 0 <= k < |calls| && 0 <= i < |calls[k].outcomes| && calls[k].outcomes[i].Answer?
        ensures calls[k].outcomes[i].about == k
      {
        assert IsReplyOf(actions, k, calls[k].outcomes[i]);
      }
    }
  }

  /** Conservation: while `drive` runs, the pending ids are exactly the ids in
      flight, each once and with its own caller, as long as no request is sent
      under an id still pending. */
  lemma PendingConserved<M, R>(actions: seq<Action<M, R>>)
    requires !EverCollides(actions) && Exec(actions).driving
    ensures PendingIs(Exec(actions).pending, InFlight(Exec(actions)))
  {
    ExecPending(actions);
  }

  /** Each waiter that is answered gets the response the server was given while it
      handled that waiter's own message, if and only if no response ever arrived
      while a newer request was in flight under its id. */
  lemma OwnAnswersExactly<M, R>(actions: seq<Action<M, R>>)
    ensures RightAnswers(actions) <==> !EverMisanswers(actions)
  {
    MatchExactly(actions);
    MatchIsRight(actions);
  }

  /** In particular, as long as no request is sent under an id still pending. */
  lemma OwnAnswer<M, R>(actions: seq<Action<M, R>>)
    requires !EverCollides(actions)
    ensures RightAnswers(actions)
  {
    ExecPending(actions);
    OwnAnswersExactly(actions);
  }

  /** The ids of the server's responses are a prefix of the request ids it read,
      all of them but at most the last. No hypothesis is needed. */
  lemma ResponsesArePrefix<M, R>(actions: seq<Action<M, R>>)
    ensures var s := Exec(actions);
            s.answered <= s.received && |s.received| <= |s.answered| + 1
  {
    ExecServerOk(actions);
    var s := Exec(actions);
    assert |s.lost| == 1 ==> Ids(s.lost) == [s.lost[0].id];
    assert s.server.Handling? ==> Ids(InHand(s.server)) == [s.server.frame.id];
  }

  lemma NobodyWaits<M>(pending: map<nat, nat>, frames: seq<Frame<M>>)
    requires Newest(pending, frames) && frames == []
    ensures pending == map[]
  {
  }

  /** Nobody waits for nothing: with nothing queued and nothing in flight, every
      call has been resolved. No hypothesis is needed. */
  lemma NothingOwed<M, R>(actions: seq<Action<M, R>>, k: nat)
    requires k < |Exec(actions).calls|
    requires Exec(actions).queue == [] && InFlight(Exec(actions)) == []
    ensures |Exec(actions).calls[k].outcomes| == 1
  {
    ExecTracked(actions);
    var s := Exec(actions);
    if s.driving {
      NobodyWaits(s.pending, InFlight(s));
    }
  }

  // ------------------------------------------------------------------
  // What a collision does, and that it can happen
  // ------------------------------------------------------------------

  /** A request sent under an id that is still pending takes the older waiter's
      place, and that caller is told the client is gone. If the older request's
      response is the next to come in, the newer caller gets it. */
  lemma CollisionCrossesAnswers<M, R>(actions: seq<Action<M, R>>)
    requires Collides(Exec(actions))
    ensures var s := Exec(actions); var t := Dequeued(s, true, true);
            && s.pending[s.nextId] < |t.calls| && t.calls[s.pending[s.nextId]].outcomes == [Gone]
            && t.pending[s.nextId] == s.queue[0]
            && (s.responses != [] && s.responses[0].Response? && s.responses[0].id == s.nextId ==>
                  && s.queue[0] < |Received(t).calls|
                  && Received(t).calls[s.queue[0]].outcomes == [Answer(s.responses[0].response, s.responses[0].about.call)]
                  && s.responses[0].about.call < s.queue[0])
  {
    ExecTracked(actions);
    var s := Exec(actions);
    PendingWaits(s, s.nextId);
    QueuedWaits(s);
    assert s.pending[s.nextId] in s.pending.Values && s.queue[0] in s.queue;
    assert s.queue[0] != s.pending[s.nextId];
    if s.responses != [] && s.responses[0].Response? {
      ReceivedMoves(s);
      assert InFlight(s)[0].call < s.queue[0];
    }
  }

  lemma ExecMore<M, R>(actions: seq<Action<M, R>>, a: Action<M, R>)
    ensures Exec(actions + [a]) == Step(Exec(actions), a)
  {
    assert (actions + [a])[..|actions|] == actions;
  }

  /** One request, answered by the server, and then `later` more that go out while
      that response stays unread: the client may take its requests first. */
  ghost function Wrapping<M, R>(message: M, response: R, later: nat): seq<Action<M, R>> {
    if later == 0 then
      [Request(message)] + [Dequeue(true, true)] + [ServerReceive(false)] + [ServerRespond(response, true)]
    else
      Wrapping(message, response, later - 1) + [Request(message)] + [Dequeue(true, true)]
  }

  /** What such a run leads to: every id from 1 up is pending. */
  ghost predicate Wrapped<M, R>(s: Link<M, R>, message: M, response: R, later: nat) {
    && s.driving && s.queue == [] && s.issued == later + 1 && s.nextId == Nth(later + 2)
    && s.responses == [Response(1, response, Frame(1, message, 0, 1))]
    && (forall id :: id in s.pending <==> 1 <= id <= later + 1)
    && (forall id :: id in s.pending ==> s.pending[id] == id - 1)
    && |s.calls| == later + 1 && forall k :: 0 <= k <= later ==> s.calls[k].outcomes == []
  }

  lemma Asks<M, R>(s: Link<M, R>, message: M)
    requires s.driving && s.queue == []
    ensures Step(s, Request(message)) == s.(calls := s.calls + [Call(message, [])], queue := [|s.calls|])
  {
  }

  lemma SendsOne<M, R>(s: Link<M, R>, k: nat)
    requires s.driving && s.queue == [k] && k < |s.calls| && s.nextId !in s.pending
    ensures Step(s, Dequeue(true, true))
         == s.(queue := [], nextId := NextId(s.nextId), issued := s.issued + 1, pending := s.pending[s.nextId := k],
               requests := s.requests + [Frame(s.nextId, s.calls[k].message, k, s.issued + 1)])
  {
    assert s.queue[1..] == [];
  }

  lemma WrapsMore<M, R>(s: Link<M, R>, u: Link<M, R>, message: M, response: R, later: nat)
    requires Wrapped(s, message, response, later)
    requires u.driving && u.queue == [] && u.issued == later + 2 && u.nextId == Nth(later + 3) && u.responses == s.responses
    requires u.pending == s.pending[later + 2 := later + 1] && u.calls == s.calls + [Call(message, [])]
    ensures Wrapped(u, message, response, later + 1)
  {
  }

  lemma EarlyIds(n: nat)
    requires 2 <= n <= MAX_ID
    ensures Nth(n) == n && NextId(n) == Nth(n + 1)
  {
    IdClosedForm(n);
  }

  lemma AsksAndSends<M, R>(s: Link<M, R>, message: M)
    requires s.driving && s.queue == [] && s.nextId !in s.pending
    ensures var k := |s.calls|;
            Step(Step(s, Request(message)), Dequeue(true, true))
              == s.(calls := s.calls + [Call(message, [])], nextId := NextId(s.nextId), issued := s.issued + 1,
                    pending := s.pending[s.nextId := k],
                    requests := s.requests + [Frame(s.nextId, message, k, s.issued + 1)])
  {
    Asks(s, message);
    SendsOne(Step(s, Request(message)), |s.calls|);
  }

  lemma SendLater<M, R>(s: Link<M, R>, message: M, response: R, later: nat)
    requires Wrapped(s, message, response, later) && later + 1 < MAX_ID
    ensures Wrapped(Step(Step(s, Request(message)), Dequeue(true, true)), message, response, later + 1)
  {
    EarlyIds(later + 2);
    AsksAndSends(s, message);
    WrapsMore(s, Step(Step(s, Request(message)), Dequeue(true, true)), message, response, later);
  }

  lemma SendFirst<M, R>(message: M)
    ensures var s: Link<M, R> := Step(Step(Init(), Request(message)), Dequeue(true, true));
            && s == Link([Call(message, [])], [], 2, 1, map[1 := 0], true, [], [Frame(1, message, 0, 1)], [], Reading, [], [], [])
  {
    var s1: Link<M, R> := Step(Init(), Request(message));
    assert s1.queue == [0] && s1.calls == [Call(message, [])];
    assert NextId(1) == 2;
  }

  lemma AnswerFirst<M, R>(s: Link<M, R>, message: M, response: R)
    requires s == Link([Call(message, [])], [], 2, 1, map[1 := 0], true, [], [Frame(1, message, 0, 1)], [], Reading, [], [], [])
    ensures Wrapped(Step(Step(s, ServerReceive(false)), ServerRespond(response, true)), message, response, 0)
  {
    assert Step(s, ServerReceive(false)).server == Handling(Frame(1, message, 0, 1), false);
    assert Nth(2) == 2;
  }

  lemma WrapStart<M, R>(message: M, response: R)
    ensures Wrapped(Exec(Wrapping<M, R>(message, response, 0)), message, response, 0)
  {
    var a1: seq<Action<M, R>> := [Request(message)];
    var a2 := a1 + [Dequeue(true, true)];
    var a3 := a2 + [ServerReceive(false)];
    assert a1 == [] + a1;
    ExecMore<M, R>([], Request(message));
    ExecMore(a1, Dequeue(true, true));
    ExecMore(a2, ServerReceive(false));
    ExecMore(a3, ServerRespond(response, true));
    SendFirst<M, R>(message);
    AnswerFirst(Exec(a2), message, response);
  }

  lemma ExecTwo<M, R>(actions: seq<Action<M, R>>, a: Action<M, R>, b: Action<M, R>)
    ensures Exec(actions + [a] + [b]) == Step(Step(Exec(actions), a), b)
  {
    ExecMore(actions, a);
    ExecMore(actions + [a], b);
  }

  lemma WrapNext<M, R>(actions: seq<Action<M, R>>, more: seq<Action<M, R>>, message: M, response: R, later: nat)
    requires Wrapped(Exec(actions), message, response, later) && later + 1 < MAX_ID
    requires more == actions + [Request(message)] + [Dequeue(true, true)]
    ensures Wrapped(Exec(more), message, response, later + 1)
  {
    SendLater(Exec(actions), message, response, later);
    ExecTwo(actions, Request(message), Dequeue(true, true));
  }

  lemma WrapMore<M, R>(message: M, response: R, later: nat)
    requires 0 < later < MAX_ID
    requires Wrapped(Exec(Wrapping<M, R>(message, response, later - 1)), message, response, later - 1)
    ensures Wrapped(Exec(Wrapping<M, R>(message, response, later)), message, response, later)
  {
    WrapNext(Wrapping<M, R>(message, response, later - 1), Wrapping<M, R>(message, response, later),
             message, response, later - 1);
  }

  lemma {:induction false} WrapReached<M, R>(message: M, response: R, later: nat)
    requires later < MAX_ID
    ensures Wrapped(Exec(Wrapping<M, R>(message, response, later)), message, response, later)
    decreases later
  {
    if later == 0 {
      WrapStart<M, R>(message, response);
    } else {
      WrapReached<M, R>(message, response, later - 1);
      WrapMore<M, R>(message, response, later);
    }
  }

  lemma CrossSend<M, R>(s: Link<M, R>, first: M, second: M, response: R, later: nat)
    requires Wrapped(s, first, response, later) && s.nextId == 1
    ensures var t := Step(s, Request(second)); var u := Step(t, Dequeue(true, true));
            && Collides(t) && u.driving && u.responses == s.responses && |u.calls| == later + 2
            && 1 in u.pending && u.pending[1] == later + 1
            && u.calls[0].outcomes == [Gone] && u.calls[later + 1] == Call(second, [])
  {
    var t := Step(s, Request(second));
    assert t.queue == [later + 1] && t.calls[later + 1] == Call(second, []) && t.calls[0] == s.calls[0];
  }

  lemma CrossReceive<M, R>(u: Link<M, R>, first: M, second: M, response: R, later: nat)
    requires u.driving && u.responses == [Response(1, response, Frame(1, first, 0, 1))] && |u.calls| == later + 2
    requires 1 in u.pending && u.pending[1] == later + 1
    requires u.calls[0].outcomes == [Gone] && u.calls[later + 1] == Call(second, [])
    ensures var v := Step(u, Incoming);
            && v.driving && |v.calls| == later + 2
            && v.calls[0].outcomes == [Gone] && v.calls[later + 1] == Call(second, [Answer(response, 0)])
  {
  }

  lemma EverLast<M, R>(actions: seq<Action<M, R>>, a: Action<M, R>)
    ensures EverCollides(actions) ==> EverCollides(actions + [a])
    ensures a == Dequeue(true, true) && Collides(Exec(actions)) ==> EverCollides(actions + [a])
  {
    assert (actions + [a])[..|actions|] == actions;
  }

  /** Once the ids have wrapped around, all requests having gone out, the next takes
      the id of the one whose response is still to be read: its caller gets that
      response, and the first caller is told that the client is gone. */
  lemma WrongAnswer<M, R>(first: M, second: M, response: R) returns (actions: seq<Action<M, R>>)
    ensures var s := Exec(actions);
            && s.driving && |s.calls| == MAX_ID + 1
            && s.calls[0].outcomes == [Gone]
            && s.calls[MAX_ID] == Call(second, [Answer(response, 0)])
    ensures EverCollides(actions)
  {
    var wrapped := Wrapping<M, R>(first, response, MAX_ID - 1);
    WrapReached<M, R>(first, response, MAX_ID - 1);
    IdClosedForm(MAX_ID + 1);
    CrossSend(Exec(wrapped), first, second, response, MAX_ID - 1);
    var asked := wrapped + [Request(second)];
    var crossed := asked + [Dequeue(true, true)];
    ExecMore(wrapped, Request(second));
    ExecMore(asked, Dequeue(true, true));
    ExecMore(crossed, Incoming);
    CrossReceive(Exec(crossed), first, second, response, MAX_ID - 1);
    EverLast(asked, Dequeue(true, true));
    EverLast(crossed, Incoming);
    actions := crossed + [Incoming];
  }

  // ------------------------------------------------------------------
  // The state of `drive` in place
  // ------------------------------------------------------------------

  /** The id allocator and the waiters, `W` being a waiter's reply sender. */
  class Driver<W> {
    var nextRequestId: nat
    var pending: map<nat, W>
    ghost var issued: nat

    ghost predicate Valid()
      reads this
    {
      nextRequestId == Nth(issued + 1)
    }

    constructor ()
      ensures Valid() && issued == 0 && pending == map[]
    {
      nextRequestId, pending, issued := 1, map[], 0;
    }

    method Allocate() returns (id: nat)
      requires Valid()
      modifies this
      ensures Valid() && issued == old(issued) + 1 && pending == old(pending)
      ensures id == old(issued) % MAX_ID + 1 && 1 <= id <= MAX_ID
    {
      IdClosedForm(issued + 1);
      IdCycle(issued + 1);
      id := nextRequestId;
      var wrapped := (nextRequestId + 1) % (MAX_ID + 1);
      nextRequestId := if wrapped > 1 then wrapped else 1;
      issued := issued + 1;
    }

    method Resolve(id: nat) returns (waiter: seq<W>)
      modifies this`pending
      ensures pending == old(pending) - {id}
      ensures waiter == if id in old(pending) then [old(pending)[id]] else []
    {
      if id !in pending {
        return [];
      }
      waiter := [pending[id]];
      pending := pending - {id};
    }

    /** The final loop: every waiter, each exactly once. */
    method Drain() returns (ids: seq<nat>, waiters: seq<W>)
      modifies this`pending
      ensures pending == map[]
      ensures |ids| == |waiters| == |old(pending)|
      ensures forall i :: 0 <= i < |ids| ==> ids[i] in old(pending) && waiters[i] == old(pending)[ids[i]]
      ensures forall i, j :: 0 <= i < j < |ids| ==> ids[i] != ids[j]
      ensures forall id :: id in old(pending) ==> id in ids
    {
      var left := pending;
      ids, waiters := [], [];
      while left != map[]
        invariant |ids| == |waiters| && |ids| + |left| == |pending|
        invariant forall i :: 0 <= i < |ids| ==> ids[i] in pending && ids[i] !in left && waiters[i] == pending[ids[i]]
        invariant forall i, j :: 0 <= i < j < |ids| ==> ids[i] != ids[j]
        invariant forall id :: id in left ==> id in pending && left[id] == pending[id]
        invariant forall id :: id in pending ==> id in left || id in ids
        decreases |left|
      {
        var id :| id in left;
        ids, waiters := ids + [id], waiters + [left[id]];
        assert (left - {id}).Keys == left.Keys - {id};
        left := left - {id};
      }
      pending := map[];
    }
  }
}
