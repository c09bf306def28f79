/** What becomes of a call, of the client's loop, of the server and of pushed events
    on the connection of `Multiplexing`, read off the actions. */
module ConnectionFates {
  import opened Multiplexing

  // ------------------------------------------------------------------
  // Calls
  // ------------------------------------------------------------------

  /** The drive task ends in this step. */
  ghost predicate Stops<M, R>(s: Link<M, R>, a: Action<M, R>) {
    s.driving
    && (a.ConnectionLost? || (a.ClientsDropped? && s.queue == []) || (a.Dequeue? && a.encodes && !a.sent && s.queue != []))
  }

  /** This step is the sending of call `k`, or its failing to be sent. */
  ghost predicate Takes<M, R>(s: Link<M, R>, a: Action<M, R>, k: nat) {
    s.driving && a.Dequeue? && s.queue != [] && s.queue[0] == k
  }

  /** Why call `k` is resolved in this step, for each outcome. */
  ghost predicate Explains<M, R>(s: Link<M, R>, a: Action<M, R>, k: nat, o: Outcome<R>) {
    && (o.ProtocolError? <==> Takes(s, a, k) && !a.encodes)
    && (o.TransportError? <==> Stops(s, a) && (Takes(s, a, k) || k in s.pending.Values))
    && (o.Gone? <==> (Stops(s, a) && !Takes(s, a, k) && k in s.queue)
                     || (a == Dequeue(true, true) && Collides(s) && s.pending[s.nextId] == k))
    && (o.Answer? <==> a.Incoming?)
    && (o.Answer? ==>
          && s.responses != [] && s.responses[0].Response? && s.responses[0].id in s.pending
          && s.pending[s.responses[0].id] == k && o.response == s.responses[0].response)
  }

  lemma StopFates<M, R>(s: Link<M, R>, k: nat)
    requires Resolution(s) && k < |s.calls| && s.calls[k].outcomes == []
    ensures Stop(s).calls[k].outcomes == [if k in s.pending.Values then TransportError else Gone]
  {
    assert Waiting(s, k);
  }

  lemma FailFates<M, R>(s: Link<M, R>, encodes: bool, k: nat)
    requires Resolution(s) && s.driving && s.queue != [] && k < |s.calls| && s.calls[k].outcomes == []
    ensures var o := Dequeued(s, encodes, false).calls[k].outcomes;
            if !encodes then o == if k == s.queue[0] then [ProtocolError] else []
            else o == [if k == s.queue[0] || k in s.pending.Values then TransportError else Gone]
  {
    assert Waiting(s, k);
    QueuedWaits(s);
    if encodes && k != s.queue[0] {
      var t := s.(queue := s.queue[1..], nextId := NextId(s.nextId), issued := s.issued + 1,
                  calls := Resolve(s.calls, s.queue[0], TransportError));
      assert k in s.queue ==> k in s.queue[1..];
      assert t.calls[k] == s.calls[k];
    } else if encodes {
      assert k in s.queue && s.queue[0] !in s.pending.Values;
      FirstLeaves(s);
    }
  }

  lemma FirstLeaves<M, R>(s: Link<M, R>)
    requires Resolution(s) && s.queue != []
    ensures s.queue[0] !in s.queue[1..] && s.queue[0] !in s.pending.Values
  {
  }

  lemma SendFates<M, R>(s: Link<M, R>, k: nat)
    requires Resolution(s) && s.driving && s.queue != [] && k < |s.calls| && s.calls[k].outcomes == []
    ensures Dequeued(s, true, true).calls[k].outcomes
         == if s.nextId in s.pending && s.pending[s.nextId] == k then [Gone] else []
  {
    QueuedWaits(s);
  }

  lemma ReceiveFates<M, R>(s: Link<M, R>, k: nat)
    requires Resolution(s) && s.responses != [] && k < |s.calls| && s.calls[k].outcomes == []
    ensures var f := s.responses[0];
            Received(s).calls[k].outcomes
              == if f.Response? && f.id in s.pending && s.pending[f.id] == k then [Answer(f.response, f.about.call)] else []
  {
  }

  /** What a step owes to a call that waits: its explanation if it resolves it, and a
      resolution if the step ends the task or fails to encode it. */
  ghost predicate Fated<M, R>(s: Link<M, R>, a: Action<M, R>, t: Link<M, R>, k: nat) {
    && k < |t.calls|
    && (t.calls[k].outcomes != [] ==> |t.calls[k].outcomes| == 1 && Explains(s, a, k, t.calls[k].outcomes[0]))
    && (Stops(s, a) || (Takes(s, a, k) && !a.encodes) ==> t.calls[k].outcomes != [])
  }

  lemma SendStepFates<M, R>(s: Link<M, R>, k: nat)
    requires Resolution(s) && k < |s.calls| && s.calls[k].outcomes == []
    ensures Fated(s, Dequeue(true, true), Step(s, Dequeue(true, true)), k)
  {
    if s.driving && s.queue != [] {
      SendFates(s, k);
    }
  }

  lemma FailStepFates<M, R>(s: Link<M, R>, encodes: bool, sent: bool, k: nat)
    requires Resolution(s) && k < |s.calls| && s.calls[k].outcomes == [] && !(encodes && sent)
    ensures Fated(s, Dequeue(encodes, sent), Step(s, Dequeue(encodes, sent)), k)
  {
    assert Waiting(s, k);
    if s.driving && s.queue != [] {
      FirstLeaves(s);
      FailFates(s, encodes, k);
      assert Dequeued(s, encodes, sent) == Dequeued(s, encodes, false);
    }
  }

  lemma StopStepFates<M, R>(s: Link<M, R>, a: Action<M, R>, k: nat)
    requires Resolution(s) && k < |s.calls| && s.calls[k].outcomes == [] && (a.ClientsDropped? || a.ConnectionLost?)
    ensures Fated(s, a, Step(s, a), k)
  {
    assert Waiting(s, k);
    if Step(s, a) != s {
      StopFates(s, k);
    }
  }

  lemma IncomingFates<M, R>(s: Link<M, R>, k: nat)
    requires Resolution(s) && k < |s.calls| && s.calls[k].outcomes == []
    ensures Fated(s, Incoming, Step(s, Incoming), k)
  {
    if s.driving && s.responses != [] {
      ReceiveFates(s, k);
    }
  }

  lemma StepFates<M, R>(s: Link<M, R>, a: Action<M, R>, k: nat)
    requires Resolution(s) && ServerOk(s) && k < |s.calls| && s.calls[k].outcomes == []
    ensures Fated(s, a, Step(s, a), k)
  {
    match a
    case Request(_) =>
    case Dequeue(encodes, sent) =>
      if encodes && sent {
        SendStepFates(s, k);
      } else {
        FailStepFates(s, encodes, sent, k);
      }
    case ClientsDropped => StopStepFates(s, a, k);
    case Incoming => IncomingFates(s, k);
    case ConnectionLost => StopStepFates(s, a, k);
    case _ => ClientUntouched(s, a);
  }

  /** Why a call is resolved, in every reachable state: as a protocol error exactly if
      its own request failed to encode; as a transport error exactly if the drive
      task ends and it was waiting for its answer or just being sent; as gone exactly
      if the task ends and it was still queued, or its waiter was overwritten; as an
      answer exactly if a response of its id came in, with that response. And an end
      of the task resolves everybody. */
  lemma FateExactly<M, R>(actions: seq<Action<M, R>>, a: Action<M, R>, k: nat)
    requires k < |Exec(actions).calls| && Exec(actions).calls[k].outcomes == []
    ensures Fated(Exec(actions), a, Step(Exec(actions), a), k)
  {
    ExecTracked(actions);
    StepFates(Exec(actions), a, k);
  }

  /** A call made after the drive task ended is told at once; before that it queues,
      last. */
  lemma RequestFate<M, R>(s: Link<M, R>, message: M)
    ensures var t := Step(s, Request(message));
            && t == s.(calls := t.calls, queue := t.queue)
            && t.calls == s.calls + [Call(message, if s.driving then [] else [Gone])]
            && t.queue == s.queue + if s.driving then [|s.calls|] else []
  {
  }

  lemma SendState<M, R>(s: Link<M, R>)
    requires s.driving && s.queue != [] && s.queue[0] < |s.calls|
    ensures var k := s.queue[0]; var t := Step(s, Dequeue(true, true));
            && t.driving && t.queue == s.queue[1..] && t.issued == s.issued + 1
            && t.requests == s.requests + [Frame(s.nextId, s.calls[k].message, k, s.issued + 1)]
            && t.pending == s.pending[s.nextId := k]
  {
  }

  lemma SkipState<M, R>(s: Link<M, R>)
    requires s.driving && s.queue != []
    ensures var u := Step(s, Dequeue(false, true));
            && u.driving && u.queue == s.queue[1..] && u.issued == s.issued + 1
            && u.requests == s.requests && u.pending == s.pending
  {
  }

  /** The head of the queue, sent, and failing to encode. */
  ghost predicate SendsHead<M, R>(s: Link<M, R>, t: Link<M, R>, u: Link<M, R>)
    requires s.queue != []
  {
    var k, id := s.queue[0], Nth(s.issued + 1);
    && k < |s.calls|
    && t.driving && t.queue == s.queue[1..] && t.issued == s.issued + 1
    && t.requests == s.requests + [Frame(id, s.calls[k].message, k, s.issued + 1)] && t.pending == s.pending[id := k]
    && u.driving && u.queue == s.queue[1..] && u.issued == s.issued + 1
    && u.requests == s.requests && u.pending == s.pending
  }

  lemma SendsState<M, R>(s: Link<M, R>)
    requires s.driving && s.queue != [] && Tracked(s) && Resolution(s)
    ensures SendsHead(s, Step(s, Dequeue(true, true)), Step(s, Dequeue(false, true)))
  {
    QueuedWaits(s);
    SendState(s);
    SkipState(s);
  }

  /** The request at the head of the queue goes out: one id is spent, its frame is the
      last on the wire with the call's own message, and its caller waits under the id.
      One that does not encode spends an id and nothing else. */
  lemma SendEffect<M, R>(actions: seq<Action<M, R>>)
    requires Exec(actions).driving && Exec(actions).queue != []
    ensures var s := Exec(actions); SendsHead(s, Step(s, Dequeue(true, true)), Step(s, Dequeue(false, true)))
  {
    ExecTracked(actions);
    SendsState(Exec(actions));
  }

  /** A response whose id somebody waits on resolves that caller with it and frees the
      id; anything else that comes in resolves nobody. */
  lemma IncomingEffect<M, R>(actions: seq<Action<M, R>>)
    requires Exec(actions).driving && Exec(actions).responses != []
    ensures var s, t := Exec(actions), Step(Exec(actions), Incoming); var f := s.responses[0];
            && t.driving && t.responses == s.responses[1..] && t.queue == s.queue
            && (if f.Response? && f.id in s.pending then
                  && s.pending[f.id] < |t.calls|
                  && t.calls[s.pending[f.id]].outcomes == [Answer(f.response, f.about.call)]
                  && t.pending == s.pending - {f.id}
                else t.calls == s.calls && t.pending == s.pending)
  {
    ExecTracked(actions);
    var s := Exec(actions);
    if s.responses[0].Response? && s.responses[0].id in s.pending {
      PendingWaits(s, s.responses[0].id);
    }
  }

  ghost predicate EverStops<M, R>(actions: seq<Action<M, R>>) {
    actions != [] &&
      (EverStops(actions[..|actions| - 1]) || Stops(Exec(actions[..|actions| - 1]), actions[|actions| - 1]))
  }

  lemma DrivingStep<M, R>(s: Link<M, R>, a: Action<M, R>)
    ensures Step(s, a).driving <==> s.driving && !Stops(s, a)
  {
  }

  /** The drive task runs until the connection is lost, a send fails, or every client
      is gone with nothing queued; and no longer. */
  lemma {:induction false} DrivesExactly<M, R>(actions: seq<Action<M, R>>)
    ensures Exec(actions).driving <==> !EverStops(actions)
    decreases |actions|
  {
    if actions != [] {
      DrivesExactly(actions[..|actions| - 1]);
      DrivingStep(Exec(actions[..|actions| - 1]), actions[|actions| - 1]);
    }
  }

  // ------------------------------------------------------------------
  // The server
  // ------------------------------------------------------------------

  /** The server leaves: told to by the connection while it reads, after a response
      that ends it, or because a response could not be written. */
  ghost predicate Leaves<M, R>(s: Link<M, R>, a: Action<M, R>) {
    || (a.ServerEnd? && s.server.Reading?)
    || (a.ServerRespond? && s.server.Handling? && (s.server.ends || !a.written))
  }

  ghost predicate EverLeaves<M, R>(actions: seq<Action<M, R>>) {
    actions != [] &&
      (EverLeaves(actions[..|actions| - 1]) || Leaves(Exec(actions[..|actions| - 1]), actions[|actions| - 1]))
  }

  lemma LeavingStep<M, R>(s: Link<M, R>, a: Action<M, R>)
    ensures Step(s, a).server.Ended? <==> s.server.Ended? || Leaves(s, a)
  {
  }

  lemma {:induction false} ServesExactly<M, R>(actions: seq<Action<M, R>>)
    ensures Exec(actions).server.Ended? <==> EverLeaves(actions)
    decreases |actions|
  {
    if actions != [] {
      ServesExactly(actions[..|actions| - 1]);
      LeavingStep(Exec(actions[..|actions| - 1]), actions[|actions| - 1]);
    }
  }

  /** One request served: the frame read is the oldest on the wire, its response is the
      last on the way back, under its id and as given, and the server reads on unless
      the request ends it. */
  lemma ServeEffect<M, R>(s: Link<M, R>, ends: bool, response: R)
    requires s.server.Reading? && s.requests != []
    ensures var t := Step(Step(s, ServerReceive(ends)), ServerRespond(response, true)); var f := s.requests[0];
            && t.requests == s.requests[1..]
            && t.responses == s.responses + [Response(f.id, response, f)]
            && t.received == s.received + [f.id] && t.answered == s.answered + [f.id]
            && t.server == if ends then Ended else Reading
  {
  }

  // ------------------------------------------------------------------
  // Events
  // ------------------------------------------------------------------

  /** The events pushed while the server was there, in order. */
  ghost function Pushed<M, R>(actions: seq<Action<M, R>>): seq<R> {
    if actions == [] then []
    else
      var before, a := actions[..|actions| - 1], actions[|actions| - 1];
      Pushed(before) + if a.ServerEvent? && !Exec(before).server.Ended? then [a.event] else []
  }

  ghost function Events<M, R>(responses: seq<ServerFrame<M, R>>): seq<R> {
    if responses == [] then []
    else (if responses[0].RunEvent? then [responses[0].event] else []) + Events(responses[1..])
  }

  lemma {:induction false} EventsAppend<M, R>(responses: seq<ServerFrame<M, R>>, f: ServerFrame<M, R>)
    ensures Events(responses + [f]) == Events(responses) + if f.RunEvent? then [f.event] else []
  {
    if responses != [] {
      assert (responses + [f])[1..] == responses[1..] + [f];
      EventsAppend(responses[1..], f);
    }
  }

  lemma IncomingEvents<M, R>(s: Link<M, R>)
    requires s.responses != []
    ensures Received(s).forwarded + Events(Received(s).responses) == s.forwarded + Events(s.responses)
  {
    var f, rest := s.responses[0], Events(s.responses[1..]);
    var first := if f.RunEvent? then [f.event] else [];
    assert Received(s).forwarded == s.forwarded + first;
    assert s.forwarded + first + rest == s.forwarded + (first + rest);
  }

  lemma ServerEvents<M, R>(s: Link<M, R>, f: ServerFrame<M, R>)
    ensures s.forwarded + Events(s.responses + [f])
         == s.forwarded + Events(s.responses) + if f.RunEvent? then [f.event] else []
  {
    EventsAppend(s.responses, f);
    var more := if f.RunEvent? then [f.event] else [];
    assert s.forwarded + (Events(s.responses) + more) == s.forwarded + Events(s.responses) + more;
  }

  lemma EventStep<M, R>(s: Link<M, R>, a: Action<M, R>)
    ensures Step(s, a).forwarded + Events(Step(s, a).responses)
         == s.forwarded + Events(s.responses) + if a.ServerEvent? && !s.server.Ended? then [a.event] else []
  {
    assert s.forwarded + Events(s.responses) + [] == s.forwarded + Events(s.responses);
    match a
    case Incoming =>
      if s.driving && s.responses != [] {
        IncomingEvents(s);
      }
    case ServerRespond(response, written) =>
      if s.server.Handling? && written {
        ServerEvents(s, Response(s.server.frame.id, response, s.server.frame));
      }
    case ServerEvent(event) =>
      if !s.server.Ended? {
        ServerEvents(s, RunEvent(event));
      }
    case _ =>
      assert Step(s, a).forwarded == s.forwarded && Step(s, a).responses == s.responses;
  }

  /** Every event the server pushed was passed to the client's event channel or is
      still on its way, in order, whatever responses come between them. */
  lemma {:induction false} EventsConserved<M, R>(actions: seq<Action<M, R>>)
    ensures Exec(actions).forwarded + Events(Exec(actions).responses) == Pushed(actions)
    decreases |actions|
  {
    if actions != [] {
      EventsConserved(actions[..|actions| - 1]);
      EventStep(Exec(actions[..|actions| - 1]), actions[|actions| - 1]);
    }
  }
}
