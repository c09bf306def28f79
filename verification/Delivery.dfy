/** The event pipeline of one run: its journal, its lossy broadcast channel, and
    any number of attachments whose forwarders recover from a lag by attaching
    to the journal again.

    The state is a value and every lock-protected operation or forwarder turn is
    one atomic `Action`; `Exec` runs any interleaving of them. An action that is
    not possible in a state leaves it alone, so the theorems range over every
    sequence of actions. */
module Delivery {
  import opened Broadcast
  import opened RunJournal

  /** On the Unix transport the connection writes the replay before it spawns the
      forwarder. On the WebSocket the replay travels in the response, which goes
      out at some point after the forwarder has started. The WebSocket forwarder
      also checks the sequence of every event replayed during a recovery. */
  datatype Transport = Unix | Web

  datatype Why = Aborted | Refused | CursorExpired | ChannelClosed

  /** What a forwarder does next: send the rest of a replay, receive live
      events, attach again after a lag, or nothing any more. */
  datatype Phase<E> =
    | Replaying(queue: seq<Sequenced<E>>)
    | Receiving
    | Recovering
    | Stopped(why: Why)

  /** One attachment. `after` is the cursor it was opened with, `last` the
      forwarder's last sequence, `next` its receiver's channel position, and
      `held` the number of receivers it keeps alive (two while a recovery
      replays). The rest is history: `offset` is sequence minus channel position
      when the receiver subscribed, and `delivered` what the attachment gives its
      client, in the order it is taken from the log. The first `replayed` of it
      travel in the response; `answered` is whether that was sent, `early` how
      many notifications went before it, and `wire` the order on the wire. */
  datatype Attachment<E> = Attachment(
    transport: Transport, after: nat, last: nat, next: nat, held: nat,
    phase: Phase<E>, offset: nat, delivered: seq<Sequenced<E>>,
    replayed: nat, answered: bool, early: nat, wire: seq<Sequenced<E>>)

  /** `log` (every event published) and `sent` (every event the channel
      accepted) are history. */
  datatype Pipe<E> = Pipe(
    journal: Journal<E>, ring: Ring<Sequenced<E>>, attachments: seq<Attachment<E>>,
    log: seq<E>, sent: seq<Sequenced<E>>)

  datatype Action<E> =
    | Publish(event: E)
    | Acknowledged(through: nat)
    | Attach(transport: Transport, after: nat)
    | Respond(id: nat)               // the response of a WebSocket subscription goes out
    | Turn(id: nat, accepted: bool)  // `accepted`: the sink takes what it is given
    | Abort(id: nat)

  /** The registry drops the receiver its channel is created with. */
  ghost function Init<E>(): Pipe<E> {
    Pipe(Empty(), Open(EVENT_CAPACITY).(receivers := 0), [], [], [])
  }

  function Held<E>(attachments: seq<Attachment<E>>): nat {
    if attachments == [] then 0
    else Held(attachments[..|attachments| - 1]) + attachments[|attachments| - 1].held
  }

  function Stop<E>(a: Attachment<E>, why: Why): Attachment<E> {
    a.(phase := Stopped(why), held := 0)
  }

  /** Hand one event to the client. The cursor moves first: a refused event is
      not delivered, and ends the forwarder. */
  function Offer<E>(a: Attachment<E>, e: Sequenced<E>, accepted: bool): Attachment<E> {
    if accepted then
      a.(last := e.sequence, delivered := a.delivered + [e], wire := a.wire + [e])
    else
      Stop(a.(last := e.sequence), Refused)
  }

  /** What the forwarder makes of one receive. */
  function OnReceive<E>(a: Attachment<E>, result: Recv<Sequenced<E>>, next: nat, accepted: bool): Attachment<E> {
    match result
    case Value(e) =>
      if e.sequence <= a.last then a.(next := next) else Offer(a.(next := next), e, accepted)
    case Lagged(_) => a.(next := next, phase := Recovering)
    case Closed => Stop(a, ChannelClosed)
    case Pending => a
  }

  /** One turn of a forwarder: its new state, given the journal and channel. */
  function Forward<E>(a: Attachment<E>, j: Journal<E>, ring: Ring<Sequenced<E>>, accepted: bool): Attachment<E> {
    match a.phase
    case Replaying(queue) =>
      if queue == [] then
        a.(phase := Receiving, held := 1)
      else if a.transport.Web? && a.held == 2 && queue[0].sequence <= a.last then
        a.(phase := Replaying(queue[1..]))
      else
        Offer(a.(phase := Replaying(queue[1..])), queue[0], accepted)
    case Receiving =>
      OnReceive(a, TakeFrom(ring, a.next).0, TakeFrom(ring, a.next).1, accepted)
    case Recovering =>
      (match ReplayFrom(j, a.last)
       case Expired(_, _) => Stop(a, CursorExpired)
       case Events(replay) =>
         a.(phase := Replaying(replay), held := 2, next := ring.Tail(), offset := OffsetOf(j, ring)))
    case Stopped(_) => a
  }

  function OffsetOf<E>(j: Journal<E>, ring: Ring<Sequenced<E>>): nat {
    if j.latest >= ring.Tail() then j.latest - ring.Tail() else 0
  }

  /** Replace attachment `id`; the channel's receiver count follows what the
      attachment holds. */
  ghost function Put<E>(s: Pipe<E>, id: nat, a: Attachment<E>): Pipe<E>
    requires id < |s.attachments|
  {
    var receivers := s.ring.receivers - s.attachments[id].held + a.held;
    s.(attachments := s.attachments[id := a],
       ring := s.ring.(receivers := if receivers >= 0 then receivers else 0))
  }

  /** Register a new attachment, with the receiver it subscribed. */
  ghost function Add<E>(s: Pipe<E>, a: Attachment<E>): Pipe<E> {
    s.(ring := s.ring.(receivers := s.ring.receivers + 1), attachments := s.attachments + [a])
  }

  /** A new attachment. The Unix one has its replay to send; the WebSocket one
      receives at once, from the end of the replay its response will carry. */
  function Opened<E>(j: Journal<E>, ring: Ring<Sequenced<E>>, transport: Transport, after: nat, replay: seq<Sequenced<E>>): Attachment<E> {
    match transport
    case Unix =>
      Attachment(Unix, after, after, ring.Tail(), 1, Replaying(replay), OffsetOf(j, ring), [], 0, true, 0, [])
    case Web =>
      var last := if replay == [] then after else replay[|replay| - 1].sequence;
      Attachment(Web, after, last, ring.Tail(), 1, Receiving, OffsetOf(j, ring), replay, |replay|, false, 0, [])
  }

  /** The response goes out. */
  function Answered<E>(a: Attachment<E>): Attachment<E> {
    if a.answered || a.replayed > |a.delivered| then a
    else a.(answered := true, early := |a.delivered| - a.replayed, wire := a.wire + a.delivered[..a.replayed])
  }

  ghost function Step<E>(s: Pipe<E>, action: Action<E>): Pipe<E> {
    match action
    case Publish(event) =>
      (var j := Append(s.journal, event);
       var e := Sequenced(j.latest, event);
       s.(journal := j, ring := SendTo(s.ring, e), log := s.log + [event], sent := Accepted(s.ring, s.sent, e)))
    case Acknowledged(through) =>
      s.(journal := Acknowledge(s.journal, through))
    case Attach(transport, after) =>
      (match ReplayFrom(s.journal, after)
       case Expired(_, _) => s
       case Events(replay) => Add(s, Opened(s.journal, s.ring, transport, after, replay)))
    case Respond(id) =>
      if id < |s.attachments| then Put(s, id, Answered(s.attachments[id])) else s
    case Turn(id, accepted) =>
      if id < |s.attachments| then
        Put(s, id, Forward(s.attachments[id], s.journal, s.ring, accepted))
      else s
    case Abort(id) =>
      if id < |s.attachments| && !s.attachments[id].phase.Stopped? then
        Put(s, id, Stop(s.attachments[id], Aborted))
      else s
  }

  /** Any interleaving, from any state. */
  ghost function Continue<E>(s: Pipe<E>, actions: seq<Action<E>>): Pipe<E> {
    if actions == [] then s
    else Step(Continue(s, actions[..|actions| - 1]), actions[|actions| - 1])
  }

  ghost function Exec<E>(actions: seq<Action<E>>): Pipe<E> {
    Continue(Init(), actions)
  }

  // ------------------------------------------------------------------
  // The invariant
  // ------------------------------------------------------------------

  ghost predicate WasDelivered<E>(delivered: seq<Sequenced<E>>, s: nat) {
    exists i :: 0 <= i < |delivered| && delivered[i].sequence == s
  }

  /** Every sequence after the cursor and up to `done` was delivered or has been
      acknowledged. */
  ghost predicate Covered<E>(after: nat, delivered: seq<Sequenced<E>>, done: nat, acked: nat) {
    forall s: nat :: after < s <= done ==> s <= acked || WasDelivered(delivered, s)
  }

  /** What was delivered is the run's real log, in strictly increasing order,
      beyond the cursor and not beyond the forwarder's last sequence. */
  ghost predicate Genuine<E>(after: nat, last: nat, delivered: seq<Sequenced<E>>, log: seq<E>) {
    && after <= last
    && (forall i :: 0 <= i < |delivered| ==>
          && after < delivered[i].sequence <= last
          && delivered[i].sequence <= |log|
          && delivered[i].event == log[delivered[i].sequence - 1])
    && (forall i, k :: 0 <= i < k < |delivered| ==> delivered[i].sequence < delivered[k].sequence)
  }

  /** The last delivered sequence, or the cursor. */
  ghost function Frontier<E>(after: nat, delivered: seq<Sequenced<E>>): nat {
    if delivered == [] then after else delivered[|delivered| - 1].sequence
  }

  ghost function Queue<E>(a: Attachment<E>): seq<Sequenced<E>> {
    if a.phase.Replaying? then a.phase.queue else []
  }

  /** How far the attachment has dealt with the log. */
  ghost function Done<E>(a: Attachment<E>): int {
    if a.phase.Recovering? then a.last else a.next + a.offset - |Queue(a)|
  }

  /** From subscription on, channel position and sequence differ by `offset`,
      and every unread channel entry is the log entry that difference names. */
  ghost predicate Tracks<E>(next: nat, offset: nat, log: seq<E>, sent: seq<Sequenced<E>>) {
    && next <= |sent|
    && |log| == |sent| + offset
    && forall q :: next <= q < |sent| ==> sent[q] == Sequenced(q + offset + 1, log[q + offset])
  }

  ghost predicate Live<E>(a: Attachment<E>, acked: nat, log: seq<E>, sent: seq<Sequenced<E>>) {
    && (a.held == 1 || (a.held == 2 && a.phase.Replaying?))
    && Tracks(a.next, a.offset, log, sent)
    && 0 <= Done(a)
    && (a.phase.Replaying? ==> a.phase.queue == Number(log, Done(a), a.next + a.offset))
    && Covered(a.after, a.delivered, Done(a), acked)
    && (a.last <= a.next + a.offset || a.last == a.after)
    && (Queue(a) != [] ==> a.last <= Done(a))
    && |Queue(a)| <= MAX_REPLAY_EVENTS
  }

  ghost predicate Sound<E>(a: Attachment<E>, acked: nat, log: seq<E>, sent: seq<Sequenced<E>>) {
    && Genuine(a.after, a.last, a.delivered, log)
    && Covered(a.after, a.delivered, Frontier(a.after, a.delivered), acked)
    && (if a.phase.Stopped? then a.held == 0 && a.phase.why != ChannelClosed else Live(a, acked, log, sent))
  }

  /** Journal and channel, apart from who is attached. */
  ghost predicate Base<E>(s: Pipe<E>) {
    && Represents(s.journal, s.log)
    && Holds(s.ring, s.sent)
    && s.ring.capacity == EVENT_CAPACITY
    && s.ring.senders == 1
    && |s.sent| <= |s.log|
  }

  ghost predicate AllSound<E>(attachments: seq<Attachment<E>>, acked: nat, log: seq<E>, sent: seq<Sequenced<E>>) {
    forall i :: 0 <= i < |attachments| ==> Sound(attachments[i], acked, log, sent)
  }

  ghost predicate Inv<E>(s: Pipe<E>) {
    && Base(s)
    && s.ring.receivers == Held(s.attachments)
    && AllSound(s.attachments, s.journal.acked, s.log, s.sent)
  }

  // ------------------------------------------------------------------
  // Every step keeps the invariant
  // ------------------------------------------------------------------

  lemma {:induction false} HeldUpdate<E>(attachments: seq<Attachment<E>>, i: nat, a: Attachment<E>)
    requires i < |attachments|
    ensures Held(attachments) >= attachments[i].held
    ensures Held(attachments[i := a]) == Held(attachments) - attachments[i].held + a.held
  {
    var n := |attachments| - 1;
    if i == n {
      assert attachments[i := a][..n] == attachments[..n];
    } else {
      assert attachments[i := a][..n] == attachments[..n][i := a];
      HeldUpdate(attachments[..n], i, a);
    }
  }

  lemma PublishTracks<E>(next: nat, offset: nat, log: seq<E>, sent: seq<Sequenced<E>>, event: E)
    requires Tracks(next, offset, log, sent)
    ensures Tracks(next, offset, log + [event], sent + [Sequenced(|log| + 1, event)])
  {
  }

  lemma NumberKept<E>(log: seq<E>, lo: nat, hi: nat, event: E)
    requires lo <= hi <= |log|
    ensures Number(log + [event], lo, hi) == Number(log, lo, hi)
  {
  }

  lemma GenuineKept<E>(after: nat, last: nat, delivered: seq<Sequenced<E>>, log: seq<E>, event: E)
    requires Genuine(after, last, delivered, log)
    ensures Genuine(after, last, delivered, log + [event])
  {
  }

  lemma PublishSound<E>(a: Attachment<E>, acked: nat, log: seq<E>, sent: seq<Sequenced<E>>, ring: Ring<Sequenced<E>>, event: E)
    requires Sound(a, acked, log, sent)
    requires a.held > 0 ==> ring.receivers > 0
    ensures Sound(a, acked, log + [event], Accepted(ring, sent, Sequenced(|log| + 1, event)))
  {
    GenuineKept(a.after, a.last, a.delivered, log, event);
    if !a.phase.Stopped? {
      PublishTracks(a.next, a.offset, log, sent, event);
      if a.phase.Replaying? {
        NumberKept(log, Done(a), a.next + a.offset, event);
      }
    }
  }

  lemma PublishAllSound<E>(s: Pipe<E>, event: E)
    requires s.ring.receivers == Held(s.attachments) && AllSound(s.attachments, s.journal.acked, s.log, s.sent)
    ensures AllSound(s.attachments, s.journal.acked, s.log + [event], Accepted(s.ring, s.sent, Sequenced(|s.log| + 1, event)))
  {
    var log, sent := s.log + [event], Accepted(s.ring, s.sent, Sequenced(|s.log| + 1, event));
    forall i | 0 <= i < |s.attachments| ensures Sound(s.attachments[i], s.journal.acked, log, sent) {
      HeldUpdate(s.attachments, i, s.attachments[i]);
      PublishSound(s.attachments[i], s.journal.acked, s.log, s.sent, s.ring, event);
    }
  }

  lemma PublishBase<E>(s: Pipe<E>, event: E)
    requires Base(s)
    ensures var t := Step(s, Publish(event));
            && Base(t) && t.attachments == s.attachments && t.ring.receivers == s.ring.receivers
            && t.journal.acked == s.journal.acked && t.log == s.log + [event]
            && t.sent == Accepted(s.ring, s.sent, Sequenced(|s.log| + 1, event))
  {
    AppendRepresents(s.journal, s.log, event);
    SendHolds(s.ring, s.sent, Sequenced(|s.log| + 1, event));
  }

  lemma PublishInv<E>(s: Pipe<E>, event: E)
    requires Inv(s)
    ensures Inv(Step(s, Publish(event)))
  {
    PublishBase(s, event);
    PublishAllSound(s, event);
  }

  lemma AcknowledgedAllSound<E>(attachments: seq<Attachment<E>>, acked: nat, acked': nat, log: seq<E>, sent: seq<Sequenced<E>>)
    requires AllSound(attachments, acked, log, sent) && acked <= acked'
    ensures AllSound(attachments, acked', log, sent)
  {
    forall i | 0 <= i < |attachments| ensures Sound(attachments[i], acked', log, sent) {
      assert Sound(attachments[i], acked, log, sent);
    }
  }

  lemma AcknowledgedInv<E>(s: Pipe<E>, through: nat)
    requires Inv(s)
    ensures Inv(Step(s, Acknowledged(through)))
  {
    AcknowledgeRepresents(s.journal, s.log, through);
    AcknowledgedAllSound(s.attachments, s.journal.acked, Acknowledge(s.journal, through).acked, s.log, s.sent);
  }

  /** A replay taken at one point with the subscription: nothing lies between
      the replay and the live stream, nothing is in both, and what the replay
      leaves out after `from` is acknowledged. */
  lemma ReplayJoinsLive<E>(a: Attachment<E>, j: Journal<E>, ring: Ring<Sequenced<E>>, from: nat, log: seq<E>, sent: seq<Sequenced<E>>)
    requires Represents(j, log) && Holds(ring, sent) && |sent| <= |log| && from >= j.floor
    requires a.phase == Replaying(ReplayFrom(j, from).events)
    requires a.next == ring.Tail() && a.offset == OffsetOf(j, ring) && (a.held == 1 || a.held == 2)
    requires a.last == from && (from <= |log| || from == a.after)
    requires Covered(a.after, a.delivered, from, j.acked)
    ensures Live(a, j.acked, log, sent)
  {
    ReplayExact(j, log, from);
    assert a.next + a.offset == |log|;
    assert Done(a) == Min(Max(from, j.acked), |log|);
  }

  lemma HandedSound<E>(after: nat, acked: nat, last: nat, delivered: seq<Sequenced<E>>, log: seq<E>)
    requires acked <= |log| && delivered == Number(log, Min(Max(after, acked), |log|), |log|)
    requires last == if delivered == [] then after else |log|
    ensures Genuine(after, last, delivered, log) && Covered(after, delivered, |log|, acked)
    ensures Frontier(after, delivered) == last
  {
    var lo := Min(Max(after, acked), |log|);
    forall q: nat | lo < q <= |log| ensures WasDelivered(delivered, q) {
      assert delivered[q - lo - 1].sequence == q;
    }
  }

  /** The same when the whole replay is handed over at once. */
  lemma ReplayHandedOver<E>(j: Journal<E>, ring: Ring<Sequenced<E>>, after: nat, a: Attachment<E>, log: seq<E>, sent: seq<Sequenced<E>>)
    requires Represents(j, log) && Holds(ring, sent) && |sent| <= |log| && after >= j.floor
    requires a == Opened(j, ring, Web, after, ReplayFrom(j, after).events)
    ensures Sound(a, j.acked, log, sent)
  {
    ReplayExact(j, log, after);
    HandedSound(after, j.acked, a.last, a.delivered, log);
    assert a.next + a.offset == |log| && Done(a) == |log|;
  }

  lemma OpenedUnixSound<E>(j: Journal<E>, ring: Ring<Sequenced<E>>, after: nat, log: seq<E>, sent: seq<Sequenced<E>>)
    requires Represents(j, log) && Holds(ring, sent) && |sent| <= |log| && after >= j.floor
    ensures Sound(Opened(j, ring, Unix, after, ReplayFrom(j, after).events), j.acked, log, sent)
  {
    ReplayJoinsLive(Opened(j, ring, Unix, after, ReplayFrom(j, after).events), j, ring, after, log, sent);
  }

  lemma AddHeld<E>(s: Pipe<E>, a: Attachment<E>)
    requires s.ring.receivers == Held(s.attachments) && a.held == 1
    ensures Add(s, a).ring.receivers == Held(s.attachments + [a]) && (Base(s) ==> Base(Add(s, a)))
  {
    assert (s.attachments + [a])[..|s.attachments|] == s.attachments;
  }

  lemma AddInv<E>(s: Pipe<E>, a: Attachment<E>)
    requires Inv(s) && a.held == 1
    requires Sound(a, s.journal.acked, s.log, s.sent)
    ensures Inv(Add(s, a))
  {
    AddHeld(s, a);
    AllSoundAppend(s.attachments, a, s.journal.acked, s.log, s.sent);
  }

  lemma AllSoundAppend<E>(attachments: seq<Attachment<E>>, a: Attachment<E>, acked: nat, log: seq<E>, sent: seq<Sequenced<E>>)
    requires AllSound(attachments, acked, log, sent) && Sound(a, acked, log, sent)
    ensures AllSound(attachments + [a], acked, log, sent)
  {
    var more := attachments + [a];
    forall i | 0 <= i < |more| ensures Sound(more[i], acked, log, sent) {
      assert i < |attachments| ==> Sound(attachments[i], acked, log, sent);
    }
  }

  lemma AllSoundUpdate<E>(attachments: seq<Attachment<E>>, id: nat, a: Attachment<E>, acked: nat, log: seq<E>, sent: seq<Sequenced<E>>)
    requires AllSound(attachments, acked, log, sent) && Sound(a, acked, log, sent) && id < |attachments|
    ensures AllSound(attachments[id := a], acked, log, sent)
  {
    var updated := attachments[id := a];
    forall i | 0 <= i < |updated| ensures Sound(updated[i], acked, log, sent) {
      assert i != id ==> Sound(attachments[i], acked, log, sent);
    }
  }

  lemma AttachInv<E>(s: Pipe<E>, transport: Transport, after: nat)
    requires Inv(s)
    ensures Inv(Step(s, Attach(transport, after)))
  {
    if after >= s.journal.floor {
      var a := Opened(s.journal, s.ring, transport, after, ReplayFrom(s.journal, after).events);
      if transport.Unix? {
        OpenedUnixSound(s.journal, s.ring, after, s.log, s.sent);
      } else {
        ReplayHandedOver(s.journal, s.ring, after, a, s.log, s.sent);
      }
      AddInv(s, a);
    }
  }

  lemma DeliveredGrows<E>(delivered: seq<Sequenced<E>>, e: Sequenced<E>)
    ensures WasDelivered(delivered + [e], e.sequence)
    ensures forall s: nat :: WasDelivered(delivered, s) ==> WasDelivered(delivered + [e], s)
  {
    assert (delivered + [e])[|delivered|] == e;
    forall s: nat | WasDelivered(delivered, s) ensures WasDelivered(delivered + [e], s) {
      var i :| 0 <= i < |delivered| && delivered[i].sequence == s;
      assert (delivered + [e])[i].sequence == s;
    }
  }

  /** Offering the next undealt event keeps what was delivered genuine and
      leaves no gap behind. */
  lemma OfferSound<E>(a: Attachment<E>, e: Sequenced<E>, accepted: bool, acked: nat, log: seq<E>)
    requires Genuine(a.after, a.last, a.delivered, log) && Covered(a.after, a.delivered, Frontier(a.after, a.delivered), acked)
    requires a.last < e.sequence <= |log| && e.event == log[e.sequence - 1]
    requires Covered(a.after, a.delivered, e.sequence - 1, acked)
    ensures var b := Offer(a, e, accepted);
            && Genuine(b.after, b.last, b.delivered, log)
            && Covered(b.after, b.delivered, Frontier(b.after, b.delivered), acked)
            && (accepted ==> Covered(b.after, b.delivered, e.sequence, acked))
  {
    DeliveredGrows(a.delivered, e);
  }

  /** Taking the head of the queue: the rest is the log from one later on. */
  lemma QueueTail<E>(a: Attachment<E>, acked: nat, log: seq<E>, sent: seq<Sequenced<E>>)
    requires Live(a, acked, log, sent) && Queue(a) != []
    ensures Queue(a)[0] == Sequenced(Done(a) + 1, log[Done(a)])
    ensures Queue(a)[1..] == Number(log, Done(a) + 1, a.next + a.offset)
  {
  }

  /** The head of the queue is taken. */
  lemma QueuedLive<E>(a: Attachment<E>, acked: nat, log: seq<E>, sent: seq<Sequenced<E>>)
    requires Live(a, acked, log, sent) && Queue(a) != []
    ensures var e := Queue(a)[0]; var b := Offer(a.(phase := Replaying(Queue(a)[1..])), e, true);
            Covered(b.after, b.delivered, e.sequence, acked) ==> Live(b, acked, log, sent)
  {
    QueueTail(a, acked, log, sent);
  }

  lemma QueuedOfferSound<E>(a: Attachment<E>, accepted: bool, acked: nat, log: seq<E>, sent: seq<Sequenced<E>>)
    requires Sound(a, acked, log, sent) && Queue(a) != []
    ensures a.last < Queue(a)[0].sequence
    ensures Sound(Offer(a.(phase := Replaying(Queue(a)[1..])), Queue(a)[0], accepted), acked, log, sent)
  {
    QueueTail(a, acked, log, sent);
    OfferSound(a.(phase := Replaying(Queue(a)[1..])), Queue(a)[0], accepted, acked, log);
    if accepted {
      QueuedLive(a, acked, log, sent);
    }
  }

  lemma ReplayTurnSound<E>(a: Attachment<E>, j: Journal<E>, ring: Ring<Sequenced<E>>, accepted: bool, log: seq<E>, sent: seq<Sequenced<E>>)
    requires Sound(a, j.acked, log, sent) && a.phase.Replaying?
    ensures Sound(Forward(a, j, ring, accepted), j.acked, log, sent)
  {
    if a.phase.queue != [] {
      QueuedOfferSound(a, accepted, j.acked, log, sent);
    }
  }

  /** Receiving the next live event: it is the first one not yet dealt with. */
  lemma ValueTurnSound<E>(a: Attachment<E>, e: Sequenced<E>, accepted: bool, acked: nat, log: seq<E>, sent: seq<Sequenced<E>>)
    requires Sound(a, acked, log, sent) && a.phase.Receiving?
    requires a.next < |sent| && e == sent[a.next]
    ensures e.sequence <= a.last ==> Sound(a.(next := a.next + 1), acked, log, sent)
    ensures e.sequence > a.last ==> Sound(Offer(a.(next := a.next + 1), e, accepted), acked, log, sent)
  {
    assert e.sequence == Done(a) + 1;
    var moved := a.(next := a.next + 1);
    assert Tracks(moved.next, moved.offset, log, sent);
    if e.sequence > a.last {
      OfferSound(moved, e, accepted, acked, log);
    } else {
      assert a.last == a.after;
      assert Covered(moved.after, moved.delivered, Done(moved), acked);
    }
  }

  lemma LagTurnSound<E>(a: Attachment<E>, next: nat, acked: nat, log: seq<E>, sent: seq<Sequenced<E>>)
    requires Sound(a, acked, log, sent) && a.phase.Receiving?
    requires a.next <= next <= |sent|
    ensures Sound(a.(next := next, phase := Recovering), acked, log, sent)
  {
    var lagged := a.(next := next, phase := Recovering);
    assert Tracks(lagged.next, lagged.offset, log, sent);
    assert Covered(lagged.after, lagged.delivered, a.last, acked);
  }

  lemma OnReceiveSound<E>(a: Attachment<E>, result: Recv<Sequenced<E>>, next: nat, accepted: bool, acked: nat, log: seq<E>, sent: seq<Sequenced<E>>)
    requires Sound(a, acked, log, sent) && a.phase.Receiving?
    requires (result, next) == Observe(EVENT_CAPACITY, sent, 1, a.next)
    ensures Sound(OnReceive(a, result, next, accepted), acked, log, sent)
  {
    if result.Value? {
      ValueTurnSound(a, result.value, accepted, acked, log, sent);
    } else if result.Lagged? {
      LagTurnSound(a, next, acked, log, sent);
    }
  }

  lemma ReceiveTurnSound<E>(a: Attachment<E>, j: Journal<E>, ring: Ring<Sequenced<E>>, accepted: bool, log: seq<E>, sent: seq<Sequenced<E>>)
    requires Sound(a, j.acked, log, sent) && a.phase.Receiving?
    requires Holds(ring, sent) && ring.senders == 1 && ring.capacity == EVENT_CAPACITY
    ensures Sound(Forward(a, j, ring, accepted), j.acked, log, sent)
  {
    TakeRefines(ring, sent, a.next);
    var (result, next) := Observe(EVENT_CAPACITY, sent, 1, a.next);
    OnReceiveSound(a, result, next, accepted, j.acked, log, sent);
  }

  lemma RecoverTurnSound<E>(a: Attachment<E>, j: Journal<E>, ring: Ring<Sequenced<E>>, accepted: bool, log: seq<E>, sent: seq<Sequenced<E>>)
    requires Sound(a, j.acked, log, sent) && a.phase.Recovering?
    requires Represents(j, log) && Holds(ring, sent) && |sent| <= |log|
    ensures Sound(Forward(a, j, ring, accepted), j.acked, log, sent)
  {
    if a.last >= j.floor {
      ReplayJoinsLive(Forward(a, j, ring, accepted), j, ring, a.last, log, sent);
    }
  }

  lemma ForwardSound<E>(a: Attachment<E>, s: Pipe<E>, accepted: bool)
    requires Base(s) && Sound(a, s.journal.acked, s.log, s.sent)
    ensures Sound(Forward(a, s.journal, s.ring, accepted), s.journal.acked, s.log, s.sent)
  {
    match a.phase
    case Replaying(_) => ReplayTurnSound(a, s.journal, s.ring, accepted, s.log, s.sent);
    case Receiving => ReceiveTurnSound(a, s.journal, s.ring, accepted, s.log, s.sent);
    case Recovering => RecoverTurnSound(a, s.journal, s.ring, accepted, s.log, s.sent);
    case Stopped(_) =>
  }

  lemma PutHeld<E>(s: Pipe<E>, id: nat, a: Attachment<E>)
    requires s.ring.receivers == Held(s.attachments) && id < |s.attachments|
    ensures Put(s, id, a).ring.receivers == Held(s.attachments[id := a]) && (Base(s) ==> Base(Put(s, id, a)))
  {
    HeldUpdate(s.attachments, id, a);
  }

  lemma PutInv<E>(s: Pipe<E>, id: nat, a: Attachment<E>)
    requires Inv(s) && id < |s.attachments|
    requires Sound(a, s.journal.acked, s.log, s.sent)
    ensures Inv(Put(s, id, a))
  {
    PutHeld(s, id, a);
    AllSoundUpdate(s.attachments, id, a, s.journal.acked, s.log, s.sent);
  }

  lemma TurnPuts<E>(s: Pipe<E>, id: nat, accepted: bool)
    ensures Step(s, Turn(id, accepted))
         == if id < |s.attachments| then Put(s, id, Forward(s.attachments[id], s.journal, s.ring, accepted)) else s
  {
  }

  lemma TurnInv<E>(s: Pipe<E>, id: nat, accepted: bool)
    requires Inv(s)
    ensures Inv(Step(s, Turn(id, accepted)))
  {
    TurnPuts(s, id, accepted);
    if id < |s.attachments| {
      var a := Forward(s.attachments[id], s.journal, s.ring, accepted);
      ForwardSound(s.attachments[id], s, accepted);
      PutInv(s, id, a);
    }
  }

  lemma StopSound<E>(a: Attachment<E>, why: Why, acked: nat, log: seq<E>, sent: seq<Sequenced<E>>)
    requires Genuine(a.after, a.last, a.delivered, log) && Covered(a.after, a.delivered, Frontier(a.after, a.delivered), acked) && !why.ChannelClosed?
    ensures Sound(Stop(a, why), acked, log, sent)
  {
  }

  lemma AbortPuts<E>(s: Pipe<E>, id: nat)
    ensures Step(s, Abort(id))
         == if id < |s.attachments| && !s.attachments[id].phase.Stopped? then Put(s, id, Stop(s.attachments[id], Aborted)) else s
  {
  }

  lemma AbortInv<E>(s: Pipe<E>, id: nat)
    requires Inv(s)
    ensures Inv(Step(s, Abort(id)))
  {
    AbortPuts(s, id);
    if id < |s.attachments| && !s.attachments[id].phase.Stopped? {
      assert Sound(s.attachments[id], s.journal.acked, s.log, s.sent);
      StopSound(s.attachments[id], Aborted, s.journal.acked, s.log, s.sent);
      PutInv(s, id, Stop(s.attachments[id], Aborted));
    }
  }

  lemma AnsweredSound<E>(a: Attachment<E>, acked: nat, log: seq<E>, sent: seq<Sequenced<E>>)
    requires Sound(a, acked, log, sent)
    ensures Sound(Answered(a), acked, log, sent)
  {
    var b := Answered(a);
    assert b == a.(answered := b.answered, early := b.early, wire := b.wire);
    assert Queue(b) == Queue(a) && Done(b) == Done(a);
  }

  lemma RespondInv<E>(s: Pipe<E>, id: nat)
    requires Inv(s)
    ensures Inv(Step(s, Respond(id)))
  {
    if id < |s.attachments| {
      AnsweredSound(s.attachments[id], s.journal.acked, s.log, s.sent);
      PutInv(s, id, Answered(s.attachments[id]));
    }
  }

  lemma StepInv<E>(s: Pipe<E>, action: Action<E>)
    requires Inv(s)
    ensures Inv(Step(s, action))
  {
    match action
    case Publish(event) => PublishInv(s, event);
    case Acknowledged(through) => AcknowledgedInv(s, through);
    case Attach(transport, after) => AttachInv(s, transport, after);
    case Respond(id) => RespondInv(s, id);
    case Turn(id, accepted) => TurnInv(s, id, accepted);
    case Abort(id) => AbortInv(s, id);
  }

  lemma {:induction false} ContinueInv<E>(s: Pipe<E>, actions: seq<Action<E>>)
    requires Inv(s)
    ensures Inv(Continue(s, actions))
    decreases |actions|
  {
    if actions != [] {
      ContinueInv(s, actions[..|actions| - 1]);
      StepInv(Continue(s, actions[..|actions| - 1]), actions[|actions| - 1]);
    }
  }

  lemma ExecInv<E>(actions: seq<Action<E>>)
    ensures Inv(Exec(actions))
  {
    EmptyRepresents<E>();
    ContinueInv(Init(), actions);
  }

  // ------------------------------------------------------------------
  // Delivery
  // ------------------------------------------------------------------

  /** The end-to-end claim. Under every interleaving of publishes,
      acknowledgements, lags, recoveries and drops, what an attachment delivered
      is the run's real log in strictly increasing sequence, and every sequence
      it skipped was acknowledged. */
  lemma DeliveredStream<E>(actions: seq<Action<E>>, id: nat)
    requires id < |Exec(actions).attachments|
    ensures var s := Exec(actions); var a := s.attachments[id];
            && (forall i :: 0 <= i < |a.delivered| ==>
                  && a.after < a.delivered[i].sequence <= |s.log|
                  && a.delivered[i].event == s.log[a.delivered[i].sequence - 1])
            && (forall i, k :: 0 <= i < k < |a.delivered| ==> a.delivered[i].sequence < a.delivered[k].sequence)
            && (forall q: nat :: a.after < q <= Frontier(a.after, a.delivered) && !WasDelivered(a.delivered, q) ==> q <= s.journal.acked)
  {
    ExecInv(actions);
  }

  ghost predicate Contiguous<E>(after: nat, delivered: seq<Sequenced<E>>) {
    forall i :: 0 <= i < |delivered| ==> delivered[i].sequence == after + 1 + i
  }

  /** This action attaches `id`, or attaches it again after a lag, at a cursor
      below the acknowledged sequence. */
  ghost predicate SkipsAhead<E>(s: Pipe<E>, action: Action<E>, id: nat) {
    || (action.Attach? && id == |s.attachments| && s.journal.floor <= action.after < s.journal.acked)
    || (action.Turn? && action.id == id < |s.attachments| && s.attachments[id].phase.Recovering?
        && s.journal.floor <= s.attachments[id].last < s.journal.acked)
  }

  ghost function Delivered<E>(s: Pipe<E>, id: nat): nat {
    if id < |s.attachments| then |s.attachments[id].delivered| else 0
  }

  ghost function NewSkip<E>(s: Pipe<E>, action: Action<E>, id: nat): seq<nat> {
    if SkipsAhead(s, action, id) then [Delivered(s, id)] else []
  }

  /** How much `id` had delivered at each such action. */
  ghost function Skips<E>(actions: seq<Action<E>>, id: nat): seq<nat> {
    if actions == [] then []
    else
      var s, action := Exec(actions[..|actions| - 1]), actions[|actions| - 1];
      Skips(actions[..|actions| - 1], id) + NewSkip(s, action, id)
  }

  /** None of these was followed by a delivery. */
  ghost predicate Unfollowed(skips: seq<nat>, delivered: nat) {
    forall i :: 0 <= i < |skips| ==> skips[i] == delivered
  }

  /** The stream is contiguous so far if and only if it delivered nothing after a
      skip; and then a gap lies ahead if and only if there was a skip. */
  ghost predicate GapLaw<E>(a: Attachment<E>, acked: nat, skips: seq<nat>) {
    && (!a.phase.Stopped? ==> a.last == Frontier(a.after, a.delivered))
    && (forall i :: 0 <= i < |skips| ==> skips[i] <= |a.delivered|)
    && (Contiguous(a.after, a.delivered) <==> Unfollowed(skips, |a.delivered|))
    && (Contiguous(a.after, a.delivered) && !a.phase.Stopped? && !a.phase.Recovering? ==> (Done(a) > a.last <==> skips != []))
    && (Contiguous(a.after, a.delivered) && a.phase.Recovering? && skips != [] ==> a.last < acked)
  }

  lemma HandedOverGaps<E>(a: Attachment<E>, log: seq<E>, lo: nat)
    requires lo <= |log| && a.delivered == Number(log, lo, |log|)
    ensures Contiguous(a.after, a.delivered) <==> lo == |log| || lo == a.after
  {
    if lo < |log| {
      assert a.delivered[0].sequence == lo + 1;
    }
  }

  lemma WebGaps<E>(a: Attachment<E>, acked: nat, log: seq<E>)
    requires a.delivered == Number(log, Min(Max(a.after, acked), |log|), |log|) && acked <= |log|
    requires a.phase.Receiving? && Done(a) == |log| && a.last == (if a.delivered == [] then a.after else |log|)
    ensures GapLaw(a, acked, if a.after < acked then [0] else [])
  {
    var lo, skips := Min(Max(a.after, acked), |log|), if a.after < acked then [0] else [];
    HandedOverGaps(a, log, lo);
    assert a.delivered != [] ==> Frontier(a.after, a.delivered) == |log|;
    assert a.after < acked ==> skips[0] == 0;
  }

  lemma UnixGaps<E>(a: Attachment<E>, acked: nat, latest: nat)
    requires a.delivered == [] && acked <= latest
    requires a.phase.Replaying? && Done(a) == Min(Max(a.after, acked), latest) && a.last == a.after
    ensures GapLaw(a, acked, if a.after < acked then [0] else [])
  {
    assert Contiguous(a.after, a.delivered);
  }

  lemma OpenedGaps<E>(s: Pipe<E>, transport: Transport, after: nat)
    requires Represents(s.journal, s.log) && Holds(s.ring, s.sent) && |s.sent| <= |s.log|
    requires after >= s.journal.floor
    ensures GapLaw(Opened(s.journal, s.ring, transport, after, ReplayFrom(s.journal, after).events), s.journal.acked,
                   if after < s.journal.acked then [0] else [])
  {
    ReplayExact(s.journal, s.log, after);
    var a := Opened(s.journal, s.ring, transport, after, ReplayFrom(s.journal, after).events);
    match transport
    case Unix => UnixGaps(a, s.journal.acked, |s.log|);
    case Web => WebGaps(a, s.journal.acked, s.log);
  }

  /** Delivering the first event that was not yet dealt with. */
  lemma OfferGaps<E>(a: Attachment<E>, b: Attachment<E>, e: Sequenced<E>, accepted: bool, acked: nat, skips: seq<nat>, log: seq<E>)
    requires GapLaw(a, acked, skips) && Genuine(a.after, a.last, a.delivered, log)
    requires !a.phase.Stopped? && !a.phase.Recovering? && e.sequence == Done(a) + 1 > a.last
    requires b == a.(phase := b.phase, next := b.next) && !b.phase.Stopped? && !b.phase.Recovering?
    requires Done(b) == e.sequence
    ensures GapLaw(Offer(b, e, accepted), acked, skips)
  {
    var c, n := Offer(b, e, accepted), |a.delivered|;
    if accepted {
      assert c.delivered[n] == e && c.delivered[..n] == a.delivered;
      assert forall i :: 0 <= i < n ==> c.delivered[i] == a.delivered[i];
      assert Contiguous(a.after, a.delivered) ==> a.last == a.after + n;
      assert Contiguous(c.after, c.delivered) <==> Contiguous(a.after, a.delivered) && e.sequence == a.after + 1 + n;
      assert Contiguous(c.after, c.delivered) <==> skips == [];
      assert skips != [] ==> skips[0] != n + 1;
    }
  }

  lemma ReplayTurnGaps<E>(a: Attachment<E>, j: Journal<E>, ring: Ring<Sequenced<E>>, accepted: bool, log: seq<E>, sent: seq<Sequenced<E>>, skips: seq<nat>)
    requires Sound(a, j.acked, log, sent) && a.phase.Replaying? && GapLaw(a, j.acked, skips)
    ensures GapLaw(Forward(a, j, ring, accepted), j.acked, skips)
  {
    if a.phase.queue != [] {
      QueueTail(a, j.acked, log, sent);
      OfferGaps(a, a.(phase := Replaying(Queue(a)[1..])), a.phase.queue[0], accepted, j.acked, skips, log);
    }
  }

  lemma LagTurnGaps<E>(a: Attachment<E>, next: nat, acked: nat, log: seq<E>, sent: seq<Sequenced<E>>, skips: seq<nat>)
    requires Sound(a, acked, log, sent) && a.phase.Receiving? && GapLaw(a, acked, skips)
    ensures GapLaw(a.(next := next, phase := Recovering), acked, skips)
  {
    if Contiguous(a.after, a.delivered) && skips != [] {
      assert !WasDelivered(a.delivered, a.last + 1);
      assert a.last + 1 <= acked;
    }
  }

  lemma ReceiveTurnGaps<E>(a: Attachment<E>, j: Journal<E>, ring: Ring<Sequenced<E>>, accepted: bool, log: seq<E>, sent: seq<Sequenced<E>>, skips: seq<nat>)
    requires Sound(a, j.acked, log, sent) && a.phase.Receiving? && GapLaw(a, j.acked, skips)
    requires Holds(ring, sent) && ring.senders == 1 && ring.capacity == EVENT_CAPACITY
    ensures GapLaw(Forward(a, j, ring, accepted), j.acked, skips)
  {
    TakeRefines(ring, sent, a.next);
    var (result, next) := Observe(EVENT_CAPACITY, sent, 1, a.next);
    if result.Value? {
      assert result.value.sequence == Done(a) + 1;
      if result.value.sequence > a.last {
        OfferGaps(a, a.(next := next), result.value, accepted, j.acked, skips, log);
      }
    } else if result.Lagged? {
      LagTurnGaps(a, next, j.acked, log, sent, skips);
    }
  }

  lemma RecoveredGaps<E>(a: Attachment<E>, b: Attachment<E>, acked: nat, latest: nat, skips: seq<nat>)
    requires GapLaw(a, acked, skips) && a.phase.Recovering? && acked <= latest
    requires b.after == a.after && b.delivered == a.delivered && b.last == a.last
    requires b.phase.Replaying? && Done(b) == Min(Max(a.last, acked), latest)
    ensures GapLaw(b, acked, skips + if a.last < acked then [|a.delivered|] else [])
  {
    if a.last < acked {
      var n := |skips|;
      assert (skips + [|a.delivered|])[..n] == skips && (skips + [|a.delivered|])[n] == |a.delivered|;
      assert forall i :: 0 <= i < n ==> (skips + [|a.delivered|])[i] == skips[i];
    } else {
      assert skips + [] == skips;
    }
  }

  lemma RecoverTurnGaps<E>(a: Attachment<E>, j: Journal<E>, ring: Ring<Sequenced<E>>, accepted: bool, log: seq<E>, sent: seq<Sequenced<E>>, skips: seq<nat>)
    requires a.phase.Recovering? && GapLaw(a, j.acked, skips)
    requires Represents(j, log) && Holds(ring, sent) && |sent| <= |log|
    ensures GapLaw(Forward(a, j, ring, accepted), j.acked,
                   skips + if j.floor <= a.last < j.acked then [|a.delivered|] else [])
  {
    if a.last >= j.floor {
      ReplayExact(j, log, a.last);
      var b := Forward(a, j, ring, accepted);
      assert b.next + b.offset == |log|;
      RecoveredGaps(a, b, j.acked, |log|, skips);
    } else {
      assert skips + [] == skips;
    }
  }

  lemma ForwardGaps<E>(a: Attachment<E>, s: Pipe<E>, accepted: bool, skips: seq<nat>)
    requires Base(s) && Sound(a, s.journal.acked, s.log, s.sent) && GapLaw(a, s.journal.acked, skips)
    ensures GapLaw(Forward(a, s.journal, s.ring, accepted), s.journal.acked,
                   skips + if a.phase.Recovering? && s.journal.floor <= a.last < s.journal.acked then [|a.delivered|] else [])
  {
    if a.phase.Recovering? {
      RecoverTurnGaps(a, s.journal, s.ring, accepted, s.log, s.sent, skips);
    } else {
      assert skips + [] == skips;
      match a.phase
      case Replaying(_) => ReplayTurnGaps(a, s.journal, s.ring, accepted, s.log, s.sent, skips);
      case Receiving => ReceiveTurnGaps(a, s.journal, s.ring, accepted, s.log, s.sent, skips);
      case Stopped(_) =>
    }
  }

  lemma GapsKept<E>(a: Attachment<E>, b: Attachment<E>, acked: nat, acked': nat, skips: seq<nat>)
    requires GapLaw(a, acked, skips) && acked <= acked'
    requires b == a.(answered := b.answered, early := b.early, wire := b.wire)
             || (b.phase.Stopped? && b.delivered == a.delivered && b.after == a.after)
    ensures GapLaw(b, acked', skips)
  {
  }

  /** What another action does to an attachment: it may stop it, or answer. */
  lemma StepElsewhere<E>(s: Pipe<E>, action: Action<E>, id: nat)
    requires id < |s.attachments| && !(action.Turn? && action.id == id)
    ensures var a := s.attachments[id];
            && id < |Step(s, action).attachments|
            && var b := Step(s, action).attachments[id];
               b == a.(answered := b.answered, early := b.early, wire := b.wire)
               || (b.phase.Stopped? && b.delivered == a.delivered && b.after == a.after)
    ensures !SkipsAhead(s, action, id)
  {
  }

  ghost predicate Gapless<E>(s: Pipe<E>, id: nat, skips: seq<nat>) {
    if id < |s.attachments| then GapLaw(s.attachments[id], s.journal.acked, skips) else skips == []
  }

  lemma AttachGaps<E>(s: Pipe<E>, transport: Transport, after: nat)
    requires Represents(s.journal, s.log) && Holds(s.ring, s.sent) && |s.sent| <= |s.log|
    requires after >= s.journal.floor
    ensures Gapless(Step(s, Attach(transport, after)), |s.attachments|, if after < s.journal.acked then [0] else [])
  {
    OpenedGaps(s, transport, after);
  }

  lemma StaysAbsent<E>(s: Pipe<E>, action: Action<E>, id: nat)
    requires id >= |s.attachments|
    requires !(action.Attach? && action.after >= s.journal.floor && id == |s.attachments|)
    ensures id >= |Step(s, action).attachments| && NewSkip(s, action, id) == []
  {
  }

  lemma NewGaps<E>(s: Pipe<E>, action: Action<E>, id: nat)
    requires Represents(s.journal, s.log) && Holds(s.ring, s.sent) && |s.sent| <= |s.log| && id >= |s.attachments|
    ensures Gapless(Step(s, action), id, [] + NewSkip(s, action, id))
  {
    assert [] + NewSkip(s, action, id) == NewSkip(s, action, id);
    if action.Attach? && action.after >= s.journal.floor && id == |s.attachments| {
      AttachGaps(s, action.transport, action.after);
    } else {
      StaysAbsent(s, action, id);
    }
  }

  lemma TurnIs<E>(s: Pipe<E>, id: nat, accepted: bool)
    requires id < |s.attachments|
    ensures var t := Step(s, Turn(id, accepted));
            && t.journal == s.journal && |t.attachments| == |s.attachments|
            && t.attachments[id] == Forward(s.attachments[id], s.journal, s.ring, accepted)
  {
  }

  lemma TurnGaps<E>(s: Pipe<E>, accepted: bool, id: nat, skips: seq<nat>)
    requires Base(s) && id < |s.attachments| && Sound(s.attachments[id], s.journal.acked, s.log, s.sent)
    requires GapLaw(s.attachments[id], s.journal.acked, skips)
    ensures Gapless(Step(s, Turn(id, accepted)), id, skips + NewSkip(s, Turn(id, accepted), id))
  {
    ForwardGaps(s.attachments[id], s, accepted, skips);
    TurnIs(s, id, accepted);
  }

  lemma ElsewhereGaps<E>(s: Pipe<E>, action: Action<E>, id: nat, skips: seq<nat>)
    requires Represents(s.journal, s.log) && id < |s.attachments| && !(action.Turn? && action.id == id)
    requires GapLaw(s.attachments[id], s.journal.acked, skips)
    ensures Gapless(Step(s, action), id, skips + NewSkip(s, action, id))
  {
    StepElsewhere(s, action, id);
    assert skips + NewSkip(s, action, id) == skips;
    JournalStep(s, action);
    GapsKept(s.attachments[id], Step(s, action).attachments[id], s.journal.acked, Step(s, action).journal.acked, skips);
  }

  lemma StepGaps<E>(s: Pipe<E>, action: Action<E>, id: nat, skips: seq<nat>)
    requires Inv(s) && Gapless(s, id, skips)
    ensures Gapless(Step(s, action), id, skips + NewSkip(s, action, id))
  {
    if id >= |s.attachments| {
      NewGaps(s, action, id);
    } else if action.Turn? && action.id == id {
      TurnGaps(s, action.accepted, id, skips);
    } else {
      ElsewhereGaps(s, action, id, skips);
    }
  }

  lemma {:induction false} ExecGaps<E>(actions: seq<Action<E>>, id: nat)
    ensures Gapless(Exec(actions), id, Skips(actions, id))
    decreases |actions|
  {
    if actions != [] {
      var before := actions[..|actions| - 1];
      ExecGaps(before, id);
      ExecInv(before);
      StepGaps(Exec(before), actions[|actions| - 1], id, Skips(before, id));
    }
  }

  /** Gap freedom, exactly. A stream is contiguous from its cursor if and only if
      no attach and no recovery of it that was at a cursor below the acknowledged
      sequence was followed by a delivery. */
  lemma ContiguousExactly<E>(actions: seq<Action<E>>, id: nat)
    requires id < |Exec(actions).attachments|
    ensures var a := Exec(actions).attachments[id];
            Contiguous(a.after, a.delivered) <==> Unfollowed(Skips(actions, id), |a.delivered|)
  {
    ExecGaps(actions, id);
  }

  /** What `id` has reached: what it delivered, or the cursor it will open with. */
  ghost function Reached<E>(s: Pipe<E>, id: nat, after: nat): nat {
    if id < |s.attachments| then Frontier(s.attachments[id].after, s.attachments[id].delivered) else after
  }

  /** Nobody has ever acknowledged beyond what this attachment had reached. */
  ghost predicate NeverOverAcknowledged<E>(actions: seq<Action<E>>, id: nat, after: nat) {
    forall k :: 0 <= k <= |actions| ==> Exec(actions[..k]).journal.acked <= Reached(Exec(actions[..k]), id, after)
  }

  lemma NeverOverBefore<E>(actions: seq<Action<E>>, id: nat, after: nat)
    requires NeverOverAcknowledged(actions, id, after) && actions != []
    ensures var before := actions[..|actions| - 1];
            NeverOverAcknowledged(before, id, after) && Exec(before).journal.acked <= Reached(Exec(before), id, after)
  {
    var before := actions[..|actions| - 1];
    assert forall k :: 0 <= k <= |before| ==> before[..k] == actions[..k];
    assert before == actions[..|before|];
  }

  lemma NoNewSkip<E>(s: Pipe<E>, action: Action<E>, id: nat, after: nat)
    requires s.journal.acked <= Reached(s, id, after)
    requires id < |Step(s, action).attachments| ==> Step(s, action).attachments[id].after == after
    requires id < |s.attachments| && !s.attachments[id].phase.Stopped? ==>
               s.attachments[id].last == Frontier(s.attachments[id].after, s.attachments[id].delivered)
    ensures NewSkip(s, action, id) == []
  {
    CursorStep(s, action, id);
  }

  lemma {:induction false} NoSkips<E>(actions: seq<Action<E>>, id: nat, after: nat)
    requires NeverOverAcknowledged(actions, id, after)
    requires id < |Exec(actions).attachments| ==> Exec(actions).attachments[id].after == after
    ensures Skips(actions, id) == []
    decreases |actions|
  {
    if actions != [] {
      var before := actions[..|actions| - 1];
      NeverOverBefore(actions, id, after);
      ExecGaps(before, id);
      CursorStep(Exec(before), actions[|actions| - 1], id);
      NoSkips(before, id, after);
      NoNewSkip(Exec(before), actions[|actions| - 1], id, after);
    }
  }

  lemma CursorStep<E>(s: Pipe<E>, action: Action<E>, id: nat)
    ensures id < |s.attachments| ==>
              id < |Step(s, action).attachments| && Step(s, action).attachments[id].after == s.attachments[id].after
    ensures action.Attach? && id == |s.attachments| && id < |Step(s, action).attachments| ==>
              Step(s, action).attachments[id].after == action.after
  {
  }

  /** In particular, if nobody acknowledges beyond what an attachment has reached,
      its stream is exactly contiguous from its cursor. */
  lemma ContiguousStream<E>(actions: seq<Action<E>>, id: nat)
    requires id < |Exec(actions).attachments|
    requires NeverOverAcknowledged(actions, id, Exec(actions).attachments[id].after)
    ensures Contiguous(Exec(actions).attachments[id].after, Exec(actions).attachments[id].delivered)
  {
    NoSkips(actions, id, Exec(actions).attachments[id].after);
    ContiguousExactly(actions, id);
  }

  lemma ExecMore<E>(actions: seq<Action<E>>, action: Action<E>)
    ensures Exec(actions + [action]) == Step(Exec(actions), action)
  {
    assert (actions + [action])[..|actions|] == actions;
  }

  /** A channel with one receiver at its end, and nothing in it. */
  ghost predicate JustSubscribed<E>(s: Pipe<E>, log: seq<E>) {
    && s.log == log && s.journal.latest == |log| && |s.attachments| == 1
    && s.ring.buffer == [] && s.ring.head == s.attachments[0].next && s.ring.capacity > 0 && s.ring.senders == s.ring.receivers == 1
    && s.attachments[0].after == 0
  }

  lemma GapStart<E>(e: E)
    ensures var s := Exec([Publish(e)] + [Acknowledged(1)] + [Attach(Unix, 0)]);
            && JustSubscribed(s, [e]) && s.attachments[0].phase == Replaying([])
            && s.attachments[0].last == 0 && s.attachments[0].delivered == []
  {
    ExecMore([], Publish(e));
    assert [] + [Publish(e)] == [Publish(e)];
    ExecMore([Publish(e)], Acknowledged(1));
    ExecMore([Publish(e)] + [Acknowledged(1)], Attach(Unix, 0));
    var s := Exec([Publish(e)] + [Acknowledged(1)]);
    ExecInv([Publish(e)] + [Acknowledged(1)]);
    assert s.log == [e] && s.journal.acked == 1 && s.journal.floor == 0 && s.attachments == [];
    ReplayExact(s.journal, s.log, 0);
  }

  lemma GapEnd<E>(s: Pipe<E>, e: E)
    requires JustSubscribed(s, [e]) && s.attachments[0].phase == Replaying([])
    requires s.attachments[0].last == 0 && s.attachments[0].delivered == []
    ensures var t := Step(Step(Step(s, Publish(e)), Turn(0, true)), Turn(0, true));
            |t.attachments| == 1 && t.attachments[0].after == 0 && t.attachments[0].delivered == [Sequenced(2, e)]
  {
    var u := Step(s, Publish(e));
    assert u.ring.buffer == [Sequenced(2, e)] && u.attachments == s.attachments;
    var v := Step(u, Turn(0, true));
    assert v.attachments[0].phase == Receiving && v.ring.buffer == u.ring.buffer;
  }

  /** The stream that is not: an attach at 0 with event 1 acknowledged starts
      after it, silently. */
  lemma AcknowledgedGap<E>(e: E) returns (actions: seq<Action<E>>)
    ensures var s := Exec(actions);
            |s.attachments| == 1 && s.attachments[0].after == 0 && s.attachments[0].delivered == [Sequenced(2, e)]
  {
    var before := [Publish(e)] + [Acknowledged(1)] + [Attach(Unix, 0)];
    GapStart(e);
    GapEnd(Exec(before), e);
    ExecMore(before, Publish(e));
    ExecMore(before + [Publish(e)], Turn(0, true));
    ExecMore(before + [Publish(e)] + [Turn(0, true)], Turn(0, true));
    actions := before + [Publish(e)] + [Turn(0, true)] + [Turn(0, true)];
  }

  // ------------------------------------------------------------------
  // The order on the wire
  // ------------------------------------------------------------------

  /** What goes out: the notifications in order, and the replay where the
      response was sent. */
  ghost predicate WireLaw<E>(a: Attachment<E>) {
    (a.transport.Unix? ==> a.replayed == 0 && a.answered)
    && OnWire(a.replayed, a.answered, a.early, a.delivered, a.wire)
  }

  ghost predicate OnWire<E>(replayed: nat, answered: bool, early: nat, delivered: seq<Sequenced<E>>, wire: seq<Sequenced<E>>) {
    && replayed + early <= |delivered|
    && wire == if answered then Inserted(delivered, replayed, replayed + early) else delivered[replayed..]
  }

  ghost function Inserted<E>(events: seq<Sequenced<E>>, n: nat, m: nat): seq<Sequenced<E>>
    requires n <= m <= |events|
  {
    events[n..m] + events[..n] + events[m..]
  }

  lemma InsertedMore<E>(events: seq<Sequenced<E>>, n: nat, m: nat, e: Sequenced<E>)
    requires n <= m <= |events|
    ensures Inserted(events + [e], n, m) == Inserted(events, n, m) + [e]
    ensures (events + [e])[n..] == events[n..] + [e]
  {
    assert (events + [e])[n..m] == events[n..m] && (events + [e])[..n] == events[..n];
    assert (events + [e])[m..] == events[m..] + [e];
  }

  lemma WireOffer<E>(replayed: nat, answered: bool, early: nat, delivered: seq<Sequenced<E>>, wire: seq<Sequenced<E>>, e: Sequenced<E>)
    requires OnWire(replayed, answered, early, delivered, wire)
    ensures OnWire(replayed, answered, early, delivered + [e], wire + [e])
  {
    InsertedMore(delivered, replayed, replayed + early, e);
  }

  /** `b` has given its client what `a` had, or one event more. */
  ghost predicate GivesMore<E>(a: Attachment<E>, b: Attachment<E>) {
    && b.transport == a.transport && b.replayed == a.replayed && b.answered == a.answered && b.early == a.early
    && ((b.delivered == a.delivered && b.wire == a.wire)
        || (|b.delivered| == |a.delivered| + 1
            && b.delivered == a.delivered + [b.delivered[|a.delivered|]]
            && b.wire == a.wire + [b.delivered[|a.delivered|]]))
  }

  lemma ForwardGivesMore<E>(a: Attachment<E>, j: Journal<E>, ring: Ring<Sequenced<E>>, accepted: bool)
    ensures GivesMore(a, Forward(a, j, ring, accepted))
  {
  }

  lemma WireStep<E>(s: Pipe<E>, action: Action<E>, id: nat)
    requires id < |s.attachments| ==> WireLaw(s.attachments[id])
    ensures id < |Step(s, action).attachments| ==> WireLaw(Step(s, action).attachments[id])
  {
    if id < |s.attachments| {
      var a := s.attachments[id];
      if action.Turn? && action.id == id {
        WireForward(a, s.journal, s.ring, action.accepted);
      } else if action == Respond(id) {
        WireAnswered(a);
      }
    }
  }

  lemma WireAnswered<E>(a: Attachment<E>)
    requires WireLaw(a)
    ensures WireLaw(Answered(a))
  {
    if !a.answered {
      var n, m := a.replayed, |a.delivered|;
      assert a.delivered[n..m] == a.delivered[n..] && a.delivered[m..] == [];
      assert Inserted(a.delivered, n, m) == a.delivered[n..] + a.delivered[..n];
    }
  }

  lemma WireForward<E>(a: Attachment<E>, j: Journal<E>, ring: Ring<Sequenced<E>>, accepted: bool)
    requires WireLaw(a)
    ensures WireLaw(Forward(a, j, ring, accepted))
  {
    ForwardGivesMore(a, j, ring, accepted);
    var b := Forward(a, j, ring, accepted);
    if b.delivered != a.delivered {
      WireOffer(a.replayed, a.answered, a.early, a.delivered, a.wire, b.delivered[|a.delivered|]);
    }
  }

  lemma {:induction false} ExecWire<E>(actions: seq<Action<E>>, id: nat)
    requires id < |Exec(actions).attachments|
    ensures WireLaw(Exec(actions).attachments[id])
    decreases |actions|
  {
    if actions != [] {
      var before := actions[..|actions| - 1];
      if id < |Exec(before).attachments| {
        ExecWire(before, id);
      }
      WireStep(Exec(before), actions[|actions| - 1], id);
    }
  }

  ghost predicate Increasing<E>(events: seq<Sequenced<E>>) {
    forall i, k :: 0 <= i < k < |events| ==> events[i].sequence < events[k].sequence
  }

  lemma InsertedOrder<E>(events: seq<Sequenced<E>>, n: nat, m: nat)
    requires n <= m <= |events| && Increasing(events)
    ensures Increasing(Inserted(events, n, m)) <==> n == 0 || n == m
  {
    var wire := Inserted(events, n, m);
    if n == 0 || n == m {
      assert wire == events;
    } else {
      assert wire[0] == events[n] && wire[m - n] == events[0];
    }
  }

  lemma InsertedWhole<E>(events: seq<Sequenced<E>>, n: nat, m: nat)
    requires n <= m <= |events|
    ensures multiset(Inserted(events, n, m)) == multiset(events)
  {
    assert events == events[..n] + events[n..m] + events[m..];
  }

  /** On the Unix transport everything an attachment sends goes through one FIFO, so
      its wire is the order of its offers; the FIFO itself is not modelled. */
  ghost predicate WireOrdered<E>(a: Attachment<E>) {
    && a.replayed <= |a.delivered|
    && Increasing(a.delivered) && Increasing(a.delivered[a.replayed..])
    && (a.transport.Unix? ==> a.wire == a.delivered)
    && (!a.answered ==> a.wire == a.delivered[a.replayed..])
    && (a.answered ==> multiset(a.wire) == multiset(a.delivered))
    && (a.answered ==> (Increasing(a.wire) <==> a.replayed == 0 || a.early == 0))
  }

  lemma TailOrder<E>(events: seq<Sequenced<E>>, n: nat)
    requires n <= |events| && Increasing(events)
    ensures Increasing(events[n..])
  {
  }

  lemma NothingInserted<E>(events: seq<Sequenced<E>>, m: nat)
    requires m <= |events|
    ensures Inserted(events, 0, m) == events
  {
  }

  lemma LawAnswered<E>(a: Attachment<E>)
    requires Increasing(a.delivered) && WireLaw(a) && a.answered
    ensures multiset(a.wire) == multiset(a.delivered)
    ensures Increasing(a.wire) <==> a.replayed == 0 || a.early == 0
  {
    var events, n, m := a.delivered, a.replayed, a.replayed + a.early;
    assert a.wire == Inserted(events, n, m);
    InsertedWhole(events, n, m);
    InsertedOrder(events, n, m);
  }

  lemma LawUnix<E>(a: Attachment<E>)
    requires WireLaw(a) && a.transport.Unix?
    ensures a.wire == a.delivered
  {
    assert a.wire == Inserted(a.delivered, 0, a.early);
    NothingInserted(a.delivered, a.early);
  }

  lemma LawOrders<E>(a: Attachment<E>)
    requires Increasing(a.delivered) && WireLaw(a)
    ensures WireOrdered(a)
  {
    TailOrder(a.delivered, a.replayed);
    if a.answered {
      LawAnswered(a);
    }
    if a.transport.Unix? {
      LawUnix(a);
    }
  }

  /** The order on the wire. The notifications of a WebSocket subscription are in
      order, and so are its replay followed by its notifications; but the wire
      is, if and only if the response with the replay went out before the first
      notification, or the replay was empty. Nothing is sent twice or left out.
      On the Unix transport the wire is the stream. */
  lemma WireOrder<E>(actions: seq<Action<E>>, id: nat)
    requires id < |Exec(actions).attachments|
    ensures WireOrdered(Exec(actions).attachments[id])
  {
    ExecInv(actions);
    ExecWire(actions, id);
    assert Sound(Exec(actions).attachments[id], Exec(actions).journal.acked, Exec(actions).log, Exec(actions).sent);
    LawOrders(Exec(actions).attachments[id]);
  }

  lemma OvertakingStart<E>(e: E)
    ensures var s := Exec([Publish(e)] + [Attach(Web, 0)]);
            && JustSubscribed(s, [e]) && s.attachments[0].phase == Receiving && s.attachments[0].last == 1
            && s.attachments[0].delivered == [Sequenced(1, e)] && s.attachments[0].wire == []
            && s.attachments[0].replayed == 1 && !s.attachments[0].answered
  {
    ExecMore([], Publish(e));
    assert [] + [Publish(e)] == [Publish(e)];
    ExecMore([Publish(e)], Attach(Web, 0));
    var s := Exec([Publish(e)]);
    ExecInv([Publish(e)]);
    assert s.log == [e] && s.journal.acked == 0 && s.journal.floor == 0 && s.attachments == [];
    ReplayExact(s.journal, s.log, 0);
  }

  lemma OvertakingEnd<E>(s: Pipe<E>, e: E)
    requires JustSubscribed(s, [e]) && s.attachments[0].phase == Receiving && s.attachments[0].last == 1
    requires s.attachments[0].delivered == [Sequenced(1, e)] && s.attachments[0].wire == []
    requires s.attachments[0].replayed == 1 && !s.attachments[0].answered
    ensures var t := Step(Step(Step(s, Publish(e)), Turn(0, true)), Respond(0));
            && |t.attachments| == 1 && t.attachments[0].after == 0
            && t.attachments[0].wire == [Sequenced(2, e), Sequenced(1, e)]
            && t.attachments[0].delivered == [Sequenced(1, e), Sequenced(2, e)]
  {
    var u := Step(s, Publish(e));
    assert u.ring.buffer == [Sequenced(2, e)] && u.attachments == s.attachments;
    var v := Step(u, Turn(0, true));
    assert v.attachments[0].wire == [Sequenced(2, e)] && v.attachments[0].delivered == [Sequenced(1, e), Sequenced(2, e)];
  }

  /** A response overtaken by a notification: the client sees 2 before 1. */
  lemma OvertakenResponse<E>(e: E) returns (actions: seq<Action<E>>)
    ensures var s := Exec(actions);
            && |s.attachments| == 1 && s.attachments[0].after == 0
            && s.attachments[0].wire == [Sequenced(2, e), Sequenced(1, e)]
            && s.attachments[0].delivered == [Sequenced(1, e), Sequenced(2, e)]
  {
    var before := [Publish(e)] + [Attach(Web, 0)];
    OvertakingStart(e);
    OvertakingEnd(Exec(before), e);
    ExecMore(before, Publish(e));
    ExecMore(before + [Publish(e)], Turn(0, true));
    ExecMore(before + [Publish(e)] + [Turn(0, true)], Respond(0));
    actions := before + [Publish(e)] + [Turn(0, true)] + [Respond(0)];
  }

  // ------------------------------------------------------------------
  // Channel positions and sequences
  // ------------------------------------------------------------------

  ghost predicate Aligned<E>(s: Pipe<E>, from: nat, offset: nat) {
    && |s.log| == |s.sent| + offset
    && forall q :: from <= q < |s.sent| ==> s.sent[q] == Sequenced(q + offset + 1, s.log[q + offset])
  }

  lemma AlignedPublish<E>(s: Pipe<E>, event: E, from: nat, offset: nat)
    requires Represents(s.journal, s.log) && s.ring.receivers > 0 && Aligned(s, from, offset)
    ensures Aligned(Step(s, Publish(event)), from, offset)
  {
    var t := Step(s, Publish(event));
    assert t.log == s.log + [event] && t.sent == s.sent + [Sequenced(|s.log| + 1, event)];
  }

  lemma AlignedStep<E>(s: Pipe<E>, action: Action<E>, id: nat, from: nat)
    requires Inv(s) && id < |s.attachments| && !s.attachments[id].phase.Stopped?
    requires Aligned(s, from, s.attachments[id].offset)
    ensures Aligned(Step(s, action), from, s.attachments[id].offset)
  {
    HeldUpdate(s.attachments, id, s.attachments[id]);
    assert Sound(s.attachments[id], s.journal.acked, s.log, s.sent);
    if action.Publish? {
      AlignedPublish(s, action.event, from, s.attachments[id].offset);
    } else {
      LogUntouched(s, action);
    }
  }

  lemma LogUntouched<E>(s: Pipe<E>, action: Action<E>)
    requires !action.Publish?
    ensures Step(s, action).log == s.log && Step(s, action).sent == s.sent
  {
  }

  lemma StepKeepsOffset<E>(s: Pipe<E>, action: Action<E>, id: nat)
    requires id < |s.attachments|
    requires !s.attachments[id].phase.Stopped? ==> s.journal.latest == s.ring.Tail() + s.attachments[id].offset
    ensures id < |Step(s, action).attachments|
    ensures s.attachments[id].phase.Stopped? ==> Step(s, action).attachments[id].phase.Stopped?
    ensures !s.attachments[id].phase.Stopped? ==>
              Step(s, action).attachments[id].offset == s.attachments[id].offset
  {
  }

  /** From `s` to `u` attachment `id` is stopped for good, or has kept its
      offset, and every channel entry from its position in `s` on is the log
      entry the offset names. */
  ghost predicate Steady<E>(s: Pipe<E>, u: Pipe<E>, id: nat) {
    && id < |s.attachments| && id < |u.attachments|
    && (s.attachments[id].phase.Stopped? ==> u.attachments[id].phase.Stopped?)
    && (!u.attachments[id].phase.Stopped? ==>
          && u.attachments[id].offset == s.attachments[id].offset
          && Aligned(u, s.attachments[id].next, s.attachments[id].offset))
  }

  lemma SteadyStep<E>(s: Pipe<E>, mid: Pipe<E>, action: Action<E>, id: nat)
    requires Inv(mid) && Steady(s, mid, id)
    ensures Steady(s, Step(mid, action), id)
  {
    StepKeepsOffset(mid, action, id);
    if !mid.attachments[id].phase.Stopped? {
      AlignedStep(mid, action, id, s.attachments[id].next);
    }
  }

  /** The offset between channel position and sequence is fixed for the whole
      life of an attachment, its recoveries included. */
  lemma {:induction false} FixedOffset<E>(s: Pipe<E>, more: seq<Action<E>>, id: nat)
    requires Inv(s) && id < |s.attachments|
    ensures Steady(s, Continue(s, more), id)
    decreases |more|
  {
    if more != [] {
      var before := more[..|more| - 1];
      FixedOffset(s, before, id);
      ContinueInv(s, before);
      SteadyStep(s, Continue(s, before), more[|more| - 1], id);
    }
  }

  lemma JournalStep<E>(s: Pipe<E>, action: Action<E>)
    requires Represents(s.journal, s.log)
    ensures s.journal.acked <= Step(s, action).journal.acked
    ensures s.journal.floor <= Step(s, action).journal.floor
    ensures s.log <= Step(s, action).log
  {
    if action.Publish? {
      AppendRepresents(s.journal, s.log, action.event);
    }
  }

  /** The journal is the log in (max(floor, acked), latest] after any run, and
      the acknowledged sequence, the floor and the log only grow. */
  lemma {:induction false} JournalOverTime<E>(s: Pipe<E>, more: seq<Action<E>>)
    requires Inv(s)
    ensures Represents(Continue(s, more).journal, Continue(s, more).log)
    ensures s.journal.acked <= Continue(s, more).journal.acked
    ensures s.journal.floor <= Continue(s, more).journal.floor
    ensures s.log <= Continue(s, more).log
    decreases |more|
  {
    ContinueInv(s, more);
    if more != [] {
      var before := more[..|more| - 1];
      JournalOverTime(s, before);
      JournalStep(Continue(s, before), more[|more| - 1]);
    }
  }

  /** The replay of a new attachment, delivered already or still to be. */
  ghost function Handed<E>(a: Attachment<E>): seq<Sequenced<E>> {
    a.delivered + Queue(a)
  }

  lemma OpenedFrom<E>(j: Journal<E>, ring: Ring<Sequenced<E>>, transport: Transport, after: nat, replay: seq<Sequenced<E>>)
    ensures Handed(Opened(j, ring, transport, after, replay)) == replay
    ensures Opened(j, ring, transport, after, replay).next == ring.Tail()
    ensures Opened(j, ring, transport, after, replay).offset == OffsetOf(j, ring)
  {
    assert [] + replay == replay;
    assert replay + [] == replay;
  }

  lemma OpenedAt<E>(s: Pipe<E>, transport: Transport, after: nat)
    requires Base(s) && after >= s.journal.floor
    ensures var t := Step(s, Attach(transport, after));
            && t.log == s.log && t.sent == s.sent
            && |t.attachments| == |s.attachments| + 1
            && Handed(t.attachments[|s.attachments|])
                 == Number(s.log, Min(Max(after, s.journal.acked), |s.log|), |s.log|)
            && t.attachments[|s.attachments|].next == |s.sent|
            && t.attachments[|s.attachments|].offset == |s.log| - |s.sent|
  {
    ReplayExact(s.journal, s.log, after);
    OpenedFrom(s.journal, s.ring, transport, after, ReplayFrom(s.journal, after).events);
  }

  lemma {:induction false} LogGrows<E>(s: Pipe<E>, more: seq<Action<E>>)
    ensures s.log <= Continue(s, more).log
    decreases |more|
  {
    if more != [] {
      LogGrows(s, more[..|more| - 1]);
    }
  }

  /** The first event published after an attachment subscribed is the first one
      the channel holds for it. */
  lemma SteadyFirst<E>(t: Pipe<E>, u: Pipe<E>, id: nat)
    requires Steady(t, u, id) && t.log <= u.log
    requires t.attachments[id].next == |t.sent| && t.attachments[id].offset == |t.log| - |t.sent|
    ensures !u.attachments[id].phase.Stopped? && |u.log| > |t.log| ==>
              |t.sent| < |u.sent| && u.sent[|t.sent|] == Sequenced(|t.log| + 1, u.log[|t.log|])
  {
  }

  /** No event lies between a replay and the live stream, and none is in both:
      however many events were published with no receiver before, and whatever
      happens after, the first one the channel holds for a new attachment is the
      one after the snapshot's latest. */
  lemma FirstLiveEvent<E>(actions: seq<Action<E>>, transport: Transport, after: nat, more: seq<Action<E>>)
    requires after >= Exec(actions).journal.floor
    ensures var s := Exec(actions); var id := |s.attachments|;
            var t := Step(s, Attach(transport, after)); var u := Continue(t, more);
            && id < |t.attachments| && id < |u.attachments|
            && Handed(t.attachments[id]) == Number(s.log, Min(Max(after, s.journal.acked), |s.log|), |s.log|)
            && (!u.attachments[id].phase.Stopped? && |u.log| > |s.log| ==>
                  && t.attachments[id].next < |u.sent|
                  && u.sent[t.attachments[id].next] == Sequenced(|s.log| + 1, u.log[|s.log|]))
  {
    var s := Exec(actions);
    ExecInv(actions);
    OpenedAt(s, transport, after);
    AttachInv(s, transport, after);
    var t := Step(s, Attach(transport, after));
    FixedOffset(t, more, |s.attachments|);
    LogGrows(t, more);
    SteadyFirst(t, Continue(t, more), |s.attachments|);
  }

  // ------------------------------------------------------------------
  // Recovery and completeness
  // ------------------------------------------------------------------

  lemma StateRecovery<E>(s: Pipe<E>, id: nat, accepted: bool)
    requires Represents(s.journal, s.log) && id < |s.attachments| && s.attachments[id].phase.Recovering?
    ensures var a := s.attachments[id]; var a' := Step(s, Turn(id, accepted)).attachments[id];
            && (a'.phase == Stopped(CursorExpired) <==> a.last < s.journal.floor)
            && (a'.phase.Stopped? ==> |s.log| - a.last > MAX_REPLAY_EVENTS)
            && (a.last >= s.journal.acked ==> (a'.phase.Stopped? <==> |s.log| - a.last > MAX_REPLAY_EVENTS))
  {
    ExpiryBound(s.journal, s.log, s.attachments[id].last);
  }

  /** A recovery stops the forwarder if and only if its cursor is below the
      replay floor; never while it is at most 2048 events behind; and, unless
      its cursor is below the acknowledged one, exactly when it is further. */
  lemma RecoveryOutcome<E>(actions: seq<Action<E>>, id: nat, accepted: bool)
    requires id < |Exec(actions).attachments| && Exec(actions).attachments[id].phase.Recovering?
    ensures var s := Exec(actions); var a := s.attachments[id];
            var a' := Step(s, Turn(id, accepted)).attachments[id];
            && (a'.phase == Stopped(CursorExpired) <==> a.last < s.journal.floor)
            && (a'.phase.Stopped? ==> |s.log| - a.last > MAX_REPLAY_EVENTS)
            && (a.last >= s.journal.acked ==> (a'.phase.Stopped? <==> |s.log| - a.last > MAX_REPLAY_EVENTS))
  {
    ExecInv(actions);
    StateRecovery(Exec(actions), id, accepted);
  }

  ghost function ReceiveBudget(unread: nat): nat {
    if unread > EVENT_CAPACITY then MAX_REPLAY_EVENTS + 3 else unread
  }

  /** How many more turns a forwarder needs once nothing more is published:
      one per unread event, but a lag costs one recovery whatever its size. */
  ghost function Budget<E>(a: Attachment<E>, sent: seq<Sequenced<E>>): nat {
    var unread: nat := if a.next <= |sent| then |sent| - a.next else 0;
    match a.phase
    case Replaying(queue) => |queue| + 1 + ReceiveBudget(unread)
    case Receiving => ReceiveBudget(unread)
    case Recovering => MAX_REPLAY_EVENTS + 2
    case Stopped(_) => 0
  }

  lemma ForwardSpends<E>(a: Attachment<E>, j: Journal<E>, ring: Ring<Sequenced<E>>, log: seq<E>, sent: seq<Sequenced<E>>)
    requires Represents(j, log) && Holds(ring, sent) && ring.capacity == EVENT_CAPACITY && ring.senders == 1
    requires !a.phase.Stopped? ==> a.next <= |sent|
    ensures var a' := Forward(a, j, ring, true);
            Budget(a', sent) < Budget(a, sent) || Budget(a, sent) == 0 == Budget(a', sent)
  {
    match a.phase
    case Replaying(_) =>
    case Receiving =>
      TakeRefines(ring, sent, a.next);
    case Recovering =>
      ReplayExact(j, log, a.last);
    case Stopped(_) =>
  }

  /** Every turn that has something to do uses up some of the budget. */
  lemma TurnSpends<E>(s: Pipe<E>, id: nat)
    requires Represents(s.journal, s.log) && Holds(s.ring, s.sent) && s.ring.capacity == EVENT_CAPACITY && s.ring.senders == 1
    requires id < |s.attachments| && Sound(s.attachments[id], s.journal.acked, s.log, s.sent)
    ensures var a' := Step(s, Turn(id, true)).attachments[id];
            Budget(a', s.sent) < Budget(s.attachments[id], s.sent) || Budget(s.attachments[id], s.sent) == 0 == Budget(a', s.sent)
  {
    ForwardSpends(s.attachments[id], s.journal, s.ring, s.log, s.sent);
  }

  /** Nothing is published, and this forwarder is neither aborted nor refused. */
  ghost predicate Quiet<E>(actions: seq<Action<E>>, id: nat) {
    forall k :: 0 <= k < |actions| ==>
      !actions[k].Publish? && actions[k] != Abort(id) && actions[k] != Turn(id, false)
  }

  ghost function Turns<E>(actions: seq<Action<E>>, id: nat): nat {
    if actions == [] then 0
    else Turns(actions[..|actions| - 1], id) + if actions[|actions| - 1] == Turn(id, true) then 1 else 0
  }

  /** Whether a forwarder's cursor expires before it has caught up, once nothing
      more is published: it does if it lags and its cursor, at that point, is
      below the replay floor. */
  ghost predicate WillExpire<E>(a: Attachment<E>, floor: nat, sent: seq<Sequenced<E>>) {
    match a.phase
    case Replaying(queue) =>
      |sent| - a.next > EVENT_CAPACITY && (if queue == [] then a.last else queue[|queue| - 1].sequence) < floor
    case Receiving => |sent| - a.next > EVENT_CAPACITY && a.last < floor
    case Recovering => a.last < floor
    case Stopped(_) => true
  }

  lemma ReplayExpiry<E>(a: Attachment<E>, j: Journal<E>, ring: Ring<Sequenced<E>>, log: seq<E>, sent: seq<Sequenced<E>>)
    requires Sound(a, j.acked, log, sent) && a.phase.Replaying?
    ensures WillExpire(Forward(a, j, ring, true), j.floor, sent) <==> WillExpire(a, j.floor, sent)
  {
    if a.phase.queue != [] {
      QueueTail(a, j.acked, log, sent);
    }
  }

  lemma ReceiveExpiry<E>(a: Attachment<E>, j: Journal<E>, ring: Ring<Sequenced<E>>, sent: seq<Sequenced<E>>)
    requires Holds(ring, sent) && ring.capacity == EVENT_CAPACITY && ring.senders == 1
    requires a.phase.Receiving? && a.next <= |sent|
    ensures WillExpire(Forward(a, j, ring, true), j.floor, sent) <==> WillExpire(a, j.floor, sent)
  {
    TakeRefines(ring, sent, a.next);
  }

  lemma ForwardExpiry<E>(a: Attachment<E>, j: Journal<E>, ring: Ring<Sequenced<E>>, log: seq<E>, sent: seq<Sequenced<E>>)
    requires Represents(j, log) && Holds(ring, sent) && ring.capacity == EVENT_CAPACITY && ring.senders == 1
    requires Sound(a, j.acked, log, sent)
    ensures WillExpire(Forward(a, j, ring, true), j.floor, sent) <==> WillExpire(a, j.floor, sent)
  {
    match a.phase
    case Replaying(_) => ReplayExpiry(a, j, ring, log, sent);
    case Receiving => ReceiveExpiry(a, j, ring, sent);
    case Recovering =>
    case Stopped(_) =>
  }

  lemma QuietStep<E>(s: Pipe<E>, action: Action<E>, id: nat)
    requires Represents(s.journal, s.log) && Holds(s.ring, s.sent) && s.ring.capacity == EVENT_CAPACITY && s.ring.senders == 1
    requires id < |s.attachments| && Sound(s.attachments[id], s.journal.acked, s.log, s.sent)
    requires !action.Publish? && action != Abort(id) && action != Turn(id, false)
    ensures var t := Step(s, action);
            && id < |t.attachments| && t.log == s.log && t.sent == s.sent && t.journal.floor == s.journal.floor
            && (action != Turn(id, true) ==> Budget(t.attachments[id], t.sent) == Budget(s.attachments[id], s.sent))
            && (WillExpire(t.attachments[id], t.journal.floor, t.sent)
                <==> WillExpire(s.attachments[id], s.journal.floor, s.sent))
  {
    if action == Turn(id, true) {
      ForwardExpiry(s.attachments[id], s.journal, s.ring, s.log, s.sent);
      assert Step(s, action).attachments[id] == Forward(s.attachments[id], s.journal, s.ring, true);
    } else {
      QuietElsewhere(s, action, id);
    }
  }

  lemma QuietElsewhere<E>(s: Pipe<E>, action: Action<E>, id: nat)
    requires id < |s.attachments|
    requires !action.Publish? && action != Abort(id) && !(action.Turn? && action.id == id)
    ensures var t := Step(s, action);
            && id < |t.attachments| && t.log == s.log && t.sent == s.sent && t.journal.floor == s.journal.floor
            && t.attachments[id].phase == s.attachments[id].phase && t.attachments[id].last == s.attachments[id].last
            && t.attachments[id].next == s.attachments[id].next
  {
  }

  lemma {:induction false} BudgetRunsOut<E>(s: Pipe<E>, more: seq<Action<E>>, id: nat)
    requires Inv(s) && id < |s.attachments| && Quiet(more, id)
    ensures var t := Continue(s, more);
            && id < |t.attachments| && t.log == s.log && t.sent == s.sent && t.journal.floor == s.journal.floor
            && (Budget(t.attachments[id], t.sent) == 0
                || Budget(t.attachments[id], t.sent) + Turns(more, id) <= Budget(s.attachments[id], s.sent))
            && (WillExpire(t.attachments[id], t.journal.floor, t.sent)
                <==> WillExpire(s.attachments[id], s.journal.floor, s.sent))
    decreases |more|
  {
    if more != [] {
      var before, action := more[..|more| - 1], more[|more| - 1];
      BudgetRunsOut(s, before, id);
      ContinueInv(s, before);
      QuietStep(Continue(s, before), action, id);
      if action == Turn(id, true) {
        TurnSpends(Continue(s, before), id);
      }
    }
  }

  /** Waiting for the next event, with everything after the cursor delivered or
      acknowledged. */
  ghost predicate CaughtUp<E>(s: Pipe<E>, id: nat) {
    && id < |s.attachments| && s.attachments[id].phase.Receiving?
    && TakeFrom(s.ring, s.attachments[id].next).0.Pending?
    && forall q: nat :: s.attachments[id].after < q <= |s.log| ==>
         q <= s.journal.acked || WasDelivered(s.attachments[id].delivered, q)
  }

  lemma NothingLeft<E>(s: Pipe<E>, id: nat)
    requires Inv(s) && id < |s.attachments|
    requires Budget(s.attachments[id], s.sent) == 0 && !s.attachments[id].phase.Stopped?
    ensures CaughtUp(s, id)
  {
    assert Sound(s.attachments[id], s.journal.acked, s.log, s.sent);
    TakeRefines(s.ring, s.sent, s.attachments[id].next);
  }

  lemma StoppedExpires<E>(a: Attachment<E>, floor: nat, sent: seq<Sequenced<E>>)
    requires Budget(a, sent) == 0
    ensures WillExpire(a, floor, sent) <==> a.phase.Stopped?
  {
  }

  lemma BudgetBound<E>(s: Pipe<E>, id: nat)
    requires Inv(s) && id < |s.attachments|
    ensures Budget(s.attachments[id], s.sent) <= 2 * MAX_REPLAY_EVENTS + 4
  {
    assert Sound(s.attachments[id], s.journal.acked, s.log, s.sent);
  }

  /** Completeness, exactly. From any reachable state, once nothing more is
      published, a forwarder that is neither aborted nor refused has after at most
      4100 of its own turns, interleaved with anything else, either stopped or
      delivered or seen acknowledged every event after its cursor, and then waits
      for the next one. It stops if and only if `WillExpire` held at the start:
      in particular a replay in hand is completed, wherever the floor is. */
  lemma Completeness<E>(actions: seq<Action<E>>, more: seq<Action<E>>, id: nat)
    requires id < |Exec(actions).attachments| && Quiet(more, id)
    requires Turns(more, id) >= 4100
    ensures var s := Exec(actions); var t := Continue(s, more);
            && id < |t.attachments|
            && (t.attachments[id].phase.Stopped? <==> WillExpire(s.attachments[id], s.journal.floor, s.sent))
            && (!t.attachments[id].phase.Stopped? ==> CaughtUp(t, id))
  {
    var s := Exec(actions);
    ExecInv(actions);
    BudgetRunsOut(s, more, id);
    ContinueInv(s, more);
    BudgetBound(s, id);
    var t := Continue(s, more);
    StoppedExpires(t.attachments[id], t.journal.floor, t.sent);
    if !t.attachments[id].phase.Stopped? {
      NothingLeft(t, id);
    }
  }

  // ------------------------------------------------------------------
  // Refusals, aborts and receivers
  // ------------------------------------------------------------------

  lemma LagsState<E>(a: Attachment<E>, j: Journal<E>, ring: Ring<Sequenced<E>>, accepted: bool, sent: seq<Sequenced<E>>)
    requires Holds(ring, sent) && ring.capacity == EVENT_CAPACITY && a.phase.Receiving? && a.next <= |sent|
    ensures Forward(a, j, ring, accepted).phase.Recovering? <==> |sent| - a.next > 256
  {
    TakeRefines(ring, sent, a.next);
  }

  /** A forwarder lags exactly when more than 256 events are unread. */
  lemma LagsExactly<E>(actions: seq<Action<E>>, id: nat, accepted: bool)
    requires id < |Exec(actions).attachments| && Exec(actions).attachments[id].phase.Receiving?
    ensures var s := Exec(actions);
            Step(s, Turn(id, accepted)).attachments[id].phase.Recovering? <==> |s.sent| - s.attachments[id].next > 256
  {
    ExecInv(actions);
    var s := Exec(actions);
    assert Sound(s.attachments[id], s.journal.acked, s.log, s.sent);
    LagsState(s.attachments[id], s.journal, s.ring, accepted, s.sent);
    TurnIs(s, id, accepted);
  }

  /** What a forwarder has left of a replay is beyond everything it has delivered, so
      the WebSocket forwarder's check during a recovery never skips anything. */
  lemma ReplayAhead<E>(actions: seq<Action<E>>, id: nat, i: nat)
    requires id < |Exec(actions).attachments| && i < |Queue(Exec(actions).attachments[id])|
    ensures Exec(actions).attachments[id].last < Queue(Exec(actions).attachments[id])[i].sequence
  {
    ExecInv(actions);
    var s := Exec(actions);
    assert Sound(s.attachments[id], s.journal.acked, s.log, s.sent);
    QueueBeyond(s.attachments[id], s.journal.acked, s.log, s.sent, i);
  }

  lemma QueueBeyond<E>(a: Attachment<E>, acked: nat, log: seq<E>, sent: seq<Sequenced<E>>, i: nat)
    requires Live(a, acked, log, sent) && i < |Queue(a)|
    ensures a.last < Queue(a)[i].sequence
  {
  }

  /** A sink that refuses: the event it was offered is not delivered and the forwarder
      stops, exactly where an accepting sink would have been given one; otherwise the
      turn is the same. */
  lemma RefusalExactly<E>(s: Pipe<E>, id: nat)
    requires id < |s.attachments| && !s.attachments[id].phase.Stopped?
    ensures var a := s.attachments[id];
            var taken, refused := Step(s, Turn(id, true)).attachments[id], Step(s, Turn(id, false)).attachments[id];
            && refused.delivered == a.delivered && refused.wire == a.wire
            && (refused.phase == Stopped(Refused) <==> taken.delivered != a.delivered)
            && (taken.delivered == a.delivered ==> refused == taken)
  {
    OfferRefused(s.attachments[id], s.journal, s.ring);
  }

  lemma OfferRefused<E>(a: Attachment<E>, j: Journal<E>, ring: Ring<Sequenced<E>>)
    requires !a.phase.Stopped?
    ensures var taken, refused := Forward(a, j, ring, true), Forward(a, j, ring, false);
            && refused.delivered == a.delivered && refused.wire == a.wire
            && (refused.phase == Stopped(Refused) <==> taken.delivered != a.delivered)
            && (taken.delivered == a.delivered ==> refused == taken)
  {
    var more := Forward(a, j, ring, true).delivered;
    assert more == a.delivered || |more| == |a.delivered| + 1;
  }

  /** An abort stops its forwarder at once and delivers nothing; it touches no other
      attachment, and neither the journal nor the channel's contents. */
  lemma AbortExactly<E>(s: Pipe<E>, id: nat, other: nat)
    requires id < |s.attachments| && other < |s.attachments|
    ensures var t := Step(s, Abort(id));
            && |t.attachments| == |s.attachments| && t.journal == s.journal && t.log == s.log && t.sent == s.sent
            && (other != id ==> t.attachments[other] == s.attachments[other])
            && t.attachments[id].phase.Stopped? && t.attachments[id].delivered == s.attachments[id].delivered
            && t.attachments[id].wire == s.attachments[id].wire
  {
  }

  /** A forwarder that has stopped is silent for good: whatever happens, nothing more
      is delivered, and only a response still owed may go out. */
  lemma {:induction false} StoppedForGood<E>(s: Pipe<E>, more: seq<Action<E>>, id: nat)
    requires id < |s.attachments| && s.attachments[id].phase.Stopped?
    ensures var t := Continue(s, more);
            && id < |t.attachments| && t.attachments[id].phase == s.attachments[id].phase
            && t.attachments[id].delivered == s.attachments[id].delivered
            && (s.attachments[id].answered ==> t.attachments[id].wire == s.attachments[id].wire)
            && (s.attachments[id].answered ==> t.attachments[id].answered)
    decreases |more|
  {
    if more != [] {
      StoppedForGood(s, more[..|more| - 1], id);
      StoppedStep(Continue(s, more[..|more| - 1]), more[|more| - 1], id);
    }
  }

  lemma StoppedStep<E>(s: Pipe<E>, action: Action<E>, id: nat)
    requires id < |s.attachments| && s.attachments[id].phase.Stopped?
    ensures var a := s.attachments[id]; var t := Step(s, action);
            && id < |t.attachments| && t.attachments[id].phase == a.phase && t.attachments[id].delivered == a.delivered
            && (a.answered ==> t.attachments[id].wire == a.wire && t.attachments[id].answered)
  {
  }

  /** An attach adds one attachment, at its cursor, unless the cursor is below the
      floor; it changes no other, and nothing that was published. */
  lemma AttachExactly<E>(s: Pipe<E>, transport: Transport, after: nat)
    ensures var t := Step(s, Attach(transport, after));
            && t.journal == s.journal && t.log == s.log && t.sent == s.sent
            && |t.attachments| == |s.attachments| + (if after < s.journal.floor then 0 else 1)
            && t.attachments[..|s.attachments|] == s.attachments
            && (after >= s.journal.floor ==>
                  t.attachments[|s.attachments|].after == after && t.attachments[|s.attachments|].transport == transport)
  {
  }

  /** The attachment is sending the replay of a recovery. */
  ghost predicate Resending<E>(actions: seq<Action<E>>, id: nat) {
    if actions == [] then false
    else
      var before, action := actions[..|actions| - 1], actions[|actions| - 1];
      && id < |Exec(actions).attachments| && Exec(actions).attachments[id].phase.Replaying?
      && (Resending(before, id)
          || (id < |Exec(before).attachments| && Exec(before).attachments[id].phase.Recovering? && action.Turn? && action.id == id))
  }

  lemma HeldStep<E>(s: Pipe<E>, action: Action<E>, id: nat, resending: bool)
    requires id < |s.attachments| ==>
               s.attachments[id].held == (if s.attachments[id].phase.Stopped? then 0 else if resending then 2 else 1)
    requires resending ==> id < |s.attachments| && s.attachments[id].phase.Replaying?
    ensures var t := Step(s, action);
            var resends := id < |t.attachments| && t.attachments[id].phase.Replaying?
                           && (resending || (id < |s.attachments| && s.attachments[id].phase.Recovering?
                                             && action.Turn? && action.id == id));
            id < |t.attachments| ==>
              t.attachments[id].held == if t.attachments[id].phase.Stopped? then 0 else if resends then 2 else 1
  {
  }

  /** How many receivers an attachment keeps alive: none once it stopped, two exactly
      while it sends the replay of a recovery, one otherwise. */
  lemma {:induction false} HeldExactly<E>(actions: seq<Action<E>>, id: nat)
    ensures id < |Exec(actions).attachments| ==>
              Exec(actions).attachments[id].held
                == if Exec(actions).attachments[id].phase.Stopped? then 0 else if Resending(actions, id) then 2 else 1
    decreases |actions|
  {
    if actions != [] {
      HeldExactly(actions[..|actions| - 1], id);
      HeldStep(Exec(actions[..|actions| - 1]), actions[|actions| - 1], id, Resending(actions[..|actions| - 1], id));
    }
  }

  /** The channel counts exactly those. */
  lemma ReceiversExactly<E>(actions: seq<Action<E>>)
    ensures Exec(actions).ring.receivers == Held(Exec(actions).attachments)
  {
    ExecInv(actions);
  }
}
