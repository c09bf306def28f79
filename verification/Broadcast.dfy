/** A broadcast channel of fixed capacity: a send never waits, and a receiver that
    falls behind loses the oldest values and is told how many.

    `Ring` is the state under the channel's lock, with the operations of the
    source as functions on it. `Observe` is the reference: what a receiver is
    told when every accepted value is kept for ever. The lemmas connect the two,
    first for one operation and then for every interleaving of sends,
    subscriptions, receives and drops. The classes at the end are the in-place
    form, proved against the same reference. */
module Broadcast {

  /** What one look at the channel gives a receiver. `Pending` is the source's
      `None`: nothing to return yet, so the receiver waits. */
  datatype Recv<T> = Value(value: T) | Lagged(missed: nat) | Closed | Pending

  datatype Ring<T> = Ring(capacity: nat, buffer: seq<T>, head: nat, senders: nat, receivers: nat) {
    /** The position the next accepted value will have. */
    function Tail(): nat {
      head + |buffer|
    }
  }

  function Open<T>(capacity: nat): Ring<T> {
    Ring(if capacity == 0 then 1 else capacity, [], 0, 1, 1)
  }

  function SendTo<T>(c: Ring<T>, value: T): Ring<T> {
    if c.receivers == 0 then
      c
    else if |c.buffer| + 1 > c.capacity then
      c.(buffer := (c.buffer + [value])[1..], head := c.head + 1)
    else
      c.(buffer := c.buffer + [value])
  }

  function TakeFrom<T>(c: Ring<T>, next: nat): (Recv<T>, nat) {
    if next < c.head then
      (Lagged(c.head - next), c.head)
    else if next - c.head < |c.buffer| then
      (Value(c.buffer[next - c.head]), next + 1)
    else if c.senders == 0 then
      (Closed, next)
    else
      (Pending, next)
  }

  // ------------------------------------------------------------------
  // Refinement of an unbounded log
  // ------------------------------------------------------------------

  /** `c` holds exactly the last `capacity` values of `accepted`, or all of
      them while there are no more than that. */
  ghost predicate Holds<T>(c: Ring<T>, accepted: seq<T>) {
    && c.capacity >= 1
    && c.head == (if |accepted| > c.capacity then |accepted| - c.capacity else 0)
    && c.buffer == accepted[c.head..]
  }

  /** What a receiver at `next` is told, from the unbounded log alone. */
  ghost function Observe<T>(capacity: nat, accepted: seq<T>, senders: nat, next: nat): (Recv<T>, nat)
    requires next <= |accepted|
  {
    var unread := |accepted| - next;
    if unread > capacity then
      (Lagged(unread - capacity), |accepted| - capacity)
    else if unread > 0 then
      (Value(accepted[next]), next + 1)
    else if senders == 0 then
      (Closed, next)
    else
      (Pending, next)
  }

  ghost function Accepted<T>(c: Ring<T>, accepted: seq<T>, value: T): seq<T> {
    if c.receivers == 0 then accepted else accepted + [value]
  }

  lemma SendHolds<T>(c: Ring<T>, accepted: seq<T>, value: T)
    requires Holds(c, accepted)
    ensures Holds(SendTo(c, value), Accepted(c, accepted, value))
  {
    if c.receivers != 0 {
      var longer := accepted + [value];
      assert c.buffer + [value] == longer[c.head..];
      if |c.buffer| + 1 > c.capacity {
        assert (c.buffer + [value])[1..] == longer[c.head + 1..];
      }
    }
  }

  /** The lag report is exact: on every state the channel can hold, the bounded
      buffer answers as the unbounded log would, lag counts included. */
  lemma TakeRefines<T>(c: Ring<T>, accepted: seq<T>, next: nat)
    requires Holds(c, accepted) && next <= |accepted|
    ensures TakeFrom(c, next) == Observe(c.capacity, accepted, c.senders, next)
  {
    if c.head <= next < |accepted| {
      assert c.buffer[next - c.head] == accepted[next];
    }
  }

  /** After a lag report, with nothing sent in between, the next receive returns
      the oldest value still held. */
  lemma LagThenOldest<T>(c: Ring<T>, accepted: seq<T>, next: nat)
    requires Holds(c, accepted) && next <= |accepted|
    requires TakeFrom(c, next).0.Lagged?
    ensures c.buffer != [] && TakeFrom(c, TakeFrom(c, next).1).0 == Value(c.buffer[0])
    ensures c.buffer[0] == accepted[|accepted| - c.capacity]
  {
    TakeRefines(c, accepted, next);
    TakeRefines(c, accepted, TakeFrom(c, next).1);
  }

  // ------------------------------------------------------------------
  // Every interleaving of the channel's operations
  // ------------------------------------------------------------------

  /** One receiver: where it subscribed, where it stands, and everything its
      receives have returned so far. */
  datatype Reader<T> = Reader(start: nat, next: nat, live: bool, seen: seq<Recv<T>>)

  /** The channel, its readers and, as history, every value it has accepted. */
  datatype World<T> = World(ring: Ring<T>, accepted: seq<T>, readers: seq<Reader<T>>)

  datatype Op<T> =
    | OpSend(value: T)
    | OpSubscribe
    | OpReceive(reader: nat)
    | OpDropReceiver(reader: nat)
    | OpCloneSender
    | OpDropSender

  ghost function Fresh<T>(capacity: nat): World<T> {
    World(Open(capacity), [], [Reader(0, 0, true, [])])
  }

  /** One atomic operation. An operation whose handle is gone changes nothing:
      a sender or receiver that was dropped cannot be used. */
  ghost function Apply<T>(w: World<T>, op: Op<T>): World<T> {
    match op
    case OpSend(v) =>
      if w.ring.senders == 0 then w
      else w.(ring := SendTo(w.ring, v), accepted := Accepted(w.ring, w.accepted, v))
    case OpSubscribe =>
      if w.ring.senders == 0 then w
      else w.(ring := w.ring.(receivers := w.ring.receivers + 1),
              readers := w.readers + [Reader(w.ring.Tail(), w.ring.Tail(), true, [])])
    case OpReceive(i) =>
      if i >= |w.readers| || !w.readers[i].live then w
      else
        var (result, next) := TakeFrom(w.ring, w.readers[i].next);
        if result.Pending? then w
        else w.(readers := w.readers[i := w.readers[i].(next := next, seen := w.readers[i].seen + [result])])
    case OpDropReceiver(i) =>
      if i >= |w.readers| || !w.readers[i].live || w.ring.receivers == 0 then w
      else w.(ring := w.ring.(receivers := w.ring.receivers - 1),
              readers := w.readers[i := w.readers[i].(live := false)])
    case OpCloneSender =>
      if w.ring.senders == 0 then w else w.(ring := w.ring.(senders := w.ring.senders + 1))
    case OpDropSender =>
      if w.ring.senders == 0 then w else w.(ring := w.ring.(senders := w.ring.senders - 1))
  }

  ghost function Run<T>(capacity: nat, ops: seq<Op<T>>): World<T> {
    if ops == [] then Fresh(capacity) else Apply(Run(capacity, ops[..|ops| - 1]), ops[|ops| - 1])
  }

  /** `seen` accounts for the log from `start` to `next`: each value is the log
      entry at the position it was read from, each lag skips that many. */
  ghost predicate Explains<T>(seen: seq<Recv<T>>, start: nat, next: nat, accepted: seq<T>) {
    if seen == [] then
      start == next <= |accepted|
    else
      var before := seen[..|seen| - 1];
      match seen[|seen| - 1]
      case Value(v) => 1 <= next <= |accepted| && accepted[next - 1] == v && Explains(before, start, next - 1, accepted)
      case Lagged(m) => 1 <= m <= next <= |accepted| && Explains(before, start, next - m, accepted)
      case _ => Explains(before, start, next, accepted)
  }

  ghost function LiveReaders<T>(readers: seq<Reader<T>>): nat {
    if readers == [] then 0
    else LiveReaders(readers[..|readers| - 1]) + if readers[|readers| - 1].live then 1 else 0
  }

  ghost predicate Consistent<T>(w: World<T>) {
    && Holds(w.ring, w.accepted)
    && w.ring.receivers == LiveReaders(w.readers)
    && forall i :: 0 <= i < |w.readers| ==>
         Explains(w.readers[i].seen, w.readers[i].start, w.readers[i].next, w.accepted)
  }

  lemma {:induction false} LiveReadersUpdate<T>(readers: seq<Reader<T>>, i: nat, r: Reader<T>)
    requires i < |readers|
    ensures LiveReaders(readers[i := r])
         == LiveReaders(readers) - (if readers[i].live then 1 else 0) + (if r.live then 1 else 0)
  {
    var n := |readers| - 1;
    if i == n {
      assert readers[i := r][..n] == readers[..n];
    } else {
      assert readers[i := r][..n] == readers[..n][i := r];
      LiveReadersUpdate(readers[..n], i, r);
    }
  }

  lemma {:induction false} ExplainsGrows<T>(seen: seq<Recv<T>>, start: nat, next: nat, accepted: seq<T>, value: T)
    requires Explains(seen, start, next, accepted)
    ensures Explains(seen, start, next, accepted + [value])
    decreases |seen|
  {
    if seen != [] {
      var before := seen[..|seen| - 1];
      match seen[|seen| - 1]
      case Value(v) => ExplainsGrows(before, start, next - 1, accepted, value);
      case Lagged(m) => ExplainsGrows(before, start, next - m, accepted, value);
      case _ => ExplainsGrows(before, start, next, accepted, value);
    }
  }

  lemma {:induction false} ExplainsBound<T>(seen: seq<Recv<T>>, start: nat, next: nat, accepted: seq<T>)
    requires Explains(seen, start, next, accepted)
    ensures start <= next <= |accepted|
    decreases |seen|
  {
    if seen != [] {
      var before := seen[..|seen| - 1];
      match seen[|seen| - 1]
      case Value(v) => ExplainsBound(before, start, next - 1, accepted);
      case Lagged(m) => ExplainsBound(before, start, next - m, accepted);
      case _ => ExplainsBound(before, start, next, accepted);
    }
  }

  lemma ReceiveExplained<T>(w: World<T>, i: nat)
    requires Consistent(w) && i < |w.readers|
    ensures var r := w.readers[i]; var (result, next) := TakeFrom(w.ring, r.next);
            !result.Pending? ==> Explains(r.seen + [result], r.start, next, w.accepted)
  {
    var r := w.readers[i];
    ExplainsBound(r.seen, r.start, r.next, w.accepted);
    TakeRefines(w.ring, w.accepted, r.next);
    var (result, next) := TakeFrom(w.ring, r.next);
    assert (r.seen + [result])[..|r.seen|] == r.seen;
  }

  lemma SendConsistent<T>(w: World<T>, v: T)
    requires Consistent(w)
    ensures Consistent(Apply(w, OpSend(v)))
  {
    SendHolds(w.ring, w.accepted, v);
    var accepted := Accepted(w.ring, w.accepted, v);
    forall i | 0 <= i < |w.readers|
      ensures Explains(w.readers[i].seen, w.readers[i].start, w.readers[i].next, accepted)
    {
      ExplainsGrows(w.readers[i].seen, w.readers[i].start, w.readers[i].next, w.accepted, v);
    }
  }

  lemma SubscribeConsistent<T>(w: World<T>)
    requires Consistent(w)
    ensures Consistent(Apply(w, OpSubscribe))
  {
    if w.ring.senders != 0 {
      assert Apply(w, OpSubscribe).readers[..|w.readers|] == w.readers;
    }
  }

  lemma ReceiveConsistent<T>(w: World<T>, i: nat)
    requires Consistent(w)
    ensures Consistent(Apply(w, OpReceive(i)))
  {
    if i < |w.readers| && w.readers[i].live && !TakeFrom(w.ring, w.readers[i].next).0.Pending? {
      ReceiveExplained(w, i);
      LiveReadersUpdate(w.readers, i, Apply(w, OpReceive(i)).readers[i]);
    }
  }

  lemma DropConsistent<T>(w: World<T>, i: nat)
    requires Consistent(w)
    ensures Consistent(Apply(w, OpDropReceiver(i)))
  {
    if i < |w.readers| && w.readers[i].live && w.ring.receivers != 0 {
      LiveReadersUpdate(w.readers, i, w.readers[i].(live := false));
    }
  }

  lemma ApplyConsistent<T>(w: World<T>, op: Op<T>)
    requires Consistent(w)
    ensures Consistent(Apply(w, op))
  {
    match op
    case OpSend(v) => SendConsistent(w, v);
    case OpSubscribe => SubscribeConsistent(w);
    case OpReceive(i) => ReceiveConsistent(w, i);
    case OpDropReceiver(i) => DropConsistent(w, i);
    case OpCloneSender =>
    case OpDropSender =>
  }

  lemma CapacityKept<T>(w: World<T>, op: Op<T>)
    ensures Apply(w, op).ring.capacity == w.ring.capacity
  {
  }

  /** The channel refines an unbounded log under every interleaving: the buffer
      is the last `capacity` accepted values, the receiver count is the number
      of live receivers, and every reader's history accounts for the log. */
  lemma {:induction false} RefinesLog<T>(capacity: nat, ops: seq<Op<T>>)
    ensures Consistent(Run(capacity, ops))
    ensures Run(capacity, ops).ring.capacity == if capacity == 0 then 1 else capacity
    decreases |ops|
  {
    if ops == [] {
      var readers := Fresh<T>(capacity).readers;
      assert readers[..0] == [];
    } else {
      RefinesLog(capacity, ops[..|ops| - 1]);
      CapacityKept(Run(capacity, ops[..|ops| - 1]), ops[|ops| - 1]);
      ApplyConsistent(Run(capacity, ops[..|ops| - 1]), ops[|ops| - 1]);
    }
  }

  ghost function Payload<T>(seen: seq<Recv<T>>): seq<T> {
    if seen == [] then []
    else
      var last := seen[|seen| - 1];
      Payload(seen[..|seen| - 1]) + if last.Value? then [last.value] else []
  }

  ghost function Missed<T>(seen: seq<Recv<T>>): nat {
    if seen == [] then 0
    else
      var last := seen[|seen| - 1];
      Missed(seen[..|seen| - 1]) + if last.Lagged? then last.missed else 0
  }

  lemma {:induction false} ExplainsCounts<T>(seen: seq<Recv<T>>, start: nat, next: nat, accepted: seq<T>)
    requires Explains(seen, start, next, accepted)
    ensures |Payload(seen)| + Missed(seen) == next - start
    decreases |seen|
  {
    if seen != [] {
      var before := seen[..|seen| - 1];
      match seen[|seen| - 1]
      case Value(v) => ExplainsCounts(before, start, next - 1, accepted);
      case Lagged(m) => ExplainsCounts(before, start, next - m, accepted);
      case _ => ExplainsCounts(before, start, next, accepted);
    }
  }

  lemma {:induction false} ExplainsContents<T>(seen: seq<Recv<T>>, start: nat, next: nat, accepted: seq<T>)
    requires Explains(seen, start, next, accepted) && Missed(seen) == 0
    ensures start <= next <= |accepted| && Payload(seen) == accepted[start..next]
    decreases |seen|
  {
    ExplainsBound(seen, start, next, accepted);
    if seen != [] {
      var before := seen[..|seen| - 1];
      var last := seen[|seen| - 1];
      if last.Value? {
        ExplainsContents(before, start, next - 1, accepted);
        assert accepted[start..next] == accepted[start..next - 1] + [last.value];
      } else {
        assert !last.Lagged?;
        ExplainsContents(before, start, next, accepted);
      }
    }
  }

  /** Conservation, for every receiver in every reachable state: values received
      plus values reported missed plus values unread is what was accepted since
      it subscribed; and a receiver never told of a lag has received exactly
      what was accepted since then, in order. */
  lemma Conservation<T>(capacity: nat, ops: seq<Op<T>>, i: nat)
    requires i < |Run(capacity, ops).readers|
    ensures var w := Run(capacity, ops); var r := w.readers[i];
            && r.start <= r.next <= |w.accepted|
            && |Payload(r.seen)| + Missed(r.seen) + (|w.accepted| - r.next) == |w.accepted| - r.start
            && (Missed(r.seen) == 0 ==> Payload(r.seen) == w.accepted[r.start..r.next])
  {
    RefinesLog(capacity, ops);
    var w := Run(capacity, ops);
    var r := w.readers[i];
    ExplainsBound(r.seen, r.start, r.next, w.accepted);
    ExplainsCounts(r.seen, r.start, r.next, w.accepted);
    if Missed(r.seen) == 0 {
      ExplainsContents(r.seen, r.start, r.next, w.accepted);
    }
  }

  /** A lag is reported if and only if more than `capacity` values are unread, its
      count is the excess, and the receive after it returns the oldest value held. */
  ghost predicate LagsExactly<T>(c: Ring<T>, accepted: seq<T>, next: nat) {
    var unread := |accepted| - next;
    && c.capacity >= 1
    && (TakeFrom(c, next).0.Lagged? <==> unread > c.capacity)
    && (unread > c.capacity ==>
          && TakeFrom(c, next).0 == Lagged(unread - c.capacity)
          && c.buffer != []
          && TakeFrom(c, TakeFrom(c, next).1).0 == Value(c.buffer[0])
          && c.buffer[0] == accepted[|accepted| - c.capacity])
  }

  lemma HeldLag<T>(c: Ring<T>, accepted: seq<T>, next: nat)
    requires Holds(c, accepted) && next <= |accepted|
    ensures LagsExactly(c, accepted, next)
  {
    TakeRefines(c, accepted, next);
    if TakeFrom(c, next).0.Lagged? {
      LagThenOldest(c, accepted, next);
    }
  }

  /** Lag exactness in every reachable state. */
  lemma LagExact<T>(capacity: nat, ops: seq<Op<T>>, i: nat)
    requires i < |Run(capacity, ops).readers|
    ensures var w := Run(capacity, ops); LagsExactly(w.ring, w.accepted, w.readers[i].next)
  {
    RefinesLog(capacity, ops);
    var w := Run(capacity, ops);
    ExplainsBound(w.readers[i].seen, w.readers[i].start, w.readers[i].next, w.accepted);
    HeldLag(w.ring, w.accepted, w.readers[i].next);
  }

  /** The senders left: a sender can be cloned or dropped only while there is one. */
  function SendersLeft<T>(ops: seq<Op<T>>): nat {
    if ops == [] then 1
    else
      var n := SendersLeft(ops[..|ops| - 1]);
      if n == 0 then 0 else if ops[|ops| - 1].OpCloneSender? then n + 1 else if ops[|ops| - 1].OpDropSender? then n - 1 else n
  }

  /** The values sent while there was a sender and somebody to receive them. */
  ghost function SentBy<T>(capacity: nat, ops: seq<Op<T>>): seq<T> {
    if ops == [] then []
    else
      var before, op := ops[..|ops| - 1], ops[|ops| - 1];
      SentBy(capacity, before)
        + if op.OpSend? && SendersLeft(before) > 0 && LiveReaders(Run(capacity, before).readers) > 0 then [op.value] else []
  }

  lemma HandleStep<T>(w: World<T>, op: Op<T>)
    requires w.ring.receivers == LiveReaders(w.readers)
    ensures Apply(w, op).ring.senders
         == if w.ring.senders == 0 then 0 else if op.OpCloneSender? then w.ring.senders + 1
            else if op.OpDropSender? then w.ring.senders - 1 else w.ring.senders
    ensures Apply(w, op).accepted
         == w.accepted + if op.OpSend? && w.ring.senders > 0 && LiveReaders(w.readers) > 0 then [op.value] else []
  {
    assert w.accepted + [] == w.accepted;
  }

  /** What was accepted is exactly what was sent while somebody could receive it, and
      the channel closes exactly when the last sender is gone. */
  lemma {:induction false} AcceptedExactly<T>(capacity: nat, ops: seq<Op<T>>)
    ensures Run(capacity, ops).accepted == SentBy(capacity, ops)
    ensures Run(capacity, ops).ring.senders == SendersLeft(ops)
    decreases |ops|
  {
    if ops != [] {
      AcceptedExactly(capacity, ops[..|ops| - 1]);
      RefinesLog(capacity, ops[..|ops| - 1]);
      HandleStep(Run(capacity, ops[..|ops| - 1]), ops[|ops| - 1]);
    }
  }

  /** What a receiver is told in every reachable state: closed exactly when it has read
      everything and every sender is gone, nothing exactly when it has read everything
      and one is left, and otherwise the next value sent or how many it missed. */
  lemma ClosedExactly<T>(capacity: nat, ops: seq<Op<T>>, i: nat)
    requires i < |Run(capacity, ops).readers|
    ensures var w := Run(capacity, ops); var next := w.readers[i].next; var sent := SentBy(capacity, ops);
            var told := TakeFrom(w.ring, next).0;
            && next <= |sent|
            && (told.Closed? <==> next == |sent| && SendersLeft(ops) == 0)
            && (told.Pending? <==> next == |sent| && SendersLeft(ops) > 0)
            && (told.Value? ==> told.value == sent[next])
  {
    RefinesLog(capacity, ops);
    AcceptedExactly(capacity, ops);
    var w := Run(capacity, ops);
    ExplainsBound(w.readers[i].seen, w.readers[i].start, w.readers[i].next, w.accepted);
    TakeRefines(w.ring, w.accepted, w.readers[i].next);
  }

  /** What each operation does to the readers: one subscribes at the end of what was
      sent, one receives, one is dropped; the others are left alone. */
  lemma ReadersExactly<T>(w: World<T>, op: Op<T>, i: nat)
    requires i < |w.readers| && w.ring.receivers == LiveReaders(w.readers)
    ensures var t := Apply(w, op);
            && |t.readers| == |w.readers| + (if op.OpSubscribe? && w.ring.senders > 0 then 1 else 0)
            && (op.OpSubscribe? && w.ring.senders > 0 ==>
                  t.readers[|w.readers|] == Reader(w.ring.Tail(), w.ring.Tail(), true, []))
            && (op != OpReceive(i) && op != OpDropReceiver(i) ==> t.readers[i] == w.readers[i])
            && t.readers[i].start == w.readers[i].start
            && (t.readers[i].live <==> w.readers[i].live && op != OpDropReceiver(i))
            && (op == OpReceive(i) && w.readers[i].live && !TakeFrom(w.ring, w.readers[i].next).0.Pending? ==>
                  t.readers[i].seen == w.readers[i].seen + [TakeFrom(w.ring, w.readers[i].next).0])
  {
    LiveReadersUpdate(w.readers, i, w.readers[i]);
    if w.readers[i].live {
      LiveReadersUpdate(w.readers, i, w.readers[i].(live := false));
    }
  }

  // ------------------------------------------------------------------
  // The channel in place
  // ------------------------------------------------------------------

  datatype SendResult<T> = Sent(receivers: nat) | NoReceivers(value: T)

  /** The shared half of the channel. `accepted` is the history that the buffer
      is a window on. */
  class Channel<T> {
    const capacity: nat
    var buffer: seq<T>
    var head: nat
    var senders: nat
    var receivers: nat
    ghost var accepted: seq<T>

    ghost function View(): Ring<T>
      reads this
    {
      Ring(capacity, buffer, head, senders, receivers)
    }

    ghost predicate Valid()
      reads this
    {
      Holds(View(), accepted)
    }

    constructor (requested: nat)
      ensures Valid() && accepted == []
      ensures View() == Open(requested)
    {
      capacity := if requested == 0 then 1 else requested;
      buffer, head, senders, receivers := [], 0, 1, 1;
      accepted := [];
    }

    method Send(value: T) returns (result: SendResult<T>)
      requires Valid()
      modifies this
      ensures Valid() && View() == SendTo(old(View()), value)
      ensures old(receivers) == 0 ==> result == NoReceivers(value) && accepted == old(accepted)
      ensures old(receivers) > 0 ==> result == Sent(receivers) && accepted == old(accepted) + [value]
    {
      SendHolds(View(), accepted, value);
      if receivers == 0 {
        return NoReceivers(value);
      }
      buffer := buffer + [value];
      if |buffer| > capacity {
        buffer := buffer[1..];
        head := head + 1;
      }
      accepted := accepted + [value];
      result := Sent(receivers);
    }

    method Subscribe() returns (r: Receiver<T>)
      requires Valid()
      modifies this`receivers
      ensures Valid() && receivers == old(receivers) + 1
      ensures fresh(r) && r.shared == this && r.next == |accepted|
    {
      receivers := receivers + 1;
      r := new Receiver(this, head + |buffer|);
    }

    method CloneSender()
      requires Valid()
      modifies this`senders
      ensures Valid() && senders == old(senders) + 1
    {
      senders := senders + 1;
    }

    method DropSender() returns (last: bool)
      requires Valid() && senders > 0
      modifies this`senders
      ensures Valid() && senders == old(senders) - 1
      ensures last <==> senders == 0
    {
      senders := senders - 1;
      last := senders == 0;
    }
  }

  /** The receiving half: a position in the shared stream. */
  class Receiver<T> {
    const shared: Channel<T>
    var next: nat

    constructor (shared: Channel<T>, next: nat)
      ensures this.shared == shared && this.next == next
    {
      this.shared, this.next := shared, next;
    }

    ghost predicate Valid()
      reads this, shared
    {
      shared.Valid() && next <= |shared.accepted|
    }

    method Take() returns (result: Recv<T>)
      requires Valid()
      modifies this`next
      ensures Valid()
      ensures (result, next) == Observe(shared.capacity, shared.accepted, shared.senders, old(next))
    {
      TakeRefines(shared.View(), shared.accepted, next);
      if next < shared.head {
        result := Lagged(shared.head - next);
        next := shared.head;
      } else if next - shared.head < |shared.buffer| {
        result := Value(shared.buffer[next - shared.head]);
        next := next + 1;
      } else if shared.senders == 0 {
        result := Closed;
      } else {
        result := Pending;
      }
    }

    method Drop()
      requires shared.Valid() && shared.receivers > 0
      modifies shared`receivers
      ensures shared.Valid() && shared.receivers == old(shared.receivers) - 1
    {
      shared.receivers := shared.receivers - 1;
    }
  }
}
