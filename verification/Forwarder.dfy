/** The forwarder's loop in place, on the shared channel and the live run, while
    nobody else runs and the sink accepts. The `Delivery` machine has the
    interleavings; here the loop as written is proved to deliver exactly the
    part of the log it owes. */
module Forwarder {
  import opened Broadcast
  import opened RunJournal

  /** Every entry the receiver has not read is the log entry `offset` names. */
  ghost predicate Follows<E>(run: LiveRun<E>, next: nat, offset: nat)
    reads run, run.events
  {
    && |run.log| == |run.events.accepted| + offset
    && forall q :: next <= q < |run.events.accepted| ==>
         run.events.accepted[q] == Sequenced(q + offset + 1, run.log[q + offset])
  }

  /** The recovery branch of the loop: attach again and send the replay. */
  method Resume<E>(run: LiveRun<E>, cursor: nat)
    returns (receiver: Receiver?<Sequenced<E>>, replayed: seq<Sequenced<E>>, last: nat)
    requires run.Valid()
    modifies run.events`receivers
    ensures run.Valid()
    ensures receiver == null <==> cursor < run.replayFloor
    ensures receiver == null ==> replayed == [] && run.events.receivers == old(run.events.receivers)
    ensures receiver != null ==>
              && fresh(receiver) && receiver.shared == run.events && receiver.next == |run.events.accepted|
              && run.events.receivers == old(run.events.receivers) + 1
              && replayed == Number(run.log, Min(Max(cursor, run.acked), |run.log|), |run.log|)
              && last == (if replayed == [] then cursor else |run.log|)
  {
    var replay, attached := run.Attach(cursor);
    last, replayed, receiver := cursor, [], attached;
    if replay.Events? {
      for i := 0 to |replay.events|
        invariant replayed == replay.events[..i]
        invariant last == if i == 0 then cursor else replay.events[i - 1].sequence
      {
        var event := replay.events[i];
        if event.sequence > last {
          last := event.sequence;
          replayed := replayed + [event];
        }
      }
    }
  }

  /** What is owed to a forwarder at `cursor` whose receiver is at `next`: with
      no lag the unread events beyond the cursor; after a lag everything beyond
      the cursor that is not acknowledged, or nothing if the cursor expired. */
  ghost function Owed<E>(log: seq<E>, unread: nat, cursor: nat, floor: nat, acked: nat): seq<Sequenced<E>>
    requires unread <= |log|
  {
    if unread <= EVENT_CAPACITY then
      Number(log, Max(|log| - unread, Min(cursor, |log|)), |log|)
    else if cursor < floor then []
    else
      Number(log, Min(Max(cursor, acked), |log|), |log|)
  }

  /** One turn: nothing unread, and it would park; a lag, made good in one go or
      the end; or the next event, sent if it is beyond the cursor. */
  ghost predicate Turn<E>(log: seq<E>, unread: nat, cursor: nat, floor: nat, acked: nat,
                          sent: seq<Sequenced<E>>, unread': nat, last: nat, stop: bool, expired: bool)
    requires unread <= |log|
  {
    if unread == 0 then stop && !expired && sent == []
    else if unread > EVENT_CAPACITY then
      && expired == stop == (cursor < floor)
      && (if stop then sent == [] else sent == Number(log, Min(Max(cursor, acked), |log|), |log|) && unread' == 0)
    else
      var s: nat := |log| - unread + 1;
      && !stop && !expired && unread' == unread - 1 && last == Max(s, cursor)
      && sent == if s <= cursor then [] else [Sequenced(s, log[s - 1])]
  }

  /** What a forwarder that started with `start` unread entries has sent when
      `unread` are left: the part of what it is owed up to its position, or after
      a lag all of it. */
  ghost predicate Sofar<E>(log: seq<E>, start: nat, unread: nat, cursor: nat, floor: nat, acked: nat,
                           delivered: seq<Sequenced<E>>, last: nat, stop: bool, expired: bool)
    requires unread <= start <= |log|
  {
    if start <= EVENT_CAPACITY then
      var lo := Max(|log| - start, Min(cursor, |log|));
      && !expired && (if stop then unread == 0 else cursor <= last <= Max(cursor, |log| - unread))
      && delivered == Number(log, lo, Max(lo, |log| - unread))
    else if expired then
      stop && cursor < floor && delivered == []
    else if unread == start then
      !stop && last == cursor && delivered == []
    else
      && unread == 0 && cursor >= floor
      && delivered == Number(log, Min(Max(cursor, acked), |log|), |log|)
  }

  lemma SofarTurn<E>(log: seq<E>, start: nat, unread: nat, cursor: nat, floor: nat, acked: nat,
                     delivered: seq<Sequenced<E>>, last: nat,
                     sent: seq<Sequenced<E>>, unread': nat, last': nat, stop: bool, expired: bool)
    requires unread' <= unread <= start <= |log|
    requires Sofar(log, start, unread, cursor, floor, acked, delivered, last, false, false)
    requires Turn(log, unread, last, floor, acked, sent, unread', last', stop, expired)
    ensures Sofar(log, start, unread', cursor, floor, acked, delivered + sent, last', stop, expired)
  {
  }

  lemma SofarOwed<E>(log: seq<E>, start: nat, unread: nat, cursor: nat, floor: nat, acked: nat,
                     delivered: seq<Sequenced<E>>, last: nat, expired: bool)
    requires unread <= start <= |log|
    requires Sofar(log, start, unread, cursor, floor, acked, delivered, last, true, expired)
    ensures delivered == Owed(log, start, cursor, floor, acked)
    ensures expired <==> start > EVENT_CAPACITY && cursor < floor
  {
  }

  /** What a lag does: attach again and let go of the old receiver, or return,
      which lets go of it too. */
  method Recover<E>(run: LiveRun<E>, cursor: nat, events: Receiver<Sequenced<E>>)
    returns (receiver: Receiver<Sequenced<E>>, sent: seq<Sequenced<E>>, last: nat, expired: bool)
    requires run.Valid() && events.shared == run.events && events.Valid() && run.events.receivers > 0
    modifies run.events`receivers
    ensures run.Valid() && run.events.receivers == old(run.events.receivers) - if expired then 1 else 0
    ensures expired <==> cursor < run.replayFloor
    ensures if expired then receiver == events && sent == [] else
              && fresh(receiver) && receiver.shared == run.events && receiver.next == |run.events.accepted|
              && sent == Number(run.log, Min(Max(cursor, run.acked), |run.log|), |run.log|)
  {
    var attached;
    attached, sent, last := Resume(run, cursor);
    receiver, expired := events, attached == null;
    if attached != null {
      receiver := attached;
    }
    events.Drop();
  }

  /** One turn of the loop: receive, then send, skip or recover. A forwarder whose
      cursor expired returns, which drops its receiver. */
  method ForwardOnce<E>(run: LiveRun<E>, cursor: nat, events: Receiver<Sequenced<E>>, ghost offset: nat)
    returns (receiver: Receiver<Sequenced<E>>, sent: seq<Sequenced<E>>, last: nat, stop: bool, expired: bool)
    requires run.Valid() && events.shared == run.events && events.Valid()
    requires run.events.receivers > 0 && Follows(run, events.next, offset)
    modifies events`next, run.events`receivers
    ensures run.Valid() && run.events.receivers == old(run.events.receivers) - if expired then 1 else 0
    ensures (receiver == events || fresh(receiver)) && receiver.shared == run.events
    ensures receiver.Valid() && Follows(run, receiver.next, offset)
    ensures Turn(run.log, |run.events.accepted| - old(events.next), cursor, run.replayFloor, run.acked,
                 sent, |run.events.accepted| - receiver.next, last, stop, expired)
    ensures receiver.next >= old(events.next) && (receiver.next > old(events.next) || stop)
  {
    ghost var log, unread: nat := run.log, |run.events.accepted| - events.next;
    receiver, sent, last, stop, expired := events, [], cursor, false, false;
    var result := events.Take();
    match result
    case Value(event) =>
      assert event == Sequenced(|log| - unread + 1, log[|log| - unread]);
      if event.sequence > last {
        last, sent := event.sequence, [event];
      }
    case Lagged(_) =>
      receiver, sent, last, stop := Recover(run, cursor, events);
      expired := stop;
    case Closed => stop := true;
    case Pending => stop := true;
  }

  /** The forwarder delivers exactly what it is owed. It keeps one receiver alive
      until it returns on an expired cursor, and then none. */
  method ForwardRunEvents<E>(run: LiveRun<E>, cursor: nat, start: Receiver<Sequenced<E>>, ghost offset: nat)
    returns (delivered: seq<Sequenced<E>>, expired: bool)
    requires run.Valid() && start.shared == run.events && start.Valid()
    requires run.events.receivers > 0 && Follows(run, start.next, offset)
    modifies start`next, run.events`receivers
    ensures run.Valid() && run.events.receivers == old(run.events.receivers) - if expired then 1 else 0
    ensures delivered == Owed(run.log, |run.events.accepted| - old(start.next), cursor, run.replayFloor, run.acked)
    ensures expired <==> |run.events.accepted| - old(start.next) > EVENT_CAPACITY && cursor < run.replayFloor
  {
    ghost var log, total, floor, acked := run.log, |run.events.accepted|, run.replayFloor, run.acked;
    ghost var unread: nat := total - start.next;
    ghost var first := unread;
    var events, last, stop := start, cursor, false;
    delivered, expired := [], false;
    while !stop
      invariant run.Valid() && events.shared == run.events && events.Valid()
      invariant run.events.receivers == old(run.events.receivers) - if expired then 1 else 0
      invariant events == start || fresh(events)
      invariant Follows(run, events.next, offset)
      invariant !stop ==> !expired
      invariant unread == total - events.next && unread <= first
      invariant Sofar(log, first, unread, cursor, floor, acked, delivered, last, stop, expired)
      decreases !stop, unread
    {
      ghost var before, from := unread, last;
      var sent;
      events, sent, last, stop, expired := ForwardOnce(run, last, events, offset);
      unread := total - events.next;
      SofarTurn(log, first, before, cursor, floor, acked, delivered, from, sent, unread, last, stop, expired);
      delivered := delivered + sent;
    }
    SofarOwed(log, first, unread, cursor, floor, acked, delivered, last, expired);
  }
}
