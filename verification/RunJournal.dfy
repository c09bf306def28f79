/** A run's replay journal: the bounded, acknowledgement-pruned suffix of its
    numbered event log, and the live run that owns it.

    The reference is the unbounded log: the event with sequence `s` is
    `log[s - 1]`. `Represents` says what the journal keeps of it. */
module RunJournal {
  import opened Broadcast

  const MAX_REPLAY_EVENTS: nat := 2_048
  const EVENT_CAPACITY: nat := 256

  datatype Sequenced<E> = Sequenced(sequence: nat, event: E)

  datatype Journal<E> = Journal(entries: seq<Sequenced<E>>, floor: nat, latest: nat, acked: nat)

  datatype Replay<E> = Expired(requested: nat, earliest: nat) | Events(events: seq<Sequenced<E>>)

  function Max(a: nat, b: nat): nat {
    if a > b then a else b
  }

  function Min(a: nat, b: nat): nat {
    if a < b then a else b
  }

  function Empty<E>(): Journal<E> {
    Journal([], 0, 0, 0)
  }

  /** Expire entries from the front until the journal fits. */
  function Trim<E>(entries: seq<Sequenced<E>>, floor: nat): (seq<Sequenced<E>>, nat) {
    if |entries| > MAX_REPLAY_EVENTS then
      Trim(entries[1..], Max(floor, entries[0].sequence))
    else
      (entries, floor)
  }

  /** Drop acknowledged entries from the front. */
  function Prune<E>(entries: seq<Sequenced<E>>, acked: nat): seq<Sequenced<E>> {
    if entries != [] && entries[0].sequence <= acked then Prune(entries[1..], acked) else entries
  }

  /** The entries after a cursor. */
  function After<E>(entries: seq<Sequenced<E>>, after: nat): seq<Sequenced<E>> {
    if entries == [] then []
    else (if entries[0].sequence > after then [entries[0]] else []) + After(entries[1..], after)
  }

  function Append<E>(j: Journal<E>, event: E): Journal<E> {
    var (entries, floor) := Trim(j.entries + [Sequenced(j.latest + 1, event)], j.floor);
    Journal(entries, floor, j.latest + 1, j.acked)
  }

  function Acknowledge<E>(j: Journal<E>, through: nat): Journal<E> {
    var acked := Max(j.acked, Min(through, j.latest));
    j.(acked := acked, entries := Prune(j.entries, acked))
  }

  function ReplayFrom<E>(j: Journal<E>, after: nat): Replay<E> {
    if after < j.floor then Expired(after, j.floor) else Events(After(j.entries, after))
  }

  // ------------------------------------------------------------------
  // What the journal keeps of the log
  // ------------------------------------------------------------------

  /** The log's events with sequences in `(lo, hi]`, numbered. */
  ghost function Number<E>(log: seq<E>, lo: nat, hi: nat): (r: seq<Sequenced<E>>)
    requires lo <= hi <= |log|
    ensures |r| == hi - lo
    ensures forall i :: 0 <= i < |r| ==> r[i] == Sequenced(lo + i + 1, log[lo + i])
  {
    seq(hi - lo, i requires 0 <= i < hi - lo => Sequenced(lo + i + 1, log[lo + i]))
  }

  /** The journal is exactly the log in `(max(floor, acked), latest]`, never more
      than 2048 entries, and a non-zero floor is at least 2048 behind. */
  ghost predicate Represents<E>(j: Journal<E>, log: seq<E>) {
    && j.latest == |log|
    && j.acked <= j.latest
    && (j.floor == 0 || j.floor + MAX_REPLAY_EVENTS <= j.latest)
    && j.latest - Max(j.floor, j.acked) <= MAX_REPLAY_EVENTS
    && j.entries == Number(log, Max(j.floor, j.acked), j.latest)
  }

  lemma EmptyRepresents<E>()
    ensures Represents(Empty<E>(), [])
  {
  }

  lemma AppendRepresents<E>(j: Journal<E>, log: seq<E>, event: E)
    requires Represents(j, log)
    ensures Represents(Append(j, event), log + [event])
    ensures Append(j, event).floor >= j.floor && Append(j, event).acked == j.acked
  {
    var start := Max(j.floor, j.acked);
    var longer := log + [event];
    var entries := j.entries + [Sequenced(j.latest + 1, event)];
    assert entries == Number(longer, start, |longer|);
    if |entries| > MAX_REPLAY_EVENTS {
      assert |entries[1..]| == MAX_REPLAY_EVENTS;
      assert Trim(entries, j.floor) == (entries[1..], start + 1);
      assert entries[1..] == Number(longer, start + 1, |longer|);
    }
  }

  lemma {:induction false} PruneNumber<E>(log: seq<E>, lo: nat, acked: nat)
    requires lo <= |log| && acked <= |log|
    ensures Prune(Number(log, lo, |log|), acked) == Number(log, Max(lo, acked), |log|)
    decreases |log| - lo
  {
    if lo < acked {
      assert Number(log, lo, |log|)[1..] == Number(log, lo + 1, |log|);
      PruneNumber(log, lo + 1, acked);
    }
  }

  lemma AcknowledgeRepresents<E>(j: Journal<E>, log: seq<E>, through: nat)
    requires Represents(j, log)
    ensures Represents(Acknowledge(j, through), log)
    ensures Acknowledge(j, through).acked == Max(j.acked, Min(through, |log|))
  {
    var j' := Acknowledge(j, through);
    PruneNumber(log, Max(j.floor, j.acked), j'.acked);
  }

  lemma {:induction false} AfterAll<E>(entries: seq<Sequenced<E>>, after: nat)
    requires forall i :: 0 <= i < |entries| ==> entries[i].sequence > after
    ensures After(entries, after) == entries
  {
    if entries != [] {
      AfterAll(entries[1..], after);
    }
  }

  lemma {:induction false} AfterNumber<E>(log: seq<E>, lo: nat, after: nat)
    requires lo <= |log|
    ensures After(Number(log, lo, |log|), after) == Number(log, Max(lo, Min(after, |log|)), |log|)
    decreases |log| - lo
  {
    var entries := Number(log, lo, |log|);
    if after <= lo {
      AfterAll(entries, after);
    } else if lo < |log| {
      assert entries[1..] == Number(log, lo + 1, |log|);
      AfterNumber(log, lo + 1, after);
      assert After(entries, after) == [] + After(entries[1..], after);
    }
  }

  /** A successful attach at `after` replays exactly the log in
      `(max(after, acked), latest]`: what it skips was acknowledged. */
  lemma ReplayExact<E>(j: Journal<E>, log: seq<E>, after: nat)
    requires Represents(j, log)
    ensures ReplayFrom(j, after).Events? <==> after >= j.floor
    ensures after >= j.floor ==>
              ReplayFrom(j, after).events == Number(log, Min(Max(after, j.acked), |log|), |log|)
    ensures after >= j.floor ==> |ReplayFrom(j, after).events| <= MAX_REPLAY_EVENTS
  {
    AfterNumber(log, Max(j.floor, j.acked), after);
  }

  /** A replay starts right after its cursor if and only if the cursor is not below
      the acknowledged sequence. */
  lemma ReplayGap<E>(j: Journal<E>, log: seq<E>, after: nat)
    requires Represents(j, log) && after >= j.floor && ReplayFrom(j, after).events != []
    ensures ReplayFrom(j, after).events[0].sequence == Max(after, j.acked) + 1
    ensures ReplayFrom(j, after).events[0].sequence == after + 1 <==> after >= j.acked
  {
    ReplayExact(j, log, after);
  }

  /** When an attach expires: only if more than 2048 events were published past
      the cursor; and, for a cursor that is not below the acknowledged one,
      exactly then. */
  lemma ExpiryBound<E>(j: Journal<E>, log: seq<E>, after: nat)
    requires Represents(j, log)
    ensures ReplayFrom(j, after).Expired? ==> |log| - after > MAX_REPLAY_EVENTS
    ensures after >= j.acked ==> (ReplayFrom(j, after).Expired? <==> |log| - after > MAX_REPLAY_EVENTS)
  {
  }

  /** The journal of a run that published these events and had none acknowledged. */
  function Unacknowledged<E>(log: seq<E>): Journal<E> {
    if log == [] then Empty() else Append(Unacknowledged(log[..|log| - 1]), log[|log| - 1])
  }

  lemma {:induction false} UnacknowledgedRepresents<E>(log: seq<E>)
    ensures Represents(Unacknowledged(log), log) && Unacknowledged(log).acked == 0
  {
    if log != [] {
      UnacknowledgedRepresents(log[..|log| - 1]);
      AppendRepresents(Unacknowledged(log[..|log| - 1]), log[..|log| - 1], log[|log| - 1]);
      assert log[..|log| - 1] + [log[|log| - 1]] == log;
    } else {
      EmptyRepresents<E>();
    }
  }

  /** With nothing acknowledged, an attach from the start works for the first 2048
      events and for no more; and from any cursor exactly the last 2048 can be had. */
  lemma JournalReaches<E>(log: seq<E>, after: nat)
    ensures ReplayFrom(Unacknowledged(log), after).Expired? <==> |log| - after > 2048
    ensures |Unacknowledged(log).entries| == if |log| > 2048 then 2048 else |log|
  {
    UnacknowledgedRepresents(log);
    ExpiryBound(Unacknowledged(log), log, after);
    UnacknowledgedFloor(log);
  }

  lemma {:induction false} UnacknowledgedFloor<E>(log: seq<E>)
    ensures Unacknowledged(log).floor == if |log| > 2048 then |log| - 2048 else 0
  {
    if log != [] {
      var before := log[..|log| - 1];
      UnacknowledgedFloor(before);
      UnacknowledgedRepresents(before);
      AppendFloor(Unacknowledged(before), before, log[|log| - 1]);
    }
  }

  lemma AppendFloor<E>(j: Journal<E>, log: seq<E>, event: E)
    requires Represents(j, log) && j.acked == 0
    ensures Append(j, event).floor == if |log| - j.floor < MAX_REPLAY_EVENTS then j.floor else j.floor + 1
  {
    var entries := j.entries + [Sequenced(j.latest + 1, event)];
    if |entries| > MAX_REPLAY_EVENTS {
      assert |entries[1..]| == MAX_REPLAY_EVENTS && entries[0].sequence == j.floor + 1;
      assert Trim(entries, j.floor) == (entries[1..], j.floor + 1);
    }
  }

  // ------------------------------------------------------------------
  // The live run in place
  // ------------------------------------------------------------------

  method PushJournal<E>(journal: seq<Sequenced<E>>, replayFloor: nat, event: Sequenced<E>)
    returns (entries: seq<Sequenced<E>>, floor: nat)
    ensures (entries, floor) == Trim(journal + [event], replayFloor)
    ensures |entries| <= MAX_REPLAY_EVENTS && floor >= replayFloor
  {
    entries, floor := journal + [event], replayFloor;
    while |entries| > MAX_REPLAY_EVENTS
      invariant Trim(entries, floor) == Trim(journal + [event], replayFloor)
      invariant floor >= replayFloor
    {
      floor := Max(floor, entries[0].sequence);
      entries := entries[1..];
    }
  }

  lemma AfterNext<E>(journal: seq<Sequenced<E>>, i: nat, after: nat)
    requires i < |journal|
    ensures After(journal[i..], after) == (if journal[i].sequence > after then [journal[i]] else []) + After(journal[i + 1..], after)
  {
    assert journal[i..][1..] == journal[i + 1..];
  }

  lemma Reassociate<T>(a: seq<T>, b: seq<T>, c: seq<T>)
    ensures a + (b + c) == a + b + c && a + [] == a
  {
  }

  /** The replay filter. */
  method CollectAfter<E>(journal: seq<Sequenced<E>>, after: nat) returns (found: seq<Sequenced<E>>)
    ensures found == After(journal, after)
  {
    found := [];
    assert journal[0..] == journal;
    for i := 0 to |journal|
      invariant found + After(journal[i..], after) == After(journal, after)
    {
      AfterNext(journal, i, after);
      Reassociate(found, if journal[i].sequence > after then [journal[i]] else [], After(journal[i + 1..], after));
      if journal[i].sequence > after {
        found := found + [journal[i]];
      }
    }
  }

  /** One entry of the run registry, as far as its events go. `log` is every
      event the run has published. */
  class LiveRun<E> {
    var latest: nat
    var acked: nat
    var journal: seq<Sequenced<E>>
    var replayFloor: nat
    const events: Channel<Sequenced<E>>
    ghost var log: seq<E>

    ghost function View(): Journal<E>
      reads this
    {
      Journal(journal, replayFloor, latest, acked)
    }

    ghost predicate Valid()
      reads this, events
    {
      Represents(View(), log) && events.Valid() && events.capacity == EVENT_CAPACITY
    }

    /** The registry drops the receiver the channel is created with. */
    constructor ()
      ensures Valid() && fresh(events)
      ensures log == [] && View() == Empty() && events.receivers == 0
    {
      latest, acked, journal, replayFloor := 0, 0, [], 0;
      log := [];
      events := new Channel(EVENT_CAPACITY);
      new;
      events.receivers := 0;
    }

    method Publish(event: E) returns (published: Sequenced<E>)
      requires Valid()
      modifies this, events
      ensures Valid()
      ensures log == old(log) + [event] && published == Sequenced(|log|, event)
      ensures View() == Append(old(View()), event)
      ensures events.View() == SendTo(old(events.View()), published)
      ensures events.accepted == Accepted(old(events.View()), old(events.accepted), published)
    {
      AppendRepresents(View(), log, event);
      latest := latest + 1;
      published := Sequenced(latest, event);
      journal, replayFloor := PushJournal(journal, replayFloor, published);
      log := log + [event];
      var _ := events.Send(published);
    }

    method Acknowledge(through: nat)
      requires Valid()
      modifies this
      ensures Valid() && log == old(log)
      ensures acked == Max(old(acked), Min(through, |log|))
      ensures replayFloor == old(replayFloor) && latest == old(latest)
      ensures journal == Number(log, Max(replayFloor, acked), latest)
    {
      AcknowledgeRepresents(View(), log, through);
      var bound := Min(through, latest);
      acked := Max(acked, bound);
      while |journal| > 0 && journal[0].sequence <= acked
        invariant Prune(journal, acked) == Prune(old(journal), acked)
        invariant acked == Max(old(acked), Min(through, old(latest)))
        invariant unchanged(`log) && unchanged(`latest) && unchanged(`replayFloor)
        decreases |journal|
      {
        journal := journal[1..];
      }
    }

    /** The replay and the subscription are taken at one point, so the first
        live event is the one after the last replayed. */
    method Attach(after: nat) returns (replay: Replay<E>, receiver: Receiver?<Sequenced<E>>)
      requires Valid()
      modifies events`receivers
      ensures Valid()
      ensures after < replayFloor ==> replay == Expired(after, replayFloor) && receiver == null
      ensures after < replayFloor ==> events.receivers == old(events.receivers)
      ensures after >= replayFloor ==>
                && replay == Events(Number(log, Min(Max(after, acked), |log|), |log|))
                && receiver != null && fresh(receiver) && receiver.shared == events
                && receiver.next == |events.accepted| && events.receivers == old(events.receivers) + 1
    {
      ReplayExact(View(), log, after);
      if after < replayFloor {
        return Expired(after, replayFloor), null;
      }
      var found := CollectAfter(journal, after);
      replay := Events(found);
      receiver := events.Subscribe();
    }
  }
}
