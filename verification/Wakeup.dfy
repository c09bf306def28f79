/** The wakeup discipline shared by `Receiver::recv`, `Flag::wait` and
    `RunActivity::wait_until_idle`: take a ticket of the notifier's generation,
    check the condition, and only then park on the ticket.

    A notifier is its generation: notifying moves it on, and a ticket resolves
    once the generation has moved past it. A writer changes the shared state and
    notifies in two steps, and may also make changes it does not notify. The
    theorem is proved once, for any shared state, update and condition, and has
    three instances. */
module Wakeup {
  import Broadcast

  /** A waiter's own data, `key`, is private to it and does not change while it
      waits: the receiver's position, or nothing. */
  datatype Waiter<K> =
    | Outside(key: K)
    | Ticketed(key: K, ticket: nat)
    | Parked(key: K, ticket: nat)
    | Through(key: K)

  /** The shared behaviour: what an update does, whether its writer notifies
      afterwards, and what a waiter waits for. */
  datatype Protocol<!S, !U, !K> = Protocol(
    apply: (S, U) -> S,
    notifies: (S, U) -> bool,
    ready: (S, K) -> bool)

  /** `owing` is the number of writers between their change and their notify. */
  datatype World<S, K> = World(shared: S, generation: nat, owing: nat, waiters: seq<Waiter<K>>)

  datatype Action<U, K> =
    | Arrive(key: K)
    | Change(update: U)
    | Notify
    | TakeTicket(w: nat)
    | Check(w: nat)
    | Wake(w: nat)
    | Leave(w: nat)  // a waiter's future is dropped

  ghost function Step<S, U, K>(p: Protocol<S, U, K>, s: World<S, K>, a: Action<U, K>): World<S, K> {
    match a
    case Arrive(key) => s.(waiters := s.waiters + [Outside(key)])
    case Change(u) =>
      s.(shared := p.apply(s.shared, u), owing := s.owing + if p.notifies(s.shared, u) then 1 else 0)
    case Notify =>
      if s.owing == 0 then s else s.(owing := s.owing - 1, generation := s.generation + 1)
    case TakeTicket(w) =>
      if w < |s.waiters| && s.waiters[w].Outside? then
        s.(waiters := s.waiters[w := Ticketed(s.waiters[w].key, s.generation)])
      else s
    case Check(w) =>
      if w < |s.waiters| && s.waiters[w].Ticketed? then
        s.(waiters := s.waiters[w := if p.ready(s.shared, s.waiters[w].key) then Through(s.waiters[w].key)
                                     else Parked(s.waiters[w].key, s.waiters[w].ticket)])
      else s
    case Wake(w) =>
      if CanWake(s, w) then s.(waiters := s.waiters[w := Outside(s.waiters[w].key)]) else s
    case Leave(w) =>
      if w < |s.waiters| then s.(waiters := s.waiters[w := Through(s.waiters[w].key)]) else s
  }

  predicate CanWake<S, K>(s: World<S, K>, w: nat) {
    w < |s.waiters| && s.waiters[w].Parked? && s.waiters[w].ticket < s.generation
  }

  ghost function Exec<S, U, K>(p: Protocol<S, U, K>, shared: S, actions: seq<Action<U, K>>): World<S, K> {
    if actions == [] then World(shared, 0, 0, [])
    else Step(p, Exec(p, shared, actions[..|actions| - 1]), actions[|actions| - 1])
  }

  /** An update that does not notify never makes a waiter ready. */
  ghost predicate QuietUpdatesAreSafe<S(!new), U(!new), K(!new)>(p: Protocol<S, U, K>) {
    forall s: S, u: U, k: K :: !p.notifies(s, u) && p.ready(p.apply(s, u), k) ==> p.ready(s, k)
  }

  ghost predicate NoneLost<S, U, K>(p: Protocol<S, U, K>, s: World<S, K>) {
    forall w :: 0 <= w < |s.waiters| ==>
      && (s.waiters[w].Ticketed? || s.waiters[w].Parked? ==> s.waiters[w].ticket <= s.generation)
      && (s.waiters[w].Parked? ==>
            !p.ready(s.shared, s.waiters[w].key) || s.waiters[w].ticket < s.generation || s.owing > 0)
  }

  /** No lost wakeup, in every interleaving: a parked waiter is not ready, or
      can wake already, or a writer still owes the notify that will wake it. */
  lemma {:induction false} NoLostWakeup<S(!new), U(!new), K(!new)>(
      p: Protocol<S, U, K>, shared: S, actions: seq<Action<U, K>>)
    requires QuietUpdatesAreSafe(p)
    ensures NoneLost(p, Exec(p, shared, actions))
    decreases |actions|
  {
    if actions != [] {
      NoLostWakeup(p, shared, actions[..|actions| - 1]);
    }
  }

  /** The condition is exact: an update that makes a waiter ready without a
      notify loses its wakeup when it lands just after the waiter parked. */
  lemma QuietUpdateLosesAWakeup<S(!new), U(!new), K(!new)>(p: Protocol<S, U, K>, shared: S, u: U, key: K)
    requires !p.notifies(shared, u) && p.ready(p.apply(shared, u), key) && !p.ready(shared, key)
    ensures !NoneLost(p, Exec(p, shared, [Arrive(key), TakeTicket(0), Check(0), Change(u)]))
  {
    var a := [Arrive(key), TakeTicket(0), Check(0), Change(u)];
    assert a[..3][..2] == a[..2] && a[..2][..1] == a[..1] && a[..1][..0] == [];
    assert Exec(p, shared, a[..1]) == World(shared, 0, 0, [Outside(key)]);
    assert Exec(p, shared, a[..2]) == World(shared, 0, 0, [Ticketed(key, 0)]);
    assert Exec(p, shared, a[..3]) == World(shared, 0, 0, [Parked(key, 0)]);
    assert Exec(p, shared, a).waiters[0] == Parked(key, 0);
  }

  /** Once every writer has notified, no ready waiter is stuck. */
  lemma ReadyWaitersWake<S(!new), U(!new), K(!new)>(
      p: Protocol<S, U, K>, shared: S, actions: seq<Action<U, K>>, w: nat)
    requires QuietUpdatesAreSafe(p)
    requires var s := Exec(p, shared, actions);
             && w < |s.waiters| && s.waiters[w].Parked? && s.owing == 0 && p.ready(s.shared, s.waiters[w].key)
    ensures CanWake(Exec(p, shared, actions), w)
  {
    NoLostWakeup(p, shared, actions);
  }

  /** And it gets through: woken, it takes a new ticket, checks, and does not park
      again. A waiter that is not ready parks again. */
  lemma ReadyWaitersGetThrough<S(!new), U(!new), K(!new)>(
      p: Protocol<S, U, K>, shared: S, actions: seq<Action<U, K>>, w: nat)
    requires QuietUpdatesAreSafe(p)
    requires var s := Exec(p, shared, actions); w < |s.waiters| && s.waiters[w].Parked? && s.owing == 0
    ensures var s := Exec(p, shared, actions);
            var t := Step(p, Step(p, Step(p, s, Wake(w)), TakeTicket(w)), Check(w));
            && |t.waiters| == |s.waiters| && t.shared == s.shared
            && (p.ready(s.shared, s.waiters[w].key) <==> t.waiters[w] == Through(s.waiters[w].key))
            && (!p.ready(s.shared, s.waiters[w].key) ==> t.waiters[w].Parked?)
  {
    NoLostWakeup(p, shared, actions);
  }

  /** A notify took place since waiter `w` took its ticket. */
  ghost predicate NotifiedSince<S, U, K>(p: Protocol<S, U, K>, shared: S, actions: seq<Action<U, K>>, w: nat) {
    if actions == [] then false
    else
      var before, a := actions[..|actions| - 1], actions[|actions| - 1];
      if a == TakeTicket(w) && w < |Exec(p, shared, before).waiters| && Exec(p, shared, before).waiters[w].Outside? then false
      else NotifiedSince(p, shared, before, w) || (a.Notify? && Exec(p, shared, before).owing > 0)
  }

  ghost predicate Ticking<S, K>(s: World<S, K>, w: nat, notified: bool) {
    w < |s.waiters| && (s.waiters[w].Ticketed? || s.waiters[w].Parked?) ==>
      s.waiters[w].ticket <= s.generation && (s.waiters[w].ticket < s.generation <==> notified)
  }

  lemma {:induction false} TicketsAge<S, U, K>(p: Protocol<S, U, K>, shared: S, actions: seq<Action<U, K>>, w: nat)
    ensures Ticking(Exec(p, shared, actions), w, NotifiedSince(p, shared, actions, w))
    decreases |actions|
  {
    if actions != [] {
      TicketsAge(p, shared, actions[..|actions| - 1], w);
    }
  }

  /** A parked waiter can wake exactly if somebody notified since it took its ticket:
      it is neither left behind nor woken for nothing. */
  lemma WakesExactly<S, U, K>(p: Protocol<S, U, K>, shared: S, actions: seq<Action<U, K>>, w: nat)
    requires w < |Exec(p, shared, actions).waiters| && Exec(p, shared, actions).waiters[w].Parked?
    ensures CanWake(Exec(p, shared, actions), w) <==> NotifiedSince(p, shared, actions, w)
  {
    TicketsAge(p, shared, actions, w);
  }

  /** Waiter `w` was dropped, or checked with a ticket in hand while it was ready. */
  ghost predicate EverThrough<S, U, K>(p: Protocol<S, U, K>, shared: S, actions: seq<Action<U, K>>, w: nat) {
    actions != [] &&
      var before, a, s := actions[..|actions| - 1], actions[|actions| - 1], Exec(p, shared, actions[..|actions| - 1]);
      || EverThrough(p, shared, before, w)
      || (w < |s.waiters|
          && (a == Leave(w) || (a == Check(w) && s.waiters[w].Ticketed? && p.ready(s.shared, s.waiters[w].key))))
  }

  lemma ThroughStep<S, U, K>(p: Protocol<S, U, K>, s: World<S, K>, a: Action<U, K>, w: nat)
    ensures w < |Step(p, s, a).waiters| && Step(p, s, a).waiters[w].Through? <==>
              (w < |s.waiters|
               && (s.waiters[w].Through? || a == Leave(w)
                   || (a == Check(w) && s.waiters[w].Ticketed? && p.ready(s.shared, s.waiters[w].key))))
  {
  }

  /** A waiter is through exactly then, and for good. */
  lemma {:induction false} ThroughExactly<S, U, K>(p: Protocol<S, U, K>, shared: S, actions: seq<Action<U, K>>, w: nat)
    ensures w < |Exec(p, shared, actions).waiters| && Exec(p, shared, actions).waiters[w].Through?
       <==> EverThrough(p, shared, actions, w)
    decreases |actions|
  {
    if actions != [] {
      ThroughExactly(p, shared, actions[..|actions| - 1], w);
      ThroughStep(p, Exec(p, shared, actions[..|actions| - 1]), actions[|actions| - 1], w);
    }
  }

  /** The updates made, in order. */
  function Updates<U, K>(actions: seq<Action<U, K>>): seq<U> {
    if actions == [] then []
    else
      var a := actions[|actions| - 1];
      Updates(actions[..|actions| - 1]) + if a.Change? then [a.update] else []
  }

  /** What waiters see is what the updates made of it: nothing else touches it. */
  function After<S, U, K>(p: Protocol<S, U, K>, shared: S, updates: seq<U>): S {
    if updates == [] then shared else p.apply(After(p, shared, updates[..|updates| - 1]), updates[|updates| - 1])
  }

  lemma {:induction false} SharedIs<S, U, K>(p: Protocol<S, U, K>, shared: S, actions: seq<Action<U, K>>)
    ensures Exec(p, shared, actions).shared == After(p, shared, Updates(actions))
    decreases |actions|
  {
    if actions != [] {
      var before, a := actions[..|actions| - 1], actions[|actions| - 1];
      SharedIs(p, shared, before);
      if a.Change? {
        assert (Updates(before) + [a.update])[..|Updates(before)|] == Updates(before);
      } else {
        assert Updates(before) + [] == Updates(before);
      }
    }
  }

  // ------------------------------------------------------------------
  // Instance: the broadcast channel's receivers
  // ------------------------------------------------------------------

  datatype ChannelUpdate<T> = Send(value: T) | Subscribe | DropReceiver | CloneSender | DropSender

  function ApplyChannel<T>(c: Broadcast.Ring<T>, u: ChannelUpdate<T>): Broadcast.Ring<T> {
    match u
    case Send(v) => Broadcast.SendTo(c, v)
    case Subscribe => c.(receivers := c.receivers + 1)
    case DropReceiver => c.(receivers := if c.receivers > 0 then c.receivers - 1 else 0)
    case CloneSender => c.(senders := c.senders + 1)
    case DropSender => c.(senders := if c.senders > 0 then c.senders - 1 else 0)
  }

  /** A send notifies if there was a receiver, and a drop if it was the last
      sender's; nothing else does. */
  predicate ChannelNotifies<T>(c: Broadcast.Ring<T>, u: ChannelUpdate<T>) {
    (u.Send? && c.receivers > 0) || (u.DropSender? && c.senders == 1)
  }

  predicate ChannelReady<T>(c: Broadcast.Ring<T>, next: nat) {
    !Broadcast.TakeFrom(c, next).0.Pending?
  }

  function ChannelProtocol<T>(): Protocol<Broadcast.Ring<T>, ChannelUpdate<T>, nat> {
    Protocol(ApplyChannel, ChannelNotifies, ChannelReady)
  }

  lemma RecvNeverMissesASend<T(!new)>(capacity: nat, actions: seq<Action<ChannelUpdate<T>, nat>>)
    ensures NoneLost(ChannelProtocol(), Exec(ChannelProtocol(), Broadcast.Open(capacity), actions))
  {
    NoLostWakeup(ChannelProtocol<T>(), Broadcast.Open(capacity), actions);
  }

  /** How many handles of a kind are left, if none is dropped that is not there. */
  function Handles<T>(updates: seq<ChannelUpdate<T>>, senders: bool): int {
    if updates == [] then 1
    else
      var u := updates[|updates| - 1];
      Handles(updates[..|updates| - 1], senders)
        + (if senders then (if u.CloneSender? then 1 else if u.DropSender? then -1 else 0)
           else (if u.Subscribe? then 1 else if u.DropReceiver? then -1 else 0))
  }

  /** The values accepted: those sent while there was a receiver. */
  function AcceptedBy<T>(updates: seq<ChannelUpdate<T>>): seq<T> {
    if updates == [] then []
    else
      var before, u := updates[..|updates| - 1], updates[|updates| - 1];
      AcceptedBy(before) + if u.Send? && Handles(before, false) > 0 then [u.value] else []
  }

  /** Handles are only dropped while they exist. */
  predicate HandlesHeld<T>(updates: seq<ChannelUpdate<T>>) {
    updates == [] ||
      (HandlesHeld(updates[..|updates| - 1]) && Handles(updates, true) >= 0 && Handles(updates, false) >= 0)
  }

  lemma {:induction false} ChannelIs<T(!new)>(capacity: nat, updates: seq<ChannelUpdate<T>>)
    requires HandlesHeld(updates)
    ensures var c := After(ChannelProtocol<T>(), Broadcast.Open(capacity), updates);
            && Broadcast.Holds(c, AcceptedBy(updates))
            && c.senders == Handles(updates, true) && c.receivers == Handles(updates, false)
    decreases |updates|
  {
    if updates != [] {
      var before, u := updates[..|updates| - 1], updates[|updates| - 1];
      ChannelIs(capacity, before);
      var c := After(ChannelProtocol<T>(), Broadcast.Open(capacity), before);
      if u.Send? {
        Broadcast.SendHolds(c, AcceptedBy(before), u.value);
      }
      assert AcceptedBy(before) + [] == AcceptedBy(before);
    }
  }

  /** What a receiver waits for: it is ready exactly when a value was accepted past
      its position or every sender is gone, whatever happened before. */
  lemma RecvReadyExactly<T(!new)>(capacity: nat, actions: seq<Action<ChannelUpdate<T>, nat>>, next: nat)
    requires HandlesHeld(Updates(actions)) && next <= |AcceptedBy(Updates(actions))|
    ensures ChannelReady(Exec(ChannelProtocol(), Broadcast.Open(capacity), actions).shared, next)
       <==> next < |AcceptedBy(Updates(actions))| || Handles(Updates(actions), true) == 0
  {
    SharedIs(ChannelProtocol<T>(), Broadcast.Open(capacity), actions);
    ChannelIs(capacity, Updates(actions));
    Broadcast.TakeRefines(Exec(ChannelProtocol(), Broadcast.Open(capacity), actions).shared, AcceptedBy(Updates(actions)), next);
  }

  // ------------------------------------------------------------------
  // Instance: the set-once flag
  // ------------------------------------------------------------------

  datatype FlagUpdate = Set

  function FlagProtocol(): Protocol<bool, FlagUpdate, ()> {
    Protocol((_, _) => true, (_, _) => true, (isSet, _) => isSet)
  }

  lemma FlagWaitNeverMissesSet(actions: seq<Action<FlagUpdate, ()>>)
    ensures NoneLost(FlagProtocol(), Exec(FlagProtocol(), false, actions))
  {
    NoLostWakeup(FlagProtocol(), false, actions);
  }

  /** The flag is set exactly once somebody set it, so a parked waiter gets through
      exactly then, once nobody owes a notify. */
  lemma FlagSetExactly(actions: seq<Action<FlagUpdate, ()>>)
    ensures Exec(FlagProtocol(), false, actions).shared <==> Updates(actions) != []
  {
    SharedIs(FlagProtocol(), false, actions);
  }

  lemma FlagWaitersGetThrough(actions: seq<Action<FlagUpdate, ()>>, w: nat)
    requires var s := Exec(FlagProtocol(), false, actions); w < |s.waiters| && s.waiters[w].Parked? && s.owing == 0
    ensures var p := FlagProtocol(); var s := Exec(p, false, actions);
            var t := Step(p, Step(p, Step(p, s, Wake(w)), TakeTicket(w)), Check(w));
            && |t.waiters| == |s.waiters|
            && (t.waiters[w].Through? <==> Updates(actions) != []) && (t.waiters[w].Parked? <==> Updates(actions) == [])
  {
    FlagSetExactly(actions);
    ReadyWaitersGetThrough(FlagProtocol(), false, actions, w);
  }

  /** The flag in place, with its notifier's generation. */
  class Flag {
    var isSet: bool
    var generation: nat

    constructor ()
      ensures !isSet && generation == 0
    {
      isSet, generation := false, 0;
    }

    /** Idempotent: set, then wake everything waiting. */
    method Set()
      modifies this
      ensures isSet && generation == old(generation) + 1
    {
      isSet := true;
      generation := generation + 1;
    }

    /** The waiting loop against what the rest of the program does meanwhile:
        at each of the points where others can run, between the ticket and the
        check or while parked, the next of `others` says whether one of them
        sets the flag. The wait resolves if and only if the flag was set or some
        `others` sets it; otherwise it is still parked when they are through. */
    method Wait(others: seq<bool>) returns (resolved: bool)
      modifies this
      ensures resolved <==> old(isSet) || true in others
      ensures resolved ==> isSet
    {
      var i := 0;
      while true
        invariant 0 <= i <= |others|
        invariant isSet <==> old(isSet) || true in others[..i]
        decreases |others| - i, !isSet
      {
        var ticket := generation;
        if i < |others| {
          if others[i] {
            Set();
          }
          i := i + 1;
        }
        if isSet {
          return true;
        }
        while generation == ticket
          invariant 0 <= i <= |others|
          invariant isSet <==> old(isSet) || true in others[..i]
          invariant generation >= ticket && (isSet <==> generation > ticket)
          decreases |others| - i
        {
          if i == |others| {
            return false;
          }
          if others[i] {
            Set();
          }
          i := i + 1;
        }
      }
    }
  }

  // ------------------------------------------------------------------
  // Instance: waiting for the last run
  // ------------------------------------------------------------------

  datatype CountUpdate = RunStarted | RunFinished

  function ApplyCount(active: nat, u: CountUpdate): nat {
    match u
    case RunStarted => active + 1
    case RunFinished => if active > 0 then active - 1 else 0
  }

  function CountProtocol(): Protocol<nat, CountUpdate, ()> {
    Protocol(ApplyCount, (_, _) => true, (active, _) => active == 0)
  }

  lemma IdleWaitNeverMissesTheLastRun(actions: seq<Action<CountUpdate, ()>>)
    ensures NoneLost(CountProtocol(), Exec(CountProtocol(), 0, actions))
  {
    NoLostWakeup(CountProtocol(), 0, actions);
  }

  function Starts(updates: seq<CountUpdate>): nat {
    if updates == [] then 0 else Starts(updates[..|updates| - 1]) + if updates[|updates| - 1].RunStarted? then 1 else 0
  }

  function Finishes(updates: seq<CountUpdate>): nat {
    if updates == [] then 0 else Finishes(updates[..|updates| - 1]) + if updates[|updates| - 1].RunFinished? then 1 else 0
  }

  /** No run is counted out that was not counted in. */
  predicate NeverBelow(updates: seq<CountUpdate>) {
    updates == [] || (NeverBelow(updates[..|updates| - 1]) && Finishes(updates) <= Starts(updates))
  }

  lemma {:induction false} CountIs(updates: seq<CountUpdate>)
    requires NeverBelow(updates)
    ensures Finishes(updates) <= Starts(updates)
    ensures After(CountProtocol(), 0, updates) == Starts(updates) - Finishes(updates)
    decreases |updates|
  {
    if updates != [] {
      CountIs(updates[..|updates| - 1]);
    }
  }

  /** The count is the number of runs started less the number finished. */
  lemma CountExactly(actions: seq<Action<CountUpdate, ()>>)
    requires NeverBelow(Updates(actions))
    ensures Exec(CountProtocol(), 0, actions).shared == Starts(Updates(actions)) - Finishes(Updates(actions))
  {
    SharedIs(CountProtocol(), 0, actions);
    CountIs(Updates(actions));
  }

  /** A waiter parked for idleness, once nobody owes a notify: it can wake and then
      gets through if every run that started has finished, and parks again if not. */
  lemma IdleWaitersGetThrough(actions: seq<Action<CountUpdate, ()>>, w: nat)
    requires NeverBelow(Updates(actions))
    requires var s := Exec(CountProtocol(), 0, actions); w < |s.waiters| && s.waiters[w].Parked? && s.owing == 0
    ensures var p := CountProtocol(); var s := Exec(p, 0, actions);
            var t := Step(p, Step(p, Step(p, s, Wake(w)), TakeTicket(w)), Check(w));
            var idle := Starts(Updates(actions)) == Finishes(Updates(actions));
            && (idle ==> CanWake(s, w))
            && |t.waiters| == |s.waiters| && (t.waiters[w].Through? <==> idle) && (t.waiters[w].Parked? <==> !idle)
  {
    CountExactly(actions);
    NoLostWakeup(CountProtocol(), 0, actions);
    ReadyWaitersGetThrough(CountProtocol(), 0, actions, w);
  }
}
