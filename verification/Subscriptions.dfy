/** The WebSocket transport's registry of live event forwarders, one per
    connection and run: subscribing, replacing, finishing, unsubscribing and
    disconnecting in any interleaving. */
module Subscriptions {
  datatype Key = Key(connection: nat, run: string)

  datatype Phase = Named | Registered

  /** A forwarder from the moment its generation is taken. `finished` is its
      loop having returned, `cleaned` its cleanup having run. */
  datatype Forwarder = Forwarder(key: Key, generation: nat, phase: Phase, finished: bool, cleaned: bool, aborted: bool)

  datatype Entry = Entry(generation: nat, forwarder: nat)

  /** `doomed` are the forwarders removed from the registry under the lock and
      not aborted yet. */
  datatype System = System(entries: map<Key, Entry>, forwarders: seq<Forwarder>, nextGeneration: nat, doomed: set<nat>)

  datatype Action =
    | TakeGeneration(key: Key)
    | Register(f: nat)
    | Finish(f: nat)
    | Cleanup(f: nat)
    | Unsubscribe(key: Key)
    | Disconnect(connection: nat)
    | AbortDoomed(f: nat)

  ghost function Init(): System {
    System(map[], [], 0, {})
  }

  ghost function Abort(forwarders: seq<Forwarder>, f: nat): seq<Forwarder> {
    if f < |forwarders| then forwarders[f := forwarders[f].(aborted := true)] else forwarders
  }

  ghost function Registering(s: System, f: nat): System
    requires f < |s.forwarders|
  {
    var key, generation := s.forwarders[f].key, s.forwarders[f].generation;
    var aborted := if key in s.entries then Abort(s.forwarders, s.entries[key].forwarder) else s.forwarders;
    s.(entries := s.entries[key := Entry(generation, f)],
       forwarders := if f < |aborted| then aborted[f := aborted[f].(phase := Registered)] else aborted)
  }

  /** `remove_if_current`. */
  ghost function RemoveIfCurrent(entries: map<Key, Entry>, key: Key, generation: nat): map<Key, Entry> {
    if key in entries && entries[key].generation == generation then entries - {key} else entries
  }

  ghost function Step(s: System, a: Action): System {
    match a
    case TakeGeneration(key) =>
      s.(nextGeneration := s.nextGeneration + 1,
         forwarders := s.forwarders + [Forwarder(key, s.nextGeneration + 1, Named, false, false, false)])
    case Register(f) =>
      if f < |s.forwarders| && s.forwarders[f].phase.Named? then Registering(s, f) else s
    case Finish(f) =>
      if f < |s.forwarders| && s.forwarders[f].phase.Registered? then
        s.(forwarders := s.forwarders[f := s.forwarders[f].(finished := true)])
      else s
    case Cleanup(f) =>
      if f < |s.forwarders| && s.forwarders[f].finished && !s.forwarders[f].cleaned then
        s.(entries := RemoveIfCurrent(s.entries, s.forwarders[f].key, s.forwarders[f].generation),
           forwarders := s.forwarders[f := s.forwarders[f].(cleaned := true)])
      else s
    case Unsubscribe(key) =>
      if key in s.entries then s.(entries := s.entries - {key}, doomed := s.doomed + {s.entries[key].forwarder}) else s
    case Disconnect(connection) =>
      var keys := set key | key in s.entries && key.connection == connection;
      s.(entries := s.entries - keys, doomed := s.doomed + set key | key in keys :: s.entries[key].forwarder)
    case AbortDoomed(f) =>
      if f in s.doomed then s.(doomed := s.doomed - {f}, forwarders := Abort(s.forwarders, f)) else s
  }

  ghost function Continue(s: System, actions: seq<Action>): System {
    if actions == [] then s else Step(Continue(s, actions[..|actions| - 1]), actions[|actions| - 1])
  }

  ghost function Exec(actions: seq<Action>): System {
    Continue(Init(), actions)
  }

  ghost predicate Current(s: System, f: nat) {
    f < |s.forwarders| && s.forwarders[f].key in s.entries
    && s.entries[s.forwarders[f].key] == Entry(s.forwarders[f].generation, f)
  }

  /** Entries name their own forwarders, generations are distinct, and every
      registered forwarder is the current one for its key, finished, aborted, or
      about to be aborted. */
  ghost predicate Inv(s: System) {
    && s.nextGeneration == |s.forwarders|
    && (forall f :: f in s.doomed ==> f < |s.forwarders|)
    && (forall f :: 0 <= f < |s.forwarders| ==> s.forwarders[f].generation == f + 1)
    && (forall key :: key in s.entries ==>
          && Current(s, s.entries[key].forwarder)
          && s.forwarders[s.entries[key].forwarder].key == key
          && s.forwarders[s.entries[key].forwarder].phase.Registered?)
    && (forall f :: 0 <= f < |s.forwarders| && s.forwarders[f].phase.Registered? ==>
          Current(s, f) || s.forwarders[f].finished || s.forwarders[f].aborted || f in s.doomed)
  }

  lemma DisconnectInv(s: System, connection: nat)
    requires Inv(s)
    ensures Inv(Step(s, Disconnect(connection)))
  {
    var t := Step(s, Disconnect(connection));
    forall f | 0 <= f < |t.forwarders| && t.forwarders[f].phase.Registered? && Current(s, f) && !Current(t, f)
      ensures f in t.doomed
    {
      assert s.entries[s.forwarders[f].key].forwarder == f;
    }
  }

  lemma RegisterInv(s: System, f: nat)
    requires Inv(s)
    ensures Inv(Step(s, Register(f)))
  {
  }

  lemma CleanupInv(s: System, f: nat)
    requires Inv(s)
    ensures Inv(Step(s, Cleanup(f)))
  {
  }

  lemma UnsubscribeInv(s: System, key: Key)
    requires Inv(s)
    ensures Inv(Step(s, Unsubscribe(key)))
  {
  }

  lemma AbortInv(s: System, f: nat)
    requires Inv(s)
    ensures Inv(Step(s, AbortDoomed(f)))
  {
  }

  lemma StepInv(s: System, a: Action)
    requires Inv(s)
    ensures Inv(Step(s, a))
  {
    match a
    case TakeGeneration(_) =>
    case Register(f) => RegisterInv(s, f);
    case Finish(_) =>
    case Cleanup(f) => CleanupInv(s, f);
    case Unsubscribe(key) => UnsubscribeInv(s, key);
    case Disconnect(connection) => DisconnectInv(s, connection);
    case AbortDoomed(f) => AbortInv(s, f);
  }

  lemma {:induction false} ContinueInv(s: System, actions: seq<Action>)
    requires Inv(s)
    ensures Inv(Continue(s, actions))
    decreases |actions|
  {
    if actions != [] {
      ContinueInv(s, actions[..|actions| - 1]);
      StepInv(Continue(s, actions[..|actions| - 1]), actions[|actions| - 1]);
    }
  }

  lemma ExecInv(actions: seq<Action>)
    ensures Inv(Exec(actions))
  {
    ContinueInv(Init(), actions);
  }

  /** Still forwarding: registered, and neither finished, aborted nor doomed. */
  ghost predicate Forwarding(s: System, f: nat) {
    f < |s.forwarders| && s.forwarders[f].phase.Registered?
    && !s.forwarders[f].finished && !s.forwarders[f].aborted && f !in s.doomed
  }

  /** At most one forwarder serves a connection's subscription to a run, and it
      is the registered one. */
  lemma OneForwarderPerKey(actions: seq<Action>, f: nat, g: nat)
    requires Forwarding(Exec(actions), f) && Forwarding(Exec(actions), g)
    requires Exec(actions).forwarders[f].key == Exec(actions).forwarders[g].key
    ensures f == g && Current(Exec(actions), f)
  {
    ExecInv(actions);
  }

  /** A cleanup, however late, removes its own forwarder's entry or nothing. */
  lemma StaleCleanupIsHarmless(actions: seq<Action>, f: nat, key: Key)
    requires key in Exec(actions).entries && Exec(actions).entries[key].forwarder != f
    ensures var s, t := Exec(actions), Step(Exec(actions), Cleanup(f));
            key in t.entries && t.entries[key] == s.entries[key]
  {
    ExecInv(actions);
  }

  /** Disconnecting leaves no entry of the connection, and every forwarder it
      had registered is finished, aborted or about to be aborted. */
  lemma DisconnectReachesAll(actions: seq<Action>, connection: nat, f: nat)
    requires var t := Step(Exec(actions), Disconnect(connection));
             f < |t.forwarders| && t.forwarders[f].phase.Registered? && t.forwarders[f].key.connection == connection
    ensures var t := Step(Exec(actions), Disconnect(connection));
            && t.forwarders[f].key !in t.entries
            && (t.forwarders[f].finished || t.forwarders[f].aborted || f in t.doomed)
  {
    ExecInv(actions);
    StepInv(Exec(actions), Disconnect(connection));
  }

  // What each step does to an entry and to a forwarder.

  /** This step takes the key's entry out of the registry: an unsubscribe, the end of
      the connection, or the first cleanup of the entry's own finished forwarder. */
  ghost predicate Removes(s: System, a: Action, key: Key) {
    key in s.entries &&
      (a == Unsubscribe(key) || a == Disconnect(key.connection)
       || (a == Cleanup(s.entries[key].forwarder) && s.entries[key].forwarder < |s.forwarders|
           && s.forwarders[s.entries[key].forwarder].finished && !s.forwarders[s.entries[key].forwarder].cleaned))
  }

  /** This step puts forwarder `f` in the registry. */
  ghost predicate Enters(s: System, a: Action, f: nat) {
    a == Register(f) && f < |s.forwarders| && s.forwarders[f].phase.Named?
  }

  ghost predicate EntryMoves(s: System, a: Action, t: System, key: Key) {
    if a.Register? && Enters(s, a, a.f) && s.forwarders[a.f].key == key then
      key in t.entries && t.entries[key] == Entry(s.forwarders[a.f].generation, a.f)
    else if key in s.entries && !Removes(s, a, key) then
      key in t.entries && t.entries[key] == s.entries[key]
    else
      key !in t.entries
  }

  /** The registry changes only so: the key's entry is the forwarder that registers,
      or stays, or is gone because something removed it. */
  lemma EntryExactly(actions: seq<Action>, a: Action, key: Key)
    ensures EntryMoves(Exec(actions), a, Step(Exec(actions), a), key)
  {
    ExecInv(actions);
    EntryStep(Exec(actions), a, key);
  }

  lemma EntryStep(s: System, a: Action, key: Key)
    requires Inv(s)
    ensures EntryMoves(s, a, Step(s, a), key)
  {
    match a
    case TakeGeneration(_) =>
    case Register(_) =>
    case Finish(_) =>
    case Cleanup(f) =>
      if f < |s.forwarders| && s.forwarders[f].finished && !s.forwarders[f].cleaned {
        CleanupStep(s, f, key);
      }
    case Unsubscribe(_) =>
    case Disconnect(_) =>
    case AbortDoomed(_) =>
  }

  lemma CleanupStep(s: System, f: nat, key: Key)
    requires Inv(s) && f < |s.forwarders| && s.forwarders[f].finished && !s.forwarders[f].cleaned
    ensures EntryMoves(s, Cleanup(f), Step(s, Cleanup(f)), key)
  {
    var own := s.forwarders[f].key;
    if own in s.entries {
      assert s.entries[own].generation == s.forwarders[f].generation <==> s.entries[own].forwarder == f;
    }
    if key in s.entries && s.entries[key].forwarder == f {
      assert own == key;
    }
  }

  ghost predicate ForwarderMoves(s: System, a: Action, t: System, f: nat)
    requires f < |s.forwarders|
  {
    var r := s.forwarders[f];
    && f < |t.forwarders| && t.forwarders[f].key == r.key && t.forwarders[f].generation == r.generation
    && (t.forwarders[f].phase.Registered? <==> r.phase.Registered? || a == Register(f))
    && (t.forwarders[f].finished <==> r.finished || (a == Finish(f) && r.phase.Registered?))
    && (t.forwarders[f].cleaned <==> r.cleaned || (a == Cleanup(f) && r.finished))
    && (t.forwarders[f].aborted <==>
          (r.aborted || (a == AbortDoomed(f) && f in s.doomed)
           || (a.Register? && Enters(s, a, a.f) && s.forwarders[a.f].key == r.key && Current(s, f))))
    && (f in t.doomed <==>
          ((f in s.doomed && a != AbortDoomed(f))
           || (Current(s, f) && (a == Unsubscribe(r.key) || a == Disconnect(r.key.connection)))))
  }

  /** A forwarder registers once, finishes by itself, cleans up after that, is aborted at once by the one
      that replaces it, and is removed for aborting by an unsubscribe or by the end of
      its connection; by nothing else. */
  lemma ForwarderExactly(actions: seq<Action>, a: Action, f: nat)
    requires f < |Exec(actions).forwarders|
    ensures ForwarderMoves(Exec(actions), a, Step(Exec(actions), a), f)
  {
    ExecInv(actions);
    ForwarderStep(Exec(actions), a, f);
  }

  lemma RegisterStep(s: System, g: nat, f: nat)
    requires Inv(s) && f < |s.forwarders|
    ensures ForwarderMoves(s, Register(g), Step(s, Register(g)), f)
  {
  }

  lemma QuietStep(s: System, a: Action, f: nat)
    requires f < |s.forwarders| && (a.TakeGeneration? || a.Finish? || a.Cleanup? || a.AbortDoomed?)
    ensures ForwarderMoves(s, a, Step(s, a), f)
  {
  }

  lemma ForwarderStep(s: System, a: Action, f: nat)
    requires Inv(s) && f < |s.forwarders|
    ensures ForwarderMoves(s, a, Step(s, a), f)
  {
    match a
    case Register(g) => RegisterStep(s, g, f);
    case Unsubscribe(key) => UnsubscribeStep(s, key, f);
    case Disconnect(connection) => DisconnectStep(s, connection, f);
    case _ => QuietStep(s, a, f);
  }

  lemma UnsubscribeStep(s: System, key: Key, f: nat)
    requires Inv(s) && f < |s.forwarders|
    ensures ForwarderMoves(s, Unsubscribe(key), Step(s, Unsubscribe(key)), f)
  {
    if key in s.entries && s.entries[key].forwarder == f {
      assert Current(s, f);
    }
  }

  lemma DisconnectStep(s: System, connection: nat, f: nat)
    requires Inv(s) && f < |s.forwarders|
    ensures ForwarderMoves(s, Disconnect(connection), Step(s, Disconnect(connection)), f)
  {
    var t := Step(s, Disconnect(connection));
    if Current(s, f) && s.forwarders[f].key.connection == connection {
      assert s.entries[s.forwarders[f].key].forwarder == f;
    }
    if f in t.doomed && f !in s.doomed {
      var key :| key in s.entries && key.connection == connection && s.entries[key].forwarder == f;
      assert Current(s, f) && s.forwarders[f].key == key;
    }
  }

  /** Nobody aborts the forwarder that serves a key, or is about to. */
  ghost predicate CurrentSafe(s: System) {
    && (forall f: nat :: Current(s, f) ==> !s.forwarders[f].aborted && f !in s.doomed)
    && (forall f :: 0 <= f < |s.forwarders| && s.forwarders[f].phase.Named? ==> !s.forwarders[f].aborted && f !in s.doomed)
  }

  lemma CurrentSafeStep(s: System, a: Action)
    requires Inv(s) && CurrentSafe(s)
    ensures CurrentSafe(Step(s, a))
  {
    var t := Step(s, a);
    StepInv(s, a);
    forall f | 0 <= f < |t.forwarders| && (Current(t, f) || t.forwarders[f].phase.Named?)
      ensures !t.forwarders[f].aborted && f !in t.doomed
    {
      if f < |s.forwarders| {
        ForwarderStep(s, a, f);
        EntryStep(s, a, s.forwarders[f].key);
      }
    }
  }

  lemma {:induction false} ExecCurrentSafe(actions: seq<Action>)
    ensures CurrentSafe(Exec(actions))
    decreases |actions|
  {
    if actions != [] {
      ExecCurrentSafe(actions[..|actions| - 1]);
      ExecInv(actions[..|actions| - 1]);
      CurrentSafeStep(Exec(actions[..|actions| - 1]), actions[|actions| - 1]);
    }
  }

  /** A registered forwarder is neither aborted nor about to be exactly while it is its
      key's entry or has finished by itself. */
  lemma ServedExactly(actions: seq<Action>, f: nat)
    requires f < |Exec(actions).forwarders| && Exec(actions).forwarders[f].phase.Registered?
    requires !Exec(actions).forwarders[f].finished
    ensures var s := Exec(actions); Current(s, f) <==> !s.forwarders[f].aborted && f !in s.doomed
  {
    ExecInv(actions);
    ExecCurrentSafe(actions);
  }

  ghost predicate Listed(s: System, connection: nat) {
    exists key :: key in s.entries && key.connection == connection
  }

  /** This step registers a forwarder of the connection. */
  ghost predicate Registers(s: System, a: Action, connection: nat) {
    a.Register? && a.f < |s.forwarders| && s.forwarders[a.f].phase.Named? && s.forwarders[a.f].key.connection == connection
  }

  lemma ListedStep(s: System, a: Action, connection: nat)
    requires !Listed(s, connection)
    ensures Listed(Step(s, a), connection) <==> Registers(s, a, connection)
  {
    var t := Step(s, a);
    if Registers(s, a, connection) {
      assert s.forwarders[a.f].key in t.entries;
    } else {
      assert forall key :: key in t.entries && key.connection == connection ==> key in s.entries;
    }
  }

  /** At some point of this run the connection has an entry. */
  ghost predicate EverListed(s: System, more: seq<Action>, connection: nat) {
    Listed(Continue(s, more), connection) || (more != [] && EverListed(s, more[..|more| - 1], connection))
  }

  ghost predicate EverRegisters(s: System, more: seq<Action>, connection: nat) {
    more != [] &&
      (EverRegisters(s, more[..|more| - 1], connection)
       || Registers(Continue(s, more[..|more| - 1]), more[|more| - 1], connection))
  }

  /** When an entry of a disconnected connection can come back: if and only if one
      of its forwarders registers after the disconnect. */
  lemma {:induction false} ListedAgain(s: System, more: seq<Action>, connection: nat)
    requires !Listed(s, connection)
    ensures EverListed(s, more, connection) <==> EverRegisters(s, more, connection)
    decreases |more|
  {
    if more != [] {
      var before := more[..|more| - 1];
      ListedAgain(s, before, connection);
      if !Listed(Continue(s, before), connection) {
        ListedStep(Continue(s, before), more[|more| - 1], connection);
      } else {
        assert EverListed(s, before, connection);
      }
    }
  }

  /** A forwarder that had registered by `s` is out of the game at `t`. */
  ghost predicate Newcomers(s: System, t: System, connection: nat) {
    && |s.forwarders| <= |t.forwarders|
    && (forall f :: 0 <= f < |s.forwarders| && t.forwarders[f].phase.Named? ==> s.forwarders[f].phase.Named?)
    && (forall key :: key in t.entries && key.connection == connection ==>
          t.entries[key].forwarder < |s.forwarders| ==> s.forwarders[t.entries[key].forwarder].phase.Named?)
  }

  lemma NewcomersStep(s: System, t: System, a: Action, connection: nat)
    requires Newcomers(s, t, connection)
    ensures Newcomers(s, Step(t, a), connection)
  {
  }

  lemma {:induction false} NewcomersStay(s: System, more: seq<Action>, connection: nat)
    requires !Listed(s, connection)
    ensures Newcomers(s, Continue(s, more), connection)
    decreases |more|
  {
    if more != [] {
      NewcomersStay(s, more[..|more| - 1], connection);
      NewcomersStep(s, Continue(s, more[..|more| - 1]), more[|more| - 1], connection);
    }
  }

  /** After a disconnect no forwarder that had registered is ever listed again:
      an entry of the connection, in any later state, is one of a forwarder that
      had not registered yet; and there is such an entry at some point if and
      only if one registers. */
  lemma DisconnectForGood(actions: seq<Action>, connection: nat, more: seq<Action>)
    ensures var s := Step(Exec(actions), Disconnect(connection));
            && (forall key :: key in Continue(s, more).entries && key.connection == connection ==>
                  var f := Continue(s, more).entries[key].forwarder;
                  f >= |s.forwarders| || s.forwarders[f].phase.Named?)
            && (EverListed(s, more, connection) <==> EverRegisters(s, more, connection))
  {
    var s := Step(Exec(actions), Disconnect(connection));
    assert !Listed(s, connection);
    NewcomersStay(s, more, connection);
    ListedAgain(s, more, connection);
  }

  lemma LateFrom(s: System, key: Key)
    requires Inv(s) && key !in s.entries
    ensures var t := Step(Step(s, TakeGeneration(key)), Register(|s.forwarders|));
            && key in t.entries && t.entries[key].forwarder == |s.forwarders| && Forwarding(t, |s.forwarders|)
  {
    var f, u := |s.forwarders|, Step(s, TakeGeneration(key));
    assert u.forwarders[f] == Forwarder(key, s.nextGeneration + 1, Named, false, false, false);
  }

  /** It can happen, in any state: a subscription that was waiting to attach when its
      connection went away takes its generation and registers after that. */
  lemma LateRegistration(actions: seq<Action>, key: Key)
    ensures var s := Step(Exec(actions), Disconnect(key.connection));
            var t := Step(Step(s, TakeGeneration(key)), Register(|s.forwarders|));
            key !in s.entries && key in t.entries && t.entries[key].forwarder == |s.forwarders|
            && Forwarding(t, |s.forwarders|)
  {
    ExecInv(actions);
    StepInv(Exec(actions), Disconnect(key.connection));
    LateFrom(Step(Exec(actions), Disconnect(key.connection)), key);
  }

  // ------------------------------------------------------------------
  // The registry in place
  // ------------------------------------------------------------------

  class AbortHandle {
    var aborted: bool

    constructor ()
      ensures !aborted
    {
      aborted := false;
    }

    method Abort()
      modifies this
      ensures aborted
    {
      aborted := true;
    }
  }

  class RunSubscriptions {
    var active: map<Key, (nat, AbortHandle)>
    var generations: nat

    constructor ()
      ensures active == map[] && generations == 0
    {
      active, generations := map[], 0;
    }

    method NextGeneration() returns (generation: nat)
      modifies this`generations
      ensures generation == generations == old(generations) + 1
    {
      generations := generations + 1;
      generation := generations;
    }

    method Insert(key: Key, generation: nat, handle: AbortHandle)
      modifies this`active, if key in active then {active[key].1} else {}
      ensures active == old(active)[key := (generation, handle)]
      ensures key in old(active) ==> old(active)[key].1.aborted
    {
      if key in active {
        active[key].1.Abort();
      }
      active := active[key := (generation, handle)];
    }

    method RemoveIfCurrent(key: Key, generation: nat)
      modifies this`active
      ensures active == if key in old(active) && old(active)[key].0 == generation then old(active) - {key} else old(active)
    {
      if key in active && active[key].0 == generation {
        active := active - {key};
      }
    }

    method Unsubscribe(key: Key) returns (removed: bool)
      modifies this`active, if key in active then {active[key].1} else {}
      ensures removed <==> key in old(active)
      ensures active == old(active) - {key}
      ensures removed ==> old(active)[key].1.aborted
    {
      removed := key in active;
      if removed {
        var handle := active[key].1;
        active := active - {key};
        handle.Abort();
      }
    }

    /** Remove every entry of the connection under the lock, then abort what
        was removed. */
    method Disconnect(connection: nat)
      modifies this`active, set key | key in active && key.connection == connection :: active[key].1
      ensures active == map key | key in old(active) && key.connection != connection :: old(active)[key]
      ensures forall key :: key in old(active) && key.connection == connection ==> old(active)[key].1.aborted
    {
      var keys := set key | key in active && key.connection == connection;
      var removed := map key | key in keys :: active[key].1;
      var kept := map key | key in active && key.connection != connection :: active[key];
      active := kept;
      while keys != {}
        invariant keys <= removed.Keys && active == kept
        invariant forall key :: key in removed && key !in keys ==> removed[key].aborted
        decreases keys
      {
        var key :| key in keys;
        removed[key].Abort();
        keys := keys - {key};
      }
      assert forall key :: key in old(active) && key.connection == connection ==> removed[key] == old(active)[key].1;
    }
  }
}
