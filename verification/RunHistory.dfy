/** What the steps of `Lifecycle` add up to for one run, one start and one
    shutdown: which input every published state comes from, who consumed a cancel
    token, how a cancelled run ends, how a start ends, and what a shutdown does and
    does not do. The sources are read off the sequence of actions, so these results
    say what the state machine is for without its own functions. */
module RunHistory {
  import opened Lifecycle
  import Wakeup

  // ------------------------------------------------------------------
  // Where a published state comes from
  // ------------------------------------------------------------------

  /** What made a run publish: an input of its provider, or its cancellation. */
  datatype Source = Nothing | By(input: Input) | ByCancel

  /** A payload that cannot be serialized. */
  predicate Unencodable(input: Input) {
    input == Event(Usage(false)) || input == Event(RateLimit(false))
    || input == Event(Compaction(false)) || input == Event(Commands(false))
  }

  /** What the state of a run has to be if this was published last: a reference that
      names every state and every kind of input. */
  predicate Shows(source: Source, state: RunState) {
    && (state.Starting? <==> source.Nothing?)
    && (state.WaitingApproval? <==> source == By(Event(ApprovalRequest)))
    && (state.Running? <==> source.By? && source.input.Event? && source.input.event != ApprovalRequest && !Unencodable(source.input))
    && (state.Completed? <==> source == By(End(Outcome(true, true))))
    && (state.Failed? <==> source.By? && source != By(End(Outcome(true, true))) && (source.input.End? || Unencodable(source.input)))
    && (state.Canceled? <==> source.ByCancel?)
    && !state.Finishing? && !state.Interrupted?
  }

  /** What the run's task last took up: a cancellation that was pending when it
      looked, or an input the source knows. */
  ghost function InHand(web: bool, actions: seq<Action>, id: RunId): Source {
    if actions == [] then Nothing
    else
      var before, a := actions[..|actions| - 1], actions[|actions| - 1];
      var s := Exec(web, before);
      if a.Poll? && a.id == id && id in s.runs && s.runs[id].task.Looping? then
        if s.runs[id].signalled then ByCancel
        else if a.input == Event(Unrecognized) then InHand(web, before, id)
        else By(a.input)
      else InHand(web, before, id)
  }

  /** Whether this action publishes for the run. */
  ghost predicate Publishes(s: System, a: Action, id: RunId) {
    a == Commit(id) && id in s.runs && s.writer.Idle? && (s.runs[id].task.Publishing? || s.runs[id].task.Closing?)
  }

  /** Everything the run has published, by its source. */
  ghost function Published(web: bool, actions: seq<Action>, id: RunId): seq<Source> {
    if actions == [] then []
    else
      var before, a := actions[..|actions| - 1], actions[|actions| - 1];
      Published(web, before, id) + if Publishes(Exec(web, before), a, id) then [InHand(web, before, id)] else []
  }

  function Unencoded(sources: seq<Source>): nat {
    if sources == [] then 0
    else
      var last := sources[|sources| - 1];
      Unencoded(sources[..|sources| - 1]) + if last.By? && Unencodable(last.input) then 1 else 0
  }

  ghost predicate ShowsAll(sources: seq<Source>, log: seq<RunState>) {
    |sources| == |log| && forall i :: 0 <= i < |log| ==> !sources[i].Nothing? && Shows(sources[i], log[i])
  }

  /** What the task holds, against where it came from. */
  ghost predicate Holds(hand: Source, task: Task) {
    && (task.Publishing? ==> hand.By? && hand.input.Event? && hand.input.event != Unrecognized && Shows(hand, task.state))
    && (task.Closing? ==> (hand.ByCancel? || (hand.By? && hand.input.End?)) && Shows(hand, task.state))
  }

  ghost predicate Sourced(hand: Source, sources: seq<Source>, r: Run) {
    && Holds(hand, r.task) && ShowsAll(sources, r.log) && r.failures == Unencoded(sources)
    && r.state == if r.log == [] then Starting else r.log[|r.log| - 1]
  }

  lemma OthersTask(s: System, a: Action, id: RunId)
    requires id in s.runs && (a.Poll? || a.Commit? || a.Settle?) && a != Commit(id) && !(a.Poll? && a.id == id)
    ensures id in Step(s, a).runs
    ensures var r, r' := s.runs[id], Step(s, a).runs[id];
            r'.state == r.state && r'.task == r.task && r'.log == r.log && r'.failures == r.failures
  {
  }

  lemma CancelTask(s: System, a: Action, id: RunId)
    requires id in s.runs && (a.CancelTake? || a.CancelSend? || a.DrainCancel?)
    ensures id in Step(s, a).runs
    ensures var r, r' := s.runs[id], Step(s, a).runs[id];
            r'.state == r.state && r'.task == r.task && r'.log == r.log && r'.failures == r.failures
  {
  }

  /** What no action but the run's own poll and commit touches. */
  lemma TaskUntouched(s: System, a: Action, id: RunId)
    requires id in s.runs && a != Commit(id) && !(a.Poll? && a.id == id)
    ensures id in Step(s, a).runs
    ensures var r, r' := s.runs[id], Step(s, a).runs[id];
            r'.state == r.state && r'.task == r.task && r'.log == r.log && r'.failures == r.failures
  {
    if a.Poll? || a.Commit? || a.Settle? {
      OthersTask(s, a, id);
    } else if a.CancelTake? || a.CancelSend? || a.DrainCancel? {
      CancelTask(s, a, id);
    } else if !a.StartInsert? && !a.StartCount? {
      RunsUntouched(s, a);
    }
  }

  lemma PollHolds(r: Run, input: Input, hand: Source)
    requires Holds(hand, r.task)
    ensures var hand' := if !r.task.Looping? then hand else if r.signalled then ByCancel
                         else if input == Event(Unrecognized) then hand else By(input);
            Holds(hand', Polled(r, input).task)
    ensures var r' := Polled(r, input); r'.log == r.log && r'.state == r.state && r'.failures == r.failures
  {
  }

  lemma CommitHolds(r: Run, hand: Source, sources: seq<Source>)
    requires Sourced(hand, sources, r) && (r.task.Publishing? || r.task.Closing?)
    ensures Sourced(hand, sources + [hand], Committed(r))
  {
    var more := sources + [hand];
    assert more[..|sources|] == sources;
    assert Committed(r).log == r.log + [r.task.state];
    assert Unencoded(more) == Unencoded(sources) + if hand.By? && Unencodable(hand.input) then 1 else 0;
  }

  /** One step of the trace, for an entry that was there. */
  lemma SourcedStep(s: System, a: Action, id: RunId, hand: Source, sources: seq<Source>)
    requires id in s.runs && Sourced(hand, sources, s.runs[id])
    ensures id in Step(s, a).runs
    ensures var r := s.runs[id];
            var hand' := if !(a.Poll? && a.id == id && r.task.Looping?) then hand else if r.signalled then ByCancel
                         else if a.input == Event(Unrecognized) then hand else By(a.input);
            Sourced(hand', sources + if Publishes(s, a, id) then [hand] else [], Step(s, a).runs[id])
  {
    var r := s.runs[id];
    assert sources + [] == sources;
    if a.Poll? && a.id == id {
      PollHolds(r, a.input, hand);
    } else if a == Commit(id) {
      if Publishes(s, a, id) {
        CommitHolds(r, hand, sources);
      }
    } else {
      TaskUntouched(s, a, id);
    }
  }

  lemma NewEntry(s: System, a: Action, id: RunId)
    requires id !in s.runs && id in Step(s, a).runs
    ensures Step(s, a).runs[id] == NEW_RUN
  {
    if !a.StartInsert? {
      SameKeys(s, a);
    }
  }

  lemma {:induction false} ExecSourced(web: bool, actions: seq<Action>, id: RunId)
    ensures if id in Exec(web, actions).runs then
              Sourced(InHand(web, actions, id), Published(web, actions, id), Exec(web, actions).runs[id])
            else InHand(web, actions, id) == Nothing && Published(web, actions, id) == []
    decreases |actions|
  {
    if actions != [] {
      var before, a := actions[..|actions| - 1], actions[|actions| - 1];
      ExecSourced(web, before, id);
      var s := Exec(web, before);
      if id in s.runs {
        SourcedStep(s, a, id, InHand(web, before, id), Published(web, before, id));
      } else if id in Step(s, a).runs {
        NewEntry(s, a, id);
      }
    }
  }

  /** Every state a run has published is the one its source asks for, in order, in
      every reachable state. So it shows that it waits for an approval if and only
      if what it published last was an approval request, that it completed if and
      only if its provider ended well and the outcome could be serialized, that it
      was canceled if and only if its task found the cancellation pending; and its
      failures are the payloads that could not be serialized. */
  lemma StatesFromSources(web: bool, actions: seq<Action>, id: RunId)
    requires id in Exec(web, actions).runs
    ensures var r, sources := Exec(web, actions).runs[id], Published(web, actions, id);
            && ShowsAll(sources, r.log) && r.failures == Unencoded(sources)
            && Shows(if sources == [] then Nothing else sources[|sources| - 1], r.state)
  {
    ExecSourced(web, actions, id);
  }

  lemma UnknownChangesNothing(s: System, id: RunId)
    requires s.writer.Idle? && id in s.runs && s.runs[id].task.Looping? && !s.runs[id].signalled
    ensures Continue(s, TakeInput(id, Event(Unrecognized))) == s
  {
    TakenInSteps(s, id, Event(Unrecognized));
    assert s.(runs := s.runs[id := Polled(s.runs[id], Event(Unrecognized))]) == s;
    assert CommitStep(s, id) == s && SettleStep(s, id) == s;
  }

  lemma KnownShows(s: System, id: RunId, input: Input)
    requires s.writer.Idle? && id in s.runs && s.runs[id].task.Looping? && !s.runs[id].signalled
    requires input != Event(Unrecognized)
    ensures var t := Continue(s, TakeInput(id, input));
            && id in t.runs && t.writer.Idle?
            && Shows(By(input), t.runs[id].state)
            && t.runs[id].log == s.runs[id].log + [t.runs[id].state]
            && t.runs[id].failures == s.runs[id].failures + (if Unencodable(input) then 1 else 0)
            && t.runs[id].task == if input.Event? then Looping else Done
  {
    TakenInSteps(s, id, input);
    PollHolds(s.runs[id], input, Nothing);
    PublishedRuns(s.(runs := s.runs[id := Polled(s.runs[id], input)]), id);
  }

  /** One input taken all the way by a running, unsignalled run with the lock free.
      An unknown one changes nothing; any other publishes exactly one state, the one
      it asks for, and the run polls on unless it was the provider's end. */
  lemma InputShows(s: System, id: RunId, input: Input)
    requires s.writer.Idle? && id in s.runs && s.runs[id].task.Looping? && !s.runs[id].signalled
    ensures var t := Continue(s, TakeInput(id, input));
            && id in t.runs && t.writer.Idle?
            && (input == Event(Unrecognized) ==> t == s)
            && (input != Event(Unrecognized) ==>
                  && Shows(By(input), t.runs[id].state)
                  && t.runs[id].log == s.runs[id].log + [t.runs[id].state]
                  && t.runs[id].failures == s.runs[id].failures + (if Unencodable(input) then 1 else 0)
                  && t.runs[id].task == if input.Event? then Looping else Done)
  {
    if input == Event(Unrecognized) {
      UnknownChangesNothing(s, id);
    } else {
      KnownShows(s, id, input);
    }
  }

  // ------------------------------------------------------------------
  // How a cancelled run ends
  // ------------------------------------------------------------------

  /** The run is bound to end as canceled, or has. */
  ghost predicate Cancelling(r: Run) {
    || (r.signalled && r.task.Looping?)
    || r.task == Closing(Canceled)
    || (r.task.Done? && r.log != [] && r.log[|r.log| - 1] == Canceled)
  }

  /** The run was signalled while it was still polling. */
  ghost predicate EverSignalledPolling(web: bool, actions: seq<Action>, id: RunId) {
    || (id in Exec(web, actions).runs && Exec(web, actions).runs[id].signalled && Exec(web, actions).runs[id].task.Looping?)
    || (actions != [] && EverSignalledPolling(web, actions[..|actions| - 1], id))
  }

  lemma CancellingPolled(r: Run, input: Input)
    ensures Cancelling(r) ==> Cancelling(Polled(r, input))
    ensures !Cancelling(r) && Cancelling(Polled(r, input)) ==> Polled(r, input).signalled && Polled(r, input).task.Looping?
  {
  }

  lemma CancellingCommitted(r: Run)
    requires r.task != Publishing(Canceled)
    ensures Cancelling(r) ==> Cancelling(Committed(r))
    ensures !Cancelling(r) && Cancelling(Committed(r)) ==> Committed(r).signalled && Committed(r).task.Looping?
  {
  }

  lemma CancellingMoves(r: Run, r': Run, input: Input)
    requires Moves(r, r', input) && r.task != Publishing(Canceled)
    ensures Cancelling(r) ==> Cancelling(r')
    ensures !Cancelling(r) && Cancelling(r') ==> r'.signalled && r'.task.Looping?
  {
    if r' == Polled(r, input) {
      CancellingPolled(r, input);
    } else if r' == Committed(r) {
      CancellingCommitted(r);
    }
  }

  lemma CancellingStep(s: System, a: Action, id: RunId)
    requires RunsOk(s) && id in s.runs
    ensures id in Step(s, a).runs
    ensures var r, r' := s.runs[id], Step(s, a).runs[id];
            && (Cancelling(r) ==> Cancelling(r'))
            && (!Cancelling(r) && Cancelling(r') ==> r'.signalled && r'.task.Looping?)
  {
    EntryMoves(s, a, id);
    assert RunOk(id, s.runs[id], s.writer);
    CancellingMoves(s.runs[id], Step(s, a).runs[id], InputOf(a));
  }

  lemma {:induction false} CancellingForGood(s: System, more: seq<Action>, id: RunId)
    requires Inv(s) && id in s.runs && Cancelling(s.runs[id])
    ensures id in Continue(s, more).runs && Cancelling(Continue(s, more).runs[id])
    decreases |more|
  {
    if more != [] {
      CancellingForGood(s, more[..|more| - 1], id);
      ContinueInv(s, more[..|more| - 1]);
      CancellingStep(Continue(s, more[..|more| - 1]), more[|more| - 1], id);
    }
  }

  /** A run that is signalled while it polls ends as canceled: whatever happens
      next, and whatever its provider still says, once its task is done the last
      state it has published is Canceled. */
  lemma SignalledEndsCanceled(web: bool, actions: seq<Action>, more: seq<Action>, id: RunId)
    requires id in Exec(web, actions).runs
    requires Exec(web, actions).runs[id].signalled && Exec(web, actions).runs[id].task.Looping?
    ensures var t := Continue(Exec(web, actions), more);
            && id in t.runs
            && (t.runs[id].task.Done? ==> t.runs[id].log != [] && t.runs[id].log[|t.runs[id].log| - 1] == Canceled)
  {
    ExecInv(web, actions);
    ContinueInv(Exec(web, actions), more);
    CancellingForGood(Exec(web, actions), more, id);
    var t := Continue(Exec(web, actions), more);
    assert RunOk(id, t.runs[id], t.writer);
  }

  lemma {:induction false} EverIsCancelling(web: bool, actions: seq<Action>, id: RunId)
    ensures EverSignalledPolling(web, actions, id)
       <==> id in Exec(web, actions).runs && Cancelling(Exec(web, actions).runs[id])
    decreases |actions|
  {
    if actions != [] {
      var before, a := actions[..|actions| - 1], actions[|actions| - 1];
      EverIsCancelling(web, before, id);
      ExecInv(web, before);
      var s := Exec(web, before);
      if id in s.runs {
        CancellingStep(s, a, id);
      } else if id in Step(s, a).runs {
        NewEntry(s, a, id);
      }
    }
  }

  /** A finished run's last state is Canceled if and only if it was signalled while
      it was still polling. */
  lemma CanceledExactly(web: bool, actions: seq<Action>, id: RunId)
    requires id in Exec(web, actions).runs && Exec(web, actions).runs[id].task.Done?
    ensures var r := Exec(web, actions).runs[id];
            r.log != [] && (r.log[|r.log| - 1] == Canceled <==> EverSignalledPolling(web, actions, id))
  {
    ExecInv(web, actions);
    EverIsCancelling(web, actions, id);
    assert RunOk(id, Exec(web, actions).runs[id], Exec(web, actions).writer);
  }

  /** A `cancel` of a polling, active run, carried out with nobody in between: the
      token is consumed, whatever its provider offers is not looked at, the run ends
      as canceled and is counted out, and the cancel returns. */
  function CancelAndWait(id: RunId, c: nat, input: Input): seq<Action> {
    ([CancelTake(id)] + [CancelSend(c)]) + TakeInput(id, input) + [CancelReturn(c)]
  }

  lemma TokenSent(s: System, id: RunId)
    requires s.writer.Idle? && id in s.runs && s.runs[id].token
    ensures Continue(s, [CancelTake(id)] + [CancelSend(|s.cancelers|)])
         == s.(runs := s.runs[id := s.runs[id].(token := false, takes := s.runs[id].takes + 1, signalled := true)],
               cancelers := s.cancelers + [Canceler(id, Waits)])
  {
    var c, r := |s.cancelers|, s.runs[id].(token := false, takes := s.runs[id].takes + 1);
    ContinueTwo(s, CancelTake(id), CancelSend(c));
    var t := s.(runs := s.runs[id := r], cancelers := s.cancelers + [Canceler(id, Took)]);
    assert Step(s, CancelTake(id)) == t;
    assert t.runs[id := r.(signalled := true)] == s.runs[id := r.(signalled := true)];
    assert t.cancelers[c := Canceler(id, Waits)] == s.cancelers + [Canceler(id, Waits)];
  }

  lemma SignalTaken(s: System, id: RunId, input: Input)
    requires s.writer.Idle? && id in s.runs && s.runs[id].task.Looping? && s.runs[id].signalled && IsActive(s.runs[id].state)
    ensures var t := Continue(s, TakeInput(id, input));
            && id in t.runs && t.writer.Idle? && t.cancelers == s.cancelers
            && t.runs[id].state == Canceled && t.runs[id].log == s.runs[id].log + [Canceled]
            && t.runs[id].task.Done? && t.runs[id].completed && t.runs[id].token == s.runs[id].token
            && t.active == if s.active > 0 then s.active - 1 else 0
  {
    TakenInSteps(s, id, input);
    var polled := s.(runs := s.runs[id := s.runs[id].(task := Closing(Canceled))]);
    assert Step(s, Poll(id, input)) == polled;
    PublishIsCommitThenSettle(polled, id);
    PublishFrame(polled, id);
    EndIsSettled(polled, id);
  }

  lemma CancelTakesEffect(s: System, id: RunId, input: Input)
    requires s.writer.Idle? && id in s.runs && s.runs[id].task.Looping? && s.runs[id].token && IsActive(s.runs[id].state)
    ensures var c := |s.cancelers|; var t := Continue(s, CancelAndWait(id, c, input));
            && t.cancelers == s.cancelers + [Canceler(id, Returned)]
            && id in t.runs && !t.runs[id].token && t.runs[id].task.Done?
            && t.runs[id].log == s.runs[id].log + [Canceled] && t.runs[id].state == Canceled
            && t.active == if s.active > 0 then s.active - 1 else 0
  {
    var c := |s.cancelers|;
    var take := [CancelTake(id)] + [CancelSend(c)];
    TokenSent(s, id);
    SignalTaken(Continue(s, take), id, input);
    ContinueAppend(s, take, TakeInput(id, input));
    var waits := take + TakeInput(id, input);
    ContinueOne(s, waits, CancelReturn(c));
    LastReturns(Continue(s, waits), s.cancelers, id);
  }

  lemma LastReturns(s: System, earlier: seq<Canceler>, id: RunId)
    requires s.cancelers == earlier + [Canceler(id, Waits)] && id in s.runs && s.runs[id].completed
    ensures Step(s, CancelReturn(|earlier|)) == s.(cancelers := earlier + [Canceler(id, Returned)])
  {
    assert s.cancelers[|earlier| := Canceler(id, Returned)] == earlier + [Canceler(id, Returned)];
  }

  // ------------------------------------------------------------------
  // Who consumed a token, and what a drain leaves alone
  // ------------------------------------------------------------------

  ghost predicate HasCanceler(s: System, id: RunId) {
    exists c :: 0 <= c < |s.cancelers| && s.cancelers[c].id == id
  }

  /** Only a terminating shutdown sweeps, and a token that is gone was taken by a
      `cancel` of that run or by such a sweep. */
  ghost predicate TakersKnown(s: System) {
    && (forall d :: 0 <= d < |s.drainers| && s.drainers[d].phase.NeedsCancel? ==> s.drainers[d].mode.Terminate?)
    && (forall id :: id in s.runs && !s.runs[id].token ==> HasCanceler(s, id) || SweptOut(s))
  }

  lemma CancelersGrow(s: System, a: Action, id: RunId)
    requires HasCanceler(s, id)
    ensures HasCanceler(Step(s, a), id)
  {
    var c :| 0 <= c < |s.cancelers| && s.cancelers[c].id == id;
    if !a.CancelTake? && !a.CancelSend? && !a.CancelReturn? {
      CancelersUntouched(s, a);
    }
    assert c < |Step(s, a).cancelers| && Step(s, a).cancelers[c].id == id;
  }

  lemma TaskToken(s: System, a: Action, id: RunId)
    requires id in s.runs && (a.Poll? || a.Commit? || a.Settle? || a.CancelSend? || (a.CancelTake? && a.id != id))
    ensures id in Step(s, a).runs && Step(s, a).runs[id].token == s.runs[id].token
  {
  }

  lemma TokenStep(s: System, a: Action, id: RunId)
    requires id in s.runs && s.runs[id].token
    ensures id in Step(s, a).runs
    ensures Step(s, a).runs[id].token || a == CancelTake(id)
            || (a.DrainCancel? && a.d < |s.drainers| && s.drainers[a.d].phase.NeedsCancel? && Step(s, a) != s)
  {
    EntryMoves(s, a, id);
    if a.Poll? || a.Commit? || a.Settle? || a.CancelSend? || (a.CancelTake? && a.id != id) {
      TaskToken(s, a, id);
    } else if !TouchesRuns(a) {
      RunsUntouched(s, a);
    }
  }

  lemma DrainersKnown(s: System, a: Action)
    requires forall d :: 0 <= d < |s.drainers| && s.drainers[d].phase.NeedsCancel? ==> s.drainers[d].mode.Terminate?
    ensures forall d :: 0 <= d < |Step(s, a).drainers| && Step(s, a).drainers[d].phase.NeedsCancel? ==>
              Step(s, a).drainers[d].mode.Terminate?
  {
  }

  lemma TakerStep(s: System, a: Action, id: RunId)
    requires TakersKnown(s) && id in Step(s, a).runs && !Step(s, a).runs[id].token
    ensures HasCanceler(Step(s, a), id) || SweptOut(Step(s, a))
  {
    var t := Step(s, a);
    if id !in s.runs {
      NewEntry(s, a, id);
    } else if s.runs[id].token {
      TokenStep(s, a, id);
      if a == CancelTake(id) {
        assert t.cancelers[|s.cancelers|].id == id;
      } else {
        assert t.drainers[a.d].mode.Terminate? && t.drainers[a.d].phase == WaitsIdle;
      }
    } else if HasCanceler(s, id) {
      CancelersGrow(s, a, id);
    } else {
      SweptOutKept(s, a);
    }
  }

  lemma {:induction false} ExecTakers(web: bool, actions: seq<Action>)
    ensures TakersKnown(Exec(web, actions))
    decreases |actions|
  {
    if actions != [] {
      var before, a := actions[..|actions| - 1], actions[|actions| - 1];
      ExecTakers(web, before);
      DrainersKnown(Exec(web, before), a);
      forall id | id in Exec(web, actions).runs && !Exec(web, actions).runs[id].token
        ensures HasCanceler(Exec(web, actions), id) || SweptOut(Exec(web, actions))
      {
        TakerStep(Exec(web, before), a, id);
      }
    }
  }

  /** A consumed token was taken by a `cancel` of that very run, or by the sweep of a
      terminating shutdown. */
  lemma TokenTakenBy(web: bool, actions: seq<Action>, id: RunId)
    requires id in Exec(web, actions).runs && !Exec(web, actions).runs[id].token
    ensures HasCanceler(Exec(web, actions), id) || SweptOut(Exec(web, actions))
  {
    ExecTakers(web, actions);
  }

  /** Where a canceler and a terminating drainer come from. */
  ghost predicate Originated(s: System, actions: seq<Action>) {
    && (forall c :: 0 <= c < |s.cancelers| ==> CancelTake(s.cancelers[c].id) in actions)
    && (s.admission == ForShutdown(Terminate) ==> ShutdownRequest(Terminate) in actions)
    && (forall d :: 0 <= d < |s.drainers| && s.drainers[d].mode.Terminate? ==> ShutdownRequest(Terminate) in actions)
  }

  lemma CancelerOrigin(s: System, a: Action, c: nat)
    requires c < |Step(s, a).cancelers|
    ensures (c < |s.cancelers| && Step(s, a).cancelers[c].id == s.cancelers[c].id) || a == CancelTake(Step(s, a).cancelers[c].id)
  {
    if !a.CancelTake? && !a.CancelSend? && !a.CancelReturn? {
      CancelersUntouched(s, a);
    }
  }

  lemma AdmissionOrigin(s: System, a: Action)
    ensures Step(s, a).admission == ForShutdown(Terminate) ==>
              s.admission == ForShutdown(Terminate) || a == ShutdownRequest(Terminate)
  {
  }

  lemma DrainerOrigin(s: System, a: Action, d: nat)
    requires d < |Step(s, a).drainers|
    ensures (d < |s.drainers| && Step(s, a).drainers[d].mode == s.drainers[d].mode)
            || s.admission == ForShutdown(Step(s, a).drainers[d].mode)
  {
  }

  lemma OriginStep(s: System, a: Action, actions: seq<Action>)
    requires Originated(s, actions)
    ensures Originated(Step(s, a), actions + [a])
  {
    var t := Step(s, a);
    forall c | 0 <= c < |t.cancelers| ensures CancelTake(t.cancelers[c].id) in actions + [a] {
      CancelerOrigin(s, a, c);
    }
    AdmissionOrigin(s, a);
    forall d | 0 <= d < |t.drainers| && t.drainers[d].mode.Terminate? ensures ShutdownRequest(Terminate) in actions + [a] {
      DrainerOrigin(s, a, d);
    }
  }

  lemma {:induction false} OriginOf(web: bool, actions: seq<Action>)
    ensures Originated(Exec(web, actions), actions)
    decreases |actions|
  {
    if actions != [] {
      var before, a := actions[..|actions| - 1], actions[|actions| - 1];
      OriginOf(web, before);
      OriginStep(Exec(web, before), a, before);
      assert actions == before + [a];
    }
  }

  /** A draining shutdown leaves the runs alone. If nobody asked for termination, a
      token is gone, and a run signalled, only if somebody cancelled that run. */
  lemma DrainLeavesRunsAlone(web: bool, actions: seq<Action>, id: RunId)
    requires ShutdownRequest(Terminate) !in actions && id in Exec(web, actions).runs
    requires !Exec(web, actions).runs[id].token || Exec(web, actions).runs[id].signalled
    ensures CancelTake(id) in actions
  {
    ExecInv(web, actions);
    assert RunOk(id, Exec(web, actions).runs[id], Exec(web, actions).writer);
    ExecTakers(web, actions);
    OriginOf(web, actions);
  }

  // ------------------------------------------------------------------
  // How a start ends
  // ------------------------------------------------------------------

  /** A StartRun may be served now. */
  ghost predicate Admits(s: System) {
    s.web || (s.admission.Open? && !s.stopping)
  }

  function ServeWith(k: nat, id: RunId, launches: bool): seq<Action> {
    ([StartRequest(id)] + [StartCheck(k, launches)]) + ([StartInsert(k)] + [StartCount(k)] + [StartReply(k)])
  }

  lemma Requested(s: System, id: RunId)
    requires Admits(s)
    ensures StartRequested(s, id)
         == s.(starters := s.starters + [Starter(id, Checking)], admission := if s.web then s.admission else ForStart(|s.starters|))
  {
  }

  lemma ChecksLast(s: System, earlier: seq<Starter>, id: RunId, launches: bool)
    requires s.writer.Idle? && s.starters == earlier + [Starter(id, Checking)]
    ensures StartChecked(s, |earlier|, launches)
         == s.(starters := earlier + [Starter(id, if id in s.runs then Conflicted else if launches then Launched else Refused)])
  {
    var phase := if id in s.runs then Conflicted else if launches then Launched else Refused;
    assert s.starters[|earlier| := Starter(id, phase)] == earlier + [Starter(id, phase)];
  }

  lemma Checked(s: System, id: RunId, launches: bool)
    requires Admits(s) && s.writer.Idle?
    ensures var k := |s.starters|; var t := Continue(s, [StartRequest(id)] + [StartCheck(k, launches)]);
            && t == s.(starters := t.starters, admission := t.admission)
            && t.starters == s.starters + [Starter(id, if id in s.runs then Conflicted else if launches then Launched else Refused)]
            && t.admission == if s.web then s.admission else ForStart(k)
  {
    ContinueTwo(s, StartRequest(id), StartCheck(|s.starters|, launches));
    Requested(s, id);
    ChecksLast(StartRequested(s, id), s.starters, id, launches);
  }

  lemma LaunchedInserts(s: System, k: nat, id: RunId)
    requires k < |s.starters| && s.starters[k] == Starter(id, Launched) && s.writer.Idle? && id !in s.runs
    ensures var t := StartCounted(StartInserted(s, k), k);
            t == s.(runs := s.runs[id := NEW_RUN], active := s.active + 1, counted := s.counted + 1,
                    starters := s.starters[k := Starter(id, Accepted)])
  {
    var t := s.(runs := s.runs[id := NEW_RUN], writer := Counting(k), starters := s.starters[k := Starter(id, Inserted)]);
    assert StartInserted(s, k) == t;
    assert t.starters[k := Starter(id, Accepted)] == s.starters[k := Starter(id, Accepted)];
  }

  lemma OverStays(s: System, k: nat)
    requires k < |s.starters| && (s.starters[k].phase.Conflicted? || s.starters[k].phase.Refused?) && s.writer.Idle?
    ensures StartCounted(StartInserted(s, k), k) == s
  {
  }

  lemma FinishAccepted(s: System, k: nat, id: RunId)
    requires k < |s.starters| && s.starters[k] == Starter(id, Launched) && s.writer.Idle? && id !in s.runs
    requires s.admission == ForStart(k) || s.admission.Open?
    ensures Continue(s, [StartInsert(k)] + [StartCount(k)] + [StartReply(k)])
         == s.(runs := s.runs[id := NEW_RUN], active := s.active + 1, counted := s.counted + 1,
               starters := s.starters[k := Starter(id, Accepted)], admission := Open)
  {
    ContinueThree(s, StartInsert(k), StartCount(k), StartReply(k));
    LaunchedInserts(s, k, id);
    Replies(StartCounted(StartInserted(s, k), k), k);
  }

  lemma FinishOver(s: System, k: nat)
    requires k < |s.starters| && (s.starters[k].phase.Conflicted? || s.starters[k].phase.Refused?) && s.writer.Idle?
    requires s.admission == ForStart(k) || s.admission.Open?
    ensures Continue(s, [StartInsert(k)] + [StartCount(k)] + [StartReply(k)]) == s.(admission := Open)
  {
    ContinueThree(s, StartInsert(k), StartCount(k), StartReply(k));
    OverStays(s, k);
    Replies(s, k);
  }

  lemma ServedInTwo(s: System, id: RunId, launches: bool)
    ensures var k := |s.starters|;
            Continue(s, ServeWith(k, id, launches))
              == Continue(Continue(s, [StartRequest(id)] + [StartCheck(k, launches)]),
                          [StartInsert(k)] + [StartCount(k)] + [StartReply(k)])
  {
    var k := |s.starters|;
    ContinueAppend(s, [StartRequest(id)] + [StartCheck(k, launches)], [StartInsert(k)] + [StartCount(k)] + [StartReply(k)]);
  }

  /** A start served on either transport with nobody in between: it is a conflict if
      the id is known, refused if the provider does not launch, and otherwise
      accepted; and only then is the run there, fresh, and counted. */
  lemma StartOutcome(s: System, id: RunId, launches: bool)
    requires Admits(s) && s.writer.Idle? && (s.web ==> s.admission.Open?)
    ensures var k := |s.starters|; var t := Continue(s, ServeWith(k, id, launches));
            var accepted := id !in s.runs && launches;
            && t.starters == s.starters + [Starter(id, if id in s.runs then Conflicted else if launches then Accepted else Refused)]
            && t.runs == (if accepted then s.runs[id := NEW_RUN] else s.runs)
            && t.active == s.active + (if accepted then 1 else 0)
            && t.admission.Open? && t.writer.Idle?
  {
    var k := |s.starters|;
    ServedInTwo(s, id, launches);
    Checked(s, id, launches);
    var s1 := Continue(s, [StartRequest(id)] + [StartCheck(k, launches)]);
    if id !in s.runs && launches {
      FinishAccepted(s1, k, id);
      assert s1.starters[k := Starter(id, Accepted)] == s.starters + [Starter(id, Accepted)];
    } else {
      FinishOver(s1, k);
    }
  }

  lemma Replies(s: System, k: nat)
    requires k < |s.starters| && StartOver(s.starters[k].phase)
    requires s.admission == ForStart(k) || s.admission.Open?
    ensures StartReplied(s, k) == s.(admission := Open)
  {
  }

  /** Once a shutdown was admitted, a StartRun on the Unix transport gets nowhere. */
  lemma NoStartWhileStopping(s: System, id: RunId)
    requires !s.web && (s.stopping || !s.admission.Open?)
    ensures Step(s, StartRequest(id)) == s
  {
  }

  /** A start ends in conflict only if its id is in the registry by then, and is
      refused only if its provider did not launch. */
  ghost predicate EndsExplained(s: System, actions: seq<Action>) {
    forall k :: 0 <= k < |s.starters| ==>
      && (s.starters[k].phase.Conflicted? ==> s.starters[k].id in s.runs)
      && (s.starters[k].phase.Refused? ==> StartCheck(k, false) in actions)
  }

  lemma EndInserted(s: System, j: nat, k: nat)
    requires k < |s.starters| && (s.starters[k].phase.Conflicted? ==> s.starters[k].id in s.runs)
    ensures var t := StartInserted(s, j);
            && k < |t.starters| && (t.starters[k].phase.Conflicted? ==> t.starters[k].id in t.runs)
            && (t.starters[k].phase.Refused? ==> s.starters[k].phase.Refused?)
  {
  }

  lemma EndChecked(s: System, j: nat, launches: bool, k: nat)
    requires k < |s.starters| && (s.starters[k].phase.Conflicted? ==> s.starters[k].id in s.runs)
    ensures var t := StartChecked(s, j, launches);
            && k < |t.starters| && (t.starters[k].phase.Conflicted? ==> t.starters[k].id in t.runs)
            && (t.starters[k].phase.Refused? ==> s.starters[k].phase.Refused? || (j == k && !launches))
  {
  }

  lemma EndStep(s: System, a: Action, k: nat)
    requires k < |Step(s, a).starters|
    requires k < |s.starters| && s.starters[k].phase.Conflicted? ==> s.starters[k].id in s.runs
    ensures var p := Step(s, a).starters[k].phase;
            && (p.Conflicted? ==> Step(s, a).starters[k].id in Step(s, a).runs)
            && (p.Refused? ==> (k < |s.starters| && s.starters[k].phase.Refused?) || a == StartCheck(k, false))
  {
    if a.StartCheck? {
      EndChecked(s, a.k, a.launches, k);
    } else if a.StartInsert? {
      EndInserted(s, a.k, k);
    } else if !TouchesStarters(a) {
      StartersUntouched(s, a);
    }
  }

  lemma {:induction false} StartsExplained(web: bool, actions: seq<Action>)
    ensures EndsExplained(Exec(web, actions), actions)
    decreases |actions|
  {
    if actions != [] {
      var before, a := actions[..|actions| - 1], actions[|actions| - 1];
      StartsExplained(web, before);
      assert actions == before + [a];
      forall k | 0 <= k < |Exec(web, actions).starters|
        ensures var p := Exec(web, actions).starters[k].phase;
                && (p.Conflicted? ==> Exec(web, actions).starters[k].id in Exec(web, actions).runs)
                && (p.Refused? ==> StartCheck(k, false) in actions)
      {
        EndStep(Exec(web, before), a, k);
      }
    }
  }

  // ------------------------------------------------------------------
  // The registry's lock
  // ------------------------------------------------------------------

  /** What is behind the lock of an entry. */
  ghost predicate SameEntry(r: Run, r': Run) {
    r'.state == r.state && r'.log == r.log && r'.token == r.token && r'.takes == r.takes
  }

  lemma LockedPoll(s: System, id: RunId, other: RunId, input: Input)
    requires id in s.runs
    ensures var t := Step(s, Poll(other, input));
            id in t.runs && SameEntry(s.runs[id], t.runs[id]) && t.runs[id].completed == s.runs[id].completed
  {
  }

  lemma LockedTask(s: System, a: Action, id: RunId)
    requires !s.writer.Idle? && id in s.runs && (a.Poll? || a.Commit? || a.Settle?)
    ensures id in Step(s, a).runs && SameEntry(s.runs[id], Step(s, a).runs[id])
    ensures Step(s, a).runs[id].completed == s.runs[id].completed || (a == Settle(id) && s.writer == Settling(id))
  {
    if a.Poll? {
      LockedPoll(s, id, a.id, a.input);
    } else if a.Commit? {
      assert Step(s, a) == s;
    }
  }

  lemma LockedCancel(s: System, a: Action, id: RunId)
    requires !s.writer.Idle? && id in s.runs && (a.CancelTake? || a.CancelSend? || a.DrainCancel?)
    ensures id in Step(s, a).runs && SameEntry(s.runs[id], Step(s, a).runs[id])
    ensures Step(s, a).runs[id].completed == s.runs[id].completed
  {
  }

  lemma LockedEntry(s: System, a: Action, id: RunId)
    requires !s.writer.Idle? && id in s.runs
    ensures id in Step(s, a).runs && SameEntry(s.runs[id], Step(s, a).runs[id])
    ensures Step(s, a).runs[id].completed == s.runs[id].completed || (a == Settle(id) && s.writer == Settling(id))
  {
    if a.Poll? || a.Commit? || a.Settle? {
      LockedTask(s, a, id);
    } else if a.CancelTake? || a.CancelSend? || a.DrainCancel? {
      LockedCancel(s, a, id);
    } else if !a.StartInsert? && !a.StartCount? {
      RunsUntouched(s, a);
    }
  }

  lemma LockedStart(s: System, a: Action, k: nat)
    requires !s.writer.Idle? && k < |s.starters|
    ensures k < |Step(s, a).starters|
    ensures Step(s, a).starters[k] == s.starters[k] || (a == StartCount(k) && s.writer == Counting(k))
  {
    if !TouchesStarters(a) {
      StartersUntouched(s, a);
    }
  }

  /** While a step between two lock sections is owed, nobody else gets at the registry:
      no entry appears, publishes, loses its token or completes, no start moves and no
      sweep takes place, except that the holder counts the run in or out. */
  lemma LockExcludes(s: System, a: Action)
    requires !s.writer.Idle?
    ensures var t := Step(s, a);
            && t.runs.Keys == s.runs.Keys
            && (forall id :: id in s.runs ==>
                  && SameEntry(s.runs[id], t.runs[id])
                  && (t.runs[id].completed == s.runs[id].completed || (a == Settle(id) && s.writer == Settling(id))))
            && (forall k :: 0 <= k < |s.starters| ==>
                  k < |t.starters| && (t.starters[k] == s.starters[k] || (a == StartCount(k) && s.writer == Counting(k))))
            && (a.DrainCancel? ==> t.drainers == s.drainers)
  {
    forall id | id in s.runs
      ensures id in Step(s, a).runs && SameEntry(s.runs[id], Step(s, a).runs[id])
      ensures Step(s, a).runs[id].completed == s.runs[id].completed || (a == Settle(id) && s.writer == Settling(id))
    {
      LockedEntry(s, a, id);
    }
    forall k | 0 <= k < |s.starters|
      ensures k < |Step(s, a).starters|
      ensures Step(s, a).starters[k] == s.starters[k] || (a == StartCount(k) && s.writer == Counting(k))
    {
      LockedStart(s, a, k);
    }
    if !a.StartInsert? {
      SameKeys(s, a);
    }
  }

  // ------------------------------------------------------------------
  // What a shutdown does
  // ------------------------------------------------------------------

  /** The first Shutdown, as acknowledged: `stopping` from then on, and a drainer of
      the mode asked for if the acknowledgement could be written; and it drains: when
      no run is counted it sets the flag, having swept first only to terminate. */
  lemma ShutdownTakesEffect(s: System, mode: Mode, written: bool)
    requires !s.web && s.admission.Open? && !s.stopping
    ensures var t := Continue(s, [ShutdownRequest(mode)] + [ShutdownReply(written)]);
            && t == s.(stopping := true, drainers := t.drainers)
            && t.drainers == s.drainers +
                 if written then [Drainer(mode, if mode == Terminate then NeedsCancel else WaitsIdle)] else []
  {
    ContinueTwo(s, ShutdownRequest(mode), ShutdownReply(written));
    assert Step(s, ShutdownRequest(mode)) == s.(stopping := true, admission := ForShutdown(mode));
  }

  lemma DrainEnds(s: System, d: nat)
    requires d < |s.drainers| && s.drainers[d].phase.WaitsIdle?
    ensures var t := Continue(s, [DrainObserve(d)] + [DrainSignal(d)]);
            if s.active == 0 then
              t == s.(shutdown := true, drainers := s.drainers[d := s.drainers[d].(phase := Finished)])
            else t == s
  {
    ContinueTwo(s, DrainObserve(d), DrainSignal(d));
  }

  /** ShutdownIfIdle goes through exactly when no run is counted, whether or not a
      shutdown is under way, and sets the flag exactly if it could be acknowledged. */
  lemma IdleShutdownExactly(s: System, written: bool)
    requires !s.web && s.admission.Open?
    ensures var t := Continue(s, [IdleShutdownRequest] + [IdleShutdownReply(written)]);
            t == if s.active == 0 then s.(stopping := true, shutdown := s.shutdown || written) else s
  {
    ContinueTwo(s, IdleShutdownRequest, IdleShutdownReply(written));
  }

  /** At most one Shutdown is ever accepted, and none once `stopping` is set. */
  ghost predicate OneShutdown(s: System) {
    && |s.drainers| + (if s.admission.ForShutdown? then 1 else 0) <= 1
    && (s.drainers != [] || s.admission.ForShutdown? ==> s.stopping)
  }

  lemma OneShutdownStep(s: System, a: Action)
    requires OneShutdown(s)
    ensures OneShutdown(Step(s, a))
    ensures s.stopping ==> Step(s, a).stopping
    ensures s.shutdown ==> Step(s, a).shutdown
  {
  }

  lemma {:induction false} ShutdownForGood(web: bool, actions: seq<Action>, more: seq<Action>)
    ensures OneShutdown(Continue(Exec(web, actions), more))
    ensures Exec(web, actions).stopping ==> Continue(Exec(web, actions), more).stopping
    ensures Exec(web, actions).shutdown ==> Continue(Exec(web, actions), more).shutdown
    decreases |actions| + |more|
  {
    if more != [] {
      ShutdownForGood(web, actions, more[..|more| - 1]);
      OneShutdownStep(Continue(Exec(web, actions), more[..|more| - 1]), more[|more| - 1]);
    } else if actions != [] {
      var before := actions[..|actions| - 1];
      ShutdownForGood(web, before, []);
      OneShutdownStep(Exec(web, before), actions[|actions| - 1]);
    }
  }

  /** ShutdownIfIdle was acknowledged. */
  ghost predicate EverIdleAcknowledged(web: bool, actions: seq<Action>) {
    actions != [] &&
      (EverIdleAcknowledged(web, actions[..|actions| - 1])
       || (actions[|actions| - 1] == IdleShutdownReply(true) && Exec(web, actions[..|actions| - 1]).admission.ForIdleShutdown?))
  }

  ghost predicate SomeFinished(s: System) {
    exists d :: 0 <= d < |s.drainers| && s.drainers[d].phase.Finished?
  }

  lemma FlagStep(s: System, a: Action)
    ensures Step(s, a).shutdown <==>
              (s.shutdown || (a == IdleShutdownReply(true) && s.admission.ForIdleShutdown?)
               || (a.DrainSignal? && a.d < |s.drainers| && s.drainers[a.d].phase.SawIdle?))
  {
  }

  lemma DrainersUntouched(s: System, a: Action)
    requires !a.ShutdownReply? && !a.DrainCancel? && !a.DrainObserve? && !a.DrainSignal?
    ensures Step(s, a).drainers == s.drainers
  {
  }

  lemma FinishedKept(s: System, a: Action, d: nat)
    requires d < |s.drainers|
    ensures d < |Step(s, a).drainers|
    ensures Step(s, a).drainers[d].phase.Finished? <==>
              s.drainers[d].phase.Finished? || (a == DrainSignal(d) && s.drainers[d].phase.SawIdle?)
  {
    if !a.ShutdownReply? && !a.DrainCancel? && !a.DrainObserve? && !a.DrainSignal? {
      DrainersUntouched(s, a);
    }
  }

  lemma NewDrainers(s: System, a: Action, d: nat)
    requires |s.drainers| <= d < |Step(s, a).drainers|
    ensures !Step(s, a).drainers[d].phase.Finished?
  {
  }

  lemma FinishStep(s: System, a: Action)
    ensures SomeFinished(Step(s, a)) <==>
              (SomeFinished(s) || (a.DrainSignal? && a.d < |s.drainers| && s.drainers[a.d].phase.SawIdle?))
  {
    if SomeFinished(s) {
      var d :| 0 <= d < |s.drainers| && s.drainers[d].phase.Finished?;
      FinishedKept(s, a, d);
    }
    if a.DrainSignal? && a.d < |s.drainers| && s.drainers[a.d].phase.SawIdle? {
      FinishedKept(s, a, a.d);
    }
    if SomeFinished(Step(s, a)) {
      var d :| 0 <= d < |Step(s, a).drainers| && Step(s, a).drainers[d].phase.Finished?;
      if d < |s.drainers| {
        FinishedKept(s, a, d);
      } else {
        NewDrainers(s, a, d);
      }
    }
  }

  /** The shutdown flag is set exactly when ShutdownIfIdle was acknowledged or the
      drain of an accepted Shutdown has finished. */
  lemma {:induction false} FlagExactly(web: bool, actions: seq<Action>)
    ensures Exec(web, actions).shutdown <==> EverIdleAcknowledged(web, actions) || SomeFinished(Exec(web, actions))
    decreases |actions|
  {
    if actions != [] {
      FlagExactly(web, actions[..|actions| - 1]);
      FlagStep(Exec(web, actions[..|actions| - 1]), actions[|actions| - 1]);
      FinishStep(Exec(web, actions[..|actions| - 1]), actions[|actions| - 1]);
    }
  }

  // ------------------------------------------------------------------
  // The count, as the waiters of `Wakeup` see it
  // ------------------------------------------------------------------

  /** The updates of the count: one for every run counted in and one for every time
      a run is counted out. */
  ghost function CountUpdates(web: bool, actions: seq<Action>): seq<Wakeup.CountUpdate> {
    if actions == [] then []
    else
      var before, a := actions[..|actions| - 1], actions[|actions| - 1];
      CountUpdates(web, before) + UpdateOf(Exec(web, before), a)
  }

  ghost function UpdateOf(s: System, a: Action): seq<Wakeup.CountUpdate> {
    if a.StartCount? && a.k < |s.starters| && s.writer == Counting(a.k) then [Wakeup.RunStarted]
    else if a.Settle? && a.id in s.runs && s.writer == Settling(a.id) then [Wakeup.RunFinished]
    else []
  }

  function CountAfter(updates: seq<Wakeup.CountUpdate>): nat {
    if updates == [] then 0
    else Wakeup.ApplyCount(CountAfter(updates[..|updates| - 1]), updates[|updates| - 1])
  }

  lemma CountStepIs(s: System, a: Action)
    ensures Step(s, a).active
         == if a.StartCount? && a.k < |s.starters| && s.writer == Counting(a.k) then Wakeup.ApplyCount(s.active, Wakeup.RunStarted)
            else if a.Settle? && a.id in s.runs && s.writer == Settling(a.id) then Wakeup.ApplyCount(s.active, Wakeup.RunFinished)
            else s.active
  {
  }

  /** The registry's count is the count its waiters wait on. */
  lemma {:induction false} OneCount(web: bool, actions: seq<Action>)
    ensures Exec(web, actions).active == CountAfter(CountUpdates(web, actions))
    decreases |actions|
  {
    if actions != [] {
      var before, a := actions[..|actions| - 1], actions[|actions| - 1];
      OneCount(web, before);
      CountStepIs(Exec(web, before), a);
      var earlier := CountUpdates(web, before);
      assert earlier + [] == earlier;
      assert (earlier + [Wakeup.RunStarted])[..|earlier|] == earlier;
      assert (earlier + [Wakeup.RunFinished])[..|earlier|] == earlier;
    }
  }

  /** Its waiters never see a finish too many, exactly as long as the count has never
      saturated. */
  lemma {:induction false} NeverBelowExactly(web: bool, actions: seq<Action>)
    ensures Wakeup.NeverBelow(CountUpdates(web, actions)) <==> Exec(web, actions).saturations == 0
    decreases |actions|
  {
    if actions != [] {
      var before, a := actions[..|actions| - 1], actions[|actions| - 1];
      var s, earlier := Exec(web, before), CountUpdates(web, before);
      NeverBelowExactly(web, before);
      OneCount(web, before);
      SaturationIs(s, a);
      if Wakeup.NeverBelow(earlier) {
        CountAfterIs(earlier);
      }
      assert earlier + [] == earlier;
      assert (earlier + [Wakeup.RunStarted])[..|earlier|] == earlier;
      assert (earlier + [Wakeup.RunFinished])[..|earlier|] == earlier;
    }
  }

  lemma SaturationIs(s: System, a: Action)
    ensures Step(s, a).saturations
         == s.saturations + if a.Settle? && a.id in s.runs && s.writer == Settling(a.id) && s.active == 0 then 1 else 0
  {
  }

  lemma {:induction false} CountAfterIs(updates: seq<Wakeup.CountUpdate>)
    requires Wakeup.NeverBelow(updates)
    ensures Wakeup.Finishes(updates) <= Wakeup.Starts(updates)
    ensures CountAfter(updates) == Wakeup.Starts(updates) - Wakeup.Finishes(updates)
    decreases |updates|
  {
    if updates != [] {
      CountAfterIs(updates[..|updates| - 1]);
    }
  }
}
