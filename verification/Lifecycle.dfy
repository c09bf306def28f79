/** Run lifecycle, activity counting, cancellation, concurrent starts and the
    shutdown protocol, as interleaved atomic steps.

    A step is what one task does between two points at which another can run:
    under the registry's write lock, one lock section, except that inserting a
    run and counting it, and committing a terminal state and counting that, are
    two steps, because the counter is read without the lock. An action that is
    not possible in a state leaves it alone. */
module Lifecycle {
  type RunId = string

  datatype RunState = Starting | Running | WaitingApproval | Finishing | Completed | Failed | Canceled | Interrupted

  /** Active is every state a run does not end in. */
  predicate IsActive(state: RunState): (active: bool)
    ensures active <==> state != Completed && state != Failed && state != Canceled && state != Interrupted
  {
    state.Starting? || state.Running? || state.WaitingApproval? || state.Finishing?
  }

  /** A provider event; `encodes` is whether its payload can be serialized. */
  datatype ProviderEvent =
    | Started | Thinking | Text | MessageBoundary | ToolCall | ToolResult | ApprovalRequest
    | Usage(encodes: bool) | RateLimit(encodes: bool) | Compaction(encodes: bool) | Commands(encodes: bool)
    | Unrecognized

  /** How a provider run ends: an outcome, which may itself fail to serialize,
      or an error. */
  datatype Ending = Outcome(ok: bool, encodes: bool) | FinishError

  datatype Option<T> = None | Some(value: T)

  /** The state an event is published with, if it is published at all. A payload
      that does not serialize publishes a failure, and the run goes on. */
  function EventState(e: ProviderEvent): Option<RunState> {
    match e
    case ApprovalRequest => Some(WaitingApproval)
    case Usage(ok) => Some(if ok then Running else Failed)
    case RateLimit(ok) => Some(if ok then Running else Failed)
    case Compaction(ok) => Some(if ok then Running else Failed)
    case Commands(ok) => Some(if ok then Running else Failed)
    case Unrecognized => None
    case _ => Some(Running)
  }

  function EndState(e: Ending): RunState {
    if e == Outcome(true, true) then Completed else Failed
  }

  /** Where a run's task stands: polling, holding a state to publish and then
      poll again, holding the state it ends with, or gone. */
  datatype Task = Looping | Publishing(state: RunState) | Closing(state: RunState) | Done

  /** One registry entry. `token` is the unconsumed cancel sender and
      `signalled` its receiver's being ready. `log` (the states published, in
      order), `takes`, `failures` (serialization failures published), `rises`
      (from terminal back to active) and `falls` (times it was counted out) are
      history. */
  datatype Run = Run(
    state: RunState, token: bool, signalled: bool, completed: bool, task: Task,
    log: seq<RunState>, takes: nat, failures: nat, rises: nat, falls: nat)

  const NEW_RUN := Run(Starting, true, false, false, Looping, [], 0, 0, 0, 0)

  /** Who holds the registry's write lock between two of its steps. */
  datatype Writer = Idle | Counting(starter: nat) | Settling(id: RunId)

  datatype StartPhase = Checking | Launched | Inserted | Accepted | Conflicted | Refused

  datatype Starter = Starter(id: RunId, phase: StartPhase)

  datatype Mode = Drain | Terminate

  /** Who holds the admission lock: nobody, a StartRun, or a shutdown request
      between setting `stopping` and the end of its acknowledgement write. */
  datatype Admission = Open | ForStart(starter: nat) | ForShutdown(mode: Mode) | ForIdleShutdown

  datatype DrainPhase = NeedsCancel | WaitsIdle | SawIdle | Finished

  datatype Drainer = Drainer(mode: Mode, phase: DrainPhase)

  datatype CancelPhase = Took | Waits | Returned

  datatype Canceler = Canceler(id: RunId, phase: CancelPhase)

  /** `web` tells the transports apart: only the Unix one has the admission lock
      and the shutdown requests. `counted` (increments of the count), `revivals`
      (terminal runs made active again) and `saturations` (decrements of a zero
      count) are history. */
  datatype System = System(
    web: bool, runs: map<RunId, Run>, active: nat, writer: Writer, starters: seq<Starter>,
    stopping: bool, admission: Admission, drainers: seq<Drainer>, cancelers: seq<Canceler>, shutdown: bool,
    counted: nat, revivals: nat, saturations: nat)

  datatype Input = Event(event: ProviderEvent) | End(ending: Ending)

  datatype Action =
    | StartRequest(id: RunId)
    | StartCheck(k: nat, launches: bool)
    | StartInsert(k: nat)
    | StartCount(k: nat)
    | StartReply(k: nat)
    | Poll(id: RunId, input: Input)
    | Commit(id: RunId)
    | Settle(id: RunId)
    | CancelTake(id: RunId)
    | CancelSend(c: nat)
    | CancelReturn(c: nat)
    | ShutdownRequest(mode: Mode)
    | ShutdownReply(written: bool)
    | IdleShutdownRequest
    | IdleShutdownReply(written: bool)
    | DrainCancel(d: nat)
    | DrainObserve(d: nat)
    | DrainSignal(d: nat)

  function Init(web: bool): System {
    System(web, map[], 0, Idle, [], false, Open, [], [], false, 0, 0, 0)
  }

  // ------------------------------------------------------------------
  // The steps
  // ------------------------------------------------------------------

  function StartRequested(s: System, id: RunId): System {
    if s.web then s.(starters := s.starters + [Starter(id, Checking)])
    else if s.admission.Open? && !s.stopping then
      s.(starters := s.starters + [Starter(id, Checking)], admission := ForStart(|s.starters|))
    else s
  }

  function SetStart(s: System, k: nat, phase: StartPhase): System
    requires k < |s.starters|
  {
    s.(starters := s.starters[k := s.starters[k].(phase := phase)])
  }

  function StartChecked(s: System, k: nat, launches: bool): System {
    if k < |s.starters| && s.starters[k].phase.Checking? && s.writer.Idle? then
      SetStart(s, k, if s.starters[k].id in s.runs then Conflicted else if launches then Launched else Refused)
    else s
  }

  function StartInserted(s: System, k: nat): System {
    if k < |s.starters| && s.starters[k].phase.Launched? && s.writer.Idle? then
      if s.starters[k].id in s.runs then SetStart(s, k, Conflicted)
      else SetStart(s.(runs := s.runs[s.starters[k].id := NEW_RUN], writer := Counting(k)), k, Inserted)
    else s
  }

  function StartCounted(s: System, k: nat): System {
    if k < |s.starters| && s.writer == Counting(k) then
      SetStart(s.(active := s.active + 1, writer := Idle, counted := s.counted + 1), k, Accepted)
    else s
  }

  predicate StartOver(p: StartPhase) {
    p.Accepted? || p.Conflicted? || p.Refused?
  }

  function StartReplied(s: System, k: nat): System {
    if s.admission == ForStart(k) && k < |s.starters| && StartOver(s.starters[k].phase) then
      s.(admission := Open)
    else s
  }

  /** One turn of a run's loop. The cancellation is polled first. */
  function Polled(r: Run, input: Input): Run {
    if !r.task.Looping? then r
    else if r.signalled then r.(task := Closing(Canceled))
    else
      match input
      case Event(e) => if EventState(e).None? then r else r.(task := Publishing(EventState(e).value))
      case End(e) => r.(task := Closing(EndState(e)))
  }

  /** Whether publishing this state makes a terminal run active again. */
  function Rise(r: Run, state: RunState): nat {
    if !IsActive(r.state) && IsActive(state) then 1 else 0
  }

  /** `publish` with a state: the entry after its lock section. */
  function Committed(r: Run): Run {
    match r.task
    case Publishing(state) =>
      r.(state := state, log := r.log + [state], task := Looping,
         failures := r.failures + if IsActive(state) then 0 else 1,
         rises := r.rises + Rise(r, state))
    case Closing(state) =>
      r.(state := state, log := r.log + [state], task := Done, rises := r.rises + Rise(r, state))
    case _ => r
  }

  function CommitStep(s: System, id: RunId): System {
    if id in s.runs && s.writer.Idle? && (s.runs[id].task.Publishing? || s.runs[id].task.Closing?) then
      var r, r' := s.runs[id], Committed(s.runs[id]);
      s.(runs := s.runs[id := r'],
         writer := if IsActive(r.state) && !IsActive(r'.state) then Settling(id) else Idle,
         revivals := s.revivals + Rise(r, r'.state))
    else s
  }

  /** The entry after the run was counted out. */
  function Settled(r: Run): Run {
    r.(completed := true, falls := r.falls + 1)
  }

  function SettleStep(s: System, id: RunId): System {
    if id in s.runs && s.writer == Settling(id) then
      s.(runs := s.runs[id := Settled(s.runs[id])], writer := Idle,
         active := if s.active > 0 then s.active - 1 else 0,
         saturations := s.saturations + if s.active > 0 then 0 else 1)
    else s
  }

  function CancelTaken(s: System, id: RunId): System {
    if id in s.runs && s.runs[id].token && s.writer.Idle? then
      s.(runs := s.runs[id := s.runs[id].(token := false, takes := s.runs[id].takes + 1)],
         cancelers := s.cancelers + [Canceler(id, Took)])
    else s
  }

  function CancelSent(s: System, c: nat): System {
    if c < |s.cancelers| && s.cancelers[c].phase.Took? && s.cancelers[c].id in s.runs then
      var id := s.cancelers[c].id;
      s.(runs := s.runs[id := s.runs[id].(signalled := true)],
         cancelers := s.cancelers[c := Canceler(id, Waits)])
    else s
  }

  function CancelReturned(s: System, c: nat): System {
    if c < |s.cancelers| && s.cancelers[c].phase.Waits? && s.cancelers[c].id in s.runs
       && s.runs[s.cancelers[c].id].completed then
      s.(cancelers := s.cancelers[c := s.cancelers[c].(phase := Returned)])
    else s
  }

  /** `cancel_all` on one entry. */
  function Swept(r: Run): Run {
    if IsActive(r.state) && r.token then r.(token := false, signalled := true, takes := r.takes + 1) else r
  }

  function SweepAll(runs: map<RunId, Run>): map<RunId, Run> {
    map id | id in runs :: Swept(runs[id])
  }

  function SetDrain(s: System, d: nat, phase: DrainPhase): System
    requires d < |s.drainers|
  {
    s.(drainers := s.drainers[d := s.drainers[d].(phase := phase)])
  }

  function Step(s: System, a: Action): System {
    match a
    case StartRequest(id) => StartRequested(s, id)
    case StartCheck(k, launches) => StartChecked(s, k, launches)
    case StartInsert(k) => StartInserted(s, k)
    case StartCount(k) => StartCounted(s, k)
    case StartReply(k) => StartReplied(s, k)
    case Poll(id, input) => if id in s.runs then s.(runs := s.runs[id := Polled(s.runs[id], input)]) else s
    case Commit(id) => CommitStep(s, id)
    case Settle(id) => SettleStep(s, id)
    case CancelTake(id) => CancelTaken(s, id)
    case CancelSend(c) => CancelSent(s, c)
    case CancelReturn(c) => CancelReturned(s, c)
    case ShutdownRequest(mode) =>
      if s.web || !s.admission.Open? || s.stopping then s
      else s.(stopping := true, admission := ForShutdown(mode))
    case ShutdownReply(written) =>
      if !s.admission.ForShutdown? then s
      else s.(admission := Open,
              drainers := s.drainers + if !written then [] else
                [Drainer(s.admission.mode, if s.admission.mode.Terminate? then NeedsCancel else WaitsIdle)])
    case IdleShutdownRequest =>
      if s.web || !s.admission.Open? || s.active > 0 then s
      else s.(stopping := true, admission := ForIdleShutdown)
    case IdleShutdownReply(written) =>
      if !s.admission.ForIdleShutdown? then s
      else s.(admission := Open, shutdown := s.shutdown || written)
    case DrainCancel(d) =>
      if d < |s.drainers| && s.drainers[d].phase.NeedsCancel? && s.writer.Idle? then
        SetDrain(s.(runs := SweepAll(s.runs)), d, WaitsIdle)
      else s
    case DrainObserve(d) =>
      if d < |s.drainers| && s.drainers[d].phase.WaitsIdle? && s.active == 0 then SetDrain(s, d, SawIdle) else s
    case DrainSignal(d) =>
      if d < |s.drainers| && s.drainers[d].phase.SawIdle? then SetDrain(s.(shutdown := true), d, Finished) else s
  }

  function Continue(s: System, actions: seq<Action>): System {
    if actions == [] then s
    else Step(Continue(s, actions[..|actions| - 1]), actions[|actions| - 1])
  }

  function Exec(web: bool, actions: seq<Action>): System {
    Continue(Init(web), actions)
  }

  // ------------------------------------------------------------------
  // The invariant, without any hypothesis on the provider
  // ------------------------------------------------------------------

  ghost function ActiveIds(runs: map<RunId, Run>): set<RunId> {
    set id | id in runs && IsActive(runs[id].state)
  }

  function Terminals(log: seq<RunState>): nat {
    if log == [] then 0
    else Terminals(log[..|log| - 1]) + if IsActive(log[|log| - 1]) then 0 else 1
  }

  ghost predicate RunOk(id: RunId, r: Run, writer: Writer) {
    && r.state == (if r.log == [] then Starting else r.log[|r.log| - 1])
    && Terminals(r.log) == r.failures + (if r.task.Done? then 1 else 0)
    && (r.task.Done? ==> r.log != [] && !IsActive(r.state))
    && (r.task.Closing? ==> !IsActive(r.task.state))
    && (r.completed || writer == Settling(id) <==> Terminals(r.log) > 0)
    && (writer == Settling(id) ==> !IsActive(r.state))
    && (r.completed <==> r.falls > 0)
    && r.falls + (if writer == Settling(id) then 1 else 0) == r.rises + (if IsActive(r.state) then 0 else 1)
    && r.rises + (if IsActive(r.state) || r.task.Done? then 0 else 1) <= r.failures
    && r.takes + (if r.token then 1 else 0) == 1
    && (r.signalled ==> !r.token)
    && (r.task.Publishing? ==> r.task.state != Canceled)
    && (r.task == Closing(Canceled) || Canceled in r.log ==> r.signalled)
  }

  ghost predicate RunsOk(s: System) {
    && (forall id :: id in s.runs ==> RunOk(id, s.runs[id], s.writer))
    && (s.writer.Settling? ==> s.writer.id in s.runs)
  }

  /** The counter's exact law: it is off by what revivals and saturations make
      it off, and by the step a lock holder still owes. */
  ghost predicate CountLaw(s: System) {
    s.active + s.revivals + (if s.writer.Counting? then 1 else 0)
      == |ActiveIds(s.runs)| + s.saturations + (if s.writer.Settling? then 1 else 0)
  }

  /** Every entry is counted in once. */
  ghost predicate CountedOnce(s: System) {
    s.counted + (if s.writer.Counting? then 1 else 0) == |s.runs|
  }

  predicate Won(p: StartPhase) {
    p.Inserted? || p.Accepted?
  }

  ghost predicate Winner(starters: seq<Starter>, id: RunId) {
    exists k :: 0 <= k < |starters| && starters[k].id == id && Won(starters[k].phase)
  }

  /** Every entry was inserted by exactly one start. */
  ghost predicate StartsOk(s: System) {
    && (forall k :: 0 <= k < |s.starters| ==> (s.starters[k].phase.Inserted? <==> s.writer == Counting(k)))
    && (s.writer.Counting? ==> s.writer.starter < |s.starters|)
    && (forall k :: 0 <= k < |s.starters| && Won(s.starters[k].phase) ==> s.starters[k].id in s.runs)
    && (forall k, m :: 0 <= k < m < |s.starters| && Won(s.starters[k].phase) && Won(s.starters[m].phase) ==>
          s.starters[k].id != s.starters[m].id)
    && (forall id :: id in s.runs ==> Winner(s.starters, id))
  }

  ghost predicate AboutToSignal(cancelers: seq<Canceler>, id: RunId) {
    exists c :: 0 <= c < |cancelers| && cancelers[c] == Canceler(id, Took)
  }

  /** A consumed token is signalled or about to be, and a cancel that returned
      saw its run completed. */
  ghost predicate CancelsOk(s: System) {
    && (forall c :: 0 <= c < |s.cancelers| ==>
          && s.cancelers[c].id in s.runs && !s.runs[s.cancelers[c].id].token
          && (!s.cancelers[c].phase.Took? ==> s.runs[s.cancelers[c].id].signalled)
          && (s.cancelers[c].phase.Returned? ==> s.runs[s.cancelers[c].id].completed))
    && (forall id :: id in s.runs && !s.runs[id].token && !s.runs[id].signalled ==> AboutToSignal(s.cancelers, id))
  }

  /** On the Unix transport a start that is under way holds the admission lock,
      and it cannot be under way once `stopping` is set. */
  ghost predicate AdmissionOk(s: System) {
    !s.web ==>
      && (forall k :: 0 <= k < |s.starters| && !StartOver(s.starters[k].phase) ==> s.admission == ForStart(k))
      && (s.admission.ForStart? ==> !s.stopping)
      && (s.admission.ForShutdown? || s.admission.ForIdleShutdown? || s.drainers != [] || s.shutdown ==> s.stopping)
  }

  ghost predicate WebOk(s: System) {
    s.web ==> !s.stopping && s.admission.Open? && s.drainers == [] && !s.shutdown
  }

  /** No serialization failure has been published. */
  ghost predicate Clean(s: System) {
    forall id :: id in s.runs ==> s.runs[id].failures == 0
  }

  ghost predicate SawNoRun(s: System) {
    || s.shutdown || s.admission.ForIdleShutdown?
    || exists d :: 0 <= d < |s.drainers| && (s.drainers[d].phase.SawIdle? || s.drainers[d].phase.Finished?)
  }

  ghost predicate SweptOut(s: System) {
    exists d :: 0 <= d < |s.drainers| && s.drainers[d].mode.Terminate? && !s.drainers[d].phase.NeedsCancel?
  }

  /** Nothing is counted once somebody saw no run, and no run that was never made
      active again keeps its token past a sweep. */
  ghost predicate StopOk(s: System) {
    && (SawNoRun(s) ==> s.active == 0)
    && (SweptOut(s) ==> TokensSwept(s))
    && (Clean(s) ==> s.revivals == 0 && s.saturations == 0)
  }

  ghost predicate Inv(s: System) {
    && RunsOk(s) && CountLaw(s) && CountedOnce(s) && StartsOk(s) && CancelsOk(s) && AdmissionOk(s) && WebOk(s) && StopOk(s)
  }

  // ------------------------------------------------------------------
  // Every step keeps it
  // ------------------------------------------------------------------

  /** The actions that can change a registry entry, the lock or the count. */
  predicate TouchesRuns(a: Action) {
    a.StartInsert? || a.StartCount? || a.Poll? || a.Commit? || a.Settle? || a.CancelTake? || a.CancelSend? || a.DrainCancel?
  }

  lemma RunsUntouched(s: System, a: Action)
    requires !TouchesRuns(a)
    ensures var t := Step(s, a);
            && t.runs == s.runs && t.writer == s.writer && t.active == s.active
            && t.revivals == s.revivals && t.saturations == s.saturations && t.counted == s.counted
  {
  }

  predicate TouchesStarters(a: Action) {
    a.StartRequest? || a.StartCheck? || a.StartInsert? || a.StartCount?
  }

  lemma StartersUntouched(s: System, a: Action)
    requires !TouchesStarters(a)
    ensures var t := Step(s, a);
            && t.starters == s.starters && t.runs.Keys == s.runs.Keys && t.counted == s.counted
            && (t.writer == s.writer || (!s.writer.Counting? && !t.writer.Counting?))
  {
    if TouchesRuns(a) {
      match a
      case Poll(_, _) =>
      case Commit(_) =>
      case Settle(_) =>
      case CancelTake(_) =>
      case CancelSend(_) =>
      case DrainCancel(_) =>
    } else {
      RunsUntouched(s, a);
    }
  }

  lemma CancelersUntouched(s: System, a: Action)
    requires !a.CancelTake? && !a.CancelSend? && !a.CancelReturn?
    ensures Step(s, a).cancelers == s.cancelers
  {
  }

  /** How an entry changes from one state to a later one. */
  ghost predicate Evolves(r: Run, r': Run) {
    && r.log <= r'.log && r.takes <= r'.takes
    && r.failures <= r'.failures && r.rises <= r'.rises && r.falls <= r'.falls
    && (!IsActive(r.state) && IsActive(r'.state) ==> r.rises < r'.rises)
    && (r'.token ==> r.token) && (r.signalled ==> r'.signalled) && (r.completed ==> r'.completed)
  }

  /** What a step may do to one entry. */
  predicate Moves(r: Run, r': Run, input: Input) {
    || r' == r || r' == Polled(r, input) || r' == Committed(r) || r' == Settled(r)
    || r' == r.(token := false, takes := r.takes + 1) || r' == r.(signalled := true) || r' == Swept(r)
  }

  lemma PolledEvolves(r: Run, input: Input)
    ensures Evolves(r, Polled(r, input))
  {
  }

  lemma CommittedEvolves(r: Run)
    ensures Evolves(r, Committed(r))
  {
  }

  lemma MovesEvolve(r: Run, r': Run, input: Input)
    requires Moves(r, r', input)
    ensures Evolves(r, r')
  {
    if r' == Polled(r, input) {
      PolledEvolves(r, input);
    } else if r' == Committed(r) {
      CommittedEvolves(r);
    } else {
      assert r'.log == r.log && r'.state == r.state;
    }
  }

  lemma TaskMoves(s: System, a: Action, id: RunId)
    requires id in s.runs && (a.Poll? || a.Commit? || a.Settle?)
    ensures id in Step(s, a).runs && Moves(s.runs[id], Step(s, a).runs[id], InputOf(a))
  {
    match a
    case Poll(_, _) =>
    case Commit(_) =>
    case Settle(_) =>
  }

  lemma CancelMoves(s: System, a: Action, id: RunId)
    requires id in s.runs && (a.CancelTake? || a.CancelSend? || a.DrainCancel?)
    ensures id in Step(s, a).runs && Moves(s.runs[id], Step(s, a).runs[id], InputOf(a))
  {
    match a
    case CancelTake(_) =>
    case CancelSend(_) =>
    case DrainCancel(_) =>
  }

  function InputOf(a: Action): Input {
    if a.Poll? then a.input else Event(Text)
  }

  lemma EntryMoves(s: System, a: Action, id: RunId)
    requires id in s.runs
    ensures id in Step(s, a).runs && Moves(s.runs[id], Step(s, a).runs[id], InputOf(a))
  {
    if a.Poll? || a.Commit? || a.Settle? {
      TaskMoves(s, a, id);
    } else if a.CancelTake? || a.CancelSend? || a.DrainCancel? {
      CancelMoves(s, a, id);
    } else if a.StartInsert? || a.StartCount? {
      assert Step(s, a).runs[id] == s.runs[id];
    } else {
      RunsUntouched(s, a);
    }
  }

  lemma EntryEvolves(s: System, a: Action, id: RunId)
    requires id in s.runs
    ensures id in Step(s, a).runs && Evolves(s.runs[id], Step(s, a).runs[id])
  {
    EntryMoves(s, a, id);
    MovesEvolve(s.runs[id], Step(s, a).runs[id], InputOf(a));
  }

  lemma ActiveUpdate(runs: map<RunId, Run>, id: RunId, r: Run)
    ensures |ActiveIds(runs[id := r])|
         == |ActiveIds(runs)| - (if id in ActiveIds(runs) then 1 else 0) + (if IsActive(r.state) then 1 else 0)
  {
    var before, after := ActiveIds(runs), ActiveIds(runs[id := r]);
    if IsActive(r.state) {
      assert after == before + {id};
    } else {
      assert after == before - {id};
    }
  }

  lemma TerminalsAppend(log: seq<RunState>, state: RunState)
    ensures Terminals(log + [state]) == Terminals(log) + if IsActive(state) then 0 else 1
  {
    assert (log + [state])[..|log|] == log;
  }

  /** Publishing one more state keeps what the log says about the run. */
  lemma PublishedLog(r: Run)
    requires r.task.Publishing? || r.task.Closing?
    ensures Committed(r).log == r.log + [r.task.state] && Committed(r).state == r.task.state
    ensures Terminals(Committed(r).log) == Terminals(r.log) + if IsActive(r.task.state) then 0 else 1
    ensures Committed(r).state == Committed(r).log[|Committed(r).log| - 1]
    ensures Canceled in Committed(r).log ==> Canceled in r.log || r.task.state == Canceled
  {
    TerminalsAppend(r.log, r.task.state);
  }

  lemma PublishedOk(id: RunId, r: Run, writer: Writer)
    requires RunOk(id, r, Idle) && r.task.Publishing?
    requires writer == if IsActive(r.state) && !IsActive(Committed(r).state) then Settling(id) else Idle
    ensures RunOk(id, Committed(r), writer)
  {
    PublishedLog(r);
    if !IsActive(r.state) && r.log != [] {
      TerminalsPositive(r.log);
    }
  }

  lemma ClosedOk(id: RunId, r: Run, writer: Writer)
    requires RunOk(id, r, Idle) && r.task.Closing?
    requires writer == if IsActive(r.state) && !IsActive(Committed(r).state) then Settling(id) else Idle
    ensures RunOk(id, Committed(r), writer)
  {
    PublishedLog(r);
    if !IsActive(r.state) && r.log != [] {
      TerminalsPositive(r.log);
    }
  }

  lemma CommittedOk(id: RunId, r: Run, writer: Writer)
    requires RunOk(id, r, Idle) && (r.task.Publishing? || r.task.Closing?)
    requires writer == if IsActive(r.state) && !IsActive(Committed(r).state) then Settling(id) else Idle
    ensures RunOk(id, Committed(r), writer)
  {
    if r.task.Publishing? {
      PublishedOk(id, r, writer);
    } else {
      ClosedOk(id, r, writer);
    }
  }

  lemma TerminalsPositive(log: seq<RunState>)
    requires log != [] && !IsActive(log[|log| - 1])
    ensures Terminals(log) > 0
  {
  }

  lemma RunsPut(s: System, id: RunId, r: Run, writer: Writer)
    requires RunsOk(s) && id in s.runs
    requires RunOk(id, r, writer)
    requires writer == s.writer || ((s.writer.Idle? || s.writer == Settling(id)) && (writer.Idle? || writer == Settling(id)))
    ensures RunsOk(s.(runs := s.runs[id := r], writer := writer))
  {
  }

  lemma RunsKeep(s: System, t: System)
    requires RunsOk(s) && t.runs == s.runs && t.writer == s.writer
    ensures RunsOk(t)
  {
  }

  lemma RunsSweep(s: System)
    requires RunsOk(s)
    ensures RunsOk(s.(runs := SweepAll(s.runs)))
  {
  }

  lemma RunsInsert(s: System, k: nat, id: RunId)
    requires RunsOk(s) && id !in s.runs && s.writer.Idle?
    ensures RunsOk(s.(runs := s.runs[id := NEW_RUN], writer := Counting(k)))
  {
  }

  lemma RunsCommit(s: System, id: RunId)
    requires RunsOk(s)
    ensures RunsOk(CommitStep(s, id))
  {
    var t := CommitStep(s, id);
    if t != s {
      CommittedOk(id, s.runs[id], t.writer);
      RunsPut(s, id, Committed(s.runs[id]), t.writer);
      RunsKeep(s.(runs := t.runs, writer := t.writer), t);
    }
  }

  lemma RunsSettle(s: System, id: RunId)
    requires RunsOk(s)
    ensures RunsOk(SettleStep(s, id))
  {
    var t := SettleStep(s, id);
    if t != s {
      RunsPut(s, id, Settled(s.runs[id]), Idle);
      RunsKeep(s.(runs := t.runs, writer := t.writer), t);
    }
  }

  lemma RunsStart(s: System, k: nat)
    requires RunsOk(s)
    ensures RunsOk(StartInserted(s, k))
  {
    var t := StartInserted(s, k);
    if t.runs != s.runs {
      RunsInsert(s, k, s.starters[k].id);
      RunsKeep(s.(runs := t.runs, writer := t.writer), t);
    }
  }

  /** The writer named is a start that holds the lock for counting. */
  lemma RunsUncount(s: System, t: System)
    requires RunsOk(s) && t.runs == s.runs && s.writer.Counting? && t.writer.Idle?
    ensures RunsOk(t)
  {
    forall id | id in t.runs ensures RunOk(id, t.runs[id], t.writer) {
      assert RunOk(id, s.runs[id], s.writer);
    }
  }

  lemma RunsCount(s: System, k: nat)
    requires RunsOk(s)
    ensures RunsOk(StartCounted(s, k))
  {
    if k < |s.starters| && s.writer == Counting(k) {
      RunsUncount(s, StartCounted(s, k));
    }
  }

  lemma PolledOk(id: RunId, r: Run, writer: Writer, input: Input)
    requires RunOk(id, r, writer)
    ensures RunOk(id, Polled(r, input), writer)
  {
  }

  lemma RunsPoll(s: System, id: RunId, input: Input)
    requires RunsOk(s)
    ensures RunsOk(Step(s, Poll(id, input)))
  {
    if id in s.runs {
      PolledOk(id, s.runs[id], s.writer, input);
      RunsPut(s, id, Polled(s.runs[id], input), s.writer);
      RunsKeep(s.(runs := s.runs[id := Polled(s.runs[id], input)]), Step(s, Poll(id, input)));
    }
  }

  lemma RunsTake(s: System, id: RunId)
    requires RunsOk(s)
    ensures RunsOk(CancelTaken(s, id))
  {
    var t := CancelTaken(s, id);
    if t != s {
      RunsPut(s, id, t.runs[id], s.writer);
      RunsKeep(s.(runs := t.runs), t);
    }
  }

  lemma RunsSend(s: System, c: nat)
    requires RunsOk(s) && CancelsOk(s)
    ensures RunsOk(CancelSent(s, c))
  {
    var t := CancelSent(s, c);
    if t != s {
      var id := s.cancelers[c].id;
      RunsPut(s, id, t.runs[id], s.writer);
      RunsKeep(s.(runs := t.runs), t);
    }
  }

  lemma RunsDrain(s: System, d: nat)
    requires RunsOk(s)
    ensures RunsOk(Step(s, DrainCancel(d)))
  {
    RunsSweep(s);
  }

  lemma RunsStep(s: System, a: Action)
    requires RunsOk(s) && CancelsOk(s)
    ensures RunsOk(Step(s, a))
  {
    match a
    case StartInsert(k) => RunsStart(s, k);
    case StartCount(k) => RunsCount(s, k);
    case Poll(id, input) => RunsPoll(s, id, input);
    case Commit(id) => RunsCommit(s, id);
    case Settle(id) => RunsSettle(s, id);
    case CancelTake(id) => RunsTake(s, id);
    case CancelSend(c) => RunsSend(s, c);
    case DrainCancel(d) => RunsDrain(s, d);
    case _ =>
      RunsUntouched(s, a);
      RunsKeep(s, Step(s, a));
  }

  lemma CountKeep(s: System, t: System)
    requires CountLaw(s) && t.writer == s.writer && t.active == s.active
    requires t.revivals == s.revivals && t.saturations == s.saturations
    requires |ActiveIds(t.runs)| == |ActiveIds(s.runs)|
    ensures CountLaw(t)
  {
  }

  /** A step that leaves a run's state alone leaves the set of active runs. */
  lemma ActivePut(runs: map<RunId, Run>, id: RunId, r: Run)
    requires id in runs && r.state == runs[id].state
    ensures ActiveIds(runs[id := r]) == ActiveIds(runs)
  {
  }

  lemma CountCommit(s: System, id: RunId)
    requires CountLaw(s)
    ensures CountLaw(CommitStep(s, id))
  {
    if CommitStep(s, id) != s {
      ActiveUpdate(s.runs, id, Committed(s.runs[id]));
    }
  }

  lemma CountSettle(s: System, id: RunId)
    requires CountLaw(s)
    ensures CountLaw(SettleStep(s, id))
  {
    if SettleStep(s, id) != s {
      ActivePut(s.runs, id, Settled(s.runs[id]));
    }
  }

  lemma CountStart(s: System, k: nat)
    requires CountLaw(s)
    ensures CountLaw(StartInserted(s, k))
  {
    if StartInserted(s, k).runs != s.runs {
      ActiveUpdate(s.runs, s.starters[k].id, NEW_RUN);
    }
  }

  lemma CountCount(s: System, k: nat)
    requires CountLaw(s)
    ensures CountLaw(StartCounted(s, k))
  {
  }

  lemma CountCancel(s: System, a: Action)
    requires CountLaw(s) && (a.Poll? || a.CancelTake? || a.CancelSend?)
    ensures CountLaw(Step(s, a))
  {
    var t := Step(s, a);
    if t.runs != s.runs {
      var id := if a.CancelSend? then s.cancelers[a.c].id else a.id;
      ActivePut(s.runs, id, t.runs[id]);
    }
    CountKeep(s, t);
  }

  lemma CountDrain(s: System, d: nat)
    requires CountLaw(s)
    ensures CountLaw(Step(s, DrainCancel(d)))
  {
    assert ActiveIds(SweepAll(s.runs)) == ActiveIds(s.runs);
  }

  lemma CountStep(s: System, a: Action)
    requires CountLaw(s)
    ensures CountLaw(Step(s, a))
  {
    match a
    case StartInsert(k) => CountStart(s, k);
    case StartCount(k) => CountCount(s, k);
    case Poll(_, _) => CountCancel(s, a);
    case Commit(id) => CountCommit(s, id);
    case Settle(id) => CountSettle(s, id);
    case CancelTake(_) => CountCancel(s, a);
    case CancelSend(_) => CountCancel(s, a);
    case DrainCancel(d) => CountDrain(s, d);
    case _ =>
      RunsUntouched(s, a);
      CountKeep(s, Step(s, a));
  }

  lemma CountedStep(s: System, a: Action)
    requires CountedOnce(s)
    ensures CountedOnce(Step(s, a))
  {
    match a
    case StartRequest(_) =>
    case StartCheck(_, _) =>
    case StartInsert(k) =>
    case StartCount(_) =>
    case _ =>
      StartersUntouched(s, a);
      assert |s.runs| == |s.runs.Keys| && |Step(s, a).runs| == |Step(s, a).runs.Keys|;
  }

  lemma StartsKeep(s: System, t: System)
    requires StartsOk(s) && t.starters == s.starters && t.runs.Keys == s.runs.Keys
    requires t.writer == s.writer || (!s.writer.Counting? && !t.writer.Counting?)
    ensures StartsOk(t)
  {
  }

  /** One starter's phase moves, with neither phase one of a winner's. */
  lemma StartsMove(s: System, t: System, k: nat, phase: StartPhase)
    requires StartsOk(s) && k < |s.starters| && !Won(s.starters[k].phase) && !Won(phase)
    requires t == SetStart(s, k, phase)
    ensures StartsOk(t)
  {
    forall id | id in t.runs ensures Winner(t.starters, id) {
      var m :| 0 <= m < |s.starters| && s.starters[m].id == id && Won(s.starters[m].phase);
      assert t.starters[m] == s.starters[m];
    }
  }

  lemma StartsAppend(s: System, t: System, id: RunId)
    requires StartsOk(s) && t.starters == s.starters + [Starter(id, Checking)]
    requires t.runs == s.runs && t.writer == s.writer
    ensures StartsOk(t)
  {
    forall id | id in t.runs ensures Winner(t.starters, id) {
      var m :| 0 <= m < |s.starters| && s.starters[m].id == id && Won(s.starters[m].phase);
      assert t.starters[m] == s.starters[m];
    }
  }

  lemma WinnersKept(s: System, t: System, k: nat, phase: StartPhase)
    requires k < |s.starters| && Won(phase) && t.starters == s.starters[k := s.starters[k].(phase := phase)]
    requires forall id :: id in s.runs ==> Winner(s.starters, id)
    requires forall id :: id in t.runs ==> id in s.runs || id == s.starters[k].id
    ensures forall id :: id in t.runs ==> Winner(t.starters, id)
  {
    forall id | id in t.runs ensures Winner(t.starters, id) {
      if id == s.starters[k].id {
        assert Won(t.starters[k].phase) && t.starters[k].id == id;
      } else {
        var m :| 0 <= m < |s.starters| && s.starters[m].id == id && Won(s.starters[m].phase);
        assert t.starters[m] == s.starters[m];
      }
    }
  }

  lemma StartsWinInsert(s: System, k: nat)
    requires StartsOk(s) && k < |s.starters|
    requires s.starters[k].phase.Launched? && s.writer.Idle? && s.starters[k].id !in s.runs
    ensures StartsOk(StartInserted(s, k))
  {
    WinnersKept(s, StartInserted(s, k), k, Inserted);
  }

  lemma StartsWinCount(s: System, k: nat)
    requires StartsOk(s) && k < |s.starters| && s.writer == Counting(k)
    ensures StartsOk(StartCounted(s, k))
  {
    WinnersKept(s, StartCounted(s, k), k, Accepted);
  }

  lemma StartsRequest(s: System, id: RunId)
    requires StartsOk(s)
    ensures StartsOk(StartRequested(s, id))
  {
    var t := StartRequested(s, id);
    if t != s {
      StartsAppend(s, t, id);
    }
  }

  lemma StartsCheck(s: System, k: nat, launches: bool)
    requires StartsOk(s)
    ensures StartsOk(StartChecked(s, k, launches))
  {
    var t := StartChecked(s, k, launches);
    if t != s {
      StartsMove(s, t, k, t.starters[k].phase);
    }
  }

  lemma StartsInsert(s: System, k: nat)
    requires StartsOk(s)
    ensures StartsOk(StartInserted(s, k))
  {
    if k < |s.starters| && s.starters[k].phase.Launched? && s.writer.Idle? {
      if s.starters[k].id in s.runs {
        StartsMove(s, StartInserted(s, k), k, Conflicted);
      } else {
        StartsWinInsert(s, k);
      }
    }
  }

  lemma StartsCount(s: System, k: nat)
    requires StartsOk(s)
    ensures StartsOk(StartCounted(s, k))
  {
    if k < |s.starters| && s.writer == Counting(k) {
      StartsWinCount(s, k);
    }
  }

  lemma StartsStep(s: System, a: Action)
    requires StartsOk(s)
    ensures StartsOk(Step(s, a))
  {
    match a
    case StartRequest(id) => StartsRequest(s, id);
    case StartCheck(k, launches) => StartsCheck(s, k, launches);
    case StartInsert(k) => StartsInsert(s, k);
    case StartCount(k) => StartsCount(s, k);
    case _ =>
      StartersUntouched(s, a);
      StartsKeep(s, Step(s, a));
  }

  lemma CancelsKeep(s: System, t: System)
    requires CancelsOk(s) && t.cancelers == s.cancelers && t.runs == s.runs
    ensures CancelsOk(t)
  {
  }

  /** Nothing `CancelsOk` depends on gets worse at `id`. */
  lemma CancelsPut(s: System, t: System, id: RunId, r: Run)
    requires CancelsOk(s) && t.cancelers == s.cancelers && t.runs == s.runs[id := r]
    requires if id in s.runs then
               && r.token == s.runs[id].token && r.signalled == s.runs[id].signalled
               && (s.runs[id].completed ==> r.completed)
             else r.token
    ensures CancelsOk(t)
  {
  }

  lemma CancelsSweep(s: System, t: System)
    requires CancelsOk(s) && t.cancelers == s.cancelers && t.runs == SweepAll(s.runs)
    ensures CancelsOk(t)
  {
  }

  lemma CancelsTake(s: System, id: RunId)
    requires CancelsOk(s)
    ensures CancelsOk(Step(s, CancelTake(id)))
  {
    var t := Step(s, CancelTake(id));
    if t != s {
      forall other | other in t.runs && !t.runs[other].token && !t.runs[other].signalled
        ensures AboutToSignal(t.cancelers, other)
      {
        if other == id {
          assert t.cancelers[|s.cancelers|] == Canceler(id, Took);
        } else {
          var c :| 0 <= c < |s.cancelers| && s.cancelers[c] == Canceler(other, Took);
          assert t.cancelers[c] == s.cancelers[c];
        }
      }
    }
  }

  lemma CancelsMove(s: System, c: nat, a: Action)
    requires CancelsOk(s) && (a == CancelSend(c) || a == CancelReturn(c))
    ensures CancelsOk(Step(s, a))
  {
    var t := Step(s, a);
    if t != s {
      forall other | other in t.runs && !t.runs[other].token && !t.runs[other].signalled
        ensures AboutToSignal(t.cancelers, other)
      {
        var m :| 0 <= m < |s.cancelers| && s.cancelers[m] == Canceler(other, Took);
        assert t.cancelers[m] == s.cancelers[m];
      }
    }
  }

  lemma CancelsInsert(s: System, k: nat)
    requires CancelsOk(s)
    ensures CancelsOk(StartInserted(s, k))
  {
    var t := StartInserted(s, k);
    if t.runs == s.runs {
      CancelsKeep(s, t);
    } else {
      CancelsPut(s, t, s.starters[k].id, NEW_RUN);
    }
  }

  lemma CancelsPoll(s: System, id: RunId, input: Input)
    requires CancelsOk(s)
    ensures CancelsOk(Step(s, Poll(id, input)))
  {
    if id in s.runs {
      CancelsPut(s, s.(runs := s.runs[id := Polled(s.runs[id], input)]), id, Polled(s.runs[id], input));
    }
  }

  lemma CancelsCommit(s: System, id: RunId)
    requires CancelsOk(s)
    ensures CancelsOk(CommitStep(s, id))
  {
    var t := CommitStep(s, id);
    if t != s {
      CancelsPut(s, t, id, Committed(s.runs[id]));
    }
  }

  lemma CancelsSettle(s: System, id: RunId)
    requires CancelsOk(s)
    ensures CancelsOk(SettleStep(s, id))
  {
    var t := SettleStep(s, id);
    if t != s {
      CancelsPut(s, t, id, Settled(s.runs[id]));
    }
  }

  /** The registry steps of starts and tasks, as far as cancels go. */
  lemma CancelsEntry(s: System, a: Action)
    requires CancelsOk(s) && (a.StartInsert? || a.Poll? || a.Commit? || a.Settle?)
    ensures CancelsOk(Step(s, a))
  {
    match a
    case StartInsert(k) => CancelsInsert(s, k);
    case Poll(id, input) => CancelsPoll(s, id, input);
    case Commit(id) => CancelsCommit(s, id);
    case Settle(id) => CancelsSettle(s, id);
  }

  lemma CancelsDrain(s: System, d: nat)
    requires CancelsOk(s)
    ensures CancelsOk(Step(s, DrainCancel(d)))
  {
    var t := Step(s, DrainCancel(d));
    if t != s {
      CancelsSweep(s, t);
    }
  }

  lemma CancelsStep(s: System, a: Action)
    requires CancelsOk(s)
    ensures CancelsOk(Step(s, a))
  {
    if a.StartInsert? || a.Poll? || a.Commit? || a.Settle? {
      CancelsEntry(s, a);
    } else if a.CancelTake? {
      CancelsTake(s, a.id);
    } else if a.CancelSend? || a.CancelReturn? {
      CancelsMove(s, a.c, a);
    } else if a.DrainCancel? {
      CancelsDrain(s, a.d);
    } else {
      CancelersUntouched(s, a);
      assert a.StartCount? ==> Step(s, a).runs == s.runs;
      if !a.StartCount? {
        RunsUntouched(s, a);
      }
      CancelsKeep(s, Step(s, a));
    }
  }

  lemma AdmissionStarts(s: System, a: Action)
    requires AdmissionOk(s) && WebOk(s) && (a.StartRequest? || a.StartCheck? || a.StartInsert? || a.StartCount? || a.StartReply?)
    ensures AdmissionOk(Step(s, a)) && WebOk(Step(s, a))
  {
  }

  /** Nothing admission depends on. */
  lemma AdmissionUntouched(s: System, a: Action)
    requires a.Poll? || a.Commit? || a.Settle? || a.CancelTake? || a.CancelSend? || a.CancelReturn?
    ensures var t := Step(s, a);
            && t.web == s.web && t.starters == s.starters && t.stopping == s.stopping && t.admission == s.admission
            && t.drainers == s.drainers && t.shutdown == s.shutdown
  {
  }

  lemma AdmissionShutdown(s: System, a: Action)
    requires AdmissionOk(s) && WebOk(s)
    requires a.ShutdownRequest? || a.ShutdownReply? || a.IdleShutdownRequest? || a.IdleShutdownReply?
             || a.DrainCancel? || a.DrainObserve? || a.DrainSignal?
    ensures AdmissionOk(Step(s, a)) && WebOk(Step(s, a))
  {
  }

  lemma AdmissionStep(s: System, a: Action)
    requires AdmissionOk(s) && WebOk(s)
    ensures AdmissionOk(Step(s, a)) && WebOk(Step(s, a))
  {
    if a.StartRequest? || a.StartCheck? || a.StartInsert? || a.StartCount? || a.StartReply? {
      AdmissionStarts(s, a);
    } else if a.Poll? || a.Commit? || a.Settle? || a.CancelTake? || a.CancelSend? || a.CancelReturn? {
      AdmissionUntouched(s, a);
    } else {
      AdmissionShutdown(s, a);
    }
  }

  // The clean part: what a failure-free run gives on top.

  /** Only a run with a published failure can be made active again. */
  lemma RisesAfterFailure(id: RunId, r: Run, writer: Writer)
    requires RunOk(id, r, writer) && r.task.Publishing? && !IsActive(r.state)
    ensures r.rises < r.failures
  {
  }

  lemma CleanBefore(s: System, a: Action)
    requires Clean(Step(s, a))
    ensures Clean(s)
  {
    forall id | id in s.runs ensures s.runs[id].failures == 0 {
      EntryEvolves(s, a, id);
    }
  }

  /** In a clean system a terminal run stays terminal. */
  lemma NoRevival(s: System, a: Action)
    requires RunsOk(s) && Clean(s)
    ensures Step(s, a).revivals == s.revivals
  {
    if a.Commit? && a.id in s.runs && s.runs[a.id].task.Publishing? && !IsActive(s.runs[a.id].state) {
      RisesAfterFailure(a.id, s.runs[a.id], s.writer);
    }
  }

  lemma NoSaturation(s: System, id: RunId)
    requires RunsOk(s) && CountLaw(s) && s.revivals == 0 && s.saturations == 0
    requires id in s.runs && s.writer == Settling(id)
    ensures s.active > 0
  {
  }

  /** Only an insertion or a revival makes a run active. */
  lemma ActiveShrinks(s: System, a: Action)
    requires RunsOk(s)
    requires a.StartInsert? ==> Step(s, a).runs == s.runs
    requires Step(s, a).revivals == s.revivals
    ensures ActiveIds(Step(s, a).runs) <= ActiveIds(s.runs)
  {
    var t := Step(s, a);
    if a.StartInsert? {
      assert t.runs == s.runs;
    } else {
      SameKeys(s, a);
      forall id | id in ActiveIds(t.runs) ensures id in ActiveIds(s.runs) {
        EntryState(s, a, id);
      }
    }
  }

  lemma SameKeys(s: System, a: Action)
    requires !a.StartInsert?
    ensures Step(s, a).runs.Keys == s.runs.Keys
  {
    if !TouchesStarters(a) {
      StartersUntouched(s, a);
    }
  }

  /** Nothing but a commit changes an entry's state, and it revives or it does not. */
  lemma EntryState(s: System, a: Action, id: RunId)
    requires id in s.runs && id in Step(s, a).runs && !a.StartInsert?
    ensures IsActive(Step(s, a).runs[id].state) && !IsActive(s.runs[id].state) ==> Step(s, a).revivals > s.revivals
  {
    if TouchesRuns(a) {
      match a
      case StartCount(_) =>
      case Poll(_, _) =>
      case Commit(_) =>
      case Settle(_) =>
      case CancelTake(_) =>
      case CancelSend(_) =>
      case DrainCancel(_) =>
    } else {
      RunsUntouched(s, a);
    }
  }

  ghost predicate StoppingUnix(s: System) {
    !s.web && s.stopping
  }

  /** Once a shutdown is under way no start inserts or is being counted. */
  lemma NoInsertion(s: System, k: nat)
    requires AdmissionOk(s) && (StoppingUnix(s) || (!s.web && s.admission.Open?))
    ensures StartInserted(s, k).runs == s.runs
    ensures StartsOk(s) ==> !s.writer.Counting?
  {
  }

  lemma SaturationStep(s: System, a: Action)
    ensures Step(s, a).saturations != s.saturations ==>
              a.Settle? && a.id in s.runs && s.writer == Settling(a.id) && s.active == 0
  {
    if !a.Settle? {
      SaturationsUntouched(s, a);
    }
  }

  lemma SaturationsUntouched(s: System, a: Action)
    requires !a.Settle?
    ensures Step(s, a).saturations == s.saturations
  {
  }

  lemma CleanCounts(s: System, a: Action)
    requires RunsOk(s) && CountLaw(s) && Clean(s) && s.revivals == 0 && s.saturations == 0
    ensures Step(s, a).revivals == 0 && Step(s, a).saturations == 0
  {
    NoRevival(s, a);
    SaturationStep(s, a);
    if Step(s, a).saturations != 0 {
      NoSaturation(s, a.id);
      assert false;
    }
  }

  /** The steps by which the system comes to see no run, see a count of zero that
      no start is about to raise. */
  lemma NewlySawNoRun(s: System, a: Action)
    requires !SawNoRun(s) && SawNoRun(Step(s, a))
    ensures Step(s, a).active == s.active == 0
  {
    assert a.IdleShutdownRequest? || a.DrainObserve?;
  }

  lemma SawNoRunStep(s: System, a: Action)
    requires StartsOk(s) && AdmissionOk(s) && WebOk(s) && (SawNoRun(s) ==> s.active == 0)
    requires SawNoRun(Step(s, a))
    ensures Step(s, a).active == 0
  {
    if SawNoRun(s) {
      NoInsertion(s, 0);
    } else {
      NewlySawNoRun(s, a);
    }
  }

  ghost predicate TokensSwept(s: System) {
    forall id :: id in ActiveIds(s.runs) && s.runs[id].rises == 0 ==> !s.runs[id].token
  }

  /** A sweep takes the token of every active entry. */
  lemma JustSwept(s: System, a: Action)
    requires !SweptOut(s) && SweptOut(Step(s, a))
    ensures TokensSwept(Step(s, a))
  {
    assert a.DrainCancel?;
    assert Step(s, a).runs == SweepAll(s.runs);
  }

  lemma StillSwept(s: System, a: Action)
    requires Step(s, a).runs.Keys == s.runs.Keys && TokensSwept(s)
    ensures TokensSwept(Step(s, a))
  {
    var t := Step(s, a);
    forall id | id in ActiveIds(t.runs) && t.runs[id].rises == 0 ensures !t.runs[id].token {
      EntryEvolves(s, a, id);
      assert id in ActiveIds(s.runs);
    }
  }

  lemma SweptOutStep(s: System, a: Action)
    requires AdmissionOk(s) && WebOk(s) && (SweptOut(s) ==> TokensSwept(s))
    requires SweptOut(Step(s, a))
    ensures TokensSwept(Step(s, a))
  {
    if SweptOut(s) {
      StoppingKeys(s, a);
      StillSwept(s, a);
    } else {
      JustSwept(s, a);
    }
  }

  lemma StepInv(s: System, a: Action)
    requires Inv(s)
    ensures Inv(Step(s, a))
  {
    RunsStep(s, a);
    CountStep(s, a);
    CountedStep(s, a);
    StartsStep(s, a);
    CancelsStep(s, a);
    AdmissionStep(s, a);
    if Clean(Step(s, a)) {
      CleanBefore(s, a);
      CleanCounts(s, a);
    }
    if SawNoRun(Step(s, a)) {
      SawNoRunStep(s, a);
    }
    if SweptOut(Step(s, a)) {
      SweptOutStep(s, a);
    }
  }

  lemma {:induction false} ContinueInv(s: System, actions: seq<Action>)
    requires Inv(s)
    ensures Inv(Continue(s, actions))
    decreases |actions|
  {
    if actions != [] {
      ContinueInv(s, actions[..|actions| - 1]);
      StepInv(Continue(s, actions[..|actions| - 1]), actions[|actions| - 1]);
    }
  }

  lemma ExecInv(web: bool, actions: seq<Action>)
    ensures Inv(Exec(web, actions))
  {
    assert ActiveIds(Init(web).runs) == {};
    ContinueInv(Init(web), actions);
  }

  // ------------------------------------------------------------------
  // Theorems over every interleaving
  // ------------------------------------------------------------------

  /** Activity conservation, without any hypothesis. Between lock sections the
      count is the number of active runs corrected by revivals and saturations, so
      it is exact if and only if those balance. Every run was counted in once; it
      was counted out once for each time it was made active again, and once more
      if it is terminal. With no failure published there is neither a revival nor
      a saturation. */
  lemma ActivityConserved(web: bool, actions: seq<Action>)
    ensures var s := Exec(web, actions);
            s.writer.Idle? ==>
              && s.active + s.revivals == |ActiveIds(s.runs)| + s.saturations
              && (s.active == |ActiveIds(s.runs)| <==> s.revivals == s.saturations)
              && s.counted == |s.runs|
              && forall id :: id in s.runs ==>
                   s.runs[id].falls == s.runs[id].rises + if IsActive(s.runs[id].state) then 0 else 1
    ensures var s := Exec(web, actions);
            Clean(s) ==> s.revivals == 0 && s.saturations == 0 && (s.writer.Settling? ==> s.active > 0)
  {
    ExecInv(web, actions);
  }

  /** One run's share of it. `completed` says that it was ever counted out. Between
      lock sections it agrees with the run's being terminal if and only if the run
      was never made active again or is terminal; and a completed run is active if
      and only if it was made active again as often as it was counted out. Only a
      run with a published failure is ever made active again. */
  lemma CompletedExactly(web: bool, actions: seq<Action>, id: RunId)
    requires id in Exec(web, actions).runs
    ensures var s := Exec(web, actions); var r := s.runs[id];
            && (r.completed <==> r.falls > 0) && r.rises <= r.failures
            && (r.rises == 0 ==> r.falls <= 1)
            && (s.writer.Idle? ==>
                  && (r.completed <==> Terminals(r.log) > 0)
                  && ((r.completed <==> !IsActive(r.state)) <==> (IsActive(r.state) ==> r.rises == 0))
                  && (r.completed ==> (IsActive(r.state) <==> r.rises == r.falls)))
  {
    ExecInv(web, actions);
    var s := Exec(web, actions);
    assert RunOk(id, s.runs[id], s.writer);
  }

  /** At most one terminal event, and nothing after it. */
  ghost predicate WellEnded(log: seq<RunState>) {
    forall i :: 0 <= i < |log| - 1 ==> IsActive(log[i])
  }

  lemma {:induction false} TerminalsAllActive(log: seq<RunState>)
    ensures Terminals(log) == 0 <==> forall i :: 0 <= i < |log| ==> IsActive(log[i])
  {
    if log != [] {
      var before := log[..|log| - 1];
      TerminalsAllActive(before);
      if Terminals(log) == 0 {
        forall i | 0 <= i < |log| ensures IsActive(log[i]) {
          assert i < |before| ==> log[i] == before[i];
        }
      } else if Terminals(before) != 0 {
        var i :| 0 <= i < |before| && !IsActive(before[i]);
        assert !IsActive(log[i]);
      }
    }
  }

  lemma WellEndedExactly(log: seq<RunState>, failures: nat, ended: bool)
    requires Terminals(log) == failures + if ended then 1 else 0
    requires ended ==> log != [] && !IsActive(log[|log| - 1])
    requires !ended && failures > 0 ==> log != []
    ensures failures == 0 ==> WellEnded(log)
    ensures ended ==> (WellEnded(log) <==> failures == 0)
  {
    if log != [] {
      var before := log[..|log| - 1];
      TerminalsAllActive(before);
      assert forall i :: 0 <= i < |before| ==> before[i] == log[i];
    }
  }

  /** A run's log has one terminal entry per published failure and one when its
      task ends, whichever way cancellation raced with the provider's end. So it
      is well ended while no failure was published, and once the loop has ended
      it is well ended if and only if none was. */
  lemma TerminalEvents(web: bool, actions: seq<Action>, id: RunId)
    requires id in Exec(web, actions).runs
    ensures var r := Exec(web, actions).runs[id];
            && Terminals(r.log) == r.failures + (if r.task.Done? then 1 else 0)
            && (r.failures == 0 ==> WellEnded(r.log))
            && (r.task.Done? ==> (WellEnded(r.log) <==> r.failures == 0))
  {
    ExecInv(web, actions);
    var s := Exec(web, actions);
    assert RunOk(id, s.runs[id], s.writer);
    WellEndedExactly(s.runs[id].log, s.runs[id].failures, s.runs[id].task.Done?);
  }

  /** A run's cancel token is consumed at most once, by `cancel` or by
      `cancel_all`; a consumed token is signalled or about to be; and only a
      signalled run is ever published as canceled. No hypothesis is needed. */
  lemma TokenConsumedOnce(web: bool, actions: seq<Action>, id: RunId)
    requires id in Exec(web, actions).runs
    ensures var s := Exec(web, actions); var r := s.runs[id];
            && r.takes <= 1 && (r.takes == 1 <==> !r.token)
            && (r.takes == 1 ==> r.signalled || AboutToSignal(s.cancelers, id))
            && (Canceled in r.log ==> r.takes == 1)
  {
    ExecInv(web, actions);
    assert RunOk(id, Exec(web, actions).runs[id], Exec(web, actions).writer);
  }

  /** `cancel` returns only once its run has published a terminal state. The run is
      active after that if and only if, the registry being between lock sections,
      it was made active again as often as it was counted out, which takes a failed
      payload of its own. */
  lemma CancelReturnsTerminal(web: bool, actions: seq<Action>, c: nat)
    requires c < |Exec(web, actions).cancelers| && Exec(web, actions).cancelers[c].phase.Returned?
    ensures var s := Exec(web, actions); var id := s.cancelers[c].id;
            && id in s.runs && Terminals(s.runs[id].log) > 0
            && (IsActive(s.runs[id].state) <==> s.runs[id].rises == s.runs[id].falls && s.writer != Settling(id))
            && (IsActive(s.runs[id].state) ==> 0 < s.runs[id].rises <= s.runs[id].failures)
  {
    ExecInv(web, actions);
    var s := Exec(web, actions);
    assert RunOk(s.cancelers[c].id, s.runs[s.cancelers[c].id], s.writer);
  }

  // Which terminal runs can be active again.

  ghost predicate ActiveAt(s: System, id: RunId) {
    id in s.runs && IsActive(s.runs[id].state)
  }

  /** Nothing this run's task may still do publishes an active state: it is ending
      or has ended, or is signalled with no active state in hand. */
  predicate Spent(r: Run) {
    r.task.Done? || r.task.Closing? || (r.signalled && (r.task.Looping? || !IsActive(r.task.state)))
  }

  lemma SpentMoves(id: RunId, r: Run, r': Run, writer: Writer, input: Input)
    requires RunOk(id, r, writer) && Moves(r, r', input)
    requires Spent(r) && !IsActive(r.state)
    ensures Spent(r') && !IsActive(r'.state)
  {
  }

  lemma {:induction false} SpentForGood(s: System, more: seq<Action>, id: RunId)
    requires Inv(s) && id in s.runs && Spent(s.runs[id]) && !IsActive(s.runs[id].state)
    ensures var t := Continue(s, more); id in t.runs && Spent(t.runs[id]) && !IsActive(t.runs[id].state)
    decreases |more|
  {
    if more != [] {
      var before, a := more[..|more| - 1], more[|more| - 1];
      SpentForGood(s, before, id);
      ContinueInv(s, before);
      var t := Continue(s, before);
      EntryMoves(t, a, id);
      SpentMoves(id, t.runs[id], Step(t, a).runs[id], t.writer, InputOf(a));
    }
  }

  /** `t` differs from `s`, as far as this run's task goes, only in that nobody holds
      the lock. */
  ghost predicate Unlocked(s: System, t: System, id: RunId) {
    && t.writer.Idle? && id in s.runs && id in t.runs && t.runs[id].state == s.runs[id].state
    && t.runs[id].task == s.runs[id].task && t.runs[id].signalled == s.runs[id].signalled
  }

  lemma UnlockCounting(s: System, k: nat, id: RunId)
    requires s.writer == Counting(k) && k < |s.starters| && id in s.runs
    ensures Unlocked(s, Continue(s, [StartCount(k)]), id)
  {
    ContinueTwo(s, StartCount(k), StartCount(k));
  }

  lemma UnlockSettling(s: System, other: RunId, id: RunId)
    requires s.writer == Settling(other) && other in s.runs && id in s.runs
    ensures Unlocked(s, Continue(s, [Settle(other)]), id)
  {
    ContinueTwo(s, Settle(other), Settle(other));
  }

  /** The lock holder finishes. */
  lemma Unlock(s: System, id: RunId) returns (more: seq<Action>)
    requires s.writer.Settling? ==> s.writer.id in s.runs
    requires s.writer.Counting? ==> s.writer.starter < |s.starters|
    requires id in s.runs
    ensures Unlocked(s, Continue(s, more), id)
  {
    match s.writer
    case Idle => more := [];
    case Counting(k) =>
      more := [StartCount(k)];
      UnlockCounting(s, k, id);
    case Settling(other) =>
      more := [Settle(other)];
      UnlockSettling(s, other, id);
  }

  lemma CommitActive(s: System, id: RunId)
    requires s.writer.Idle? && id in s.runs && s.runs[id].task.Publishing? && IsActive(s.runs[id].task.state)
    ensures ActiveAt(Continue(s, [Commit(id)]), id)
  {
    ContinueTwo(s, Commit(id), Commit(id));
  }

  lemma PollActive(s: System, id: RunId)
    requires s.writer.Idle? && id in s.runs && s.runs[id].task.Looping? && !s.runs[id].signalled
    ensures ActiveAt(Continue(s, [Poll(id, FURTHER)] + [Commit(id)]), id)
  {
    ContinueTwo(s, Poll(id, FURTHER), Poll(id, FURTHER));
    CommitActive(Continue(s, [Poll(id, FURTHER)]), id);
    ContinueAppend(s, [Poll(id, FURTHER)], [Commit(id)]);
  }

  lemma CommitTerminal(s: System, id: RunId)
    requires s.writer.Idle? && id in s.runs && s.runs[id].task.Publishing?
    requires !IsActive(s.runs[id].state) && !IsActive(s.runs[id].task.state)
    ensures var t := Continue(s, [Commit(id)]);
            t.writer.Idle? && id in t.runs && t.runs[id].task.Looping? && t.runs[id].signalled == s.runs[id].signalled
  {
    ContinueTwo(s, Commit(id), Commit(id));
  }

  lemma ReviveUnlocked(s: System, id: RunId) returns (more: seq<Action>)
    requires s.writer.Idle? && id in s.runs && !IsActive(s.runs[id].state) && !Spent(s.runs[id])
    ensures ActiveAt(Continue(s, more), id)
  {
    var revive := [Poll(id, FURTHER)] + [Commit(id)];
    if s.runs[id].task.Looping? {
      PollActive(s, id);
      more := revive;
    } else if IsActive(s.runs[id].task.state) {
      CommitActive(s, id);
      more := [Commit(id)];
    } else {
      CommitTerminal(s, id);
      PollActive(Continue(s, [Commit(id)]), id);
      ContinueAppend(s, [Commit(id)], revive);
      more := [Commit(id)] + revive;
    }
  }

  lemma Revive(s: System, id: RunId) returns (more: seq<Action>)
    requires Inv(s) && id in s.runs && !IsActive(s.runs[id].state) && !Spent(s.runs[id])
    ensures ActiveAt(Continue(s, more), id)
  {
    var unlock := Unlock(s, id);
    var revive := ReviveUnlocked(Continue(s, unlock), id);
    ContinueAppend(s, unlock, revive);
    more := unlock + revive;
  }

  /** This run is active in no continuation. */
  ghost predicate NeverActive(s: System, id: RunId) {
    forall more :: !ActiveAt(Continue(s, more), id)
  }

  lemma SpentNever(s: System, id: RunId)
    requires Inv(s) && id in s.runs && !IsActive(s.runs[id].state) && Spent(s.runs[id])
    ensures NeverActive(s, id)
  {
    forall more ensures !ActiveAt(Continue(s, more), id) {
      SpentForGood(s, more, id);
    }
  }

  /** A terminal run is never active again, whatever happens next, if and only if it
      is spent. */
  lemma SpentExactly(s: System, id: RunId)
    requires Inv(s) && id in s.runs && !IsActive(s.runs[id].state)
    ensures Spent(s.runs[id]) <==> NeverActive(s, id)
  {
    if Spent(s.runs[id]) {
      SpentNever(s, id);
    } else {
      var more := Revive(s, id);
    }
  }

  /** A returned `cancel` whose run is terminal is final, whatever happens next, if
      and only if the run's task has no active state in hand. */
  lemma CancelIsFinal(web: bool, actions: seq<Action>, c: nat)
    requires var s := Exec(web, actions);
             c < |s.cancelers| && s.cancelers[c].phase.Returned? && !ActiveAt(s, s.cancelers[c].id)
    ensures var s := Exec(web, actions); var id := s.cancelers[c].id;
            && id in s.runs
            && (NeverActive(s, id) <==> !(s.runs[id].task.Publishing? && IsActive(s.runs[id].task.state)))
  {
    ExecInv(web, actions);
    SpentExactly(Exec(web, actions), Exec(web, actions).cancelers[c].id);
  }

  lemma {:induction false} CleanPrefix(s: System, more: seq<Action>)
    requires Clean(Continue(s, more))
    ensures Clean(s)
    ensures more != [] ==> Clean(Continue(s, more[..|more| - 1]))
    decreases |more|
  {
    if more != [] {
      CleanBefore(Continue(s, more[..|more| - 1]), more[|more| - 1]);
      CleanPrefix(s, more[..|more| - 1]);
    }
  }

  /** Once the shutdown flag is set, or ShutdownIfIdle has passed its admission
      step, or a drain has seen the count at zero: `stopping` holds and the count
      is zero. Whether really no run is active, revivals and saturations tell. No
      hypothesis is needed. */
  lemma ShutdownCountsZero(actions: seq<Action>)
    requires SawNoRun(Exec(false, actions))
    ensures var s := Exec(false, actions);
            && s.stopping && s.active == 0
            && (ActiveIds(s.runs) == {} <==> s.revivals == s.saturations + if s.writer.Settling? then 1 else 0)
  {
    ExecInv(false, actions);
    SameTransport(Init(false), actions);
    NoInsertion(Exec(false, actions), 0);
  }

  lemma StoppingStays(s: System, a: Action)
    requires AdmissionOk(s) && WebOk(s) && StoppingUnix(s)
    ensures StoppingUnix(Step(s, a))
  {
  }

  lemma RevivalStep(s: System, a: Action)
    ensures s.revivals <= Step(s, a).revivals
    ensures Step(s, a).revivals > s.revivals ==>
              && a.Commit? && a.id in s.runs && (s.runs[a.id].task.Publishing? || s.runs[a.id].task.Closing?)
              && !IsActive(s.runs[a.id].state) && IsActive(s.runs[a.id].task.state)
              && a.id in Step(s, a).runs && IsActive(Step(s, a).runs[a.id].state)
  {
    if !a.Commit? {
      RevivalsUntouched(s, a);
    }
  }

  lemma RevivalsUntouched(s: System, a: Action)
    requires !a.Commit?
    ensures Step(s, a).revivals == s.revivals
  {
  }

  /** After a shutdown was admitted a step makes a run active if and only if it
      revives a terminal one, by committing an active state of a run that has
      published a failure. */
  lemma OnlyRevivalsActivate(s: System, a: Action)
    requires RunsOk(s) && AdmissionOk(s) && StoppingUnix(s)
    ensures s.revivals <= Step(s, a).revivals
    ensures ActiveIds(Step(s, a).runs) <= ActiveIds(s.runs) <==> Step(s, a).revivals == s.revivals
    ensures Step(s, a).revivals > s.revivals ==> a.Commit? && a.id in s.runs && s.runs[a.id].failures > 0
  {
    RevivalStep(s, a);
    if Step(s, a).revivals == s.revivals {
      NoInsertion(s, if a.StartInsert? then a.k else 0);
      ActiveShrinks(s, a);
    } else {
      assert a.id in ActiveIds(Step(s, a).runs) && a.id !in ActiveIds(s.runs);
      RisesAfterFailure(a.id, s.runs[a.id], s.writer);
    }
  }

  /** At some point of this run a run is active. */
  ghost predicate EverActive(s: System, more: seq<Action>) {
    ActiveIds(Continue(s, more).runs) != {} || (more != [] && EverActive(s, more[..|more| - 1]))
  }

  lemma {:induction false} ActiveAfterRevival(s: System, more: seq<Action>)
    requires Inv(s) && StoppingUnix(s) && ActiveIds(s.runs) == {}
    ensures StoppingUnix(Continue(s, more)) && s.revivals <= Continue(s, more).revivals
    ensures EverActive(s, more) <==> Continue(s, more).revivals > s.revivals
    decreases |more|
  {
    if more != [] {
      var before := more[..|more| - 1];
      ActiveAfterRevival(s, before);
      ContinueInv(s, before);
      StoppingStays(Continue(s, before), more[|more| - 1]);
      OnlyRevivalsActivate(Continue(s, before), more[|more| - 1]);
    }
  }

  lemma {:induction false} KeysStay(s: System, more: seq<Action>)
    requires Inv(s) && StoppingUnix(s)
    ensures StoppingUnix(Continue(s, more)) && Continue(s, more).runs.Keys == s.runs.Keys
    decreases |more|
  {
    if more != [] {
      var before, a := more[..|more| - 1], more[|more| - 1];
      KeysStay(s, before);
      ContinueInv(s, before);
      StoppingStays(Continue(s, before), a);
      StoppingKeys(Continue(s, before), a);
    }
  }

  lemma AllSpentStay(s: System, more: seq<Action>)
    requires Inv(s) && StoppingUnix(s) && ActiveIds(s.runs) == {}
    requires forall id :: id in s.runs ==> Spent(s.runs[id])
    ensures ActiveIds(Continue(s, more).runs) == {}
  {
    var t := Continue(s, more);
    KeysStay(s, more);
    forall id | id in t.runs ensures !IsActive(t.runs[id].state) {
      assert id !in ActiveIds(s.runs);
      SpentForGood(s, more, id);
    }
  }

  lemma StoppingKeys(s: System, a: Action)
    requires AdmissionOk(s) && StoppingUnix(s)
    ensures Step(s, a).runs.Keys == s.runs.Keys
  {
    if a.StartInsert? {
      NoInsertion(s, a.k);
    } else {
      SameKeys(s, a);
    }
  }

  /** No run is active in any continuation. */
  ghost predicate IdleForGood(s: System) {
    forall more :: ActiveIds(Continue(s, more).runs) == {}
  }

  lemma SpentIdle(s: System)
    requires Inv(s) && StoppingUnix(s) && ActiveIds(s.runs) == {}
    requires forall id :: id in s.runs ==> Spent(s.runs[id])
    ensures IdleForGood(s)
  {
    forall more ensures ActiveIds(Continue(s, more).runs) == {} {
      AllSpentStay(s, more);
    }
  }

  lemma UnspentActive(s: System, id: RunId)
    requires Inv(s) && ActiveIds(s.runs) == {} && id in s.runs && !Spent(s.runs[id])
    ensures !IdleForGood(s)
  {
    assert id !in ActiveIds(s.runs);
    var more := Revive(s, id);
    assert id in ActiveIds(Continue(s, more).runs);
  }

  /** Shutdown safety, exactly, by what can be seen at the time. From a state in
      which a shutdown was admitted and no run is active, none is active in any
      continuation if and only if every run is spent. */
  lemma ShutdownFinal(actions: seq<Action>)
    requires Exec(false, actions).stopping && ActiveIds(Exec(false, actions).runs) == {}
    ensures var s := Exec(false, actions);
            IdleForGood(s) <==> forall id :: id in s.runs ==> Spent(s.runs[id])
  {
    var s := Exec(false, actions);
    ExecInv(false, actions);
    SameTransport(Init(false), actions);
    if forall id :: id in s.runs ==> Spent(s.runs[id]) {
      SpentIdle(s);
    } else {
      var id :| id in s.runs && !Spent(s.runs[id]);
      UnspentActive(s, id);
    }
  }

  /** Along one continuation: from such a state a run becomes active exactly by a
      revival, since nothing is inserted. */
  lemma SafeUntilRevival(actions: seq<Action>, more: seq<Action>)
    requires SawNoRun(Exec(false, actions)) && ActiveIds(Exec(false, actions).runs) == {}
    ensures var s := Exec(false, actions);
            && Continue(s, more).stopping
            && (EverActive(s, more) <==> Continue(s, more).revivals > s.revivals)
  {
    ExecInv(false, actions);
    SameTransport(Init(false), actions);
    ActiveAfterRevival(Exec(false, actions), more);
  }

  /** In particular: with no serialization failure published, no run is active once
      somebody saw none, and whatever happens next, none becomes active. */
  lemma ShutdownSafety(actions: seq<Action>, more: seq<Action>)
    requires SawNoRun(Exec(false, actions)) && Clean(Continue(Exec(false, actions), more))
    ensures var s := Exec(false, actions); var t := Continue(s, more);
            && s.stopping && ActiveIds(s.runs) == {}
            && t.stopping && ActiveIds(t.runs) == {} && !EverActive(s, more)
  {
    var s := Exec(false, actions);
    ExecInv(false, actions);
    ContinueInv(s, more);
    CleanPrefix(s, more);
    ShutdownCountsZero(actions);
    SafeUntilRevival(actions, more);
  }

  lemma TransportStep(s: System, a: Action)
    ensures Step(s, a).web == s.web
  {
  }

  lemma {:induction false} SameTransport(s: System, more: seq<Action>)
    ensures Continue(s, more).web == s.web
    decreases |more|
  {
    if more != [] {
      SameTransport(s, more[..|more| - 1]);
      TransportStep(Continue(s, more[..|more| - 1]), more[|more| - 1]);
    }
  }

  lemma SweptOutKept(s: System, a: Action)
    requires SweptOut(s)
    ensures SweptOut(Step(s, a))
  {
    var d :| 0 <= d < |s.drainers| && s.drainers[d].mode.Terminate? && !s.drainers[d].phase.NeedsCancel?;
    var drainers := Step(s, a).drainers;
    assert d < |drainers| && drainers[d].mode.Terminate? && !drainers[d].phase.NeedsCancel?;
  }

  lemma {:induction false} SweptOutStays(s: System, more: seq<Action>)
    requires SweptOut(s)
    ensures SweptOut(Continue(s, more))
    decreases |more|
  {
    if more != [] {
      SweptOutStays(s, more[..|more| - 1]);
      SweptOutKept(Continue(s, more[..|more| - 1]), more[|more| - 1]);
    }
  }

  ghost predicate SweepHolds(s: System, t: System) {
    && StoppingUnix(t) && t.runs.Keys == s.runs.Keys
    && forall id :: id in t.runs && t.runs[id].token ==> s.runs[id].token && !IsActive(s.runs[id].state)
  }

  lemma SweepHoldsStep(s: System, t: System, a: Action)
    requires AdmissionOk(t) && WebOk(t) && SweepHolds(s, t)
    ensures SweepHolds(s, Step(t, a))
  {
    StoppingStays(t, a);
    StoppingKeys(t, a);
    forall id | id in t.runs && Step(t, a).runs[id].token ensures t.runs[id].token {
      EntryEvolves(t, a, id);
    }
  }

  lemma {:induction false} SweepHoldsOn(s: System, s1: System, more: seq<Action>)
    requires Inv(s1) && SweepHolds(s, s1)
    ensures SweepHolds(s, Continue(s1, more))
    decreases |more|
  {
    if more != [] {
      var before := more[..|more| - 1];
      SweepHoldsOn(s, s1, before);
      ContinueInv(s1, before);
      SweepHoldsStep(s, Continue(s1, before), more[|more| - 1]);
    }
  }

  /** This run of `t`, compared with itself before the sweep `s` and after it `s1`. */
  ghost predicate ReachedExactly(s: System, s1: System, t: System, id: RunId) {
    && id in s.runs && id in s1.runs && id in t.runs
    && (t.runs[id].token <==> !IsActive(s.runs[id].state) && t.runs[id].takes == 0)
    && (t.runs[id].rises == s1.runs[id].rises ==> IsActive(s.runs[id].state))
    && (IsActive(s.runs[id].state) ==>
          t.runs[id].takes == 1 && (t.runs[id].signalled || AboutToSignal(t.cancelers, id)))
  }

  lemma SweptEntryLater(s: System, s1: System, t: System, id: RunId)
    requires s1.runs == SweepAll(s.runs) && SweepHolds(s, t) && id in ActiveIds(t.runs)
    requires Evolves(s1.runs[id], t.runs[id]) && RunOk(id, t.runs[id], t.writer) && CancelsOk(t)
    requires RunOk(id, s.runs[id], s.writer)
    ensures ReachedExactly(s, s1, t, id)
  {
    assert s1.runs[id] == Swept(s.runs[id]);
  }

  lemma SweepStarts(s: System, d: nat)
    requires AdmissionOk(s) && !s.web
    requires d < |s.drainers| && s.drainers[d].phase.NeedsCancel? && s.writer.Idle?
    ensures Step(s, DrainCancel(d)).runs == SweepAll(s.runs) && SweepHolds(s, Step(s, DrainCancel(d)))
  {
  }

  lemma TerminateFrom(s: System, d: nat, more: seq<Action>, id: RunId)
    requires Inv(s) && !s.web
    requires d < |s.drainers| && s.drainers[d].phase.NeedsCancel? && s.writer.Idle?
    requires id in ActiveIds(Continue(Step(s, DrainCancel(d)), more).runs)
    ensures ReachedExactly(s, Step(s, DrainCancel(d)), Continue(Step(s, DrainCancel(d)), more), id)
  {
    var s1 := Step(s, DrainCancel(d));
    StepInv(s, DrainCancel(d));
    SweepStarts(s, d);
    SweepHoldsOn(s, s1, more);
    ContinueInv(s1, more);
    EntriesKept(s1, more, id);
    SweptEntryLater(s, s1, Continue(s1, more), id);
  }

  /** What `cancel_all` reaches, exactly. In every state after a terminating
      shutdown's sweep, a run that is active holds its token if and only if it was
      terminal at the sweep and nobody has taken it since. So a run that was active
      at the sweep, or was not made active again after it, has had its token
      consumed, and is signalled or about to be. */
  lemma TerminateExactly(actions: seq<Action>, d: nat, more: seq<Action>, id: RunId)
    requires var s := Exec(false, actions); d < |s.drainers| && s.drainers[d].phase.NeedsCancel? && s.writer.Idle?
    requires id in ActiveIds(Continue(Step(Exec(false, actions), DrainCancel(d)), more).runs)
    ensures var s1 := Step(Exec(false, actions), DrainCancel(d));
            ReachedExactly(Exec(false, actions), s1, Continue(s1, more), id)
  {
    ExecInv(false, actions);
    SameTransport(Init(false), actions);
    TerminateFrom(Exec(false, actions), d, more, id);
  }

  /** In particular: every active run that was never made active again. */
  lemma TerminateReachesAll(actions: seq<Action>, more: seq<Action>, id: RunId)
    requires SweptOut(Exec(false, actions)) && id in ActiveIds(Continue(Exec(false, actions), more).runs)
    ensures var t := Continue(Exec(false, actions), more);
            && (t.runs[id].rises == 0 ==>
                  t.runs[id].takes == 1 && (t.runs[id].signalled || AboutToSignal(t.cancelers, id)))
            && t.runs[id].rises <= t.runs[id].failures
  {
    var s := Exec(false, actions);
    ExecInv(false, actions);
    ContinueInv(s, more);
    SweptOutStays(s, more);
    assert RunOk(id, Continue(s, more).runs[id], Continue(s, more).writer);
  }

  /** Concurrent starts: of the starts of one id at most one ever inserts, and
      the entry it inserted is never removed or reset. */
  lemma OneWinner(web: bool, actions: seq<Action>, k: nat, m: nat)
    requires k < |Exec(web, actions).starters| && m < |Exec(web, actions).starters|
    requires Won(Exec(web, actions).starters[k].phase) && Won(Exec(web, actions).starters[m].phase)
    requires Exec(web, actions).starters[k].id == Exec(web, actions).starters[m].id
    ensures k == m
  {
    ExecInv(web, actions);
  }

  /** An entry is never removed or reset: its log and its history only grow, and a
      consumed token, a signal and a completion are for good. */
  lemma {:induction false} EntriesKept(s: System, more: seq<Action>, id: RunId)
    requires id in s.runs
    ensures id in Continue(s, more).runs && Evolves(s.runs[id], Continue(s, more).runs[id])
    decreases |more|
  {
    if more != [] {
      EntriesKept(s, more[..|more| - 1], id);
      EntryEvolves(Continue(s, more[..|more| - 1]), more[|more| - 1], id);
    }
  }

  predicate StepOfStart(a: Action, k: nat) {
    (a.StartCheck? || a.StartInsert? || a.StartCount? || a.StartReply?) && a.k == k
  }

  lemma WonStep(s: System, a: Action, k: nat)
    requires k < |s.starters| && Won(s.starters[k].phase)
    ensures k < |Step(s, a).starters| && Won(Step(s, a).starters[k].phase)
  {
    if !TouchesStarters(a) {
      StartersUntouched(s, a);
    }
  }

  lemma {:induction false} WonForGood(s: System, more: seq<Action>, k: nat)
    requires k < |s.starters| && Won(s.starters[k].phase)
    ensures k < |Continue(s, more).starters| && Won(Continue(s, more).starters[k].phase)
    decreases |more|
  {
    if more != [] {
      WonForGood(s, more[..|more| - 1], k);
      WonStep(Continue(s, more[..|more| - 1]), more[|more| - 1], k);
    }
  }

  lemma OnlyWinnersChange(s: System, a: Action, k: nat)
    requires StepOfStart(a, k) && !(k < |Step(s, a).starters| && Won(Step(s, a).starters[k].phase))
    ensures Step(s, a).runs == s.runs && Step(s, a).active == s.active && Step(s, a).writer == s.writer
  {
  }

  /** A start that ends in conflict or refusal has changed neither the registry nor
      the count nor the writer lock, at any of its steps. */
  lemma LosersChangeNothing(web: bool, actions: seq<Action>, k: nat, i: nat)
    requires k < |Exec(web, actions).starters| && !Won(Exec(web, actions).starters[k].phase)
    requires i < |actions| && StepOfStart(actions[i], k)
    ensures var s := Exec(web, actions[..i]); var t := Exec(web, actions[..i + 1]);
            t.runs == s.runs && t.active == s.active && t.writer == s.writer
  {
    var s, a, t := Exec(web, actions[..i]), actions[i], Exec(web, actions[..i + 1]);
    assert actions[..i + 1][..i] == actions[..i];
    assert t == Step(s, a);
    assert actions == actions[..i + 1] + actions[i + 1..];
    ContinueAppend(Init(web), actions[..i + 1], actions[i + 1..]);
    if k < |t.starters| && Won(t.starters[k].phase) {
      WonForGood(t, actions[i + 1..], k);
      assert false;
    }
    OnlyWinnersChange(s, a, k);
  }

  // ------------------------------------------------------------------
  // The registry in place
  // ------------------------------------------------------------------

  /** One whole `publish` on an entry: the state, and the completion flag when
      an active run ended. */
  function PublishedRun(r: Run, state: RunState): Run {
    r.(state := state, log := r.log + [state],
       completed := r.completed || (IsActive(r.state) && !IsActive(state)),
       falls := r.falls + if IsActive(r.state) && !IsActive(state) then 1 else 0,
       rises := r.rises + Rise(r, state))
  }

  /** The machine's two steps, commit and settle, are one `publish`. */
  lemma PublishIsCommitThenSettle(s: System, id: RunId)
    requires s.writer.Idle? && id in s.runs && (s.runs[id].task.Publishing? || s.runs[id].task.Closing?)
    ensures var r, t := s.runs[id], SettleStep(CommitStep(s, id), id);
            && t.writer.Idle? && id in t.runs
            && t.runs == s.runs[id := t.runs[id]]
            && t.runs[id].(task := r.task, failures := r.failures) == PublishedRun(r, r.task.state)
            && t.active == (if IsActive(r.state) && !IsActive(r.task.state) && s.active > 0 then s.active - 1 else s.active)
  {
    CommitIs(s, id);
    if IsActive(s.runs[id].state) && !IsActive(s.runs[id].task.state) {
      EndIsSettled(s, id);
    } else {
      assert SettleStep(CommitStep(s, id), id) == CommitStep(s, id);
      PublishedIs(s.runs[id]);
    }
  }

  lemma PublishedIs(r: Run)
    requires r.task.Publishing? || r.task.Closing?
    ensures PublishedRun(r, r.task.state)
         == (if IsActive(r.state) && !IsActive(r.task.state) then Settled(Committed(r)) else Committed(r))
              .(task := r.task, failures := r.failures)
  {
  }

  lemma EndIsSettled(s: System, id: RunId)
    requires s.writer.Idle? && id in s.runs && (s.runs[id].task.Publishing? || s.runs[id].task.Closing?)
    requires IsActive(s.runs[id].state) && !IsActive(s.runs[id].task.state)
    ensures var r, t := s.runs[id], SettleStep(CommitStep(s, id), id);
            && t.writer.Idle? && t.runs == s.runs[id := Settled(Committed(r))]
            && t.runs[id].(task := r.task, failures := r.failures) == PublishedRun(r, r.task.state)
            && t.active == if s.active > 0 then s.active - 1 else 0
  {
    var r, mid := s.runs[id], CommitStep(s, id);
    CommitIs(s, id);
    SettleIs(mid, id);
    assert s.runs[id := Committed(r)][id := Settled(Committed(r))] == s.runs[id := Settled(Committed(r))];
    PublishedIs(r);
  }

  lemma SettleIs(s: System, id: RunId)
    requires id in s.runs && s.writer == Settling(id)
    ensures SettleStep(s, id)
         == s.(runs := s.runs[id := Settled(s.runs[id])], writer := Idle,
               active := if s.active > 0 then s.active - 1 else 0,
               saturations := s.saturations + if s.active > 0 then 0 else 1)
  {
  }

  lemma CommitIs(s: System, id: RunId)
    requires s.writer.Idle? && id in s.runs && (s.runs[id].task.Publishing? || s.runs[id].task.Closing?)
    ensures var r := s.runs[id];
            CommitStep(s, id)
              == s.(runs := s.runs[id := Committed(r)],
                    writer := if IsActive(r.state) && !IsActive(r.task.state) then Settling(id) else Idle,
                    revivals := s.revivals + Rise(r, r.task.state))
  {
  }

  lemma CommitFrame(s: System, id: RunId)
    ensures var t := CommitStep(s, id); t == s.(runs := t.runs, writer := t.writer, revivals := t.revivals)
    ensures var t := SettleStep(s, id); t == s.(runs := t.runs, writer := t.writer, active := t.active, saturations := t.saturations)
  {
  }

  lemma PublishFrame(s: System, id: RunId)
    requires s.writer.Idle? && id in s.runs && (s.runs[id].task.Publishing? || s.runs[id].task.Closing?)
    ensures var t := SettleStep(CommitStep(s, id), id);
            && t.writer.Idle?
            && t == s.(runs := t.runs, active := t.active, revivals := t.revivals, saturations := t.saturations)
            && id in t.runs && (s.runs[id].task.Publishing? ==> t.runs[id].task.Looping?)
            && t.runs[id].signalled == s.runs[id].signalled && t.runs[id].token == s.runs[id].token
  {
    PublishedRuns(s, id);
    CommitFrame(s, id);
    var mid := CommitStep(s, id);
    CommitFrame(mid, id);
    assert Committed(s.runs[id]).signalled == s.runs[id].signalled && Committed(s.runs[id]).token == s.runs[id].token;
  }

  lemma PublishedRuns(s: System, id: RunId)
    requires s.writer.Idle? && id in s.runs && (s.runs[id].task.Publishing? || s.runs[id].task.Closing?)
    ensures var r, t := s.runs[id], SettleStep(CommitStep(s, id), id);
            && t.writer.Idle? && id in t.runs && (t.runs[id] == Committed(r) || t.runs[id] == Settled(Committed(r)))
  {
    CommitIs(s, id);
    if CommitStep(s, id).writer.Settling? {
      SettleIs(CommitStep(s, id), id);
    } else {
      assert SettleStep(CommitStep(s, id), id) == CommitStep(s, id);
    }
  }

  ghost function Cancelable(runs: map<RunId, Run>): set<RunId> {
    set id | id in runs && IsActive(runs[id].state) && runs[id].token
  }

  lemma SweepKeepsActive(runs: map<RunId, Run>)
    ensures ActiveIds(SweepAll(runs)) == ActiveIds(runs)
  {
  }

  /** The loop of `cancel_all` over the registry's entries. */
  method Sweep(runs: map<RunId, Run>) returns (entries: map<RunId, Run>, signalled: nat)
    ensures entries == SweepAll(runs)
    ensures signalled == |Cancelable(runs)|
  {
    var remaining := runs.Keys;
    ghost var done: set<RunId> := {};
    entries, signalled := runs, 0;
    while remaining != {}
      invariant remaining <= runs.Keys == entries.Keys
      invariant forall id :: id in remaining ==> entries[id] == runs[id]
      invariant forall id :: id in runs && id !in remaining ==> entries[id] == Swept(runs[id])
      invariant forall id :: id in done <==> id in Cancelable(runs) && id !in remaining
      invariant signalled == |done|
      decreases remaining
    {
      var id :| id in remaining;
      var run := entries[id];
      remaining := remaining - {id};
      if IsActive(run.state) && run.token {
        entries := entries[id := run.(token := false, signalled := true, takes := run.takes + 1)];
        done := done + {id};
        signalled := signalled + 1;
      }
    }
    assert done == Cancelable(runs);
  }

  datatype CancelResult = Cancel(id: RunId) | NotFound | Conflict

  class Registry {
    var runs: map<RunId, Run>
    var active: nat
    ghost var revivals: nat
    ghost var saturations: nat

    /** The count law between lock sections. */
    ghost predicate Valid()
      reads this
    {
      active + revivals == |ActiveIds(runs)| + saturations
    }

    constructor ()
      ensures Valid() && runs == map[] && active == 0 && revivals == 0 && saturations == 0
    {
      runs, active, revivals, saturations := map[], 0, 0, 0;
      new;
      assert ActiveIds(runs) == {};
    }

    /** The locked half of a start. */
    method Insert(id: RunId) returns (inserted: bool)
      requires Valid()
      modifies this
      ensures Valid() && (inserted <==> id !in old(runs))
      ensures runs == if inserted then old(runs)[id := NEW_RUN] else old(runs)
      ensures active == old(active) + if inserted then 1 else 0
      ensures revivals == old(revivals) && saturations == old(saturations)
    {
      if id in runs {
        return false;
      }
      ActiveUpdate(runs, id, NEW_RUN);
      runs := runs[id := NEW_RUN];
      active := active + 1;
      inserted := true;
    }

    method Publish(id: RunId, state: RunState)
      requires Valid()
      modifies this
      ensures Valid()
      ensures id !in old(runs) ==> runs == old(runs) && active == old(active)
      ensures id in old(runs) ==> runs == old(runs)[id := PublishedRun(old(runs)[id], state)]
      ensures id in old(runs) && IsActive(old(runs)[id].state) && !IsActive(state) ==>
                active == if old(active) > 0 then old(active) - 1 else 0
      ensures id in old(runs) && !(IsActive(old(runs)[id].state) && !IsActive(state)) ==> active == old(active)
      ensures old(saturations == revivals == 0)
                && (id in old(runs) && !IsActive(old(runs)[id].state) ==> !IsActive(state)) ==>
                  saturations == revivals == 0 && active == |ActiveIds(runs)|
    {
      if id !in runs {
        return;
      }
      var run := runs[id];
      ActiveUpdate(runs, id, PublishedRun(run, state));
      var wasActive := IsActive(run.state);
      run := run.(state := state, log := run.log + [state]);
      var finished := wasActive && !IsActive(run.state);
      if finished {
        run := Settled(run);
        if active > 0 {
          active := active - 1;
        } else {
          saturations := saturations + 1;
        }
      } else if !wasActive && IsActive(run.state) {
        run := run.(rises := run.rises + 1);
        revivals := revivals + 1;
      }
      runs := runs[id := run];
    }

    /** The locked half of `cancel`: take the token, if there still is one. */
    method TakeCancel(id: RunId) returns (result: CancelResult)
      requires Valid()
      modifies this
      ensures Valid() && active == old(active)
      ensures id !in old(runs) ==> result == NotFound && runs == old(runs)
      ensures id in old(runs) && !old(runs)[id].token ==> result == Conflict && runs == old(runs)
      ensures id in old(runs) && old(runs)[id].token ==>
                result == Cancel(id)
                && runs == old(runs)[id := old(runs)[id].(token := false, takes := old(runs)[id].takes + 1)]
    {
      if id !in runs {
        return NotFound;
      }
      if !runs[id].token {
        return Conflict;
      }
      ActivePut(runs, id, runs[id].(token := false, takes := runs[id].takes + 1));
      runs := runs[id := runs[id].(token := false, takes := runs[id].takes + 1)];
      result := Cancel(id);
    }

    /** Signal every active run that still has its token; return how many. */
    method CancelAll() returns (signalled: nat)
      requires Valid()
      modifies this
      ensures Valid() && active == old(active)
      ensures runs == SweepAll(old(runs))
      ensures signalled == |Cancelable(old(runs))|
    {
      var entries;
      entries, signalled := Sweep(runs);
      SweepKeepsActive(runs);
      runs := entries;
    }
  }

  // ------------------------------------------------------------------
  // Why the hypothesis is needed
  // ------------------------------------------------------------------

  lemma {:induction false} ContinueAppend(s: System, first: seq<Action>, second: seq<Action>)
    ensures Continue(s, first + second) == Continue(Continue(s, first), second)
    decreases |second|
  {
    if second == [] {
      assert first + second == first;
    } else {
      var n := |second| - 1;
      assert (first + second)[..|first + second| - 1] == first + second[..n];
      ContinueAppend(s, first, second[..n]);
    }
  }

  lemma ContinueOne(s: System, first: seq<Action>, a: Action)
    ensures Continue(s, first + [a]) == Step(Continue(s, first), a)
  {
    assert (first + [a])[..|first|] == first;
  }

  lemma ContinueTwo(s: System, a: Action, b: Action)
    ensures Continue(s, [a]) == Step(s, a)
    ensures Continue(s, [a] + [b]) == Step(Step(s, a), b)
  {
    assert [] + [a] == [a];
    ContinueOne(s, [], a);
    ContinueOne(s, [a], b);
  }

  lemma ContinueThree(s: System, a: Action, b: Action, c: Action)
    ensures Continue(s, [a] + [b] + [c]) == Step(Step(Step(s, a), b), c)
  {
    ContinueTwo(s, a, b);
    ContinueOne(s, [a] + [b], c);
  }

  /** A StartRun served to its end, from its admission on. */
  function Serve(k: nat, id: RunId): seq<Action> {
    ([StartRequest(id)] + [StartCheck(k, true)]) + ([StartInsert(k)] + [StartCount(k)] + [StartReply(k)])
  }

  lemma Launching(s: System, id: RunId)
    requires !s.web && s.admission.Open? && !s.stopping && s.writer.Idle? && id !in s.runs
    ensures StartChecked(StartRequested(s, id), |s.starters|, true)
         == s.(starters := s.starters + [Starter(id, Launched)], admission := ForStart(|s.starters|))
  {
    var t := s.(starters := s.starters + [Starter(id, Checking)], admission := ForStart(|s.starters|));
    assert StartRequested(s, id) == t;
    assert t.starters[|s.starters| := Starter(id, Launched)] == s.starters + [Starter(id, Launched)];
  }

  lemma Inserting(s: System, k: nat, id: RunId)
    requires k < |s.starters| && s.starters[k] == Starter(id, Launched) && s.admission == ForStart(k)
    requires s.writer.Idle? && id !in s.runs
    ensures StartReplied(StartCounted(StartInserted(s, k), k), k)
         == s.(runs := s.runs[id := NEW_RUN], active := s.active + 1, counted := s.counted + 1,
               starters := s.starters[k := Starter(id, Accepted)], admission := Open)
  {
    var inserted, accepted := s.starters[k := Starter(id, Inserted)], s.starters[k := Starter(id, Accepted)];
    assert inserted[k := Starter(id, Accepted)] == accepted;
    var t := s.(runs := s.runs[id := NEW_RUN], writer := Counting(k), starters := inserted);
    assert StartInserted(s, k) == t;
    assert StartCounted(t, k) == t.(active := s.active + 1, writer := Idle, counted := s.counted + 1, starters := accepted);
  }

  lemma LaunchRun(s: System, id: RunId)
    requires !s.web && s.admission.Open? && !s.stopping && s.writer.Idle? && id !in s.runs
    ensures Continue(s, [StartRequest(id)] + [StartCheck(|s.starters|, true)])
         == s.(starters := s.starters + [Starter(id, Launched)], admission := ForStart(|s.starters|))
  {
    ContinueTwo(s, StartRequest(id), StartCheck(|s.starters|, true));
    Launching(s, id);
  }

  lemma InsertRun(s: System, k: nat, id: RunId)
    requires k < |s.starters| && s.starters[k] == Starter(id, Launched) && s.admission == ForStart(k)
    requires s.writer.Idle? && id !in s.runs
    ensures Continue(s, [StartInsert(k)] + [StartCount(k)] + [StartReply(k)])
         == s.(runs := s.runs[id := NEW_RUN], active := s.active + 1, counted := s.counted + 1,
               starters := s.starters[k := Starter(id, Accepted)], admission := Open)
  {
    ContinueThree(s, StartInsert(k), StartCount(k), StartReply(k));
    Inserting(s, k, id);
  }

  lemma Served(s: System, id: RunId)
    requires !s.web && s.admission.Open? && !s.stopping && s.writer.Idle? && id !in s.runs
    ensures Continue(s, Serve(|s.starters|, id))
         == s.(runs := s.runs[id := NEW_RUN], active := s.active + 1, counted := s.counted + 1,
               starters := s.starters + [Starter(id, Accepted)])
  {
    var k := |s.starters|;
    var launch, insert := [StartRequest(id)] + [StartCheck(k, true)], [StartInsert(k)] + [StartCount(k)] + [StartReply(k)];
    ContinueAppend(s, launch, insert);
    LaunchRun(s, id);
    InsertRun(Continue(s, launch), k, id);
    assert (s.starters + [Starter(id, Launched)])[k := Starter(id, Accepted)] == s.starters + [Starter(id, Accepted)];
  }

  /** One provider input taken all the way; the last step is idle when the
      publication did not end an active run. */
  function TakeInput(id: RunId, input: Input): seq<Action> {
    [Poll(id, input)] + [Commit(id)] + [Settle(id)]
  }

  lemma TakenInSteps(s: System, id: RunId, input: Input)
    ensures Continue(s, TakeInput(id, input)) == SettleStep(CommitStep(Step(s, Poll(id, input)), id), id)
  {
    ContinueThree(s, Poll(id, input), Commit(id), Settle(id));
  }

  lemma InputTaken(s: System, id: RunId, input: Input)
    requires s.writer.Idle? && id in s.runs && s.runs[id].task.Looping? && !s.runs[id].signalled
    requires input.Event? ==> EventState(input.event).Some?
    ensures var t := Continue(s, TakeInput(id, input));
            var r, state := s.runs[id], if input.Event? then EventState(input.event).value else EndState(input.ending);
            && t.writer.Idle? && id in t.runs && t.runs == s.runs[id := t.runs[id]]
            && t.runs[id].state == state && t.runs[id].log == r.log + [state]
            && t.runs[id].signalled == r.signalled && t.runs[id].token == r.token
            && (t.runs[id].completed <==> r.completed || (IsActive(r.state) && !IsActive(state)))
            && (input.Event? ==> t.runs[id].task.Looping?)
            && t.active == (if IsActive(r.state) && !IsActive(state) && s.active > 0 then s.active - 1 else s.active)
            && t == s.(runs := t.runs, active := t.active, revivals := t.revivals, saturations := t.saturations)
  {
    TakenInSteps(s, id, input);
    var polled := s.(runs := s.runs[id := Polled(s.runs[id], input)]);
    assert Step(s, Poll(id, input)) == polled;
    PublishIsCommitThenSettle(polled, id);
    PublishFrame(polled, id);
  }

  const FAILING := Event(Usage(false))
  const FURTHER := Event(Text)
  const ENDING := End(Outcome(true, true))

  /** A provider whose payload fails to serialize, then goes on, then ends. */
  function FailThenGoOn(id: RunId): seq<Action> {
    TakeInput(id, FAILING) + TakeInput(id, FURTHER) + TakeInput(id, ENDING)
  }

  lemma GoesOn(s: System, id: RunId)
    ensures Continue(s, FailThenGoOn(id))
         == Continue(Continue(Continue(s, TakeInput(id, FAILING)), TakeInput(id, FURTHER)), TakeInput(id, ENDING))
  {
    ContinueAppend(s, TakeInput(id, FAILING), TakeInput(id, FURTHER));
    ContinueAppend(s, TakeInput(id, FAILING) + TakeInput(id, FURTHER), TakeInput(id, ENDING));
  }

  lemma FailureTaken(s: System, id: RunId)
    requires s.writer.Idle? && id in s.runs && s.active >= 2
    requires IsActive(s.runs[id].state) && s.runs[id].task.Looping? && !s.runs[id].signalled
    ensures var t := Continue(s, TakeInput(id, FAILING));
            && id in t.runs
            && t == s.(runs := s.runs[id := t.runs[id]], active := s.active - 1, revivals := t.revivals, saturations := t.saturations)
            && t.runs[id].state == Failed && t.runs[id].task == Looping && !t.runs[id].signalled
            && t.runs[id].log == s.runs[id].log + [Failed]
  {
    InputTaken(s, id, FAILING);
  }

  lemma FurtherTaken(s: System, id: RunId)
    requires s.writer.Idle? && id in s.runs && s.runs[id].state == Failed && s.runs[id].task.Looping? && !s.runs[id].signalled
    ensures var t := Continue(s, TakeInput(id, FURTHER));
            && id in t.runs
            && t == s.(runs := s.runs[id := t.runs[id]], revivals := t.revivals, saturations := t.saturations)
            && t.runs[id].state == Running && t.runs[id].task == Looping && !t.runs[id].signalled
            && t.runs[id].log == s.runs[id].log + [Running]
  {
    InputTaken(s, id, FURTHER);
  }

  /** Such a run is counted out twice: its three publications are a failure, a
      revival and a completion, and the count loses two for one run. */
  lemma FailureCountsTwice(s: System, id: RunId)
    requires s.writer.Idle? && id in s.runs && s.active >= 2
    requires IsActive(s.runs[id].state) && s.runs[id].task.Looping? && !s.runs[id].signalled
    ensures var t := Continue(s, FailThenGoOn(id));
            && t.active == s.active - 2 && t.writer.Idle?
            && id in t.runs && t.runs[id].log == s.runs[id].log + [Failed] + [Running] + [Completed]
            && t.runs == s.runs[id := t.runs[id]]
            && t.admission == s.admission && t.web == s.web
  {
    GoesOn(s, id);
    var s1 := Continue(s, TakeInput(id, FAILING));
    FailureTaken(s, id);
    var s2 := Continue(s1, TakeInput(id, FURTHER));
    FurtherTaken(s1, id);
    InputTaken(s2, id, ENDING);
  }

  lemma IdleShutdownPasses(s: System)
    requires !s.web && s.admission.Open? && s.active == 0
    ensures Continue(s, [IdleShutdownRequest] + [IdleShutdownReply(true)])
         == s.(stopping := true, shutdown := true)
  {
    ContinueTwo(s, IdleShutdownRequest, IdleShutdownReply(true));
  }

  lemma TwoServed() returns (actions: seq<Action>)
    ensures var s := Exec(false, actions);
            && s.writer.Idle? && s.admission.Open? && !s.web && s.active == 2
            && s.runs == map["a" := NEW_RUN, "b" := NEW_RUN]
  {
    var s0 := Init(false);
    Served(s0, "a");
    Served(Continue(s0, Serve(0, "a")), "b");
    ContinueAppend(s0, Serve(0, "a"), Serve(1, "b"));
    actions := Serve(0, "a") + Serve(1, "b");
  }

  /** Without the hypothesis shutdown is not safe: one failing payload in run
      "a" lets ShutdownIfIdle set the shutdown flag while run "b" is active. */
  lemma FailureBreaksShutdown() returns (actions: seq<Action>)
    ensures Exec(false, actions).shutdown && "b" in ActiveIds(Exec(false, actions).runs)
    ensures Exec(false, actions).active == 0 && Exec(false, actions).runs["b"] == NEW_RUN
  {
    var served := TwoServed();
    var s := Exec(false, served);
    FailureCountsTwice(s, "a");
    ContinueAppend(Init(false), served, FailThenGoOn("a"));
    var failed := served + FailThenGoOn("a");
    IdleShutdownPasses(Exec(false, failed));
    ContinueAppend(Init(false), failed, [IdleShutdownRequest] + [IdleShutdownReply(true)]);
    actions := failed + ([IdleShutdownRequest] + [IdleShutdownReply(true)]);
  }

  /** One run, whose first payload failed to serialize: terminal, completed, and
      still polling. */
  lemma OneFailed() returns (actions: seq<Action>)
    ensures var s := Exec(false, actions);
            && s.runs.Keys == {"a"} && s.runs["a"].state == Failed && s.runs["a"].task.Looping? && s.runs["a"].completed
            && s.runs["a"].token && !s.runs["a"].signalled
            && s.writer.Idle? && s.admission.Open? && !s.web && !s.stopping && s.drainers == [] && s.cancelers == []
  {
    var s0 := Init(false);
    Served(s0, "a");
    var s1 := Continue(s0, Serve(0, "a"));
    InputTaken(s1, "a", FAILING);
    ContinueAppend(s0, Serve(0, "a"), TakeInput("a", FAILING));
    actions := Serve(0, "a") + TakeInput("a", FAILING);
  }

  lemma SweepsOnce(s: System)
    requires !s.web && s.admission.Open? && !s.stopping && s.drainers == [] && s.writer.Idle?
    ensures Step(Step(Step(s, ShutdownRequest(Terminate)), ShutdownReply(true)), DrainCancel(0))
         == s.(stopping := true, drainers := [Drainer(Terminate, WaitsIdle)], runs := SweepAll(s.runs))
  {
    var t := s.(stopping := true, admission := ForShutdown(Terminate));
    assert Step(s, ShutdownRequest(Terminate)) == t;
    assert Step(t, ShutdownReply(true)) == s.(stopping := true, drainers := [Drainer(Terminate, NeedsCancel)]);
  }

  lemma Terminates(s: System)
    requires !s.web && s.admission.Open? && !s.stopping && s.drainers == [] && s.writer.Idle?
    ensures Continue(s, [ShutdownRequest(Terminate)] + [ShutdownReply(true)] + [DrainCancel(0)])
         == s.(stopping := true, drainers := [Drainer(Terminate, WaitsIdle)], runs := SweepAll(s.runs))
  {
    ContinueThree(s, ShutdownRequest(Terminate), ShutdownReply(true), DrainCancel(0));
    SweepsOnce(s);
  }

  /** `cancel_all` passes over a failed run that is still polling; made active
      again, it runs on with its token. */
  lemma SweepMissesRevived() returns (actions: seq<Action>)
    ensures var s := Exec(false, actions); SweptOut(s) && "a" in ActiveIds(s.runs) && s.runs["a"].token
  {
    var failed := OneFailed();
    var s := Exec(false, failed);
    Terminates(s);
    var terminate := [ShutdownRequest(Terminate)] + [ShutdownReply(true)] + [DrainCancel(0)];
    var t := Continue(s, terminate);
    assert t.runs["a"] == s.runs["a"];
    InputTaken(t, "a", FURTHER);
    ContinueAppend(Init(false), failed, terminate);
    ContinueAppend(Init(false), failed + terminate, TakeInput("a", FURTHER));
    actions := failed + terminate + TakeInput("a", FURTHER);
    assert t.drainers[0] == Drainer(Terminate, WaitsIdle);
  }

  /** `cancel` can return and its run be active: the failed run had already been
      handed its next event when the cancel was sent. */
  lemma CancelReturnsEarly() returns (actions: seq<Action>)
    ensures var s := Exec(false, actions); s.cancelers == [Canceler("a", Returned)] && "a" in ActiveIds(s.runs)
  {
    var failed := OneFailed();
    var s0 := Exec(false, failed);
    var take, send := [CancelTake("a")] + [Poll("a", FURTHER)], [CancelSend(0)] + [CancelReturn(0)] + [Commit("a")];
    TakeThenPoll(s0, "a");
    SendThenCommit(Continue(s0, take), "a");
    ContinueAppend(Init(false), failed, take);
    ContinueAppend(Init(false), failed + take, send);
    actions := failed + take + send;
  }

  lemma TakeThenPoll(s: System, id: RunId)
    requires id in s.runs && s.runs[id].task.Looping? && s.runs[id].token && !s.runs[id].signalled && s.writer.Idle?
    requires s.cancelers == []
    ensures var t := Continue(s, [CancelTake(id)] + [Poll(id, FURTHER)]);
            && t.cancelers == [Canceler(id, Took)] && t.writer.Idle? && id in t.runs
            && t.runs[id].task == Publishing(Running) && t.runs[id].completed == s.runs[id].completed
            && t.runs[id].state == s.runs[id].state
  {
    ContinueTwo(s, CancelTake(id), Poll(id, FURTHER));
  }

  lemma SendsFirst(s: System, id: RunId)
    requires id in s.runs && s.cancelers == [Canceler(id, Took)]
    ensures CancelSent(s, 0) == s.(runs := s.runs[id := s.runs[id].(signalled := true)], cancelers := [Canceler(id, Waits)])
  {
  }

  lemma ReturnsFirst(s: System, id: RunId)
    requires id in s.runs && s.runs[id].completed && s.cancelers == [Canceler(id, Waits)]
    ensures CancelReturned(s, 0) == s.(cancelers := [Canceler(id, Returned)])
  {
  }

  lemma SendThenCommit(s: System, id: RunId)
    requires id in s.runs && s.runs[id].task == Publishing(Running) && s.runs[id].completed && s.writer.Idle?
    requires s.cancelers == [Canceler(id, Took)] && !IsActive(s.runs[id].state)
    ensures var t := Continue(s, [CancelSend(0)] + [CancelReturn(0)] + [Commit(id)]);
            t.cancelers == [Canceler(id, Returned)] && id in ActiveIds(t.runs)
  {
    ContinueThree(s, CancelSend(0), CancelReturn(0), Commit(id));
    var t := CancelSent(s, 0);
    SendsFirst(s, id);
    ReturnsFirst(t, id);
    CommitIs(CancelReturned(t, 0), id);
  }
}
