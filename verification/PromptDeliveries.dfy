/** Prompt delivery as a state machine (electron/coordinator/prompt-delivery.ts). A delivery waits for the
    one before it on its target's chain, may then write, and releases the chain when it is done. Timers,
    other modules' checks and failing writes are arguments of the steps. */
module PromptDeliveries {
  import opened Common

  /** A run id with a request id, and a run id with a task id. */
  datatype Key = Key(run: string, request: string)
  datatype Target = Target(run: string, task: string)

  const MAX_DELIVERIES_GLOBAL := 4
  const MAX_DELIVERIES_PER_RUN := 2

  datatype Status =
    | Queued
    | WaitingForAgentSession
    | WaitingForTerminalPrompt
    | WaitingForUserIdle
    | WaitingForTerminalInputClear
    | WaitingForCommandLease
    | BlockedByQuestion
    | Delivering
    | Delivered
    | WriteUnknownAfterRestore
    | Failed
    | Cancelled

  predicate IsDeliverable(status: Status) {
    status.Queued? || status.WaitingForAgentSession? || status.WaitingForTerminalPrompt?
    || status.WaitingForUserIdle? || status.WaitingForTerminalInputClear? || status.WaitingForCommandLease?
  }

  predicate IsPending(status: Status) {
    IsDeliverable(status) || status.BlockedByQuestion? || status.Delivering?
  }

  datatype Prompt = Prompt(target: Target, status: Status, attempts: nat)

  datatype Phase = Waiting | Writing | Finished | Released

  /** `after` is the delivery whose lifecycle this one waits for, -1 for none. */
  datatype Delivery = Delivery(key: Key, target: Target, after: int, phase: Phase, settled: bool)

  datatype State = State(
    prompts: map<Key, Prompt>,
    deliveries: seq<Delivery>,
    chains: map<Target, nat>,
    active: set<Key>,
    scheduled: set<Key>,
    admissionClosed: bool,
    looping: bool,
    shutdown: Option<set<nat>>,
    completions: seq<Key>)

  const INIT := State(map[], [], map[], {}, {}, false, false, None, [])

  /** What the checks before the first write say. */
  datatype Gate =
    | TargetInactive
    | UserActive
    | NoSession
    | WrongTask
    | NoSupervision
    | AwaitingInput
    | AgentBusy
    | NotReady
    | Open(leaseFree: bool)

  /** How a write sequence ends: the target went away, a write failed (and its failure may go unrecorded),
      or all was written. */
  datatype Outcome = TargetGone | WriteFailed(recorded: bool) | AllWritten(targetActive: bool)

  datatype Event =
    | Enqueue(key: Key, target: Target)
    | CancelForTask(target: Target)
    | RequeueStale(key: Key)
    | Admit(key: Key, runAdmits: bool)
    | Begin(index: nat, gate: Gate)
    | Finish(index: nat, outcome: Outcome)
    | Release(index: nat)
    | Settle(index: nat)
    | StartLoop
    | StopLoop
    | ShutdownDone

  // ---- capacity -----------------------------------------------------------

  function TargetsOf(chains: map<Target, nat>, run: string): set<Target> {
    set t | t in chains && t.run == run
  }

  predicate HasCapacity(chains: map<Target, nat>, run: string) {
    && |chains.Keys| < MAX_DELIVERIES_GLOBAL
    && |TargetsOf(chains, run)| < MAX_DELIVERIES_PER_RUN
  }

  // ---- steps --------------------------------------------------------------

  function SetStatus(s: State, key: Key, status: Status): State {
    if key in s.prompts then s.(prompts := s.prompts[key := s.prompts[key].(status := status)]) else s
  }

  function SetPhase(s: State, i: nat, phase: Phase): State
    requires i < |s.deliveries|
  {
    s.(deliveries := s.deliveries[i := s.deliveries[i].(phase := phase)])
  }

  predicate Enabled(s: State, e: Event) {
    match e
    case Enqueue(key, target) => key !in s.prompts && key.run == target.run
    case CancelForTask(_) => true
    case RequeueStale(key) =>
      s.looping && key in s.prompts && s.prompts[key].status == Delivering && key !in s.active
    case Admit(key, _) => key in s.prompts
    case Begin(i, _) => i < |s.deliveries| && s.deliveries[i].phase == Waiting && TurnReached(s, s.deliveries[i])
    case Finish(i, _) => i < |s.deliveries| && s.deliveries[i].phase == Writing
    case Release(i) => i < |s.deliveries| && s.deliveries[i].phase == Finished
    case Settle(i) => i < |s.deliveries| && s.deliveries[i].phase == Released && !s.deliveries[i].settled
    case StartLoop => true
    case StopLoop => true
    case ShutdownDone => s.shutdown.Some? && forall i :: i in s.shutdown.value ==> IsReleased(s, i)
  }

  predicate IsReleased(s: State, i: nat) {
    i < |s.deliveries| && s.deliveries[i].phase == Released
  }

  predicate TurnReached(s: State, d: Delivery) {
    d.after < 0 || IsReleased(s, d.after)
  }

  /** Refused while stopping, skipped for a settled, scheduled or active prompt or without capacity;
      otherwise queued behind the target's last delivery. */
  predicate Admits(s: State, key: Key, runAdmits: bool)
    requires key in s.prompts
  {
    && !s.admissionClosed
    && IsDeliverable(s.prompts[key].status)
    && runAdmits
    && key !in s.scheduled && key !in s.active
    && HasCapacity(s.chains, key.run)
  }

  function AdmitStep(s: State, key: Key, runAdmits: bool): State
    requires key in s.prompts
  {
    if !Admits(s, key, runAdmits) then s
    else
      var t := s.prompts[key].target;
      var after: int := if t in s.chains then s.chains[t] else -1;
      s.(scheduled := s.scheduled + {key},
         deliveries := s.deliveries + [Delivery(key, t, after, Waiting, false)],
         chains := s.chains[t := |s.deliveries|])
  }

  function GateStatus(gate: Gate): Status
    requires !gate.Open?
  {
    match gate
    case TargetInactive => Cancelled
    case UserActive => WaitingForUserIdle
    case NoSession => WaitingForAgentSession
    case WrongTask => Failed
    case NoSupervision => WaitingForAgentSession
    case AwaitingInput => BlockedByQuestion
    case AgentBusy => WaitingForTerminalPrompt
    case NotReady => WaitingForTerminalPrompt
  }

  /** How a delivery's turn ends: in a write, or with a new status for the prompt, or with nothing. */
  datatype Turn = Write | Park(status: Option<Status>)

  /** Look at the prompt again, run the checks, take the lease. */
  function TurnOf(s: State, d: Delivery, gate: Gate): (turn: Turn)
    ensures turn != Park(None) ==> d.key in s.prompts && IsDeliverable(s.prompts[d.key].status)
    ensures turn.Write? ==> d.key !in s.active
  {
    if d.key !in s.prompts || !IsDeliverable(s.prompts[d.key].status) then Park(None)
    else if !gate.Open? then Park(Some(GateStatus(gate)))
    else if d.key in s.active then Park(None)
    else if !HasCapacity(s.chains - {d.target}, d.key.run) then Park(Some(Queued))
    else if !gate.leaseFree then Park(Some(WaitingForCommandLease))
    else Write
  }

  /** The delivery's turn on its chain. */
  function BeginStep(s: State, i: nat, gate: Gate): State
    requires i < |s.deliveries|
  {
    var d := s.deliveries[i];
    match TurnOf(s, d, gate)
    case Write => StartWriting(s, i)
    case Park(status) => SetPhase(if status.Some? then SetStatus(s, d.key, status.value) else s, i, Finished)
  }

  function StartWriting(s: State, i: nat): State
    requires i < |s.deliveries| && s.deliveries[i].key in s.prompts
  {
    var key := s.deliveries[i].key;
    var p := s.prompts[key];
    SetPhase(s.(prompts := s.prompts[key := p.(status := Delivering, attempts := p.attempts + 1)],
                active := s.active + {key}), i, Writing)
  }

  /** Completion counts only if the prompt is still being delivered to an active target. */
  function FinishStep(s: State, i: nat, outcome: Outcome): State
    requires i < |s.deliveries|
  {
    var key := s.deliveries[i].key;
    var s1 := SetPhase(s, i, Finished).(active := s.active - {key});
    match outcome
    case TargetGone => SetStatus(s1, key, Cancelled)
    case WriteFailed(recorded) => if recorded then SetStatus(s1, key, Failed) else s1
    case AllWritten(targetActive) =>
      if targetActive && key in s.prompts && s.prompts[key].status == Delivering
      then SetStatus(s1, key, Delivered).(completions := s.completions + [key])
      else s1
  }

  /** The chain entry goes only if no later delivery took it over. */
  function ReleaseStep(s: State, i: nat): State
    requires i < |s.deliveries|
  {
    var t := s.deliveries[i].target;
    SetPhase(s, i, Released).(chains := if t in s.chains && s.chains[t] == i then s.chains - {t} else s.chains)
  }

  function SettleStep(s: State, i: nat): State
    requires i < |s.deliveries|
  {
    var d := s.deliveries[i];
    s.(deliveries := s.deliveries[i := d.(settled := true)], scheduled := s.scheduled - {d.key})
  }

  function StopStep(s: State): State {
    if s.shutdown.Some? then s
    else
      var s1 := s.(admissionClosed := true, looping := false);
      if s.chains == map[] then s1.(active := {}, scheduled := {}) else s1.(shutdown := Some(s.chains.Values))
  }

  function CancelStep(s: State, t: Target): State {
    s.(prompts := map k | k in s.prompts ::
         var p := s.prompts[k];
         if p.target == t && IsPending(p.status) then p.(status := Cancelled) else p)
  }

  function Step(s: State, e: Event): State
    requires Enabled(s, e)
  {
    match e
    case Enqueue(key, target) => s.(prompts := s.prompts[key := Prompt(target, Queued, 0)])
    case CancelForTask(target) => CancelStep(s, target)
    case RequeueStale(key) => SetStatus(s, key, Queued)
    case Admit(key, runAdmits) => AdmitStep(s, key, runAdmits)
    case Begin(i, gate) => BeginStep(s, i, gate)
    case Finish(i, outcome) => FinishStep(s, i, outcome)
    case Release(i) => ReleaseStep(s, i)
    case Settle(i) => SettleStep(s, i)
    case StartLoop => if s.shutdown.Some? then s else s.(admissionClosed := false, looping := true)
    case StopLoop => StopStep(s)
    case ShutdownDone => s.(active := {}, scheduled := {}, shutdown := None)
  }

  function Run(s: State, events: seq<Event>): State
    decreases |events|
  {
    if events == [] then s
    else Run(if Enabled(s, events[0]) then Step(s, events[0]) else s, events[1..])
  }
}
