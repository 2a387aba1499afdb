/** Coordinator workflows and the functions that change them (electron/coordinator/runtime.ts): journal
    entries, approvals, lane cancellation and the normalisation after a restart. */
module WorkflowModel {
  import opened Common

  // ---- statuses -----------------------------------------------------------

  datatype LaneStatus =
    Pending | Spawning | Running | WaitingForResult | Completed | Blocked | Failed | TimedOut | Cancelled
      | StaleAfterRestore

  datatype StageStatus =
    Pending | Running | WaitingForResults | Completed | Skipped | Blocked | Failed | Cancelled | StaleAfterRestore

  datatype WorkflowStatus =
    Pending | Running | WaitingForResults | Completed | Blocked | Failed | Cancelled | StaleAfterRestore

  datatype ApprovalStatus = Pending | Approved | Denied | Cancelled

  predicate IsTerminalLane(status: LaneStatus) {
    status.Blocked? || status.Cancelled? || status.Completed? || status.Failed? || status.StaleAfterRestore?
      || status.TimedOut?
  }

  // ---- entities -----------------------------------------------------------

  datatype Lane = Lane(
    id: string,
    stageId: string,
    taskId: Option<string>,
    attempt: nat,
    byScheduler: bool,
    status: LaneStatus,
    failure: Option<string>,
    completedAt: Option<int>,
    updatedAt: int)

  datatype Stage = Stage(
    id: string,
    laneIds: seq<string>,
    dependsOn: seq<string>,
    status: StageStatus,
    failure: Option<string>,
    completedAt: Option<int>,
    updatedAt: int)

  datatype Approval = Approval(
    id: string,
    laneId: string,
    resultId: string,
    stageId: string,
    status: ApprovalStatus,
    reason: Option<string>,
    resolvedAt: Option<int>)

  /** `number` is the sequence number, missing in journals written by old versions. */
  datatype Entry = Entry(
    number: Option<nat>,
    at: int,
    kind: string,
    message: string,
    laneId: Option<string>,
    resultId: Option<string>,
    stageId: Option<string>)

  /** The budget part of a workflow policy; absent limits take their defaults. */
  datatype Policy = Policy(lanes: Option<nat>, retries: Option<nat>, steps: Option<nat>, wallClockMs: Option<nat>)
  datatype AppendPolicy = AppendPolicy(actionsPerDecision: Option<nat>, stepAppends: Option<nat>)

  datatype Usage = Usage(limit: nat, used: nat)

  datatype Budget = Budget(
    deadlineAt: int,
    exhausted: Option<string>,
    retriesExhaustedAt: Option<int>,
    lanes: Usage,
    retries: Usage,
    steps: Usage)

  /** Execution facts that recomputation only carries along. */
  datatype Carried = Carried(
    blockedReason: Option<string>,
    cancelledAt: Option<int>,
    completionReason: Option<string>,
    deadlineAt: Option<int>,
    failureSummary: Option<string>,
    nextRetryAt: Option<int>)

  datatype Execution = Execution(
    activeLaneCount: nat,
    completedStageCount: nat,
    skippedStageCount: nat,
    failedLaneCount: nat,
    timedOutLaneCount: nat,
    expansionCount: nat,
    pendingRetryLaneIds: seq<string>,
    readyStageIds: seq<string>,
    budget: Budget,
    carried: Carried,
    lastTickAt: int)

  /** `plannedLanes` gives, per stage id, the lanes its step of the source spec asks for; `specSteps` the
      number of steps of that spec, if there is one. */
  datatype Workflow = Workflow(
    id: string,
    status: WorkflowStatus,
    createdAt: int,
    startedAt: Option<int>,
    completedAt: Option<int>,
    updatedAt: int,
    eventVersion: nat,
    stages: seq<Stage>,
    lanes: seq<Lane>,
    approvals: seq<Approval>,
    journal: seq<Entry>,
    stepAppends: seq<string>,
    expansionCount: nat,
    plannedLanes: map<string, nat>,
    specSteps: Option<nat>,
    policy: Policy,
    appendPolicy: AppendPolicy,
    programVersion: Option<nat>,
    execution: Option<Execution>)

  // ---- the journal ----------------------------------------------------------

  function NextNumber(journal: seq<Entry>): nat {
    if journal == [] then 1
    else
      var last := journal[|journal| - 1];
      (if last.number.Some? then last.number.value else 0) + 1
  }

  /** Appends one entry; a caller may bring its own number. */
  function AppendEntry(w: Workflow, entry: Entry): Workflow {
    w.(journal := w.journal + [if entry.number.Some? then entry else entry.(number := Some(NextNumber(w.journal)))])
  }

  // ---- approvals --------------------------------------------------------------

  /** Without lane ids every pending approval is meant. */
  predicate ShouldCancel(a: Approval, laneIds: Option<set<string>>) {
    a.status.Pending? && (laneIds.Some? ==> a.laneId in laneIds.value)
  }

  function CancelApproval(a: Approval, laneIds: Option<set<string>>, reason: string, now: int): Approval {
    if ShouldCancel(a, laneIds)
    then a.(reason := Some(reason), resolvedAt := Some(now), status := ApprovalStatus.Cancelled)
    else a
  }

  function ApprovalEntry(a: Approval, number: nat, message: string, now: int): Entry {
    Entry(Some(number), now, "decision-approval-cancelled", message, Some(a.laneId), Some(a.resultId), Some(a.stageId))
  }

  /** One entry per cancelled approval, in order, numbered from `first`. */
  function ApprovalEntries(approvals: seq<Approval>, laneIds: Option<set<string>>, first: nat, message: string,
                           now: int)
    : seq<Entry>
  {
    if approvals == [] then []
    else
      var a := approvals[|approvals| - 1];
      var before := ApprovalEntries(approvals[..|approvals| - 1], laneIds, first, message, now);
      before + (if ShouldCancel(a, laneIds) then [ApprovalEntry(a, first + |before|, message, now)] else [])
  }

  predicate SomeToCancel(approvals: seq<Approval>, laneIds: Option<set<string>>) {
    exists i :: 0 <= i < |approvals| && ShouldCancel(approvals[i], laneIds)
  }

  function CancelledApprovals(approvals: seq<Approval>, laneIds: Option<set<string>>, reason: string, now: int)
    : (r: seq<Approval>)
  {
    seq(|approvals|, i requires 0 <= i < |approvals| => CancelApproval(approvals[i], laneIds, reason, now))
  }

  /** The one authority for cancelling approvals: statuses and journal entries change together. */
  function CancelApprovals(w: Workflow, laneIds: Option<set<string>>, message: string, reason: string,
                           now: int): Workflow {
    if !SomeToCancel(w.approvals, laneIds) then w
    else
      w.(journal := w.journal + ApprovalEntries(w.approvals, laneIds, NextNumber(w.journal), message, now),
         approvals := CancelledApprovals(w.approvals, laneIds, reason, now))
  }

  // ---- cancelling a task's lanes ------------------------------------------------

  function LiveLaneIds(lanes: seq<Lane>, task: string): set<string> {
    set i | 0 <= i < |lanes| && lanes[i].taskId == Some(task) && !IsTerminalLane(lanes[i].status) :: lanes[i].id
  }

  function CancelLane(lane: Lane, ids: set<string>, reason: string, now: int): Lane {
    if lane.id in ids
    then lane.(completedAt := Some(now), failure := Some(reason), status := LaneStatus.Cancelled, updatedAt := now)
    else lane
  }

  function CancelledLanes(lanes: seq<Lane>, ids: set<string>, reason: string, now: int): (r: seq<Lane>) {
    seq(|lanes|, i requires 0 <= i < |lanes| => CancelLane(lanes[i], ids, reason, now))
  }

  function LaneEntry(lane: Lane, number: nat, reason: string, now: int): Entry {
    Entry(Some(number), now, "lane-cancelled", reason, Some(lane.id), None, Some(lane.stageId))
  }

  function LaneEntries(lanes: seq<Lane>, ids: set<string>, first: nat, reason: string, now: int): seq<Entry> {
    if lanes == [] then []
    else
      var lane := lanes[|lanes| - 1];
      var before := LaneEntries(lanes[..|lanes| - 1], ids, first, reason, now);
      before + (if lane.id in ids then [LaneEntry(lane, first + |before|, reason, now)] else [])
  }

  /** A stage with a cancelled lane is cancelled too once none of its lanes is live. */
  function CancelStage(stage: Stage, lanes: seq<Lane>, ids: set<string>, reason: string, now: int): Stage {
    if !(exists i :: 0 <= i < |lanes| && lanes[i].id in ids && lanes[i].stageId == stage.id) then stage
    else if exists i :: 0 <= i < |lanes| && lanes[i].id in stage.laneIds && !IsTerminalLane(lanes[i].status)
    then stage.(updatedAt := now)
    else stage.(completedAt := Some(now), failure := Some(reason), status := StageStatus.Cancelled, updatedAt := now)
  }

  function CancelledStages(stages: seq<Stage>, lanes: seq<Lane>, ids: set<string>, reason: string,
                           now: int): (r: seq<Stage>) {
    seq(|stages|, i requires 0 <= i < |stages| => CancelStage(stages[i], lanes, ids, reason, now))
  }

  predicate SomeCancelledStage(stages: seq<Stage>) {
    exists i :: 0 <= i < |stages| && stages[i].status.Cancelled?
  }

  function WithCancelledLanes(w: Workflow, ids: set<string>, reason: string, now: int): Workflow {
    var lanes := CancelledLanes(w.lanes, ids, reason, now);
    w.(lanes := lanes,
       stages := CancelledStages(w.stages, lanes, ids, reason, now),
       journal := w.journal + LaneEntries(lanes, ids, NextNumber(w.journal), reason, now))
  }

  const APPROVAL_MESSAGE := "Cancelled pending approval: "

  /** One workflow of a task whose live lanes are `ids`. */
  function CancelLanes(w: Workflow, ids: set<string>, reason: string, now: int, version: nat): Workflow {
    var w1 := CancelApprovals(WithCancelledLanes(w, ids, reason, now), Some(ids), APPROVAL_MESSAGE + reason,
      reason, now);
    var w2 := w1.(eventVersion := version, updatedAt := now);
    if SomeCancelledStage(w1.stages) then w2.(completedAt := Some(now), status := WorkflowStatus.Cancelled) else w2
  }

  // ---- policies and execution -----------------------------------------------------

  const MAX_LANES := 12
  const MAX_RETRIES := 8
  const MAX_STEPS := 24
  const DEFAULT_WALL_CLOCK_MS := 3_600_000
  const MAX_WALL_CLOCK_MS := 86_400_000
  const MAX_ACTIONS_PER_DECISION := 8
  const MAX_STEP_APPENDS := 24
  const PROGRAM_VERSION := 2

  function OrDefault(value: Option<nat>, default: nat): Option<nat> {
    if value.Some? then value else Some(default)
  }

  function ResolvePolicy(p: Policy): Policy {
    Policy(OrDefault(p.lanes, MAX_LANES), OrDefault(p.retries, MAX_RETRIES), OrDefault(p.steps, MAX_STEPS),
           OrDefault(p.wallClockMs, DEFAULT_WALL_CLOCK_MS))
  }

  function ResolveAppendPolicy(p: AppendPolicy): AppendPolicy {
    AppendPolicy(OrDefault(p.actionsPerDecision, MAX_ACTIONS_PER_DECISION), OrDefault(p.stepAppends, MAX_STEP_APPENDS))
  }

  function Limit(value: Option<nat>, default: nat, cap: nat): nat {
    Min(OrDefault(value, default).value, cap)
  }

  function CountLanes(lanes: seq<Lane>, status: LaneStatus): nat {
    if lanes == [] then 0
    else CountLanes(lanes[..|lanes| - 1], status) + (if lanes[|lanes| - 1].status == status then 1 else 0)
  }

  function CountStages(stages: seq<Stage>, status: StageStatus): nat {
    if stages == [] then 0
    else CountStages(stages[..|stages| - 1], status) + (if stages[|stages| - 1].status == status then 1 else 0)
  }

  function CountActive(lanes: seq<Lane>): nat {
    if lanes == [] then 0
    else CountActive(lanes[..|lanes| - 1]) + (if IsTerminalLane(lanes[|lanes| - 1].status) then 0 else 1)
  }

  function CountRetries(lanes: seq<Lane>): nat {
    if lanes == [] then 0
    else
      var lane := lanes[|lanes| - 1];
      CountRetries(lanes[..|lanes| - 1]) + (if lane.attempt > 1 && lane.byScheduler then 1 else 0)
  }

  predicate IsPlanned(status: StageStatus) {
    status.Pending? || status.Running? || status.WaitingForResults?
  }

  /** Lanes that stages without lanes of their own still plan to open. */
  function PlannedLanes(stages: seq<Stage>, planned: map<string, nat>): nat {
    if stages == [] then 0
    else
      var stage := stages[|stages| - 1];
      PlannedLanes(stages[..|stages| - 1], planned)
      + (if stage.laneIds == [] && IsPlanned(stage.status) && stage.id in planned then planned[stage.id] else 0)
  }

  predicate HasLane(lanes: seq<Lane>, id: string) {
    exists i :: 0 <= i < |lanes| && lanes[i].id == id
  }

  function KnownLanes(ids: seq<string>, lanes: seq<Lane>): seq<string> {
    if ids == [] then []
    else
      var id := ids[|ids| - 1];
      KnownLanes(ids[..|ids| - 1], lanes) + (if HasLane(lanes, id) then [id] else [])
  }

  predicate IsReady(stages: seq<Stage>, stage: Stage) {
    && stage.status.Pending?
    && forall d :: d in stage.dependsOn ==>
         exists i :: 0 <= i < |stages| && stages[i].id == d && stages[i].status.Completed?
  }

  function ReadyStages(all: seq<Stage>, stages: seq<Stage>): seq<string> {
    if stages == [] then []
    else
      var stage := stages[|stages| - 1];
      ReadyStages(all, stages[..|stages| - 1]) + (if IsReady(all, stage) then [stage.id] else [])
  }

  function BudgetOf(w: Workflow): Budget {
    var prior := w.execution;
    var start := if w.startedAt.Some? then w.startedAt.value else w.createdAt;
    var deadline := if prior.Some? then prior.value.carried.deadlineAt else None;
    Budget(
      if deadline.Some? then deadline.value
      else start + Limit(w.policy.wallClockMs, DEFAULT_WALL_CLOCK_MS, MAX_WALL_CLOCK_MS),
      if prior.Some? then prior.value.budget.exhausted else None,
      if prior.Some? then prior.value.budget.retriesExhaustedAt else None,
      Usage(Limit(w.policy.lanes, MAX_LANES, MAX_LANES), |w.lanes| + PlannedLanes(w.stages, w.plannedLanes)),
      Usage(Limit(w.policy.retries, MAX_RETRIES, MAX_RETRIES), CountRetries(w.lanes)),
      Usage(Limit(w.policy.steps, MAX_STEPS, MAX_STEPS), if w.specSteps.Some? then w.specSteps.value else |w.stages|))
  }

  /** The derived execution summary. */
  function ExecutionOf(w: Workflow, now: int): Execution {
    Execution(
      CountActive(w.lanes),
      CountStages(w.stages, StageStatus.Completed),
      CountStages(w.stages, StageStatus.Skipped),
      CountLanes(w.lanes, LaneStatus.Failed),
      CountLanes(w.lanes, LaneStatus.TimedOut),
      w.expansionCount,
      if w.execution.Some? then KnownLanes(w.execution.value.pendingRetryLaneIds, w.lanes) else [],
      ReadyStages(w.stages, w.stages),
      BudgetOf(w),
      if w.execution.Some? then w.execution.value.carried else Carried(None, None, None, None, None, None),
      now)
  }

  // ---- restoring ----------------------------------------------------------------

  const RESTORED_FAILURE := "Server restored coordinator workflow state without the live PTY session."
  const RESTORED_REASON := "stale-after-restore"
  const RESTORED_APPROVAL_MESSAGE := "Cancelled pending approval: stale-after-restore."

  function RestoreLane(lane: Lane): Lane {
    if lane.status.Pending? || lane.status.Spawning? || lane.status.Running? || lane.status.WaitingForResult?
    then lane.(failure := Some(RESTORED_FAILURE), status := LaneStatus.StaleAfterRestore)
    else lane
  }

  function RestoreStage(stage: Stage): Stage {
    if stage.status.Pending? || stage.status.Running? || stage.status.WaitingForResults?
    then stage.(failure := Some(RESTORED_FAILURE), status := StageStatus.StaleAfterRestore)
    else stage
  }

  function RestoreStatus(status: WorkflowStatus): WorkflowStatus {
    if status.Pending? || status.Running? || status.WaitingForResults? then WorkflowStatus.StaleAfterRestore else status
  }

  function RestoreLanes(lanes: seq<Lane>): (r: seq<Lane>) {
    seq(|lanes|, i requires 0 <= i < |lanes| => RestoreLane(lanes[i]))
  }

  function RestoreStages(stages: seq<Stage>): (r: seq<Stage>) {
    seq(|stages|, i requires 0 <= i < |stages| => RestoreStage(stages[i]))
  }

  /** Entries without a number get their position. */
  function NumberEntries(journal: seq<Entry>): (r: seq<Entry>) {
    seq(|journal|, i requires 0 <= i < |journal| => journal[i].(number := OrDefault(journal[i].number, i + 1)))
  }

  function RestoreWorkflow(w: Workflow, now: int): Workflow {
    var w1 := CancelApprovals(w.(journal := NumberEntries(w.journal)), None, RESTORED_APPROVAL_MESSAGE,
      RESTORED_REASON, now);
    var w2 := w1.(appendPolicy := ResolveAppendPolicy(w.appendPolicy),
                  policy := ResolvePolicy(w.policy),
                  lanes := RestoreLanes(w.lanes),
                  stages := RestoreStages(w.stages),
                  programVersion := OrDefault(w.programVersion, PROGRAM_VERSION),
                  status := RestoreStatus(w.status));
    w2.(execution := Some(ExecutionOf(w2, now)))
  }
}
