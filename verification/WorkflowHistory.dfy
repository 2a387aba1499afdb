/** A run's workflows over every history of mutations and restarts (electron/coordinator/runtime.ts). Every
    mutation that changes a workflow takes the next state version and stamps it on that workflow. */
module WorkflowHistory {
  import opened Common
  import opened WorkflowModel

  datatype State = State(workflows: seq<Workflow>, version: nat)

  const INIT := State([], 0)

  /** What a caller asks a new workflow or a batch of steps to be. */
  datatype Plan = Plan(stages: seq<Stage>, planned: map<string, nat>, steps: Option<nat>, message: string)

  /** `Elsewhere` is a mutation of anything else in the coordinator: it takes a version too. */
  datatype Event =
    | Create(id: string, status: WorkflowStatus, plan: Plan, policy: Policy, appendPolicy: AppendPolicy, now: int)
    | AppendSteps(index: nat, appendId: string, plan: Plan, source: Option<string>, now: int)
    | AppendJournal(index: nat, entry: Entry, now: int)
    | AddLane(index: nat, lane: Lane, now: int)
    | UpdateLane(index: nat, laneId: string, laneStatus: LaneStatus, now: int)
    | AddApproval(index: nat, approval: Approval, now: int)
    | ResolveApproval(index: nat, approvalId: string, outcome: ApprovalStatus, now: int)
    | UpdateStatus(index: nat, status: WorkflowStatus, now: int)
    | CancelApprovalsOn(index: nat, laneIds: Option<set<string>>, reason: string, now: int)
    | CancelForTask(task: string, reason: string, now: int)
    | Elsewhere

  /** Calls that throw leave everything as it was. */
  predicate Enabled(s: State, e: Event) {
    match e
    case Create(_, _, _, _, _, _) => true
    case CancelForTask(_, _, _) => true
    case Elsewhere => true
    case AppendSteps(i, id, plan, _, _) =>
      i < |s.workflows| && (id in s.workflows[i].stepAppends || MayAppend(s.workflows[i], plan))
    case AddLane(i, lane, _) => i < |s.workflows| && HasStage(s.workflows[i].stages, lane.stageId)
    case UpdateLane(i, id, _, _) => i < |s.workflows| && HasLane(s.workflows[i].lanes, id)
    case ResolveApproval(i, id, _, _) => i < |s.workflows| && HasApproval(s.workflows[i].approvals, id)
    case _ => e.index < |s.workflows|
  }

  predicate HasStage(stages: seq<Stage>, id: string) {
    exists i :: 0 <= i < |stages| && stages[i].id == id
  }

  predicate HasApproval(approvals: seq<Approval>, id: string) {
    exists i :: 0 <= i < |approvals| && approvals[i].id == id
  }

  predicate MayAppend(w: Workflow, plan: Plan) {
    && (forall i :: 0 <= i < |plan.stages| ==> !HasStage(w.stages, plan.stages[i].id))
    && !(w.status.Blocked? || w.status.Cancelled? || w.status.Failed? || w.status.StaleAfterRestore?)
  }

  function NewStages(stages: seq<Stage>, now: int): (r: seq<Stage>) {
    seq(|stages|, i requires 0 <= i < |stages| => NewStage(stages[i], now))
  }

  function NewStage(stage: Stage, now: int): Stage {
    stage.(laneIds := [], status := StageStatus.Pending, failure := None, completedAt := None, updatedAt := now)
  }

  function NewWorkflow(id: string, status: WorkflowStatus, plan: Plan, policy: Policy, appendPolicy: AppendPolicy,
                       now: int, version: nat): Workflow {
    Workflow(id, status, now, Some(now), None, now, version, plan.stages, [], [],
             [Entry(Some(1), now, "workflow-created", plan.message, None, None, None)],
             [], 0, plan.planned, plan.steps, ResolvePolicy(policy), ResolveAppendPolicy(appendPolicy),
             Some(PROGRAM_VERSION), None)
  }

  /** A completed workflow that gets new steps runs again. */
  function Reopen(w: Workflow): Workflow {
    if !w.status.Completed? then w
    else
      w.(status := WorkflowStatus.Running, completedAt := None,
         execution := if w.execution.Some?
                      then Some(w.execution.value.(carried := w.execution.value.carried.(completionReason := None)))
                      else None)
  }

  function WithSteps(w: Workflow, appendId: string, plan: Plan, lane: Option<string>, now: int,
                     version: nat): Workflow {
    var entry := Entry(Some(NextNumber(w.journal)), now, "workflow-steps-appended", plan.message, lane, None, None);
    var w1 := Reopen(w).(eventVersion := version, updatedAt := now,
                         journal := w.journal + [entry],
                         stages := w.stages + NewStages(plan.stages, now),
                         plannedLanes := plan.planned, specSteps := plan.steps,
                         stepAppends := w.stepAppends + [appendId]);
    w1.(execution := Some(ExecutionOf(w1, now)))
  }

  function WithLaneStatus(lanes: seq<Lane>, id: string, status: LaneStatus, now: int): (r: seq<Lane>) {
    seq(|lanes|, i requires 0 <= i < |lanes| =>
      if lanes[i].id == id then lanes[i].(status := status, updatedAt := now) else lanes[i])
  }

  function WithApproval(approvals: seq<Approval>, id: string, status: ApprovalStatus, now: int): (r: seq<Approval>) {
    seq(|approvals|, i requires 0 <= i < |approvals| =>
      if approvals[i].id == id then approvals[i].(status := status, resolvedAt := Some(now)) else approvals[i])
  }

  function WithStageLane(stages: seq<Stage>, lane: Lane, now: int): (r: seq<Stage>) {
    seq(|stages|, i requires 0 <= i < |stages| =>
      if stages[i].id == lane.stageId
      then
        var ids := stages[i].laneIds;
        stages[i].(laneIds := if lane.id in ids then ids else ids + [lane.id], updatedAt := now)
      else stages[i])
  }

  /** A changed workflow gets the next version. */
  function Commit(s: State, i: nat, w: Workflow, now: int): State
    requires i < |s.workflows|
  {
    State(s.workflows[i := w.(eventVersion := s.version + 1, updatedAt := now)], s.version + 1)
  }

  /** Workflow by workflow; one without a live lane of the task takes no version. */
  function CancelAll(workflows: seq<Workflow>, task: string, reason: string, now: int, version: nat): State {
    if workflows == [] then State([], version)
    else
      var before := CancelAll(workflows[..|workflows| - 1], task, reason, now, version);
      var w := workflows[|workflows| - 1];
      var ids := LiveLaneIds(w.lanes, task);
      if ids == {} then State(before.workflows + [w], before.version)
      else State(before.workflows + [CancelLanes(w, ids, reason, now, before.version + 1)], before.version + 1)
  }

  function RestoreAll(workflows: seq<Workflow>, now: int): (r: seq<Workflow>) {
    seq(|workflows|, i requires 0 <= i < |workflows| => RestoreWorkflow(workflows[i], now))
  }

  function Step(s: State, e: Event): State
    requires Enabled(s, e)
  {
    match e
    case Create(id, status, plan, policy, appendPolicy, now) =>
      State(s.workflows + [NewWorkflow(id, status, plan, policy, appendPolicy, now, s.version + 1)], s.version + 1)
    case AppendSteps(i, id, plan, lane, now) =>
      var w := s.workflows[i];
      if id in w.stepAppends then s else Commit(s, i, WithSteps(w, id, plan, lane, now, s.version + 1), now)
    case AppendJournal(i, entry, now) => Commit(s, i, AppendEntry(s.workflows[i], entry.(at := now)), now)
    case AddLane(i, lane, now) =>
      var w := s.workflows[i];
      Commit(s, i, w.(lanes := w.lanes + [lane], stages := WithStageLane(w.stages, lane, now)), now)
    case UpdateLane(i, id, status, now) =>
      Commit(s, i, s.workflows[i].(lanes := WithLaneStatus(s.workflows[i].lanes, id, status, now)), now)
    case AddApproval(i, approval, now) =>
      var w := s.workflows[i];
      if HasApproval(w.approvals, approval.id) then s
      else
        var asked := approval.(status := ApprovalStatus.Pending, reason := None, resolvedAt := None);
        Commit(s, i, w.(approvals := w.approvals + [asked]), now)
    case ResolveApproval(i, id, status, now) =>
      Commit(s, i, s.workflows[i].(approvals := WithApproval(s.workflows[i].approvals, id, status, now)), now)
    case UpdateStatus(i, status, now) => Commit(s, i, s.workflows[i].(status := status), now)
    case CancelApprovalsOn(i, ids, reason, now) =>
      var w := s.workflows[i];
      if !SomeToCancel(w.approvals, ids) then s
      else Commit(s, i, CancelApprovals(w, ids, APPROVAL_MESSAGE + reason, reason, now), now)
    case CancelForTask(task, reason, now) => CancelAll(s.workflows, task, reason, now, s.version)
    case Elsewhere => State(s.workflows, s.version + 1)
  }

  // ---- the saved file and restarts ----------------------------------------------

  /** A server process with its file. `highest` is a history: the highest version ever taken. */
  datatype Server = Server(live: State, saved: State, highest: nat)

  const FRESH_SERVER := Server(INIT, INIT, 0)

  /** `Saved` is a snapshot that reaches the disk; a restart, whenever it comes, loads the last such. */
  datatype Turn = Mutation(event: Event) | Saved | Restarted(now: int)

  function Restore(saved: State, now: int): State {
    State(RestoreAll(saved.workflows, now), saved.version)
  }

  function Next(d: Server, turn: Turn): Server {
    match turn
    case Mutation(e) =>
      if Enabled(d.live, e) then
        var live := Step(d.live, e);
        d.(live := live, highest := Max(d.highest, live.version))
      else d
    case Saved => d.(saved := d.live)
    case Restarted(now) => d.(live := Restore(d.saved, now))
  }

  function Run(d: Server, turns: seq<Turn>): Server
    decreases |turns|
  {
    if turns == [] then d else Run(Next(d, turns[0]), turns[1..])
  }

  /** The versions a turn takes. */
  predicate Takes(d: Server, turn: Turn, v: nat) {
    turn.Mutation? && Enabled(d.live, turn.event) && d.live.version < v <= Step(d.live, turn.event).version
  }

  /** Has some turn of the run taken the version? */
  predicate Taken(d: Server, turns: seq<Turn>, v: nat)
    decreases |turns|
  {
    turns != [] && (Takes(d, turns[0], v) || Taken(Next(d, turns[0]), turns[1..], v))
  }
}
