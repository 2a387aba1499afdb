/** A whole run after a server restart (electron/coordinator/runtime.ts): nothing in it still claims to be
    live, and restoring it again changes nothing but the time of the last tick. */
module WorkflowRestore {
  import opened Common
  import opened WorkflowModel
  import P = PromptDeliveries
  import S = PersistedState

  datatype SubtaskStatus =
    | Queued | Spawning | WaitingForAgentReady | Running | WaitingForUser | WaitingForCoordinator | ReadyForReview
    | Landing | Landed | LandingFailed | CleanupFailed | Failed | Exited | Cancelled

  datatype AssignmentStatus = SeededAtSpawn | PendingPrompt | Delivered | BlockedByQuestion | Failed

  datatype Startup = Startup(
    followupMode: string, assignmentMode: string, assignmentStatus: AssignmentStatus, readiness: string,
    deliveredAt: Option<int>)

  datatype RunPrompt = RunPrompt(
    requestId: string, initialAssignment: bool, targetTask: string, status: P.Status,
    deliveredAt: Option<int>, waitingReason: Option<string>)

  datatype Subtask = Subtask(
    taskId: string, status: SubtaskStatus, startup: Option<Startup>,
    interruptedAt: Option<int>, result: Option<string>)

  datatype Run = Run(
    id: string, status: S.RunStatus, prompts: seq<RunPrompt>, subtasks: seq<Subtask>, workflows: seq<Workflow>)

  const LOST_SESSION := "Server restored coordinator state without the live PTY session."
  const LOST_SESSION_REASON := "server-restored-without-live-pty-session"

  // ---- what restoring does ------------------------------------------------------

  predicate WasLiveRun(status: S.RunStatus) {
    status.Draining? || status.PausedByUser? || status.Running? || status.Starting?
  }

  predicate WasLivePrompt(status: P.Status) {
    status.Delivering? || P.IsDeliverable(status)
  }

  predicate WasLiveSubtask(status: SubtaskStatus) {
    status.Running? || status.Spawning? || status.WaitingForAgentReady?
  }

  function RestorePrompt(p: RunPrompt): RunPrompt {
    if WasLivePrompt(p.status)
    then p.(status := P.WriteUnknownAfterRestore, waitingReason := Some(LOST_SESSION_REASON))
    else p
  }

  function LegacyStartup(status: AssignmentStatus, deliveredAt: Option<int>): Startup {
    Startup("post-ready-prompt", "post-ready-prompt", status, "terminal-generic", deliveredAt)
  }

  /** The last initial assignment sent to a task. */
  function LastAssignment(prompts: seq<RunPrompt>, task: string): Option<RunPrompt> {
    if prompts == [] then None
    else
      var p := prompts[|prompts| - 1];
      if p.initialAssignment && p.targetTask == task then Some(p) else LastAssignment(prompts[..|prompts| - 1], task)
  }

  function StartupOf(subtask: Subtask, prompts: seq<RunPrompt>): Startup {
    if subtask.startup.Some? then subtask.startup.value
    else
      var p := LastAssignment(prompts, subtask.taskId);
      if p.None? then
        LegacyStartup(if subtask.status.WaitingForAgentReady? then PendingPrompt else AssignmentStatus.Delivered, None)
      else if p.value.status.Delivered? then LegacyStartup(AssignmentStatus.Delivered, p.value.deliveredAt)
      else if p.value.status.BlockedByQuestion? then LegacyStartup(AssignmentStatus.BlockedByQuestion, None)
      else if p.value.status.Failed? then LegacyStartup(AssignmentStatus.Failed, None)
      else LegacyStartup(PendingPrompt, None)
  }

  function RestoreSubtask(subtask: Subtask, prompts: seq<RunPrompt>, now: int): Subtask {
    var s1 := subtask.(startup := Some(StartupOf(subtask, prompts)));
    if WasLiveSubtask(subtask.status)
    then s1.(interruptedAt := if subtask.interruptedAt.Some? then subtask.interruptedAt else Some(now),
             result := Some(LOST_SESSION), status := Exited)
    else s1
  }

  function RestorePrompts(prompts: seq<RunPrompt>): (r: seq<RunPrompt>) {
    seq(|prompts|, i requires 0 <= i < |prompts| => RestorePrompt(prompts[i]))
  }

  function RestoreSubtasks(subtasks: seq<Subtask>, prompts: seq<RunPrompt>, now: int): (r: seq<Subtask>) {
    seq(|subtasks|, i requires 0 <= i < |subtasks| => RestoreSubtask(subtasks[i], prompts, now))
  }

  function RestoreWorkflows(workflows: seq<Workflow>, now: int): (r: seq<Workflow>) {
    seq(|workflows|, i requires 0 <= i < |workflows| => RestoreWorkflow(workflows[i], now))
  }

  function RestoreRun(run: Run, now: int): Run {
    Run(run.id, if WasLiveRun(run.status) then S.StaleAfterRestore else run.status,
        RestorePrompts(run.prompts), RestoreSubtasks(run.subtasks, run.prompts, now),
        RestoreWorkflows(run.workflows, now))
  }

  // ---- normal form ----------------------------------------------------------------

  predicate WorkflowAtRest(w: Workflow) {
    && !(w.status.Pending? || w.status.Running? || w.status.WaitingForResults?)
    && (forall i :: 0 <= i < |w.lanes| ==> IsTerminalLane(w.lanes[i].status))
    && (forall i :: 0 <= i < |w.stages| ==>
          !(w.stages[i].status.Pending? || w.stages[i].status.Running? || w.stages[i].status.WaitingForResults?))
    && (forall i :: 0 <= i < |w.approvals| ==> !w.approvals[i].status.Pending?)
    && (forall i :: 0 <= i < |w.journal| ==> w.journal[i].number.Some?)
  }

  /** No status in the restored lists, no pending approval, and nothing the delivery loop would pick up or
      its sweep would requeue. */
  predicate AtRest(run: Run) {
    && !WasLiveRun(run.status)
    && (forall i :: 0 <= i < |run.prompts| ==>
          !P.IsDeliverable(run.prompts[i].status) && !run.prompts[i].status.Delivering?)
    && (forall i :: 0 <= i < |run.subtasks| ==>
          !WasLiveSubtask(run.subtasks[i].status) && run.subtasks[i].startup.Some?)
    && (forall i :: 0 <= i < |run.workflows| ==> WorkflowAtRest(run.workflows[i]) && run.workflows[i].execution.Some?)
  }

  lemma {:induction false} EntriesAreNumbered(approvals: seq<Approval>, ids: Option<set<string>>, first: nat,
                                              message: string, now: int)
    ensures forall k :: 0 <= k < |ApprovalEntries(approvals, ids, first, message, now)| ==>
              ApprovalEntries(approvals, ids, first, message, now)[k].number.Some?
  {
    if approvals != [] {
      EntriesAreNumbered(approvals[..|approvals| - 1], ids, first, message, now);
    }
  }

  lemma AllApprovalsResolved(w: Workflow, message: string, reason: string, now: int)
    ensures var w' := CancelApprovals(w, None, message, reason, now);
            forall i :: 0 <= i < |w'.approvals| ==> !w'.approvals[i].status.Pending?
  {
    hide ApprovalEntries, NextNumber;
    if !SomeToCancel(w.approvals, None) {
      forall i | 0 <= i < |w.approvals|
        ensures !w.approvals[i].status.Pending?
      {
        assert !ShouldCancel(w.approvals[i], None);
      }
    }
  }

  lemma RestoredWorkflowIsAtRest(w: Workflow, now: int)
    ensures WorkflowAtRest(RestoreWorkflow(w, now)) && RestoreWorkflow(w, now).execution.Some?
  {
    hide ExecutionOf, ApprovalEntries, NextNumber, SomeToCancel, CancelledApprovals;
    var numbered := w.(journal := NumberEntries(w.journal));
    AllApprovalsResolved(numbered, RESTORED_APPROVAL_MESSAGE, RESTORED_REASON, now);
    EntriesAreNumbered(w.approvals, None, NextNumber(numbered.journal), RESTORED_APPROVAL_MESSAGE, now);
  }

  /** After a restore the run is at rest. */
  lemma RestoredRunIsAtRest(run: Run, now: int)
    ensures AtRest(RestoreRun(run, now))
  {
    hide RestoreWorkflow, WorkflowAtRest, StartupOf;
    var r := RestoreRun(run, now);
    forall i | 0 <= i < |run.workflows|
      ensures WorkflowAtRest(r.workflows[i]) && r.workflows[i].execution.Some?
    {
      RestoredWorkflowIsAtRest(run.workflows[i], now);
    }
  }

  // ---- restoring again ------------------------------------------------------------

  lemma {:induction false} KnownLanesTwice(ids: seq<string>, lanes: seq<Lane>)
    ensures KnownLanes(KnownLanes(ids, lanes), lanes) == KnownLanes(ids, lanes)
  {
    if ids != [] {
      var before := KnownLanes(ids[..|ids| - 1], lanes);
      KnownLanesTwice(ids[..|ids| - 1], lanes);
      var id := ids[|ids| - 1];
      if HasLane(lanes, id) {
        assert (before + [id])[..|before|] == before;
      } else {
        assert before + [] == before;
      }
    }
  }

  /** The execution summary recomputed from itself. */
  lemma ExecutionIsStable(w: Workflow, now: int, later: int)
    ensures var e := ExecutionOf(w, now);
            ExecutionOf(w.(execution := Some(e)), later) == e.(lastTickAt := later)
  {
    hide CountActive, CountStages, CountLanes, CountRetries, PlannedLanes, ReadyStages, KnownLanes;
    if w.execution.Some? {
      KnownLanesTwice(w.execution.value.pendingRetryLaneIds, w.lanes);
    } else {
      KnownLanesTwice([], w.lanes);
      NoKnownLanes(w.lanes);
    }
  }

  lemma NoKnownLanes(lanes: seq<Lane>)
    ensures KnownLanes([], lanes) == []
  {
  }

  /** On a workflow at rest with resolved policies only the execution changes. */
  lemma RestoreAtRest(w: Workflow, later: int)
    requires WorkflowAtRest(w)
    requires w.appendPolicy == ResolveAppendPolicy(w.appendPolicy) && w.policy == ResolvePolicy(w.policy)
    requires w.programVersion.Some?
    ensures RestoreWorkflow(w, later) == w.(execution := Some(ExecutionOf(w, later)))
  {
    hide ExecutionOf, ApprovalEntries, NextNumber, CancelledApprovals;
    assert NumberEntries(w.journal) == w.journal;
    assert !SomeToCancel(w.approvals, None);
    assert RestoreLanes(w.lanes) == w.lanes;
    assert RestoreStages(w.stages) == w.stages;
  }

  lemma RestoredIsResolved(w: Workflow, now: int)
    ensures var r := RestoreWorkflow(w, now);
            && r.appendPolicy == ResolveAppendPolicy(r.appendPolicy) && r.policy == ResolvePolicy(r.policy)
            && r.programVersion.Some?
            && r.execution == Some(ExecutionOf(r.(execution := w.execution), now))
  {
    hide ExecutionOf, ApprovalEntries, NextNumber, CancelledApprovals, SomeToCancel, NumberEntries, RestoreLanes,
        RestoreStages;
  }

  lemma RestoreWorkflowTwice(w: Workflow, now: int, later: int)
    ensures var r := RestoreWorkflow(w, now);
            && r.execution.Some?
            && RestoreWorkflow(r, later) == r.(execution := Some(r.execution.value.(lastTickAt := later)))
  {
    hide RestoreWorkflow, WorkflowAtRest, ExecutionOf, ResolvePolicy, ResolveAppendPolicy;
    var r := RestoreWorkflow(w, now);
    RestoredWorkflowIsAtRest(w, now);
    RestoredIsResolved(w, now);
    RestoreAtRest(r, later);
    var before := r.(execution := w.execution);
    ExecutionIsStable(before, now, later);
    assert before.(execution := r.execution) == r;
  }

  function Ticked(workflows: seq<Workflow>, later: int): (r: seq<Workflow>) {
    seq(|workflows|, i requires 0 <= i < |workflows| =>
      if workflows[i].execution.Some?
      then workflows[i].(execution := Some(workflows[i].execution.value.(lastTickAt := later)))
      else workflows[i])
  }

  /** Restoring a restored run changes only the last ticks. */
  lemma RestoreIsIdempotent(run: Run, now: int, later: int)
    ensures var r := RestoreRun(run, now);
            RestoreRun(r, later) == r.(workflows := Ticked(r.workflows, later))
  {
    hide RestoreWorkflow;
    var r := RestoreRun(run, now);
    assert RestorePrompts(r.prompts) == r.prompts;
    assert RestoreSubtasks(r.subtasks, r.prompts, later) == r.subtasks;
    forall i | 0 <= i < |run.workflows|
      ensures RestoreWorkflow(r.workflows[i], later) == Ticked(r.workflows, later)[i]
    {
      RestoreWorkflowTwice(run.workflows[i], now, later);
    }
    assert RestoreWorkflows(r.workflows, later) == Ticked(r.workflows, later);
  }

  // ---- the restored summary ---------------------------------------------------------

  lemma {:induction false} NothingActive(lanes: seq<Lane>)
    requires forall i :: 0 <= i < |lanes| ==> IsTerminalLane(lanes[i].status)
    ensures CountActive(lanes) == 0
  {
    if lanes != [] {
      NothingActive(lanes[..|lanes| - 1]);
    }
  }

  lemma {:induction false} NothingReady(all: seq<Stage>, stages: seq<Stage>)
    requires forall i :: 0 <= i < |stages| ==> !stages[i].status.Pending?
    ensures ReadyStages(all, stages) == []
  {
    if stages != [] {
      NothingReady(all, stages[..|stages| - 1]);
      assert !IsReady(all, stages[|stages| - 1]);
    }
  }

  lemma {:induction false} RetriesAreKnown(ids: seq<string>, lanes: seq<Lane>)
    ensures forall k :: 0 <= k < |KnownLanes(ids, lanes)| ==> HasLane(lanes, KnownLanes(ids, lanes)[k])
  {
    if ids != [] {
      RetriesAreKnown(ids[..|ids| - 1], lanes);
    }
  }

  /** A restored workflow has nothing active and nothing ready to start, plans no further lanes, and waits
      to retry only lanes it still has. */
  lemma RestoredSummaryIsIdle(w: Workflow, now: int)
    ensures var r := RestoreWorkflow(w, now);
            && r.execution.Some?
            && r.execution.value.activeLaneCount == 0 && r.execution.value.readyStageIds == []
            && r.execution.value.budget.lanes.used == |w.lanes|
            && forall k :: 0 <= k < |r.execution.value.pendingRetryLaneIds| ==>
                 HasLane(r.lanes, r.execution.value.pendingRetryLaneIds[k])
  {
    hide RestoreWorkflow, WorkflowAtRest, CountActive, ReadyStages, KnownLanes, HasLane, PlannedLanes;
    hide ResolvePolicy, ResolveAppendPolicy, CountStages, CountLanes, CountRetries;
    var r := RestoreWorkflow(w, now);
    RestoredWorkflowIsAtRest(w, now);
    RestoredIsResolved(w, now);
    RestMeans(r);
    SameLaneCount(w, now);
    NothingActive(r.lanes);
    NothingReady(r.stages, r.stages);
    NothingPlanned(r.stages, r.plannedLanes);
    if w.execution.Some? {
      RetriesAreKnown(w.execution.value.pendingRetryLaneIds, r.lanes);
    }
  }

  lemma RestMeans(w: Workflow)
    requires WorkflowAtRest(w)
    ensures forall i :: 0 <= i < |w.lanes| ==> IsTerminalLane(w.lanes[i].status)
    ensures forall i :: 0 <= i < |w.stages| ==> !IsPlanned(w.stages[i].status)
  {
  }

  lemma SameLaneCount(w: Workflow, now: int)
    ensures |RestoreWorkflow(w, now).lanes| == |w.lanes|
  {
    hide ExecutionOf, CancelApprovals;
  }

  lemma {:induction false} NothingPlanned(stages: seq<Stage>, planned: map<string, nat>)
    requires forall i :: 0 <= i < |stages| ==> !IsPlanned(stages[i].status)
    ensures PlannedLanes(stages, planned) == 0
  {
    if stages != [] {
      NothingPlanned(stages[..|stages| - 1], planned);
    }
  }
}
