/** A run's workflow record and the version counter, updated in place by the exported mutators and proved
    against `WorkflowHistory`. */
module WorkflowRecord {
  import opened Common
  import opened WorkflowModel
  import opened WorkflowJournals
  import opened WorkflowHistory
  import opened WorkflowHistoryProofs

  class CoordinatorRunRecord {
    var workflows: seq<Workflow>
    var stateVersion: nat

    ghost function State(): State
      reads this
    {
      WorkflowHistory.State(workflows, stateVersion)
    }

    constructor ()
      ensures State() == INIT
    {
      workflows, stateVersion := [], 0;
    }

    method NextVersion() returns (version: nat)
      modifies this`stateVersion
      ensures version == stateVersion == old(stateVersion) + 1
    {
      stateVersion := stateVersion + 1;
      return stateVersion;
    }

    method CommitWorkflow(i: nat, w: Workflow, now: int)
      requires i < |workflows|
      modifies this
      ensures State() == Commit(old(State()), i, w, now)
    {
      var version := NextVersion();
      workflows := workflows[i := w.(eventVersion := version, updatedAt := now)];
    }

    method CreateWorkflow(id: string, status: WorkflowStatus, plan: Plan, policy: Policy, appendPolicy: AppendPolicy,
                          now: int)
      returns (i: nat)
      modifies this
      ensures State() == Step(old(State()), Create(id, status, plan, policy, appendPolicy, now))
      ensures i < |workflows| && Numbered(workflows[i].journal) && |workflows[i].journal| == 1
    {
      var version := NextVersion();
      i := |workflows|;
      workflows := workflows + [NewWorkflow(id, status, plan, policy, appendPolicy, now, version)];
    }

    /** A repeated append id is answered from the record without a new version. */
    method AppendWorkflowSteps(i: nat, appendId: string, plan: Plan, source: Option<string>, now: int)
      requires Enabled(State(), AppendSteps(i, appendId, plan, source, now))
      modifies this
      ensures State() == Step(old(State()), AppendSteps(i, appendId, plan, source, now))
      ensures Numbered(old(workflows)[i].journal) ==> Numbered(workflows[i].journal)
    {
      hide ExecutionOf, Numbered;
      if appendId in workflows[i].stepAppends {
        return;
      }
      StepsKeepNumbers(workflows[i], appendId, plan, source, now, stateVersion + 1);
      CommitWorkflow(i, WithSteps(workflows[i], appendId, plan, source, now, stateVersion + 1), now);
    }

    method AppendWorkflowJournal(i: nat, entry: Entry, now: int)
      requires i < |workflows|
      modifies this
      ensures State() == Step(old(State()), AppendJournal(i, entry, now))
      ensures Numbered(old(workflows)[i].journal) && entry.number.None? ==> Numbered(workflows[i].journal)
    {
      if Numbered(workflows[i].journal) {
        ExplicitNumberMustBeNext(workflows[i], entry.(at := now));
      }
      CommitWorkflow(i, AppendEntry(workflows[i], entry.(at := now)), now);
    }

    method CancelPendingApprovals(i: nat, laneIds: Option<set<string>>, reason: string, now: int)
      requires i < |workflows|
      modifies this
      ensures State() == Step(old(State()), CancelApprovalsOn(i, laneIds, reason, now))
    {
      hide CancelApprovals;
      var w := workflows[i];
      if !SomeToCancel(w.approvals, laneIds) {
        return;
      }
      CommitWorkflow(i, CancelApprovals(w, laneIds, APPROVAL_MESSAGE + reason, reason, now), now);
    }

    /** Workflow after workflow; the result says whether any lane was cancelled. */
    method CancelLanesForTask(task: string, reason: string, now: int) returns (any: bool)
      modifies this
      ensures State() == Step(old(State()), CancelForTask(task, reason, now))
      ensures any <==> stateVersion != old(stateVersion)
      ensures forall i :: 0 <= i < |workflows| ==> NoLiveLane(workflows[i], task)
    {
      hide CancelLanes, LiveLaneIds, NoLiveLane, CancelAll, Halfway;
      any := false;
      var n := |workflows|;
      ghost var before := State();
      TaskIsClosedEverywhere(workflows, task, reason, now, stateVersion);
      HalfwayEnds(before, task, reason, now);
      var i := 0;
      while i < n
        invariant 0 <= i <= n == |before.workflows|
        invariant State() == Halfway(before, i, task, reason, now)
        invariant stateVersion >= before.version && (any <==> stateVersion != before.version)
      {
        HalfwayNext(before, i, task, reason, now);
        var ids := LiveLaneIds(workflows[i].lanes, task);
        if ids != {} {
          var next := NextVersion();
          workflows := workflows[i := CancelLanes(workflows[i], ids, reason, now, next)];
          any := true;
        }
        i := i + 1;
      }
    }

    /** What a save writes. */
    method GetCoordinatorRuntimeState() returns (saved: State)
      ensures saved == State()
    {
      return WorkflowHistory.State(workflows, stateVersion);
    }

    /** Loading a saved state replaces everything, the version counter included; its workflows are
        normalised, and what they were numbered by stays. */
    method RestoreCoordinatorRuntimeState(saved: State, now: int)
      modifies this
      ensures State() == Restore(saved, now)
      ensures VersionsOk(saved) ==> VersionsOk(State())
      ensures AllNumbered(saved) ==> AllNumbered(State())
    {
      hide RestoreWorkflow, VersionsOk, AllNumbered;
      var restored: seq<Workflow> := [];
      var i := 0;
      while i < |saved.workflows|
        invariant i <= |saved.workflows|
        invariant |restored| == i && forall k :: 0 <= k < i ==> restored[k] == RestoreWorkflow(saved.workflows[k], now)
      {
        restored := restored + [RestoreWorkflow(saved.workflows[i], now)];
        i := i + 1;
      }
      workflows := restored;
      stateVersion := saved.version;
      if VersionsOk(saved) {
        RestartKeepsVersions(saved, now);
      }
      if AllNumbered(saved) {
        RestartKeepsNumbers(saved, now);
      }
    }
  }

  /** The record once the first `i` workflows have been visited. */
  ghost function Halfway(s: State, i: nat, task: string, reason: string, now: int): State
    requires i <= |s.workflows|
  {
    var done := CancelAll(s.workflows[..i], task, reason, now, s.version);
    WorkflowHistory.State(done.workflows + s.workflows[i..], done.version)
  }

  lemma HalfwayEnds(s: State, task: string, reason: string, now: int)
    ensures Halfway(s, 0, task, reason, now) == s
    ensures Halfway(s, |s.workflows|, task, reason, now) == CancelAll(s.workflows, task, reason, now, s.version)
  {
    hide CancelLanes, LiveLaneIds;
    assert s.workflows[..0] == [] && [] + s.workflows[0..] == s.workflows;
    assert s.workflows[..|s.workflows|] == s.workflows;
    var all := CancelAll(s.workflows, task, reason, now, s.version).workflows;
    assert all + [] == all;
  }

  lemma HalfwayNext(s: State, i: nat, task: string, reason: string, now: int)
    requires i < |s.workflows|
    ensures var h := Halfway(s, i, task, reason, now);
            && |h.workflows| == |s.workflows| && h.workflows[i] == s.workflows[i]
            && var ids := LiveLaneIds(s.workflows[i].lanes, task);
               Halfway(s, i + 1, task, reason, now) ==
                 if ids == {} then h
                 else
                   var w := CancelLanes(h.workflows[i], ids, reason, now, h.version + 1);
                   WorkflowHistory.State(h.workflows[i := w], h.version + 1)
  {
    hide CancelLanes, LiveLaneIds;
    var w := s.workflows[i];
    assert s.workflows[..i + 1][..i] == s.workflows[..i];
    var done := CancelAll(s.workflows[..i], task, reason, now, s.version);
    CancelAllLength(s.workflows[..i], task, reason, now, s.version);
    assert done.workflows + s.workflows[i..] == (done.workflows + [w]) + s.workflows[i + 1..];
  }

  lemma {:induction false} CancelAllLength(workflows: seq<Workflow>, task: string, reason: string, now: int,
                                           version: nat)
    ensures |CancelAll(workflows, task, reason, now, version).workflows| == |workflows|
  {
    hide CancelLanes, LiveLaneIds;
    if workflows != [] {
      CancelAllLength(workflows[..|workflows| - 1], task, reason, now, version);
    }
  }

  lemma StepsKeepNumbers(w: Workflow, appendId: string, plan: Plan, source: Option<string>, now: int, version: nat)
    ensures Numbered(w.journal) ==> Numbered(WithSteps(w, appendId, plan, source, now, version).journal)
  {
    hide ExecutionOf;
    if Numbered(w.journal) {
      StepsAreNumbered(w, appendId, plan, source, now, version);
    }
  }
}
