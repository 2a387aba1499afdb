/** Journals numbered 1..n, and what cancelling a task's lanes leaves behind. */
module WorkflowJournals {
  import opened Common
  import opened WorkflowModel

  // ---- numbering ------------------------------------------------------------

  /** Entry i carries the number i + 1. */
  predicate Numbered(journal: seq<Entry>) {
    forall i :: 0 <= i < |journal| ==> journal[i].number == Some(i + 1)
  }

  /** Entries that continue a journal of `n`. */
  predicate Continues(entries: seq<Entry>, n: nat) {
    forall i :: 0 <= i < |entries| ==> entries[i].number == Some(n + i + 1)
  }

  lemma NextAfterNumbered(journal: seq<Entry>)
    requires Numbered(journal)
    ensures NextNumber(journal) == |journal| + 1
  {
  }

  lemma ContinuedIsNumbered(journal: seq<Entry>, entries: seq<Entry>)
    requires Numbered(journal) && Continues(entries, |journal|)
    ensures Numbered(journal + entries)
  {
  }

  /** An explicit number keeps the numbering exactly if it is the next one. */
  lemma ExplicitNumberMustBeNext(w: Workflow, entry: Entry)
    requires Numbered(w.journal)
    ensures Numbered(AppendEntry(w, entry).journal) <==> entry.number.None? || entry.number == Some(|w.journal| + 1)
  {
    NextAfterNumbered(w.journal);
    var journal := AppendEntry(w, entry).journal;
    assert journal[..|w.journal|] == w.journal;
    assert journal[|w.journal|].number ==
           if entry.number.Some? then entry.number else Some(|w.journal| + 1);
  }

  lemma {:induction false} ApprovalEntriesContinue(approvals: seq<Approval>, ids: Option<set<string>>, first: nat,
                                                   message: string, now: int)
    requires first > 0
    ensures Continues(ApprovalEntries(approvals, ids, first, message, now), first - 1)
  {
    if approvals != [] {
      ApprovalEntriesContinue(approvals[..|approvals| - 1], ids, first, message, now);
    }
  }

  lemma {:induction false} LaneEntriesContinue(lanes: seq<Lane>, ids: set<string>, first: nat, reason: string, now: int)
    requires first > 0
    ensures Continues(LaneEntries(lanes, ids, first, reason, now), first - 1)
  {
    if lanes != [] {
      LaneEntriesContinue(lanes[..|lanes| - 1], ids, first, reason, now);
    }
  }

  lemma CancelApprovalsKeepsNumbers(w: Workflow, ids: Option<set<string>>, message: string, reason: string, now: int)
    requires Numbered(w.journal)
    ensures Numbered(CancelApprovals(w, ids, message, reason, now).journal)
  {
    hide ApprovalEntries, Numbered, Continues, NextNumber;
    NextAfterNumbered(w.journal);
    ApprovalEntriesContinue(w.approvals, ids, |w.journal| + 1, message, now);
    ContinuedIsNumbered(w.journal, ApprovalEntries(w.approvals, ids, |w.journal| + 1, message, now));
  }

  lemma CancelLanesKeepsNumbers(w: Workflow, ids: set<string>, reason: string, now: int, version: nat)
    requires Numbered(w.journal)
    ensures Numbered(CancelLanes(w, ids, reason, now, version).journal)
  {
    hide LaneEntries, Numbered, Continues, NextNumber, CancelApprovals, SomeCancelledStage;
    var lanes := CancelledLanes(w.lanes, ids, reason, now);
    NextAfterNumbered(w.journal);
    LaneEntriesContinue(lanes, ids, |w.journal| + 1, reason, now);
    ContinuedIsNumbered(w.journal, LaneEntries(lanes, ids, |w.journal| + 1, reason, now));
    CancelApprovalsKeepsNumbers(WithCancelledLanes(w, ids, reason, now), Some(ids), APPROVAL_MESSAGE + reason,
      reason, now);
  }

  /** A journal whose entries are unnumbered or rightly numbered. */
  predicate Numberable(journal: seq<Entry>) {
    forall i :: 0 <= i < |journal| ==> journal[i].number.None? || journal[i].number == Some(i + 1)
  }

  /** Restoring leaves a journal numbered exactly if no stored number was wrong. */
  lemma RestoreNumbers(w: Workflow, now: int)
    ensures Numbered(RestoreWorkflow(w, now).journal) <==> Numberable(w.journal)
  {
    hide ExecutionOf, RestoreLanes, RestoreStages, ApprovalEntries;
    var w1 := w.(journal := NumberEntries(w.journal));
    var journal := RestoreWorkflow(w, now).journal;
    assert |journal| >= |w.journal|;
    forall i | 0 <= i < |w.journal|
      ensures journal[i].number == OrDefault(w.journal[i].number, i + 1)
    {
    }
    if Numberable(w.journal) {
      CancelApprovalsKeepsNumbers(w1, None, RESTORED_APPROVAL_MESSAGE, RESTORED_REASON, now);
    }
  }

  // ---- cancelling a task's lanes ----------------------------------------------

  /** How many lanes are cancelled, and how many approvals. */
  function CountIn(lanes: seq<Lane>, ids: set<string>): nat {
    if lanes == [] then 0
    else CountIn(lanes[..|lanes| - 1], ids) + (if lanes[|lanes| - 1].id in ids then 1 else 0)
  }

  function CountToCancel(approvals: seq<Approval>, ids: Option<set<string>>): nat {
    if approvals == [] then 0
    else
      CountToCancel(approvals[..|approvals| - 1], ids)
      + (if ShouldCancel(approvals[|approvals| - 1], ids) then 1 else 0)
  }

  lemma {:induction false} LaneEntriesAreExact(lanes: seq<Lane>, ids: set<string>, first: nat, reason: string, now: int)
    ensures var entries := LaneEntries(lanes, ids, first, reason, now);
            && |entries| == CountIn(lanes, ids)
            && (forall i :: 0 <= i < |lanes| && lanes[i].id in ids ==>
                  exists k :: 0 <= k < |entries| &&
                    entries[k].laneId == Some(lanes[i].id) && entries[k].kind == "lane-cancelled")
            && (forall k :: 0 <= k < |entries| ==> entries[k].laneId.Some? && entries[k].laneId.value in ids)
  {
    if lanes != [] {
      var before := lanes[..|lanes| - 1];
      LaneEntriesAreExact(before, ids, first, reason, now);
      var entries := LaneEntries(lanes, ids, first, reason, now);
      var earlier := LaneEntries(before, ids, first, reason, now);
      assert forall k :: 0 <= k < |earlier| ==> entries[k] == earlier[k];
      forall i | 0 <= i < |lanes| && lanes[i].id in ids
        ensures exists k :: 0 <= k < |entries| &&
                  entries[k].laneId == Some(lanes[i].id) && entries[k].kind == "lane-cancelled"
      {
        if i < |before| {
          assert before[i] == lanes[i];
          var k :| 0 <= k < |earlier| && earlier[k].laneId == Some(lanes[i].id) && earlier[k].kind == "lane-cancelled";
          assert entries[k] == earlier[k];
        } else {
          assert entries[|earlier|].laneId == Some(lanes[i].id);
        }
      }
    }
  }

  lemma {:induction false} ApprovalEntriesCount(approvals: seq<Approval>, ids: Option<set<string>>, first: nat,
                                                message: string, now: int)
    ensures |ApprovalEntries(approvals, ids, first, message, now)| == CountToCancel(approvals, ids)
    ensures forall i :: 0 <= i < |ApprovalEntries(approvals, ids, first, message, now)| ==>
              ApprovalEntries(approvals, ids, first, message, now)[i].kind == "decision-approval-cancelled"
  {
    if approvals != [] {
      ApprovalEntriesCount(approvals[..|approvals| - 1], ids, first, message, now);
    }
  }

  lemma {:induction false} NothingToCancel(approvals: seq<Approval>, ids: Option<set<string>>)
    requires !SomeToCancel(approvals, ids)
    ensures CountToCancel(approvals, ids) == 0
  {
    if approvals != [] {
      var before := approvals[..|approvals| - 1];
      assert forall i :: 0 <= i < |before| ==> before[i] == approvals[i];
      NothingToCancel(before, ids);
    }
  }

  /** The journal grows by one entry per cancelled lane, then one per cancelled approval. */
  lemma OneEntryPerCancellation(w: Workflow, ids: set<string>, reason: string, now: int, version: nat)
    ensures var w' := CancelLanes(w, ids, reason, now, version);
            && w.journal <= w'.journal
            && |w'.journal| == |w.journal| + CountIn(w.lanes, ids) + CountToCancel(w.approvals, Some(ids))
  {
    hide SomeCancelledStage, CancelledStages, NextNumber, ApprovalEntries, LaneEntries, SomeToCancel;
    var lanes := CancelledLanes(w.lanes, ids, reason, now);
    LaneEntriesAreExact(lanes, ids, NextNumber(w.journal), reason, now);
    SameIdsSameCount(w.lanes, lanes, ids);
    var w1 := WithCancelledLanes(w, ids, reason, now);
    ApprovalEntriesCount(w.approvals, Some(ids), NextNumber(w1.journal), APPROVAL_MESSAGE + reason, now);
    if !SomeToCancel(w.approvals, Some(ids)) {
      NothingToCancel(w.approvals, Some(ids));
    }
  }

  lemma {:induction false} SameIdsSameCount(a: seq<Lane>, b: seq<Lane>, ids: set<string>)
    requires |a| == |b| && forall i :: 0 <= i < |a| ==> a[i].id == b[i].id
    ensures CountIn(a, ids) == CountIn(b, ids)
  {
    if a != [] {
      SameIdsSameCount(a[..|a| - 1], b[..|b| - 1], ids);
    }
  }

  predicate NoLiveLane(w: Workflow, task: string) {
    forall i :: 0 <= i < |w.lanes| && w.lanes[i].taskId == Some(task) ==> IsTerminalLane(w.lanes[i].status)
  }

  predicate NoPendingOn(w: Workflow, ids: set<string>) {
    forall i :: 0 <= i < |w.approvals| && w.approvals[i].laneId in ids ==> !w.approvals[i].status.Pending?
  }

  /** All live lanes of the task end cancelled, with no approval pending on any of them; every other lane
      and approval is untouched. */
  lemma CancellationCloses(w: Workflow, task: string, reason: string, now: int, version: nat)
    ensures var ids := LiveLaneIds(w.lanes, task);
            var w' := CancelLanes(w, ids, reason, now, version);
            && NoLiveLane(w', task) && NoPendingOn(w', ids)
            && |w'.lanes| == |w.lanes| && |w'.approvals| == |w.approvals|
            && (forall i :: 0 <= i < |w.lanes| ==>
                  if w.lanes[i].id in ids then w'.lanes[i].status.Cancelled? && w'.lanes[i].failure == Some(reason)
                  else w'.lanes[i] == w.lanes[i])
            && (forall i :: 0 <= i < |w.approvals| ==>
                  if w.approvals[i].laneId in ids && w.approvals[i].status.Pending?
                    then w'.approvals[i].status.Cancelled?
                  else w'.approvals[i] == w.approvals[i])
  {
    hide CancelledStages, SomeCancelledStage, LaneEntries, ApprovalEntries, NextNumber;
    var ids := LiveLaneIds(w.lanes, task);
    var w1 := WithCancelledLanes(w, ids, reason, now);
    ApprovalsClosed(w1, ids, reason, now);
    forall i | 0 <= i < |w.lanes| && w.lanes[i].taskId == Some(task) && !IsTerminalLane(w.lanes[i].status)
      ensures w.lanes[i].id in ids
    {
    }
  }

  lemma ApprovalsClosed(w: Workflow, ids: set<string>, reason: string, now: int)
    ensures var w' := CancelApprovals(w, Some(ids), APPROVAL_MESSAGE + reason, reason, now);
            && NoPendingOn(w', ids) && |w'.approvals| == |w.approvals| && w'.lanes == w.lanes
            && forall i :: 0 <= i < |w.approvals| ==>
                 if w.approvals[i].laneId in ids && w.approvals[i].status.Pending?
                   then w'.approvals[i].status.Cancelled?
                 else w'.approvals[i] == w.approvals[i]
  {
    hide ApprovalEntries, NextNumber;
    if !SomeToCancel(w.approvals, Some(ids)) {
      forall i | 0 <= i < |w.approvals| && w.approvals[i].laneId in ids
        ensures !w.approvals[i].status.Pending?
      {
        assert !ShouldCancel(w.approvals[i], Some(ids));
      }
    }
  }

  function LaneIdsOf(lanes: seq<Lane>, task: string): set<string> {
    set i | 0 <= i < |lanes| && lanes[i].taskId == Some(task) :: lanes[i].id
  }

  /** Of all the task's lanes, finished ones included, none keeps a pending approval exactly if before the
      call no approval was pending on a lane that had already finished. */
  lemma FinishedLanesKeepApprovals(w: Workflow, task: string, reason: string, now: int, version: nat)
    ensures var ids := LiveLaneIds(w.lanes, task);
            var all := LaneIdsOf(w.lanes, task);
            NoPendingOn(CancelLanes(w, ids, reason, now, version), all) <==> NoPendingOn(w, all - ids)
  {
    hide CancelLanes, LiveLaneIds;
    var ids := LiveLaneIds(w.lanes, task);
    var w' := CancelLanes(w, ids, reason, now, version);
    CancellationCloses(w, task, reason, now, version);
    if NoPendingOn(w', LaneIdsOf(w.lanes, task)) {
      forall i | 0 <= i < |w.approvals| && w.approvals[i].laneId in LaneIdsOf(w.lanes, task) - ids
        ensures !w.approvals[i].status.Pending?
      {
        assert w'.approvals[i] == w.approvals[i];
      }
    }
  }

  /** Such an approval exists: a completed lane whose result waits for a decision. */
  lemma ApprovalOutlivesItsTask(w: Workflow, task: string, lane: Lane, a: Approval, reason: string, now: int,
                                version: nat)
    requires lane.taskId == Some(task) && lane.status.Completed? && a.laneId == lane.id && a.status.Pending?
    requires w.lanes == [lane] && w.approvals == [a]
    ensures var ids := LiveLaneIds(w.lanes, task);
            CancelLanes(w, ids, reason, now, version).approvals[0].status.Pending?
  {
    assert LiveLaneIds(w.lanes, task) == {};
    hide CancelledStages, LaneEntries, ApprovalEntries;
  }

  // ---- stages ---------------------------------------------------------------------

  predicate HasCancelledLane(lanes: seq<Lane>, stage: Stage, ids: set<string>) {
    exists i :: 0 <= i < |lanes| && lanes[i].id in ids && lanes[i].stageId == stage.id
  }

  predicate HasLiveLane(lanes: seq<Lane>, stage: Stage) {
    exists i :: 0 <= i < |lanes| && lanes[i].id in stage.laneIds && !IsTerminalLane(lanes[i].status)
  }

  /** A stage that loses a lane ends cancelled exactly if it then has no live lane; other stages stay as
      they were; and the workflow ends cancelled exactly if it was, or if any stage is, even one
      cancelled long before and unrelated to the task. */
  lemma StagesFollowLanes(w: Workflow, task: string, reason: string, now: int, version: nat)
    ensures var ids := LiveLaneIds(w.lanes, task);
            var w' := CancelLanes(w, ids, reason, now, version);
            && |w'.stages| == |w.stages|
            && (forall i :: 0 <= i < |w.stages| ==>
                  if HasCancelledLane(w.lanes, w.stages[i], ids)
                  then w'.stages[i].status == (if HasLiveLane(w'.lanes, w.stages[i]) then w.stages[i].status
                    else StageStatus.Cancelled)
                  else w'.stages[i] == w.stages[i])
            && (w'.status.Cancelled? <==> w.status.Cancelled? || SomeCancelledStage(w'.stages))
  {
    hide LiveLaneIds, LaneEntries, ApprovalEntries, NextNumber, SomeToCancel, CancelledApprovals;
    var ids := LiveLaneIds(w.lanes, task);
    var lanes := CancelledLanes(w.lanes, ids, reason, now);
    forall i | 0 <= i < |w.stages|
      ensures HasCancelledLane(w.lanes, w.stages[i], ids) <==> HasCancelledLane(lanes, w.stages[i], ids)
    {
      SameCancelledLanes(w.lanes, lanes, w.stages[i], ids);
    }
  }

  lemma SameCancelledLanes(a: seq<Lane>, b: seq<Lane>, stage: Stage, ids: set<string>)
    requires |a| == |b| && forall i :: 0 <= i < |a| ==> a[i].id == b[i].id && a[i].stageId == b[i].stageId
    ensures HasCancelledLane(a, stage, ids) <==> HasCancelledLane(b, stage, ids)
  {
    if HasCancelledLane(a, stage, ids) {
      var i :| 0 <= i < |a| && a[i].id in ids && a[i].stageId == stage.id;
      assert b[i].id in ids;
    }
    if HasCancelledLane(b, stage, ids) {
      var i :| 0 <= i < |b| && b[i].id in ids && b[i].stageId == stage.id;
      assert a[i].id in ids;
    }
  }
}
