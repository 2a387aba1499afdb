/** What every mutation and restart of `WorkflowHistory` keeps. */
module WorkflowHistoryProofs {
  import opened Common
  import opened WorkflowModel
  import opened WorkflowJournals
  import opened WorkflowHistory

  // ---- what every history keeps -----------------------------------------------

  predicate NoExplicitNumber(e: Event) {
    e.AppendJournal? ==> e.entry.number.None?
  }

  predicate AllNumbered(s: State) {
    forall i :: 0 <= i < |s.workflows| ==> Numbered(s.workflows[i].journal)
  }

  /** Versions are the numbers of mutations: none is used twice. */
  predicate VersionsOk(s: State) {
    && (forall i :: 0 <= i < |s.workflows| ==> 1 <= s.workflows[i].eventVersion <= s.version)
    && (forall i, j :: 0 <= i < j < |s.workflows| ==> s.workflows[i].eventVersion != s.workflows[j].eventVersion)
  }

  lemma CommitKeepsNumbers(s: State, i: nat, w: Workflow, now: int)
    requires AllNumbered(s) && i < |s.workflows| && Numbered(w.journal)
    ensures AllNumbered(Commit(s, i, w, now))
  {
    hide Numbered;
  }

  lemma CommitKeepsVersions(s: State, i: nat, w: Workflow, now: int)
    requires VersionsOk(s) && i < |s.workflows|
    ensures VersionsOk(Commit(s, i, w, now))
  {
  }

  lemma AppendedIsNumbered(w: Workflow, entry: Entry)
    requires Numbered(w.journal) && entry.number.None?
    ensures Numbered(AppendEntry(w, entry).journal)
  {
    ExplicitNumberMustBeNext(w, entry);
  }

  lemma StepsAreNumbered(w: Workflow, appendId: string, plan: Plan, lane: Option<string>, now: int, version: nat)
    requires Numbered(w.journal)
    ensures Numbered(WithSteps(w, appendId, plan, lane, now, version).journal)
  {
    hide ExecutionOf;
    NextAfterNumbered(w.journal);
  }

  lemma {:induction false} CancelAllKeepsNumbers(workflows: seq<Workflow>, task: string, reason: string, now: int,
                                                 version: nat)
    requires forall i :: 0 <= i < |workflows| ==> Numbered(workflows[i].journal)
    ensures AllNumbered(CancelAll(workflows, task, reason, now, version))
    ensures |CancelAll(workflows, task, reason, now, version).workflows| == |workflows|
  {
    hide Numbered, LiveLaneIds, CancelLanes;
    if workflows != [] {
      var w := workflows[|workflows| - 1];
      CancelAllKeepsNumbers(workflows[..|workflows| - 1], task, reason, now, version);
      var before := CancelAll(workflows[..|workflows| - 1], task, reason, now, version);
      CancelLanesKeepsNumbers(w, LiveLaneIds(w.lanes, task), reason, now, before.version + 1);
    }
  }

  lemma RestartKeepsNumbers(s: State, now: int)
    requires AllNumbered(s)
    ensures AllNumbered(Restore(s, now))
  {
    hide RestoreWorkflow;
    forall i | 0 <= i < |s.workflows|
      ensures Numbered(RestoreWorkflow(s.workflows[i], now).journal)
    {
      RestoreNumbers(s.workflows[i], now);
    }
  }

  lemma StepKeepsNumbers(s: State, e: Event)
    requires AllNumbered(s) && Enabled(s, e) && NoExplicitNumber(e)
    ensures AllNumbered(Step(s, e))
  {
    hide AllNumbered, Numbered, Commit, AppendEntry, WithSteps, CancelApprovals, RestoreAll, CancelAll;
    match e {
      case Create(_, _, _, _, _, _) => CreateKeepsNumbers(s, e);
      case CancelForTask(task, reason, now) =>
        AllMeansEach(s);
        CancelAllKeepsNumbers(s.workflows, task, reason, now, s.version);
      case Elsewhere => ElsewhereKeepsNumbers(s);
      case _ => OneKeepsNumbers(s, e);
    }
  }

  lemma ElsewhereKeepsNumbers(s: State)
    requires AllNumbered(s)
    ensures AllNumbered(Step(s, Elsewhere))
  {
  }

  lemma AllMeansEach(s: State)
    requires AllNumbered(s)
    ensures forall i :: 0 <= i < |s.workflows| ==> Numbered(s.workflows[i].journal)
  {
  }

  lemma CreateKeepsNumbers(s: State, e: Event)
    requires AllNumbered(s) && e.Create?
    ensures AllNumbered(Step(s, e))
  {
  }

  lemma OneKeepsNumbers(s: State, e: Event)
    requires AllNumbered(s) && Enabled(s, e) && NoExplicitNumber(e)
    requires !e.Create? && !e.CancelForTask? && !e.Elsewhere?
    ensures AllNumbered(Step(s, e))
  {
    hide AllNumbered, Numbered, Commit, AppendEntry, WithSteps, CancelApprovals;
    AllMeansEach(s);
    var w := s.workflows[e.index];
    match e {
      case AppendSteps(i, id, plan, lane, now) =>
        StepsAreNumbered(w, id, plan, lane, now, s.version + 1);
        CommitKeepsNumbers(s, i, WithSteps(w, id, plan, lane, now, s.version + 1), now);
      case AppendJournal(i, entry, now) =>
        AppendedIsNumbered(w, entry.(at := now));
        CommitKeepsNumbers(s, i, AppendEntry(w, entry.(at := now)), now);
      case AddLane(i, lane, now) =>
        CommitKeepsNumbers(s, i, w.(lanes := w.lanes + [lane], stages := WithStageLane(w.stages, lane, now)), now);
      case UpdateLane(i, id, status, now) =>
        CommitKeepsNumbers(s, i, w.(lanes := WithLaneStatus(w.lanes, id, status, now)), now);
      case AddApproval(i, a, now) =>
        var asked := a.(status := ApprovalStatus.Pending, reason := None, resolvedAt := None);
        CommitKeepsNumbers(s, i, w.(approvals := w.approvals + [asked]), now);
      case ResolveApproval(i, id, status, now) =>
        CommitKeepsNumbers(s, i, w.(approvals := WithApproval(w.approvals, id, status, now)), now);
      case UpdateStatus(i, status, now) => CommitKeepsNumbers(s, i, w.(status := status), now);
      case CancelApprovalsOn(i, ids, reason, now) =>
        CancelApprovalsKeepsNumbers(w, ids, APPROVAL_MESSAGE + reason, reason, now);
        CommitKeepsNumbers(s, i, CancelApprovals(w, ids, APPROVAL_MESSAGE + reason, reason, now), now);
    }
  }

  predicate BothNumbered(d: Server) {
    AllNumbered(d.live) && AllNumbered(d.saved)
  }

  lemma NextKeepsNumbers(d: Server, turn: Turn)
    requires BothNumbered(d) && (turn.Mutation? ==> NoExplicitNumber(turn.event))
    ensures BothNumbered(Next(d, turn))
  {
    hide AllNumbered, Step, Enabled, Restore;
    match turn {
      case Mutation(e) =>
        if Enabled(d.live, e) {
          StepKeepsNumbers(d.live, e);
        }
      case Saved =>
      case Restarted(now) => RestartKeepsNumbers(d.saved, now);
    }
  }

  /** Every journal is numbered 1..n, in memory and in the file, over every history without explicit
      numbers, with saves and restarts wherever they come. */
  lemma {:induction false} JournalsStayNumbered(d: Server, turns: seq<Turn>)
    requires BothNumbered(d)
    requires forall k :: 0 <= k < |turns| && turns[k].Mutation? ==> NoExplicitNumber(turns[k].event)
    ensures BothNumbered(Run(d, turns))
    decreases |turns|
  {
    hide BothNumbered, Next, NoExplicitNumber;
    if turns != [] {
      NextKeepsNumbers(d, turns[0]);
      JournalsStayNumbered(Next(d, turns[0]), turns[1..]);
    }
  }

  // ---- versions -------------------------------------------------------------------

  lemma NoneShare(version: nat)
    ensures VersionsOk(State([], version))
  {
  }

  lemma OneMore(s: State, w: Workflow, version: nat)
    requires VersionsOk(s) && s.version <= version && 1 <= w.eventVersion <= version
    requires s.version < w.eventVersion
             || forall i :: 0 <= i < |s.workflows| ==> s.workflows[i].eventVersion != w.eventVersion
    ensures VersionsOk(State(s.workflows + [w], version))
  {
  }

  lemma StampedWith(w: Workflow, ids: set<string>, reason: string, now: int, version: nat)
    ensures CancelLanes(w, ids, reason, now, version).eventVersion == version
  {
  }

  lemma {:induction false} CancelAllVersions(workflows: seq<Workflow>, task: string, reason: string, now: int,
                                             version: nat)
    requires forall i :: 0 <= i < |workflows| ==> 1 <= workflows[i].eventVersion <= version
    requires forall i, j :: 0 <= i < j < |workflows| ==> workflows[i].eventVersion != workflows[j].eventVersion
    ensures var r := CancelAll(workflows, task, reason, now, version);
            && r.version >= version && |r.workflows| == |workflows| && VersionsOk(r)
            && forall i :: 0 <= i < |workflows| ==>
                 if LiveLaneIds(workflows[i].lanes, task) == {} then r.workflows[i] == workflows[i]
                 else r.workflows[i].eventVersion > version
  {
    hide LiveLaneIds, CancelLanes, VersionsOk;
    if workflows == [] {
      NoneShare(version);
    } else {
      var init, w := workflows[..|workflows| - 1], workflows[|workflows| - 1];
      CancelAllVersions(init, task, reason, now, version);
      var before := CancelAll(init, task, reason, now, version);
      var ids := LiveLaneIds(w.lanes, task);
      if ids == {} {
        OneMore(before, w, before.version);
      } else {
        StampedWith(w, ids, reason, now, before.version + 1);
        OneMore(before, CancelLanes(w, ids, reason, now, before.version + 1), before.version + 1);
      }
    }
  }

  lemma StepKeepsVersions(s: State, e: Event)
    requires VersionsOk(s) && Enabled(s, e)
    ensures VersionsOk(Step(s, e)) && Step(s, e).version >= s.version
  {
    hide AppendEntry, WithSteps, CancelApprovals, CancelAll, VersionsOk;
    match e {
      case CancelForTask(task, reason, now) => CancelForTaskVersions(s, task, reason, now);
      case Create(_, _, _, _, _, _) => CreateKeepsVersions(s, e);
      case Elsewhere => ElsewhereKeepsVersions(s);
      case _ =>
        if Step(s, e) != s {
          var s' := Step(s, e);
          var w := s'.workflows[e.index];
          CommitKeepsVersions(s, e.index, w, e.now);
          assert s' == Commit(s, e.index, w, e.now);
        }
    }
  }

  lemma CancelForTaskVersions(s: State, task: string, reason: string, now: int)
    requires VersionsOk(s)
    ensures var r := CancelAll(s.workflows, task, reason, now, s.version); VersionsOk(r) && r.version >= s.version
  {
    CancelAllVersions(s.workflows, task, reason, now, s.version);
  }

  lemma CreateKeepsVersions(s: State, e: Event)
    requires VersionsOk(s) && e.Create?
    ensures VersionsOk(Step(s, e))
  {
  }

  lemma ElsewhereKeepsVersions(s: State)
    requires VersionsOk(s)
    ensures VersionsOk(Step(s, Elsewhere)) && Step(s, Elsewhere).version > s.version
  {
  }

  lemma RestartKeepsVersions(s: State, now: int)
    requires VersionsOk(s)
    ensures VersionsOk(Restore(s, now))
  {
    hide ExecutionOf, NumberEntries, CancelledApprovals, ApprovalEntries, RestoreLanes, RestoreStages;
  }

  /** No two workflows share a version, in memory or in the file, and neither is ahead of the highest
      version ever taken. */
  predicate ServerOk(d: Server) {
    && VersionsOk(d.live) && VersionsOk(d.saved)
    && d.live.version <= d.highest && d.saved.version <= d.highest
  }

  lemma NextKeepsVersions(d: Server, turn: Turn)
    requires ServerOk(d)
    ensures ServerOk(Next(d, turn))
  {
    hide VersionsOk, Step, Enabled, RestoreAll;
    match turn {
      case Mutation(e) =>
        if Enabled(d.live, e) {
          StepKeepsVersions(d.live, e);
        }
      case Saved =>
      case Restarted(now) => RestartKeepsVersions(d.saved, now);
    }
  }

  lemma {:induction false} RunKeepsVersions(d: Server, turns: seq<Turn>)
    requires ServerOk(d)
    ensures ServerOk(Run(d, turns))
    decreases |turns|
  {
    hide ServerOk, Next;
    if turns != [] {
      NextKeepsVersions(d, turns[0]);
      RunKeepsVersions(Next(d, turns[0]), turns[1..]);
    }
  }

  /** Every version up to the highest has been taken, however often the counter went back. */
  lemma {:induction false} TakenUpToHighest(d: Server, turns: seq<Turn>, v: nat)
    requires ServerOk(d)
    ensures Run(d, turns).highest >= d.highest
    ensures d.highest < v ==> (Taken(d, turns, v) <==> v <= Run(d, turns).highest)
    decreases |turns|
  {
    hide VersionsOk, Step, Enabled, RestoreAll;
    if turns != [] {
      NextKeepsVersions(d, turns[0]);
      TakenUpToHighest(Next(d, turns[0]), turns[1..], v);
      if d.highest < v {
        TakesUpTo(d, turns[0], v);
      }
    }
  }

  lemma TakesUpTo(d: Server, turn: Turn, v: nat)
    requires ServerOk(d) && d.highest < v
    ensures Takes(d, turn, v) <==> v <= Next(d, turn).highest
  {
    hide VersionsOk, Step, Enabled, RestoreAll;
  }

  /** When a version is used a second time. After any history of mutations, saves and restarts, a mutation
      that takes versions takes only new ones if and only if the counter stands at the highest version ever
      taken; and a restart leaves it there if and only if the file it loads holds the last mutation. */
  lemma VersionsAreFreshExactly(turns: seq<Turn>, e: Event, now: int)
    requires var live := Run(FRESH_SERVER, turns).live; Enabled(live, e) && Step(live, e).version > live.version
    ensures var d := Run(FRESH_SERVER, turns);
            && ((forall v: nat :: Takes(d, Mutation(e), v) ==> !Taken(FRESH_SERVER, turns, v))
                <==> d.live.version == d.highest)
            && (Next(d, Restarted(now)).live.version == d.highest <==> d.saved.version == d.highest)
            && VersionsOk(d.live)
  {
    hide VersionsOk, Step, Enabled, RestoreAll, Run, Taken;
    var d := Run(FRESH_SERVER, turns);
    FreshIsOk();
    RunKeepsVersions(FRESH_SERVER, turns);
    forall v: nat | v > 0
      ensures Taken(FRESH_SERVER, turns, v) <==> v <= d.highest
    {
      TakenUpToHighest(FRESH_SERVER, turns, v);
    }
    assert Takes(d, Mutation(e), d.live.version + 1);
  }

  lemma FreshIsOk()
    ensures ServerOk(FRESH_SERVER)
  {
  }

  // ---- told by the restarts ------------------------------------------------------

  /** A restart that loads an older state than the one it replaces. */
  predicate GoesBack(d: Server, turn: Turn) {
    turn.Restarted? && d.saved.version < d.live.version
  }

  function Before(turns: seq<Turn>, k: nat): Server
    requires k <= |turns|
  {
    Run(FRESH_SERVER, turns[..k])
  }

  /** No turn of the run takes a version that an earlier one took. */
  ghost predicate TakenOnce(turns: seq<Turn>) {
    forall k: nat, v: nat ::
      k < |turns| && Takes(Before(turns, k), turns[k], v) ==> !Taken(FRESH_SERVER, turns[..k], v)
  }

  /** No mutation takes a version after a restart that goes back. */
  ghost predicate QuietOnceBack(turns: seq<Turn>) {
    forall j: nat, k: nat, v: nat ::
      j < k < |turns| && GoesBack(Before(turns, j), turns[j]) ==> !Takes(Before(turns, k), turns[k], v)
  }

  lemma {:induction false} RunSnoc(d: Server, turns: seq<Turn>, turn: Turn)
    ensures Run(d, turns + [turn]) == Next(Run(d, turns), turn)
    decreases |turns|
  {
    hide Next;
    if turns == [] {
      assert [turn][1..] == [] && [] + [turn] == [turn];
    } else {
      assert (turns + [turn])[1..] == turns[1..] + [turn];
      RunSnoc(Next(d, turns[0]), turns[1..], turn);
    }
  }

  lemma BeforeNext(turns: seq<Turn>, k: nat)
    requires k < |turns|
    ensures Before(turns, k + 1) == Next(Before(turns, k), turns[k])
  {
    hide Run, Next;
    assert turns[..k + 1] == turns[..k] + [turns[k]];
    RunSnoc(FRESH_SERVER, turns[..k], turns[k]);
  }

  lemma BeforeIsOk(turns: seq<Turn>, k: nat)
    requires k <= |turns|
    ensures ServerOk(Before(turns, k))
    ensures k < |turns| ==>
              forall v: nat :: v > 0 ==> (Taken(FRESH_SERVER, turns[..k], v) <==> v <= Before(turns, k).highest)
  {
    hide Run, Taken, ServerOk;
    FreshIsOk();
    RunKeepsVersions(FRESH_SERVER, turns[..k]);
    forall v: nat | v > 0
      ensures Taken(FRESH_SERVER, turns[..k], v) <==> v <= Before(turns, k).highest
    {
      TakenUpToHighest(FRESH_SERVER, turns[..k], v);
    }
  }

  /** Does the turn take a version at all? Then it takes the next one. */
  lemma TakesNext(d: Server, turn: Turn, v: nat)
    requires ServerOk(d) && Takes(d, turn, v)
    ensures Takes(d, turn, d.live.version + 1) && v > d.live.version
  {
    hide VersionsOk, Step, Enabled;
  }

  lemma TakesNothing(d: Server, turn: Turn)
    requires ServerOk(d) && !Takes(d, turn, d.live.version + 1)
    ensures Next(d, turn).highest == d.highest
    ensures turn.Mutation? ==> Next(d, turn).live.version == d.live.version && Next(d, turn).saved == d.saved
  {
    hide VersionsOk, Enabled, Step, RestoreAll;
    if turn.Mutation? && Enabled(d.live, turn.event) {
      StepKeepsVersions(d.live, turn.event);
    }
  }

  /** While no restart has gone back, the counter stands at the highest version taken. */
  lemma {:induction false} CounterLeads(turns: seq<Turn>, k: nat)
    requires k <= |turns| && forall j: nat :: j < k ==> !GoesBack(Before(turns, j), turns[j])
    ensures Before(turns, k).live.version == Before(turns, k).highest
    decreases k
  {
    hide Run, VersionsOk, Enabled, Step, RestoreAll;
    if k == 0 {
      NothingRun();
      assert turns[..0] == [];
    } else {
      var d := Before(turns, k - 1);
      CounterLeads(turns, k - 1);
      BeforeIsOk(turns, k - 1);
      BeforeNext(turns, k - 1);
      assert !GoesBack(d, turns[k - 1]);
      if turns[k - 1].Mutation? && Enabled(d.live, turns[k - 1].event) {
        StepKeepsVersions(d.live, turns[k - 1].event);
      }
    }
  }

  lemma NothingRun()
    ensures Run(FRESH_SERVER, []) == FRESH_SERVER
  {
  }

  /** After one has, and until a version is taken again, counter and file stay behind. */
  lemma {:induction false} StaysBehind(turns: seq<Turn>, j: nat, k: nat)
    requires j < k <= |turns| && GoesBack(Before(turns, j), turns[j])
    requires forall i: nat :: j < i < k ==> !Takes(Before(turns, i), turns[i], Before(turns, i).live.version + 1)
    ensures var d := Before(turns, k); d.live.version < d.highest && d.saved.version < d.highest
    decreases k
  {
    hide Run, VersionsOk, Enabled, Step, RestoreAll;
    var d := Before(turns, k - 1);
    BeforeIsOk(turns, k - 1);
    BeforeNext(turns, k - 1);
    if k > j + 1 {
      StaysBehind(turns, j, k - 1);
      TakesNothing(d, turns[k - 1]);
    }
  }

  /** The first turn after `j` that takes a version, at or before `k`. */
  lemma {:induction false} FirstTaker(turns: seq<Turn>, j: nat, k: nat) returns (i: nat)
    requires j < k < |turns| && Takes(Before(turns, k), turns[k], Before(turns, k).live.version + 1)
    ensures j < i <= k && Takes(Before(turns, i), turns[i], Before(turns, i).live.version + 1)
    ensures forall m: nat :: j < m < i ==> !Takes(Before(turns, m), turns[m], Before(turns, m).live.version + 1)
    decreases k
  {
    hide Before, Takes;
    if m: nat :| j < m < k && Takes(Before(turns, m), turns[m], Before(turns, m).live.version + 1) {
      i := FirstTaker(turns, j, m);
    } else {
      i := k;
    }
  }

  /** The exact condition, told by what each restart finds in the file: no version is ever taken twice if and
      only if nothing takes a version any more once a restart has loaded an older state than it replaced. */
  lemma TakenOnceExactly(turns: seq<Turn>)
    ensures TakenOnce(turns) <==> QuietOnceBack(turns)
  {
    hide Takes, Taken, Before, GoesBack;
    if TakenOnce(turns) {
      forall j: nat, k: nat, v: nat | j < k < |turns| && GoesBack(Before(turns, j), turns[j])
        ensures !Takes(Before(turns, k), turns[k], v)
      {
        NoTakerOnceBack(turns, j, k, v);
      }
    }
    if QuietOnceBack(turns) {
      forall k: nat, v: nat | k < |turns| && Takes(Before(turns, k), turns[k], v)
        ensures !Taken(FRESH_SERVER, turns[..k], v)
      {
        TakerIsFresh(turns, k, v);
      }
    }
  }

  lemma NoTakerOnceBack(turns: seq<Turn>, j: nat, k: nat, v: nat)
    requires TakenOnce(turns) && j < k < |turns| && GoesBack(Before(turns, j), turns[j])
    ensures !Takes(Before(turns, k), turns[k], v)
  {
    hide Takes, Taken, Before, GoesBack;
    if Takes(Before(turns, k), turns[k], v) {
      BeforeIsOk(turns, k);
      TakesNext(Before(turns, k), turns[k], v);
      var i := FirstTaker(turns, j, k);
      StaysBehind(turns, j, i);
      BeforeIsOk(turns, i);
    }
  }

  lemma TakerIsFresh(turns: seq<Turn>, k: nat, v: nat)
    requires QuietOnceBack(turns) && k < |turns| && Takes(Before(turns, k), turns[k], v)
    ensures !Taken(FRESH_SERVER, turns[..k], v)
  {
    hide Takes, Taken, Before, GoesBack;
    forall j: nat | j < k
      ensures !GoesBack(Before(turns, j), turns[j])
    {
    }
    CounterLeads(turns, k);
    BeforeIsOk(turns, k);
    TakesNext(Before(turns, k), turns[k], v);
  }

  /** Every restart loads a file that holds the last mutation. */
  predicate CleanRestarts(d: Server, turns: seq<Turn>)
    decreases |turns|
  {
    turns == []
    || ((turns[0].Restarted? ==> d.saved.version == d.highest) && CleanRestarts(Next(d, turns[0]), turns[1..]))
  }

  /** So with clean restarts no version is ever used twice. */
  lemma {:induction false} CleanRestartsKeepCount(d: Server, turns: seq<Turn>)
    requires ServerOk(d) && d.live.version == d.highest && CleanRestarts(d, turns)
    ensures Run(d, turns).live.version == Run(d, turns).highest
    decreases |turns|
  {
    hide VersionsOk, Step, Enabled, RestoreAll;
    if turns != [] {
      NextKeepsVersions(d, turns[0]);
      if turns[0].Mutation? && Enabled(d.live, turns[0].event) {
        StepKeepsVersions(d.live, turns[0].event);
      }
      CleanRestartsKeepCount(Next(d, turns[0]), turns[1..]);
    }
  }

  /** A version lost in a crash is taken again, by another workflow. */
  lemma CrashReusesVersion(create: Event, now: int, again: Event)
    requires create.Create? && again.Create?
    ensures var turns := [Mutation(create), Restarted(now)];
            && Taken(FRESH_SERVER, turns, 1) && Takes(Run(FRESH_SERVER, turns), Mutation(again), 1)
  {
    hide RestoreAll, NewWorkflow;
    var turns := [Mutation(create), Restarted(now)];
    var d1 := Next(FRESH_SERVER, turns[0]);
    var d2 := Next(d1, turns[1]);
    assert turns[1..] == [turns[1]] && [turns[1]][1..] == [];
    assert Run(FRESH_SERVER, turns) == Run(d1, [turns[1]]) == Run(d2, []) == d2;
  }

  // ---- closure over all workflows -----------------------------------------------

  /** Cancelling a task's lanes leaves no workflow of the run with a live lane of the task. */
  lemma {:induction false} TaskIsClosedEverywhere(workflows: seq<Workflow>, task: string, reason: string, now: int,
                                                  version: nat)
    ensures var r := CancelAll(workflows, task, reason, now, version);
            && |r.workflows| == |workflows|
            && forall i :: 0 <= i < |workflows| ==>
                 && NoLiveLane(r.workflows[i], task)
                 && NoPendingOn(r.workflows[i], LiveLaneIds(workflows[i].lanes, task))
                 && workflows[i].journal <= r.workflows[i].journal
                 && |r.workflows[i].journal| == |workflows[i].journal|
                      + CountIn(workflows[i].lanes, LiveLaneIds(workflows[i].lanes, task))
                      + CountToCancel(workflows[i].approvals, Some(LiveLaneIds(workflows[i].lanes, task)))
  {
    hide LiveLaneIds, CancelLanes, CountIn, CountToCancel, NoLiveLane, NoPendingOn;
    if workflows != [] {
      var w := workflows[|workflows| - 1];
      var ids := LiveLaneIds(w.lanes, task);
      TaskIsClosedEverywhere(workflows[..|workflows| - 1], task, reason, now, version);
      var before := CancelAll(workflows[..|workflows| - 1], task, reason, now, version);
      CancellationCloses(w, task, reason, now, before.version + 1);
      OneEntryPerCancellation(w, ids, reason, now, before.version + 1);
      if ids == {} {
        NothingLive(w, task);
      }
    }
  }

  lemma LiveOrTerminal(lanes: seq<Lane>, task: string, i: nat)
    requires i < |lanes| && lanes[i].taskId == Some(task)
    ensures IsTerminalLane(lanes[i].status) || lanes[i].id in LiveLaneIds(lanes, task)
  {
  }

  lemma NothingLive(w: Workflow, task: string)
    requires LiveLaneIds(w.lanes, task) == {}
    ensures NoLiveLane(w, task) && NoPendingOn(w, {})
    ensures CountIn(w.lanes, {}) == 0 && CountToCancel(w.approvals, Some({})) == 0
  {
    forall i | 0 <= i < |w.lanes| && w.lanes[i].taskId == Some(task)
      ensures IsTerminalLane(w.lanes[i].status)
    {
      LiveOrTerminal(w.lanes, task, i);
    }
    CountsNothing(w.lanes);
    NothingToCancel(w.approvals, Some({}));
  }

  lemma {:induction false} CountsNothing(lanes: seq<Lane>)
    ensures CountIn(lanes, {}) == 0
  {
    if lanes != [] {
      CountsNothing(lanes[..|lanes| - 1]);
    }
  }

  /** From an empty record on, whatever is saved and whenever it restarts. */
  lemma HistoriesFromStart(turns: seq<Turn>)
    ensures ServerOk(Run(FRESH_SERVER, turns))
    ensures (forall k :: 0 <= k < |turns| && turns[k].Mutation? ==> NoExplicitNumber(turns[k].event))
            ==> BothNumbered(Run(FRESH_SERVER, turns))
    ensures CleanRestarts(FRESH_SERVER, turns)
        ==> Run(FRESH_SERVER, turns).live.version == Run(FRESH_SERVER, turns).highest
  {
    hide Run, CleanRestarts;
    FreshIsOk();
    RunKeepsVersions(FRESH_SERVER, turns);
    if forall k :: 0 <= k < |turns| && turns[k].Mutation? ==> NoExplicitNumber(turns[k].event) {
      JournalsStayNumbered(FRESH_SERVER, turns);
    }
    if CleanRestarts(FRESH_SERVER, turns) {
      CleanRestartsKeepCount(FRESH_SERVER, turns);
    }
  }

  // ---- appended steps -----------------------------------------------------------

  /** Appending steps under the same id again changes nothing, and steps never land in a completed
      workflow: it runs again, without a completion time. */
  lemma StepsAppendOnce(s: State, i: nat, appendId: string, plan: Plan, source: Option<string>, now: int, later: int)
    requires Enabled(s, AppendSteps(i, appendId, plan, source, now)) && appendId !in s.workflows[i].stepAppends
    ensures var s1 := Step(s, AppendSteps(i, appendId, plan, source, now));
            && Enabled(s1, AppendSteps(i, appendId, plan, source, later))
            && Step(s1, AppendSteps(i, appendId, plan, source, later)) == s1
            && !s1.workflows[i].status.Completed?
            && (s.workflows[i].status.Completed?
                ==> s1.workflows[i].status.Running? && s1.workflows[i].completedAt.None?)
            && |s1.workflows[i].stages| == |s.workflows[i].stages| + |plan.stages|
  {
    hide ExecutionOf;
    var w := WithSteps(s.workflows[i], appendId, plan, source, now, s.version + 1);
    assert w.stepAppends[|s.workflows[i].stepAppends|] == appendId;
  }
}
