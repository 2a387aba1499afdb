/** Who controls the task of a pending request, told by the events alone: the client it asks, except
    exactly while that client's lease lapsed unseen and was not taken again. */
module TakeoverClaims {
  import opened Common
  import opened TakeoverProtocol
  import opened TakeoverProofs
  import opened TakeoverRuns

  // ---- told by the events -----------------------------------------------------

  predicate Lapses(e: Event, t: TaskId) {
    e == LeaseLapsesUnseen(t)
  }

  predicate TakenAgain(e: Event, t: TaskId, x: ClientId) {
    e.AcquireLease? && e.task == t && e.client == x
  }

  predicate HoldsAfter(e: Event, t: TaskId, x: ClientId, held: bool) {
    if Lapses(e, t) then false else if TakenAgain(e, t, x) then true else held
  }

  predicate HoldsAfterAll(events: seq<Event>, t: TaskId, x: ClientId, held: bool)
    decreases |events|
  {
    if events == [] then held else HoldsAfterAll(events[1..], t, x, HoldsAfter(events[0], t, x, held))
  }

  /** The lease lapsed at some point and the client did not acquire it after that. */
  ghost predicate LapsedForGood(events: seq<Event>, t: TaskId, x: ClientId) {
    exists k :: LapsedAt(events, k, t, x)
  }

  predicate LapsedAt(events: seq<Event>, k: int, t: TaskId, x: ClientId) {
    0 <= k < |events| && Lapses(events[k], t) && forall j :: k < j < |events| ==> !TakenAgain(events[j], t, x)
  }

  lemma {:induction false} HoldsUnlessLapsed(events: seq<Event>, t: TaskId, x: ClientId, held: bool)
    ensures HoldsAfterAll(events, t, x, held)
            <==> (held || exists k :: 0 <= k < |events| && TakenAgain(events[k], t, x)) && !LapsedForGood(events, t, x)
    decreases |events|
  {
    if events != [] {
      var e, rest := events[0], events[1..];
      HoldsUnlessLapsed(rest, t, x, HoldsAfter(e, t, x, held));
      assert forall k :: 0 <= k < |rest| ==> rest[k] == events[k + 1];
      if LapsedForGood(rest, t, x) {
        var k :| LapsedAt(rest, k, t, x);
        assert LapsedAt(events, k + 1, t, x);
      } else {
        forall k | LapsedAt(events, k, t, x)
          ensures k == 0
        {
          if k > 0 {
            assert LapsedAt(rest, k - 1, t, x);
          }
        }
        assert LapsedForGood(events, t, x) <==> LapsedAt(events, 0, t, x);
      }
      if exists k :: 0 <= k < |rest| && TakenAgain(rest[k], t, x) {
        var k :| 0 <= k < |rest| && TakenAgain(rest[k], t, x);
        assert TakenAgain(events[k + 1], t, x);
      }
      forall k | 0 < k < |events| && TakenAgain(events[k], t, x)
        ensures TakenAgain(rest[k - 1], t, x)
      {
      }
    }
  }

  // ---- one step ---------------------------------------------------------------

  /** While a request of the task stays pending, a cascade does not move the lease. */
  lemma PendingMeansSame(s: State, s': State, r: Request)
    requires Outcome(s, s', r.task) && r in s'.pending
    ensures Controller(s', r.task) == Controller(s, r.task)
  {
  }

  lemma ResolveKeepsClaim(s: State, id: string, d: Decision, r: Request)
    requires Quiescent(s) && r in Resolve(s, id, d).pending
    requires Grants(d) && Find(s.pending, id).Some? ==> Safe(s, Find(s.pending, id).value.target)
    ensures Controller(Resolve(s, id, d), r.task) == Controller(s, r.task)
  {
    hide Resolve, Outcome;
    assert Quiet(s, r.task);
    OutcomeOfResolve(s, id, d, r.task);
    PendingMeansSame(s, Resolve(s, id, d), r);
  }

  lemma TellKeepsClaim(s: State, c: ClientId, m: Message, r: Request)
    requires WellFormed(s) && Quiet(s, r.task) && r in Tell(s, c, m).pending
    ensures Controller(Tell(s, c, m), r.task) == Controller(s, r.task)
  {
    hide Tell, Outcome;
    OutcomeOfTell(s, c, m, r.task);
    PendingMeansSame(s, Tell(s, c, m), r);
  }

  lemma AcceptKeepsClaim(s: State, q: Request, r: Request)
    requires Quiescent(s) && Accepts(s, q) && r in Accept(s, q).pending
    ensures Controller(Accept(s, q), r.task) == Controller(s, r.task)
  {
    hide Tell;
    var s1 := s.(pending := Put(s.pending, q), accepted := s.accepted + multiset{q});
    forall p | p in s.pending && p.task == q.task
      ensures p.target == q.target
    {
      assert Quiet(s, q.task);
    }
    assert WellFormed(s1);
    assert Quiet(s, r.task) && Quiet(s1, r.task);
    TellKeepsClaim(s1, q.target, Ask(q), r);
  }

  lemma RequestKeepsClaim(s: State, q: Request, r: Request)
    requires Quiescent(s) && r in Step(s, RequestTakeover(q)).pending
    ensures Controller(Step(s, RequestTakeover(q)), r.task) == Controller(s, r.task)
  {
    hide Tell, Accept;
    assert Quiet(s, r.task);
    if q.requester in s.online {
      if Controller(s, q.task) != Some(q.target) {
        TellKeepsClaim(s, q.requester, Result(q.id, q.task, OwnerMissing), r);
      } else if q.requester == q.target {
        TellKeepsClaim(s, q.requester, Result(q.id, q.task, Approved), r);
      } else if q.target !in s.online {
        TellKeepsClaim(s, q.requester, Result(q.id, q.task, OwnerMissing), r);
      } else {
        AcceptKeepsClaim(s, q, r);
      }
    }
  }

  /** Reconciling with another client in control closes every request of the task. */
  lemma StrangerClosesTask(s: State, u: TaskId, r: Request)
    requires WellFormed(s) && LiveTargets(s, u) && !Quiet(s, u) && r in s.pending && r.task == u
    ensures r !in Reconcile(s, u, s.pending).pending
  {
    hide Reconcile;
    var a := Controller(s, u).value;
    TargetsDiffer(s, u);
    assert Closing(s, u, a);
    ReconcileClears(s, u, s.pending, a);
  }

  lemma AcquireKeepsClaim(s: State, u: TaskId, c: ClientId, action: string, takeover: bool, r: Request)
    requires Quiescent(s) && LiveTargets(s, u)
    requires r in s.pending && r in AcquireStep(s, u, c, action, takeover).pending
    ensures Controller(AcquireStep(s, u, c, action, takeover), r.task)
            == if u == r.task && c == r.target then Some(c) else Controller(s, r.task)
  {
    hide Reconcile, Outcome;
    var s1 := s.(leases := s.leases[u := Lease(c, action)]);
    assert Quiet(s, r.task);
    if !(u in s.leases && s.leases[u].client != c && !takeover) && !(u in s.leases && s.leases[u] == Lease(c, action)) {
      var s2 := Reconcile(s1, u, s1.pending);
      if u != r.task {
        ReconcileOutcome(s1, u, r.task);
        PendingMeansSame(s1, s2, r);
      } else if c == r.target {
        OnlyTarget(s, r);
        assert Quiet(s1, u);
        OutcomeOfReconcile(s1, u, s1.pending, u);
        PendingMeansSame(s1, s2, r);
      } else {
        assert !Quiet(s1, u);
        StrangerClosesTask(s1, u, r);
      }
    }
  }

  lemma OnlyTarget(s: State, r: Request)
    requires WellFormed(s) && r in s.pending
    ensures forall q :: q in s.pending && q.task == r.task ==> q.target == r.target
  {
  }

  /** Reconciling a task without a controller grants its first request, which closes all others. */
  lemma {:induction false} UnownedTaskCloses(s: State, t: TaskId, todo: seq<Request>)
    requires WellFormed(s) && Quiet(s, t) && LiveTargets(s, t) && Snapshot(s, todo)
    requires Controller(s, t).None? || NoneOn(s, t)
    ensures forall p :: p in Reconcile(s, t, todo).pending && p.task == t ==> p !in todo
    decreases |todo|
  {
    hide Resolve;
    if todo != [] {
      var q := todo[0];
      var d := if q.task == t then ControllerChangeDecision(s, q) else None;
      var s1 := if d.Some? then Resolve(s, q.id, d.value) else s;
      if d.Some? {
        ResolveRemoves(s, q.id, d.value);
        if Find(s.pending, q.id).Some? {
          assert Find(s.pending, q.id).value == q;
          GrantTakes(s, q.id, d.value);
        }
      }
      assert q.task == t ==> q !in s1.pending;
      ShrinkKeepsForm(s, s1);
      if NoneOn(s1, t) {
        NoneStays(s1, t, todo[1..]);
      } else {
        NothingResolved(s, q, d, t);
        UnownedTaskCloses(s1, t, todo[1..]);
      }
      assert forall p :: p in todo ==> p == q || p in todo[1..];
    }
  }

  lemma NothingResolved(s: State, q: Request, d: Option<Decision>, t: TaskId)
    requires d.Some? ==> Find(s.pending, q.id).None? || NoneOn(Resolve(s, q.id, d.value), t)
    requires var s1 := if d.Some? then Resolve(s, q.id, d.value) else s; !NoneOn(s1, t)
    ensures (if d.Some? then Resolve(s, q.id, d.value) else s) == s
  {
  }

  lemma NoneStays(s: State, t: TaskId, todo: seq<Request>)
    requires NoneOn(s, t)
    ensures NoneOn(Reconcile(s, t, todo), t)
  {
    hide Reconcile;
    assert Follows(s, Reconcile(s, t, todo));
  }

  /** Announcing released leases resolves every request of the released tasks and moves no other lease that
      a pending request asks for. */
  lemma {:induction false} EachKeepsClaim(s: State, tasks: seq<TaskId>, r: Request)
    requires Quiescent(s) && (forall u :: u in tasks ==> LiveTargets(s, u))
    requires r in ReconcileEach(s, tasks).pending
    ensures Controller(ReconcileEach(s, tasks), r.task) == Controller(s, r.task)
    ensures r in s.pending && Controller(s, r.task).None? ==> r.task !in tasks
    decreases |tasks|
  {
    hide Reconcile, Outcome;
    ReconcileEachOutcome(s, tasks, r.task);
    PendingMeansSame(s, ReconcileEach(s, tasks), r);
    if r in s.pending && Controller(s, r.task).None? && tasks != [] {
      var u := tasks[0];
      assert u in tasks && LiveTargets(s, u) && Quiet(s, r.task);
      var s1 := Reconcile(s, u, s.pending);
      assert Follows(s1, ReconcileEach(s1, tasks[1..]));
      if u == r.task {
        UnownedTaskCloses(s, u, s.pending);
      }
      FirstReconciled(s, u, r.task);
      PendingMeansSame(s, s1, r);
      forall v | v in tasks[1..]
        ensures LiveTargets(s1, v)
      {
        assert v in tasks && LiveTargets(s, v);
      }
      EachKeepsClaim(s1, tasks[1..], r);
    }
  }

  lemma FirstReconciled(s: State, u: TaskId, t: TaskId)
    requires Quiescent(s) && LiveTargets(s, u)
    ensures Quiescent(Reconcile(s, u, s.pending)) && Outcome(s, Reconcile(s, u, s.pending), t)
  {
    hide Reconcile, Outcome;
    forall v
      ensures Outcome(s, Reconcile(s, u, s.pending), v)
    {
      assert Quiet(s, v);
      OutcomeOfReconcile(s, u, s.pending, v);
    }
    AttendsReconcile(s, u, s.pending);
    QuiescentAfter(s, Reconcile(s, u, s.pending));
  }

  lemma ReleaseKeepsClaim(s: State, tasks: seq<TaskId>, r: Request)
    requires Quiescent(s) && (forall u :: u in tasks ==> LiveTargets(s, u))
    requires r in s.pending && r in ReleaseStep(s, tasks).pending
    ensures Controller(ReleaseStep(s, tasks), r.task) == Controller(s, r.task)
  {
    hide ReconcileEach;
    var s1 := s.(leases := s.leases - (set t | t in tasks));
    forall t
      ensures Quiet(s1, t)
    {
      assert Quiet(s, t);
    }
    EachKeepsClaim(s1, tasks, r);
  }

  lemma DisconnectKeepsClaim(s: State, c: ClientId, r: Request)
    requires Quiescent(s) && r in DisconnectStep(s, c).pending
    ensures Controller(DisconnectStep(s, c), r.task) == Controller(s, r.task)
  {
    hide CleanupRequests, Outcome;
    if c in s.online {
      var s1 := s.(online := s.online - {c}, dead := s.dead - {c});
      var s2 := CleanupRequests(s1, c, s1.pending);
      assert Quiet(s, r.task) && Quiet(s1, r.task);
      OutcomeOfCleanup(s1, c, s1.pending, r.task);
      PendingMeansSame(s1, s2, r);
    }
  }

  /** An absent client is asked by no pending request, so releasing its leases takes none from under one. */
  lemma InactiveKeepsClaim(s: State, c: ClientId, order: seq<TaskId>, r: Request)
    requires Quiescent(s) && c !in s.online && r in s.pending && r in ReleaseClientStep(s, c, order).pending
    ensures Controller(ReleaseClientStep(s, c, order), r.task) == Controller(s, r.task)
  {
    hide CleanupRequests, ReleaseStep;
    CleanupOfAbsent(s, c, s.pending);
    if Held(s, c, order) {
      forall u | u in order
        ensures LiveTargets(s, u)
      {
        assert Quiet(s, u);
        assert u in (set t | t in order);
        assert u in HeldBy(s, c);
        assert NoneOn(s, u);
      }
      ReleaseKeepsClaim(s, order, r);
    }
  }

  /** Every event: the lease under a request that stays pending is lost to an unseen lapse and regained by
      an acquisition of the asked client, and by nothing else. */
  lemma StepKeepsClaim(s: State, e: Event, r: Request)
    requires Quiescent(s) && Live(s, e) && r in s.pending && r in Step(s, e).pending
    ensures Controller(Step(s, e), r.task)
            == if Lapses(e, r.task) then None
               else if TakenAgain(e, r.task, r.target) then Some(r.target)
               else Controller(s, r.task)
  {
    hide Resolve, Tell, Accept, AcquireStep, ReleaseStep, ReleaseClientStep, DisconnectStep;
    match e {
      case RequestTakeover(q) => RequestKeepsClaim(s, q, r);
      case RespondTakeover(c, id, approved) =>
        var found := Find(s.pending, id);
        if found.Some? && found.value.target == c {
          ResolveKeepsClaim(s, id, ResponseDecision(s, found.value, approved), r);
        }
      case RequestTimesOut(id, presence) =>
        var found := Find(s.pending, id);
        if found.Some? {
          ResolveKeepsClaim(s, id, TimeoutDecision(s, found.value, presence), r);
        }
      case AcquireLease(t, c, action, takeover) => AcquireKeepsClaim(s, t, c, action, takeover, r);
      case LeasesReleased(tasks) => ReleaseKeepsClaim(s, tasks, r);
      case ClientDisconnects(c) => DisconnectKeepsClaim(s, c, r);
      case InactiveClientReleased(c, order) =>
        if c !in s.online {
          InactiveKeepsClaim(s, c, order, r);
        }
      case _ =>
    }
  }

  // ---- whole runs -----------------------------------------------------------------

  /** Only a request event makes a request pending. */
  lemma PendingComesFromBefore(s: State, e: Event, r: Request)
    requires r in Step(s, e).pending && e != RequestTakeover(r)
    ensures r in s.pending
  {
    hide Resolve, Tell, CleanupRequests, Reconcile, ReconcileEach, Find, Put;
  }

  lemma {:induction false} PendingThroughout(s: State, events: seq<Event>, r: Request)
    requires r in Run(s, events).pending && RequestTakeover(r) !in events
    ensures r in s.pending
    decreases |events|
  {
    hide Step;
    if events != [] {
      assert events[0] in events && forall e :: e in events[1..] ==> e in events;
      PendingThroughout(Step(s, events[0]), events[1..], r);
      PendingComesFromBefore(s, events[0], r);
    }
  }

  lemma {:induction false} ClaimOverRun(s: State, events: seq<Event>, r: Request)
    requires Quiescent(s) && LiveRun(s, events) && RequestTakeover(r) !in events && r in Run(s, events).pending
    ensures Controller(Run(s, events), r.task)
            == if HoldsAfterAll(events, r.task, r.target, Controller(s, r.task).Some?) then Some(r.target) else None
    decreases |events|
  {
    hide Step, Quiescent, Live, Controller;
    PendingThroughout(s, events, r);
    if events == [] {
      ControllerIsTarget(s, r);
    } else {
      var e := events[0];
      var s1 := Step(s, e);
      assert e in events && forall f :: f in events[1..] ==> f in events;
      PendingThroughout(s1, events[1..], r);
      CascadeHasOneWinner(s, e);
      StepKeepsClaim(s, e, r);
      ClaimOverRun(s1, events[1..], r);
    }
  }

  lemma ControllerIsTarget(s: State, r: Request)
    requires Quiescent(s) && r in s.pending
    ensures Controller(s, r.task) in {None, Some(r.target)}
  {
    assert Quiet(s, r.task);
  }

  /** Along every run from a fresh server, for every accepted request that is still pending: the client it
      asks controls the task, unless its lease lapsed unseen since the acceptance and the client did not
      acquire it again; then, and only then, nobody does. */
  lemma LapseIsTheOnlyException(before: seq<Event>, r: Request, after: seq<Event>)
    requires LiveRun(INIT, before + [RequestTakeover(r)] + after) && RequestTakeover(r) !in after
    requires r.requester in Run(INIT, before).online && Accepts(Run(INIT, before), r)
    ensures var s := Run(INIT, before + [RequestTakeover(r)] + after);
            r in s.pending ==>
              Controller(s, r.task) == if LapsedForGood(after, r.task, r.target) then None else Some(r.target)
  {
    hide Run, LiveRun, Quiescent, Step, Accepts;
    var s0 := Run(INIT, before);
    var s1 := Step(s0, RequestTakeover(r));
    SplitRun(INIT, before, [RequestTakeover(r)] + after);
    SplitRun(s0, [RequestTakeover(r)], after);
    assert before + ([RequestTakeover(r)] + after) == before + [RequestTakeover(r)] + after;
    OneStep(s0, RequestTakeover(r));
    RunsFromStart(before);
    if r in Run(s1, after).pending {
      PendingThroughout(s1, after, r);
      CascadeHasOneWinner(s0, RequestTakeover(r));
      AcceptedHolds(s0, r);
      ClaimOverRun(s1, after, r);
      HoldsUnlessLapsed(after, r.task, r.target, true);
    }
  }

  lemma AcceptedHolds(s: State, r: Request)
    requires Quiescent(s) && r.requester in s.online && Accepts(s, r) && r in Step(s, RequestTakeover(r)).pending
    ensures Controller(Step(s, RequestTakeover(r)), r.task) == Some(r.target)
  {
    hide Accept;
    AcceptKeepsClaim(s, r, r);
  }

  // ---- a run that gets there ----------------------------------------------------

  function Unseen(a: ClientId, x: ClientId): seq<Event> {
    [ClientConnects(x), ClientConnects(a), AcquireLease("t", x, "", false)]
  }

  /** A request is accepted, the lease of the client it asks lapses unseen, and the request stays pending
      with nobody in control. */
  lemma LapsedRequestHangs(a: ClientId, x: ClientId)
    requires a != x
    ensures var r := Request("1", "t", a, x, "", 0);
            var events := Unseen(a, x) + [RequestTakeover(r)] + [LeaseLapsesUnseen("t")];
            && LiveRun(INIT, events)
            && Run(INIT, events).pending == [r] && Controller(Run(INIT, events), "t").None?
  {
    var r := Request("1", "t", a, x, "", 0);
    hide Run, LiveRun;
    var s := OpenedBy(a, x);
    var s1 := s.(pending := [r], accepted := multiset{r}, told := [(x, Ask(r))]);
    assert Put([], r) == [r];
    assert Step(s, RequestTakeover(r)) == s1;
    OneStep(s, RequestTakeover(r));
    SplitRun(INIT, Unseen(a, x), [RequestTakeover(r)]);
    OneStep(s1, LeaseLapsesUnseen("t"));
    SplitRun(INIT, Unseen(a, x) + [RequestTakeover(r)], [LeaseLapsesUnseen("t")]);
  }

  lemma OpenedBy(a: ClientId, x: ClientId) returns (s: State)
    ensures s == INIT.(online := {x, a}, leases := map["t" := Lease(x, "")])
    ensures Run(INIT, Unseen(a, x)) == s && LiveRun(INIT, Unseen(a, x))
  {
    hide Run, LiveRun;
    var e1, e2, e3 := ClientConnects(x), ClientConnects(a), AcquireLease("t", x, "", false);
    var s1 := INIT.(online := {x});
    var s2 := INIT.(online := {x, a});
    s := INIT.(online := {x, a}, leases := map["t" := Lease(x, "")]);
    assert Step(INIT, e1) == s1 && Step(s1, e2) == s2;
    var t := s2.(leases := map["t" := Lease(x, "")]);
    assert Reconcile(t, "t", []) == t;
    assert Step(s2, e3) == s;
    OneStep(INIT, e1);
    OneStep(s1, e2);
    OneStep(s2, e3);
    SplitRun(s1, [e2], [e3]);
    SplitRun(INIT, [e1], [e2] + [e3]);
    assert [e1] + ([e2] + [e3]) == Unseen(a, x);
  }
}
