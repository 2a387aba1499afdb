/** Takeover arbitration over whole runs. */
module TakeoverRuns {
  import opened Common
  import opened TakeoverProtocol
  import opened TakeoverProofs

  // ---- nobody waits on a client that is gone ----------------------------------

  predicate Involves(r: Request, c: ClientId) {
    r.requester == c || r.target == c
  }

  /** A client that left along the way has no request left. */
  predicate Attends(s: State, s': State) {
    forall r, c :: r in s'.pending && c in s.online && Involves(r, c) ==> c in s'.online
  }

  lemma AttendsTwice(a: State, b: State, c: State)
    requires Follows(a, b) && Follows(b, c) && Attends(a, b) && Attends(b, c)
    ensures Attends(a, c)
  {
  }

  lemma {:induction false} AttendsResolve(s: State, id: string, d: Decision)
    ensures Attends(s, Resolve(s, id, d))
    decreases |s.pending|, 0, 0
  {
    hide Apply, Notify, Drop;
    var found := Find(s.pending, id);
    if found.Some? {
      var r := found.value;
      var s1 := s.(pending := Drop(s.pending, id));
      if Grants(d) {
        AttendsApply(s1, r);
      }
      var s2 := if Grants(d) then Apply(s1, r) else s1;
      var s3 := s2.(settled := s2.settled + multiset{r});
      var resolved := if Grants(d) && Controller(s2, r.task) != Some(r.requester) then Denied else d;
      SettlingFollows(s, id, s2);
      assert Attends(s, s3);
      AttendsNotify(s3, r, resolved);
      AttendsTwice(s, s3, Notify(s3, r, resolved));
    }
  }

  lemma {:induction false} AttendsApply(s: State, r: Request)
    ensures Attends(s, Apply(s, r))
    decreases |s.pending|, 2, 0
  {
    hide Reconcile;
    var s1 := s.(leases := s.leases[r.task := Lease(r.requester, r.action)],
                 grants := s.grants + [Grant(r.task, r.requester)]);
    AttendsReconcile(s1, r.task, s1.pending);
  }

  lemma {:induction false} AttendsReconcile(s: State, t: TaskId, todo: seq<Request>)
    ensures Attends(s, Reconcile(s, t, todo))
    decreases |s.pending|, 1, |todo|
  {
    hide Resolve;
    if todo != [] {
      var d := if todo[0].task == t then ControllerChangeDecision(s, todo[0]) else None;
      if d.Some? {
        AttendsResolve(s, todo[0].id, d.value);
      }
      var s1 := if d.Some? then Resolve(s, todo[0].id, d.value) else s;
      AttendsReconcile(s1, t, todo[1..]);
      AttendsTwice(s, s1, Reconcile(s1, t, todo[1..]));
    }
  }

  lemma {:induction false} AttendsNotify(s: State, r: Request, d: Decision)
    ensures Attends(s, Notify(s, r, d))
    decreases |s.pending|, 3, 0
  {
    hide Tell;
    var m := Result(r.id, r.task, d);
    var s1 := Tell(s, r.requester, m);
    AttendsTell(s, r.requester, m);
    AttendsTell(s1, r.target, m);
    AttendsTwice(s, s1, Tell(s1, r.target, m));
  }

  lemma {:induction false} AttendsTell(s: State, c: ClientId, m: Message)
    ensures Attends(s, Tell(s, c, m))
    decreases |s.pending|, 2, 0
  {
    hide CleanupRequests;
    if c in s.online && c in s.dead {
      var s1 := s.(online := s.online - {c}, dead := s.dead - {c});
      AttendsCleanup(s1, c, s1.pending);
    }
  }

  lemma {:induction false} AttendsCleanup(s: State, c: ClientId, todo: seq<Request>)
    requires Snapshot(s, todo)
    ensures Attends(s, CleanupRequests(s, c, todo))
    ensures forall r :: r in CleanupRequests(s, c, todo).pending && r in todo ==> !Involves(r, c)
    decreases |s.pending|, 1, |todo|
  {
    hide Resolve;
    if todo != [] {
      var r := todo[0];
      var s1 := if r.requester == c then Resolve(s, r.id, Denied)
                else if r.target == c then Resolve(s, r.id, OwnerMissing) else s;
      if r.requester == c {
        AttendsResolve(s, r.id, Denied);
        ResolveRemoves(s, r.id, Denied);
      } else if r.target == c {
        AttendsResolve(s, r.id, OwnerMissing);
        ResolveRemoves(s, r.id, OwnerMissing);
      }
      AttendsCleanup(s1, c, todo[1..]);
      AttendsTwice(s, s1, CleanupRequests(s1, c, todo[1..]));
      assert forall p :: p in todo ==> p == r || p in todo[1..];
    }
  }

  // ---- one step ------------------------------------------------------------------

  predicate AllOnline(s: State) {
    forall r :: r in s.pending ==> r.requester in s.online && r.target in s.online
  }

  /** Every pending request was made by someone else, asks the task's controller (or a controller whose
      lease lapsed unseen), and both sides are connected. */
  ghost predicate Quiescent(s: State) {
    WellFormed(s) && AllOnline(s) && forall t: TaskId :: Quiet(s, t)
  }

  /** Whoever was granted the task along the way is one client, and ends as its controller. */
  ghost predicate OneWinner(s: State, s': State, t: TaskId) {
    NoNewGrants(s, s', t) || exists a :: NewGrantsTo(s, s', t, a) && Controller(s', t) == Some(a)
  }

  lemma AttendedStaysOnline(s: State, s': State)
    requires AllOnline(s) && Attends(s, s') && forall p :: p in s'.pending ==> p in s.pending
    ensures AllOnline(s')
  {
  }

  /** From a quiet task, an outcome leaves the task quiet with at most one winner. */
  lemma OutcomeIsGood(s: State, s': State, t: TaskId)
    requires Outcome(s, s', t)
    ensures Quiet(s', t) && OneWinner(s, s', t)
  {
  }

  lemma QuiescentAfter(s: State, s': State)
    requires WellFormed(s) && AllOnline(s) && Attends(s, s') && forall p :: p in s'.pending ==> p in s.pending
    requires forall t :: Outcome(s, s', t)
    ensures Quiescent(s') && forall t :: OneWinner(s, s', t)
  {
    ShrinkKeepsForm(s, s');
    AttendedStaysOnline(s, s');
    forall t
      ensures Quiet(s', t) && OneWinner(s, s', t)
    {
      OutcomeIsGood(s, s', t);
    }
  }

  lemma ResolveGood(s: State, id: string, d: Decision)
    requires Quiescent(s)
    requires Grants(d) && Find(s.pending, id).Some? ==> Safe(s, Find(s.pending, id).value.target)
    ensures Quiescent(Resolve(s, id, d)) && forall t :: OneWinner(s, Resolve(s, id, d), t)
  {
    hide Resolve, Outcome, WellFormed, Quiet;
    forall t
      ensures Outcome(s, Resolve(s, id, d), t)
    {
      assert Quiet(s, t);
      OutcomeOfResolve(s, id, d, t);
    }
    AttendsResolve(s, id, d);
    QuiescentAfter(s, Resolve(s, id, d));
  }

  lemma TellGood(s: State, c: ClientId, m: Message)
    requires Quiescent(s)
    ensures Quiescent(Tell(s, c, m)) && forall t :: OneWinner(s, Tell(s, c, m), t)
  {
    hide Tell, Outcome, WellFormed, Quiet;
    forall t
      ensures Outcome(s, Tell(s, c, m), t)
    {
      assert Quiet(s, t);
      OutcomeOfTell(s, c, m, t);
    }
    AttendsTell(s, c, m);
    QuiescentAfter(s, Tell(s, c, m));
  }

  lemma AcceptGood(s: State, r: Request)
    requires Quiescent(s) && Accepts(s, r) && r.requester in s.online
    ensures Quiescent(Accept(s, r)) && forall t :: OneWinner(s, Accept(s, r), t)
  {
    hide Tell;
    var s1 := s.(pending := Put(s.pending, r), accepted := s.accepted + multiset{r});
    forall p | p in s.pending && p.task == r.task
      ensures p.target == r.target
    {
      assert Quiet(s, r.task);
    }
    assert WellFormed(s1) && AllOnline(s1);
    forall t
      ensures Quiet(s1, t)
    {
      assert Quiet(s, t);
    }
    TellGood(s1, r.target, Ask(r));
    forall t
      ensures OneWinner(s, Accept(s, r), t)
    {
      assert OneWinner(s1, Accept(s, r), t);
      SameGrants(s, s1, Accept(s, r), t);
    }
  }

  lemma SameGrants(s: State, s1: State, s2: State, t: TaskId)
    requires s1.grants == s.grants && OneWinner(s1, s2, t)
    ensures OneWinner(s, s2, t)
  {
    if a :| NewGrantsTo(s1, s2, t, a) && Controller(s2, t) == Some(a) {
      assert NewGrantsTo(s, s2, t, a);
    }
  }

  lemma DisconnectGood(s: State, c: ClientId)
    requires Quiescent(s)
    ensures Quiescent(DisconnectStep(s, c)) && forall t :: OneWinner(s, DisconnectStep(s, c), t)
  {
    hide CleanupRequests, Outcome;
    if c in s.online {
      var s1 := s.(online := s.online - {c}, dead := s.dead - {c});
      var s2 := CleanupRequests(s1, c, s1.pending);
      forall t
        ensures Outcome(s, s2, t)
      {
        assert Quiet(s, t) && Quiet(s1, t);
        OutcomeOfCleanup(s1, c, s1.pending, t);
        SameOutcome(s, s1, s2, t);
      }
      AttendsCleanup(s1, c, s1.pending);
      assert Attends(s, s2);
      QuiescentAfter(s, s2);
    }
  }

  // ---- lease changes -----------------------------------------------------------------

  predicate LiveTargets(s: State, t: TaskId) {
    forall r :: r in s.pending && r.task == t ==> Safe(s, r.target)
  }

  /** With a lease just changed hands, reconciling its task. */
  lemma ReconcileOutcome(s: State, u: TaskId, t: TaskId)
    requires WellFormed(s) && LiveTargets(s, u)
    requires t != u ==> Quiet(s, t)
    ensures t != u ==> Outcome(s, Reconcile(s, u, s.pending), t)
    ensures Quiet(Reconcile(s, u, s.pending), t) && OneWinner(s, Reconcile(s, u, s.pending), t)
  {
    hide Outcome;
    var s' := Reconcile(s, u, s.pending);
    if t != u || Quiet(s, t) {
      OutcomeOfReconcile(s, u, s.pending, t);
      OutcomeIsGood(s, s', t);
    } else {
      var a := Controller(s, t).value;
      TargetsDiffer(s, t);
      assert Closing(s, t, a);
      ClosingReconcile(s, t, s.pending, t, a);
      ReconcileClears(s, t, s.pending, a);
      assert NewGrantsTo(s, s', t, a);
    }
  }

  lemma TargetsDiffer(s: State, t: TaskId)
    requires WellFormed(s) && !Quiet(s, t)
    ensures Controller(s, t).Some?
    ensures forall r :: r in s.pending && r.task == t ==> r.target != Controller(s, t).value
  {
    var q :| q in s.pending && q.task == t && Controller(s, t) !in {None, Some(q.target)};
  }

  lemma AcquireGood(s: State, u: TaskId, c: ClientId, action: string, takeover: bool)
    requires Quiescent(s) && LiveTargets(s, u)
    ensures Quiescent(AcquireStep(s, u, c, action, takeover))
    ensures forall t :: OneWinner(s, AcquireStep(s, u, c, action, takeover), t)
  {
    hide Reconcile;
    var s1 := s.(leases := s.leases[u := Lease(c, action)]);
    var s2 := AcquireStep(s, u, c, action, takeover);
    if s2 == s1 && u in s.leases && s.leases[u] == Lease(c, action) {
      assert s1.leases == s.leases;
    } else if s2 != s {
      forall t
        ensures Quiet(s2, t) && OneWinner(s, s2, t)
      {
        assert Quiet(s, t);
        ReconcileOutcome(s1, u, t);
        SameGrants(s, s1, s2, t);
      }
      AttendsReconcile(s1, u, s1.pending);
      ShrinkKeepsForm(s1, s2);
      AttendedStaysOnline(s1, s2);
    }
  }

  lemma {:induction false} ReconcileEachOutcome(s: State, tasks: seq<TaskId>, t: TaskId)
    requires Quiescent(s) && forall u :: u in tasks ==> LiveTargets(s, u)
    ensures Outcome(s, ReconcileEach(s, tasks), t) && Attends(s, ReconcileEach(s, tasks))
    decreases |tasks|
  {
    hide Reconcile, Outcome;
    assert Quiet(s, t);
    if tasks == [] {
      Untouched(s, s, t);
    } else {
      var u := tasks[0];
      assert u in tasks && LiveTargets(s, u);
      var s1 := Reconcile(s, u, s.pending);
      var s2 := ReconcileEach(s1, tasks[1..]);
      forall v
        ensures Outcome(s, s1, v)
      {
        assert Quiet(s, v);
        OutcomeOfReconcile(s, u, s.pending, v);
      }
      AttendsReconcile(s, u, s.pending);
      QuiescentAfter(s, s1);
      forall v | v in tasks[1..]
        ensures LiveTargets(s1, v)
      {
        assert v in tasks && LiveTargets(s, v);
      }
      ReconcileEachOutcome(s1, tasks[1..], t);
      AttendsTwice(s, s1, s2);
      forall a | Taken(s1, t, a)
        ensures Closing(s2, t, a) && NewGrantsTo(s1, s2, t, a)
      {
        ClosingEach(s1, tasks[1..], t, a);
      }
      OutcomeTwice(s, s1, s2, t);
    }
  }

  lemma {:induction false} ClosingEach(s: State, tasks: seq<TaskId>, t: TaskId, a: ClientId)
    requires Closing(s, t, a)
    ensures Closing(ReconcileEach(s, tasks), t, a) && NewGrantsTo(s, ReconcileEach(s, tasks), t, a)
    decreases |tasks|
  {
    hide Reconcile;
    if tasks != [] {
      var s1 := Reconcile(s, tasks[0], s.pending);
      ClosingReconcile(s, tasks[0], s.pending, t, a);
      ClosingEach(s1, tasks[1..], t, a);
      GrantsTwice(s, s1, ReconcileEach(s1, tasks[1..]), t, a);
    }
  }

  lemma ReleaseGood(s: State, tasks: seq<TaskId>)
    requires Quiescent(s) && forall u :: u in tasks ==> LiveTargets(s, u)
    ensures Quiescent(ReleaseStep(s, tasks)) && forall t :: OneWinner(s, ReleaseStep(s, tasks), t)
  {
    hide ReconcileEach, Outcome;
    var s1 := s.(leases := s.leases - (set t | t in tasks));
    var s2 := ReconcileEach(s1, tasks);
    forall t
      ensures Quiet(s1, t)
    {
      assert Quiet(s, t);
    }
    forall t
      ensures Outcome(s1, s2, t)
    {
      ReconcileEachOutcome(s1, tasks, t);
    }
    ReconcileEachOutcome(s1, tasks, "");
    QuiescentAfter(s1, s2);
    forall t
      ensures OneWinner(s, s2, t)
    {
      assert OneWinner(s1, s2, t);
      SameGrants(s, s1, s2, t);
    }
  }

  /** A client without connection has no pending requests, so cleaning up after it changes nothing. */
  lemma {:induction false} CleanupOfAbsent(s: State, c: ClientId, todo: seq<Request>)
    requires forall r :: r in todo ==> !Involves(r, c)
    ensures CleanupRequests(s, c, todo) == s
    decreases |todo|
  {
    if todo != [] {
      assert todo[0] in todo && !Involves(todo[0], c);
      assert forall r :: r in todo[1..] ==> r in todo;
      CleanupOfAbsent(s, c, todo[1..]);
    }
  }

  lemma InactiveGood(s: State, c: ClientId, order: seq<TaskId>)
    requires Quiescent(s) && c !in s.online
    ensures Quiescent(ReleaseClientStep(s, c, order)) && forall t :: OneWinner(s, ReleaseClientStep(s, c, order), t)
  {
    hide CleanupRequests, ReleaseStep;
    CleanupOfAbsent(s, c, s.pending);
    if Held(s, c, order) {
      forall u | u in order
        ensures LiveTargets(s, u)
      {
        assert Quiet(s, u);
        assert u in (set t | t in order);
        assert u in HeldBy(s, c);
        assert NoneOn(s, u);
      }
      ReleaseGood(s, order);
    }
  }

  // ---- whole runs ----------------------------------------------------------------------

  /** The clients asked by the requests an event may grant have working sockets. */
  predicate Live(s: State, e: Event) {
    match e
    case RespondTakeover(_, id, _) => Find(s.pending, id).Some? ==> Safe(s, Find(s.pending, id).value.target)
    case RequestTimesOut(id, _) => Find(s.pending, id).Some? ==> Safe(s, Find(s.pending, id).value.target)
    case AcquireLease(t, _, _, _) => LiveTargets(s, t)
    case LeasesReleased(tasks) => forall t :: t in tasks ==> LiveTargets(s, t)
    case _ => true
  }

  /** The cascade theorem: from a quiescent state, whatever one event sets off grants each task to at
      most one client, leaves that client in control, and ends quiescent. */
  lemma CascadeHasOneWinner(s: State, e: Event)
    requires Quiescent(s) && Live(s, e)
    ensures Quiescent(Step(s, e)) && forall t :: OneWinner(s, Step(s, e), t)
  {
    hide Resolve, Tell, CleanupRequests, Accept, AcquireStep, ReleaseStep, ReleaseClientStep, DisconnectStep;
    match e {
      case RequestTakeover(r) =>
        TellGood(s, r.requester, Result(r.id, r.task, OwnerMissing));
        TellGood(s, r.requester, Result(r.id, r.task, Approved));
        if r.requester in s.online && Accepts(s, r) {
          AcceptGood(s, r);
        }
      case RespondTakeover(c, id, approved) =>
        var found := Find(s.pending, id);
        if found.Some? && found.value.target == c {
          ResolveGood(s, id, ResponseDecision(s, found.value, approved));
        }
      case RequestTimesOut(id, presence) =>
        var found := Find(s.pending, id);
        if found.Some? {
          ResolveGood(s, id, TimeoutDecision(s, found.value, presence));
        }
      case AcquireLease(t, c, action, takeover) => AcquireGood(s, t, c, action, takeover);
      case LeasesReleased(tasks) => ReleaseGood(s, tasks);
      case ClientDisconnects(c) => DisconnectGood(s, c);
      case InactiveClientReleased(c, order) =>
        if c !in s.online {
          InactiveGood(s, c, order);
        }
      case _ => EasyEventGood(s, e);
    }
  }

  lemma EasyEventGood(s: State, e: Event)
    requires Quiescent(s) && (e.LeaseLapsesUnseen? || e.ClientConnects? || e.SocketBreaks?)
    ensures Quiescent(Step(s, e)) && forall t :: OneWinner(s, Step(s, e), t)
  {
    forall t: TaskId
      ensures Quiet(Step(s, e), t)
    {
      assert Quiet(s, t);
    }
  }

  predicate LiveRun(s: State, events: seq<Event>)
    decreases |events|
  {
    events == [] || (Live(s, events[0]) && LiveRun(Step(s, events[0]), events[1..]))
  }

  lemma {:induction false} RunsStayQuiescent(s: State, events: seq<Event>)
    requires Quiescent(s) && LiveRun(s, events)
    ensures Quiescent(Run(s, events))
    decreases |events|
  {
    hide Step, Quiescent;
    if events != [] {
      CascadeHasOneWinner(s, events[0]);
      RunsStayQuiescent(Step(s, events[0]), events[1..]);
    }
  }

  lemma OneStep(s: State, e: Event)
    ensures Run(s, [e]) == Step(s, e) && (LiveRun(s, [e]) <==> Live(s, e))
  {
    hide Step, Live;
    assert [e][1..] == [];
  }

  lemma {:induction false} SplitRun(s: State, a: seq<Event>, b: seq<Event>)
    ensures Run(s, a + b) == Run(Run(s, a), b)
    ensures LiveRun(s, a + b) <==> LiveRun(s, a) && LiveRun(Run(s, a), b)
    decreases |a|
  {
    hide Step, Live;
    if a == [] {
      assert a + b == b;
    } else {
      assert (a + b)[1..] == a[1..] + b;
      SplitRun(Step(s, a[0]), a[1..], b);
    }
  }

  /** Building a run from a fresh server one event at a time. */
  lemma Extend(events: seq<Event>, s: State, e: Event)
    requires LiveRun(INIT, events) && Run(INIT, events) == s && Live(s, e)
    ensures LiveRun(INIT, events + [e]) && Run(INIT, events + [e]) == Step(s, e)
  {
    hide Step, Live;
    OneStep(s, e);
    SplitRun(INIT, events, [e]);
  }

  // ---- exactly once -----------------------------------------------------------------------

  /** Every accepted request is either pending or settled, and settled once. */
  predicate Conserved(s: State) {
    multiset(s.pending) + s.settled == s.accepted
  }

  lemma PutFresh(ps: Pending, r: Request)
    requires forall p :: p in ps ==> p.id != r.id
    ensures Put(ps, r) == ps + [r]
  {
    if ps != [] {
      PutFresh(ps[1..], r);
    }
  }

  function One(b: bool): nat {
    if b then 1 else 0
  }

  lemma CountOfCons(q: Request, rest: seq<Request>, x: Request)
    ensures multiset([q] + rest)[x] == One(q == x) + multiset(rest)[x]
  {
  }

  lemma {:induction false} PutCounts(ps: Pending, r: Request, x: Request)
    requires Find(ps, r.id).Some?
    ensures multiset(Put(ps, r))[x] + One(Find(ps, r.id).value == x) == multiset(ps)[x] + One(r == x)
  {
    assert ps == [ps[0]] + ps[1..];
    CountOfCons(ps[0], ps[1..], x);
    if ps[0].id == r.id {
      CountOfCons(r, ps[1..], x);
    } else {
      PutCounts(ps[1..], r, x);
      CountOfCons(ps[0], Put(ps[1..], r), x);
    }
  }

  /** Accepting a request keeps the books exactly when its id is not already pending. */
  lemma AcceptConservesExactly(s: State, r: Request)
    requires Conserved(s)
    ensures Conserved(Accept(s, r)) <==> Find(s.pending, r.id).None?
  {
    hide Tell, Put, Find;
    var s1 := s.(pending := Put(s.pending, r), accepted := s.accepted + multiset{r});
    if Find(s.pending, r.id).None? {
      PutFresh(s.pending, r);
      assert multiset(s1.pending) == multiset(s.pending) + multiset{r};
    } else {
      var lost := Find(s.pending, r.id).value;
      PutCounts(s.pending, r, lost);
      assert s1.accepted[lost] == multiset(s.pending)[lost] + s.settled[lost] + One(r == lost);
      assert (multiset(s1.pending) + s1.settled)[lost] == multiset(s1.pending)[lost] + s1.settled[lost];
    }
  }

  /** Could the event lose a request by reusing its id? */
  predicate FreshId(s: State, e: Event) {
    e.RequestTakeover? && e.request.requester in s.online && Accepts(s, e.request)
    ==> Find(s.pending, e.request.id).None?
  }

  /** Exactly once, whatever the sockets do: an event keeps the books if and only if it does not reuse
      the id of a pending request. */
  lemma StepConservesExactly(s: State, e: Event)
    requires Conserved(s)
    ensures Conserved(Step(s, e)) <==> FreshId(s, e)
  {
    hide Resolve, Tell, CleanupRequests, Accept, Reconcile, ReconcileEach, Find;
    if e.RequestTakeover? && e.request.requester in s.online && Accepts(s, e.request) {
      AcceptConservesExactly(s, e.request);
    }
  }

  predicate FreshRun(s: State, events: seq<Event>)
    decreases |events|
  {
    events == [] || (FreshId(s, events[0]) && FreshRun(Step(s, events[0]), events[1..]))
  }

  lemma {:induction false} ExactlyOnce(s: State, events: seq<Event>)
    requires Conserved(s) && FreshRun(s, events)
    ensures Conserved(Run(s, events))
    decreases |events|
  {
    hide Step, Conserved, FreshId;
    if events != [] {
      StepConservesExactly(s, events[0]);
      ExactlyOnce(Step(s, events[0]), events[1..]);
    }
  }

  /** A server that has just started is quiescent with empty books, so all of its runs are covered. */
  lemma RunsFromStart(events: seq<Event>)
    ensures LiveRun(INIT, events) ==> Quiescent(Run(INIT, events))
    ensures FreshRun(INIT, events) ==> Conserved(Run(INIT, events))
  {
    hide Run, LiveRun, FreshRun;
    if LiveRun(INIT, events) {
      RunsStayQuiescent(INIT, events);
    }
    if FreshRun(INIT, events) {
      ExactlyOnce(INIT, events);
    }
  }
}
