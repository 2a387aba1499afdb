/** Exactly when a takeover event has a single winner although one socket is broken and nobody noticed. */
module TakeoverExact {
  import opened Common
  import opened TakeoverProtocol
  import opened TakeoverProofs
  import opened TakeoverRuns
  import opened TakeoverClaims
  import opened TakeoverFates

  // ---- the exact condition ------------------------------------------------------

  /** The first winner keeps the task through the cascade. */
  predicate Keeps(lease: Lease, others: seq<Request>) {
    Cascade(lease, others).holder == lease.client
  }

  /** A request that asks `x` is granted: its requester keeps the task. */
  predicate ResolveFits(s: State, id: string, d: Decision, x: ClientId) {
    var found := Find(s.pending, id);
    found.Some? && Grants(d) && found.value.target == x ==>
      Keeps(LeaseFor(found.value), On(Drop(s.pending, id), found.value.task))
  }

  predicate Takes(s: State, t: TaskId, c: ClientId, takeover: bool) {
    !(t in s.leases && s.leases[t].client != c && !takeover)
  }

  /** A client acquires a task that others ask `x` for: it keeps the task, or was never granted it as well. */
  predicate AcquireFits(s: State, t: TaskId, c: ClientId, action: string, takeover: bool, x: ClientId) {
    var qs := On(s.pending, t);
    Takes(s, t, c, takeover) && qs != [] && qs[0].target == x && c != x ==>
      var f := Cascade(Lease(c, action), qs);
      f.holder == c || !f.granted
  }

  predicate Uninvolved(qs: seq<Request>, x: ClientId) {
    forall r :: r in qs ==> !Involves(r, x)
  }

  /** Leases are released: of the first released task with a request by or to `x`, the first request is
      granted, and if it asks `x` its requester keeps the task. */
  predicate ReleaseFits(ps: seq<Request>, tasks: seq<TaskId>, x: ClientId)
    decreases |tasks|
  {
    tasks == []
    || (var qs := On(ps, tasks[0]);
        if Uninvolved(qs, x) || qs == [] then ReleaseFits(ps, tasks[1..], x)
        else (qs[0].target == x ==> Keeps(LeaseFor(qs[0]), qs[1..])))
  }

  predicate Fits(s: State, e: Event, x: ClientId) {
    match e
    case RespondTakeover(c, id, approved) =>
      var found := Find(s.pending, id);
      found.Some? && found.value.target == c ==> ResolveFits(s, id, ResponseDecision(s, found.value, approved), x)
    case RequestTimesOut(id, presence) =>
      var found := Find(s.pending, id);
      found.Some? ==> ResolveFits(s, id, TimeoutDecision(s, found.value, presence), x)
    case AcquireLease(t, c, action, takeover) => AcquireFits(s, t, c, action, takeover, x)
    case LeasesReleased(tasks) => ReleaseFits(s.pending, tasks, x)
    case _ => true
  }

  /** No task was granted to two clients, and whoever was granted one ended in control of it. */
  ghost predicate SingleWinner(s: State, s': State) {
    forall t: TaskId :: OneWinner(s, s', t)
  }

  // ---- the condition counted --------------------------------------------------------

  predicate DistinctRequesters(qs: seq<Request>) {
    forall i, j :: 0 <= i < j < |qs| ==> qs[i].requester != qs[j].requester
  }

  /** When every client asks for the task once: the first winner keeps it if and only if at most one other
      client asks. */
  lemma KeepsMeansFew(q: Request, others: seq<Request>)
    requires DistinctRequesters([q] + others)
    ensures Keeps(LeaseFor(q), others) <==> |others| < 2
  {
    var all := [q] + others;
    forall i | 0 <= i < |others|
      ensures others[i].requester != q.requester
    {
      assert all[i + 1] == others[i] && all[0] == q;
    }
    if |others| >= 2 {
      assert others[1..][0] == others[1];
    }
  }

  /** And a client acquires it without a second winner if and only if it is not among the first two that ask
      or few enough ask. */
  lemma AcquireMeansFew(c: ClientId, action: string, qs: seq<Request>)
    requires DistinctRequesters(qs)
    ensures var f := Cascade(Lease(c, action), qs);
            (f.holder == c || !f.granted)
            <==> if qs != [] && qs[0].requester == c then |qs| < (if qs[0].action == action then 2 else 3)
                 else if |qs| >= 2 && qs[1].requester == c && qs[1].action == action then |qs| < 3
                 else true
  {
    var lease := Lease(c, action);
    if qs != [] {
      var rest := qs[1..];
      if |qs| >= 2 {
        assert rest[0] == qs[1];
      }
      if |qs| >= 3 {
        assert rest[1..][0] == qs[2];
      }
      if qs[0].requester == c && qs[0].action != action && rest != [] {
        assert rest[0].requester != c;
      }
    }
  }

  // ---- whoever is told leaves -------------------------------------------------------

  /** Both sides of every request that was resolved were told, so if their socket was broken they left. */
  predicate Told(s: State, s': State) {
    forall r, c :: r in s.pending && r !in s'.pending && Involves(r, c) && c in s.dead ==> c !in s'.online
  }

  lemma ToldTwice(a: State, b: State, c: State)
    requires Follows(a, b) && Follows(b, c) && Told(a, b) && Told(b, c)
    ensures Told(a, c)
  {
    forall r, x | r in a.pending && r !in c.pending && Involves(r, x) && x in a.dead
      ensures x !in c.online
    {
      if x in b.online {
        assert x in b.online * a.dead;
      }
    }
  }

  lemma {:induction false} ToldResolve(s: State, id: string, d: Decision)
    ensures Told(s, Resolve(s, id, d))
    decreases |s.pending|, 0, 0
  {
    hide Apply, Notify, Drop;
    var found := Find(s.pending, id);
    if found.Some? {
      var r := found.value;
      var s1 := s.(pending := Drop(s.pending, id));
      if Grants(d) {
        ToldApply(s1, r);
      }
      var s2 := if Grants(d) then Apply(s1, r) else s1;
      var s3 := s2.(settled := s2.settled + multiset{r});
      var resolved := if Grants(d) && Controller(s2, r.task) != Some(r.requester) then Denied else d;
      ToldNotify(s3, r, resolved);
      ToldWithOne(s, id, s1, s2, s3, r, resolved);
    }
  }

  lemma ToldWithOne(s: State, id: string, s1: State, s2: State, s3: State, r: Request, d: Decision)
    requires Find(s.pending, id) == Some(r) && s1 == s.(pending := Drop(s.pending, id))
    requires Follows(s1, s2) && s3 == s2.(settled := s2.settled + multiset{r})
    requires Told(s1, s2) && Told(s3, Notify(s3, r, d))
    ensures Told(s, Notify(s3, r, d))
  {
    hide Notify, Drop, Find;
    var s4 := Notify(s3, r, d);
    forall q, c | q in s.pending && q !in s4.pending && Involves(q, c) && c in s.dead
      ensures c !in s4.online
    {
      if c in s2.online {
        assert c in s2.online * s1.dead;
        if q == r {
          NotifyLeaves(s3, r, d, c);
        } else {
          SameId(s.pending, q, id);
        }
      }
    }
  }

  lemma SameId(ps: Pending, q: Request, id: string)
    requires q in ps && Find(ps, id).Some? && q != Find(ps, id).value
    ensures q in Drop(ps, id)
  {
    hide Drop;
    if q.id == id {
      FindMember(ps, q);
    }
  }

  lemma {:induction false} ToldApply(s: State, r: Request)
    ensures Told(s, Apply(s, r))
    decreases |s.pending|, 2, 0
  {
    hide Reconcile;
    var s1 := s.(leases := s.leases[r.task := Lease(r.requester, r.action)],
                 grants := s.grants + [Grant(r.task, r.requester)]);
    ToldReconcile(s1, r.task, s1.pending);
  }

  lemma {:induction false} ToldReconcile(s: State, t: TaskId, todo: seq<Request>)
    ensures Told(s, Reconcile(s, t, todo))
    decreases |s.pending|, 1, |todo|
  {
    hide Resolve;
    if todo != [] {
      var d := if todo[0].task == t then ControllerChangeDecision(s, todo[0]) else None;
      if d.Some? {
        ToldResolve(s, todo[0].id, d.value);
      }
      var s1 := if d.Some? then Resolve(s, todo[0].id, d.value) else s;
      ToldReconcile(s1, t, todo[1..]);
      ToldTwice(s, s1, Reconcile(s1, t, todo[1..]));
    }
  }

  lemma {:induction false} ToldNotify(s: State, r: Request, d: Decision)
    ensures Told(s, Notify(s, r, d))
    decreases |s.pending|, 3, 0
  {
    hide Tell;
    var m := Result(r.id, r.task, d);
    var s1 := Tell(s, r.requester, m);
    ToldTell(s, r.requester, m);
    ToldTell(s1, r.target, m);
    ToldTwice(s, s1, Tell(s1, r.target, m));
  }

  lemma {:induction false} ToldTell(s: State, c: ClientId, m: Message)
    ensures Told(s, Tell(s, c, m))
    decreases |s.pending|, 2, 0
  {
    hide CleanupRequests;
    if c in s.online && c in s.dead {
      var s1 := s.(online := s.online - {c}, dead := s.dead - {c});
      ToldCleanup(s1, c, s1.pending);
      var s2 := CleanupRequests(s1, c, s1.pending);
      forall r, x | r in s.pending && r !in s2.pending && Involves(r, x) && x in s.dead
        ensures x !in s2.online
      {
        if x == c {
          assert x !in s1.online;
        } else {
          assert x in s1.dead;
        }
      }
    }
  }

  lemma {:induction false} ToldCleanup(s: State, c: ClientId, todo: seq<Request>)
    ensures Told(s, CleanupRequests(s, c, todo))
    decreases |s.pending|, 1, |todo|
  {
    hide Resolve;
    if todo != [] {
      var r := todo[0];
      var s1 := if r.requester == c then Resolve(s, r.id, Denied)
                else if r.target == c then Resolve(s, r.id, OwnerMissing) else s;
      if r.requester == c {
        ToldResolve(s, r.id, Denied);
      } else if r.target == c {
        ToldResolve(s, r.id, OwnerMissing);
      }
      ToldCleanup(s1, c, todo[1..]);
      ToldTwice(s, s1, CleanupRequests(s1, c, todo[1..]));
    }
  }

  // ---- one request ------------------------------------------------------------------

  lemma OthersAreSafe(s: State, x: ClientId, c: ClientId)
    requires OnlyBroken(s, x) && c != x
    ensures Safe(s, c)
  {
    assert c in s.online && c in s.dead ==> c in s.online * s.dead;
  }

  lemma AsksTheTarget(s: State, r: Request)
    requires WellFormed(s) && r in s.pending
    ensures AsksOnly(s, r.task, r.target)
  {
  }

  /** Two clients were granted the task. */
  ghost predicate Clash(s: State, s': State, t: TaskId) {
    exists a, b :: a != b && GrantedTo(s, s', t, a) && GrantedTo(s, s', t, b)
  }

  lemma ClashIsNoWinner(s: State, s': State, t: TaskId)
    requires Clash(s, s', t)
    ensures !OneWinner(s, s', t)
  {
    var a, b :| a != b && GrantedTo(s, s', t, a) && GrantedTo(s, s', t, b);
    var i :| |s.grants| <= i < |s'.grants| && s'.grants[i] == Grant(t, a);
    var j :| |s.grants| <= j < |s'.grants| && s'.grants[j] == Grant(t, b);
    assert s'.grants[i].task == t && s'.grants[j].task == t;
  }

  lemma ClashStays(s: State, s1: State, s2: State, t: TaskId)
    requires Follows(s, s1) && Follows(s1, s2) && (Clash(s, s1, t) || Clash(s1, s2, t))
    ensures Clash(s, s2, t)
  {
    hide GrantedTo;
    if Clash(s, s1, t) {
      var a, b :| a != b && GrantedTo(s, s1, t, a) && GrantedTo(s, s1, t, b);
      GrantedStays(s, s1, s2, t, a);
      GrantedStays(s, s1, s2, t, b);
    } else {
      var a, b :| a != b && GrantedTo(s1, s2, t, a) && GrantedTo(s1, s2, t, b);
      GrantedStays(s, s1, s2, t, a);
      GrantedStays(s, s1, s2, t, b);
    }
  }

  /** A granted task ends well or with a clash. */
  lemma FateOrClash(s: State, s': State, t: TaskId, h: ClientId, f: Fate)
    requires Fated(s, s', t, h, f) && f.granted
    ensures if f.holder == h then Outcome(s, s', t) else Clash(s, s', t)
  {
    if f.holder == h {
      assert NewGrantsTo(s, s', t, h);
    } else {
      assert GrantedTo(s, s', t, f.holder) && GrantedTo(s, s', t, h);
    }
  }

  lemma ResolveExactly(s: State, id: string, d: Decision, x: ClientId)
    requires Quiescent(s) && OnlyBroken(s, x)
    ensures SingleWinner(s, Resolve(s, id, d)) <==> ResolveFits(s, id, d, x)
  {
    hide Resolve, OneWinner, Outcome, Cascade, Fated, Clash, Drop, On, WellFormed, AsksOnly;
    var found := Find(s.pending, id);
    if found.Some? && Grants(d) && found.value.target == x {
      var q := found.value;
      assert Quiet(s, q.task);
      AsksTheTarget(s, q);
      NotItsLease(s, q);
      var f := Cascade(LeaseFor(q), On(Drop(s.pending, id), q.task)).(granted := true);
      ResolveFates(s, q, d, x);
      FateOrClash(s, Resolve(s, id, d), q.task, q.requester, f);
      if f.holder == q.requester {
        OutcomeIsGood(s, Resolve(s, id, d), q.task);
      } else {
        ClashIsNoWinner(s, Resolve(s, id, d), q.task);
      }
      forall t | t != q.task
        ensures OneWinner(s, Resolve(s, id, d), t)
      {
        assert Quiet(s, t);
        OutcomeOfResolve(s, id, d, t);
        OutcomeIsGood(s, Resolve(s, id, d), t);
      }
    } else {
      if found.Some? && found.value.target != x {
        OthersAreSafe(s, x, found.value.target);
      }
      ResolveGood(s, id, d);
    }
  }

  lemma NotItsLease(s: State, q: Request)
    requires WellFormed(s) && Quiet(s, q.task) && q in s.pending
    ensures !(q.task in s.leases && s.leases[q.task] == LeaseFor(q))
  {
  }

  // ---- an acquisition -----------------------------------------------------------------

  /** With the asked client in control nothing is resolved. */
  lemma {:induction false} NothingToReconcile(s: State, t: TaskId, todo: seq<Request>)
    requires forall r :: r in todo && r.task == t ==> Controller(s, t) == Some(r.target) && r.requester != r.target
    ensures Reconcile(s, t, todo) == s
    decreases |todo|
  {
    hide Resolve;
    if todo != [] {
      assert todo[0] in todo && forall r :: r in todo[1..] ==> r in todo;
      NothingToReconcile(s, t, todo[1..]);
    }
  }

  lemma AcquireExactly(s: State, t: TaskId, c: ClientId, action: string, takeover: bool, x: ClientId)
    requires Quiescent(s) && OnlyBroken(s, x)
    ensures SingleWinner(s, AcquireStep(s, t, c, action, takeover))
            <==> AcquireFits(s, t, c, action, takeover, x)
  {
    hide Reconcile, OneWinner, Cascade, On;
    var qs := On(s.pending, t);
    OnMembers(s.pending, t);
    if qs == [] || qs[0].target != x {
      if qs != [] {
        assert qs[0] in qs;
        AsksTheTarget(s, qs[0]);
        OthersAreSafe(s, x, qs[0].target);
      }
      assert LiveTargets(s, t);
      AcquireGood(s, t, c, action, takeover);
    } else {
      assert qs[0] in qs;
      AsksTheTarget(s, qs[0]);
      if !Takes(s, t, c, takeover) {
        NothingWon(s);
      } else if c == x {
        AcquireByTarget(s, t, x, action);
      } else {
        AcquireByOther(s, t, c, action, x);
      }
    }
  }

  lemma NothingWon(s: State)
    ensures SingleWinner(s, s)
  {
  }

  lemma AcquireByTarget(s: State, t: TaskId, x: ClientId, action: string)
    requires AsksOnly(s, t, x) && Takes(s, t, x, true)
    ensures forall takeover :: Takes(s, t, x, takeover) ==> SingleWinner(s, AcquireStep(s, t, x, action, takeover))
  {
    hide Reconcile;
    var s1 := s.(leases := s.leases[t := Lease(x, action)]);
    NothingToReconcile(s1, t, s1.pending);
    forall u
      ensures OneWinner(s, s1, u)
    {
    }
  }

  lemma AcquireByOther(s: State, t: TaskId, c: ClientId, action: string, x: ClientId)
    requires Quiescent(s) && OnlyBroken(s, x) && AsksOnly(s, t, x) && c != x
    requires On(s.pending, t) != []
    ensures var f := Cascade(Lease(c, action), On(s.pending, t));
            forall takeover :: Takes(s, t, c, takeover) ==>
              (SingleWinner(s, AcquireStep(s, t, c, action, takeover)) <==> f.holder == c || !f.granted)
  {
    hide Reconcile, OneWinner, Cascade, On, Fated, Outcome;
    var s1 := s.(leases := s.leases[t := Lease(c, action)]);
    var s2 := Reconcile(s1, t, s1.pending);
    var f := Cascade(Lease(c, action), On(s.pending, t));
    ReconcileFates(s1, t, s1.pending, x);
    FateDecides(s1, s2, t, c, f);
    forall u | u != t
      ensures OneWinner(s1, s2, u)
    {
      assert Quiet(s, u) && Quiet(s1, u);
      OutcomeOfReconcile(s1, t, s1.pending, u);
      OutcomeIsGood(s1, s2, u);
    }
    forall u
      ensures OneWinner(s, s2, u) <==> OneWinner(s1, s2, u)
    {
      SameWinner(s, s1, s2, u);
    }
    assert Quiet(s, t);
    HeldByOther(s, t, c, action, x);
    assert forall takeover :: Takes(s, t, c, takeover) ==> AcquireStep(s, t, c, action, takeover) == s2;
    assert OneWinner(s, s2, t) <==> f.holder == c || !f.granted;
  }

  lemma SameWinner(s: State, s1: State, s2: State, u: TaskId)
    requires s1.grants == s.grants
    ensures OneWinner(s, s2, u) <==> OneWinner(s1, s2, u)
  {
    if OneWinner(s1, s2, u) {
      SameGrants(s, s1, s2, u);
    }
    if OneWinner(s, s2, u) {
      SameGrants(s1, s, s2, u);
    }
  }

  lemma HeldByOther(s: State, t: TaskId, c: ClientId, action: string, x: ClientId)
    requires WellFormed(s) && Quiet(s, t) && AsksOnly(s, t, x) && c != x && On(s.pending, t) != []
    ensures !(t in s.leases && s.leases[t] == Lease(c, action))
  {
    hide On;
    OnMembers(s.pending, t);
    assert On(s.pending, t)[0] in On(s.pending, t);
  }

  // ---- a release ------------------------------------------------------------------------

  lemma OutcomeThen(s: State, s1: State, s2: State, tasks: seq<TaskId>, t: TaskId)
    requires Follows(s, s1) && s2 == ReconcileEach(s1, tasks)
    requires Outcome(s, s1, t) && Outcome(s1, s2, t)
    ensures Outcome(s, s2, t)
  {
    hide ReconcileEach, Outcome;
    forall a | Taken(s1, t, a)
      ensures Closing(s2, t, a) && NewGrantsTo(s1, s2, t, a)
    {
      TakenIsClosing(s1, t, a);
      ClosingEach(s1, tasks, t, a);
    }
    OutcomeTwice(s, s1, s2, t);
  }

  lemma AllGoodFrom(s: State, s1: State, tasks: seq<TaskId>)
    requires Follows(s, s1) && Quiescent(s1) && AllSafe(s1) && forall t :: Outcome(s, s1, t)
    ensures forall t :: Outcome(s, ReconcileEach(s1, tasks), t)
  {
    hide ReconcileEach, Outcome, Quiescent;
    AllSafeMeansEach(s1);
    forall t
      ensures Outcome(s, ReconcileEach(s1, tasks), t)
    {
      ReconcileEachOutcome(s1, tasks, t);
      OutcomeThen(s, s1, ReconcileEach(s1, tasks), tasks, t);
    }
  }

  lemma GoneMeansSafe(s: State, s1: State, x: ClientId)
    requires OnlyBroken(s, x) && Follows(s, s1) && x !in s1.online
    ensures AllSafe(s1)
  {
    assert s1.online * s1.dead <= s.online * s.dead <= {x};
  }

  /** Nobody holds these tasks, or nobody asks for them. */
  predicate Free(s: State, tasks: seq<TaskId>) {
    forall u :: u in tasks ==> u !in s.leases || NoneOn(s, u)
  }

  /** Announcing the release of a task that has nothing to do with the broken socket. */
  lemma UninvolvedStep(s: State, u: TaskId, x: ClientId)
    requires Quiescent(s) && OnlyBroken(s, x) && (u !in s.leases || NoneOn(s, u)) && Uninvolved(On(s.pending, u), x)
    ensures var s1 := Reconcile(s, u, s.pending);
            && Quiescent(s1) && OnlyBroken(s1, x) && NoneOn(s1, u) && Follows(s, s1)
            && (forall t :: Outcome(s, s1, t))
            && (forall t :: t != u ==> Frame(s, s1, t))
  {
    hide Reconcile, Outcome, On, Quiet;
    OnMembers(s.pending, u);
    forall r | r in s.pending && r.task == u
      ensures Safe(s, r.requester) && Safe(s, r.target)
    {
      assert !Involves(r, x);
      OthersAreSafe(s, x, r.requester);
      OthersAreSafe(s, x, r.target);
    }
    var s1 := Reconcile(s, u, s.pending);
    forall t
      ensures Outcome(s, s1, t)
    {
      FirstReconciled(s, u, t);
    }
    FirstReconciled(s, u, u);
    assert Quiet(s, u);
    UnownedTaskCloses(s, u, s.pending);
    assert Follows(s, s1);
    forall t | t != u
      ensures Frame(s, s1, t)
    {
      FrameReconcile(s, u, s.pending, t);
    }
    var other := u + "'";
    assert |other| != |u|;
    assert Frame(s, s1, other);
  }

  lemma FreeStays(s: State, s1: State, u: TaskId, tasks: seq<TaskId>)
    requires Free(s, tasks) && Follows(s, s1) && NoneOn(s1, u)
    requires forall t :: t != u ==> (t in s1.leases <==> t in s.leases)
    ensures Free(s1, tasks)
  {
  }

  /** The condition looks at the requests for involved tasks only. */
  lemma {:induction false} FitsUnchanged(ps: seq<Request>, qs: seq<Request>, u: TaskId, tasks: seq<TaskId>, x: ClientId)
    requires forall t :: t != u ==> On(qs, t) == On(ps, t)
    requires On(qs, u) == [] && Uninvolved(On(ps, u), x)
    ensures ReleaseFits(qs, tasks, x) <==> ReleaseFits(ps, tasks, x)
    decreases |tasks|
  {
    hide On, Keeps;
    if tasks != [] {
      FitsUnchanged(ps, qs, u, tasks[1..], x);
    }
  }

  lemma NoneOnMeansEmpty(s: State, u: TaskId)
    ensures NoneOn(s, u) <==> On(s.pending, u) == []
  {
    OnMembers(s.pending, u);
    if On(s.pending, u) != [] {
      assert On(s.pending, u)[0] in On(s.pending, u);
    }
  }

  /** Announcing the release of the first task with a request by or to `x`. */
  lemma InvolvedStep(s: State, u: TaskId, x: ClientId)
    requires Quiescent(s) && OnlyBroken(s, x) && (u !in s.leases || NoneOn(s, u))
    requires !Uninvolved(On(s.pending, u), x)
    ensures var qs := On(s.pending, u);
            var s1 := Reconcile(s, u, s.pending);
            && qs != [] && Follows(s, s1) && AllSafe(s1)
            && if qs[0].target == x ==> Keeps(LeaseFor(qs[0]), qs[1..])
               then Quiescent(s1) && forall t :: Outcome(s, s1, t)
               else Clash(s, s1, u)
  {
    hide Reconcile, Outcome, On, Quiet, Cascade, Fated, Clash;
    var qs := On(s.pending, u);
    var s1 := Reconcile(s, u, s.pending);
    OnMembers(s.pending, u);
    NoneOnMeansEmpty(s, u);
    assert Follows(s, s1) && qs[0] in qs;
    assert Quiet(s, u);
    if qs[0].target == x {
      AsksTheTarget(s, qs[0]);
      UnownedFates(s, u, s.pending, x);
      GoneMeansSafe(s, s1, x);
      FateOrClash(s, s1, u, qs[0].requester, Cascade(LeaseFor(qs[0]), qs[1..]).(granted := true));
      if Keeps(LeaseFor(qs[0]), qs[1..]) {
        OtherTasks(s, u);
        AttendsReconcile(s, u, s.pending);
        QuiescentAfter(s, s1);
      }
    } else {
      RequesterLeaves(s, u, x);
    }
  }

  lemma OtherTasks(s: State, u: TaskId)
    requires Quiescent(s)
    ensures forall t :: t != u ==> Outcome(s, Reconcile(s, u, s.pending), t)
  {
    hide Reconcile, Outcome;
    forall t | t != u
      ensures Outcome(s, Reconcile(s, u, s.pending), t)
    {
      assert Quiet(s, t);
      OutcomeOfReconcile(s, u, s.pending, t);
    }
  }

  /** The task asks a client with a working socket, and one of its requests is by `x`. */
  lemma RequesterLeaves(s: State, u: TaskId, x: ClientId)
    requires Quiescent(s) && OnlyBroken(s, x) && u !in s.leases
    requires var qs := On(s.pending, u); !Uninvolved(qs, x) && qs != [] && qs[0].target != x
    ensures var s1 := Reconcile(s, u, s.pending);
            Quiescent(s1) && AllSafe(s1) && forall t :: Outcome(s, s1, t)
  {
    hide Reconcile, Outcome, On, Quiet;
    var qs := On(s.pending, u);
    var s1 := Reconcile(s, u, s.pending);
    OnMembers(s.pending, u);
    assert qs[0] in qs;
    AsksTheTarget(s, qs[0]);
    OthersAreSafe(s, x, qs[0].target);
    assert LiveTargets(s, u);
    forall t
      ensures Outcome(s, s1, t)
    {
      FirstReconciled(s, u, t);
    }
    FirstReconciled(s, u, u);
    assert Quiet(s, u);
    UnownedTaskCloses(s, u, s.pending);
    ToldReconcile(s, u, s.pending);
    var r :| r in qs && Involves(r, x);
    assert r in s.pending && r !in s1.pending;
    GoneMeansSafe(s, s1, x);
  }

  lemma {:induction false} EachExactly(s: State, tasks: seq<TaskId>, x: ClientId)
    requires Quiescent(s) && OnlyBroken(s, x) && Free(s, tasks)
    ensures if ReleaseFits(s.pending, tasks, x) then forall t :: Outcome(s, ReconcileEach(s, tasks), t)
            else exists t :: Clash(s, ReconcileEach(s, tasks), t)
    decreases |tasks|
  {
    hide Reconcile, Outcome, On, Clash, Quiescent, Uninvolved, Keeps, Frame;
    if tasks == [] {
      NothingHappens(s);
    } else {
      var u, rest := tasks[0], tasks[1..];
      var s1 := Reconcile(s, u, s.pending);
      var s2 := ReconcileEach(s1, rest);
      assert u in tasks && forall v :: v in rest ==> v in tasks;
      NoneOnMeansEmpty(s, u);
      if Uninvolved(On(s.pending, u), x) {
        UninvolvedStep(s, u, x);
        FrameMeans(s, s1, u);
        FreeStays(s, s1, u, rest);
        NoneOnMeansEmpty(s1, u);
        FitsUnchanged(s.pending, s1.pending, u, rest, x);
        EachExactly(s1, rest, x);
        if ReleaseFits(s1.pending, rest, x) {
          forall t
            ensures Outcome(s, s2, t)
          {
            OutcomeThen(s, s1, s2, rest, t);
          }
        } else {
          var t :| Clash(s1, s2, t);
          ClashStays(s, s1, s2, t);
          assert Clash(s, ReconcileEach(s, tasks), t);
        }
      } else {
        InvolvedStep(s, u, x);
        assert ReconcileEach(s, tasks) == s2;
        var qs := On(s.pending, u);
        if qs[0].target == x ==> Keeps(LeaseFor(qs[0]), qs[1..]) {
          AllGoodFrom(s, s1, rest);
        } else {
          ClashStays(s, s1, s2, u);
          assert Clash(s, ReconcileEach(s, tasks), u);
        }
      }
    }
  }

  lemma FrameMeans(s: State, s1: State, u: TaskId)
    requires forall t :: t != u ==> Frame(s, s1, t)
    ensures forall t :: t != u ==> On(s1.pending, t) == On(s.pending, t) && (t in s1.leases <==> t in s.leases)
  {
    hide On, NoNewGrants;
    forall t | t != u
      ensures On(s1.pending, t) == On(s.pending, t) && (t in s1.leases <==> t in s.leases)
    {
      assert Frame(s, s1, t);
    }
  }

  lemma NothingHappens(s: State)
    requires Quiescent(s)
    ensures forall t :: Outcome(s, s, t)
  {
    forall t
      ensures Outcome(s, s, t)
    {
      assert Quiet(s, t);
      Untouched(s, s, t);
    }
  }

  lemma ReleaseExactly(s: State, tasks: seq<TaskId>, x: ClientId)
    requires Quiescent(s) && OnlyBroken(s, x)
    ensures SingleWinner(s, ReleaseStep(s, tasks)) <==> ReleaseFits(s.pending, tasks, x)
  {
    hide ReconcileEach, Outcome, ReleaseFits, Clash, OneWinner;
    var s1 := s.(leases := s.leases - (set t | t in tasks));
    var s2 := ReconcileEach(s1, tasks);
    forall t
      ensures Quiet(s1, t)
    {
      assert Quiet(s, t);
    }
    EachExactly(s1, tasks, x);
    if ReleaseFits(s.pending, tasks, x) {
      forall t
        ensures OneWinner(s, s2, t)
      {
        OutcomeIsGood(s1, s2, t);
        SameWinner(s, s1, s2, t);
      }
    } else {
      var t :| Clash(s1, s2, t);
      ClashIsNoWinner(s1, s2, t);
      SameWinner(s, s1, s2, t);
      assert !OneWinner(s, ReleaseStep(s, tasks), t);
    }
  }

  // ---- every event ------------------------------------------------------------------------

  /** With one broken socket unnoticed, for every event in every quiescent state: no task is granted to two
      clients, and whoever is granted one ends in control of it, if and only if the event fits. */
  lemma OneWinnerExactly(s: State, e: Event, x: ClientId)
    requires Quiescent(s) && OnlyBroken(s, x)
    ensures SingleWinner(s, Step(s, e)) <==> Fits(s, e, x)
  {
    hide Resolve, AcquireStep, ReleaseStep, OneWinner, Quiescent, ResolveFits, AcquireFits, ReleaseFits, SingleWinner;
    match e {
      case RespondTakeover(c, id, approved) =>
        var found := Find(s.pending, id);
        if found.Some? && found.value.target == c {
          ResolveExactly(s, id, ResponseDecision(s, found.value, approved), x);
          assert Step(s, e) == Resolve(s, id, ResponseDecision(s, found.value, approved));
        } else {
          NothingWon(s);
        }
      case RequestTimesOut(id, presence) =>
        var found := Find(s.pending, id);
        if found.Some? {
          ResolveExactly(s, id, TimeoutDecision(s, found.value, presence), x);
          assert Step(s, e) == Resolve(s, id, TimeoutDecision(s, found.value, presence));
        } else {
          NothingWon(s);
        }
      case AcquireLease(t, c, action, takeover) => AcquireExactly(s, t, c, action, takeover, x);
      case LeasesReleased(tasks) => ReleaseExactly(s, tasks, x);
      case _ => OthersWin(s, e, x);
    }
  }

  lemma OthersWin(s: State, e: Event, x: ClientId)
    requires Quiescent(s)
    requires !e.RespondTakeover? && !e.RequestTimesOut? && !e.AcquireLease? && !e.LeasesReleased?
    ensures SingleWinner(s, Step(s, e)) && Fits(s, e, x)
  {
    hide Step, OneWinner, Quiescent;
    CascadeHasOneWinner(s, e);
  }

  /** Counted, for approvals and timeouts: when every client asks for the task once, granting a request that
      asks `x` has a single winner if and only if fewer than three are pending. */
  lemma FewerThanThree(s: State, q: Request, d: Decision, x: ClientId)
    requires Quiescent(s) && OnlyBroken(s, x) && q in s.pending && q.target == x && Grants(d)
    requires forall p, r :: p in s.pending && r in s.pending && p.task == r.task == q.task && p != r ==>
               p.requester != r.requester
    ensures SingleWinner(s, Resolve(s, q.id, d)) <==> |On(s.pending, q.task)| < 3
  {
    hide Resolve, SingleWinner, Quiescent, Cascade, On, Drop;
    FindMember(s.pending, q);
    ResolveExactly(s, q.id, d, x);
    OnDrop(s.pending, q.id, q.task);
    DistinctAll(s.pending, q);
    KeepsMeansFew(q, On(Drop(s.pending, q.id), q.task));
  }

  lemma DistinctAll(ps: Pending, q: Request)
    requires Find(ps, q.id) == Some(q)
    requires forall p, r :: p in ps && r in ps && p.task == r.task == q.task && p != r ==> p.requester != r.requester
    ensures DistinctRequesters([q] + On(Drop(ps, q.id), q.task))
  {
    hide Drop, On, Find;
    var rest := Drop(ps, q.id);
    var others := On(rest, q.task);
    OnMembers(rest, q.task);
    OnIsDistinct(rest, q.task);
    var all := [q] + others;
    forall i, j | 0 <= i < j < |all|
      ensures all[i].requester != all[j].requester
    {
      assert all[j] == others[j - 1] && others[j - 1] in others;
      if i > 0 {
        assert all[i] == others[i - 1] && others[i - 1] in others;
      }
    }
  }

  lemma {:induction false} OnIsDistinct(ps: Pending, t: TaskId)
    ensures UniqueIds(On(ps, t))
    decreases |ps|
  {
    if ps != [] {
      OnIsDistinct(ps[1..], t);
      OnMembers(ps[1..], t);
    }
  }

  /** Over runs: after every run of a fresh server in which the asked clients' sockets worked, once one of
      them has broken. */
  lemma OneWinnerExactlyAfterRuns(events: seq<Event>, x: ClientId, e: Event)
    requires LiveRun(INIT, events)
    ensures var s := Run(INIT, events);
            OnlyBroken(s, x) ==> (SingleWinner(s, Step(s, e)) <==> Fits(s, e, x))
  {
    hide Step, SingleWinner, LiveRun, Run, Fits, Quiescent;
    RunsFromStart(events);
    if OnlyBroken(Run(INIT, events), x) {
      OneWinnerExactly(Run(INIT, events), e, x);
    }
  }
}
