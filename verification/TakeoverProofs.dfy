/** Takeover arbitration: exactly-once resolution, one winner per task and cascade, and quiescence. */
module TakeoverProofs {
  import opened Common
  import opened TakeoverProtocol

  // ---- vocabulary -----------------------------------------------------------

  /** The client is not connected through a broken socket. */
  predicate Safe(s: State, c: ClientId) {
    !(c in s.online && c in s.dead)
  }

  /** A snapshot of the pending requests: what is still pending is pending as it was. */
  predicate Snapshot(s: State, todo: seq<Request>) {
    forall r, p :: r in todo && p in s.pending && p.id == r.id ==> p == r
  }

  predicate NoneOn(s: State, t: TaskId) {
    forall r :: r in s.pending ==> r.task != t
  }

  /** Nobody asks to take over from himself, and all requests for a task ask the same client. */
  predicate WellFormed(s: State) {
    && (forall r :: r in s.pending ==> r.requester != r.target)
    && (forall r, q :: r in s.pending && q in s.pending && r.task == q.task ==> r.target == q.target)
  }

  /** Every request for the task asks its current controller, if there is one. */
  predicate Quiet(s: State, t: TaskId) {
    forall r :: r in s.pending && r.task == t ==> Controller(s, t) in {None, Some(r.target)}
  }

  /** The task went to `a`, and the requests still pending ask someone else, who is not broken. */
  predicate Closing(s: State, t: TaskId, a: ClientId) {
    && Controller(s, t) == Some(a)
    && forall r :: r in s.pending && r.task == t ==> r.target != a && Safe(s, r.target)
  }

  predicate Taken(s: State, t: TaskId, a: ClientId) {
    Controller(s, t) == Some(a) && NoneOn(s, t)
  }

  predicate NewGrantsTo(s: State, s': State, t: TaskId, a: ClientId) {
    forall i :: |s.grants| <= i < |s'.grants| && s'.grants[i].task == t ==> s'.grants[i].client == a
  }

  predicate NoNewGrants(s: State, s': State, t: TaskId) {
    forall i :: |s.grants| <= i < |s'.grants| ==> s'.grants[i].task != t
  }

  lemma GrantsTwice(a: State, b: State, c: State, t: TaskId, w: ClientId)
    requires Follows(a, b) && Follows(b, c) && NewGrantsTo(a, b, t, w) && NewGrantsTo(b, c, t, w)
    ensures NewGrantsTo(a, c, t, w)
  {
    forall i | |a.grants| <= i < |c.grants| && c.grants[i].task == t
      ensures c.grants[i].client == w
    {
      if i < |b.grants| {
        assert b.grants[i] == c.grants[i];
      }
    }
  }

  // ---- once a task is taken, a cascade cannot take it away --------------------

  lemma {:induction false} ClosingResolve(s: State, id: string, d: Decision, t: TaskId, a: ClientId)
    requires Closing(s, t, a)
    requires Grants(d) && Find(s.pending, id).Some? && Find(s.pending, id).value.task == t
             ==> Find(s.pending, id).value.requester == a
    ensures Closing(Resolve(s, id, d), t, a) && NewGrantsTo(s, Resolve(s, id, d), t, a)
    decreases |s.pending|, 0, 0
  {
    hide Apply, Notify, Drop;
    var found := Find(s.pending, id);
    if found.Some? {
      var r := found.value;
      var s1 := s.(pending := Drop(s.pending, id));
      assert Closing(s1, t, a);
      if Grants(d) {
        ClosingApply(s1, r, t, a);
      }
      var s2 := if Grants(d) then Apply(s1, r) else s1;
      var s3 := s2.(settled := s2.settled + multiset{r});
      assert Closing(s3, t, a) && Follows(s1, s2);
      var resolved := if Grants(d) && Controller(s2, r.task) != Some(r.requester) then Denied else d;
      ClosingNotify(s3, r, resolved, t, a);
      SettlingFollows(s, id, s2);
      assert NewGrantsTo(s, s3, t, a);
      GrantsTwice(s, s3, Notify(s3, r, resolved), t, a);
    }
  }

  lemma {:induction false} ClosingApply(s: State, r: Request, t: TaskId, a: ClientId)
    requires Closing(s, t, a) && (r.task == t ==> r.requester == a)
    ensures Closing(Apply(s, r), t, a) && NewGrantsTo(s, Apply(s, r), t, a)
    decreases |s.pending|, 2, 0
  {
    hide Reconcile;
    var lease := Lease(r.requester, r.action);
    var s1 := s.(leases := s.leases[r.task := lease], grants := s.grants + [Grant(r.task, r.requester)]);
    assert Closing(s1, t, a) && NewGrantsTo(s, s1, t, a) && Follows(s, s1);
    ClosingReconcile(s1, r.task, s1.pending, t, a);
    GrantsTwice(s, s1, Reconcile(s1, r.task, s1.pending), t, a);
  }

  lemma {:induction false} ClosingReconcile(s: State, u: TaskId, todo: seq<Request>, t: TaskId, a: ClientId)
    requires Closing(s, t, a) && Snapshot(s, todo)
    ensures Closing(Reconcile(s, u, todo), t, a) && NewGrantsTo(s, Reconcile(s, u, todo), t, a)
    decreases |s.pending|, 1, |todo|
  {
    hide Resolve;
    if todo != [] {
      var d := if todo[0].task == u then ControllerChangeDecision(s, todo[0]) else None;
      if d.Some? {
        ClosingResolve(s, todo[0].id, d.value, t, a);
      }
      var s1 := if d.Some? then Resolve(s, todo[0].id, d.value) else s;
      ClosingReconcile(s1, u, todo[1..], t, a);
      GrantsTwice(s, s1, Reconcile(s1, u, todo[1..]), t, a);
    }
  }

  lemma {:induction false} ClosingNotify(s: State, r: Request, d: Decision, t: TaskId, a: ClientId)
    requires Closing(s, t, a)
    ensures Closing(Notify(s, r, d), t, a) && NewGrantsTo(s, Notify(s, r, d), t, a)
    decreases |s.pending|, 3, 0
  {
    hide Tell;
    var m := Result(r.id, r.task, d);
    var s1 := Tell(s, r.requester, m);
    ClosingTell(s, r.requester, m, t, a);
    ClosingTell(s1, r.target, m, t, a);
    GrantsTwice(s, s1, Tell(s1, r.target, m), t, a);
  }

  lemma {:induction false} ClosingTell(s: State, c: ClientId, m: Message, t: TaskId, a: ClientId)
    requires Closing(s, t, a)
    ensures Closing(Tell(s, c, m), t, a) && NewGrantsTo(s, Tell(s, c, m), t, a)
    decreases |s.pending|, 2, 0
  {
    hide CleanupRequests;
    if c in s.online && c in s.dead {
      var s1 := s.(online := s.online - {c}, dead := s.dead - {c});
      ClosingCleanup(s1, c, s1.pending, t, a);
    }
  }

  lemma {:induction false} ClosingCleanup(s: State, c: ClientId, todo: seq<Request>, t: TaskId, a: ClientId)
    requires Closing(s, t, a) && Snapshot(s, todo)
    requires forall r :: r in s.pending && r.task == t ==> r.target != c
    ensures Closing(CleanupRequests(s, c, todo), t, a) && NewGrantsTo(s, CleanupRequests(s, c, todo), t, a)
    decreases |s.pending|, 1, |todo|
  {
    hide Resolve;
    if todo != [] {
      var r := todo[0];
      var s1 := if r.requester == c then Resolve(s, r.id, Denied)
                else if r.target == c then Resolve(s, r.id, OwnerMissing) else s;
      if r.requester == c {
        ClosingResolve(s, r.id, Denied, t, a);
      } else if r.target == c {
        ClosingResolve(s, r.id, OwnerMissing, t, a);
      }
      ClosingCleanup(s1, c, todo[1..], t, a);
      GrantsTwice(s, s1, CleanupRequests(s1, c, todo[1..]), t, a);
    }
  }

  // ---- a reconcile after the task is taken clears it ----------------------------

  lemma ResolveRemoves(s: State, id: string, d: Decision)
    ensures forall p :: p in Resolve(s, id, d).pending ==> p.id != id
  {
    hide Apply, Notify;
  }

  lemma {:induction false} ReconcileClears(s: State, t: TaskId, todo: seq<Request>, a: ClientId)
    requires Closing(s, t, a) && Snapshot(s, todo)
    ensures forall p :: p in Reconcile(s, t, todo).pending && p.task == t ==> p !in todo
    decreases |todo|
  {
    hide Resolve;
    if todo != [] {
      var r := todo[0];
      var d := if r.task == t then ControllerChangeDecision(s, r) else None;
      var s1 := if d.Some? then Resolve(s, r.id, d.value) else s;
      if d.Some? {
        ResolveRemoves(s, r.id, d.value);
        ClosingResolve(s, r.id, d.value, t, a);
      }
      assert r.task == t ==> r !in s1.pending;
      ReconcileClears(s1, t, todo[1..], a);
      assert forall p :: p in todo ==> p == r || p in todo[1..];
    }
  }

  /** A granted request wins its task: the requester ends as controller, nothing stays pending there,
      and no one else was granted it. */
  lemma ApplyTakes(s: State, r: Request)
    requires r.requester != r.target && !(r.task in s.leases && s.leases[r.task] == Lease(r.requester, r.action))
    requires forall p :: p in s.pending && p.task == r.task ==> p.target == r.target
    requires Safe(s, r.target)
    ensures Taken(Apply(s, r), r.task, r.requester) && NewGrantsTo(s, Apply(s, r), r.task, r.requester)
  {
    hide Reconcile;
    var a, t := r.requester, r.task;
    var s1 := s.(leases := s.leases[t := Lease(a, r.action)], grants := s.grants + [Grant(t, a)]);
    assert Closing(s1, t, a) && NewGrantsTo(s, s1, t, a) && Follows(s, s1);
    ClosingReconcile(s1, t, s1.pending, t, a);
    ReconcileClears(s1, t, s1.pending, a);
    GrantsTwice(s, s1, Reconcile(s1, t, s1.pending), t, a);
  }

  lemma TakenStays(s: State, s': State, t: TaskId, a: ClientId)
    requires Taken(s, t, a) && Follows(s, s') && Closing(s', t, a)
    ensures Taken(s', t, a)
  {
  }

  /** Resolving a request in favour of its requester moves the lease, unless it is there already. */
  lemma MoveTakes(s: State, id: string, d: Decision)
    requires Grants(d) && Find(s.pending, id).Some?
    requires var r := Find(s.pending, id).value;
             && r.requester != r.target && Safe(s, r.target)
             && !(r.task in s.leases && s.leases[r.task] == Lease(r.requester, r.action))
             && forall p :: p in s.pending && p.task == r.task ==> p.target == r.target
    ensures var r := Find(s.pending, id).value;
            Taken(Resolve(s, id, d), r.task, r.requester) && NewGrantsTo(s, Resolve(s, id, d), r.task, r.requester)
  {
    hide Apply, Notify, Drop;
    var r := Find(s.pending, id).value;
    var t, a := r.task, r.requester;
    var s1 := s.(pending := Drop(s.pending, id));
    ApplyTakes(s1, r);
    var s2 := Apply(s1, r);
    var s3 := s2.(settled := s2.settled + multiset{r});
    assert Taken(s3, t, a);
    ClosingNotify(s3, r, d, t, a);
    TakenStays(s3, Notify(s3, r, d), t, a);
    SettlingFollows(s, id, s2);
    assert NewGrantsTo(s, s3, t, a);
    GrantsTwice(s, s3, Notify(s3, r, d), t, a);
  }

  lemma GrantTakes(s: State, id: string, d: Decision)
    requires Grants(d) && Find(s.pending, id).Some?
    requires WellFormed(s) && Quiet(s, Find(s.pending, id).value.task) && Safe(s, Find(s.pending, id).value.target)
    ensures var r := Find(s.pending, id).value;
            Taken(Resolve(s, id, d), r.task, r.requester) && NewGrantsTo(s, Resolve(s, id, d), r.task, r.requester)
  {
    hide Resolve;
    MoveTakes(s, id, d);
  }

  // ---- tasks a cascade reaches sideways -------------------------------------------

  /** Either the cascade left the task alone, or it ended with exactly one winner in charge. */
  ghost predicate Outcome(s: State, s': State, t: TaskId) {
    || (Quiet(s', t) && Controller(s', t) == Controller(s, t) && NoNewGrants(s, s', t))
    || exists a :: Taken(s', t, a) && NewGrantsTo(s, s', t, a)
  }

  lemma Untouched(s: State, s': State, t: TaskId)
    requires Quiet(s, t) && Follows(s, s') && s'.leases == s.leases && s'.grants == s.grants
    ensures Outcome(s, s', t)
  {
  }

  lemma OutcomeTwice(s: State, s1: State, s2: State, t: TaskId)
    requires Follows(s, s1) && Follows(s1, s2) && Outcome(s, s1, t)
    requires Quiet(s1, t) ==> Outcome(s1, s2, t)
    requires forall a :: Taken(s1, t, a) ==> Closing(s2, t, a) && NewGrantsTo(s1, s2, t, a)
    ensures Outcome(s, s2, t)
  {
    if a :| Taken(s1, t, a) && NewGrantsTo(s, s1, t, a) {
      TakenStays(s1, s2, t, a);
      GrantsTwice(s, s1, s2, t, a);
    } else if NoNewGrants(s1, s2, t) {
      forall i | |s.grants| <= i < |s2.grants|
        ensures s2.grants[i].task != t
      {
        if i < |s1.grants| {
          assert s1.grants[i] == s2.grants[i];
        }
      }
    } else {
      var a :| Taken(s2, t, a) && NewGrantsTo(s1, s2, t, a);
      assert NewGrantsTo(s, s1, t, a);
      GrantsTwice(s, s1, s2, t, a);
    }
  }

  lemma ShrinkKeepsForm(s: State, s': State)
    requires WellFormed(s) && forall p :: p in s'.pending ==> p in s.pending
    ensures WellFormed(s')
  {
  }

  /** What a taken task is exposed to in the rest of a cascade. */
  lemma TakenIsClosing(s: State, t: TaskId, a: ClientId)
    requires Taken(s, t, a)
    ensures Closing(s, t, a)
  {
  }

  lemma {:induction false} OutcomeOfResolve(s: State, id: string, d: Decision, t: TaskId)
    requires WellFormed(s) && Quiet(s, t)
    requires Grants(d) && Find(s.pending, id).Some? && Find(s.pending, id).value.task == t
             ==> Safe(s, Find(s.pending, id).value.target)
    ensures Outcome(s, Resolve(s, id, d), t)
    decreases |s.pending|, 0, 0
  {
    hide Apply, Notify, Drop, Quiet;
    var found := Find(s.pending, id);
    if found.None? {
      Untouched(s, s, t);
    } else if Grants(d) && found.value.task == t {
      GrantTakes(s, id, d);
    } else {
      var r := found.value;
      var s1 := s.(pending := Drop(s.pending, id));
      ShrinkQuiet(s, id, t);
      if Grants(d) {
        OutcomeOfApply(s1, r, t);
      } else {
        Untouched(s1, s1, t);
      }
      var s2 := if Grants(d) then Apply(s1, r) else s1;
      var s3 := s2.(settled := s2.settled + multiset{r});
      var resolved := if Grants(d) && Controller(s2, r.task) != Some(r.requester) then Denied else d;
      var s4 := Notify(s3, r, resolved);
      SettlingFollows(s, id, s2);
      SettledOutcome(s, s1, s2, s3, t);
      if Quiet(s3, t) {
        ShrinkKeepsForm(s, s3);
        OutcomeOfNotify(s3, r, resolved, t);
      }
      forall a | Taken(s3, t, a)
        ensures Closing(s4, t, a) && NewGrantsTo(s3, s4, t, a)
      {
        TakenIsClosing(s3, t, a);
        ClosingNotify(s3, r, resolved, t, a);
      }
      OutcomeTwice(s, s3, s4, t);
    }
  }

  lemma ShrinkQuiet(s: State, id: string, t: TaskId)
    requires WellFormed(s) && Quiet(s, t)
    ensures var s1 := s.(pending := Drop(s.pending, id)); WellFormed(s1) && Quiet(s1, t)
  {
    hide Drop;
  }

  lemma SettledOutcome(s: State, s1: State, s2: State, s3: State, t: TaskId)
    requires Outcome(s1, s2, t)
    requires s1 == s.(pending := s1.pending) && s3 == s2.(settled := s3.settled)
    ensures Outcome(s, s3, t)
  {
    if a :| Taken(s2, t, a) && NewGrantsTo(s1, s2, t, a) {
      assert Taken(s3, t, a) && NewGrantsTo(s, s3, t, a);
    }
  }

  lemma {:induction false} OutcomeOfApply(s: State, r: Request, t: TaskId)
    requires WellFormed(s) && Quiet(s, t) && r.task != t
    ensures Outcome(s, Apply(s, r), t)
    decreases |s.pending|, 2, 0
  {
    hide Reconcile;
    var lease := Lease(r.requester, r.action);
    var s1 := s.(leases := s.leases[r.task := lease], grants := s.grants + [Grant(r.task, r.requester)]);
    assert Outcome(s, s1, t) && WellFormed(s1);
    OutcomeOfReconcile(s1, r.task, s1.pending, t);
    var s2 := Reconcile(s1, r.task, s1.pending);
    forall a | Taken(s1, t, a)
      ensures Closing(s2, t, a) && NewGrantsTo(s1, s2, t, a)
    {
      TakenIsClosing(s1, t, a);
      ClosingReconcile(s1, r.task, s1.pending, t, a);
    }
    OutcomeTwice(s, s1, s2, t);
  }

  lemma {:induction false} OutcomeOfReconcile(s: State, u: TaskId, todo: seq<Request>, t: TaskId)
    requires WellFormed(s) && Quiet(s, t) && Snapshot(s, todo)
    requires u == t ==> forall r :: r in s.pending && r.task == t ==> Safe(s, r.target)
    ensures Outcome(s, Reconcile(s, u, todo), t)
    decreases |s.pending|, 1, |todo|
  {
    hide Resolve, Quiet;
    if todo == [] {
      Untouched(s, s, t);
    } else {
      var r := todo[0];
      var d := if r.task == u then ControllerChangeDecision(s, r) else None;
      var s1 := if d.Some? then Resolve(s, r.id, d.value) else s;
      if d.Some? {
        OutcomeOfResolve(s, r.id, d.value, t);
      } else {
        Untouched(s, s, t);
      }
      var s2 := Reconcile(s1, u, todo[1..]);
      ShrinkKeepsForm(s, s1);
      if Quiet(s1, t) {
        OutcomeOfReconcile(s1, u, todo[1..], t);
      }
      forall a | Taken(s1, t, a)
        ensures Closing(s2, t, a) && NewGrantsTo(s1, s2, t, a)
      {
        TakenIsClosing(s1, t, a);
        ClosingReconcile(s1, u, todo[1..], t, a);
      }
      OutcomeTwice(s, s1, s2, t);
    }
  }

  lemma {:induction false} OutcomeOfNotify(s: State, r: Request, d: Decision, t: TaskId)
    requires WellFormed(s) && Quiet(s, t)
    ensures Outcome(s, Notify(s, r, d), t)
    decreases |s.pending|, 3, 0
  {
    hide Tell, Quiet;
    var m := Result(r.id, r.task, d);
    var s1 := Tell(s, r.requester, m);
    var s2 := Tell(s1, r.target, m);
    OutcomeOfTell(s, r.requester, m, t);
    ShrinkKeepsForm(s, s1);
    if Quiet(s1, t) {
      OutcomeOfTell(s1, r.target, m, t);
    }
    forall a | Taken(s1, t, a)
      ensures Closing(s2, t, a) && NewGrantsTo(s1, s2, t, a)
    {
      TakenIsClosing(s1, t, a);
      ClosingTell(s1, r.target, m, t, a);
    }
    OutcomeTwice(s, s1, s2, t);
  }

  lemma {:induction false} OutcomeOfTell(s: State, c: ClientId, m: Message, t: TaskId)
    requires WellFormed(s) && Quiet(s, t)
    ensures Outcome(s, Tell(s, c, m), t)
    decreases |s.pending|, 2, 0
  {
    hide CleanupRequests;
    if c in s.online && c in s.dead {
      var s1 := s.(online := s.online - {c}, dead := s.dead - {c});
      OutcomeOfCleanup(s1, c, s1.pending, t);
      SameOutcome(s, s1, CleanupRequests(s1, c, s1.pending), t);
    } else {
      Untouched(s, Tell(s, c, m), t);
    }
  }

  lemma SameOutcome(s: State, s1: State, s2: State, t: TaskId)
    requires s1 == s.(online := s1.online, dead := s1.dead) && Outcome(s1, s2, t)
    ensures Outcome(s, s2, t)
  {
    if a :| Taken(s2, t, a) && NewGrantsTo(s1, s2, t, a) {
      assert NewGrantsTo(s, s2, t, a);
    }
  }

  lemma {:induction false} OutcomeOfCleanup(s: State, c: ClientId, todo: seq<Request>, t: TaskId)
    requires WellFormed(s) && Quiet(s, t) && Snapshot(s, todo) && c !in s.online
    ensures Outcome(s, CleanupRequests(s, c, todo), t)
    decreases |s.pending|, 1, |todo|
  {
    hide Resolve, Quiet;
    if todo == [] {
      Untouched(s, s, t);
    } else {
      var r := todo[0];
      var s1 := if r.requester == c then Resolve(s, r.id, Denied)
                else if r.target == c then Resolve(s, r.id, OwnerMissing) else s;
      if r.requester == c {
        OutcomeOfResolve(s, r.id, Denied, t);
      } else if r.target == c {
        OutcomeOfResolve(s, r.id, OwnerMissing, t);
      } else {
        Untouched(s, s, t);
      }
      var s2 := CleanupRequests(s1, c, todo[1..]);
      ShrinkKeepsForm(s, s1);
      if Quiet(s1, t) {
        OutcomeOfCleanup(s1, c, todo[1..], t);
      }
      forall a | Taken(s1, t, a)
        ensures Closing(s2, t, a) && NewGrantsTo(s1, s2, t, a)
      {
        TakenIsClosing(s1, t, a);
        ClosingCleanup(s1, c, todo[1..], t, a);
      }
      OutcomeTwice(s, s1, s2, t);
    }
  }
}
