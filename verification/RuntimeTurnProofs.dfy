/** What every step of `RuntimeTurns` keeps, and its guarantees over every run. */
module RuntimeTurnProofs {
  import opened Common
  import opened RuntimeTurns

  // ---- the invariant --------------------------------------------------------------

  const EVERYTHING := {Persistence, Producers, Consumers}

  /** The prior turn was released. */
  predicate MayRun(s: State, i: nat)
    requires i < |s.loaders|
  {
    i == 0 || s.loaders[i - 1].turn == Resolved
  }

  predicate StageOk(s: State, i: nat)
    requires i < |s.loaders|
  {
    var l := s.loaders[i];
    match l.stage
    case AwaitingPrior => l.turn == Open && l.acquired == {} && l.held == {} && l.released == []
    case Importing => l.turn == Open && MayRun(s, i) && l.acquired == {} && l.held == {} && l.released == []
    case Live =>
      l.turn == Open && MayRun(s, i) && l.released == []
      && l.acquired == EVERYTHING && l.held == l.acquired
    case RollingBack(p, failed) => l.turn == Open && MayRun(s, i) && CleaningOk(l, p, failed)
    case Closing(p, failed) => l.turn == Open && MayRun(s, i) && CleaningOk(l, p, failed) && l.acquired == EVERYTHING
    case Stopped => l.turn == Resolved && MayRun(s, i) && l.acquired == {} && l.held == {} && l.released == []
    case InitFailed => DoneOk(s, i)
    case Closed => DoneOk(s, i) && l.acquired == EVERYTHING
  }

  predicate CleaningOk(l: Loader, p: nat, failed: bool) {
    && p < 3
    && l.held <= l.acquired
    && l.released == ReleasedAfter(l.acquired, p)
    && (!failed ==> forall q :: 0 <= q < p ==> CLEANUP_ORDER[q] !in l.held)
  }

  predicate DoneOk(s: State, i: nat)
    requires i < |s.loaders|
  {
    var l := s.loaders[i];
    && l.turn != Open && l.held <= l.acquired
    && l.released == ReleasedAfter(l.acquired, 3)
    && (l.turn == Resolved ==> MayRun(s, i) && l.held == {})
    && (l.acquired != {} ==> MayRun(s, i))
  }

  /** The service's owner is a running loader that has not finished stopping persistence. */
  predicate OwnerOk(s: State) {
    s.owner.Some? ==>
      var k := s.owner.value.loader;
      && k < |s.loaders| && s.loaders[k].turn == Open && Persistence in s.loaders[k].acquired
  }

  predicate Inv(s: State) {
    && s.previous == |s.loaders| - 1
    && (forall i :: 0 <= i < |s.loaders| ==> s.loaders[i].prior == i - 1 && StageOk(s, i))
    && OwnerOk(s)
  }

  /** Resolved turns form a prefix. */
  lemma {:induction false} EarlierTurnsResolved(s: State, i: nat, j: nat)
    requires Inv(s) && j < i < |s.loaders| && MayRun(s, i)
    ensures s.loaders[j].turn == Resolved
    decreases i
  {
    if j < i - 1 {
      assert StageOk(s, i - 1);
      EarlierTurnsResolved(s, i - 1, j);
    }
  }

  lemma RunningMayRun(s: State, i: nat)
    requires Inv(s) && i < |s.loaders|
    requires s.loaders[i].turn == Resolved || s.loaders[i].acquired != {}
    ensures MayRun(s, i)
  {
    assert StageOk(s, i);
  }

  lemma ImportingIsFresh(s: State, i: nat)
    requires Inv(s) && i < |s.loaders| && s.loaders[i].stage == Importing
    ensures MayRun(s, i) && s.loaders[i].turn == Open && s.loaders[i].acquired == {}
  {
    assert StageOk(s, i);
  }

  /** When a loader initialises, nobody else owns persistence. */
  lemma NoOwnerAtInitialize(s: State, i: nat)
    requires Inv(s) && i < |s.loaders| && s.loaders[i].stage == Importing
    ensures s.owner.None?
  {
    if s.owner.Some? {
      var k := s.owner.value.loader;
      RunningMayRun(s, k);
      ImportingIsFresh(s, i);
      OneRunning(s, i, k);
    }
  }

  lemma StepKeepsInv(s: State, e: Event)
    requires Inv(s) && Enabled(s, e)
    ensures Inv(Step(s, e))
  {
    match e {
      case Initialize(i, failAt) =>
        NoOwnerAtInitialize(s, i);
        InitializeKeepsInv(s, i, failAt);
      case CleanupPhase(i, ok) => CleanupKeepsInv(s, i, ok);
      case _ => EasyStepKeepsInv(s, e);
    }
  }

  /** Changing one loader, whose resolved turn stays resolved, leaves the others in order. */
  lemma PutKeepsOthers(s: State, i: nat, l: Loader, j: nat)
    requires i < |s.loaders| && j < |s.loaders| && j != i && StageOk(s, j)
    requires s.loaders[i].turn == Resolved ==> l.turn == Resolved
    ensures StageOk(Put(s, i, l), j)
  {
    hide CleaningOk;
    assert MayRun(s, j) ==> MayRun(Put(s, i, l), j);
  }

  lemma PutKeepsInv(s: State, i: nat, l: Loader, owner: Option<PersistenceOwner>)
    requires Inv(s) && i < |s.loaders| && l.prior == i - 1
    requires s.loaders[i].turn == Resolved ==> l.turn == Resolved
    requires StageOk(Put(s, i, l), i)
    requires OwnerOk(Put(s, i, l).(owner := owner))
    ensures Inv(Put(s, i, l).(owner := owner))
  {
    hide OwnerOk, StageOk;
    var s' := Put(s, i, l).(owner := owner);
    forall j | 0 <= j < |s'.loaders|
      ensures s'.loaders[j].prior == j - 1 && StageOk(s', j)
    {
      if j != i {
        PutKeepsOthers(s, i, l, j);
      }
      OwnerIsNoStage(Put(s, i, l), owner, j);
    }
  }

  lemma OwnerIsNoStage(s: State, owner: Option<PersistenceOwner>, j: nat)
    requires j < |s.loaders|
    ensures StageOk(s.(owner := owner), j) <==> StageOk(s, j)
  {
  }

  lemma EasyStepKeepsInv(s: State, e: Event)
    requires Inv(s) && Enabled(s, e) && !e.Initialize? && !e.CleanupPhase?
    ensures Inv(Step(s, e))
  {
    if e.StartLoader? {
      StartKeepsInv(s, e.dir);
    } else {
      hide Inv;
      var s' := Step(s, e);
      EasyLoader(s, e);
      PutKeepsInv(s, e.index, s'.loaders[e.index], s.owner);
      assert s' == Put(s, e.index, s'.loaders[e.index]).(owner := s.owner);
    }
  }

  /** A loader that acquired nothing has released everything. */
  lemma NothingToRelease()
    ensures ReleasedAfter({}, 3) == []
  {
    assert ReleasedAfter({}, 0) == [] && ReleasedAfter({}, 1) == [] && ReleasedAfter({}, 2) == [];
  }

  predicate LoaderOk(s: State, i: nat, l: Loader) {
    && i < |s.loaders| && l.prior == i - 1
    && (s.loaders[i].turn == Resolved ==> l.turn == Resolved)
    && StageOk(Put(s, i, l), i)
    && OwnerOk(Put(s, i, l).(owner := s.owner))
  }

  lemma EasyLoader(s: State, e: Event)
    requires Inv(s) && Enabled(s, e) && !e.Initialize? && !e.CleanupPhase? && !e.StartLoader?
    ensures e.index < |s.loaders| && |Step(s, e).loaders| == |s.loaders|
    ensures LoaderOk(s, e.index, Step(s, e).loaders[e.index])
  {
    hide LoaderOk, Inv, StageOk;
    match e {
      case CancelLoader(i) => CancelledLoader(s, i);
      case PriorSettles(i) => SettledPrior(s, i);
      case ImportFails(i) => FailedImport(s, i);
      case BeginCleanup(i) => ClosingLoader(s, i);
    }
  }

  lemma CancelledLoader(s: State, i: nat)
    requires Inv(s) && i < |s.loaders|
    ensures LoaderOk(s, i, s.loaders[i].(cancelled := true))
  {
    assert StageOk(s, i) && s.loaders[i].prior == i - 1;
  }

  lemma SettledPrior(s: State, i: nat)
    requires Inv(s) && Enabled(s, PriorSettles(i))
    ensures LoaderOk(s, i, Step(s, PriorSettles(i)).loaders[i])
  {
    hide CleaningOk, ReleasedAfter;
    assert StageOk(s, i) && s.loaders[i].prior == i - 1;
    NothingToRelease();
  }

  lemma FailedImport(s: State, i: nat)
    requires Inv(s) && Enabled(s, ImportFails(i))
    ensures LoaderOk(s, i, Step(s, ImportFails(i)).loaders[i])
  {
    hide CleaningOk, ReleasedAfter;
    assert StageOk(s, i) && s.loaders[i].prior == i - 1;
    NothingToRelease();
  }

  lemma ClosingLoader(s: State, i: nat)
    requires Inv(s) && Enabled(s, BeginCleanup(i))
    ensures LoaderOk(s, i, Step(s, BeginCleanup(i)).loaders[i])
  {
    hide DoneOk;
    assert StageOk(s, i) && s.loaders[i].prior == i - 1;
    assert ReleasedAfter(s.loaders[i].acquired, 0) == [];
  }

  lemma StartKeepsInv(s: State, dir: string)
    requires Inv(s)
    ensures Inv(Step(s, StartLoader(dir)))
  {
    var s' := Step(s, StartLoader(dir));
    forall j | 0 <= j < |s'.loaders|
      ensures s'.loaders[j].prior == j - 1 && StageOk(s', j)
    {
      if j < |s.loaders| {
        assert StageOk(s, j);
      }
    }
  }

  lemma InitializeKeepsInv(s: State, i: nat, failAt: nat)
    requires Inv(s) && i < |s.loaders| && s.loaders[i].stage == Importing && s.owner.None?
    ensures Inv(InitializeStep(s, i, failAt))
  {
    var s' := InitializeStep(s, i, failAt);
    assert StageOk(s, i);
    PutKeepsInv(s, i, s'.loaders[i], s'.owner);
  }

  lemma CleanupKeepsInv(s: State, i: nat, ok: bool)
    requires Inv(s) && i < |s.loaders| && InCleanup(s.loaders[i].stage)
    ensures Inv(CleanupStep(s, i, ok))
  {
    var s' := CleanupStep(s, i, ok);
    CleanedLoader(s, i, ok);
    OwnerIsNoStage(Put(s, i, s'.loaders[i]), s'.owner, i);
    CleanedOwner(s, i, ok);
    PutKeepsInv(s, i, s'.loaders[i], s'.owner);
  }

  lemma CleanedOwner(s: State, i: nat, ok: bool)
    requires Inv(s) && i < |s.loaders| && InCleanup(s.loaders[i].stage)
    ensures OwnerOk(CleanupStep(s, i, ok)) && s.loaders[i].turn == Open
  {
    assert StageOk(s, i);
    if s.owner.Some? {
      RunningMayRun(s, s.owner.value.loader);
      OneRunning(s, i, s.owner.value.loader);
    }
  }

  /** Two loaders cannot both be under way. */
  lemma OneRunning(s: State, i: nat, k: nat)
    requires Inv(s) && i < |s.loaders| && k < |s.loaders| && MayRun(s, i) && MayRun(s, k)
    requires s.loaders[i].turn != Resolved && s.loaders[k].turn != Resolved
    ensures i == k
  {
    if k < i {
      EarlierTurnsResolved(s, i, k);
    } else if i < k {
      EarlierTurnsResolved(s, k, i);
    }
  }

  lemma CleanedLoader(s: State, i: nat, ok: bool)
    requires Inv(s) && i < |s.loaders| && InCleanup(s.loaders[i].stage)
    ensures StageOk(CleanupStep(s, i, ok), i)
  {
    assert StageOk(s, i) by { hide StageOk; }
    if s.loaders[i].stage.phase == 2 {
      LastCleaned(s, i, ok);
    } else {
      MidCleaned(s, i, ok);
    }
  }

  lemma MidCleaned(s: State, i: nat, ok: bool)
    requires i < |s.loaders| && StageOk(s, i) && InCleanup(s.loaders[i].stage) && s.loaders[i].stage.phase < 2
    ensures StageOk(CleanupStep(s, i, ok), i)
  {
    hide MayRun, CleaningOk, FinishCleanup;
    var l := s.loaders[i];
    var s' := CleanupStep(s, i, ok);
    var l' := s'.loaders[i];
    MidLoader(l, l.stage.phase, ok, l');
    assert l'.turn == l.turn;
    StillMayRun(s, s', i);
  }

  /** One of the first two cleanup functions has settled. */
  lemma MidLoader(l: Loader, p: nat, ok: bool, l': Loader)
    requires InCleanup(l.stage) && l.stage.phase == p < 2 && CleaningOk(l, p, l.stage.failed)
    requires var o := CLEANUP_ORDER[p];
             && l'.acquired == l.acquired
             && l'.held == (if o in l.acquired && ok then l.held - {o} else l.held)
             && l'.released == (if o in l.acquired then l.released + [o] else l.released)
    ensures CleaningOk(l', p + 1, l.stage.failed || (CLEANUP_ORDER[p] in l.acquired && !ok))
  {
    assert l'.released == ReleasedAfter(l.acquired, p + 1);
  }

  lemma StillMayRun(s: State, s': State, i: nat)
    requires i < |s.loaders| && |s'.loaders| == |s.loaders| && MayRun(s, i)
    requires forall j :: 0 <= j < i ==> s'.loaders[j] == s.loaders[j]
    ensures MayRun(s', i)
  {
  }

  lemma LastCleaned(s: State, i: nat, ok: bool)
    requires i < |s.loaders| && StageOk(s, i) && InCleanup(s.loaders[i].stage) && s.loaders[i].stage.phase == 2
    ensures StageOk(CleanupStep(s, i, ok), i)
  {
    var l := s.loaders[i];
    var l' := CleanupStep(s, i, ok).loaders[i];
    assert l'.released == ReleasedAfter(l.acquired, l.stage.phase + 1);
    forall o | !l.stage.failed && o in l'.held
      ensures o == Persistence
    {
      assert CLEANUP_ORDER[0] == Producers && CLEANUP_ORDER[1] == Consumers;
    }
  }

  lemma {:induction false} RunKeepsInv(s: State, events: seq<Event>)
    requires Inv(s)
    ensures Inv(Run(s, events))
    decreases |events|
  {
    hide Step, Inv;
    if events != [] {
      if Enabled(s, events[0]) {
        StepKeepsInv(s, events[0]);
        RunKeepsInv(Step(s, events[0]), events[1..]);
      } else {
        RunKeepsInv(s, events[1..]);
      }
    }
  }

  // ---- the guarantees -----------------------------------------------------------------

  /** Mutual exclusion: over any number of loaders, cancellations and failures, at most one loader holds
      owners, and a turn resolves only after all earlier turns resolved. */
  lemma OwnersAreExclusive(events: seq<Event>, i: nat, j: nat)
    ensures var s := Run(INIT, events);
            i < |s.loaders| && j < |s.loaders| ==>
              && (s.loaders[i].held != {} && s.loaders[j].held != {} ==> i == j)
              && (j < i && s.loaders[i].turn == Resolved ==> s.loaders[j].turn == Resolved)
  {
    RunKeepsInv(INIT, events);
    var s := Run(INIT, events);
    if i < |s.loaders| && j < |s.loaders| {
      assert StageOk(s, i) && StageOk(s, j);
      if s.loaders[i].held != {} && s.loaders[j].held != {} {
        RunningMayRun(s, i);
        RunningMayRun(s, j);
        OneRunning(s, i, j);
      }
      if j < i && s.loaders[i].turn == Resolved {
        EarlierTurnsResolved(s, i, j);
      }
    }
  }

  /** A failed cleanup or rollback is a barrier: no later loader ever acquires anything. */
  lemma RejectedTurnBlocksLaterLoaders(events: seq<Event>, i: nat, j: nat)
    ensures var s := Run(INIT, events);
            i < j < |s.loaders| && s.loaders[i].turn == Rejected
            ==> s.loaders[j].acquired == {} && s.loaders[j].turn != Resolved
                && (s.loaders[j].stage == AwaitingPrior || s.loaders[j].stage == InitFailed)
  {
    RunKeepsInv(INIT, events);
    var s := Run(INIT, events);
    if i < j < |s.loaders| && s.loaders[i].turn == Rejected {
      assert StageOk(s, j);
      if MayRun(s, j) {
        EarlierTurnsResolved(s, j, i);
      }
    }
  }

  /** A cleaned-up loader released exactly what it had acquired, persistence last; if its turn resolved
      nothing is left held. */
  lemma ReleasesExactlyWhatWasAcquired(events: seq<Event>, i: nat)
    ensures var s := Run(INIT, events);
            i < |s.loaders| && (s.loaders[i].stage == InitFailed || s.loaders[i].stage == Closed) ==>
              var l := s.loaders[i];
              && (set o | o in l.released) == l.acquired
              && NoDuplicates(l.released)
              && (Persistence in l.acquired ==> l.released[|l.released| - 1] == Persistence)
              && (l.turn == Resolved ==> l.held == {})
  {
    RunKeepsInv(INIT, events);
    var s := Run(INIT, events);
    if i < |s.loaders| {
      assert StageOk(s, i);
      if s.loaders[i].stage == InitFailed || s.loaders[i].stage == Closed {
        ReleasedIsAcquired(s.loaders[i].acquired);
      }
    }
  }

  lemma ReleasedIsAcquired(acquired: set<Owner>)
    ensures var r := ReleasedAfter(acquired, 3);
            && (set o | o in r) == acquired
            && NoDuplicates(r)
            && (Persistence in acquired ==> r[|r| - 1] == Persistence)
  {
    var a := ReleasedAfter(acquired, 1);
    var b := ReleasedAfter(acquired, 2);
    var r := ReleasedAfter(acquired, 3);
    assert ReleasedAfter(acquired, 0) == [];
    assert a == if Producers in acquired then [Producers] else [];
    assert b == a + if Consumers in acquired then [Consumers] else [];
    assert r == b + if Persistence in acquired then [Persistence] else [];
    assert Producers in r <==> Producers in acquired;
    assert Consumers in r <==> Consumers in acquired;
    assert Persistence in r <==> Persistence in acquired;
    forall o: Owner
      ensures o in r <==> o in acquired
    {
      match o {
        case Producers =>
        case Consumers =>
        case Persistence =>
      }
    }
  }

  /** So the service's refusal, and its silent sharing, never happen: whenever a loader starts
      persistence there is no previous owner. */
  lemma PersistenceNeverRefused(events: seq<Event>, i: nat)
    ensures var s := Run(INIT, events);
            i < |s.loaders| && s.loaders[i].stage == Importing ==>
              s.owner.None? && !PersistenceRefuses(s, s.loaders[i].dir)
  {
    RunKeepsInv(INIT, events);
    var s := Run(INIT, events);
    if i < |s.loaders| && s.loaders[i].stage == Importing {
      NoOwnerAtInitialize(s, i);
    }
  }

  // ---- settled turns ------------------------------------------------------------

  /** One step never unsettles or overturns a turn. */
  lemma StepKeepsSettled(s: State, e: Event, i: nat)
    requires Enabled(s, e) && i < |s.loaders| && s.loaders[i].turn != Open
    ensures i < |Step(s, e).loaders| && Step(s, e).loaders[i].turn == s.loaders[i].turn
  {
    hide CallsMade, PriorSettled, PriorRejected;
  }

  /** A turn settles once: what it was resolved or rejected with stands over every run, so whoever waits for
      it later sees the same. */
  lemma {:induction false} SettledTurnsStand(s: State, events: seq<Event>, i: nat)
    requires i < |s.loaders| && s.loaders[i].turn != Open
    ensures i < |Run(s, events).loaders| && Run(s, events).loaders[i].turn == s.loaders[i].turn
    decreases |events|
  {
    hide Step, Enabled;
    if events != [] {
      if Enabled(s, events[0]) {
        StepKeepsSettled(s, events[0], i);
        SettledTurnsStand(Step(s, events[0]), events[1..], i);
      } else {
        SettledTurnsStand(s, events[1..], i);
      }
    }
  }

  // ---- what one step may rely on ------------------------------------------------

  /** At most one loader holds owners. */
  predicate OneHolder(s: State) {
    forall i, j :: 0 <= i < |s.loaders| && 0 <= j < |s.loaders| && s.loaders[i].held != {} && s.loaders[j].held != {}
      ==> i == j
  }

  lemma InvMeansOneHolder(s: State)
    requires Inv(s)
    ensures OneHolder(s)
  {
    hide Inv, StageOk;
    forall i, j | 0 <= i < |s.loaders| && 0 <= j < |s.loaders| && s.loaders[i].held != {} && s.loaders[j].held != {}
      ensures i == j
    {
      HoldingIsRunning(s, i);
      HoldingIsRunning(s, j);
      OneRunning(s, i, j);
    }
  }

  lemma HoldingIsRunning(s: State, i: nat)
    requires Inv(s) && i < |s.loaders| && s.loaders[i].held != {}
    ensures MayRun(s, i) && s.loaders[i].turn != Resolved
  {
    assert StageOk(s, i);
  }

  /** An importing loader runs behind resolved turns only, and nobody holds anything. */
  lemma ImportingIsAlone(s: State, i: nat)
    requires Inv(s) && i < |s.loaders| && s.loaders[i].stage == Importing
    ensures forall j :: 0 <= j < i ==> s.loaders[j].turn == Resolved
    ensures forall j :: 0 <= j < |s.loaders| ==> s.loaders[j].held == {}
    ensures s.owner.None?
  {
    hide Inv, StageOk;
    ImportingIsFresh(s, i);
    NoOwnerAtInitialize(s, i);
    forall j | 0 <= j < i
      ensures s.loaders[j].turn == Resolved
    {
      EarlierTurnsResolved(s, i, j);
    }
    forall j | 0 <= j < |s.loaders|
      ensures s.loaders[j].held == {}
    {
      if s.loaders[j].held != {} {
        HoldingIsRunning(s, j);
        OneRunning(s, i, j);
        NothingHeld(s, i);
      }
    }
  }

  lemma NothingHeld(s: State, i: nat)
    requires Inv(s) && i < |s.loaders| && s.loaders[i].stage == Importing
    ensures s.loaders[i].held == {}
  {
    assert StageOk(s, i);
  }

  /** The last cleanup of a loader: everything it had acquired was released, and a resolved turn leaves
      nothing held. */
  lemma CleanedUp(s: State, i: nat)
    requires Inv(s) && i < |s.loaders| && (s.loaders[i].stage == InitFailed || s.loaders[i].stage == Closed)
    ensures (set o | o in s.loaders[i].released) == s.loaders[i].acquired
    ensures s.loaders[i].turn == Resolved ==> s.loaders[i].held == {}
  {
    assert StageOk(s, i);
    ReleasedIsAcquired(s.loaders[i].acquired);
  }
}
