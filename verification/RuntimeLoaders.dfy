/** The loader module's mutable state: the turn chain, each loader's flags and owners, and the service's
    persistence owner, changed step by step and proved against `RuntimeTurns`. Every event keeps the loaders
    valid: at most one of them holds owners. */
module RuntimeLoaders {
  import opened Common
  import opened RuntimeTurnProofs
  import opened RuntimeTurns

  class CoordinatorRuntimeLoaders {
    var loaders: seq<Loader>
    var previousTurn: int
    var persistenceOwner: Option<PersistenceOwner>

    ghost function State(): State
      reads this
    {
      RuntimeTurns.State(loaders, previousTurn, persistenceOwner)
    }

    ghost predicate Valid()
      reads this
    {
      Inv(State())
    }

    constructor ()
      ensures State() == INIT && Valid()
    {
      loaders, previousTurn, persistenceOwner := [], -1, None;
    }

    /** Queues a loader behind the previous turn and becomes the turn the next loader waits for. */
    method StartSerializedLoad(dir: string) returns (index: nat)
      requires Valid()
      modifies this
      ensures Valid() && OneHolder(State())
      ensures State() == Step(old(State()), StartLoader(dir))
      ensures index == |loaders| - 1 && loaders[index].prior == old(previousTurn)
    {
      hide Inv, OneHolder;
      StepKeepsInv(State(), StartLoader(dir));
      InvMeansOneHolder(Step(State(), StartLoader(dir)));
      index := |loaders|;
      loaders := loaders + [Loader(dir, previousTurn, false, AwaitingPrior, Open, {}, {}, [])];
      previousTurn := index;
    }

    /** The loader's own cleanup, called early: only remembered. */
    method Cancel(i: nat)
      requires Valid() && i < |loaders|
      modifies this`loaders
      ensures Valid()
      ensures State() == Step(old(State()), CancelLoader(i))
    {
      hide Inv;
      StepKeepsInv(State(), CancelLoader(i));
      loaders := loaders[i := loaders[i].(cancelled := true)];
    }

    /** Resolves or rejects the loader's turn, unless it is settled already: a settled turn is not overturned,
        an open one ends as asked, and nothing else about any loader changes. */
    method SettleTurn(i: nat, turn: Turn)
      requires i < |loaders|
      modifies this`loaders
      ensures old(loaders[i].turn) != Open ==> loaders == old(loaders)
      ensures old(loaders[i].turn) == Open ==> |loaders| == |old(loaders)| && loaders[i].turn == turn
      ensures loaders == old(loaders)[i := Settle(old(loaders)[i], turn)]
    {
      if loaders[i].turn != Open {
        return;
      }
      loaders := loaders[i := loaders[i].(turn := turn)];
    }

    method Enter(i: nat, stage: Stage)
      requires i < |loaders|
      modifies this`loaders
      ensures loaders == old(loaders)[i := old(loaders)[i].(stage := stage)]
    {
      loaders := loaders[i := loaders[i].(stage := stage)];
    }

    /** The wait for the prior turn ends. Behind a rejected turn the loader fails and passes the rejection on;
        it goes on to import only behind resolved turns, with nobody holding owners. */
    method ResumeAfterPrior(i: nat)
      requires Valid() && Enabled(State(), PriorSettles(i))
      modifies this`loaders
      ensures Valid()
      ensures i > 0 && loaders[i - 1].turn == Rejected ==> loaders[i].stage == InitFailed && loaders[i].turn == Rejected
      ensures loaders[i].stage == Importing ==>
                && (forall j :: 0 <= j < i ==> loaders[j].turn == Resolved)
                && (forall j :: 0 <= j < |loaders| ==> loaders[j].held == {})
      ensures State() == Step(old(State()), PriorSettles(i))
    {
      hide Inv;
      ghost var next := Step(State(), PriorSettles(i));
      StepKeepsInv(State(), PriorSettles(i));
      AfterPrior(State(), i);
      var prior := loaders[i].prior;
      if prior >= 0 && loaders[prior].turn == Rejected {
        Enter(i, InitFailed);
        SettleTurn(i, Rejected);
      } else if loaders[i].cancelled {
        Enter(i, Stopped);
        SettleTurn(i, Resolved);
      } else {
        Enter(i, Importing);
      }
      assert State() == next;
    }

    method FailImport(i: nat)
      requires Valid() && Enabled(State(), Event.ImportFails(i))
      modifies this`loaders
      ensures Valid()
      ensures State() == Step(old(State()), Event.ImportFails(i))
    {
      hide Inv;
      ghost var next := Step(State(), Event.ImportFails(i));
      StepKeepsInv(State(), Event.ImportFails(i));
      Enter(i, InitFailed);
      SettleTurn(i, Resolved);
      assert State() == next;
    }

    /** Takes persistence for the loader; false when the service throws. */
    method StartPersistence(i: nat) returns (ok: bool)
      requires i < |loaders|
      modifies this
      ensures previousTurn == old(previousTurn)
      ensures ok == !PersistenceRefuses(old(State()), old(loaders)[i].dir)
      ensures ok && old(persistenceOwner).None? ==>
                && persistenceOwner == Some(PersistenceOwner(i, old(loaders)[i].dir, false))
                && loaders == old(loaders)[i := old(loaders)[i].(acquired := old(loaders)[i].acquired + {Persistence})]
      ensures !ok || old(persistenceOwner).Some? ==>
                persistenceOwner == old(persistenceOwner) && loaders == old(loaders)
    {
      if persistenceOwner.Some? {
        return persistenceOwner.value.dir == loaders[i].dir && !persistenceOwner.value.stopping;
      }
      persistenceOwner := Some(PersistenceOwner(i, loaders[i].dir, false));
      Acquire(i, Persistence);
      return true;
    }

    method Acquire(i: nat, o: Owner)
      requires i < |loaders|
      modifies this`loaders
      ensures loaders == old(loaders)[i := old(loaders)[i].(acquired := old(loaders)[i].acquired + {o})]
    {
      loaders := loaders[i := loaders[i].(acquired := loaders[i].acquired + {o})];
    }

    /** The factory calls in order, up to the one that throws; the owners taken by then are what a
        rollback has to release. */
    method InitializeOwners(i: nat, failAt: nat)
      requires Valid() && Enabled(State(), Initialize(i, failAt))
      modifies this
      ensures State() == Step(old(State()), Initialize(i, failAt))
      ensures Valid() && OneHolder(State())
      ensures loaders[i].held == loaders[i].acquired && (failAt >= 5 <==> loaders[i].stage == Live)
      ensures failAt >= 5 ==> loaders[i].acquired == EVERYTHING
      ensures failAt > 1 <==> Persistence in loaders[i].acquired
    {
      hide Inv, StageOk, OneHolder;
      StepKeepsInv(State(), Initialize(i, failAt));
      InvMeansOneHolder(Step(State(), Initialize(i, failAt)));
      ImportingIsFresh(State(), i);
      NoOwnerAtInitialize(State(), i);
      var calls := Min(failAt, 1);
      if failAt > 1 {
        var ok := StartPersistence(i);
        if ok {
          calls := 2;
          if failAt > 2 {
            calls := 3;
            Acquire(i, Producers);
          }
          if failAt > 3 {
            calls := 4;
            Acquire(i, Consumers);
          }
          if failAt > 4 {
            calls := 5;
          }
        }
      }
      var l := loaders[i];
      assert l.acquired ==
             (if calls > 1 && old(persistenceOwner).None? then {Persistence} else {})
             + (if calls > 2 then {Producers} else {})
             + (if calls > 3 then {Consumers} else {});
      loaders := loaders[i := l.(held := l.acquired, stage := if calls == 5 then Live else RollingBack(0, false))];
    }

    method Close(i: nat)
      requires Valid() && Enabled(State(), BeginCleanup(i))
      modifies this`loaders
      ensures Valid()
      ensures State() == Step(old(State()), BeginCleanup(i))
    {
      hide Inv;
      StepKeepsInv(State(), BeginCleanup(i));
      Enter(i, Closing(0, false));
    }

    /** The owner is marked as stopping when its stop begins, and forgotten when it ends. */
    method MovePersistenceOwner(phase: nat, acquired: set<Owner>)
      requires phase < 3
      modifies this`persistenceOwner
      ensures persistenceOwner ==
              if Persistence !in acquired then old(persistenceOwner)
              else if phase == 2 then None
              else if phase == 1 && old(persistenceOwner).Some?
                then Some(old(persistenceOwner).value.(stopping := true))
              else old(persistenceOwner)
    {
      if Persistence in acquired {
        if phase == 2 {
          persistenceOwner := None;
        } else if phase == 1 && persistenceOwner.Some? {
          persistenceOwner := Some(persistenceOwner.value.(stopping := true));
        }
      }
    }

    /** One cleanup function of the three has settled. After the last one all that was acquired was released,
        and a resolved turn leaves nothing held. */
    method FinishPhase(i: nat, ok: bool)
      requires Valid() && Enabled(State(), CleanupPhase(i, ok))
      modifies this
      ensures State() == Step(old(State()), CleanupPhase(i, ok))
      ensures Valid() && OneHolder(State()) && loaders[i].acquired == old(loaders[i].acquired)
      ensures loaders[i].turn != Open ==> (set o | o in loaders[i].released) == loaders[i].acquired
      ensures loaders[i].turn == Resolved ==> loaders[i].held == {}
    {
      hide Inv, OneHolder;
      StepKeepsInv(State(), CleanupPhase(i, ok));
      InvMeansOneHolder(Step(State(), CleanupPhase(i, ok)));
      PhaseOutcome(State(), i, ok);
      SettlePhase(i, ok);
    }

    method SettlePhase(i: nat, ok: bool)
      requires Enabled(State(), CleanupPhase(i, ok))
      modifies this
      ensures State() == Step(old(State()), CleanupPhase(i, ok))
    {
      var l := loaders[i];
      var p := l.stage.phase;
      var o := CLEANUP_ORDER[p];
      var failed := l.stage.failed;
      if o in l.acquired {
        l := l.(released := l.released + [o]);
        if ok {
          l := l.(held := l.held - {o});
        } else {
          failed := true;
        }
      }
      MovePersistenceOwner(p, l.acquired);
      loaders := loaders[i := l.(stage := if l.stage.RollingBack? then RollingBack(p + 1, failed)
                                          else Closing(p + 1, failed))];
      if p == 2 {
        Enter(i, if l.stage.RollingBack? then InitFailed else Closed);
        SettleTurn(i, if failed then Rejected else Resolved);
      }
    }
  }

  lemma AfterPrior(s: State, i: nat)
    requires Inv(s) && Enabled(s, PriorSettles(i))
    ensures var s' := Step(s, PriorSettles(i));
            && |s'.loaders| == |s.loaders| && i < |s.loaders|
            && (i > 0 && s'.loaders[i - 1].turn == Rejected
                ==> s'.loaders[i].stage == InitFailed && s'.loaders[i].turn == Rejected)
            && (s'.loaders[i].stage == Importing ==>
                  && (forall j :: 0 <= j < i ==> s'.loaders[j].turn == Resolved)
                  && (forall j :: 0 <= j < |s'.loaders| ==> s'.loaders[j].held == {}))
  {
    StepKeepsInv(s, PriorSettles(i));
    assert StageOk(s, i) && s.loaders[i].prior == i - 1;
    var s' := Step(s, PriorSettles(i));
    if s'.loaders[i].stage == Importing {
      ImportingIsAlone(s', i);
    }
  }

  lemma PhaseOutcome(s: State, i: nat, ok: bool)
    requires Inv(s) && Enabled(s, CleanupPhase(i, ok))
    ensures var s' := Step(s, CleanupPhase(i, ok));
            && |s'.loaders| == |s.loaders| && s'.loaders[i].acquired == s.loaders[i].acquired
            && (s'.loaders[i].turn != Open ==> (set o | o in s'.loaders[i].released) == s'.loaders[i].acquired)
            && (s'.loaders[i].turn == Resolved ==> s'.loaders[i].held == {})
  {
    hide Inv, StageOk, ReleasedAfter;
    StepKeepsInv(s, CleanupPhase(i, ok));
    CleaningIsOpen(s, i);
    var s' := Step(s, CleanupPhase(i, ok));
    if s'.loaders[i].turn != Open {
      CleanedUp(s', i);
    }
  }

  lemma CleaningIsOpen(s: State, i: nat)
    requires Inv(s) && i < |s.loaders| && InCleanup(s.loaders[i].stage)
    ensures s.loaders[i].turn == Open
  {
    assert StageOk(s, i);
  }
}
