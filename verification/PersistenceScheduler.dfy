/** The scheduler itself: mutable timer, flags and save chain, one method per turn of the event loop,
    proved against `PersistenceSchedule`. Every turn keeps the scheduler valid, so nothing unsaved is ever
    out of sight of the dirty flag and the pending saves. */
module PersistenceScheduler {
  import opened Common
  import opened PersistenceProofs
  import opened PersistenceSchedule

  class CoordinatorPersistenceScheduler {
    const cfg: Config
    var timer: Option<int>
    var burstStartedAt: Option<int>
    var dirty: bool
    var stopped: bool
    var retryAttempt: nat
    var pendingSaveCount: int
    var saves: seq<Save>
    var saveChain: int
    var stopSave: Option<nat>
    var degraded: bool
    var version: nat
    var disk: nat
    ghost var written: seq<nat>
    ghost var firstUnsavedAt: Option<int>
    ghost var timerSaves: seq<int>
    ghost var stopVersion: nat

    ghost function State(): State
      reads this
    {
      PersistenceSchedule.State(timer, burstStartedAt, dirty, stopped, retryAttempt, pendingSaveCount, saves, saveChain,
                                stopSave, degraded, version, disk, written, firstUnsavedAt, timerSaves, stopVersion)
    }

    ghost predicate Valid()
      reads this
    {
      Inv(State())
    }

    /** Until stop, whatever is not on disk is known to be unsaved or has a save on its way. */
    ghost predicate NothingForgotten()
      reads this
    {
      !stopped && disk != version ==> dirty || pendingSaveCount > 0
    }

    constructor (cfg: Config)
      ensures State() == INIT && this.cfg == cfg && Valid()
    {
      this.cfg := cfg;
      timer, burstStartedAt, dirty, stopped := None, None, false, false;
      retryAttempt, pendingSaveCount, saves, saveChain := 0, 0, [], -1;
      stopSave, degraded, version := None, false, 0;
      disk, written, firstUnsavedAt, timerSaves, stopVersion := 0, [], None, [], 0;
    }

    /** The new save waits behind all others, and until it starts everything unsaved is covered by it. */
    method RunSave() returns (index: nat)
      modifies this`dirty, this`firstUnsavedAt, this`pendingSaveCount, this`saves, this`saveChain
      ensures State() == EnqueueSave(old(State()))
      ensures index == |saves| - 1 && saves[..index] == old(saves)
      ensures old(Serialized(State())) ==>
                && Serialized(State()) && SaveQueued(State())
                && saves[index] == Save(index - 1, Waiting)
    {
      hide Serialized, SaveQueued;
      if Serialized(State()) {
        NewSaveWaits(State());
      }
      index := |saves|;
      dirty := false;
      firstUnsavedAt := None;
      pendingSaveCount := pendingSaveCount + 1;
      saves := saves + [Save(saveChain, Waiting)];
      saveChain := |saves| - 1;
    }

    method EndBurst()
      modifies this`timer, this`burstStartedAt
      ensures timer.None? && burstStartedAt.None?
    {
      timer, burstStartedAt := None, None;
    }

    method ArmTimer(now: int, delayMs: int)
      modifies this`timer
      ensures timer == Some(now + delayMs)
    {
      timer := None;
      timer := Some(now + delayMs);
    }

    method RememberChange(now: int)
      modifies this`dirty, this`firstUnsavedAt, this`burstStartedAt
      ensures dirty
      ensures firstUnsavedAt == if old(firstUnsavedAt).None? then Some(now) else old(firstUnsavedAt)
      ensures burstStartedAt == if old(burstStartedAt).None? then Some(now) else old(burstStartedAt)
    {
      dirty := true;
      if firstUnsavedAt.None? {
        firstUnsavedAt := Some(now);
      }
      if burstStartedAt.None? {
        burstStartedAt := Some(now);
      }
    }

    /** Nothing happens after stop. Before it the change is remembered, with a timer due within the debounce
        delay and no later than the burst may last. */
    method SchedulePersist(now: int)
      modifies this`dirty, this`firstUnsavedAt, this`burstStartedAt, this`timer
      ensures State() == PersistenceSchedule.SchedulePersist(cfg, old(State()), now)
      ensures old(Valid()) ==> Valid()
      ensures !stopped ==>
                && dirty && timer.Some? && burstStartedAt.Some?
                && now <= timer.value <= now + cfg.debounceMs
                && timer.value <= Max(now, burstStartedAt.value + cfg.maxIntervalMs)
                && (old(burstStartedAt).Some? ==> burstStartedAt == old(burstStartedAt))
    {
      hide Inv;
      ghost var before := State();
      if Valid() {
        ScheduleKeepsInv(cfg, before, now);
      }
      if stopped {
        return;
      }
      RememberChange(now);
      var dueAt := Min(now + cfg.debounceMs, burstStartedAt.value + cfg.maxIntervalMs);
      ArmTimer(now, Max(0, dueAt - now));
    }

    /** The coordinator changes state; its event reaches the scheduler at once. */
    method MutateAndSchedule(now: int)
      requires Valid()
      modifies this
      ensures State() == Step(cfg, old(State()), Mutate(now))
      ensures Valid() && NothingForgotten() && version == old(version) + 1 && (!stopped ==> dirty)
    {
      hide Inv;
      StepKeepsInv(cfg, State(), Mutate(now));
      InvForgetsNothing(Step(cfg, State(), Mutate(now)));
      version := version + 1;
      SchedulePersist(now);
    }

    /** Whatever was unsaved when the timer fired has a save queued for it. */
    method OnTimer(now: int)
      requires Valid() && Enabled(State(), TimerFires(now))
      modifies this
      ensures State() == Step(cfg, old(State()), TimerFires(now))
      ensures Valid() && NothingForgotten() && !dirty && timer.None?
      ensures old(dirty) ==> Serialized(State()) && SaveQueued(State()) && |saves| == |old(saves)| + 1
    {
      hide Inv, Serialized, SaveQueued;
      StepKeepsInv(cfg, State(), TimerFires(now));
      InvForgetsNothing(Step(cfg, State(), TimerFires(now)));
      TimerShape(cfg, State(), now);
      SaveIfDirty(now);
    }

    method SaveIfDirty(now: int)
      requires Enabled(State(), TimerFires(now))
      modifies this`timer, this`burstStartedAt, this`timerSaves
      modifies this`dirty, this`firstUnsavedAt, this`pendingSaveCount, this`saves, this`saveChain
      ensures State() == Step(cfg, old(State()), TimerFires(now))
    {
      hide Serialized, SaveQueued;
      EndBurst();
      if dirty {
        var queued := RunSave();
        timerSaves := timerSaves + [now];
      }
    }

    /** The result is the save whose promise the caller gets: a new one behind all others, or the final one. */
    method FlushNow(now: int) returns (joined: nat)
      requires Valid()
      modifies this
      ensures State() == Step(cfg, old(State()), Event.FlushNow(now))
      ensures Valid() && NothingForgotten()
      ensures joined == |saves| - 1 && (old(stopSave).Some? ==> joined == old(stopSave).value)
    {
      hide Inv;
      StepKeepsInv(cfg, State(), Event.FlushNow(now));
      InvForgetsNothing(Step(cfg, State(), Event.FlushNow(now)));
      FinalIsLast(State());
      joined := JoinSave(now);
    }

    method JoinSave(now: int) returns (joined: nat)
      modifies this`timer, this`burstStartedAt
      modifies this`dirty, this`firstUnsavedAt, this`pendingSaveCount, this`saves, this`saveChain
      ensures State() == Step(cfg, old(State()), Event.FlushNow(now))
      ensures joined == if stopSave.Some? then stopSave.value else |old(saves)|
    {
      hide Serialized, SaveQueued;
      if stopSave.Some? {
        return stopSave.value;
      }
      EndBurst();
      joined := RunSave();
    }

    method Stop(now: int) returns (joined: nat)
      requires Valid()
      modifies this
      ensures State() == Step(cfg, old(State()), Event.Stop(now))
      ensures Valid() && stopped && !dirty && timer.None?
      ensures stopSave == Some(joined) && joined == |saves| - 1
      ensures old(!stopped) ==> stopVersion == version && saves[joined].phase == Waiting
    {
      hide Inv, Serialized;
      StepKeepsInv(cfg, State(), Event.Stop(now));
      StopShape(cfg, State(), now);
      if stopSave.None? {
        QueueFinalSave(now);
      }
      return stopSave.value;
    }

    method MarkStopped()
      modifies this`stopped, this`timer, this`burstStartedAt, this`stopVersion
      ensures stopped && timer.None? && burstStartedAt.None? && stopVersion == version
    {
      stopped := true;
      EndBurst();
      stopVersion := version;
    }

    method QueueFinalSave(now: int)
      requires stopSave.None?
      modifies this`stopped, this`timer, this`burstStartedAt, this`stopVersion, this`stopSave
      modifies this`dirty, this`firstUnsavedAt, this`pendingSaveCount, this`saves, this`saveChain
      ensures State() == Step(cfg, old(State()), Event.Stop(now))
    {
      hide Serialized, SaveQueued;
      MarkStopped();
      var queued := RunSave();
      stopSave := Some(queued);
    }

    /** A save starts with the newest state, and only when every earlier save is out of the way. */
    method BeginSave(i: nat, now: int)
      requires Valid() && Enabled(State(), SaveStarts(i, now))
      modifies this`saves
      ensures State() == Step(cfg, old(State()), SaveStarts(i, now))
      ensures Valid() && NothingForgotten()
      ensures saves[i].phase == Running(version, disk) && forall j :: 0 <= j < i ==> saves[j].phase.Released?
    {
      StepKeepsInv(cfg, State(), SaveStarts(i, now));
      InvForgetsNothing(Step(cfg, State(), SaveStarts(i, now)));
      EarlierAreReleased(State(), i, now);
      saves := saves[i := saves[i].(phase := Running(version, disk))];
    }

    method WriteDisk(v: nat)
      modifies this`disk, this`written
      ensures State() == Write(old(State()), v)
    {
      disk := v;
      written := written + [v];
    }

    method Settle(i: nat, ok: bool, landed: bool)
      requires i < |saves| && saves[i].phase.Running?
      modifies this`saves
      ensures State() == SetPhase(old(State()), i, Settled(ok, landed, old(saves)[i].phase.base))
    {
      saves := saves[i := saves[i].(phase := Settled(ok, landed, saves[i].phase.base))];
    }

    /** The disk moves forward to the snapshot, and the report is healthy again. */
    method RecordSaveSuccess(i: nat, now: int)
      requires Valid() && Enabled(State(), SaveSucceeds(i, now))
      modifies this
      ensures State() == Step(cfg, old(State()), SaveSucceeds(i, now))
      ensures Valid() && NothingForgotten()
      ensures old(disk) <= disk == old(saves)[i].phase.snapshot <= version && !degraded
    {
      hide Write, SetPhase, Inv;
      StepKeepsInv(cfg, State(), SaveSucceeds(i, now));
      InvForgetsNothing(Step(cfg, State(), SaveSucceeds(i, now)));
      RunningIsAhead(State(), i);
      DiskAfterSuccess(cfg, State(), i, now);
      WriteDisk(saves[i].phase.snapshot);
      Settle(i, true, true);
      degraded := false;
      retryAttempt := 0;
    }

    /** The report is degraded and, until stop, the failure is retried after the backoff. */
    method RecordSaveFailure(i: nat, landed: bool, now: int)
      requires Valid() && Enabled(State(), SaveFails(i, landed, now))
      modifies this
      ensures State() == Step(cfg, old(State()), SaveFails(i, landed, now))
      ensures Valid() && NothingForgotten() && degraded
      ensures if stopped then !dirty && timer.None?
              else (dirty && timer == Some(now + RetryDelay(cfg, old(retryAttempt)))
                    && retryAttempt == old(retryAttempt) + 1)
    {
      hide Write, SetPhase, ScheduleRetry, RetryDelay, Inv;
      StepKeepsInv(cfg, State(), SaveFails(i, landed, now));
      InvForgetsNothing(Step(cfg, State(), SaveFails(i, landed, now)));
      FailureIsRetried(cfg, State(), i, landed, now);
      if landed {
        WriteDisk(saves[i].phase.snapshot);
      }
      Settle(i, false, landed);
      degraded := true;
      if stopped {
        return;
      }
      RetryLater(now);
    }

    method RetryLater(now: int)
      modifies this`dirty, this`firstUnsavedAt, this`retryAttempt, this`timer
      ensures State() == ScheduleRetry(cfg, old(State()), now)
    {
      dirty := true;
      if firstUnsavedAt.None? {
        firstUnsavedAt := Some(now);
      }
      var delay := 1000;
      if cfg.retryBackoffMs != [] {
        delay := cfg.retryBackoffMs[Min(retryAttempt, |cfg.retryBackoffMs| - 1)];
      }
      retryAttempt := retryAttempt + 1;
      ArmTimer(now, delay);
    }

    method ReleaseSave(i: nat, now: int)
      requires Valid() && Enabled(State(), SaveReleased(i, now))
      modifies this
      ensures State() == Step(cfg, old(State()), SaveReleased(i, now))
      ensures Valid() && NothingForgotten()
    {
      StepKeepsInv(cfg, State(), SaveReleased(i, now));
      InvForgetsNothing(Step(cfg, State(), SaveReleased(i, now)));
      var phase := saves[i].phase;
      saves := saves[i := saves[i].(phase := Released(phase.ok, phase.landed, phase.base))];
      pendingSaveCount := pendingSaveCount - 1;
    }

    /** The health report. A report of nothing pending means the disk is current, until stop; after stop it
        means so unless the report is degraded. */
    method GetHealth() returns (pendingFlush: bool, isDegraded: bool)
      requires Valid()
      ensures pendingFlush == PendingFlush(State()) && isDegraded == degraded
      ensures !pendingFlush && !stopped ==> disk == version
      ensures !pendingFlush && stopped && !isDegraded ==> stopVersion <= disk
    {
      pendingFlush := dirty || timer != None || pendingSaveCount > 0;
      isDegraded := degraded;
    }
  }

  lemma TimerShape(cfg: Config, s: State, now: int)
    requires Inv(s) && Enabled(s, TimerFires(now))
    ensures var s' := Step(cfg, s, TimerFires(now));
            && !s'.dirty && s'.timer.None?
            && (s.dirty ==> Serialized(s') && SaveQueued(s') && |s'.saves| == |s.saves| + 1)
  {
    hide Monotone, Final, Covered, Serialized, SaveQueued;
    NewSaveWaits(s);
    if s.dirty {
      SameChain(EnqueueSave(s), Step(cfg, s, TimerFires(now)));
    }
  }

  lemma SameChain(s: State, s': State)
    requires Serialized(s)
    requires s'.saves == s.saves && s'.saveChain == s.saveChain && s'.pendingSaveCount == s.pendingSaveCount
    ensures Serialized(s') && (SaveQueued(s') <==> SaveQueued(s))
  {
  }

  lemma FinalIsLast(s: State)
    requires Inv(s)
    ensures s.stopSave.Some? ==> s.stopSave.value == |s.saves| - 1
  {
    hide Serialized, Monotone, Covered;
  }

  lemma InvForgetsNothing(s: State)
    requires Inv(s)
    ensures !s.stopped && s.disk != s.version ==> s.dirty || s.pendingSaveCount > 0
  {
  }

  lemma ScheduleKeepsInv(cfg: Config, s: State, now: int)
    requires Inv(s)
    ensures Inv(PersistenceSchedule.SchedulePersist(cfg, s, now))
  {
  }

  lemma StopShape(cfg: Config, s: State, now: int)
    requires Inv(s)
    ensures var s' := Step(cfg, s, Event.Stop(now));
            && s'.stopped && !s'.dirty && s'.timer.None?
            && |s'.saves| > 0 && s'.stopSave == Some(|s'.saves| - 1)
            && (!s.stopped ==> s'.stopVersion == s'.version && s'.saves[|s'.saves| - 1].phase == Waiting)
  {
    hide Monotone, Covered;
  }

  lemma InvIsSerialized(s: State)
    requires Inv(s)
    ensures Serialized(s)
  {
  }

  lemma EarlierAreReleased(s: State, i: nat, now: int)
    requires Inv(s) && Enabled(s, SaveStarts(i, now))
    ensures forall j :: 0 <= j < i ==> s.saves[j].phase.Released?
  {
  }

  lemma RunningIsAhead(s: State, i: nat)
    requires Inv(s) && i < |s.saves| && s.saves[i].phase.Running?
    ensures s.disk <= s.saves[i].phase.snapshot <= s.version
  {
    assert i == ReleasedCount(s);
  }

  lemma DiskAfterSuccess(cfg: Config, s: State, i: nat, now: int)
    requires Enabled(s, SaveSucceeds(i, now))
    ensures var s' := Step(cfg, s, SaveSucceeds(i, now));
            s'.disk == s.saves[i].phase.snapshot && s'.version == s.version && !s'.degraded
  {
  }

  lemma FailureIsRetried(cfg: Config, s: State, i: nat, landed: bool, now: int)
    requires Inv(s) && Enabled(s, SaveFails(i, landed, now))
    ensures var s' := Step(cfg, s, SaveFails(i, landed, now));
            && s'.degraded && s'.stopped == s.stopped
            && if s.stopped then !s'.dirty && s'.timer.None?
               else
                 s'.dirty && s'.timer == Some(now + RetryDelay(cfg, s.retryAttempt))
                 && s'.retryAttempt == s.retryAttempt + 1
  {
    hide Serialized, Monotone, Covered;
  }
}
