/** What every step of `PersistenceSchedule` keeps, and its guarantees over every run. */
module PersistenceProofs {
  import opened Common
  import opened PersistenceSchedule

  // ---- the invariant ----------------------------------------------------------

  /** How many saves have been released: they form a prefix. */
  function ReleasedCount(s: State): int {
    |s.saves| - s.pendingSaveCount
  }

  /** Saves form one chain; behind the released prefix at most one is at work, the rest wait. */
  predicate Serialized(s: State) {
    var n := ReleasedCount(s);
    && s.saveChain == |s.saves| - 1
    && 0 <= n <= |s.saves|
    && (forall i :: 0 <= i < |s.saves| ==> s.saves[i].after == i - 1)
    && (forall i :: 0 <= i < |s.saves| ==> (s.saves[i].phase.Released? <==> i < n))
    && (forall i :: n < i < |s.saves| ==> s.saves[i].phase == Waiting)
  }

  /** The save at the front of the queue, if any. */
  function Front(s: State): Option<Phase>
    requires Serialized(s)
  {
    if ReleasedCount(s) < |s.saves| then Some(s.saves[ReleasedCount(s)].phase) else None
  }

  predicate Ordered(vs: seq<nat>) {
    forall i, j :: 0 <= i < j < |vs| ==> vs[i] <= vs[j]
  }

  predicate Monotone(s: State)
    requires Serialized(s)
  {
    && s.disk <= s.version
    && (Front(s).Some? && Front(s).value.Running? ==> s.disk <= Front(s).value.snapshot <= s.version)
    && Ordered(s.written) && (forall v :: v in s.written ==> v <= s.disk)
  }

  predicate SaveQueued(s: State)
    requires Serialized(s)
  {
    || ReleasedCount(s) + 1 < |s.saves|
    || Front(s) == Some(Waiting)
  }

  /** The save at work took everything along. */
  predicate SavingAll(s: State)
    requires Serialized(s)
  {
    Front(s).Some? && Front(s).value.Running? && Front(s).value.snapshot == s.version
  }

  /** Nothing unsaved is forgotten. */
  predicate Covered(s: State)
    requires Serialized(s)
  {
    || s.disk == s.version
    || s.dirty
    || SaveQueued(s)
    || SavingAll(s)
  }

  predicate Done(phase: Phase) {
    phase.Settled? || phase.Released?
  }

  /** After stop the last save is the final one, and it will write at least what existed at stop. Once it
      is done, its flag is the health report and its history says whether the disk is current. */
  predicate Final(s: State)
    requires Serialized(s)
  {
    if s.stopped then
      && s.stopSave == Some(|s.saves| - 1) && |s.saves| > 0
      && !s.dirty && s.timer.None?
      && s.stopVersion <= s.version
      && var last := s.saves[|s.saves| - 1].phase;
         && (last.Running? ==> s.stopVersion <= last.snapshot && last.base == s.disk)
         && (Done(last) ==>
               && (s.degraded <==> !last.ok) && (last.ok ==> last.landed)
               && (s.stopVersion <= s.disk <==> last.landed || s.stopVersion <= last.base))
    else
      s.stopSave.None? && (s.dirty <==> s.timer.Some?)
  }

  predicate Inv(s: State) {
    Serialized(s) && Monotone(s) && Final(s) && (!s.stopped ==> Covered(s))
  }

  lemma EnqueueKeepsSerialized(s: State)
    requires Serialized(s)
    ensures Serialized(EnqueueSave(s))
  {
  }

  lemma SameSavesSerialized(s: State, s': State)
    requires Serialized(s)
    requires s'.saves == s.saves && s'.saveChain == s.saveChain && s'.pendingSaveCount == s.pendingSaveCount
    ensures Serialized(s')
  {
  }

  /** Only the save at the front can be one that starts, settles or is released. */
  lemma FrontMoves(s: State, s': State, i: nat, phase: Phase)
    requires Serialized(s) && i < |s.saves| && i == ReleasedCount(s) && !phase.Waiting?
    requires s'.saves == s.saves[i := s.saves[i].(phase := phase)] && s'.saveChain == s.saveChain
    requires s'.pendingSaveCount == s.pendingSaveCount - if phase.Released? then 1 else 0
    ensures Serialized(s')
  {
  }

  lemma FrontOnly(s: State, e: Event)
    requires Serialized(s) && Enabled(s, e) && (e.SaveStarts? || e.SaveSucceeds? || e.SaveFails? || e.SaveReleased?)
    ensures e.index < |s.saves| && e.index == ReleasedCount(s)
  {
  }

  lemma StepKeepsSerialized(cfg: Config, s: State, e: Event)
    requires Serialized(s) && Enabled(s, e)
    ensures Serialized(Step(cfg, s, e))
  {
    hide Serialized, RetryDelay;
    if e.SaveStarts? || e.SaveSucceeds? || e.SaveFails? || e.SaveReleased? {
      FrontOnly(s, e);
      FrontMoves(s, Step(cfg, s, e), e.index, Step(cfg, s, e).saves[e.index].phase);
    } else {
      EnqueueKeepsSerialized(s);
      SameSavesSerialized(s, if Step(cfg, s, e).saves == s.saves then Step(cfg, s, e) else s);
      if Step(cfg, s, e).saves != s.saves {
        SameSavesSerialized(EnqueueSave(s), Step(cfg, s, e));
      }
    }
  }

  lemma WriteMonotone(s: State, v: nat)
    requires Ordered(s.written) && (forall w :: w in s.written ==> w <= s.disk) && s.disk <= v
    ensures Ordered(Write(s, v).written) && forall w :: w in Write(s, v).written ==> w <= v
  {
    var written := Write(s, v).written;
    forall i, j | 0 <= i < j < |written|
      ensures written[i] <= written[j]
    {
      assert written[i] in s.written;
    }
  }

  lemma StepKeepsInv(cfg: Config, s: State, e: Event)
    requires Inv(s) && Enabled(s, e)
    ensures Inv(Step(cfg, s, e))
  {
    hide Step, Serialized, Monotone, Final, Covered;
    StepKeepsSerialized(cfg, s, e);
    StepKeepsMonotone(cfg, s, e);
    StepKeepsFinal(cfg, s, e);
    StepKeepsCovered(cfg, s, e);
  }

  /** The save at the front after a step, if the step was about a save. */
  lemma FrontAfter(s: State, s': State, i: nat)
    requires Serialized(s) && Serialized(s') && i == ReleasedCount(s) == ReleasedCount(s') && i < |s'.saves|
    ensures Front(s') == Some(s'.saves[i].phase)
  {
  }

  /** What is on disk grows, and the running save is ahead of it. */
  lemma StepKeepsMonotone(cfg: Config, s: State, e: Event)
    requires Enabled(s, e) && Serialized(s) && Serialized(Step(cfg, s, e)) && Monotone(s)
    ensures Monotone(Step(cfg, s, e))
  {
    hide RetryDelay, Serialized;
    if e.SaveStarts? || e.SaveSucceeds? || e.SaveFails? || e.SaveReleased? {
      FrontOnly(s, e);
      SaveEventMonotone(cfg, s, e);
    } else {
      hide Ordered;
      OtherEventFront(cfg, s, e);
    }
  }

  lemma SaveEventMonotone(cfg: Config, s: State, e: Event)
    requires Enabled(s, e) && Serialized(s) && Serialized(Step(cfg, s, e)) && Monotone(s)
    requires (e.SaveStarts? || e.SaveSucceeds? || e.SaveFails? || e.SaveReleased?) && e.index == ReleasedCount(s)
    ensures Monotone(Step(cfg, s, e))
  {
    hide RetryDelay, Ordered, Serialized;
    if e.SaveSucceeds? || e.SaveFails? {
      WriteMonotone(s, s.saves[e.index].phase.snapshot);
    }
    if e.SaveReleased? {
      BehindFrontWaits(s, e.index + 1);
    }
  }

  lemma BehindFrontWaits(s: State, i: nat)
    requires Serialized(s) && i == ReleasedCount(s) + 1
    ensures i < |s.saves| ==> s.saves[i].phase == Waiting
  {
  }

  /** Other events leave the front alone, or put a waiting save there. */
  lemma OtherEventFront(cfg: Config, s: State, e: Event)
    requires Enabled(s, e) && Serialized(s) && Serialized(Step(cfg, s, e))
    requires !(e.SaveStarts? || e.SaveSucceeds? || e.SaveFails? || e.SaveReleased?)
    ensures Front(Step(cfg, s, e)) == Front(s) || Front(Step(cfg, s, e)) == Some(Waiting)
  {
    hide Serialized;
  }

  /** The final save stays last, and its flag is the report. */
  lemma StepKeepsFinal(cfg: Config, s: State, e: Event)
    requires Enabled(s, e) && Serialized(s) && Serialized(Step(cfg, s, e)) && Monotone(s) && Final(s)
    ensures Final(Step(cfg, s, e))
  {
    hide RetryDelay, Ordered, Serialized;
    if e.SaveStarts? || e.SaveSucceeds? || e.SaveFails? || e.SaveReleased? {
      FrontOnly(s, e);
      if e.index + 1 < |s.saves| {
        BehindFrontWaits(s, e.index + 1);
        LastWaits(s, e.index);
      }
    }
  }

  lemma LastWaits(s: State, i: nat)
    requires Serialized(s) && i == ReleasedCount(s) && i + 1 < |s.saves|
    ensures s.saves[|s.saves| - 1].phase == Waiting
  {
  }

  /** Until stop nothing unsaved is forgotten. */
  lemma StepKeepsCovered(cfg: Config, s: State, e: Event)
    requires Enabled(s, e) && Serialized(s) && Serialized(Step(cfg, s, e)) && Monotone(s)
    requires !s.stopped ==> Covered(s)
    ensures !Step(cfg, s, e).stopped ==> Covered(Step(cfg, s, e))
  {
    hide RetryDelay, Serialized, Ordered;
    if e.SaveStarts? || e.SaveSucceeds? || e.SaveFails? || e.SaveReleased? {
      FrontOnly(s, e);
      BehindFrontWaits(s, e.index + 1);
    } else {
      OtherEventFront(cfg, s, e);
      NewSaveWaits(s);
    }
  }

  /** A new save waits behind all others. */
  lemma NewSaveWaits(s: State)
    requires Serialized(s)
    ensures var s' := EnqueueSave(s);
            Serialized(s') && SaveQueued(s') && s'.saves[|s.saves|] == Save(|s.saves| - 1, Waiting)
  {
    EnqueueKeepsSerialized(s);
  }

  lemma {:induction false} RunKeepsInv(cfg: Config, s: State, events: seq<Event>)
    requires Inv(s)
    ensures Inv(Run(cfg, s, events))
    decreases |events|
  {
    hide Step, Inv;
    if events != [] {
      if Enabled(s, events[0]) {
        StepKeepsInv(cfg, s, events[0]);
        RunKeepsInv(cfg, Step(cfg, s, events[0]), events[1..]);
      } else {
        RunKeepsInv(cfg, s, events[1..]);
      }
    }
  }

  // ---- the guarantees ------------------------------------------------------------

  predicate AtWork(phase: Phase) {
    phase.Running? || phase.Settled?
  }

  /** Saves never overlap, and what is on disk never goes back to an older version. */
  lemma SavesNeverOverlap(cfg: Config, events: seq<Event>, i: nat, j: nat)
    ensures var s := Run(cfg, INIT, events);
            && (i < |s.saves| && j < |s.saves| && AtWork(s.saves[i].phase) && AtWork(s.saves[j].phase) ==> i == j)
            && Ordered(s.written) && s.disk <= s.version
            && s.pendingSaveCount >= 0
  {
    RunKeepsInv(cfg, INIT, events);
  }

  /** No lost update: until stop, whatever is not on disk is dirty with an armed timer, or a save is
      queued, or the running save took it along; so a clean bill of health means the disk is current. */
  lemma NoLostUpdate(cfg: Config, events: seq<Event>)
    ensures var s := Run(cfg, INIT, events);
            Serialized(s)
            && (!s.stopped && s.disk != s.version ==>
                  || (s.dirty && s.timer.Some?)
                  || SaveQueued(s)
                  || SavingAll(s))
            && (!s.stopped && !PendingFlush(s) ==> s.disk == s.version)
  {
    RunKeepsInv(cfg, INIT, events);
  }

  /** After stop no save is ever queued behind the final one; once that one succeeded the disk holds at
      least everything that existed at stop. */
  lemma {:induction false} NothingBehindFinalSave(cfg: Config, s: State, events: seq<Event>)
    requires Inv(s) && s.stopped
    ensures var s' := Run(cfg, s, events);
            && s'.stopped && |s'.saves| == |s.saves| && s'.stopSave == s.stopSave && s'.stopVersion == s.stopVersion
            && var last := s'.saves[s.stopSave.value].phase;
               (Done(last) && last.ok ==> s.stopVersion <= s'.disk)
    decreases |events|
  {
    if events != [] {
      if Enabled(s, events[0]) {
        StepKeepsInv(cfg, s, events[0]);
        NothingBehindFinalSave(cfg, Step(cfg, s, events[0]), events[1..]);
      } else {
        NothingBehindFinalSave(cfg, s, events[1..]);
      }
    }
  }

  /** What a quiet health report is worth after stop, over every run: the degraded flag is up exactly if
      the final save failed, and then it is never retried; without the flag the disk holds all that
      existed at stop; and in either case it does exactly if the final write landed or the disk was
      current before it. */
  lemma QuietAfterStop(cfg: Config, events: seq<Event>)
    ensures var s := Run(cfg, INIT, events);
            s.stopped && !PendingFlush(s) ==>
              && s.stopSave.Some? && s.stopSave.value < |s.saves|
              && var last := s.saves[s.stopSave.value].phase;
                 && last.Released?
                 && (s.degraded <==> !last.ok)
                 && (!s.degraded ==> s.stopVersion <= s.disk)
                 && (s.stopVersion <= s.disk <==> last.landed || s.stopVersion <= last.base)
  {
    hide Run;
    RunKeepsInv(cfg, INIT, events);
  }

  /** A failed final save that did not land leaves everything newer than the disk unsaved, for good:
      stopping in any reached state and letting the final save fail ends quiet and behind exactly if there
      was something to save. */
  lemma FailedFinalSaveIsNotRetried(cfg: Config, events: seq<Event>, now: int)
    ensures var s := Run(cfg, INIT, events);
            !s.stopped && s.pendingSaveCount == 0 ==>
              var n := |s.saves|;
              var s' := Run(cfg, s, [Stop(now), SaveStarts(n, now), SaveFails(n, false, now), SaveReleased(n, now)]);
              s'.stopped && !PendingFlush(s') && s'.degraded && s'.disk == s.disk && s'.stopVersion == s.version
              && (s'.disk < s'.stopVersion <==> s.disk != s.version)
  {
    hide Run;
    RunKeepsInv(cfg, INIT, events);
    var s := Run(cfg, INIT, events);
    if !s.stopped && s.pendingSaveCount == 0 {
      var n := |s.saves|;
      FailingStop(cfg, s, now);
    }
  }

  lemma FailingStop(cfg: Config, s: State, now: int)
    requires Inv(s) && !s.stopped && s.pendingSaveCount == 0
    ensures var n := |s.saves|;
            var s' := Run(cfg, s, [Stop(now), SaveStarts(n, now), SaveFails(n, false, now), SaveReleased(n, now)]);
            s'.stopped && !PendingFlush(s') && s'.degraded && s'.disk == s.disk && s'.stopVersion == s.version
  {
    hide Run;
    var n := |s.saves|;
    var events := [Stop(now), SaveStarts(n, now), SaveFails(n, false, now), SaveReleased(n, now)];
    assert events[0..] == events && events[4..] == [];
    RunAt(cfg, s, events, 0);
    var s1 := Step(cfg, s, events[0]);
    RunAt(cfg, s1, events, 1);
    var s2 := Step(cfg, s1, events[1]);
    RunAt(cfg, s2, events, 2);
    var s3 := Step(cfg, s2, events[2]);
    RunAt(cfg, s3, events, 3);
    RunNothing(cfg, Step(cfg, s3, events[3]));
  }

  lemma RunAt(cfg: Config, s: State, events: seq<Event>, k: nat)
    requires k < |events| && Enabled(s, events[k])
    ensures Run(cfg, s, events[k..]) == Run(cfg, Step(cfg, s, events[k]), events[k + 1..])
  {
    hide Step, Enabled;
    assert events[k..][1..] == events[k + 1..];
  }

  lemma RunNothing(cfg: Config, s: State)
    ensures Run(cfg, s, []) == s
  {
  }

  // ---- debounce bounds -----------------------------------------------------------

  /** The clock does not run back, no armed timer is overdue when anything else happens, and no save
      fails. */
  predicate Timely(cfg: Config, s: State, last: int, events: seq<Event>)
    decreases |events|
  {
    events == []
    || (var e := events[0];
        && last <= e.now && !e.SaveFails?
        && (s.timer.Some? ==> e.now <= s.timer.value)
        && Timely(cfg, if Enabled(s, e) then Step(cfg, s, e) else s, e.now, events[1..]))
  }

  predicate Debounced(cfg: Config, s: State, last: int) {
    && (s.dirty ==> s.timer.Some? && s.firstUnsavedAt.Some? && s.burstStartedAt == s.firstUnsavedAt)
    && (!s.dirty ==> s.timer.None? && s.burstStartedAt.None? && s.firstUnsavedAt.None?)
    && (s.dirty ==> s.firstUnsavedAt.value <= last <= s.timer.value <= s.firstUnsavedAt.value + cfg.maxIntervalMs)
    && (s.timerSaves != [] ==>
          var t := s.timerSaves[|s.timerSaves| - 1];
          && t <= last
          && (s.dirty ==> t <= s.burstStartedAt.value && t + Min(cfg.debounceMs, cfg.maxIntervalMs) <= s.timer.value))
    && Spaced(cfg, s.timerSaves)
  }

  predicate Spaced(cfg: Config, ts: seq<int>) {
    forall i :: 0 <= i < |ts| - 1 ==> ts[i] + Min(cfg.debounceMs, cfg.maxIntervalMs) <= ts[i + 1]
  }

  lemma StepKeepsDebounced(cfg: Config, s: State, last: int, e: Event)
    requires Debounced(cfg, s, last) && Enabled(s, e)
    requires last <= e.now && !e.SaveFails? && (s.timer.Some? ==> e.now <= s.timer.value)
    ensures Debounced(cfg, Step(cfg, s, e), e.now)
  {
    hide Spaced, RetryDelay;
    if e.TimerFires? && s.dirty {
      SpacedGrows(cfg, s.timerSaves, e.now);
    }
  }

  lemma SpacedGrows(cfg: Config, ts: seq<int>, t: int)
    requires Spaced(cfg, ts) && (ts != [] ==> ts[|ts| - 1] + Min(cfg.debounceMs, cfg.maxIntervalMs) <= t)
    ensures Spaced(cfg, ts + [t])
  {
  }

  /** Debounce bounds: however long the burst, the first unsaved mutation is handed to a save within the
      maximum interval; and timer-driven saves keep their distance. */
  lemma {:induction false} DebounceBounds(cfg: Config, s: State, last: int, events: seq<Event>)
    requires Debounced(cfg, s, last) && Timely(cfg, s, last, events)
    ensures var s' := Run(cfg, s, events);
            var end := if events == [] then last else events[|events| - 1].now;
            && (s'.firstUnsavedAt.Some? ==> end <= s'.firstUnsavedAt.value + cfg.maxIntervalMs)
            && (s'.dirty ==> s'.timer.Some? && s'.firstUnsavedAt.Some?
                             && s'.timer.value <= s'.firstUnsavedAt.value + cfg.maxIntervalMs)
            && Spaced(cfg, s'.timerSaves)
    decreases |events|
  {
    hide Step;
    if events != [] {
      var e := events[0];
      if Enabled(s, e) {
        StepKeepsDebounced(cfg, s, last, e);
        DebounceBounds(cfg, Step(cfg, s, e), e.now, events[1..]);
      } else {
        DebounceBounds(cfg, s, e.now, events[1..]);
      }
    }
  }

  lemma DebounceBoundsFromStart(cfg: Config, start: int, events: seq<Event>)
    requires Timely(cfg, INIT, start, events) && events != []
    ensures var s := Run(cfg, INIT, events);
            && (s.firstUnsavedAt.Some? ==> events[|events| - 1].now <= s.firstUnsavedAt.value + cfg.maxIntervalMs)
            && Spaced(cfg, s.timerSaves)
  {
    hide Run, Timely;
    DebounceBounds(cfg, INIT, start, events);
  }

  /** Stopping from any reached state: the final save is the last there will ever be. */
  lemma StopEndsTheChain(cfg: Config, before: seq<Event>, now: int, events: seq<Event>)
    ensures var s := Step(cfg, Run(cfg, INIT, before), Stop(now));
            var s' := Run(cfg, s, events);
            && |s'.saves| == |s.saves| > 0 && s'.stopped
            && var last := s'.saves[|s.saves| - 1].phase;
               (Done(last) && last.ok ==> s.stopVersion <= s'.disk)
  {
    hide Run;
    RunKeepsInv(cfg, INIT, before);
    var s0 := Run(cfg, INIT, before);
    StepKeepsInv(cfg, s0, Stop(now));
    NothingBehindFinalSave(cfg, Step(cfg, s0, Stop(now)), events);
  }
}
