/** Debounced, serialized saves as a state machine (electron/coordinator/persistence-scheduler.ts with
    its owner in electron/coordinator/service.ts). Promise continuations are separate steps: a queued
    save starts only after the promise it was chained on has settled. */
module PersistenceSchedule {
  import opened Common

  /** One save. It is chained on the run with index `after` (-1: on nothing); while running it holds the
      snapshot it took when it started. `base`, the version on disk at that moment, and `landed`, whether
      the write reached the disk, only record what happened. */
  datatype Phase =
    | Waiting
    | Running(snapshot: nat, base: nat)
    | Settled(ok: bool, landed: bool, base: nat)
    | Released(ok: bool, landed: bool, base: nat)

  datatype Save = Save(after: int, phase: Phase)

  datatype Config = Config(debounceMs: nat, maxIntervalMs: nat, retryBackoffMs: seq<nat>)

  const DEFAULT_CONFIG := Config(250, 2000, [1000, 5000, 30000])

  /** The coordinator's state is its `version`; `disk` is the version last written. The last four
      fields are histories. */
  datatype State = State(
    timer: Option<int>,
    burstStartedAt: Option<int>,
    dirty: bool,
    stopped: bool,
    retryAttempt: nat,
    pendingSaveCount: int,
    saves: seq<Save>,
    saveChain: int,
    stopSave: Option<nat>,
    degraded: bool,
    version: nat,
    disk: nat,
    written: seq<nat>,
    firstUnsavedAt: Option<int>,
    timerSaves: seq<int>,
    stopVersion: nat)

  const INIT := State(None, None, false, false, 0, 0, [], -1, None, false, 0, 0, [], None, [], 0)

  // ---- scheduling ---------------------------------------------------------

  function EnqueueSave(s: State): State {
    s.(dirty := false,
       firstUnsavedAt := None,
       pendingSaveCount := s.pendingSaveCount + 1,
       saves := s.saves + [Save(s.saveChain, Waiting)],
       saveChain := |s.saves|)
  }

  function SchedulePersist(cfg: Config, s: State, now: int): State {
    if s.stopped then s
    else
      var burst := if s.burstStartedAt.None? then now else s.burstStartedAt.value;
      var dueAt := Min(now + cfg.debounceMs, burst + cfg.maxIntervalMs);
      s.(dirty := true,
         burstStartedAt := Some(burst),
         firstUnsavedAt := if s.firstUnsavedAt.None? then Some(now) else s.firstUnsavedAt,
         timer := Some(now + Max(0, dueAt - now)))
  }

  function RetryDelay(cfg: Config, attempt: nat): nat {
    if cfg.retryBackoffMs == [] then 1000
    else cfg.retryBackoffMs[Min(attempt, |cfg.retryBackoffMs| - 1)]
  }

  function ScheduleRetry(cfg: Config, s: State, now: int): State {
    s.(dirty := true,
       firstUnsavedAt := if s.firstUnsavedAt.None? then Some(now) else s.firstUnsavedAt,
       timer := Some(now + RetryDelay(cfg, s.retryAttempt)),
       retryAttempt := s.retryAttempt + 1)
  }

  // ---- events -------------------------------------------------------------

  /** A failed save may or may not have reached the disk. */
  datatype Event =
    | Mutate(now: int)
    | TimerFires(now: int)
    | FlushNow(now: int)
    | Stop(now: int)
    | SaveStarts(index: nat, now: int)
    | SaveSucceeds(index: nat, now: int)
    | SaveFails(index: nat, landed: bool, now: int)
    | SaveReleased(index: nat, now: int)

  predicate Enabled(s: State, e: Event) {
    match e
    case TimerFires(now) => s.timer.Some? && s.timer.value <= now
    case SaveStarts(i, _) =>
      && i < |s.saves| && s.saves[i].phase == Waiting
      && var after := s.saves[i].after;
         after < 0 || (after < |s.saves| && s.saves[after].phase.Released?)
    case SaveSucceeds(i, _) => i < |s.saves| && s.saves[i].phase.Running?
    case SaveFails(i, _, _) => i < |s.saves| && s.saves[i].phase.Running?
    case SaveReleased(i, _) => i < |s.saves| && s.saves[i].phase.Settled?
    case _ => true
  }

  function SetPhase(s: State, i: nat, phase: Phase): State
    requires i < |s.saves|
  {
    s.(saves := s.saves[i := s.saves[i].(phase := phase)])
  }

  function Write(s: State, v: nat): State {
    s.(disk := v, written := s.written + [v])
  }

  function Step(cfg: Config, s: State, e: Event): State
    requires Enabled(s, e)
  {
    match e
    case Mutate(now) => SchedulePersist(cfg, s.(version := s.version + 1), now)
    case TimerFires(now) =>
      var s1 := s.(timer := None, burstStartedAt := None);
      if s.dirty then EnqueueSave(s1).(timerSaves := s.timerSaves + [now]) else s1
    case FlushNow(_) =>
      if s.stopSave.Some? then s else EnqueueSave(s.(timer := None, burstStartedAt := None))
    case Stop(_) =>
      if s.stopSave.Some? then s
      else EnqueueSave(s.(stopped := true, timer := None, burstStartedAt := None, stopVersion := s.version))
           .(stopSave := Some(|s.saves|))
    case SaveStarts(i, _) => SetPhase(s, i, Running(s.version, s.disk))
    case SaveSucceeds(i, _) =>
      var phase := s.saves[i].phase;
      SetPhase(Write(s, phase.snapshot), i, Settled(true, true, phase.base)).(degraded := false, retryAttempt := 0)
    case SaveFails(i, landed, now) =>
      var phase := s.saves[i].phase;
      var s1 := if landed then Write(s, phase.snapshot) else s;
      var s2 := SetPhase(s1, i, Settled(false, landed, phase.base)).(degraded := true);
      if s.stopped then s2 else ScheduleRetry(cfg, s2, now)
    case SaveReleased(i, _) =>
      var phase := s.saves[i].phase;
      SetPhase(s, i, Released(phase.ok, phase.landed, phase.base)).(pendingSaveCount := s.pendingSaveCount - 1)
  }

  function Run(cfg: Config, s: State, events: seq<Event>): State
    decreases |events|
  {
    if events == [] then s
    else Run(cfg, if Enabled(s, events[0]) then Step(cfg, s, events[0]) else s, events[1..])
  }

  predicate PendingFlush(s: State) {
    s.dirty || s.timer.Some? || s.pendingSaveCount > 0
  }
}
