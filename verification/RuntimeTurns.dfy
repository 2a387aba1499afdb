/** Serialized coordinator runtimes as a state machine (server/coordinator-runtime-loader.ts with the
    persistence owner of electron/coordinator/service.ts). Each loader waits for the previous loader's
    turn; a turn ends by resolving or by being rejected. */
module RuntimeTurns {
  import opened Common

  datatype Owner = Persistence | Producers | Consumers

  datatype Turn = Open | Resolved | Rejected

  /** Where a loader is. Cleanups run in phases; `failed` remembers that one of them rejected. */
  datatype Stage =
    | AwaitingPrior
    | Importing
    | RollingBack(phase: nat, failed: bool)
    | Live
    | Closing(phase: nat, failed: bool)
    | Stopped
    | InitFailed
    | Closed

  /** `held`: acquired and not yet released successfully. `released`: the release calls made, in order. */
  datatype Loader = Loader(
    dir: string,
    prior: int,
    cancelled: bool,
    stage: Stage,
    turn: Turn,
    acquired: set<Owner>,
    held: set<Owner>,
    released: seq<Owner>)

  /** The module-level persistence owner of the service. */
  datatype PersistenceOwner = PersistenceOwner(loader: nat, dir: string, stopping: bool)

  datatype State = State(loaders: seq<Loader>, previous: int, owner: Option<PersistenceOwner>)

  const INIT := State([], -1, None)

  /** Persistence goes last: earlier cleanups may still change coordinator state. */
  const CLEANUP_ORDER := [Producers, Consumers, Persistence]

  /** The release calls made once the first `phases` cleanups have run. */
  function ReleasedAfter(acquired: set<Owner>, phases: nat): seq<Owner>
    requires phases <= 3
  {
    if phases == 0 then []
    else
      var o := CLEANUP_ORDER[phases - 1];
      ReleasedAfter(acquired, phases - 1) + (if o in acquired then [o] else [])
  }

  datatype Event =
    | StartLoader(dir: string)
    | CancelLoader(index: nat)
    | PriorSettles(index: nat)
    | ImportFails(index: nat)
    | Initialize(index: nat, failAt: nat)
    | BeginCleanup(index: nat)
    | CleanupPhase(index: nat, ok: bool)

  predicate PriorSettled(s: State, l: Loader) {
    l.prior < 0 || (l.prior < |s.loaders| && s.loaders[l.prior].turn != Open)
  }

  predicate PriorRejected(s: State, l: Loader) {
    0 <= l.prior < |s.loaders| && s.loaders[l.prior].turn == Rejected
  }

  predicate Enabled(s: State, e: Event) {
    match e
    case StartLoader(_) => true
    case CancelLoader(i) => i < |s.loaders|
    case PriorSettles(i) => i < |s.loaders| && s.loaders[i].stage == AwaitingPrior && PriorSettled(s, s.loaders[i])
    case ImportFails(i) => i < |s.loaders| && s.loaders[i].stage == Importing
    case Initialize(i, _) => i < |s.loaders| && s.loaders[i].stage == Importing
    case BeginCleanup(i) => i < |s.loaders| && s.loaders[i].stage == Live
    case CleanupPhase(i, _) => i < |s.loaders| && InCleanup(s.loaders[i].stage)
  }

  predicate InCleanup(stage: Stage) {
    (stage.RollingBack? || stage.Closing?) && stage.phase < 3
  }

  function Put(s: State, i: nat, l: Loader): State
    requires i < |s.loaders|
  {
    s.(loaders := s.loaders[i := l])
  }

  /** A turn settles once. */
  function Settle(l: Loader, turn: Turn): Loader {
    if l.turn == Open then l.(turn := turn) else l
  }

  // ---- initialisation -------------------------------------------------------

  /** The service refuses a second owner, unless it is the same directory and still running, which it
      shares without handing out a stop function. */
  predicate PersistenceRefuses(s: State, dir: string) {
    s.owner.Some? && !(s.owner.value.dir == dir && !s.owner.value.stopping)
  }

  /** The five factory calls in order: load the service, start persistence, start producers, subscribe
      consumers, emit repairs. `failAt` is the call that throws (5: none does). */
  function CallsMade(s: State, l: Loader, failAt: nat): nat {
    var planned := Min(failAt, 5);
    if planned > 1 && PersistenceRefuses(s, l.dir) then 1 else planned
  }

  function InitializeStep(s: State, i: nat, failAt: nat): State
    requires i < |s.loaders|
  {
    var l := s.loaders[i];
    var calls := CallsMade(s, l, failAt);
    var startsOwner := calls > 1 && s.owner.None?;
    var acquired :=
      (if startsOwner then {Persistence} else {})
      + (if calls > 2 then {Producers} else {})
      + (if calls > 3 then {Consumers} else {});
    var l1 := l.(acquired := acquired, held := acquired,
                 stage := if calls == 5 then Live else RollingBack(0, false));
    Put(s, i, l1).(owner := if startsOwner then Some(PersistenceOwner(i, l.dir, false)) else s.owner)
  }

  // ---- cleanup ----------------------------------------------------------------

  /** One cleanup function settles. Only acquired owners have one that does anything; the persistence
      owner is forgotten however its stop ends. */
  function CleanupStep(s: State, i: nat, ok: bool): State
    requires i < |s.loaders| && InCleanup(s.loaders[i].stage)
  {
    var l := s.loaders[i];
    var p := l.stage.phase;
    var o := CLEANUP_ORDER[p];
    var mine := o in l.acquired;
    var failed := l.stage.failed || (mine && !ok);
    var l1 := l.(held := if mine && ok then l.held - {o} else l.held,
                 released := if mine then l.released + [o] else l.released,
                 stage := if l.stage.RollingBack? then RollingBack(p + 1, failed) else Closing(p + 1, failed));
    var owner :=
      if o == Persistence && mine then None
      else if p == 1 && Persistence in l.acquired && s.owner.Some? then Some(s.owner.value.(stopping := true))
      else s.owner;
    Put(s, i, if p + 1 == 3 then FinishCleanup(l1, failed) else l1).(owner := owner)
  }

  /** All cleanups ran: the turn is released, or rejected if any of them failed. */
  function FinishCleanup(l: Loader, failed: bool): Loader {
    Settle(l.(stage := if l.stage.RollingBack? then InitFailed else Closed), if failed then Rejected else Resolved)
  }

  function Step(s: State, e: Event): State
    requires Enabled(s, e)
  {
    match e
    case StartLoader(dir) =>
      State(s.loaders + [Loader(dir, s.previous, false, AwaitingPrior, Open, {}, {}, [])], |s.loaders|, s.owner)
    case CancelLoader(i) => Put(s, i, s.loaders[i].(cancelled := true))
    case PriorSettles(i) =>
      var l := s.loaders[i];
      Put(s, i,
          if PriorRejected(s, l) then Settle(l.(stage := InitFailed), Rejected)
          else if l.cancelled then Settle(l.(stage := Stopped), Resolved)
          else l.(stage := Importing))
    case ImportFails(i) => Put(s, i, Settle(s.loaders[i].(stage := InitFailed), Resolved))
    case Initialize(i, failAt) => InitializeStep(s, i, failAt)
    case BeginCleanup(i) => Put(s, i, s.loaders[i].(stage := Closing(0, false)))
    case CleanupPhase(i, ok) => CleanupStep(s, i, ok)
  }

  function Run(s: State, events: seq<Event>): State
    decreases |events|
  {
    if events == [] then s
    else Run(if Enabled(s, events[0]) then Step(s, events[0]) else s, events[1..])
  }
}
