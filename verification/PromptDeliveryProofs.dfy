/** What every step of `PromptDeliveries` keeps, and what holds over whole runs. */
module PromptDeliveryProofs {
  import opened Common
  import opened PromptDeliveries

  // ---- the chains ---------------------------------------------------------

  predicate Links(ds: seq<Delivery>) {
    forall j :: 0 <= j < |ds| ==>
      && -1 <= ds[j].after < j
      && (ds[j].after >= 0 ==> ds[ds[j].after].target == ds[j].target)
  }

  /** Behind an unreleased delivery everything for the same target still waits. */
  predicate InOrder(ds: seq<Delivery>) {
    forall i, j :: 0 <= i < j < |ds| && ds[i].target == ds[j].target && ds[i].phase != Released
      ==> ds[j].phase == Waiting && ds[j].after >= i
  }

  /** A target is reserved exactly while it has an unreleased delivery, by the last of them. */
  predicate Heads(ds: seq<Delivery>, chains: map<Target, nat>) {
    && (forall t :: t in chains ==> chains[t] < |ds| && ds[chains[t]].target == t && ds[chains[t]].phase != Released)
    && (forall i :: 0 <= i < |ds| && ds[i].phase != Released ==> ds[i].target in chains && i <= chains[ds[i].target])
  }

  predicate ChainsOk(ds: seq<Delivery>, chains: map<Target, nat>) {
    Links(ds) && InOrder(ds) && Heads(ds, chains)
  }

  lemma AdmitKeepsChains(ds: seq<Delivery>, chains: map<Target, nat>, key: Key, t: Target)
    requires ChainsOk(ds, chains)
    ensures var after: int := if t in chains then chains[t] else -1;
            ChainsOk(ds + [Delivery(key, t, after, Waiting, false)], chains[t := |ds|])
  {
    hide Links, InOrder, Heads;
    var after: int := if t in chains then chains[t] else -1;
    var d := Delivery(key, t, after, Waiting, false);
    AdmitKeepsLinks(ds, chains, d);
    AdmitKeepsOrder(ds, chains, d);
    AdmitKeepsHeads(ds, chains, d);
  }

  lemma AdmitKeepsOrder(ds: seq<Delivery>, chains: map<Target, nat>, d: Delivery)
    requires InOrder(ds) && Heads(ds, chains) && d.phase == Waiting
    requires d.after == if d.target in chains then chains[d.target] else -1
    ensures InOrder(ds + [d])
  {
    var ds' := ds + [d];
    assert forall i :: 0 <= i < |ds| ==> ds'[i] == ds[i];
  }

  lemma AdmitKeepsHeads(ds: seq<Delivery>, chains: map<Target, nat>, d: Delivery)
    requires Heads(ds, chains) && d.phase == Waiting
    ensures Heads(ds + [d], chains[d.target := |ds|])
  {
    var ds' := ds + [d];
    assert forall i :: 0 <= i < |ds| ==> ds'[i] == ds[i];
    assert ds'[|ds|] == d;
  }

  lemma AdmitKeepsLinks(ds: seq<Delivery>, chains: map<Target, nat>, d: Delivery)
    requires Links(ds) && Heads(ds, chains)
    requires d.after == if d.target in chains then chains[d.target] else -1
    ensures Links(ds + [d])
  {
  }

  /** A delivery that keeps its place in its chain. */
  predicate KeepsPlace(d: Delivery, d': Delivery) {
    d'.key == d.key && d'.target == d.target && d'.after == d.after
  }

  lemma PutKeepsLinks(ds: seq<Delivery>, j: nat, d: Delivery)
    requires Links(ds) && j < |ds| && KeepsPlace(ds[j], d)
    ensures Links(ds[j := d])
  {
  }

  /** A delivery whose turn came has nothing unreleased before it. */
  lemma TurnMeansFirst(ds: seq<Delivery>, j: nat, i: nat)
    requires Links(ds) && InOrder(ds) && i < j < |ds| && ds[i].target == ds[j].target
    requires ds[j].phase == Waiting ==> ds[j].after < 0 || ds[ds[j].after].phase == Released
    ensures ds[i].phase == Released
  {
  }

  /** With nothing unreleased before it a delivery may move to any later phase. */
  lemma PutKeepsOrder(ds: seq<Delivery>, j: nat, d: Delivery)
    requires InOrder(ds) && j < |ds| && KeepsPlace(ds[j], d)
    requires ds[j].phase == Released ==> d.phase == Released
    requires d.phase == ds[j].phase
             || forall i :: 0 <= i < j && ds[i].target == ds[j].target ==> ds[i].phase == Released
    ensures InOrder(ds[j := d])
  {
  }

  lemma BeginKeepsChains(ds: seq<Delivery>, chains: map<Target, nat>, j: nat, phase: Phase)
    requires ChainsOk(ds, chains) && j < |ds| && phase != Released
    requires ds[j].phase == Writing || ds[j].phase == Waiting
    requires ds[j].phase == Waiting ==> ds[j].after < 0 || ds[ds[j].after].phase == Released
    ensures ChainsOk(ds[j := ds[j].(phase := phase)], chains)
  {
    hide Heads, Links, InOrder;
    var d := ds[j].(phase := phase);
    PutKeepsLinks(ds, j, d);
    NothingBefore(ds, j);
    PutKeepsOrder(ds, j, d);
    PhaseKeepsHeads(ds, chains, j, phase);
  }

  lemma NothingBefore(ds: seq<Delivery>, j: nat)
    requires Links(ds) && InOrder(ds) && j < |ds|
    requires ds[j].phase == Waiting ==> ds[j].after < 0 || ds[ds[j].after].phase == Released
    ensures forall i :: 0 <= i < j && ds[i].target == ds[j].target ==> ds[i].phase == Released
  {
    hide Links, InOrder;
    forall i | 0 <= i < j && ds[i].target == ds[j].target
      ensures ds[i].phase == Released
    {
      TurnMeansFirst(ds, j, i);
    }
  }

  lemma PhaseKeepsHeads(ds: seq<Delivery>, chains: map<Target, nat>, j: nat, phase: Phase)
    requires Heads(ds, chains) && j < |ds| && phase != Released && ds[j].phase != Released
    ensures Heads(ds[j := ds[j].(phase := phase)], chains)
  {
  }

  lemma ReleaseKeepsChains(ds: seq<Delivery>, chains: map<Target, nat>, j: nat)
    requires ChainsOk(ds, chains) && j < |ds| && ds[j].phase == Finished
    ensures var t := ds[j].target;
            ChainsOk(ds[j := ds[j].(phase := Released)], if t in chains && chains[t] == j then chains - {t} else chains)
  {
    hide Heads, Links, InOrder;
    var d := ds[j].(phase := Released);
    PutKeepsLinks(ds, j, d);
    NothingBefore(ds, j);
    PutKeepsOrder(ds, j, d);
    ReleaseKeepsHeads(ds, chains, j);
  }

  lemma ReleaseKeepsHeads(ds: seq<Delivery>, chains: map<Target, nat>, j: nat)
    requires Heads(ds, chains) && j < |ds|
    requires forall i :: 0 <= i < j && ds[i].target == ds[j].target ==> ds[i].phase == Released
    ensures var t := ds[j].target;
            Heads(ds[j := ds[j].(phase := Released)], if t in chains && chains[t] == j then chains - {t} else chains)
  {
  }

  lemma SettleKeepsChains(ds: seq<Delivery>, chains: map<Target, nat>, j: nat)
    requires ChainsOk(ds, chains) && j < |ds|
    ensures ChainsOk(ds[j := ds[j].(settled := true)], chains)
  {
    hide Heads, Links, InOrder;
    var d := ds[j].(settled := true);
    PutKeepsLinks(ds, j, d);
    PutKeepsOrder(ds, j, d);
    SettleKeepsHeads(ds, chains, j);
  }

  lemma SettleKeepsHeads(ds: seq<Delivery>, chains: map<Target, nat>, j: nat)
    requires Heads(ds, chains) && j < |ds|
    ensures Heads(ds[j := ds[j].(settled := true)], chains)
  {
  }

  // ---- capacity -----------------------------------------------------------

  ghost predicate CapsOk(chains: map<Target, nat>) {
    && |chains.Keys| <= MAX_DELIVERIES_GLOBAL
    && forall run :: |TargetsOf(chains, run)| <= MAX_DELIVERIES_PER_RUN
  }

  lemma SubsetIsSmaller<T>(a: set<T>, b: set<T>)
    requires a <= b
    ensures |a| <= |b|
  {
    assert |b| == |a| + |b - a| by {
      assert b == a + (b - a);
    }
  }

  lemma AddingOne<T>(a: set<T>, b: set<T>, x: T)
    requires b <= a + {x}
    ensures |b| <= |a| + 1
  {
    SubsetIsSmaller(b, a + {x});
  }

  lemma ReservingKeepsCaps(chains: map<Target, nat>, t: Target, i: nat)
    requires CapsOk(chains) && HasCapacity(chains, t.run)
    ensures CapsOk(chains[t := i])
  {
    var c' := chains[t := i];
    AddingOne(chains.Keys, c'.Keys, t);
    forall run
      ensures |TargetsOf(c', run)| <= MAX_DELIVERIES_PER_RUN
    {
      if run == t.run {
        AddingOne(TargetsOf(chains, run), TargetsOf(c', run), t);
      } else {
        assert TargetsOf(c', run) == TargetsOf(chains, run);
      }
    }
  }

  lemma ReleasingKeepsCaps(chains: map<Target, nat>, t: Target)
    requires CapsOk(chains)
    ensures CapsOk(chains - {t})
  {
    SubsetIsSmaller((chains - {t}).Keys, chains.Keys);
    forall run
      ensures |TargetsOf(chains - {t}, run)| <= MAX_DELIVERIES_PER_RUN
    {
      SubsetIsSmaller(TargetsOf(chains - {t}, run), TargetsOf(chains, run));
    }
  }

  // ---- the invariant ------------------------------------------------------

  predicate KeysOk(s: State) {
    && (forall k :: k in s.prompts ==> s.prompts[k].target.run == k.run)
    && (forall i :: 0 <= i < |s.deliveries| ==>
          s.deliveries[i].key in s.prompts && s.prompts[s.deliveries[i].key].target == s.deliveries[i].target)
  }

  /** The active keys are those of the deliveries that are writing. */
  predicate ActiveOk(s: State) {
    && (forall i :: 0 <= i < |s.deliveries| && s.deliveries[i].phase == Writing ==> s.deliveries[i].key in s.active)
    && (forall k :: k in s.active ==> IsWriting(s, k))
  }

  predicate IsWriting(s: State, k: Key) {
    exists i :: 0 <= i < |s.deliveries| && s.deliveries[i].phase == Writing && s.deliveries[i].key == k
  }

  predicate ShutdownOk(s: State) {
    && (s.shutdown.Some? ==> s.admissionClosed && forall t :: t in s.chains ==> s.chains[t] in s.shutdown.value)
    && (s.admissionClosed && s.shutdown.None? ==> s.chains == map[])
  }

  predicate CompletionsOk(s: State) {
    && NoDuplicates(s.completions)
    && forall k :: k in s.completions ==> k in s.prompts && s.prompts[k].status == Delivered
  }

  /** While a prompt is being written only a cancellation changes its status. */
  predicate WritersOk(s: State) {
    forall i :: 0 <= i < |s.deliveries| && s.deliveries[i].phase == Writing ==> WriterOk(s, i)
  }

  predicate WriterOk(s: State, i: nat) {
    && i < |s.deliveries| && s.deliveries[i].key in s.prompts
    && (s.prompts[s.deliveries[i].key].status == Delivering || s.prompts[s.deliveries[i].key].status == Cancelled)
  }

  ghost predicate Inv(s: State) {
    && ChainsOk(s.deliveries, s.chains)
    && CapsOk(s.chains)
    && KeysOk(s)
    && ActiveOk(s)
    && ShutdownOk(s)
    && CompletionsOk(s)
    && WritersOk(s)
  }

  lemma StepKeepsChains(s: State, e: Event)
    requires Inv(s) && Enabled(s, e)
    ensures ChainsOk(Step(s, e).deliveries, Step(s, e).chains)
  {
    hide ChainsOk, CapsOk, KeysOk, ActiveOk, ShutdownOk, CompletionsOk, WritersOk, HasCapacity, GateStatus;
    hide BeginStep, FinishStep, StopStep, CancelStep;
    match e {
      case Admit(key, _) => AdmitKeepsChains(s.deliveries, s.chains, key, s.prompts[key].target);
      case Begin(i, _) =>
        BeginShape(s, i, e.gate);
        BeginKeepsChains(s.deliveries, s.chains, i, Finished);
        BeginKeepsChains(s.deliveries, s.chains, i, Writing);
      case Finish(i, _) =>
        FinishShape(s, i, e.outcome);
        BeginKeepsChains(s.deliveries, s.chains, i, Finished);
      case Release(i) => ReleaseKeepsChains(s.deliveries, s.chains, i);
      case Settle(i) => SettleKeepsChains(s.deliveries, s.chains, i);
      case _ => KeepsDeliveries(s, e);
    }
  }

  lemma KeepsDeliveries(s: State, e: Event)
    requires Enabled(s, e) && !e.Begin? && !e.Finish? && !e.Admit? && !e.Release? && !e.Settle?
    ensures Step(s, e).deliveries == s.deliveries && Step(s, e).chains == s.chains
  {
  }

  lemma AdmitKeepsCaps(s: State, key: Key, runAdmits: bool)
    requires CapsOk(s.chains) && KeysOk(s) && key in s.prompts
    ensures CapsOk(AdmitStep(s, key, runAdmits).chains)
  {
    hide CapsOk, HasCapacity;
    if Admits(s, key, runAdmits) {
      ReservingKeepsCaps(s.chains, s.prompts[key].target, |s.deliveries|);
    }
  }

  lemma CancelChains(s: State, target: Target)
    ensures CancelStep(s, target).chains == s.chains
  {
  }

  lemma StepKeepsCaps(s: State, e: Event)
    requires Inv(s) && Enabled(s, e)
    ensures CapsOk(Step(s, e).chains)
  {
    hide ChainsOk, CapsOk, KeysOk, ActiveOk, ShutdownOk, CompletionsOk, WritersOk, HasCapacity;
    hide AdmitStep, BeginStep, FinishStep;
    hide SetStatus, CancelStep;
    match e {
      case Admit(key, runAdmits) => AdmitKeepsCaps(s, key, runAdmits);
      case Begin(i, gate) => BeginShape(s, i, gate);
      case Finish(i, outcome) => FinishShape(s, i, outcome);
      case Release(i) => ReleasingKeepsCaps(s.chains, s.deliveries[i].target);
      case RequeueStale(key) => StatusShape(s, key, Queued);
      case CancelForTask(target) => CancelChains(s, target);
      case _ =>
    }
  }

  lemma StepKeepsKeys(s: State, e: Event)
    requires Inv(s) && Enabled(s, e)
    ensures KeysOk(Step(s, e))
  {
    hide ChainsOk, CapsOk, ActiveOk, ShutdownOk, CompletionsOk, HasCapacity;
    hide KeysOk, SamePrompts, SamePlaces;
    match e {
      case Enqueue(key, target) => EnqueueKeepsKeys(s, key, target);
      case Admit(key, runAdmits) => AdmitKeepsKeys(s, key, runAdmits);
      case _ =>
        OthersKeepNames(s, e);
        NamesKeepKeys(s, Step(s, e));
    }
  }

  predicate SamePrompts(s: State, s': State) {
    s'.prompts.Keys == s.prompts.Keys && forall k :: k in s.prompts ==> s'.prompts[k].target == s.prompts[k].target
  }

  predicate SamePlaces(s: State, s': State) {
    |s'.deliveries| == |s.deliveries|
    && forall i :: 0 <= i < |s.deliveries| ==> KeepsPlace(s.deliveries[i], s'.deliveries[i])
  }

  lemma StatusKeepsPrompts(s: State, key: Key, status: Status)
    ensures SamePrompts(s, SetStatus(s, key, status))
    ensures SetStatus(s, key, status).deliveries == s.deliveries
  {
  }

  lemma PhaseKeepsPlaces(s: State, i: nat, phase: Phase)
    requires i < |s.deliveries|
    ensures SamePlaces(s, SetPhase(s, i, phase)) && SetPhase(s, i, phase).prompts == s.prompts
  {
  }

  lemma OthersKeepNames(s: State, e: Event)
    requires Enabled(s, e) && !e.Enqueue? && !e.Admit?
    ensures SamePrompts(s, Step(s, e)) && SamePlaces(s, Step(s, e))
  {
    match e {
      case Begin(i, gate) => BeginKeepsNames(s, i, gate);
      case Finish(i, outcome) => FinishKeepsNames(s, i, outcome);
      case Release(i) => PhaseKeepsPlaces(s, i, Released);
      case Settle(_) =>
      case CancelForTask(_) =>
      case RequeueStale(_) =>
      case StartLoop =>
      case StopLoop =>
      case ShutdownDone =>
    }
  }

  /** What a delivery's turn does to the deliveries and the active keys. */
  lemma BeginShape(s: State, i: nat, gate: Gate)
    requires i < |s.deliveries|
    ensures var s' := BeginStep(s, i, gate);
            && ((s'.deliveries == SetPhase(s, i, Finished).deliveries && s'.active == s.active)
                || (s'.deliveries == SetPhase(s, i, Writing).deliveries
                    && s'.active == s.active + {s.deliveries[i].key}))
            && s'.chains == s.chains && s'.scheduled == s.scheduled && s'.completions == s.completions
            && s'.admissionClosed == s.admissionClosed
  {
    hide TurnOf, SetStatus, IsDeliverable;
    var turn := TurnOf(s, s.deliveries[i], gate);
    if turn.Park? && turn.status.Some? {
      StatusShape(s, s.deliveries[i].key, turn.status.value);
    }
  }

  /** Only the status of its own prompt. */
  lemma StatusShape(s: State, key: Key, status: Status)
    ensures var s' := SetStatus(s, key, status);
            && s' == s.(prompts := s'.prompts) && s'.prompts.Keys == s.prompts.Keys
            && (forall k :: k in s.prompts && k != key ==> s'.prompts[k] == s.prompts[k])
            && (key in s.prompts ==> s'.prompts[key] == s.prompts[key].(status := status))
  {
  }

  lemma WritingPrompts(s: State, i: nat)
    requires i < |s.deliveries| && s.deliveries[i].key in s.prompts
    ensures var s' := StartWriting(s, i);
            var key := s.deliveries[i].key;
            && s'.prompts.Keys == s.prompts.Keys
            && (forall k :: k in s.prompts && k != key ==> s'.prompts[k] == s.prompts[k])
            && s'.prompts[key].target == s.prompts[key].target && s'.prompts[key].status == Delivering
  {
  }

  /** What a turn does to the prompts: its own may start to be written, if it could be delivered. */
  lemma BeginPrompts(s: State, i: nat, gate: Gate)
    requires i < |s.deliveries| && s.deliveries[i].phase == Waiting
    ensures var s' := BeginStep(s, i, gate);
            var key := s.deliveries[i].key;
            && s'.prompts.Keys == s.prompts.Keys
            && (forall k :: k in s.prompts && (k != key || !IsDeliverable(s.prompts[k].status)) ==>
                  s'.prompts[k] == s.prompts[k])
            && (key in s.prompts ==> s'.prompts[key].target == s.prompts[key].target)
            && (s'.deliveries[i].phase == Writing ==>
                  key in s.prompts && IsDeliverable(s.prompts[key].status) && s'.prompts[key].status == Delivering)
  {
    hide TurnOf, IsDeliverable, StartWriting, SetPhase;
    var turn := TurnOf(s, s.deliveries[i], gate);
    match turn {
      case Write => WritingPrompts(s, i);
      case Park(status) => ParkPrompts(s, i, status);
    }
  }

  lemma ParkPrompts(s: State, i: nat, status: Option<Status>)
    requires i < |s.deliveries|
    ensures var key := s.deliveries[i].key;
            var s' := SetPhase(if status.Some? then SetStatus(s, key, status.value) else s, i, Finished);
            && s'.prompts.Keys == s.prompts.Keys && s'.deliveries[i].phase == Finished
            && (forall k :: k in s.prompts && (k != key || status.None?) ==> s'.prompts[k] == s.prompts[k])
            && (key in s.prompts ==> s'.prompts[key].target == s.prompts[key].target)
  {
    hide SetStatus;
    if status.Some? {
      StatusShape(s, s.deliveries[i].key, status.value);
    }
  }

  lemma BeginKeepsPrompts(s: State, i: nat, gate: Gate)
    requires i < |s.deliveries|
    ensures SamePrompts(s, BeginStep(s, i, gate))
  {
    hide HasCapacity, GateStatus;
  }

  lemma FinishShape(s: State, i: nat, outcome: Outcome)
    requires i < |s.deliveries|
    ensures var s' := FinishStep(s, i, outcome);
            && s'.deliveries == SetPhase(s, i, Finished).deliveries && s'.active == s.active - {s.deliveries[i].key}
            && s'.chains == s.chains && s'.scheduled == s.scheduled && s'.admissionClosed == s.admissionClosed
  {
    hide SetStatus;
    var s1 := SetPhase(s, i, Finished).(active := s.active - {s.deliveries[i].key});
    StatusShape(s1, s.deliveries[i].key, Cancelled);
    StatusShape(s1, s.deliveries[i].key, Failed);
    StatusShape(s1, s.deliveries[i].key, Delivered);
  }

  lemma FinishElsewhere(s: State, i: nat, outcome: Outcome)
    requires i < |s.deliveries|
    ensures var s' := FinishStep(s, i, outcome);
            && s'.prompts.Keys == s.prompts.Keys
            && forall k :: k in s.prompts && k != s.deliveries[i].key ==> s'.prompts[k] == s.prompts[k]
  {
    hide SetStatus;
    var s1 := SetPhase(s, i, Finished).(active := s.active - {s.deliveries[i].key});
    StatusShape(s1, s.deliveries[i].key, Cancelled);
    StatusShape(s1, s.deliveries[i].key, Failed);
    StatusShape(s1, s.deliveries[i].key, Delivered);
  }

  lemma FinishKeepsPrompts(s: State, i: nat, outcome: Outcome)
    requires i < |s.deliveries|
    ensures SamePrompts(s, FinishStep(s, i, outcome))
  {
    hide SamePrompts;
    var key := s.deliveries[i].key;
    var s1 := SetPhase(s, i, Finished).(active := s.active - {key});
    StatusKeepsPrompts(s1, key, Cancelled);
    StatusKeepsPrompts(s1, key, Failed);
    StatusKeepsPrompts(s1, key, Delivered);
    OnlyPromptsMatter(s, s1, FinishStep(s, i, outcome));
  }

  lemma OnlyPromptsMatter(s: State, s1: State, s2: State)
    requires s1.prompts == s.prompts
    requires s2.prompts == s1.prompts || (exists k, st :: s2.prompts == SetStatus(s1, k, st).prompts)
    ensures SamePrompts(s, s2)
  {
  }

  lemma BeginKeepsNames(s: State, i: nat, gate: Gate)
    requires i < |s.deliveries|
    ensures SamePrompts(s, BeginStep(s, i, gate)) && SamePlaces(s, BeginStep(s, i, gate))
  {
    hide BeginStep, SamePrompts;
    BeginShape(s, i, gate);
    BeginKeepsPrompts(s, i, gate);
  }

  lemma FinishKeepsNames(s: State, i: nat, outcome: Outcome)
    requires i < |s.deliveries|
    ensures SamePrompts(s, FinishStep(s, i, outcome)) && SamePlaces(s, FinishStep(s, i, outcome))
  {
    hide FinishStep, SamePrompts;
    FinishShape(s, i, outcome);
    FinishKeepsPrompts(s, i, outcome);
  }

  lemma NamesKeepKeys(s: State, s': State)
    requires KeysOk(s) && SamePrompts(s, s') && SamePlaces(s, s')
    ensures KeysOk(s')
  {
  }

  lemma EnqueueKeepsKeys(s: State, key: Key, target: Target)
    requires KeysOk(s) && Enabled(s, Enqueue(key, target))
    ensures KeysOk(Step(s, Enqueue(key, target)))
  {
  }

  lemma AdmitKeepsKeys(s: State, key: Key, runAdmits: bool)
    requires KeysOk(s) && key in s.prompts
    ensures KeysOk(AdmitStep(s, key, runAdmits))
  {
    hide HasCapacity;
  }

  lemma StepKeepsShutdown(s: State, e: Event)
    requires Inv(s) && Enabled(s, e)
    ensures ShutdownOk(Step(s, e))
  {
    hide CapsOk, KeysOk, ActiveOk, CompletionsOk, WritersOk, HasCapacity, ChainsOk, GateStatus;
    hide BeginStep, FinishStep;
    match e {
      case ShutdownDone => ShutdownFindsNothing(s);
      case Begin(i, gate) => QuietShutdown(s, e);
      case Finish(i, outcome) => QuietShutdown(s, e);
      case _ =>
    }
  }

  lemma QuietShutdown(s: State, e: Event)
    requires ShutdownOk(s) && Enabled(s, e) && (e.Begin? || e.Finish?)
    ensures ShutdownOk(Step(s, e))
  {
    hide ShutdownOk, HasCapacity, GateStatus;
    var s' := Step(s, e);
    assert s'.chains == s.chains && s'.admissionClosed == s.admissionClosed && s'.shutdown == s.shutdown;
    SameShutdown(s, s');
  }

  lemma SameShutdown(s: State, s': State)
    requires ShutdownOk(s) && s'.chains == s.chains && s'.admissionClosed == s.admissionClosed
        && s'.shutdown == s.shutdown
    ensures ShutdownOk(s')
  {
  }

  /** Two deliveries past their chain wait are for different targets, so for different prompts. */
  lemma PastTheWait(s: State, i: nat, j: nat)
    requires Inv(s) && i < |s.deliveries| && j < |s.deliveries|
    requires s.deliveries[i].target == s.deliveries[j].target
    requires s.deliveries[i].phase != Waiting && s.deliveries[i].phase != Released
    requires s.deliveries[j].phase != Waiting && s.deliveries[j].phase != Released
    ensures i == j
  {
    hide CapsOk, KeysOk, ActiveOk, ShutdownOk, CompletionsOk, Links, Heads;
  }

  lemma StepKeepsActive(s: State, e: Event)
    requires Inv(s) && Enabled(s, e)
    ensures ActiveOk(Step(s, e))
  {
    hide ChainsOk, CapsOk, ShutdownOk, CompletionsOk, WritersOk, HasCapacity, KeysOk, ActiveOk, GateStatus;
    match e {
      case Begin(i, gate) => BeginKeepsActive(s, i, gate);
      case Finish(i, outcome) => FinishKeepsActive(s, i, outcome);
      case Admit(_, _) => QuietKeepsActive(s, Step(s, e), e);
      case Release(_) => QuietKeepsActive(s, Step(s, e), e);
      case Settle(_) => QuietKeepsActive(s, Step(s, e), e);
      case StopLoop => IdleClearKeepsActive(s, Step(s, e));
      case ShutdownDone => ShutdownFindsNothing(s); IdleClearKeepsActive(s, Step(s, e));
      case StartLoop => IdleClearKeepsActive(s, Step(s, e));
      case Enqueue(_, _) => IdleClearKeepsActive(s, Step(s, e));
      case CancelForTask(_) => IdleClearKeepsActive(s, Step(s, e));
      case RequeueStale(_) => IdleClearKeepsActive(s, Step(s, e));
    }
  }

  lemma QuietKeepsActive(s: State, s': State, e: Event)
    requires Inv(s) && Enabled(s, e) && s' == Step(s, e) && (e.Admit? || e.Release? || e.Settle?)
    ensures ActiveOk(s')
  {
    hide ChainsOk, CapsOk, ShutdownOk, CompletionsOk, WritersOk, HasCapacity, KeysOk;
    forall k | k in s'.active
      ensures IsWriting(s', k)
    {
      assert IsWriting(s, k);
      var i :| 0 <= i < |s.deliveries| && s.deliveries[i].phase == Writing && s.deliveries[i].key == k;
      assert s'.deliveries[i].phase == Writing && s'.deliveries[i].key == k;
    }
  }

  lemma ShutdownFindsNothing(s: State)
    requires Inv(s) && Enabled(s, ShutdownDone)
    ensures s.chains == map[]
  {
    hide Inv, Enabled, ShutdownOk;
    InvMeansShutdownOk(s);
    if s.chains != map[] {
      var t :| t in s.chains;
      HeadIsUnreleased(s, t);
      WaitedForReleased(s, t);
      assert false;
    }
  }

  lemma InvMeansShutdownOk(s: State)
    requires Inv(s)
    ensures ShutdownOk(s)
  {
    hide ShutdownOk;
  }

  lemma HeadIsUnreleased(s: State, t: Target)
    requires Inv(s) && t in s.chains
    ensures !IsReleased(s, s.chains[t])
  {
    hide CapsOk, KeysOk, ActiveOk, CompletionsOk, WritersOk, ShutdownOk, Links, InOrder;
  }

  lemma WaitedForReleased(s: State, t: Target)
    requires ShutdownOk(s) && Enabled(s, ShutdownDone) && t in s.chains
    ensures IsReleased(s, s.chains[t])
  {
    hide IsReleased;
  }

  /** With no reserved target nothing is writing. */
  lemma IdleClearKeepsActive(s: State, s': State)
    requires Inv(s) && s'.deliveries == s.deliveries
    requires s'.active == s.active || (s'.active == {} && s.chains == map[])
    ensures ActiveOk(s')
  {
    hide CapsOk, ShutdownOk, CompletionsOk, KeysOk, Links, InOrder;
    if s'.active == s.active {
      forall k | k in s'.active
        ensures IsWriting(s', k)
      {
        assert IsWriting(s, k);
      }
    }
  }

  lemma BeginKeepsActive(s: State, i: nat, gate: Gate)
    requires Inv(s) && Enabled(s, Begin(i, gate))
    ensures ActiveOk(BeginStep(s, i, gate))
  {
    hide ChainsOk, CapsOk, ShutdownOk, CompletionsOk, WritersOk, KeysOk, BeginStep;
    var s' := BeginStep(s, i, gate);
    BeginShape(s, i, gate);
    forall k | k in s'.active
      ensures IsWriting(s', k)
    {
      if k in s.active {
        assert IsWriting(s, k);
        var j :| 0 <= j < |s.deliveries| && s.deliveries[j].phase == Writing && s.deliveries[j].key == k;
        assert s'.deliveries[j].phase == Writing && s'.deliveries[j].key == k;
      } else {
        assert s'.deliveries[i].phase == Writing;
      }
    }
  }

  lemma FinishKeepsActive(s: State, i: nat, outcome: Outcome)
    requires Inv(s) && Enabled(s, Finish(i, outcome))
    ensures ActiveOk(FinishStep(s, i, outcome))
  {
    hide ChainsOk, CapsOk, ShutdownOk, CompletionsOk, WritersOk, FinishStep;
    var s' := FinishStep(s, i, outcome);
    var key := s.deliveries[i].key;
    FinishShape(s, i, outcome);
    forall k | k in s'.active
      ensures IsWriting(s', k)
    {
      assert IsWriting(s, k);
      var j :| 0 <= j < |s.deliveries| && s.deliveries[j].phase == Writing && s.deliveries[j].key == k;
      assert s'.deliveries[j].phase == Writing && s'.deliveries[j].key == k;
    }
    forall j | 0 <= j < |s.deliveries| && j != i && s.deliveries[j].phase == Writing
      ensures s.deliveries[j].key != key
    {
      if s.deliveries[j].key == key {
        PastTheWait(s, i, j);
      }
    }
  }

  /** Beginning a delivery touches no other prompt that is being written. */
  lemma BeginIsAlone(s: State, i: nat, gate: Gate, j: nat)
    requires Inv(s) && Enabled(s, Begin(i, gate)) && j < |s.deliveries| && s.deliveries[j].phase == Writing
    ensures s.deliveries[j].key != s.deliveries[i].key
  {
    hide CapsOk, ActiveOk, ShutdownOk, CompletionsOk, WritersOk, Links, InOrder, Heads;
    if s.deliveries[j].key == s.deliveries[i].key {
      NothingBefore(s.deliveries, i);
      if i < j {
        NothingBefore(s.deliveries, j);
      }
    }
  }

  lemma StepKeepsWriters(s: State, e: Event)
    requires Inv(s) && Enabled(s, e)
    ensures WritersOk(Step(s, e))
  {
    hide ChainsOk, CapsOk, KeysOk, ActiveOk, ShutdownOk, CompletionsOk, HasCapacity, WritersOk;
    match e {
      case Begin(i, gate) => BeginKeepsWriters(s, i, gate);
      case Finish(i, outcome) => FinishKeepsWriters(s, i, outcome);
      case _ => OthersKeepWriters(s, e);
    }
  }

  lemma BeginKeepsWriters(s: State, i: nat, gate: Gate)
    requires Inv(s) && Enabled(s, Begin(i, gate))
    ensures WritersOk(BeginStep(s, i, gate))
  {
    hide ChainsOk, CapsOk, ActiveOk, ShutdownOk, CompletionsOk, BeginStep;
    var s' := BeginStep(s, i, gate);
    BeginShape(s, i, gate);
    BeginPrompts(s, i, gate);
    forall j | 0 <= j < |s'.deliveries| && s'.deliveries[j].phase == Writing
      ensures WriterOk(s', j)
    {
      if j != i {
        BeginIsAlone(s, i, gate, j);
        assert WriterOk(s, j);
      }
    }
  }

  lemma FinishKeepsWriters(s: State, i: nat, outcome: Outcome)
    requires Inv(s) && Enabled(s, Finish(i, outcome))
    ensures WritersOk(FinishStep(s, i, outcome))
  {
    hide ChainsOk, CapsOk, ActiveOk, ShutdownOk, CompletionsOk, FinishStep;
    var s' := FinishStep(s, i, outcome);
    FinishShape(s, i, outcome);
    FinishElsewhere(s, i, outcome);
    forall j | 0 <= j < |s'.deliveries| && s'.deliveries[j].phase == Writing
      ensures WriterOk(s', j)
    {
      assert WriterOk(s, j);
      if s.deliveries[j].key == s.deliveries[i].key {
        PastTheWait(s, i, j);
      }
    }
  }

  lemma OthersKeepWriters(s: State, e: Event)
    requires Inv(s) && Enabled(s, e) && !e.Begin? && !e.Finish?
    ensures WritersOk(Step(s, e))
  {
    hide ChainsOk, CapsOk, ShutdownOk, CompletionsOk, HasCapacity, KeysOk;
    var s' := Step(s, e);
    forall j | 0 <= j < |s'.deliveries| && s'.deliveries[j].phase == Writing
      ensures WriterOk(s', j)
    {
      assert WriterOk(s, j);
    }
  }

  lemma StatusKeepsCompletions(s: State, key: Key, status: Status)
    requires CompletionsOk(s)
    requires key in s.prompts ==> s.prompts[key].status != Delivered || status == Delivered
    ensures CompletionsOk(SetStatus(s, key, status))
  {
  }

  lemma StepKeepsCompletions(s: State, e: Event)
    requires Inv(s) && Enabled(s, e)
    ensures CompletionsOk(Step(s, e))
  {
    hide ChainsOk, CapsOk, KeysOk, ActiveOk, ShutdownOk, HasCapacity, CompletionsOk, WritersOk, WriterOk;
    match e {
      case Begin(i, gate) => BeginKeepsCompletions(s, i, gate);
      case Finish(i, outcome) => FinishKeepsCompletions(s, i, outcome);
      case RequeueStale(key) => StatusKeepsCompletions(s, key, Queued);
      case _ => OthersKeepCompletions(s, e);
    }
  }

  lemma BeginKeepsCompletions(s: State, i: nat, gate: Gate)
    requires CompletionsOk(s) && i < |s.deliveries|
    ensures CompletionsOk(BeginStep(s, i, gate))
  {
    hide HasCapacity, GateStatus;
  }

  lemma FinishKeepsCompletions(s: State, i: nat, outcome: Outcome)
    requires Inv(s) && Enabled(s, Finish(i, outcome))
    ensures CompletionsOk(FinishStep(s, i, outcome))
  {
    hide ChainsOk, CapsOk, KeysOk, ActiveOk, ShutdownOk, CompletionsOk;
    var key := s.deliveries[i].key;
    assert WriterOk(s, i);
    var s1 := SetPhase(s, i, Finished).(active := s.active - {key});
    assert CompletionsOk(s1) by {
      SameCompletions(s, s1);
    }
    StatusKeepsCompletions(s1, key, Cancelled);
    StatusKeepsCompletions(s1, key, Failed);
    if s.prompts[key].status == Delivering {
      NewCompletion(s1, key);
    }
  }

  lemma SameCompletions(s: State, s': State)
    requires CompletionsOk(s) && s'.completions == s.completions && s'.prompts == s.prompts
    ensures CompletionsOk(s')
  {
  }

  lemma NewCompletion(s: State, key: Key)
    requires CompletionsOk(s) && key in s.prompts && s.prompts[key].status != Delivered
    ensures CompletionsOk(SetStatus(s, key, Delivered).(completions := s.completions + [key]))
  {
  }

  lemma OthersKeepCompletions(s: State, e: Event)
    requires CompletionsOk(s) && Enabled(s, e) && !e.Begin? && !e.Finish? && !e.RequeueStale?
    ensures CompletionsOk(Step(s, e))
  {
    hide HasCapacity;
  }

  lemma StepKeepsInv(s: State, e: Event)
    requires Inv(s) && Enabled(s, e)
    ensures Inv(Step(s, e))
  {
    hide ChainsOk, CapsOk, KeysOk, ActiveOk, ShutdownOk, CompletionsOk, WritersOk, Step, Enabled;
    StepKeepsChains(s, e);
    StepKeepsCaps(s, e);
    StepKeepsKeys(s, e);
    StepKeepsActive(s, e);
    StepKeepsShutdown(s, e);
    StepKeepsCompletions(s, e);
    StepKeepsWriters(s, e);
  }

  lemma InitIsOk()
    ensures Inv(INIT)
  {
    assert forall run :: TargetsOf(INIT.chains, run) == {};
  }
}
