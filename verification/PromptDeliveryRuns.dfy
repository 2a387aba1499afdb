/** Guarantees of prompt delivery over every run. */
module PromptDeliveryRuns {
  import opened Common
  import opened PromptDeliveries
  import opened PromptDeliveryProofs

  // ---- key texts ----------------------------------------------------------

  /** The original joins ids with a colon and recognises a run's targets by prefix. */
  function TargetText(t: Target): string {
    t.run + ":" + t.task
  }

  /** Sound because run ids are UUIDs, which hold no colon. */
  lemma TargetTextsAreFaithful(t: Target, u: Target)
    requires ':' !in t.run && ':' !in u.run
    ensures TargetText(t) == TargetText(u) <==> t == u
    ensures t.run + ":" <= TargetText(u) <==> t.run == u.run
  {
    var a, b := TargetText(t), TargetText(u);
    assert a[|t.run|] == ':' && b[|u.run|] == ':';
    assert a[..|t.run|] == t.run && b[..|u.run|] == u.run;
    assert a[|t.run| + 1..] == t.task && b[|u.run| + 1..] == u.task;
    assert forall k :: 0 <= k < |t.run| ==> a[k] != ':';
    assert forall k :: 0 <= k < |u.run| ==> b[k] != ':';
    if t.run + ":" <= b {
      assert b[|t.run|] == ':';
      assert |t.run| == |u.run|;
      assert t.run == b[..|t.run|];
    }
    if t.run == u.run {
      assert b == (t.run + ":") + u.task;
    }
  }

  // ---- whole runs ---------------------------------------------------------

  lemma {:induction false} RunKeepsInv(s: State, events: seq<Event>)
    requires Inv(s)
    ensures Inv(Run(s, events))
    decreases |events|
  {
    hide Step, Inv, Enabled;
    if events != [] {
      if Enabled(s, events[0]) {
        StepKeepsInv(s, events[0]);
        RunKeepsInv(Step(s, events[0]), events[1..]);
      } else {
        RunKeepsInv(s, events[1..]);
      }
    }
  }

  lemma Reachable(events: seq<Event>)
    ensures Inv(Run(INIT, events))
  {
    InitIsOk();
    RunKeepsInv(INIT, events);
  }

  /** In every interleaving at most one delivery per target is past its chain wait. */
  lemma OneDeliveryPastTheWait(events: seq<Event>, i: nat, j: nat)
    ensures var ds := Run(INIT, events).deliveries;
            i < j < |ds| && ds[i].target == ds[j].target
            && ds[i].phase != Waiting && ds[i].phase != Released
            ==> ds[j].phase == Waiting
  {
    hide Run, CapsOk, KeysOk, ActiveOk, ShutdownOk, CompletionsOk, WritersOk, Links, Heads;
    Reachable(events);
  }

  /** The reserved targets stay within the global and the per-run cap. */
  lemma ReservationsWithinCaps(events: seq<Event>, run: string)
    ensures var s := Run(INIT, events);
            |s.chains.Keys| <= MAX_DELIVERIES_GLOBAL && |TargetsOf(s.chains, run)| <= MAX_DELIVERIES_PER_RUN
  {
    hide Run, KeysOk, ActiveOk, ShutdownOk, CompletionsOk, WritersOk, ChainsOk;
    Reachable(events);
  }

  /** A delivery is unfinished exactly while its target is reserved; writing deliveries are the active keys. */
  lemma ReservedExactlyWhileUnreleased(events: seq<Event>, t: Target)
    ensures var s := Run(INIT, events);
            t in s.chains
            <==> exists i :: 0 <= i < |s.deliveries| && s.deliveries[i].target == t && s.deliveries[i].phase != Released
  {
    hide Run, CapsOk, KeysOk, ActiveOk, ShutdownOk, CompletionsOk, WritersOk, Links, InOrder;
    Reachable(events);
  }

  /** Removing a reserved target frees a slot in both counts. */
  lemma OwnTargetFreesASlot(chains: map<Target, nat>, t: Target)
    requires CapsOk(chains) && t in chains
    ensures HasCapacity(chains - {t}, t.run)
  {
    assert (chains - {t}).Keys == chains.Keys - {t};
    assert TargetsOf(chains - {t}, t.run) == TargetsOf(chains, t.run) - {t};
    assert t in TargetsOf(chains, t.run);
  }

  /** The checks repeated when a delivery's turn comes, that nobody else writes the same prompt and that
      there is capacity not counting its own target, always pass: those two branches are dead. */
  lemma RepeatedChecksAlwaysPass(events: seq<Event>, i: nat, gate: Gate)
    ensures var s := Run(INIT, events);
            Enabled(s, Begin(i, gate)) ==>
              s.deliveries[i].key !in s.active
                && HasCapacity(s.chains - {s.deliveries[i].target}, s.deliveries[i].key.run)
  {
    hide Run, HasCapacity;
    Reachable(events);
    var s := Run(INIT, events);
    if Enabled(s, Begin(i, gate)) {
      NotActiveAtTurn(s, i, gate);
      OwnTargetReserved(s, i);
      OwnTargetFreesASlot(s.chains, s.deliveries[i].target);
    }
  }

  lemma OwnTargetReserved(s: State, i: nat)
    requires Inv(s) && i < |s.deliveries| && s.deliveries[i].phase == Waiting
    ensures s.deliveries[i].target in s.chains && s.deliveries[i].target.run == s.deliveries[i].key.run
  {
    hide CapsOk, ActiveOk, ShutdownOk, CompletionsOk, WritersOk, Links, InOrder;
  }

  lemma NotActiveAtTurn(s: State, i: nat, gate: Gate)
    requires Inv(s) && Enabled(s, Begin(i, gate))
    ensures s.deliveries[i].key !in s.active
  {
    hide CapsOk, ShutdownOk, CompletionsOk, WritersOk, ChainsOk, KeysOk;
    var key := s.deliveries[i].key;
    if key in s.active {
      assert IsWriting(s, key);
      var j :| 0 <= j < |s.deliveries| && s.deliveries[j].phase == Writing && s.deliveries[j].key == key;
      BeginIsAlone(s, i, gate, j);
    }
  }

  // ---- shutdown -------------------------------------------------------------

  /** When a stop has resolved no target is reserved, every delivery was released and none writes. */
  lemma ShutdownDrains(events: seq<Event>)
    ensures var s := Run(INIT, events);
            s.admissionClosed && s.shutdown.None? ==>
              && s.chains == map[] && s.active == {}
              && forall i :: 0 <= i < |s.deliveries| ==> s.deliveries[i].phase == Released
  {
    hide Run, CapsOk, KeysOk, CompletionsOk, WritersOk, Links, InOrder;
    Reachable(events);
    var s := Run(INIT, events);
    if s.admissionClosed && s.shutdown.None? {
      forall i | 0 <= i < |s.deliveries|
        ensures s.deliveries[i].phase == Released
      {
      }
      assert forall k :: k in s.active ==> IsWriting(s, k);
      assert s.active == {};
    }
  }

  predicate Drained(s: State) {
    s.admissionClosed && forall i :: 0 <= i < |s.deliveries| ==> s.deliveries[i].phase == Released
  }

  predicate NeverRestarts(events: seq<Event>) {
    forall e :: e in events ==> e != StartLoop
  }

  /** Once a stop was asked for nothing new is admitted until a restart; once it resolved nothing moves. */
  lemma {:induction false} NothingStartsUntilRestart(s: State, events: seq<Event>)
    requires s.admissionClosed && NeverRestarts(events)
    ensures var s' := Run(s, events);
            && s'.admissionClosed && |s'.deliveries| == |s.deliveries|
            && (Drained(s) ==> Drained(s') && s'.completions == s.completions)
    decreases |events|
  {
    hide Drained, Enabled, Step;
    if events != [] {
      assert events[0] in events && forall e :: e in events[1..] ==> e in events;
      if Enabled(s, events[0]) {
        ClosedStep(s, events[0]);
        NothingStartsUntilRestart(Step(s, events[0]), events[1..]);
      } else {
        NothingStartsUntilRestart(s, events[1..]);
      }
    }
  }

  lemma ClosedStep(s: State, e: Event)
    requires s.admissionClosed && Enabled(s, e) && e != StartLoop
    ensures var s' := Step(s, e);
            && s'.admissionClosed && |s'.deliveries| == |s.deliveries|
            && (Drained(s) ==> Drained(s') && s'.completions == s.completions)
  {
    hide BeginStep, FinishStep, SetStatus, HasCapacity;
    match e {
      case Begin(i, gate) => BeginShape(s, i, gate);
      case Finish(i, outcome) => FinishShape(s, i, outcome);
      case RequeueStale(key) => StatusShape(s, key, Queued);
      case _ =>
    }
  }

  /** The drain cannot get stuck: while a target is reserved some delivery has a next step to take. */
  lemma DrainIsNeverStuck(events: seq<Event>)
    ensures var s := Run(INIT, events);
            s.chains != map[] ==> exists i :: CanMove(s, i)
  {
    hide Run, CapsOk, KeysOk, ActiveOk, ShutdownOk, CompletionsOk, WritersOk, InOrder, Enabled;
    Reachable(events);
    var s := Run(INIT, events);
    if s.chains != map[] {
      var t :| t in s.chains;
      FirstCanMove(s, s.chains[t]);
    }
  }

  predicate CanMove(s: State, i: nat) {
    Enabled(s, Begin(i, TargetInactive)) || Enabled(s, Finish(i, TargetGone)) || Enabled(s, Release(i))
  }

  lemma {:induction false} FirstCanMove(s: State, i: nat)
    requires Links(s.deliveries) && i < |s.deliveries| && s.deliveries[i].phase != Released
    ensures exists j :: CanMove(s, j)
    decreases i
  {
    var after := s.deliveries[i].after;
    if s.deliveries[i].phase == Waiting && after >= 0 && s.deliveries[after].phase != Released {
      FirstCanMove(s, after);
    } else {
      assert CanMove(s, i);
    }
  }

  // ---- prompts ----------------------------------------------------------------

  /** No prompt is recorded as delivered twice, and what was delivered stays delivered, whatever later
      cancellations, sweeps and deliveries do. */
  lemma DeliveredOnceAndForAll(events: seq<Event>)
    ensures var s := Run(INIT, events);
            NoDuplicates(s.completions)
            && forall k :: k in s.completions ==> k in s.prompts && s.prompts[k].status == Delivered
  {
    hide Run, CapsOk, KeysOk, ActiveOk, ShutdownOk, WritersOk, ChainsOk;
    Reachable(events);
  }

  /** The sweep for stale deliveries never requeues a prompt that is still being written. */
  lemma SweepSparesWriters(events: seq<Event>, i: nat)
    ensures var s := Run(INIT, events);
            i < |s.deliveries| && s.deliveries[i].phase == Writing ==> !Enabled(s, RequeueStale(s.deliveries[i].key))
  {
    hide Run, CapsOk, KeysOk, ShutdownOk, CompletionsOk, WritersOk, ChainsOk;
    Reachable(events);
  }

  // ---- prompts left delivering ------------------------------------------------------

  /** The two ways a finished write leaves its prompt marked as delivering: the failure could not be
      recorded, or the target went away after the last write. */
  predicate Orphans(outcome: Outcome) {
    outcome == WriteFailed(false) || outcome == AllWritten(false)
  }

  lemma FinishOrphansExactly(s: State, i: nat, outcome: Outcome)
    requires Enabled(s, Finish(i, outcome)) && s.deliveries[i].key in s.prompts
    ensures var key := s.deliveries[i].key;
            var s' := Step(s, Finish(i, outcome));
            key in s'.prompts && (s'.prompts[key].status == Delivering
              <==> s.prompts[key].status == Delivering && Orphans(outcome))
  {
  }

  predicate DeliveringOwned(s: State) {
    forall k :: k in s.prompts && s.prompts[k].status == Delivering ==> k in s.active
  }

  predicate NoOrphans(events: seq<Event>) {
    forall k :: 0 <= k < |events| ==> (events[k].Finish? ==> !Orphans(events[k].outcome))
  }

  lemma StepKeepsOwned(s: State, e: Event)
    requires Inv(s) && DeliveringOwned(s) && Enabled(s, e) && (e.Finish? ==> !Orphans(e.outcome))
    ensures DeliveringOwned(Step(s, e))
  {
    hide ChainsOk, CapsOk, KeysOk, ActiveOk, ShutdownOk, CompletionsOk, WritersOk, HasCapacity, DeliveringOwned, Inv;
    match e {
      case Begin(i, gate) => BeginKeepsOwned(s, i, gate);
      case Finish(i, outcome) => FinishKeepsOwned(s, i, outcome);
      case StopLoop => IdleIsOwned(s, Step(s, e));
      case ShutdownDone =>
        ShutdownFindsNothing(s);
        IdleIsOwned(s, Step(s, e));
      case _ => OthersKeepOwned(s, e);
    }
  }

  lemma BeginKeepsOwned(s: State, i: nat, gate: Gate)
    requires DeliveringOwned(s) && i < |s.deliveries|
    ensures DeliveringOwned(BeginStep(s, i, gate))
  {
    hide HasCapacity;
  }

  lemma FinishKeepsOwned(s: State, i: nat, outcome: Outcome)
    requires Inv(s) && DeliveringOwned(s) && Enabled(s, Finish(i, outcome)) && !Orphans(outcome)
    ensures DeliveringOwned(FinishStep(s, i, outcome))
  {
    hide ChainsOk, CapsOk, KeysOk, ActiveOk, ShutdownOk, CompletionsOk;
    assert WriterOk(s, i);
  }

  /** Clearing the active keys with nothing reserved forgets no writer. */
  lemma IdleIsOwned(s: State, s': State)
    requires Inv(s) && DeliveringOwned(s) && s'.prompts == s.prompts
    requires s'.active == s.active || s.chains == map[]
    ensures DeliveringOwned(s')
  {
    hide CapsOk, KeysOk, ShutdownOk, CompletionsOk, WritersOk, Links, InOrder;
    forall k | k in s.prompts && s.prompts[k].status == Delivering
      ensures k in s'.active
    {
      assert IsWriting(s, k);
    }
  }

  lemma OthersKeepOwned(s: State, e: Event)
    requires DeliveringOwned(s) && Enabled(s, e)
    requires !e.Begin? && !e.Finish? && !e.StopLoop? && !e.ShutdownDone?
    ensures DeliveringOwned(Step(s, e))
  {
    hide HasCapacity;
  }

  lemma {:induction false} RunKeepsOwned(s: State, events: seq<Event>)
    requires Inv(s) && DeliveringOwned(s) && NoOrphans(events)
    ensures DeliveringOwned(Run(s, events))
    decreases |events|
  {
    hide Step, Enabled, Inv, DeliveringOwned;
    if events != [] {
      if Enabled(s, events[0]) {
        StepKeepsInv(s, events[0]);
        StepKeepsOwned(s, events[0]);
        RunKeepsOwned(Step(s, events[0]), events[1..]);
      } else {
        RunKeepsOwned(s, events[1..]);
      }
    }
  }

  /** But for those two, a prompt marked as delivering is being written by its delivery, in every state. */
  lemma DeliveringIsOwned(events: seq<Event>, k: Key)
    requires NoOrphans(events)
    ensures var s := Run(INIT, events);
            k in s.prompts && s.prompts[k].status == Delivering ==> IsWriting(s, k)
  {
    hide Run, CapsOk, KeysOk, ShutdownOk, CompletionsOk, WritersOk, ChainsOk;
    InitIsOk();
    Reachable(events);
    RunKeepsOwned(INIT, events);
  }

  /** Nothing but the sweep, or a cancellation, takes the mark away. */
  predicate LeavesOrphan(e: Event, k: Key, t: Target) {
    e != RequeueStale(k) && e != CancelForTask(t)
  }

  lemma StepKeepsOrphan(s: State, e: Event, k: Key)
    requires Inv(s) && Enabled(s, e) && k in s.prompts && s.prompts[k].status == Delivering && k !in s.active
    requires LeavesOrphan(e, k, s.prompts[k].target)
    ensures var s' := Step(s, e);
            && k in s'.prompts && s'.prompts[k].status == Delivering && s'.prompts[k].target == s.prompts[k].target
            && k !in s'.active
  {
    hide ChainsOk, CapsOk, KeysOk, ShutdownOk, CompletionsOk, WritersOk, BeginStep, FinishStep, AdmitStep, SetStatus;
    match e {
      case Begin(i, gate) =>
        BeginShape(s, i, gate);
        BeginPrompts(s, i, gate);
      case Finish(i, outcome) =>
        assert s.deliveries[i].key in s.active;
        FinishShape(s, i, outcome);
        FinishElsewhere(s, i, outcome);
      case Admit(key, runAdmits) => AdmitPrompts(s, key, runAdmits);
      case RequeueStale(key) => StatusShape(s, key, Queued);
      case _ =>
    }
  }

  lemma AdmitPrompts(s: State, key: Key, runAdmits: bool)
    requires key in s.prompts
    ensures AdmitStep(s, key, runAdmits).prompts == s.prompts && AdmitStep(s, key, runAdmits).active == s.active
  {
  }

  /** An orphan waits: a prompt marked as delivering that nobody writes stays so, unwritten, over every run
      until the stale sweep requeues it or its task's prompts are cancelled. */
  lemma {:induction false} OrphanWaits(s: State, events: seq<Event>, k: Key)
    requires Inv(s) && k in s.prompts && s.prompts[k].status == Delivering && k !in s.active
    requires forall n :: 0 <= n < |events| ==> LeavesOrphan(events[n], k, s.prompts[k].target)
    ensures var s' := Run(s, events);
            k in s'.prompts && s'.prompts[k].status == Delivering && k !in s'.active && !IsWriting(s', k)
    decreases |events|
  {
    hide Step, Enabled, Inv, LeavesOrphan;
    if events == [] {
      NobodyWrites(s, k);
    } else if Enabled(s, events[0]) {
      StepKeepsInv(s, events[0]);
      StepKeepsOrphan(s, events[0], k);
      OrphanWaits(Step(s, events[0]), events[1..], k);
    } else {
      OrphanWaits(s, events[1..], k);
    }
  }

  lemma NobodyWrites(s: State, k: Key)
    requires Inv(s) && k !in s.active
    ensures !IsWriting(s, k)
  {
    hide ChainsOk, CapsOk, KeysOk, ShutdownOk, CompletionsOk, WritersOk;
  }

  /** The converse of ownership, over runs: a write that ends one of the two ways, with nothing but sweeps
      and cancellations of other prompts after it, leaves its prompt marked as delivering and unwritten. */
  lemma OrphaningFinishLasts(events: seq<Event>, i: nat, outcome: Outcome, more: seq<Event>)
    requires Enabled(Run(INIT, events), Finish(i, outcome)) && Orphans(outcome)
    ensures var s := Run(INIT, events);
            var d := s.deliveries[i];
            var s' := Run(Step(s, Finish(i, outcome)), more);
            d.key in s.prompts && s.prompts[d.key].status == Delivering
            && (forall n :: 0 <= n < |more| ==> LeavesOrphan(more[n], d.key, d.target))
            ==> d.key in s'.prompts && s'.prompts[d.key].status == Delivering && !IsWriting(s', d.key)
  {
    hide Run, LeavesOrphan, Inv;
    Reachable(events);
    var s := Run(INIT, events);
    var d := s.deliveries[i];
    StepKeepsInv(s, Finish(i, outcome));
    PromptOfDelivery(s, i);
    if d.key in s.prompts && s.prompts[d.key].status == Delivering
       && (forall n :: 0 <= n < |more| ==> LeavesOrphan(more[n], d.key, d.target)) {
      FinishOrphansExactly(s, i, outcome);
      FinishKeepsNames(s, i, outcome);
      OrphanWaits(Step(s, Finish(i, outcome)), more, d.key);
    }
  }

  lemma PromptOfDelivery(s: State, i: nat)
    requires Inv(s) && i < |s.deliveries|
    ensures s.deliveries[i].key in s.prompts && s.prompts[s.deliveries[i].key].target == s.deliveries[i].target
  {
    hide ChainsOk, CapsOk, ActiveOk, ShutdownOk, CompletionsOk, WritersOk;
  }
}
