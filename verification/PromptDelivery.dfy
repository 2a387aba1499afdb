/** The delivery module's state: the chain map, the two key sets and the admission flags, updated in
    place and proved against `PromptDeliveries`. Every turn keeps the module valid, so at most one delivery
    per target is past its wait and the caps hold. */
module PromptDelivery {
  import opened Common
  import opened PromptDeliveries
  import opened PromptDeliveryProofs

  ghost function Counted(reserved: set<Target>, run: Option<string>): set<Target> {
    set t | t in reserved && (run.Some? ==> t.run == run.value)
  }

  class PromptDeliveryLoop {
    var prompts: map<Key, Prompt>
    var deliveries: seq<Delivery>
    var chainsByTarget: map<Target, nat>
    var activeKeys: set<Key>
    var scheduledKeys: set<Key>
    var admissionClosed: bool
    var looping: bool
    var shutdown: Option<set<nat>>
    ghost var completions: seq<Key>

    ghost function State(): State
      reads this
    {
      PromptDeliveries.State(prompts, deliveries, chainsByTarget, activeKeys, scheduledKeys, admissionClosed,
                             looping, shutdown, completions)
    }

    ghost predicate Valid()
      reads this
    {
      Inv(State())
    }

    /** At most one delivery per target is past its wait, and the reserved targets are within the caps. */
    ghost predicate OneByOne()
      reads this
    {
      OnePastTheWait(deliveries) && CapsOk(chainsByTarget)
    }

    constructor ()
      ensures State() == INIT && Valid()
    {
      prompts, deliveries, chainsByTarget, activeKeys, scheduledKeys := map[], [], map[], {}, {};
      admissionClosed, looping, shutdown, completions := false, false, None, [];
      new;
      hide Inv;
      InitIsOk();
    }

    /** Counts the reserved targets, of one run if given. */
    method CountReservedTargets(reserved: set<Target>, run: Option<string>) returns (count: nat)
      ensures count == |Counted(reserved, run)|
    {
      count := 0;
      var rest := reserved;
      ghost var seen: set<Target> := {};
      while rest != {}
        invariant rest <= reserved
        invariant seen == Counted(reserved - rest, run)
        invariant count == |seen|
        decreases |rest|
      {
        var t :| t in rest;
        rest := rest - {t};
        if run.None? || t.run == run.value {
          count := count + 1;
          seen := seen + {t};
        }
      }
      assert reserved - rest == reserved;
    }

    method HasDeliveryCapacity(run: string, excluded: Option<Target>) returns (ok: bool)
      ensures ok == HasCapacity(if excluded.Some? then chainsByTarget - {excluded.value} else chainsByTarget, run)
    {
      var chains := if excluded.Some? then chainsByTarget - {excluded.value} else chainsByTarget;
      var all := CountReservedTargets(chains.Keys, None);
      var ofRun := CountReservedTargets(chains.Keys, Some(run));
      assert Counted(chains.Keys, None) == chains.Keys;
      assert Counted(chains.Keys, Some(run)) == TargetsOf(chains, run);
      ok := all < MAX_DELIVERIES_GLOBAL && ofRun < MAX_DELIVERIES_PER_RUN;
    }

    method UpdatePrompt(key: Key, status: Status)
      modifies this`prompts
      ensures State() == SetStatus(old(State()), key, status)
    {
      if key in prompts {
        prompts := prompts[key := prompts[key].(status := status)];
      }
    }

    method Enter(i: nat, phase: Phase)
      requires i < |deliveries|
      modifies this`deliveries
      ensures State() == SetPhase(old(State()), i, phase)
    {
      deliveries := deliveries[i := deliveries[i].(phase := phase)];
    }

    /** Admission; the result is the delivery queued, if any. */
    method DeliverWithAdmission(key: Key, runAdmits: bool) returns (queued: Option<nat>)
      requires Valid() && key in prompts
      modifies this
      ensures State() == Step(old(State()), Admit(key, runAdmits))
      ensures Valid() && OneByOne()
      ensures queued == if Admits(old(State()), key, runAdmits) then Some(|old(deliveries)|) else None
    {
      hide Inv, OnePastTheWait, CapsOk;
      TurnKeepsInv(State(), Admit(key, runAdmits));
      if admissionClosed || !IsDeliverable(prompts[key].status) || !runAdmits {
        return None;
      }
      if key in scheduledKeys || key in activeKeys {
        return None;
      }
      var capacity := HasDeliveryCapacity(key.run, None);
      if !capacity {
        return None;
      }
      scheduledKeys := scheduledKeys + {key};
      var t := prompts[key].target;
      var after: int := if t in chainsByTarget then chainsByTarget[t] else -1;
      var i := |deliveries|;
      deliveries := deliveries + [Delivery(key, t, after, Waiting, false)];
      chainsByTarget := chainsByTarget[t := i];
      return Some(i);
    }

    /** The delivery's turn: everything up to the first write. */
    method BeginDelivery(i: nat, gate: Gate)
      requires Valid() && Enabled(State(), Begin(i, gate))
      modifies this
      ensures State() == Step(old(State()), Begin(i, gate))
      ensures Valid() && OneByOne()
    {
      hide Inv, OnePastTheWait, CapsOk, Step;
      TurnKeepsInv(State(), Begin(i, gate));
      RunGates(i, gate);
    }

    method RunGates(i: nat, gate: Gate)
      requires Enabled(State(), Begin(i, gate))
      modifies this
      ensures State() == Step(old(State()), Begin(i, gate))
    {
      hide HasCapacity;
      var d := deliveries[i];
      if d.key in prompts && IsDeliverable(prompts[d.key].status) {
        if !gate.Open? {
          UpdatePrompt(d.key, GateStatus(gate));
        } else if d.key !in activeKeys {
          var capacity := HasDeliveryCapacity(d.key.run, Some(d.target));
          if !capacity {
            UpdatePrompt(d.key, Queued);
          } else if !gate.leaseFree {
            UpdatePrompt(d.key, WaitingForCommandLease);
          } else {
            activeKeys := activeKeys + {d.key};
            var p := prompts[d.key];
            prompts := prompts[d.key := p.(status := Delivering, attempts := p.attempts + 1)];
            Enter(i, Writing);
            return;
          }
        }
      }
      Enter(i, Finished);
    }

    /** The end of the write loop, with its catch and finally. */
    method FinishDelivery(i: nat, outcome: Outcome)
      requires Valid() && Enabled(State(), Finish(i, outcome))
      modifies this
      ensures State() == Step(old(State()), Finish(i, outcome))
      ensures Valid() && OneByOne()
    {
      hide Inv, OnePastTheWait, CapsOk;
      TurnKeepsInv(State(), Finish(i, outcome));
      var key := deliveries[i].key;
      RecordOutcome(key, outcome);
      activeKeys := activeKeys - {key};
      Enter(i, Finished);
    }

    method RecordOutcome(key: Key, outcome: Outcome)
      modifies this`prompts, this`completions
      ensures var s := old(State());
              State() == match outcome
                         case TargetGone => SetStatus(s, key, Cancelled)
                         case WriteFailed(recorded) => if recorded then SetStatus(s, key, Failed) else s
                         case AllWritten(targetActive) =>
                           if targetActive && key in s.prompts && s.prompts[key].status == Delivering
                           then SetStatus(s, key, Delivered).(completions := s.completions + [key])
                           else s
    {
      match outcome {
        case TargetGone => UpdatePrompt(key, Cancelled);
        case WriteFailed(recorded) =>
          if recorded {
            UpdatePrompt(key, Failed);
          }
        case AllWritten(targetActive) =>
          if targetActive && key in prompts && prompts[key].status == Delivering {
            UpdatePrompt(key, Delivered);
            completions := completions + [key];
          }
      }
    }

    method ReleaseLifecycleOwner(i: nat)
      requires Valid() && Enabled(State(), Release(i))
      modifies this
      ensures State() == Step(old(State()), Release(i))
      ensures Valid() && OneByOne()
    {
      hide Inv, OnePastTheWait, CapsOk;
      TurnKeepsInv(State(), Release(i));
      var t := deliveries[i].target;
      if t in chainsByTarget && chainsByTarget[t] == i {
        chainsByTarget := chainsByTarget - {t};
      }
      Enter(i, Released);
    }

    method EndAdmission(i: nat)
      requires Valid() && Enabled(State(), Settle(i))
      modifies this
      ensures State() == Step(old(State()), Settle(i))
      ensures Valid() && OneByOne()
    {
      hide Inv, OnePastTheWait, CapsOk;
      TurnKeepsInv(State(), Settle(i));
      scheduledKeys := scheduledKeys - {deliveries[i].key};
      deliveries := deliveries[i := deliveries[i].(settled := true)];
    }

    /** False when the start is refused because a shutdown is pending. */
    method StartDeliveryLoop() returns (started: bool)
      requires Valid()
      modifies this
      ensures State() == Step(old(State()), StartLoop)
      ensures Valid() && OneByOne()
      ensures started == old(shutdown).None?
    {
      hide Inv, OnePastTheWait, CapsOk;
      TurnKeepsInv(State(), StartLoop);
      if shutdown.Some? {
        return false;
      }
      admissionClosed := false;
      looping := true;
      return true;
    }

    /** True when nothing has to be waited for. */
    method StopDeliveryLoop() returns (done: bool)
      requires Valid()
      modifies this
      ensures State() == Step(old(State()), StopLoop)
      ensures Valid() && OneByOne()
      ensures done == (old(shutdown).None? && old(chainsByTarget) == map[])
    {
      hide Inv, OnePastTheWait, CapsOk;
      TurnKeepsInv(State(), StopLoop);
      if shutdown.Some? {
        return false;
      }
      admissionClosed := true;
      looping := false;
      if chainsByTarget == map[] {
        activeKeys, scheduledKeys := {}, {};
        return true;
      }
      shutdown := Some(chainsByTarget.Values);
      return false;
    }

    /** All lifecycles the stop waited for resolved. In reachable states nothing is left. */
    method FinishShutdown()
      requires Valid() && Enabled(State(), ShutdownDone)
      modifies this
      ensures State() == Step(old(State()), ShutdownDone)
      ensures Valid() && OneByOne()
      ensures chainsByTarget == map[]
    {
      hide Inv, OnePastTheWait, CapsOk;
      TurnKeepsInv(State(), ShutdownDone);
      ShutdownFindsNothing(State());
      activeKeys, scheduledKeys, shutdown := {}, {}, None;
    }

    method CancelPromptsForTask(target: Target)
      requires Valid()
      modifies this`prompts
      ensures State() == Step(old(State()), CancelForTask(target))
      ensures Valid() && OneByOne()
    {
      hide Inv, OnePastTheWait, CapsOk, Step;
      TurnKeepsInv(State(), CancelForTask(target));
      CancelPending(target);
    }

    method CancelPending(target: Target)
      modifies this`prompts
      ensures State() == Step(old(State()), CancelForTask(target))
    {
      var rest := prompts.Keys;
      while rest != {}
        invariant prompts.Keys == old(prompts).Keys && rest <= prompts.Keys
        invariant forall k :: k in rest ==> prompts[k] == old(prompts)[k]
        invariant forall k :: k in prompts && k !in rest ==> prompts[k] == CancelStep(old(State()), target).prompts[k]
        decreases |rest|
      {
        var k :| k in rest;
        rest := rest - {k};
        var p := prompts[k];
        if p.target == target && IsPending(p.status) {
          prompts := prompts[k := p.(status := Cancelled)];
        }
      }
      assert prompts == CancelStep(old(State()), target).prompts;
    }

    method EnqueuePrompt(key: Key, target: Target)
      requires Valid() && Enabled(State(), Enqueue(key, target))
      modifies this`prompts
      ensures State() == Step(old(State()), Enqueue(key, target))
      ensures Valid() && OneByOne()
    {
      hide Inv, OnePastTheWait, CapsOk;
      TurnKeepsInv(State(), Enqueue(key, target));
      prompts := prompts[key := Prompt(target, Queued, 0)];
    }

    method RequeueStaleDelivering(key: Key)
      requires Valid() && Enabled(State(), RequeueStale(key))
      modifies this`prompts
      ensures State() == Step(old(State()), RequeueStale(key))
      ensures Valid() && OneByOne()
    {
      hide Inv, OnePastTheWait, CapsOk;
      TurnKeepsInv(State(), RequeueStale(key));
      UpdatePrompt(key, Queued);
    }
  }

  ghost predicate OnePastTheWait(ds: seq<Delivery>) {
    forall i, j :: 0 <= i < j < |ds| && ds[i].target == ds[j].target && PastWait(ds[i]) ==> !PastWait(ds[j])
  }

  predicate PastWait(d: Delivery) {
    d.phase == Writing || d.phase == Finished
  }

  lemma TurnKeepsInv(s: State, e: Event)
    requires Inv(s) && Enabled(s, e)
    ensures Inv(Step(s, e)) && OnePastTheWait(Step(s, e).deliveries) && CapsOk(Step(s, e).chains)
  {
    hide Step, CapsOk, ChainsOk, KeysOk, ActiveOk, ShutdownOk, CompletionsOk, WritersOk;
    StepKeepsInv(s, e);
    var s' := Step(s, e);
    forall i, j | 0 <= i < j < |s'.deliveries| && s'.deliveries[i].target == s'.deliveries[j].target
                  && PastWait(s'.deliveries[i])
      ensures !PastWait(s'.deliveries[j])
    {
      if PastWait(s'.deliveries[j]) {
        PastTheWait(s', i, j);
      }
    }
  }
}
