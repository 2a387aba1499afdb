/** One delivery per prompt in flight: when the scheduled keys guarantee it, and exactly when they do not. */
module PromptInFlight {
  import opened PromptDeliveries
  import opened PromptDeliveryProofs
  import opened PromptDeliveryRuns

  // ---- one delivery per prompt ------------------------------------------------

  // A delivery's caller runs its `finally`, the Settle step, a few promise turns after the release. A
  // continuation that was queued when the delivery settled runs in between, and because stop, start and
  // admission are synchronous it may call all three. So Release, StopLoop, StartLoop and Admit can precede
  // Settle. (After a shutdown that waited, promise order runs the callers first; the steps here do not
  // rely on that.)

  /** The prompt may be delivered again: it is deliverable, or marked as delivering and can be requeued. */
  predicate MayDeliver(s: State, k: Key) {
    k in s.prompts && (IsDeliverable(s.prompts[k].status) || s.prompts[k].status == Delivering)
  }

  /** While this holds, the scheduled keys guard the delivery's prompt against a second admission. */
  predicate NeedsGuard(s: State, i: nat)
    requires i < |s.deliveries|
  {
    !s.deliveries[i].settled && (s.deliveries[i].phase != Released || MayDeliver(s, s.deliveries[i].key))
  }

  predicate Guarded(s: State) {
    forall i :: 0 <= i < |s.deliveries| && NeedsGuard(s, i) ==> s.deliveries[i].key in s.scheduled
  }

  /** Deliveries whose caller has not run its `finally` are for different prompts. */
  predicate OncePerKey(ds: seq<Delivery>) {
    && (forall i, j :: 0 <= i < j < |ds| && !ds[i].settled && !ds[j].settled ==> ds[i].key != ds[j].key)
    && (forall i :: 0 <= i < |ds| && ds[i].settled ==> ds[i].phase == Released)
  }

  predicate Once(s: State) {
    OncePerKey(s.deliveries) && Guarded(s)
  }

  /** The steps that forget the scheduled keys. */
  predicate Clears(s: State, e: Event) {
    (e.StopLoop? && s.shutdown.None? && s.chains == map[]) || e.ShutdownDone?
  }

  /** A clearing step finds the caller of every prompt that may be delivered again finished. */
  predicate ClearsSafely(s: State, e: Event) {
    Clears(s, e) ==>
      forall i :: 0 <= i < |s.deliveries| && !s.deliveries[i].settled ==> !MayDeliver(s, s.deliveries[i].key)
  }

  predicate AllClearSafely(s: State, events: seq<Event>)
    decreases |events|
  {
    events == [] ||
    (if Enabled(s, events[0])
     then ClearsSafely(s, events[0]) && AllClearSafely(Step(s, events[0]), events[1..])
     else AllClearSafely(s, events[1..]))
  }

  /** At a clearing step every delivery was released. */
  lemma ClearFindsReleased(s: State, e: Event)
    requires Inv(s) && Enabled(s, e) && Clears(s, e)
    ensures s.chains == map[] && forall i :: 0 <= i < |s.deliveries| ==> s.deliveries[i].phase == Released
  {
    hide CapsOk, KeysOk, ActiveOk, ShutdownOk, CompletionsOk, WritersOk, Links, InOrder;
    if e.ShutdownDone? {
      ShutdownFindsNothing(s);
    }
  }

  /** A clearing step keeps the guard exactly if it is a safe one. */
  lemma ClearKeepsOnceExactly(s: State, e: Event)
    requires Inv(s) && Once(s) && Enabled(s, e) && Clears(s, e)
    ensures Once(Step(s, e)) <==> ClearsSafely(s, e)
  {
    hide Inv;
    ClearFindsReleased(s, e);
    var s' := Step(s, e);
    assert s'.deliveries == s.deliveries && s'.prompts == s.prompts && s'.scheduled == {};
    if !ClearsSafely(s, e) {
      var i :| 0 <= i < |s.deliveries| && !s.deliveries[i].settled && MayDeliver(s, s.deliveries[i].key);
      assert NeedsGuard(s', i);
    }
  }

  /** No prompt that is finished becomes deliverable again. */
  lemma StepRevivesNothing(s: State, e: Event, k: Key)
    requires Inv(s) && Enabled(s, e) && k in s.prompts && !MayDeliver(s, k)
    ensures !MayDeliver(Step(s, e), k)
  {
    hide ChainsOk, CapsOk, KeysOk, ActiveOk, ShutdownOk, CompletionsOk, HasCapacity;
    if e.Finish? {
      assert WriterOk(s, e.index);
    }
  }

  lemma StepKeepsOnce(s: State, e: Event)
    requires Inv(s) && Once(s) && Enabled(s, e) && !Clears(s, e)
    ensures Once(Step(s, e))
  {
    hide Once, Inv;
    match e {
      case Admit(key, runAdmits) => AdmitKeepsOnce(s, key, runAdmits);
      case Settle(i) => SettleKeepsOnce(s, i);
      case Enqueue(_, _) => EnqueueKeepsOnce(s, e);
      case _ => OthersKeepOnce(s, e);
    }
  }

  lemma AdmitKeepsOnce(s: State, key: Key, runAdmits: bool)
    requires Once(s) && key in s.prompts
    ensures Once(AdmitStep(s, key, runAdmits))
  {
    hide HasCapacity;
    var s' := AdmitStep(s, key, runAdmits);
    if Admits(s, key, runAdmits) {
      forall i | 0 <= i < |s.deliveries| && !s.deliveries[i].settled
        ensures s.deliveries[i].key != key
      {
        assert NeedsGuard(s, i) ==> s.deliveries[i].key in s.scheduled;
      }
      forall i | 0 <= i < |s'.deliveries| && NeedsGuard(s', i)
        ensures s'.deliveries[i].key in s'.scheduled
      {
        assert i < |s.deliveries| ==> NeedsGuard(s, i);
      }
    }
  }

  lemma SettleKeepsOnce(s: State, i: nat)
    requires Once(s) && Enabled(s, Settle(i))
    ensures Once(SettleStep(s, i))
  {
    var s' := SettleStep(s, i);
    forall j | 0 <= j < |s'.deliveries| && NeedsGuard(s', j)
      ensures s'.deliveries[j].key in s'.scheduled
    {
      assert NeedsGuard(s, j) && j != i;
      assert s.deliveries[j].key != s.deliveries[i].key;
    }
  }

  lemma EnqueueKeepsOnce(s: State, e: Event)
    requires Inv(s) && Once(s) && Enabled(s, e) && e.Enqueue?
    ensures Once(Step(s, e))
  {
    hide ChainsOk, CapsOk, ActiveOk, ShutdownOk, CompletionsOk, WritersOk;
    var s' := Step(s, e);
    forall i | 0 <= i < |s'.deliveries| && NeedsGuard(s', i)
      ensures s'.deliveries[i].key in s'.scheduled
    {
      assert s.deliveries[i].key != e.key;
      assert NeedsGuard(s, i);
    }
  }

  /** The remaining steps move deliveries forward and revive nothing. */
  lemma OthersKeepOnce(s: State, e: Event)
    requires Inv(s) && Once(s) && Enabled(s, e) && !Clears(s, e) && !e.Admit? && !e.Settle? && !e.Enqueue?
    ensures Once(Step(s, e))
  {
    hide Inv, MayDeliver, OncePerKey;
    var s' := Step(s, e);
    OthersOnlyAdvance(s, e);
    assert Once(s);
    AdvanceKeepsOnce(s.deliveries, s'.deliveries);
    forall i | 0 <= i < |s'.deliveries| && NeedsGuard(s', i)
      ensures s'.deliveries[i].key in s'.scheduled
    {
      DeliveryHasPrompt(s, i);
      if !MayDeliver(s, s.deliveries[i].key) {
        StepRevivesNothing(s, e, s.deliveries[i].key);
      }
      assert NeedsGuard(s, i);
    }
  }

  lemma DeliveryHasPrompt(s: State, i: nat)
    requires Inv(s) && i < |s.deliveries|
    ensures s.deliveries[i].key in s.prompts
  {
    hide ChainsOk, CapsOk, ActiveOk, ShutdownOk, CompletionsOk, WritersOk;
  }

  predicate Advances(a: Delivery, b: Delivery) {
    b.key == a.key && b.settled == a.settled && (a.phase == Released ==> b.phase == Released)
  }

  predicate AllAdvance(a: seq<Delivery>, b: seq<Delivery>) {
    |a| == |b| && forall i :: 0 <= i < |a| ==> Advances(a[i], b[i])
  }

  lemma AdvanceKeepsOnce(a: seq<Delivery>, b: seq<Delivery>)
    requires OncePerKey(a) && AllAdvance(a, b)
    ensures OncePerKey(b)
  {
  }

  lemma OthersOnlyAdvance(s: State, e: Event)
    requires Enabled(s, e) && !Clears(s, e) && !e.Admit? && !e.Settle? && !e.Enqueue?
    ensures AllAdvance(s.deliveries, Step(s, e).deliveries) && Step(s, e).scheduled == s.scheduled
  {
    match e {
      case Begin(i, gate) => BeginOnlyAdvances(s, i, gate);
      case Finish(i, outcome) => FinishOnlyAdvances(s, i, outcome);
      case _ =>
    }
  }

  lemma BeginOnlyAdvances(s: State, i: nat, gate: Gate)
    requires Enabled(s, Begin(i, gate))
    ensures AllAdvance(s.deliveries, BeginStep(s, i, gate).deliveries) && BeginStep(s, i, gate).scheduled == s.scheduled
  {
    hide BeginStep;
    BeginShape(s, i, gate);
  }

  lemma FinishOnlyAdvances(s: State, i: nat, outcome: Outcome)
    requires Enabled(s, Finish(i, outcome))
    ensures AllAdvance(s.deliveries, FinishStep(s, i, outcome).deliveries)
    ensures FinishStep(s, i, outcome).scheduled == s.scheduled
  {
    hide FinishStep;
    FinishShape(s, i, outcome);
  }

  lemma {:induction false} RunKeepsOnce(s: State, events: seq<Event>)
    requires Inv(s) && Once(s) && AllClearSafely(s, events)
    ensures Once(Run(s, events))
    decreases |events|
  {
    hide Once, Step, Enabled, Clears, ClearsSafely, Inv;
    if events != [] {
      var e := events[0];
      if Enabled(s, e) {
        StepKeepsInv(s, e);
        if Clears(s, e) {
          ClearKeepsOnceExactly(s, e);
        } else {
          StepKeepsOnce(s, e);
        }
        RunKeepsOnce(Step(s, e), events[1..]);
      } else {
        RunKeepsOnce(s, events[1..]);
      }
    }
  }

  predicate InFlightTwice(s: State) {
    exists i, j :: 0 <= i < j < |s.deliveries| && s.deliveries[i].key == s.deliveries[j].key
                   && s.deliveries[i].phase != Released && s.deliveries[j].phase != Released
  }

  lemma OnceMeansOneInFlight(s: State)
    requires Once(s)
    ensures !InFlightTwice(s)
  {
  }

  /** A prompt has one delivery in flight at a time over every run whose clearing steps are safe. */
  lemma PromptInFlightOnce(events: seq<Event>)
    requires AllClearSafely(INIT, events)
    ensures !InFlightTwice(Run(INIT, events))
  {
    InitIsOk();
    RunKeepsOnce(INIT, events);
    OnceMeansOneInFlight(Run(INIT, events));
  }

  // ---- an unsafe clearing step --------------------------------------------------

  /** Nothing is reserved or scheduled, the delivery's caller is still to finish, and its prompt may be
      delivered again: a restart, an admission, the late finish and another admission put two deliveries of
      the prompt in flight. */
  function TwiceAgain(s: State, i: nat): seq<Event>
    requires i < |s.deliveries|
  {
    var k := s.deliveries[i].key;
    [StartLoop] + (if k in s.prompts && s.prompts[k].status == Delivering then [RequeueStale(k)] else [])
    + [Admit(k, true), Settle(i), Admit(k, true)]
  }

  predicate Cleared(s: State, i: nat) {
    && i < |s.deliveries| && s.deliveries[i].phase == Released && !s.deliveries[i].settled
    && s.chains == map[] && s.scheduled == {} && s.active == {} && s.shutdown.None?
    && MayDeliver(s, s.deliveries[i].key) && s.prompts[s.deliveries[i].key].target.run == s.deliveries[i].key.run
  }

  lemma UnsafeClearSchedulesTwice(s: State, e: Event)
    requires Inv(s) && Enabled(s, e) && !ClearsSafely(s, e)
    ensures exists more :: AllClearSafely(Step(s, e), more) && InFlightTwice(Run(Step(s, e), more))
  {
    hide AllClearSafely, Run, InFlightTwice, Inv;
    ClearFindsReleased(s, e);
    var i :| 0 <= i < |s.deliveries| && !s.deliveries[i].settled && MayDeliver(s, s.deliveries[i].key);
    PromptOfItsRun(s, s.deliveries[i].key);
    var s' := Step(s, e);
    assert Cleared(s', i);
    TwiceFromCleared(s', i);
  }

  lemma PromptOfItsRun(s: State, k: Key)
    requires Inv(s) && k in s.prompts
    ensures s.prompts[k].target.run == k.run
  {
    hide ChainsOk, CapsOk, ActiveOk, ShutdownOk, CompletionsOk, WritersOk;
  }

  /** A step that clears nothing, in front of a continuation. */
  lemma PrependStep(s: State, e: Event, more: seq<Event>)
    requires Enabled(s, e) && !Clears(s, e)
    ensures Run(s, [e] + more) == Run(Step(s, e), more)
    ensures AllClearSafely(s, [e] + more) == AllClearSafely(Step(s, e), more)
  {
    hide Step, Enabled, Clears;
    assert ([e] + more)[1..] == more;
  }

  lemma TwiceFromCleared(s: State, i: nat)
    requires Cleared(s, i)
    ensures AllClearSafely(s, TwiceAgain(s, i)) && InFlightTwice(Run(s, TwiceAgain(s, i)))
  {
    hide AllClearSafely, Run, InFlightTwice;
    var k := s.deliveries[i].key;
    var tail := [Admit(k, true), Settle(i), Admit(k, true)];
    var s1 := Step(s, StartLoop);
    if s.prompts[k].status == Delivering {
      var s2 := Step(s1, RequeueStale(k));
      AdmittedTwice(s2, i);
      PrependStep(s1, RequeueStale(k), tail);
      PrependStep(s, StartLoop, [RequeueStale(k)] + tail);
      assert TwiceAgain(s, i) == [StartLoop] + ([RequeueStale(k)] + tail);
    } else {
      AdmittedTwice(s1, i);
      PrependStep(s, StartLoop, tail);
      assert TwiceAgain(s, i) == [StartLoop] + tail;
    }
  }

  /** An admission behind the target's last delivery. */
  lemma AdmitFresh(s: State, key: Key)
    requires key in s.prompts && Admits(s, key, true)
    ensures var t := s.prompts[key].target;
            Step(s, Admit(key, true)) ==
              s.(scheduled := s.scheduled + {key},
                 deliveries := s.deliveries
                   + [Delivery(key, t, if t in s.chains then s.chains[t] else -1, Waiting, false)],
                 chains := s.chains[t := |s.deliveries|])
  {
  }

  lemma AdmittedTwice(s: State, i: nat)
    requires Cleared(s, i) && !s.admissionClosed && IsDeliverable(s.prompts[s.deliveries[i].key].status)
    ensures var k := s.deliveries[i].key;
            var tail := [Admit(k, true), Settle(i), Admit(k, true)];
            AllClearSafely(s, tail) && InFlightTwice(Run(s, tail))
  {
    var k := s.deliveries[i].key;
    assert k in s.prompts;
    hide AllClearSafely, Run, HasCapacity, MayDeliver, IsDeliverable, InFlightTwice, AdmitStep;
    var t := s.prompts[k].target;
    EmptyHasCapacity(k.run);
    AdmitFresh(s, k);
    var s1 := Step(s, Admit(k, true));
    var s2 := Step(s1, Settle(i));
    assert s2.scheduled == {} && s2.chains == map[t := |s.deliveries|];
    SingleHasCapacity(t, |s.deliveries|);
    AdmitFresh(s2, k);
    var s3 := Step(s2, Admit(k, true));
    PrependStep(s2, Admit(k, true), []);
    PrependStep(s1, Settle(i), [Admit(k, true)] + []);
    PrependStep(s, Admit(k, true), [Settle(i)] + ([Admit(k, true)] + []));
    assert [Admit(k, true)] + ([Settle(i)] + ([Admit(k, true)] + [])) == [Admit(k, true), Settle(i), Admit(k, true)];
    NothingMore(s3);
    assert s3.deliveries[|s.deliveries|].key == k == s3.deliveries[|s.deliveries| + 1].key;
    TwoInFlight(s3, |s.deliveries|, |s.deliveries| + 1);
  }

  lemma NothingMore(s: State)
    ensures Run(s, []) == s && AllClearSafely(s, [])
  {
  }

  lemma TwoInFlight(s: State, i: nat, j: nat)
    requires i < j < |s.deliveries| && s.deliveries[i].key == s.deliveries[j].key
    requires s.deliveries[i].phase != Released && s.deliveries[j].phase != Released
    ensures InFlightTwice(s)
  {
  }

  /** The exact condition, for every run and every next step: the step leaves all continuations with one
      delivery per prompt in flight, as long as they too clear safely, if and only if it clears safely. */
  lemma InFlightOnceExactly(events: seq<Event>, e: Event)
    requires AllClearSafely(INIT, events) && Enabled(Run(INIT, events), e)
    ensures var s := Run(INIT, events);
            (forall more :: AllClearSafely(Step(s, e), more) ==> !InFlightTwice(Run(Step(s, e), more)))
            <==> ClearsSafely(s, e)
  {
    hide AllClearSafely, Run, InFlightTwice, Inv, Once, Step, Enabled, Clears, ClearsSafely;
    var s := Run(INIT, events);
    Reachable(events);
    StartsOnce();
    InitIsOk();
    RunKeepsOnce(INIT, events);
    StepKeepsInv(s, e);
    if ClearsSafely(s, e) {
      if Clears(s, e) {
        ClearKeepsOnceExactly(s, e);
      } else {
        StepKeepsOnce(s, e);
      }
      forall more | AllClearSafely(Step(s, e), more)
        ensures !InFlightTwice(Run(Step(s, e), more))
      {
        RunKeepsOnce(Step(s, e), more);
        OnceMeansOneInFlight(Run(Step(s, e), more));
      }
    } else {
      UnsafeClearSchedulesTwice(s, e);
    }
  }

  lemma StartsOnce()
    ensures Once(INIT)
  {
  }

  function LateEnd(k: Key, t: Target): seq<Event> {
    [Enqueue(k, t), Admit(k, true), Begin(0, NotReady), Release(0), StopLoop, StartLoop,
     Admit(k, true), Settle(0), Admit(k, true)]
  }

  /** Without the proviso it fails: a delivery that ends after a stop and a restart unschedules the
      prompt's next delivery, and a third is queued behind it. (Even then one writes at a time.) */
  lemma LateEndSchedulesTwice(k: Key, t: Target)
    requires k.run == t.run
    ensures InFlightTwice(Run(INIT, LateEnd(k, t)))
  {
    hide Run, InFlightTwice;
    var s4 := FirstDelivery(k, t);
    var s9 := SecondAndThird(k, t, s4);
    LateEndTwice(k, t, s9);
  }

  lemma FirstAdmission(k: Key, t: Target) returns (s: State)
    requires k.run == t.run
    ensures Run(INIT, LateEnd(k, t)) == Run(s, LateEnd(k, t)[2..])
    ensures s == INIT.(prompts := map[k := Prompt(t, Queued, 0)], chains := map[t := 0], scheduled := {k},
                       deliveries := [Delivery(k, t, -1, Waiting, false)])
  {
    hide Run, HasCapacity;
    var events := LateEnd(k, t);
    assert events[0..] == events;
    RunAt(INIT, events, 0);
    var s1 := Step(INIT, events[0]);
    EmptyHasCapacity(k.run);
    RunAt(s1, events, 1);
    s := Step(s1, events[1]);
  }

  lemma FirstDelivery(k: Key, t: Target) returns (s: State)
    requires k.run == t.run
    ensures Run(INIT, LateEnd(k, t)) == Run(s, LateEnd(k, t)[4..])
    ensures s.prompts == map[k := Prompt(t, WaitingForTerminalPrompt, 0)] && s.chains == map[] && s.active == {}
    ensures s.deliveries == [Delivery(k, t, -1, Released, false)] && s.scheduled == {k}
    ensures s.shutdown.None?
  {
    hide Run, HasCapacity, AdmitStep;
    var events := LateEnd(k, t);
    var s2 := FirstAdmission(k, t);
    RunAt(s2, events, 2);
    var s3 := Step(s2, events[2]);
    RunAt(s3, events, 3);
    s := Step(s3, events[3]);
  }

  lemma StopAndRestart(k: Key, t: Target, s4: State) returns (s: State)
    requires k.run == t.run
    requires s4.prompts == map[k := Prompt(t, WaitingForTerminalPrompt, 0)] && s4.chains == map[] && s4.active == {}
    requires s4.deliveries == [Delivery(k, t, -1, Released, false)] && s4.shutdown.None?
    ensures Run(s4, LateEnd(k, t)[4..]) == Run(s, LateEnd(k, t)[6..])
    ensures s == s4.(admissionClosed := false, looping := true, scheduled := {})
  {
    hide Run, HasCapacity;
    var events := LateEnd(k, t);
    RunAt(s4, events, 4);
    var s5 := Step(s4, events[4]);
    RunAt(s5, events, 5);
    s := Step(s5, events[5]);
  }

  lemma SecondAndThird(k: Key, t: Target, s4: State) returns (s: State)
    requires k.run == t.run
    requires s4.prompts == map[k := Prompt(t, WaitingForTerminalPrompt, 0)] && s4.chains == map[] && s4.active == {}
    requires s4.deliveries == [Delivery(k, t, -1, Released, false)] && s4.shutdown.None?
    ensures Run(s4, LateEnd(k, t)[4..]) == Run(s, LateEnd(k, t)[9..])
    ensures |s.deliveries| == 3
    ensures s.deliveries[1..] == [Delivery(k, t, -1, Waiting, false), Delivery(k, t, 1, Waiting, false)]
  {
    hide Run, HasCapacity, StopStep, AdmitStep;
    var events := LateEnd(k, t);
    var s6 := StopAndRestart(k, t, s4);
    EmptyHasCapacity(k.run);
    RunAt(s6, events, 6);
    AdmitFresh(s6, k);
    var s7 := Step(s6, events[6]);
    assert s7.deliveries[1..] == [Delivery(k, t, -1, Waiting, false)] && s7.chains == map[t := 1];
    RunAt(s7, events, 7);
    var s8 := Step(s7, events[7]);
    assert s8.scheduled == {} && s8.chains == map[t := 1];
    SingleHasCapacity(t, 1);
    RunAt(s8, events, 8);
    AdmitFresh(s8, k);
    s := Step(s8, events[8]);
  }

  lemma LateEndTwice(k: Key, t: Target, s: State)
    requires |s.deliveries| == 3
    requires s.deliveries[1..] == [Delivery(k, t, -1, Waiting, false), Delivery(k, t, 1, Waiting, false)]
    ensures InFlightTwice(Run(s, LateEnd(k, t)[9..]))
  {
    assert LateEnd(k, t)[9..] == [];
    assert s.deliveries[1] == s.deliveries[1..][0] && s.deliveries[2] == s.deliveries[1..][1];
  }

  lemma EmptyHasCapacity(run: string)
    ensures HasCapacity(map[], run)
  {
    assert TargetsOf(map[], run) == {};
  }

  lemma SingleHasCapacity(t: Target, i: nat)
    ensures HasCapacity(map[t := i], t.run)
  {
    assert map[t := i].Keys == {t};
    assert TargetsOf(map[t := i], t.run) == {t};
  }

  /** Runs step by step. */
  lemma RunAt(s: State, events: seq<Event>, k: nat)
    requires k < |events| && Enabled(s, events[k])
    ensures Run(s, events[k..]) == Run(Step(s, events[k]), events[k + 1..])
  {
    hide Step, Enabled;
    assert events[k..][1..] == events[k + 1..];
  }
}
