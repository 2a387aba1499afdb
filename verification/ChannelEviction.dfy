/** The one unmarked gap: evicting a marker that still waits. */
module ChannelEviction {
  import opened Common
  import opened ChannelQueues
  import opened ChannelPlane
  import opened ChannelGaps

  /** The exact guard: for a recovering client whose marker still waits, a control message leaves the
      marker in place if and only if the queue with it stays within the byte limit. */
  lemma MarkerSurvivesExactly(env: Env, cfg: Config, s: State, k: Key, p: Payload, now: int)
    requires k in s.flagged && Recovering(QueueOf(s, k).messages) && MarkerFirst(QueueOf(s, k).messages)
    requires p.Control?
    ensures MarkerFirst(QueueOf(SendTo(env, cfg, s, k, p, now).0, k).messages)
            <==> QueueOf(s, k).totalBytes + JsonSize(k.channel, p.jsonBytes) <= cfg.pendingMaxBytes
    ensures Evicts(cfg, s, k, p)
            <==> QueueOf(s, k).totalBytes + JsonSize(k.channel, p.jsonBytes) > cfg.pendingMaxBytes
  {
    ControlJoinsRecovery(cfg, k.channel, QueueOf(s, k), p, now);
  }

  /** What such an eviction costs: whatever is sent to a subscriber, the lane stays free of unmarked gaps if
      and only if the message does not evict the only marker. An eviction is harmless exactly when
      everything since the last marker the client received was control messages. */
  lemma LaneSurvivesExactly(env: Env, cfg: Config, s: State, k: Key, p: Payload, now: int, stream: seq<Datum>)
    requires LaneOk(s, k, stream) && k.client in Subscribers(s, k.channel)
    ensures LaneOk(SendTo(env, cfg, s, k, p, now).0, k, stream + DataOf(p)) <==> !Loses(cfg, s, k, p)
  {
    hide MarkedGaps, CaughtUp, EndsMarked, Grown, Overflows;
    if Loses(cfg, s, k, p) {
      ControlJoinsRecovery(cfg, k.channel, QueueOf(s, k), p, now);
    } else {
      SendToKeepsLane(env, cfg, s, k, p, now, stream);
    }
  }

  // ---- a run that loses a byte silently ---------------------------------------

  const CH := Channel("t", 3)
  const WHO := Key(1, CH)
  const LOSSY := Env(t => if t == 3 || t == 5 then Refused else Accepted, t => false, t => 0)
  const D7 := Datum(7, 0)
  const D8 := Datum(8, 1)
  const D9 := Datum(9, 2)
  const BIG := 2 * 1024 * 1024

  /** The second byte is refused and ages out into a marker; a control message of 2 MiB evicts the
      marker; the third byte then goes out as if nothing were missing. */
  const LOSING_RUN := [BindChannel(WHO, 0)] + AFTER_BIND
  const AFTER_BIND := [SendMessage(CH, Data([D7]), 0)] + AFTER_FIRST
  const AFTER_FIRST := [SendMessage(CH, Data([D8]), 0)] + AFTER_REFUSAL
  const AFTER_REFUSAL := [DrainTimerFires(1000)] + AFTER_MARK
  const AFTER_MARK := [SendMessage(CH, Control(1, BIG), 1000)] + AFTER_EVICTION
  const AFTER_EVICTION := [DrainTimerFires(1000)] + AFTER_DRAIN
  const AFTER_DRAIN := [SendMessage(CH, Data([D9]), 1000)] + []

  /** A control message hides no gap: bytes on its two sides are neighbours in the stream. */
  lemma BytesAroundControl(a: Datum, id: nat, b: Datum, stream: seq<Datum>) returns (p: int)
    requires MarkedGaps([Unit(a), Ctl(id), Unit(b)], stream)
    ensures 0 <= p < |stream| - 1 && stream[p] == a && stream[p + 1] == b
  {
    var seen := [Unit(a), Ctl(id), Unit(b)];
    var at :| Placed(seen, at, stream);
    assert PlacedAt(seen[0], at[0], at[1], stream);
    assert PlacedAt(seen[1], at[1], at[2], stream);
    assert PlacedAt(seen[2], at[2], at[3], stream);
    p := at[0];
  }

  lemma EvictionGapIsUnmarked()
    ensures !MarkedGaps([Unit(D7), Ctl(1), Unit(D9)], [D7, D8, D9])
  {
    if MarkedGaps([Unit(D7), Ctl(1), Unit(D9)], [D7, D8, D9]) {
      var p := BytesAroundControl(D7, 1, D9, [D7, D8, D9]);
    }
  }

  // The states it passes through.
  const Q3 := Queue(0, [TerminalData(0, [D8], DataSize(CH, 1))], DataSize(CH, 1))
  const M5 := Serialized(1000, ControlBody(1), JsonSize(CH, BIG))
  const S1 := INIT.(subscribers := map[CH := [1]], wire := map[WHO := []])
  const S2 := S1.(tick := 2, wire := map[WHO := [Unit(D7)]])
  const S3 := S2.(tick := 4, queues := map[WHO := Q3], backpressured := [CH], drainTimer := true)
  const S4 := S3.(tick := 7, queues := map[WHO := RecoveryQueue(CH, 1000)], flagged := {WHO})
  const S5 := S4.(queues := map[WHO := Queue(0, [M5], M5.sizeBytes)])
  const S6 := S1.(tick := 9, wire := map[WHO := [Unit(D7), Ctl(1)]])
  const S7 := S1.(tick := 11, wire := map[WHO := [Unit(D7), Ctl(1), Unit(D9)]])

  lemma OneSubscriber(env: Env, cfg: Config, s: State, p: Payload, now: int)
    requires Subscribers(s, CH) == [1]
    ensures var (s1, left) := SendTo(env, cfg, s, WHO, p, now);
            Send(env, cfg, s, CH, p, now) == if left then ScheduleDrain(s1, CH) else s1
  {
    hide SendTo;
    var (s1, left) := SendTo(env, cfg, s, WHO, p, now);
    assert SendAll(env, cfg, s1, CH, p, [], now) == (s1, false);
    var one: seq<Client> := [1];
    assert one[1..] == [];
    assert SendAll(env, cfg, s, CH, p, one, now) == (s1, left);
  }

  lemma OneDrained(env: Env, s: State, now: int)
    requires s.backpressured == [CH] && s.focused == {} && s.rotation == 0 && Subscribers(s, CH) == [1]
    ensures var s1 := DrainClient(env, DEFAULT_CONFIG, s.(drainTimer := false), WHO, Some(32 * 1024), now);
            DrainPass(env, DEFAULT_CONFIG, s, now) ==
            if HasQueued(s1, WHO) then s1.(drainTimer := true) else s1.(backpressured := [])
  {
    hide DrainClient;
    var s0 := s.(drainTimer := false);
    var s1 := DrainClient(env, DEFAULT_CONFIG, s0, WHO, Some(32 * 1024), now);
    var one: seq<Client> := [1];
    assert one[1..] == [];
    assert DrainClients(env, DEFAULT_CONFIG, s1, CH, [], Some(32 * 1024), now) == (s1, false);
    assert DrainClients(env, DEFAULT_CONFIG, s0, CH, one, Some(32 * 1024), now) == (s1, HasQueued(s1, WHO));
    var chs: seq<Channel> := [CH];
    assert chs[1..] == [];
    assert Except(chs[1..], {}) == [] && Except(chs, {}) == [CH];
    assert Only(chs[1..], {}) == [] && Only(chs, {}) == [];
    assert Rotate(chs, 0) == [CH];
    assert OrderForDrain(chs, {}, 0) == [CH];
    assert DrainChannels(env, DEFAULT_CONFIG, DrainChannel(env, DEFAULT_CONFIG, s0, CH, now), [], now)
        == DrainChannel(env, DEFAULT_CONFIG, s0, CH, now);
    assert RemoveFrom(chs[1..], CH) == [] && RemoveFrom(chs, CH) == [];
  }

  lemma SizeFacts()
    ensures DataSize(CH, 1) == JsonSize(CH, JSON_DATA_BYTES + 4) && DataSize(CH, 1) < 1000
    ensures JsonSize(CH, JSON_RECOVERY_BYTES) < 1000
  {
    assert |CH.name| == 1;
  }

  lemma Step1()
    ensures Bind(LOSSY, DEFAULT_CONFIG, INIT, WHO, 0) == S1
  {
    assert AddTo(Subscribers(INIT, CH), 1) == [1];
    assert Subscribe(INIT, WHO) == S1;
  }

  lemma Step2()
    ensures Send(LOSSY, DEFAULT_CONFIG, S1, CH, Data([D7]), 0) == S2
  {
    OneSubscriber(LOSSY, DEFAULT_CONFIG, S1, Data([D7]), 0);
    assert Wire(S1, WHO) + PayloadTokens(Data([D7])) == [Unit(D7)];
  }

  lemma Step3()
    ensures Send(LOSSY, DEFAULT_CONFIG, S2, CH, Data([D8]), 0) == S3
  {
    SizeFacts();
    OneSubscriber(LOSSY, DEFAULT_CONFIG, S2, Data([D8]), 0);
    assert Grown(DEFAULT_CONFIG, CH, EMPTY_QUEUE, Data([D8]), 0) == Q3;
    assert EnqueueClient(DEFAULT_CONFIG, S2.(tick := 4), WHO, Data([D8]), 0)
      == S2.(tick := 4, queues := map[WHO := Q3]);
  }

  lemma Step4()
    ensures DrainPass(LOSSY, DEFAULT_CONFIG, S3, 1000) == S4
  {
    Step4Flush();
    OneDrained(LOSSY, S3, 1000);
    hide Flush, Flushed;
    var s := S3.(drainTimer := false);
    assert QueueAge(Q3, 1000) == 1000;
  }

  lemma Step4Flush()
    ensures var s := S3.(drainTimer := false); Flush(LOSSY, s, WHO, Some(32 * 1024)) == (s.(tick := 6), false)
  {
    var s := S3.(drainTimer := false);
    var p := Pump(LOSSY, 5, Q3.messages, 1, Some(32 * 1024), 0);
    assert p == Pumped(0, 0, 6, false);
    assert Q3.messages[..0] == [];
    assert Wire(s, WHO) + Tokens(Q3.messages[..0]) == [Unit(D7)];
    assert s.wire[WHO := [Unit(D7)]] == s.wire;
    assert Flushed(s, WHO, p) == s.(tick := 6);
    assert Flush(LOSSY, s, WHO, Some(32 * 1024)) == (s.(tick := 6), false);
  }

  lemma Step5()
    ensures Send(LOSSY, DEFAULT_CONFIG, S4, CH, Control(1, BIG), 1000) == S5
  {
    SizeFacts();
    OneSubscriber(LOSSY, DEFAULT_CONFIG, S4, Control(1, BIG), 1000);
    var q := RecoveryQueue(CH, 1000);
    var q1 := Appended(DEFAULT_CONFIG, CH, q, Control(1, BIG), 1000);
    assert q1.messages == [q.messages[0], M5];
    assert q1.messages[1..] == [M5];
    assert Trim(q1, DEFAULT_CONFIG.pendingMaxBytes) == Queue(0, [M5], M5.sizeBytes);
  }

  lemma Step6()
    ensures DrainPass(LOSSY, DEFAULT_CONFIG, S5, 1000) == S6
  {
    OneDrained(LOSSY, S5, 1000);
    var s := S5.(drainTimer := false);
    var p := Pump(LOSSY, 8, [M5], 1, Some(32 * 1024), 0);
    assert p == Pumped(1, M5.sizeBytes, 9, false);
    assert [M5][..1] == [M5] && [M5][..0] == [];
    assert Tokens([M5]) == Tokens([M5][..0]) + [Ctl(1)];
    assert Wire(s, WHO) + Tokens([M5]) == [Unit(D7), Ctl(1)];
    assert s.wire[WHO := [Unit(D7), Ctl(1)]] == S6.wire;
    assert s.queues - {WHO} == map[] && s.flagged - {WHO} == {};
    assert Flushed(s, WHO, p) == S6.(backpressured := [CH]);
    assert Flush(LOSSY, s, WHO, Some(32 * 1024)) == (S6.(backpressured := [CH]), true);
  }

  lemma Step7()
    ensures Send(LOSSY, DEFAULT_CONFIG, S6, CH, Data([D9]), 1000) == S7
  {
    OneSubscriber(LOSSY, DEFAULT_CONFIG, S6, Data([D9]), 1000);
    assert Wire(S6, WHO) + PayloadTokens(Data([D9])) == [Unit(D7), Ctl(1), Unit(D9)];
  }

  lemma RunFirst(s: State, e: Event, rest: seq<Event>)
    requires Enabled(s, e)
    ensures Run(LOSSY, DEFAULT_CONFIG, s, [e] + rest)
        == Run(LOSSY, DEFAULT_CONFIG, Step(LOSSY, DEFAULT_CONFIG, s, e), rest)
  {
    hide Step;
    assert ([e] + rest)[1..] == rest;
  }

  lemma LosingRunEnds()
    ensures Run(LOSSY, DEFAULT_CONFIG, INIT, LOSING_RUN) == S7
  {
    hide Send, Bind, DrainPass, Run;
    Step1();
    Step2();
    Step3();
    Step4();
    Step5();
    Step6();
    Step7();
    RunFirst(INIT, BindChannel(WHO, 0), AFTER_BIND);
    RunFirst(S1, SendMessage(CH, Data([D7]), 0), AFTER_FIRST);
    RunFirst(S2, SendMessage(CH, Data([D8]), 0), AFTER_REFUSAL);
    RunFirst(S3, DrainTimerFires(1000), AFTER_MARK);
    RunFirst(S4, SendMessage(CH, Control(1, BIG), 1000), AFTER_EVICTION);
    RunFirst(S5, DrainTimerFires(1000), AFTER_DRAIN);
    RunFirst(S6, SendMessage(CH, Data([D9]), 1000), []);
    RunNothing(S7);
  }

  lemma RunNothing(s: State)
    ensures Run(LOSSY, DEFAULT_CONFIG, s, []) == s
  {
  }

  /** Without the guard the guarantee fails under the default limits, for a client that bound once and
      first: the byte 8 is missing between 7 and 9 and no marker says so. */
  lemma EvictedMarkerHidesLoss()
    ensures Loses(DEFAULT_CONFIG, S4, WHO, Control(1, BIG))
    ensures Wire(Run(LOSSY, DEFAULT_CONFIG, INIT, LOSING_RUN), WHO) == [Unit(D7), Ctl(1), Unit(D9)]
    ensures StreamOf(LOSING_RUN, CH) == [D7, D8, D9]
    ensures !MarkedGaps(Wire(Run(LOSSY, DEFAULT_CONFIG, INIT, LOSING_RUN), WHO), StreamOf(LOSING_RUN, CH))
  {
    LosingRunEnds();
    EvictionGapIsUnmarked();
    LosingStream();
  }

  lemma StreamFirst(e: Event, rest: seq<Event>)
    ensures StreamOf([e] + rest, CH)
            == (if e.SendMessage? && e.channel == CH then DataOf(e.payload) else []) + StreamOf(rest, CH)
  {
    assert ([e] + rest)[1..] == rest;
  }

  lemma LosingStream()
    ensures StreamOf(LOSING_RUN, CH) == [D7, D8, D9]
  {
    StreamFirst(BindChannel(WHO, 0), AFTER_BIND);
    StreamFirst(SendMessage(CH, Data([D7]), 0), AFTER_FIRST);
    StreamFirst(SendMessage(CH, Data([D8]), 0), AFTER_REFUSAL);
    StreamFirst(DrainTimerFires(1000), AFTER_MARK);
    StreamFirst(SendMessage(CH, Control(1, BIG), 1000), AFTER_EVICTION);
    StreamFirst(DrainTimerFires(1000), AFTER_DRAIN);
    StreamFirst(SendMessage(CH, Data([D9]), 1000), []);
  }
}
