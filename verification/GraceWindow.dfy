/** Lease release through the reconnect grace window (server/browser-control-plane.ts). Leases are a map
    from task to controller. */
module GraceWindow {
  import opened Common

  const GRACE_MS := 30_000

  /** `grace` holds when a client went away; `peers` the clients with a presence. */
  datatype State = State(online: set<string>, grace: map<string, int>, leases: map<string, string>, peers: set<string>)

  const INIT := State({}, map[], map[], {})

  datatype Event =
    | Connect(client: string)
    | Disconnect(client: string, now: int)
    | Acquire(task: string, client: string)
    | LetGo(task: string)
    | Prune(now: int)

  predicate Enabled(s: State, e: Event) {
    e.Disconnect? ==> e.client in s.online
  }

  /** Everything the clients hold is released. */
  function Release(s: State, clients: set<string>): State {
    s.(leases := map t | t in s.leases && s.leases[t] !in clients :: s.leases[t], peers := s.peers - clients)
  }

  function Expired(s: State, now: int): set<string> {
    set c | c in s.grace && c !in s.online && now - s.grace[c] >= GRACE_MS
  }

  /** Absent clients that hold something and have no grace left. */
  function Inactive(s: State): set<string> {
    (set t | t in s.leases && s.leases[t] !in s.online && s.leases[t] !in s.grace :: s.leases[t])
    + (set c | c in s.peers && c !in s.online && c !in s.grace)
  }

  function AfterGraceLoop(s: State, now: int): State {
    Release(s, Expired(s, now)).(grace := s.grace - (s.online + Expired(s, now)))
  }

  function PruneStep(s: State, now: int): State {
    var s1 := AfterGraceLoop(s, now);
    Release(s1, Inactive(s1))
  }

  function Step(s: State, e: Event): State
    requires Enabled(s, e)
  {
    match e
    case Connect(c) => s.(online := s.online + {c}, grace := s.grace - {c}, peers := s.peers + {c})
    case Disconnect(c, now) => s.(online := s.online - {c}, grace := s.grace[c := now], peers := s.peers - {c})
    case Acquire(t, c) => s.(leases := s.leases[t := c])
    case LetGo(t) => s.(leases := s.leases - {t})
    case Prune(now) => PruneStep(s, now)
  }

  function Run(s: State, events: seq<Event>): State
    decreases |events|
  {
    if events == [] then s
    else Run(if Enabled(s, events[0]) then Step(s, events[0]) else s, events[1..])
  }

  // ---- one prune --------------------------------------------------------------

  predicate Holds(s: State, t: string, c: string) {
    t in s.leases && s.leases[t] == c
  }

  /** A client in its grace window loses its leases in a prune exactly if it is still away and the window is
      over; a connected client never does; one without grace does at once. */
  lemma PruneReleasesExactly(s: State, now: int, t: string, c: string)
    requires Holds(s, t, c)
    ensures Holds(PruneStep(s, now), t, c) <==> c in s.online || (c in s.grace && now - s.grace[c] < GRACE_MS)
  {
    var s1 := AfterGraceLoop(s, now);
    if c in Expired(s, now) {
      assert t !in s1.leases;
    } else {
      assert Holds(s1, t, c);
      if c !in s.online && c !in s.grace {
        assert s1.leases[t] in Inactive(s1);
      }
    }
  }

  // ---- absence, told by the events alone ------------------------------------------

  function AwayAfter(away: Option<int>, e: Event, c: string): Option<int> {
    match e
    case Connect(d) => if d == c then None else away
    case Disconnect(d, now) => if d == c then Some(now) else away
    case _ => away
  }

  /** Since when a client is away: its last disconnect with no connect after it. */
  function AwaySince(events: seq<Event>, c: string): Option<int> {
    if events == [] then None
    else AwayAfter(AwaySince(events[..|events| - 1], c), events[|events| - 1], c)
  }

  /** Every disconnect in the run is of a connected client. */
  predicate WellFormed(events: seq<Event>) {
    forall k :: 0 <= k < |events| ==> Enabled(Run(INIT, events[..k]), events[k])
  }

  lemma {:induction false} RunAppend(s: State, events: seq<Event>, e: Event)
    ensures Run(s, events + [e]) ==
            (if Enabled(Run(s, events), e) then Step(Run(s, events), e) else Run(s, events))
    decreases |events|
  {
    hide Step, Enabled;
    if events == [] {
      assert (events + [e])[1..] == [];
    } else {
      assert (events + [e])[1..] == events[1..] + [e];
      RunAppend(if Enabled(s, events[0]) then Step(s, events[0]) else s, events[1..], e);
    }
  }

  predicate GraceAgrees(s: State, c: string, away: Option<int>) {
    && (c in s.grace ==> away == Some(s.grace[c]) && c !in s.online)
    && (c in s.online ==> away.None?)
  }

  lemma StepKeepsAgreement(s: State, e: Event, c: string, away: Option<int>)
    requires Enabled(s, e) && GraceAgrees(s, c, away)
    ensures GraceAgrees(Step(s, e), c, AwayAfter(away, e, c))
  {
    hide Inactive;
  }

  /** The last event of a well-formed run. */
  lemma LastEvent(events: seq<Event>)
    requires WellFormed(events) && events != []
    ensures var before, e := events[..|events| - 1], events[|events| - 1];
            WellFormed(before) && Enabled(Run(INIT, before), e) && Run(INIT, events) == Step(Run(INIT, before), e)
  {
    hide Step, Enabled, Run;
    var before := events[..|events| - 1];
    var e := events[|events| - 1];
    assert forall k :: 0 <= k < |before| ==> before[..k] == events[..k];
    assert events[..|before|] == before;
    RunAppend(INIT, before, e);
    assert before + [e] == events;
  }

  /** The grace entry of a client is the time it went away, and a client in grace is not connected. */
  lemma {:induction false} GraceIsAbsence(events: seq<Event>, c: string)
    requires WellFormed(events)
    ensures GraceAgrees(Run(INIT, events), c, AwaySince(events, c))
    decreases |events|
  {
    hide Step, Enabled, WellFormed, AwayAfter;
    if events != [] {
      hide GraceAgrees, Run;
      var before := events[..|events| - 1];
      LastEvent(events);
      GraceIsAbsence(before, c);
      StepKeepsAgreement(Run(INIT, before), events[|events| - 1], c, AwaySince(before, c));
    }
  }

  /** Whether a prune already released the client since it went away. */
  predicate ReleasedSince(events: seq<Event>, c: string) {
    if events == [] then false
    else
      var e := events[|events| - 1];
      var before := events[..|events| - 1];
      match e
      case Disconnect(d, _) => if d == c then false else ReleasedSince(before, c)
      case Prune(now) =>
        ReleasedSince(before, c) || (AwaySince(before, c).Some? && now - AwaySince(before, c).value >= GRACE_MS)
      case _ => ReleasedSince(before, c)
  }

  /** Until the prune that finds the window over, the client is in grace. */
  lemma {:induction false} AwayMeansGrace(events: seq<Event>, c: string)
    requires WellFormed(events) && AwaySince(events, c).Some? && !ReleasedSince(events, c)
    ensures c in Run(INIT, events).grace
    decreases |events|
  {
    hide Run, WellFormed, Inactive;
    var before := events[..|events| - 1];
    var e := events[|events| - 1];
    LastEvent(events);
    if !(e.Disconnect? && e.client == c) {
      AwayMeansGrace(before, c);
      GraceIsAbsence(before, c);
    }
  }

  /** Over every run: the first prune that takes a lease from a client that went away comes no sooner than
      30 seconds after it went, with no connection in between. */
  lemma FirstReleaseAfterAbsence(events: seq<Event>, now: int, t: string, c: string)
    requires WellFormed(events)
    ensures var s := Run(INIT, events);
            Holds(s, t, c) && AwaySince(events, c).Some? && !ReleasedSince(events, c)
            ==> (!Holds(PruneStep(s, now), t, c) <==> now - AwaySince(events, c).value >= GRACE_MS)
  {
    hide Run, PruneStep;
    var s := Run(INIT, events);
    if Holds(s, t, c) && AwaySince(events, c).Some? && !ReleasedSince(events, c) {
      AwayMeansGrace(events, c);
      GraceIsAbsence(events, c);
      PruneReleasesExactly(s, now, t, c);
    }
  }

  // ---- reconnecting -----------------------------------------------------------------

  /** Every prune finds the client connected or away for less than the window; nobody else touches the task. */
  predicate Undisturbed(events: seq<Event>, t: string, c: string, away: Option<int>)
    decreases |events|
  {
    events == [] ||
    match events[0]
    case Connect(d) => Undisturbed(events[1..], t, c, if d == c then None else away)
    case Disconnect(d, now) => Undisturbed(events[1..], t, c, if d == c && away.None? then Some(now) else away)
    case Acquire(u, _) => u != t && Undisturbed(events[1..], t, c, away)
    case LetGo(u) => u != t && Undisturbed(events[1..], t, c, away)
    case Prune(now) => (away.Some? ==> now - away.value < GRACE_MS) && Undisturbed(events[1..], t, c, away)
  }

  predicate Tracks(s: State, c: string, away: Option<int>) {
    if away.None? then c in s.online else c !in s.online && c in s.grace && s.grace[c] == away.value
  }

  /** However often a client drops and comes back within the window, its leases are untouched. */
  lemma {:induction false} ReconnectKeepsLeases(s: State, events: seq<Event>, t: string, c: string, away: Option<int>)
    requires Holds(s, t, c) && Tracks(s, c, away) && Undisturbed(events, t, c, away)
    ensures Holds(Run(s, events), t, c)
    decreases |events|
  {
    if events != [] {
      var e := events[0];
      var s' := if Enabled(s, e) then Step(s, e) else s;
      var away' := if e.Connect? && e.client == c then None
                   else if e.Disconnect? && e.client == c && away.None? then Some(e.now) else away;
      if e.Prune? {
        PruneReleasesExactly(s, e.now, t, c);
      }
      ReconnectKeepsLeases(s', events[1..], t, c, away');
    }
  }
}
