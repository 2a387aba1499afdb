/** The control plane's maps of leases and recent disconnects, with the prune loops that change them;
    proved against `GraceWindow`. */
module GraceKeeper {
  import opened GraceWindow

  class ReconnectGrace {
    var online: set<string>
    var recentlyDisconnected: map<string, int>
    var leases: map<string, string>
    var peers: set<string>

    ghost function State(): State
      reads this
    {
      GraceWindow.State(online, recentlyDisconnected, leases, peers)
    }

    /** Only absent clients have a grace entry, only connected ones a presence. */
    ghost predicate Valid()
      reads this
    {
      recentlyDisconnected.Keys !! online && peers <= online
    }

    constructor ()
      ensures State() == INIT && Valid()
    {
      online, recentlyDisconnected, leases, peers := {}, map[], map[], {};
    }

    method Authenticate(client: string)
      requires Valid()
      modifies this
      ensures State() == Step(old(State()), Connect(client))
      ensures Valid()
    {
      online := online + {client};
      peers := peers + {client};
      recentlyDisconnected := recentlyDisconnected - {client};
    }

    /** The last socket of a client closed: presence goes, leases stay. */
    method HandleDisconnected(client: string, now: int)
      requires Valid() && client in online
      modifies this
      ensures State() == Step(old(State()), Disconnect(client, now))
      ensures Valid() && leases == old(leases)
    {
      online := online - {client};
      peers := peers - {client};
      recentlyDisconnected := recentlyDisconnected[client := now];
    }

    method ReleaseInactiveClient(client: string)
      modifies this`leases, this`peers
      ensures State() == Release(old(State()), {client})
    {
      leases := map t | t in leases && leases[t] != client :: leases[t];
      peers := peers - {client};
    }

    /** First the grace entries, over a copy of them, then everybody absent without grace. Afterwards exactly
        those hold what they held who are connected or within their window. */
    method PruneInactive(now: int)
      requires Valid()
      modifies this
      ensures State() == Step(old(State()), Prune(now))
      ensures Valid()
      ensures forall t, c :: old(Holds(State(), t, c)) ==> (Holds(State(), t, c) <==> old(Keeps(State(), now, c)))
      ensures forall t :: t in leases ==> t in old(leases) && leases[t] == old(leases)[t]
      ensures forall t :: t in leases && leases[t] !in online ==>
                            leases[t] in recentlyDisconnected && now - recentlyDisconnected[leases[t]] < GRACE_MS
    {
      hide Release, Expired, Inactive, PruneStep;
      ghost var s0 := State();
      PruneGrace(now);
      assert State() == AfterGraceLoop(s0, now);
      ReleaseAbsent();
      PruneParts(s0, now);
      PruneLeaves(s0, now);
      forall t, c | Holds(s0, t, c)
        ensures Holds(State(), t, c) <==> Keeps(s0, now, c)
      {
        PruneReleasesExactly(s0, now, t, c);
      }
    }

    method PruneGrace(now: int)
      modifies this
      ensures State() == AfterGraceLoop(old(State()), now)
    {
      hide Release, Expired, GraceSoFar;
      var todo := recentlyDisconnected.Keys;
      ghost var s0 := State();
      ghost var done: set<string> := {};
      GraceNoneDone(s0, now);
      while todo != {}
        invariant todo !! done && todo + done == s0.grace.Keys
        invariant State() == GraceSoFar(s0, now, done)
        decreases |todo|
      {
        var client :| client in todo;
        todo := todo - {client};
        GraceNext(s0, now, done, client);
        done := done + {client};
        var disconnectedAt := recentlyDisconnected[client];
        if client in online {
          recentlyDisconnected := recentlyDisconnected - {client};
        } else if now - disconnectedAt >= GRACE_MS {
          recentlyDisconnected := recentlyDisconnected - {client};
          ReleaseInactiveClient(client);
        }
      }
      assert done == s0.grace.Keys;
      GraceAllDone(s0, now);
    }

    method ReleaseAbsent()
      modifies this`leases, this`peers
      ensures State() == Release(old(State()), Inactive(old(State())))
    {
      var todo := Inactive(GraceWindow.State(online, recentlyDisconnected, leases, peers));
      ghost var s0 := State();
      ghost var all := todo;
      hide Release, Inactive;
      assert all - todo == {};
      ReleaseNobody(s0);
      while todo != {}
        invariant todo <= all && State() == Release(s0, all - todo)
        decreases |todo|
      {
        var client :| client in todo;
        ghost var before := all - todo;
        todo := todo - {client};
        ReleaseInactiveClient(client);
        assert all - todo == before + {client};
        ReleaseTwice(s0, before, {client});
      }
      assert all - todo == all;
    }
  }

  /** Connected, or away with the window not yet over. */
  predicate Keeps(s: State, now: int, c: string) {
    c in s.online || (c in s.grace && now - s.grace[c] < GRACE_MS)
  }

  /** The grace loop after the clients in `done`. */
  ghost function GraceSoFar(s: State, now: int, done: set<string>): State {
    Release(s, Expired(s, now) * done).(grace := s.grace - ((s.online + Expired(s, now)) * done))
  }

  lemma GraceNoneDone(s: State, now: int)
    ensures GraceSoFar(s, now, {}) == s
  {
    assert Expired(s, now) * {} == {} && (s.online + Expired(s, now)) * {} == {};
    assert s.grace - {} == s.grace;
  }

  lemma GraceNext(s: State, now: int, done: set<string>, client: string)
    requires client in s.grace && client !in done
    ensures var before := GraceSoFar(s, now, done);
            && before.online == s.online && client in before.grace && before.grace[client] == s.grace[client]
            && GraceSoFar(s, now, done + {client}) ==
                 if client in s.online then before.(grace := before.grace - {client})
                 else if now - s.grace[client] >= GRACE_MS
                   then Release(before.(grace := before.grace - {client}), {client})
                 else before
  {
    hide Release;
    var expired := Expired(s, now);
    var gone := s.online + expired;
    var next := done + {client};
    var released := Release(s, expired * done);
    ReleaseParts(s, expired * done);
    if client in gone {
      assert gone * next == gone * done + {client};
      assert s.grace - (gone * next) == (s.grace - (gone * done)) - {client};
    } else {
      assert gone * next == gone * done;
    }
    if client in expired {
      assert expired * next == expired * done + {client};
      ReleaseTwice(s, expired * done, {client});
      ReleaseIgnoresGrace(released, s.grace - (gone * next), {client});
    } else {
      assert expired * next == expired * done;
    }
  }

  lemma ReleaseParts(s: State, clients: set<string>)
    ensures Release(s, clients).online == s.online && Release(s, clients).grace == s.grace
  {
  }

  lemma ReleaseIgnoresGrace(s: State, grace: map<string, int>, clients: set<string>)
    ensures Release(s.(grace := grace), clients) == Release(s, clients).(grace := grace)
  {
  }

  lemma ReleaseNobody(s: State)
    ensures Release(s, {}) == s
  {
  }

  lemma GraceAllDone(s: State, now: int)
    ensures GraceSoFar(s, now, s.grace.Keys) == AfterGraceLoop(s, now)
  {
    assert Expired(s, now) * s.grace.Keys == Expired(s, now);
    assert s.grace - ((s.online + Expired(s, now)) * s.grace.Keys) == s.grace - (s.online + Expired(s, now));
  }

  lemma ReleaseTwice(s: State, a: set<string>, b: set<string>)
    ensures Release(Release(s, a), b) == Release(s, a + b)
  {
  }

  /** A prune takes leases, presences and grace entries, and leaves no lease with an absent client whose
      window is over. */
  lemma PruneLeaves(s: State, now: int)
    ensures var s' := PruneStep(s, now);
            && s'.online == s.online && s'.grace.Keys <= s.grace.Keys && s'.peers <= s.peers
            && (forall t :: t in s'.leases ==> t in s.leases && s'.leases[t] == s.leases[t])
            && (forall t :: t in s'.leases && s'.leases[t] !in s'.online ==>
                              s'.leases[t] in s'.grace && now - s'.grace[s'.leases[t]] < GRACE_MS)
  {
    var s1 := AfterGraceLoop(s, now);
    forall t | t in PruneStep(s, now).leases && s.leases[t] !in s.online
      ensures s.leases[t] in s1.grace && now - s1.grace[s.leases[t]] < GRACE_MS
    {
      assert s1.leases[t] == s.leases[t] && s1.leases[t] !in Inactive(s1);
    }
  }

  lemma PruneParts(s: State, now: int)
    ensures PruneStep(s, now) == Release(AfterGraceLoop(s, now), Inactive(AfterGraceLoop(s, now)))
  {
  }
}
