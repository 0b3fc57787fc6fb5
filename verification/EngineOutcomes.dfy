/** What each input achieves, over every run: the invariants say what never goes wrong, and these theorems what
    goes right. */
module EngineOutcomes {
  import opened Common
  import opened DegradationReporting
  import opened ProbeRacing
  import opened Reprobing
  import opened FailureCauses
  import opened Endpoints
  import opened EngineSpec
  import opened EngineInvariant
  import opened EngineRuns
  import opened EngineLearning
  import Health

  // ------------------------------------------------------------------ what is wrong

  predicate FoundUnreached(e: Engine, i: nat) { i < |e.reach| && e.reach[i] == Unreached }

  /** The cause is at work, by what the engine knows of the machine, the endpoints and these profiles. What was
      found of the endpoints counts after a race. */
  ghost predicate Troubled(e: Engine, profiles: seq<Profile>, afterRace: bool, c: FailureCause) {
    match c
    case InsufficientPrivilege => !e.environment.privileged
    case ConfigurationInvalid(Stated(text)) => e.environment.configurationError == Some(text)
    case ConfigurationInvalid(NoEndpointConfigured) => e.endpoints == []
    case ConfigurationInvalid(NoProfileDefined) => profiles == []
    case NoUsablePath => e.environment.usablePaths == 0
    case CaptivePortalUnsatisfied => e.environment.captivePortal
    case NoEndpointReachable =>
      e.endpoints == [] || (afterRace && forall i :: 0 <= i < |e.endpoints| ==> FoundUnreached(e, i))
    case AllProfilesBlocked => forall i :: 0 <= i < |profiles| ==> profiles[i].viability.Blocked?
    case _ => false
  }

  /** The most fundamental cause at work. */
  ghost predicate Blamed(e: Engine, profiles: seq<Profile>, afterRace: bool, c: FailureCause) {
    Troubled(e, profiles, afterRace, c) && forall d :: Troubled(e, profiles, afterRace, d) ==> Depth(c) <= Depth(d)
  }

  ghost predicate Sound(e: Engine, profiles: seq<Profile>, afterRace: bool) {
    forall c :: !Troubled(e, profiles, afterRace, c)
  }

  lemma TroubledIsPresent(e: Engine, afterRace: bool, c: FailureCause)
    ensures Present(SituationOf(e, afterRace), c) <==> Troubled(e, e.profiles, afterRace, c)
  {
    var s := SituationOf(e, afterRace);
    assert |s.endpointReach| == |e.endpoints|;
    if c == NoEndpointReachable {
      forall i | 0 <= i < |e.endpoints| ensures s.endpointReach[i] == Unreached <==> afterRace && FoundUnreached(e, i) {
      }
      if Present(s, c) && e.endpoints != [] {
        assert s.endpointReach[0] == Unreached;
        forall i | 0 <= i < |e.endpoints| ensures FoundUnreached(e, i) {
          assert s.endpointReach[i] == Unreached;
        }
      }
    }
  }

  lemma DiagnoseExactly(e: Engine, afterRace: bool)
    ensures forall c :: Diagnose(e, afterRace) == Some(c) <==> Blamed(e, e.profiles, afterRace, c)
    ensures Diagnose(e, afterRace) == None <==> Sound(e, e.profiles, afterRace)
  {
    var s := SituationOf(e, afterRace);
    ClassifyExactly(s);
    forall c ensures Present(s, c) <==> Troubled(e, e.profiles, afterRace, c) {
      TroubledIsPresent(e, afterRace, c);
    }
    forall c ensures Diagnose(e, afterRace) == Some(c) <==> Blamed(e, e.profiles, afterRace, c) {
      assert Classify(s) == Some(c) <==> Present(s, c) && forall d :: Present(s, d) ==> Depth(c) <= Depth(d);
    }
  }

  // ------------------------------------------------------------------ simple inputs

  /** Disconnecting ends everything: whatever was running is stopped, and the engine is idle. */
  lemma DisconnectEndsEverything(r: Run, k: nat)
    requires r.Valid() && k < |r.inputs| && r.inputs[k].input == Disconnect
    ensures r.engines[k + 1] == r.engines[k].(phase := Idle, raced := [], replacing := None)
    ensures WorldAt(r, k + 1) == Some(Quiet)
    ensures CancelRace in r.actions[k] <==> r.engines[k].phase.Racing()
    ensures StopTunnel in r.actions[k] <==> r.engines[k].phase.Tunnelling()
    ensures forall a :: a in r.actions[k] ==> a == CancelRace || a == StopTunnel
  {
    ActionsAreDisciplined(r, k + 1);
    assert r.Follows(k);
  }

  /** A tunnel that comes up while one is being started is the connection; its profile, and no other, is known to
      work. At any other time the input changes nothing. */
  lemma TunnelUpConnects(r: Run, k: nat)
    requires r.Valid() && k < |r.inputs| && r.inputs[k].input == TunnelUp
    ensures r.actions[k] == []
    ensures !r.engines[k].phase.Starting? ==> r.engines[k + 1] == r.engines[k]
    ensures r.engines[k].phase.Starting? ==>
              var (e, n) := (r.engines[k], r.engines[k + 1]);
              && n.phase == Connected(e.phase.profile, e.phase.endpoint)
              && n.watch == FRESH_WATCH && n.replacing == None
              && n == e.(phase := n.phase, watch := n.watch, replacing := n.replacing, profiles := n.profiles)
              && |n.profiles| == |e.profiles|
              && forall i :: 0 <= i < |e.profiles| ==>
                   n.profiles[i] == if e.profiles[i].id == e.phase.profile
                                    then e.profiles[i].(viability := Working(r.inputs[k].now))
                                    else e.profiles[i]
  {
    var e := r.engines[k];
    InvAlways(r, k);
    assert r.Follows(k);
    if e.phase.Starting? {
      forall i | 0 <= i < |e.profiles|
        ensures Marked(e.profiles, e.phase.profile, Working(r.inputs[k].now))[i]
                == if e.profiles[i].id == e.phase.profile then e.profiles[i].(viability := Working(r.inputs[k].now))
                   else e.profiles[i]
      {
        MarkedInPlace(e.profiles, e.profiles, e.phase.profile, Working(r.inputs[k].now), i);
      }
      MarkedSame(e.profiles, e.phase.profile, Working(r.inputs[k].now));
    }
  }

  /** A start that failed ends the attempt with the cause given; at any other time the input changes nothing. */
  lemma StartFailedBreaks(r: Run, k: nat)
    requires r.Valid() && k < |r.inputs| && r.inputs[k].input.StartFailed?
    ensures var (e, n, cause) := (r.engines[k], r.engines[k + 1], r.inputs[k].input.cause);
            if e.phase.Starting? then
              && n == e.(phase := Broken(cause), raced := [], replacing := None)
              && r.actions[k] == [StopTunnel, Emit(GaveUp(cause))]
            else n == e && r.actions[k] == []
  {
    assert r.Follows(k);
  }

  /** What is only taken note of: the machine's state and the endpoints' reach, for later; a change of path or of
      quality, for the user, while there is a connection. */
  lemma OthersOnlyNote(r: Run, k: nat)
    requires r.Valid() && k < |r.inputs|
    ensures var (e, n, input, said) := (r.engines[k], r.engines[k + 1], r.inputs[k].input, r.actions[k]);
            && (input.SetEnvironment? ==> n == e.(environment := input.environment) && said == [])
            && (input.SetReach? ==> n == e.(reach := input.reach) && said == [])
            && (input.Connectivity? ==>
                  n == e && said == if e.phase.Connected? then [Emit(QualityChanged(input.change))] else [])
            && (input.PathChanged? ==> n == e && (!e.phase.Connected? ==> said == []))
            && (input.PathChanged? && e.phase.Connected? ==>
                  exists i :: && 0 <= i < |e.profiles| && e.profiles[i].id == e.phase.profile
                              && said == [Emit(CarrierChanged(input.from, input.to, e.profiles[i].tier))])
  {
    InvAlways(r, k);
    assert r.Follows(k);
  }

  // ------------------------------------------------------------------ the race

  /** A result for no race, an undecided one, or a winner that was not raced changes nothing. */
  lemma StaleResultIsIgnored(r: Run, k: nat)
    requires r.Valid() && k < |r.inputs| && r.inputs[k].input.RaceFinished?
    requires var d := r.inputs[k].input.decision;
             || !(r.engines[k].phase.Probing? || r.engines[k].phase.Recovering?)
             || d == StillPending || (d.Selected? && d.profile !in r.engines[k].raced)
    ensures r.engines[k + 1] == r.engines[k] && r.actions[k] == []
  {
    assert r.Follows(k);
  }

  /** The winner is brought up at the endpoint the race ran against, and the user is warned of it exactly if it is
      of the second tier. */
  lemma WinnerIsBroughtUp(r: Run, k: nat)
    requires r.Valid() && k < |r.inputs| && r.inputs[k].input.RaceFinished?
    requires var d := r.inputs[k].input.decision;
             && (r.engines[k].phase.Probing? || r.engines[k].phase.Recovering?)
             && d.Selected? && d.profile in r.engines[k].raced
    ensures var (e, n, p, said) := (r.engines[k], r.engines[k + 1], r.inputs[k].input.decision.profile, r.actions[k]);
            && e.endpoint.Some? && n.phase == Starting(p, e.endpoint.value) && n.watch == FRESH_WATCH
            && n == e.(phase := n.phase, watch := n.watch, raced := [], profiles := n.profiles)
            && said != [] && said[|said| - 1] == StartTunnel(p, e.endpoint.value) && Emit(ProfileSelected(p)) in said
            && (WarnTier2(p) in said <==>
                 exists i :: 0 <= i < |e.profiles| && e.profiles[i].id == p && e.profiles[i].tier == Tier2)
  {
    var e, d, results, now := r.engines[k], r.inputs[k].input.decision, r.inputs[k].input.results, r.inputs[k].now;
    InvAlways(r, k);
    LearnedSame(e, d, results, now);
    var (learned, talk) := Learned(e, d, results, now);
    assert r.Follows(k);
    BringUpSays(learned, d.profile, e.endpoint.value, talk);
    Tier2Means(learned.profiles, e.profiles, d.profile);
    assert OnlyAboutProfiles(talk) by { TalkIsAboutProfiles(e, d, results, now); }
  }

  predicate OnlyAboutProfiles(actions: seq<Action>) {
    forall a :: a in actions ==> a.Emit? && a.event.ProfileBlocked?
  }

  lemma {:induction false} NotedTalk(profiles: seq<Profile>, results: Results, now: Time)
    ensures OnlyAboutProfiles(Noted(profiles, results, now).1)
  {
    if results != [] {
      NotedTalk(profiles, results[..|results| - 1], now);
    }
  }

  lemma {:induction false} SilencedTalk(profiles: seq<Profile>, ids: seq<ProfileId>, now: Time)
    ensures OnlyAboutProfiles(Silenced(profiles, ids, now).1)
  {
    if ids != [] {
      SilencedTalk(profiles, ids[..|ids| - 1], now);
    }
  }

  lemma TalkIsAboutProfiles(e: Engine, d: RaceDecision, results: Results, now: Time)
    ensures OnlyAboutProfiles(Learned(e, d, results, now).1)
  {
    NotedTalk(e.profiles, results, now);
    SilencedTalk(Noted(e.profiles, results, now).0, Filter(e.raced, SilentTest(results)), now);
  }

  lemma BringUpSays(e: Engine, p: ProfileId, against: EndpointId, talk: seq<Action>)
    ensures var said := talk + BringUp(e, p, against).1;
            && said != [] && said[|said| - 1] == StartTunnel(p, against) && Emit(ProfileSelected(p)) in said
            && (WarnTier2(p) in said <==> WarnTier2(p) in talk || IsTier2(e.profiles, p))
            && (forall c :: Emit(GaveUp(c)) in said ==> Emit(GaveUp(c)) in talk)
  {
    var up := BringUp(e, p, against).1;
    assert up[0] == Emit(ProfileSelected(p)) && up[|up| - 1] == StartTunnel(p, against);
    assert (talk + up)[|talk|] == up[0];
    if IsTier2(e.profiles, p) {
      assert up[1] == WarnTier2(p) && (talk + up)[|talk| + 1] == up[1];
    }
  }

  lemma Tier2Means(a: seq<Profile>, b: seq<Profile>, p: ProfileId)
    requires SameProfiles(a, b) && UniqueProfiles(b)
    ensures IsTier2(a, p) <==> exists i :: 0 <= i < |b| && b[i].id == p && b[i].tier == Tier2
  {
    SamePlaces(a, b, p);
    if i :| 0 <= i < |b| && b[i].id == p && b[i].tier == Tier2 {
      PlaceUnique(b, i);
    }
  }

  /** The first profile that can only be tried by bringing it up and has not been tried. */
  predicate FirstDirect(profiles: seq<Profile>, i: nat) {
    && i < |profiles| && profiles[i].kind == AmneziaWg && profiles[i].viability == Untested
    && forall j :: 0 <= j < i ==> profiles[j].kind != AmneziaWg || profiles[j].viability != Untested
  }

  /** Every profile that can be raced is blocked. */
  predicate RaceablesBlocked(profiles: seq<Profile>) {
    forall i :: 0 <= i < |profiles| && profiles[i].kind != AmneziaWg ==> profiles[i].viability.Blocked?
  }

  lemma {:induction false} FirstKept(profiles: seq<Profile>, i: nat)
    requires FirstDirect(profiles, i)
    ensures Filter(profiles, LastResortTest()) != [] && Filter(profiles, LastResortTest())[0] == profiles[i]
  {
    FilterHead(profiles, LastResortTest());
    if i > 0 {
      FirstKept(profiles[1..], i - 1);
    }
  }

  lemma FindFirstDirect(profiles: seq<Profile>) returns (i: nat)
    requires Filter(profiles, LastResortTest()) != []
    ensures FirstDirect(profiles, i)
  {
    var kept := Filter(profiles, LastResortTest());
    assert kept[0] in kept && kept[0] in profiles;
    i := 0;
    while !(!profiles[i].kind.Probeable() && profiles[i].viability == Untested)
      invariant i < |profiles|
      invariant forall j :: 0 <= j < i ==> profiles[j].kind.Probeable() || profiles[j].viability != Untested
      invariant exists j :: i <= j < |profiles| && profiles[j] == kept[0]
      decreases |profiles| - i
    {
      i := i + 1;
    }
  }

  /** The last resort is the first of those, once every profile that can be raced is blocked. */
  lemma FallbackExactly(profiles: seq<Profile>, id: ProfileId)
    ensures DirectFallback(profiles) == Some(id) <==>
              RaceablesBlocked(profiles) && exists i: nat :: FirstDirect(profiles, i) && profiles[i].id == id
  {
    assert RaceablesBlocked(profiles) <==> !exists p :: p in profiles && p.kind.Probeable() && !p.viability.Blocked?;
    if i: nat :| FirstDirect(profiles, i) && profiles[i].id == id {
      FirstKept(profiles, i);
    }
    if DirectFallback(profiles) == Some(id) {
      var i := FindFirstDirect(profiles);
      FirstKept(profiles, i);
    }
  }

  /** What becomes of a race that nobody won, by what is then known. */
  ghost predicate AfterLosing(e: Engine, n: Engine) {
    && n == e.(phase := n.phase, raced := [], profiles := n.profiles, watch := n.watch, replacing := n.replacing)
    && if exists c :: Blamed(e, n.profiles, true, c) then
         exists c :: Blamed(e, n.profiles, true, c) && n.phase == Broken(c)
    else if e.phase.Probing? && e.requested.Some? then
      n.phase == Broken(ConfigurationInvalid(NamedProfileFailed(e.requested.value)))
    else if RaceablesBlocked(n.profiles) && exists i: nat :: FirstDirect(n.profiles, i) then
      && e.endpoint.Some?
      && exists i: nat :: FirstDirect(n.profiles, i) && n.phase == Starting(n.profiles[i].id, e.endpoint.value)
    else n.phase == Broken(AllProfilesBlocked)
  }

  lemma NobodyWonIs(e: Engine, known: Engine, n: Engine)
    requires e.endpoint.Some? && known == e.(profiles := known.profiles, raced := [])
            && (e.phase.Probing? || e.phase.Recovering?)
    requires n == NobodyWon(known, e.phase == Recovering, e.endpoint.value).0
    ensures n.profiles == known.profiles && AfterLosing(e, n)
  {
    DiagnoseExactly(known, true);
    forall c ensures Blamed(known, known.profiles, true, c) <==> Blamed(e, known.profiles, true, c) {
      SameTroubles(e, known, known.profiles, true);
    }
    var direct := DirectFallback(known.profiles);
    if direct.Some? {
      FallbackExactly(known.profiles, direct.value);
    } else if RaceablesBlocked(known.profiles) {
      if i: nat :| FirstDirect(known.profiles, i) {
        FallbackExactly(known.profiles, known.profiles[i].id);
      }
    }
  }

  lemma SameTroubles(e: Engine, f: Engine, profiles: seq<Profile>, afterRace: bool)
    requires e.environment == f.environment && e.endpoints == f.endpoints && (afterRace ==> e.reach == f.reach)
    ensures forall c :: Troubled(e, profiles, afterRace, c) <==> Troubled(f, profiles, afterRace, c)
  {
    assert afterRace ==> forall i: nat :: FoundUnreached(e, i) <==> FoundUnreached(f, i);
  }

  /** When nobody won: the most fundamental trouble is named; else a profile that the user named has failed; else
      the last resort is brought up, if every profile that can be raced is blocked and there is one; else every
      profile is blocked. */
  lemma NobodyWonExactly(r: Run, k: nat)
    requires r.Valid() && k < |r.inputs| && r.inputs[k].input.RaceFinished? && r.inputs[k].input.decision == NoneUsable
    requires r.engines[k].phase.Probing? || r.engines[k].phase.Recovering?
    ensures AfterLosing(r.engines[k], r.engines[k + 1])
  {
    var e, results, now := r.engines[k], r.inputs[k].input.results, r.inputs[k].now;
    InvAlways(r, k);
    LearnedSame(e, NoneUsable, results, now);
    assert r.Follows(k);
    NobodyWonIs(e, Learned(e, NoneUsable, results, now).0, r.engines[k + 1]);
  }
}
