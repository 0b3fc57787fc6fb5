/** How an attempt begins, goes on and moves, over every run: connecting, a blocked profile, a lost endpoint. */
module EngineAttempts {
  import opened Common
  import opened ProbeRacing
  import opened Reprobing
  import opened FailureCauses
  import opened Endpoints
  import opened EngineSpec
  import opened EngineInvariant
  import opened EngineRuns
  import opened EngineLearning
  import opened EngineOutcomes
  import Health

  // ------------------------------------------------------------------ connecting

  /** An endpoint that may be used and that no endpoint that may be used outranks. */
  ghost predicate BestEndpoint(endpoints: seq<Endpoint>, id: EndpointId) {
    exists i :: && 0 <= i < |endpoints| && endpoints[i].id == id && IsCandidate(endpoints[i])
                && forall j :: 0 <= j < |endpoints| && IsCandidate(endpoints[j]) ==>
                     RanksNoLower(endpoints[i], endpoints[j])
  }

  lemma RankHeadIsBest(endpoints: seq<Endpoint>)
    requires UniqueEndpoints(endpoints)
    ensures Rank(endpoints) == [] <==> forall i :: 0 <= i < |endpoints| ==> !IsCandidate(endpoints[i])
    ensures Rank(endpoints) != [] ==> BestEndpoint(endpoints, Rank(endpoints)[0])
  {
    RankHeadIsUsable(endpoints);
    assert (forall i :: 0 <= i < |endpoints| ==> !IsCandidate(endpoints[i])) ==>
        forall e :: e in endpoints ==> !IsCandidate(e);
    if Rank(endpoints) != [] {
      var i := FindEndpoint(endpoints, Rank(endpoints)[0]).value;
      forall j | 0 <= j < |endpoints| && IsCandidate(endpoints[j]) ensures RanksNoLower(endpoints[i], endpoints[j]) {
        assert endpoints[j] in endpoints;
      }
    } else {
      assert forall i :: 0 <= i < |endpoints| ==> endpoints[i] in endpoints;
    }
  }

  /** Every profile as configured, and not yet tried. */
  predicate Fresh(before: seq<Profile>, after: seq<Profile>) {
    |after| == |before| && forall i :: 0 <= i < |before| ==> after[i] == before[i].(viability := Untested)
  }

  predicate CanBeRaced(profiles: seq<Profile>, id: ProfileId) {
    exists i :: 0 <= i < |profiles| && profiles[i].id == id && profiles[i].kind != AmneziaWg
  }

  predicate NoneCanBeRaced(profiles: seq<Profile>) { forall i :: 0 <= i < |profiles| ==> profiles[i].kind == AmneziaWg }

  /** What a connect that is accepted comes to. */
  ghost predicate AfterConnect(e: Engine, requested: Option<ProfileId>, n: Engine, said: seq<Action>) {
    if exists c :: Blamed(e, n.profiles, false, c) then
      exists c :: Blamed(e, n.profiles, false, c) && n.phase == Broken(c)
    else if requested.Some? && !Configured(e.profiles, requested.value) then
      n.phase == Broken(ConfigurationInvalid(NoSuchProfile(requested.value)))
    else if forall i :: 0 <= i < |e.endpoints| ==> !IsCandidate(e.endpoints[i]) then
      n.phase == Broken(NoEndpointReachable)
    else
      && n.endpoint.Some? && BestEndpoint(e.endpoints, n.endpoint.value)
      && (if requested.Some? && CanBeRaced(e.profiles, requested.value) then
            n.phase == Probing && n.raced == [requested.value] && StartRace(n.raced, n.endpoint.value) in said
            && Emit(ProbeStarted) in said
          else if requested.Some? then
            && n.phase == Starting(requested.value, n.endpoint.value)
            && StartTunnel(requested.value, n.endpoint.value) in said
          else if !NoneCanBeRaced(e.profiles) then
            && n.phase == Probing && n.raced == ProbeableIds(e.profiles)
            && StartRace(n.raced, n.endpoint.value) in said && Emit(ProbeStarted) in said
          else
            && e.profiles != [] && n.phase == Starting(e.profiles[0].id, n.endpoint.value)
            && StartTunnel(e.profiles[0].id, n.endpoint.value) in said)
  }

  /** What a connect leaves as the new attempt found it. */
  predicate Begun(f: Engine, n: Engine) {
    && n == f.(phase := n.phase, raced := n.raced, watch := n.watch, endpoint := n.endpoint, replacing := None)
    && (n.watch == f.watch || n.watch == FRESH_WATCH)
  }

  lemma FreshAfterReset(profiles: seq<Profile>)
    ensures Fresh(profiles, Map(profiles, ResetOne()))
  {
  }

  lemma MapHead<T, U>(s: seq<T>, f: T -> U)
    requires s != []
    ensures Map(s, f) == [f(s[0])] + Map(s[1..], f)
  {
  }

  lemma ProbeableIdsStep(profiles: seq<Profile>)
    requires profiles != []
    ensures ProbeableIds(profiles)
            == (if profiles[0].kind != AmneziaWg then [profiles[0].id] else []) + ProbeableIds(profiles[1..])
  {
    FilterHead(profiles, ProbeableTest());
    var kept := Filter(profiles, ProbeableTest());
    if profiles[0].kind.Probeable() {
      MapHead(kept, Reprobing.IdOf());
      assert kept[1..] == Filter(profiles[1..], ProbeableTest());
    }
  }

  lemma {:induction false} FreshFilter(before: seq<Profile>, after: seq<Profile>)
    requires Fresh(before, after)
    ensures ProbeableIds(after) == ProbeableIds(before)
    ensures ProbeableIds(after) == [] <==> NoneCanBeRaced(before)
  {
    if before != [] {
      FreshFilter(before[1..], after[1..]);
      ProbeableIdsStep(before);
      ProbeableIdsStep(after);
      assert forall i :: 1 <= i < |before| ==> before[i] == before[1..][i - 1];
    }
  }

  lemma FreshPlaces(before: seq<Profile>, after: seq<Profile>, id: ProfileId)
    requires Fresh(before, after)
    ensures PlaceOf(after, id).Some? <==> Configured(before, id)
    ensures IsProbeable(after, id) <==> CanBeRaced(before, id)
  {
    ConfiguredMeans(before, after, id);
    if i :| 0 <= i < |before| && before[i].id == id && before[i].kind != AmneziaWg {
      assert after[i] in after && after[i].id == id && after[i].kind.Probeable();
    }
    if p :| p in after && p.id == id && p.kind.Probeable() {
      var i :| 0 <= i < |after| && after[i] == p;
      assert before[i].id == id && before[i].kind.Probeable();
    }
  }

  lemma ConnectThroughIs(before: seq<Profile>, f: Engine, requested: Option<ProfileId>, x: EndpointId)
    requires Fresh(before, f.profiles) && before != [] && f.raced == []
    ensures var (n, said) := ConnectThrough(f, requested, x);
            && n == f.(phase := n.phase, raced := n.raced, watch := n.watch)
            && (n.watch == f.watch || n.watch == FRESH_WATCH)
            && (if requested.Some? && CanBeRaced(before, requested.value) then
                  n.phase == Probing && n.raced == [requested.value] && StartRace(n.raced, x) in said
                  && Emit(ProbeStarted) in said
                else if requested.Some? then
                  n.phase == Starting(requested.value, x) && StartTunnel(requested.value, x) in said
                else if !NoneCanBeRaced(before) then
                  && n.phase == Probing && n.raced == ProbeableIds(before)
                  && StartRace(n.raced, x) in said && Emit(ProbeStarted) in said
                else n.phase == Starting(before[0].id, x) && StartTunnel(before[0].id, x) in said)
  {
    FreshFilter(before, f.profiles);
    if requested.Some? {
      FreshPlaces(before, f.profiles, requested.value);
      BringUpSays(f, requested.value, x, []);
    } else if NoneCanBeRaced(before) {
      assert FirstDirect(f.profiles, 0);
      FallbackExactly(f.profiles, before[0].id);
      BringUpSays(f, before[0].id, x, []);
    }
    assert [] + BringUp(f, before[0].id, x).1 == BringUp(f, before[0].id, x).1;
  }

  lemma ConnectAnywhereIs(e: Engine, f: Engine, requested: Option<ProfileId>)
    requires Fresh(e.profiles, f.profiles) && e.profiles != [] && f.endpoints == e.endpoints
            && UniqueEndpoints(e.endpoints)
    requires Sound(e, f.profiles, false) && f.raced == [] && f.replacing == None
            && (requested.Some? ==> Configured(e.profiles, requested.value))
    ensures var (n, said) := ConnectAnywhere(f, requested);
            Begun(f, n) && AfterConnect(e, requested, n, said)
  {
    var ranked := Rank(f.endpoints);
    RankHeadIsBest(f.endpoints);
    if ranked != [] {
      var i :| 0 <= i < |f.endpoints| && f.endpoints[i].id == ranked[0] && IsCandidate(f.endpoints[i]);
      ConnectThroughIs(e.profiles, f.(endpoint := Some(ranked[0])), requested, ranked[0]);
    }
  }

  lemma ConnectUnlessIs(e: Engine, f: Engine, requested: Option<ProfileId>)
    requires Fresh(e.profiles, f.profiles) && f.endpoints == e.endpoints && UniqueEndpoints(e.endpoints)
    requires f.environment == e.environment && f.raced == [] && f.replacing == None
    ensures var (n, said) := ConnectUnless(f, Diagnose(f, false), requested);
            Begun(f, n) && AfterConnect(e, requested, n, said)
  {
    DiagnoseExactly(f, false);
    SameTroubles(e, f, f.profiles, false);
    var cause := Diagnose(f, false);
    if cause.Some? {
      assert Blamed(f, f.profiles, false, cause.value);
      assert Blamed(e, f.profiles, false, cause.value);
    } else {
      assert !Troubled(e, f.profiles, false, ConfigurationInvalid(NoProfileDefined));
      if requested.Some? { FreshPlaces(e.profiles, f.profiles, requested.value); }
      if requested.None? || Configured(e.profiles, requested.value) {
        ConnectAnywhereIs(e, f, requested);
      }
    }
  }

  /** A connect is accepted when nothing is going on, and forgets what earlier attempts found. The most fundamental
      trouble is named; else a named profile that is not configured, else that no endpoint may be used. Otherwise
      it goes to a best endpoint: with the named profile, or with every profile that can be raced, in order, or if
      there is none with the first. */
  lemma ConnectExactly(r: Run, k: nat)
    requires r.Valid() && k < |r.inputs| && r.inputs[k].input.Connect?
    ensures var (e, n, requested) := (r.engines[k], r.engines[k + 1], r.inputs[k].input.profile);
            if e.phase.Idle? || e.phase.Broken? then
              && n.requested == requested && Fresh(e.profiles, n.profiles) && n.reach == [] && n.replacing == None
              && n.watch == FRESH_WATCH && n.environment == e.environment && n.endpoints == e.endpoints
              && AfterConnect(e, requested, n, r.actions[k])
            else n == e && r.actions[k] == []
  {
    var e, requested := r.engines[k], r.inputs[k].input.profile;
    InvAlways(r, k);
    assert r.Follows(k);
    if AcceptsConnect(e) {
      FreshAfterReset(e.profiles);
      ConnectUnlessIs(e, Forgotten(e, requested), requested);
    }
  }

  // ------------------------------------------------------------------ a blocked profile

  /** What is tried after the profile `p` was found blocked: a race of the others that can be raced and are not
      blocked, best tier first; else the first of the others; else nothing. */
  ghost predicate AfterBlock(p: ProfileId, x: EndpointId, n: Engine, said: seq<Action>) {
    var plan := PlanReprobe(n.profiles, p);
    var raced := Filter(plan, ProbeableIdTest(n.profiles));
    if raced != [] then
      && n.phase == Recovering && n.raced == raced && StartRace(raced, x) in said && Emit(ProbeStarted) !in said
      && n.replacing == Some(p)
    else if plan != [] then
      n.phase == Starting(plan[0], x) && StartTunnel(plan[0], x) in said && n.replacing == Some(p)
    else n.phase == Broken(AllProfilesBlocked)
  }

  lemma RetryIs(e: Engine, p: ProfileId, x: EndpointId, talk: seq<Action>)
    requires e.replacing == Some(p) && Emit(ProbeStarted) !in talk && StopTunnel in talk
    ensures var (n, said) := After(talk, Retry(e, PlanReprobe(e.profiles, p), x));
            && n == e.(phase := n.phase, raced := n.raced, watch := n.watch, replacing := n.replacing)
            && StopTunnel in said && AfterBlock(p, x, n, said)
  {
    var plan := PlanReprobe(e.profiles, p);
    var raced := Filter(plan, ProbeableIdTest(e.profiles));
    if raced != [] {
      var said := talk + BeginRace(e, raced, x, Recovering).1;
      assert said[|said| - 1] == StartRace(raced, x);
    } else if plan != [] {
      BringUpSays(e, plan[0], x, talk);
    }
  }

  lemma BlameIs(e: Engine, p: ProfileId, x: EndpointId, failures: nat, now: Time)
    ensures var (n, said) := Blame(e, p, x, failures, now);
            && n.profiles == Marked(e.profiles, p, Blocked(now, LiveChecksFailed(failures)))
            && n == e.(phase := n.phase, raced := n.raced, watch := n.watch, replacing := n.replacing,
                       profiles := n.profiles)
            && StopTunnel in said && AfterBlock(p, x, n, said)
  {
    var reason := LiveChecksFailed(failures);
    var talk := BlockedEvent(e.profiles, p, reason) + [StopTunnel];
    var f := e.(profiles := Marked(e.profiles, p, Blocked(now, reason)), replacing := Some(p));
    assert talk[|talk| - 1] == StopTunnel;
    RetryIs(f, p, x, talk);
  }

  /** What a live check comes to at the third failure in a row: the most fundamental trouble is named, if there is
      any; else the profile, and no other, is marked blocked, and what is left is tried at the same endpoint. */
  ghost predicate AfterThird(e: Engine, n: Engine, said: seq<Action>, now: Time)
    requires e.phase.Connected?
  {
    && StopTunnel in said
    && if exists c :: Blamed(e, e.profiles, false, c) then
         && n == e.(phase := n.phase, raced := [], watch := n.watch, replacing := None)
         && exists c :: Blamed(e, e.profiles, false, c) && n.phase == Broken(c)
       else
         && n == e.(phase := n.phase, raced := n.raced, watch := n.watch, replacing := n.replacing,
                    profiles := n.profiles)
         && BlockedAlone(e.profiles, n.profiles, e.phase.profile, now)
         && AfterBlock(e.phase.profile, e.phase.endpoint, n, said)
  }

  /** The profile is marked blocked, after three failures, and every other is as it was. */
  predicate BlockedAlone(before: seq<Profile>, after: seq<Profile>, p: ProfileId, now: Time) {
    && |after| == |before|
    && forall i :: 0 <= i < |before| ==>
         after[i] == if before[i].id == p then before[i].(viability := Blocked(now, LiveChecksFailed(3))) else before[i]
  }

  lemma MarkedAlone(profiles: seq<Profile>, p: ProfileId, now: Time)
    requires UniqueProfiles(profiles)
    ensures BlockedAlone(profiles, Marked(profiles, p, Blocked(now, LiveChecksFailed(3))), p, now)
  {
    MarkedSame(profiles, p, Blocked(now, LiveChecksFailed(3)));
    forall i | 0 <= i < |profiles|
      ensures Marked(profiles, p, Blocked(now, LiveChecksFailed(3)))[i]
              == if profiles[i].id == p then profiles[i].(viability := Blocked(now, LiveChecksFailed(3)))
                 else profiles[i]
    {
      MarkedInPlace(profiles, profiles, p, Blocked(now, LiveChecksFailed(3)), i);
    }
  }

  lemma ThirdIs(e: Engine, now: Time)
    requires Inv(e) && e.phase.Connected? && e.watch.failures == 2
    ensures AfterThird(e, OnCheck(e, Failed, now).0, OnCheck(e, Failed, now).1, now)
  {
    var f := e.(watch := Checked(e.watch, Failed).0);
    DiagnoseExactly(f, false);
    SameTroubles(e, f, e.profiles, false);
    if Diagnose(f, false).Some? {
      assert Blamed(e, e.profiles, false, Diagnose(f, false).value);
      assert Fail(f, Diagnose(f, false).value, true).1[0] == StopTunnel;
    } else {
      BlameIs(f, e.phase.profile, e.phase.endpoint, 3, now);
      MarkedAlone(e.profiles, e.phase.profile, now);
    }
  }

  lemma NotThirdIs(e: Engine, check: LiveCheck, now: Time)
    requires Inv(e) && (!e.phase.Connected? || check.Passed? || e.watch.failures < 2)
    ensures OnCheck(e, check, now) == (e.(watch := OnCheck(e, check, now).0.watch), [])
  {
  }

  /** A live check, over every run: nothing happens but at the third failure in a row while connected. */
  lemma CheckExactly(r: Run, k: nat)
    requires r.Valid() && k < |r.inputs| && r.inputs[k].input.Check?
    ensures var (e, n, said) := (r.engines[k], r.engines[k + 1], r.actions[k]);
            if e.phase.Connected? && r.inputs[k].input.check.Failed? && ChecksFailed(r, k) == 2 then
              AfterThird(e, n, said, r.inputs[k].now)
            else n == e.(watch := n.watch) && said == []
  {
    var e, check, now := r.engines[k], r.inputs[k].input.check, r.inputs[k].now;
    InvAlways(r, k);
    assert r.Follows(k);
    if e.phase.Connected? {
      WatchIsExact(r, k);
    }
    if e.phase.Connected? && check.Failed? && ChecksFailed(r, k) == 2 {
      ThirdIs(e, now);
    } else {
      NotThirdIs(e, check, now);
    }
  }
}
