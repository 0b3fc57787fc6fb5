/** What a finished race teaches the engine, profile by profile, and what it says about it. */
module EngineLearning {
  import opened Common
  import opened ProbeRacing
  import opened Reprobing
  import opened FailureCauses
  import opened Endpoints
  import opened EngineSpec
  import opened EngineInvariant
  import opened EngineRuns

  type Results = seq<(ProfileId, ProfileProbe)>

  /** The report at place `j` is the last of this profile. */
  ghost predicate LastReport(results: Results, id: ProfileId, j: nat) {
    j < |results| && results[j].0 == id && forall i :: j < i < |results| ==> results[i].0 != id
  }

  /** What one report makes of a profile. */
  function Seen(probe: ProfileProbe, now: Time): Viability {
    var v := Judge(probe);
    if v.Usable? then Working(now) else Blocked(now, ProbeFailed(v.why))
  }

  lemma LastReportStep(results: Results, id: ProfileId, j: nat)
    requires results != []
    ensures var n := |results| - 1;
            LastReport(results, id, j) <==>
              (j == n && results[n].0 == id) || (results[n].0 != id && LastReport(results[..n], id, j))
  {
  }

  lemma {:induction false} LastOf(results: Results, id: ProfileId) returns (j: nat)
    requires Reports(results, id)
    ensures LastReport(results, id, j)
  {
    var n := |results| - 1;
    if results[n].0 == id {
      j := n;
    } else {
      var i :| 0 <= i < |results| && results[i].0 == id;
      assert results[..n][i].0 == id;
      j := LastOf(results[..n], id);
    }
  }

  /** The reports leave a profile as its last one is judged, and a profile they do not name as it was. */
  lemma {:induction false} NotedExactly(profiles: seq<Profile>, results: Results, now: Time, i: nat)
    requires UniqueProfiles(profiles) && i < |profiles|
    ensures |Noted(profiles, results, now).0| == |profiles|
    ensures var (p, after) := (profiles[i], Noted(profiles, results, now).0[i]);
            && after == p.(viability := after.viability)
            && (forall j: nat :: LastReport(results, p.id, j) ==> after.viability == Seen(results[j].1, now))
            && (!Reports(results, p.id) ==> after == p)
  {
    NotedSame(profiles, results, now);
    if results != [] {
      var n := |results| - 1;
      var before, id := Noted(profiles, results[..n], now).0, results[n].0;
      NotedExactly(profiles, results[..n], now, i);
      NotedSame(profiles, results[..n], now);
      MarkedInPlace(before, profiles, id, ViabilityFrom(results[n].1, now), i);
      forall j: nat | LastReport(results, profiles[i].id, j)
        ensures Noted(profiles, results, now).0[i].viability == Seen(results[j].1, now)
      {
        LastReportStep(results, profiles[i].id, j);
      }
      if !Reports(results, profiles[i].id) {
        assert results[n].0 != profiles[i].id;
        assert forall x :: 0 <= x < n ==> results[..n][x] == results[x];
      }
    }
  }

  /** Marking changes the one profile it names. */
  lemma MarkedInPlace(before: seq<Profile>, profiles: seq<Profile>, id: ProfileId, viability: Viability, i: nat)
    requires UniqueProfiles(profiles) && SameProfiles(before, profiles) && i < |profiles|
    ensures |Marked(before, id, viability)| == |profiles|
    ensures Marked(before, id, viability)[i]
            == if profiles[i].id == id then before[i].(viability := viability) else before[i]
  {
    SamePlaces(before, profiles, id);
    PlaceUnique(profiles, i);
    MarkedSame(before, id, viability);
  }

  lemma {:induction false} SilencedExactly(profiles: seq<Profile>, ids: seq<ProfileId>, now: Time, i: nat)
    requires UniqueProfiles(profiles) && i < |profiles|
    ensures |Silenced(profiles, ids, now).0| == |profiles|
    ensures Silenced(profiles, ids, now).0[i]
            == if profiles[i].id in ids then profiles[i].(viability := Blocked(now, NoResponse)) else profiles[i]
  {
    SilencedSame(profiles, ids, now);
    if ids != [] {
      var n := |ids| - 1;
      SilencedExactly(profiles, ids[..n], now, i);
      SilencedSame(profiles, ids[..n], now);
      MarkedInPlace(Silenced(profiles, ids[..n], now).0, profiles, ids[n], Blocked(now, NoResponse), i);
      assert ids == ids[..n] + [ids[n]];
    }
  }

  /** What a profile is known to be after a race that was accepted. */
  ghost predicate Taught(e: Engine, decision: RaceDecision, results: Results, now: Time, i: nat, after: Viability)
    requires i < |e.profiles|
  {
    var p := e.profiles[i];
    if decision.Selected? && p.id == decision.profile then after == Working(now)
    else if Reports(results, p.id) then
      exists j: nat :: LastReport(results, p.id, j) && after == Seen(results[j].1, now)
    else if decision == NoneUsable && p.id in e.raced then after == Blocked(now, NoResponse)
    else after == p.viability
  }

  lemma SilencedLearns(e: Engine, decision: RaceDecision, results: Results, now: Time, i: nat)
    requires UniqueProfiles(e.profiles) && i < |e.profiles|
    ensures var noted := Noted(e.profiles, results, now).0;
            var silent := Filter(e.raced, SilentTest(results));
            var known := if decision == NoneUsable then Silenced(noted, silent, now).0 else noted;
            && SameProfiles(known, e.profiles)
            && (!(decision.Selected? && e.profiles[i].id == decision.profile) ==>
                  Taught(e, decision, results, now, i, known[i].viability))
  {
    var noted, silent := Noted(e.profiles, results, now).0, Filter(e.raced, SilentTest(results));
    NotedSame(e.profiles, results, now);
    NotedExactly(e.profiles, results, now, i);
    if Reports(results, e.profiles[i].id) {
      var j := LastOf(results, e.profiles[i].id);
    }
    assert UniqueProfiles(noted);
    if decision == NoneUsable {
      SilencedExactly(noted, silent, now, i);
      SilencedSame(noted, silent, now);
      assert e.profiles[i].id in silent <==> e.profiles[i].id in e.raced && !Reports(results, e.profiles[i].id);
    }
  }

  /** The winner works; a reported profile is as its last report is judged; a silent one is blocked exactly when
      nobody won; every other stays as it was. */
  lemma LearnedExactly(e: Engine, decision: RaceDecision, results: Results, now: Time, i: nat)
    requires UniqueProfiles(e.profiles) && i < |e.profiles|
    ensures var after := Learned(e, decision, results, now).0.profiles;
            && |after| == |e.profiles| && after[i] == e.profiles[i].(viability := after[i].viability)
            && Taught(e, decision, results, now, i, after[i].viability)
  {
    var noted, silent := Noted(e.profiles, results, now).0, Filter(e.raced, SilentTest(results));
    var known := if decision == NoneUsable then Silenced(noted, silent, now).0 else noted;
    SilencedLearns(e, decision, results, now, i);
    if decision.Selected? {
      MarkedInPlace(known, e.profiles, decision.profile, Working(now), i);
    }
  }

  // ------------------------------------------------------------------ what is said

  predicate Configured(profiles: seq<Profile>, id: ProfileId) {
    exists i :: 0 <= i < |profiles| && profiles[i].id == id
  }

  lemma ConfiguredMeans(profiles: seq<Profile>, before: seq<Profile>, id: ProfileId)
    requires SameProfiles(before, profiles)
    ensures PlaceOf(before, id).Some? <==> Configured(profiles, id)
  {
    SamePlaces(before, profiles, id);
  }

  /** Some report of the profile is judged so. */
  predicate ReportedAs(results: Results, now: Time, id: ProfileId, reason: BlockReason) {
    exists j :: 0 <= j < |results| && results[j].0 == id && Seen(results[j].1, now) == Blocked(now, reason)
  }

  lemma ReportedAsStep(results: Results, now: Time, id: ProfileId, reason: BlockReason)
    requires results != []
    ensures var n := |results| - 1;
            ReportedAs(results, now, id, reason) <==>
              || ReportedAs(results[..n], now, id, reason)
              || (results[n].0 == id && Seen(results[n].1, now) == Blocked(now, reason))
  {
    assert forall x :: 0 <= x < |results| - 1 ==> results[..|results| - 1][x] == results[x];
  }

  lemma {:induction false} NotedSaysExactly(profiles: seq<Profile>, results: Results, now: Time, id: ProfileId,
                                            reason: BlockReason)
    ensures Emit(ProfileBlocked(id, reason)) in Noted(profiles, results, now).1 <==>
              Configured(profiles, id) && ReportedAs(results, now, id, reason)
  {
    if results != [] {
      var n := |results| - 1;
      NotedSaysExactly(profiles, results[..n], now, id, reason);
      NotedSame(profiles, results[..n], now);
      ConfiguredMeans(profiles, Noted(profiles, results[..n], now).0, results[n].0);
      ReportedAsStep(results, now, id, reason);
    }
  }

  lemma {:induction false} SilencedSaysExactly(profiles: seq<Profile>, ids: seq<ProfileId>, now: Time, id: ProfileId,
                                               reason: BlockReason)
    ensures Emit(ProfileBlocked(id, reason)) in Silenced(profiles, ids, now).1 <==>
              Configured(profiles, id) && id in ids && reason == NoResponse
  {
    if ids != [] {
      var n := |ids| - 1;
      SilencedSaysExactly(profiles, ids[..n], now, id, reason);
      SilencedSame(profiles, ids[..n], now);
      ConfiguredMeans(profiles, Silenced(profiles, ids[..n], now).0, ids[n]);
      assert ids == ids[..n] + [ids[n]];
    }
  }

  /** A profile is said to be blocked exactly if it is configured and some report of it is judged so, or nobody
      won and it was raced and silent. */
  lemma SaidExactly(e: Engine, decision: RaceDecision, results: Results, now: Time, id: ProfileId, reason: BlockReason)
    ensures Emit(ProfileBlocked(id, reason)) in Learned(e, decision, results, now).1 <==>
              && Configured(e.profiles, id)
              && (|| ReportedAs(results, now, id, reason)
                  || (decision == NoneUsable && id in e.raced && !Reports(results, id) && reason == NoResponse))
  {
    var noted, silent := Noted(e.profiles, results, now).0, Filter(e.raced, SilentTest(results));
    NotedSame(e.profiles, results, now);
    NotedSaysExactly(e.profiles, results, now, id, reason);
    if decision == NoneUsable {
      SilencedSaysExactly(noted, silent, now, id, reason);
      ConfiguredMeans(e.profiles, noted, id);
      ConfiguredMeans(noted, noted, id);
    }
  }

  // ------------------------------------------------------------------ over runs

  lemma RaceKeepsLearned(e: Engine, decision: RaceDecision, results: Results, now: Time)
    requires AcceptsRace(e, decision) && e.endpoint.Some?
    ensures OnRaceFinished(e, decision, results, now).0.profiles == Learned(e, decision, results, now).0.profiles
    ensures forall id, reason :: Emit(ProfileBlocked(id, reason)) in OnRaceFinished(e, decision, results, now).1
              <==> Emit(ProfileBlocked(id, reason)) in Learned(e, decision, results, now).1
  {
    var (learned, said) := Learned(e, decision, results, now);
    if decision.Selected? {
      assert forall a :: a in BringUp(learned, decision.profile, e.endpoint.value).1 ==>
              !(a.Emit? && a.event.ProfileBlocked?);
    } else {
      NobodyWonSaysNothingBlocked(learned, e.phase == Recovering, e.endpoint.value);
    }
  }

  lemma NobodyWonSaysNothingBlocked(e: Engine, recovering: bool, against: EndpointId)
    ensures NobodyWon(e, recovering, against).0.profiles == e.profiles
    ensures forall a :: a in NobodyWon(e, recovering, against).1 ==> !(a.Emit? && a.event.ProfileBlocked?)
  {
  }

  /** Over every run: a race that is accepted teaches exactly this of every profile. */
  lemma RaceTeachesExactly(r: Run, k: nat, i: nat)
    requires r.Valid() && k < |r.inputs| && r.inputs[k].input.RaceFinished? && i < |r.engines[k].profiles|
    requires AcceptsRace(r.engines[k], r.inputs[k].input.decision)
    ensures var (e, after, input) := (r.engines[k], r.engines[k + 1].profiles, r.inputs[k].input);
            && |after| == |e.profiles| && after[i] == e.profiles[i].(viability := after[i].viability)
            && Taught(e, input.decision, input.results, r.inputs[k].now, i, after[i].viability)
  {
    InvAlways(r, k);
    assert r.Follows(k);
    RaceKeepsLearned(r.engines[k], r.inputs[k].input.decision, r.inputs[k].input.results, r.inputs[k].now);
    LearnedExactly(r.engines[k], r.inputs[k].input.decision, r.inputs[k].input.results, r.inputs[k].now, i);
  }

  /** And says exactly this of them. */
  lemma RaceSaysExactly(r: Run, k: nat, id: ProfileId, reason: BlockReason)
    requires r.Valid() && k < |r.inputs| && r.inputs[k].input.RaceFinished?
    requires AcceptsRace(r.engines[k], r.inputs[k].input.decision)
    ensures var (e, decision, results) := (r.engines[k], r.inputs[k].input.decision, r.inputs[k].input.results);
            Emit(ProfileBlocked(id, reason)) in r.actions[k] <==>
              && Configured(e.profiles, id)
              && (|| ReportedAs(results, r.inputs[k].now, id, reason)
                  || (decision == NoneUsable && id in e.raced && !Reports(results, id) && reason == NoResponse))
  {
    InvAlways(r, k);
    assert r.Follows(k);
    RaceKeepsLearned(r.engines[k], r.inputs[k].input.decision, r.inputs[k].input.results, r.inputs[k].now);
    SaidExactly(r.engines[k], r.inputs[k].input.decision, r.inputs[k].input.results, r.inputs[k].now, id, reason);
  }
}
