/** What every voluntary move rests on, read off the history of the run alone. */
module FailoverEvidence {
  import opened Common
  import opened Quality
  import opened Failover
  import opened FailoverRuns

  // ------------------------------------------------------------------ the stability clocks

  lemma {:induction false} TickOnPath(clocks: map<InterfaceId, Time>, paths: seq<NetworkPath>, now: Time, cfg: Config,
                                      i: nat)
    requires UniqueIds(paths) && i < |paths|
    ensures var (p, ticked) := (paths[i], Tick(clocks, paths, now, cfg));
            && (p.id in ticked <==> ProvingGood(p, cfg))
            && (p.id in ticked ==> ticked[p.id] == if p.id in clocks then clocks[p.id] else now)
  {
    var n := |paths| - 1;
    if i < n {
      TickOnPath(clocks, paths[..n], now, cfg, i);
    } else {
      TickElsewhere(clocks, paths[..n], now, cfg, paths[n].id);
    }
  }

  lemma {:induction false} TickElsewhere(clocks: map<InterfaceId, Time>, paths: seq<NetworkPath>, now: Time,
                                         cfg: Config, id: InterfaceId)
    requires forall i :: 0 <= i < |paths| ==> paths[i].id != id
    ensures var ticked := Tick(clocks, paths, now, cfg);
            (id in ticked <==> id in clocks) && (id in ticked ==> ticked[id] == clocks[id])
  {
    if paths != [] {
      TickElsewhere(clocks, paths[..|paths| - 1], now, cfg, id);
    }
  }

  lemma ClocksAfterLook(s: State, paths: seq<NetworkPath>, now: Time, cfg: Config, id: InterfaceId)
    requires UniqueIds(paths)
    ensures var after := Forgotten(s, paths, now, cfg).goodSince;
            && (id in after <==> exists p :: p in paths && p.id == id && ProvingGood(p, cfg))
            && (id in after ==> after[id] == if id in s.goodSince then s.goodSince[id] else now)
  {
    var kept := KeepUsable(s.goodSince, paths);
    if i: nat :| i < |paths| && paths[i].id == id {
      TickOnPath(kept, paths, now, cfg, i);
    } else {
      TickElsewhere(kept, paths, now, cfg, id);
    }
  }

  lemma GoodClockStep(r: Run, k: nat, id: InterfaceId)
    requires r.Valid() && r.Unique() && k < |r.looks|
    ensures id in r.states[k + 1].goodSince <==> r.GoodAt(k, id)
    ensures r.GoodAt(k, id) ==>
              r.states[k + 1].goodSince[id]
              == if id in r.states[k].goodSince then r.states[k].goodSince[id] else r.looks[k].now
    ensures r.states[k + 1].goodSince == Deciding(r, k).goodSince
  {
    assert r.Follows(k);
    ClocksAfterLook(r.states[k], r.looks[k].paths, r.looks[k].now, r.cfg, id);
  }

  /** A stability clock shows exactly when the path's unbroken good stretch began. */
  lemma {:induction false} GoodClockIsExact(r: Run, k: nat, id: InterfaceId) returns (i: nat)
    requires r.Valid() && r.Unique() && k < |r.looks| && r.GoodAt(k, id)
    ensures i <= k && r.GoodThrough(i, k, id) && (i == 0 || !r.GoodAt(i - 1, id))
    ensures id in r.states[k + 1].goodSince && r.states[k + 1].goodSince[id] == r.looks[i].now
  {
    GoodClockStep(r, k, id);
    if k > 0 {
      GoodClockStep(r, k - 1, id);
    }
    if id in r.states[k].goodSince {
      i := GoodClockIsExact(r, k - 1, id);
    } else {
      i := k;
    }
  }

  lemma StableMeansGoodFor(r: Run, k: nat, id: InterfaceId, long: Time)
    requires r.Valid() && r.Unique() && k < |r.looks|
    ensures id in r.states[k + 1].goodSince && Elapsed(r.looks[k].now, r.states[k + 1].goodSince[id]) >= long
            <==> r.GoodFor(k, id, long)
  {
    GoodClockStep(r, k, id);
    if r.GoodAt(k, id) {
      var i := GoodClockIsExact(r, k, id);
      if j: nat :| j <= k && r.GoodThrough(j, k, id) && r.looks[k].now - r.looks[j].now >= long {
        assert i <= j;
      }
    }
  }

  // ------------------------------------------------------------------ the clocks on the carrying path

  /** The state with this look's clocks and budget, on which the decision is made. */
  function Deciding(r: Run, k: nat): State
    requires r.Shaped() && k < |r.looks|
  {
    var seen := Forgotten(r.states[k], r.looks[k].paths, r.looks[k].now, r.cfg);
    if r.Current(k).None? then seen else WithCarryingClocks(seen, r.Current(k).value, r.looks[k].now, r.cfg)
  }

  /** The two clocks: below `Good` is "no better than poor". */
  function BadSince(s: State, band: Band): Option<Time> {
    if band == Unusable then s.unusableSince else s.belowGoodSince
  }

  lemma BadClockStep(r: Run, k: nat, band: Band)
    requires r.Valid() && k < |r.looks| && band != Good
    ensures BadSince(r.states[k + 1], band)
            == if r.decisions[k] == Stay && r.BadAt(k, band)
               then Since(BadSince(r.states[k], band), r.looks[k].now) else None
    ensures r.Current(k).Some? ==>
              BadSince(Deciding(r, k), band)
              == if r.BadAt(k, band) then Since(BadSince(r.states[k], band), r.looks[k].now) else None
  {
    assert r.Follows(k);
  }

  /** A clock on the carrying path shows exactly when its unbroken bad stretch began. */
  lemma {:induction false} BadClockIsExact(r: Run, k: nat, band: Band) returns (i: nat)
    requires r.Valid() && k < |r.looks| && band != Good && r.BadAt(k, band)
    ensures i <= k && r.BadThrough(i, k, band)
    ensures i == 0 || r.decisions[i - 1] != Stay || !r.BadAt(i - 1, band)
    ensures Since(BadSince(r.states[k], band), r.looks[k].now) == Some(r.looks[i].now)
  {
    if k > 0 {
      BadClockStep(r, k - 1, band);
    }
    if BadSince(r.states[k], band).Some? {
      i := BadClockIsExact(r, k - 1, band);
    } else {
      i := k;
    }
  }

  lemma HeldMeansBadFor(r: Run, k: nat, band: Band, long: Time)
    requires r.Valid() && k < |r.looks| && band != Good && r.Current(k).Some?
    ensures Held(r.looks[k].now, BadSince(Deciding(r, k), band), long) <==> r.BadFor(k, band, long)
  {
    BadClockStep(r, k, band);
    if r.BadAt(k, band) {
      var i := BadClockIsExact(r, k, band);
      if j: nat :| j <= k && r.BadThrough(j, k, band) && r.looks[k].now - r.looks[j].now >= long {
        assert i <= j;
      }
    }
  }

  // ------------------------------------------------------------------ the decision, from the history

  ghost predicate DwellOver(r: Run, k: nat)
    requires r.Shaped() && k < |r.looks|
  {
    r.LastMove(k).None? || Elapsed(r.looks[k].now, r.LastMove(k).value) >= r.cfg.minDwell
  }

  ghost predicate BudgetLeft(r: Run, k: nat)
    requires r.Shaped() && k < |r.looks|
  {
    |r.RecentMoves(k, r.looks[k].now)| < r.cfg.maxMoves
  }

  /** The carrying path has been `Unusable` for long enough to leave it on trust. */
  ghost predicate UrgentAt(r: Run, k: nat)
    requires r.Shaped() && k < |r.looks|
  {
    r.BadFor(k, Unusable, r.cfg.unusableFor)
  }

  ghost predicate BadLongEnough(r: Run, k: nat)
    requires r.Shaped() && k < |r.looks|
  {
    UrgentAt(r, k) || r.BadFor(k, Poor, r.cfg.degradeFor)
  }

  /** In a higher band than `c`; or both are poor, and it is measured and shows at least 15% less loss. */
  predicate ClearlyBetter(p: NetworkPath, c: NetworkPath, cfg: Config) {
    || BandIn(p, cfg).Rank() > BandIn(c, cfg).Rank()
    || (BandIn(p, cfg) == Poor == BandIn(c, cfg) && p.quality.IsMeasured() && c.quality.loss - p.quality.loss >= 0.15)
  }

  /** A path worth leaving the carrying path for: up, clearly better and, unless leaving is urgent,
      either `Good` at every look for `stable_for` or poor and measured. */
  ghost predicate Alternative(r: Run, k: nat, p: NetworkPath)
    requires r.Shaped() && k < |r.looks| && r.Current(k).Some?
  {
    && p in r.looks[k].paths && Usable(p) && p.id != r.Current(k).value.id
    && ClearlyBetter(p, r.Current(k).value, r.cfg)
    && (|| UrgentAt(r, k)
        || (if BandIn(p, r.cfg) == Good then r.GoodFor(k, p.id, r.cfg.stableFor) else p.quality.IsMeasured()))
  }

  /** A path the user likes better than the carrying one, `Good` at every look for `stable_for`. */
  ghost predicate Favourite(r: Run, k: nat, p: NetworkPath)
    requires r.Shaped() && k < |r.looks| && r.Current(k).Some?
  {
    && p in r.looks[k].paths && Usable(p) && p.id != r.Current(k).value.id
    && p.preference > r.Current(k).value.preference
    && BandIn(p, r.cfg) == Good && r.GoodFor(k, p.id, r.cfg.stableFor)
  }

  lemma LimitsFromHistory(r: Run, k: nat)
    requires r.Valid() && k < |r.looks|
    ensures Dwelled(Deciding(r, k), r.looks[k].now, r.cfg) <==> DwellOver(r, k)
    ensures |Deciding(r, k).moves| < r.cfg.maxMoves <==> BudgetLeft(r, k)
  {
    DwellIsExact(r, k);
    BudgetIsExact(r, k, r.looks[k].now);
    RecentMovesAreCounted(r, k, r.looks[k].now);
  }

  lemma UrgencyFromHistory(r: Run, k: nat)
    requires r.Valid() && k < |r.looks| && r.Current(k).Some?
    ensures Urgent(Deciding(r, k), r.Current(k).value, r.looks[k].now, r.cfg) <==> UrgentAt(r, k)
    ensures Sustained(Deciding(r, k), r.Current(k).value, r.looks[k].now, r.cfg) <==> BadLongEnough(r, k)
  {
    HeldMeansBadFor(r, k, Unusable, r.cfg.unusableFor);
    HeldMeansBadFor(r, k, Poor, r.cfg.degradeFor);
    BadClockStep(r, k, Unusable);
  }

  lemma AlternativesFromHistory(r: Run, k: nat, p: NetworkPath)
    requires r.Valid() && r.Unique() && k < |r.looks| && r.Current(k).Some? && p in r.looks[k].paths
    ensures ReadyTest(Deciding(r, k), r.Current(k).value, r.looks[k].now, r.cfg)(p) <==> Alternative(r, k, p)
    ensures PreferredTest(Deciding(r, k), r.Current(k).value, r.looks[k].now, r.cfg)(p) <==> Favourite(r, k, p)
  {
    UrgencyFromHistory(r, k);
    GoodClockStep(r, k, p.id);
    StableMeansGoodFor(r, k, p.id, r.cfg.stableFor);
  }

  lemma TargetStep(r: Run, k: nat)
    requires r.Valid() && k < |r.looks| && r.Current(k).Some?
    ensures var target := Target(Deciding(r, k), r.looks[k].paths, r.Current(k).value, r.looks[k].now, r.cfg);
            r.decisions[k] == if target.None? then Stay
                              else Move(Some(r.Current(k).value.id), target.value.0, target.value.1)
  {
    assert r.Follows(k);
  }

  lemma ForcedStep(r: Run, k: nat)
    requires r.Valid() && k < |r.looks| && r.Current(k).None?
    ensures r.decisions[k] != Stay && !r.Voluntary(k)
  {
    assert r.Follows(k);
  }

  /** The paths the machine would leave for, in the order listed. */
  ghost function Candidates(r: Run, k: nat): seq<NetworkPath>
    requires r.Shaped() && k < |r.looks| && r.Current(k).Some?
  {
    Filter(r.looks[k].paths, ReadyTest(Deciding(r, k), r.Current(k).value, r.looks[k].now, r.cfg))
  }

  lemma CandidatesAreAlternatives(r: Run, k: nat)
    requires r.Valid() && r.Unique() && k < |r.looks| && r.Current(k).Some?
    ensures forall p :: p in Candidates(r, k) <==> Alternative(r, k, p)
  {
    forall p ensures p in Candidates(r, k) <==> Alternative(r, k, p) {
      if p in r.looks[k].paths { AlternativesFromHistory(r, k, p); }
    }
  }

  lemma DegradedStep(r: Run, k: nat)
    requires r.Valid() && k < |r.looks| && r.Current(k).Some?
    ensures r.Moves(k, Degraded) <==>
              && r.BadAt(k, Poor) && BadLongEnough(r, k) && DwellOver(r, k) && BudgetLeft(r, k)
                   && Candidates(r, k) != []
    ensures r.Moves(k, Degraded) ==>
            Candidates(r, k) != [] && r.decisions[k].to == Best(Candidates(r, k), r.cfg).value.id
  {
    TargetStep(r, k);
    LimitsFromHistory(r, k);
    UrgencyFromHistory(r, k);
  }

  /** The decision at look `k` goes to the first choice among the paths that `eligible` picks out. */
  ghost predicate GoesToFirstChoice(r: Run, k: nat, eligible: NetworkPath -> bool)
    requires r.Shaped() && k < |r.looks|
  {
    && r.decisions[k].Move?
    && exists i: nat :: FirstChoice(r.looks[k].paths, eligible, r.cfg, i) && r.decisions[k].to == r.looks[k].paths[i].id
  }

  ghost function IsAlternative(r: Run, k: nat): NetworkPath -> bool
    requires r.Shaped() && k < |r.looks| && r.Current(k).Some?
  {
    (p: NetworkPath) => Alternative(r, k, p)
  }

  ghost function IsFavourite(r: Run, k: nat): NetworkPath -> bool
    requires r.Shaped() && k < |r.looks| && r.Current(k).Some?
  {
    (p: NetworkPath) => Favourite(r, k, p)
  }

  lemma SameFirstChoice(paths: seq<NetworkPath>, a: NetworkPath -> bool, b: NetworkPath -> bool, cfg: Config, k: nat)
    requires FirstChoice(paths, a, cfg, k) && forall p :: p in paths ==> (a(p) <==> b(p))
    ensures FirstChoice(paths, b, cfg, k)
  {
  }

  /** The machine leaves a bad path exactly when the history calls for it: the carrying path has been
      bad for long enough, the dwell is over, the budget has room, and there is an alternative. It then
      goes to the first choice among the alternatives. */
  lemma DegradedMoveExactly(r: Run, k: nat)
    requires r.Valid() && r.Unique() && k < |r.looks|
    ensures r.Moves(k, Degraded) <==>
              && r.BadAt(k, Poor) && BadLongEnough(r, k) && DwellOver(r, k) && BudgetLeft(r, k)
              && exists p :: Alternative(r, k, p)
    ensures r.Moves(k, Degraded) ==> r.Current(k).Some? && r.decisions[k].from == Some(r.Current(k).value.id)
    ensures r.Moves(k, Degraded) ==> GoesToFirstChoice(r, k, IsAlternative(r, k))
  {
    if r.Current(k).None? {
      ForcedStep(r, k);
    } else {
      DegradedStep(r, k);
      TargetStep(r, k);
      CandidatesAreAlternatives(r, k);
      var ready := Candidates(r, k);
      if ready != [] {
        assert ready[0] in ready;
      }
      if r.Moves(k, Degraded) {
        var test := ReadyTest(Deciding(r, k), r.Current(k).value, r.looks[k].now, r.cfg);
        var i := BestIsFirstChoice(r.looks[k].paths, test, r.cfg);
        forall p | p in r.looks[k].paths ensures test(p) <==> IsAlternative(r, k)(p) {
          AlternativesFromHistory(r, k, p);
        }
        SameFirstChoice(r.looks[k].paths, test, IsAlternative(r, k), r.cfg, i);
      }
    }
  }

  lemma PreferredStep(r: Run, k: nat)
    requires r.Valid() && k < |r.looks| && r.Current(k).Some?
    ensures var liked :=
            Filter(r.looks[k].paths, PreferredTest(Deciding(r, k), r.Current(k).value, r.looks[k].now, r.cfg));
            && (r.Moves(k, Preferred) <==>
                  && BandIn(r.Current(k).value, r.cfg) == Good && DwellOver(r, k) && BudgetLeft(r, k) && liked != [])
            && (r.Moves(k, Preferred) ==>
                  && liked != [] && r.decisions[k].to == Best(liked, r.cfg).value.id
                  && r.decisions[k].from == Some(r.Current(k).value.id))
  {
    TargetStep(r, k);
    LimitsFromHistory(r, k);
  }

  /** The machine goes on to a path the user prefers exactly when the history calls for it, and then to the
      first choice among those. */
  lemma PreferredMoveExactly(r: Run, k: nat)
    requires r.Valid() && r.Unique() && k < |r.looks|
    ensures r.Moves(k, Preferred) <==>
              && r.Current(k).Some? && BandIn(r.Current(k).value, r.cfg) == Good
              && DwellOver(r, k) && BudgetLeft(r, k)
              && exists p :: Favourite(r, k, p)
    ensures r.Moves(k, Preferred) ==> r.Current(k).Some? && r.decisions[k].from == Some(r.Current(k).value.id)
    ensures r.Moves(k, Preferred) ==> GoesToFirstChoice(r, k, IsFavourite(r, k))
  {
    if r.Current(k).None? {
      ForcedStep(r, k);
    } else {
      PreferredStep(r, k);
      var test := PreferredTest(Deciding(r, k), r.Current(k).value, r.looks[k].now, r.cfg);
      var liked := Filter(r.looks[k].paths, test);
      forall p | p in r.looks[k].paths ensures test(p) <==> IsFavourite(r, k)(p) {
        AlternativesFromHistory(r, k, p);
      }
      if liked != [] {
        assert liked[0] in liked;
      }
      if r.Moves(k, Preferred) {
        var i := BestIsFirstChoice(r.looks[k].paths, test, r.cfg);
        SameFirstChoice(r.looks[k].paths, test, IsFavourite(r, k), r.cfg, i);
      }
    }
  }

  /** With no carrying path that is listed and up, the machine moves if any path is up, to the first choice
      among those that are; the move is from what carried, and is a lost link exactly if something did. With
      nothing up there is no path. */
  lemma ForcedMoveExactly(r: Run, k: nat)
    requires r.Valid() && k < |r.looks| && r.Current(k).None?
    ensures r.decisions[k] == NoPath <==> forall p :: p in r.looks[k].paths ==> !Usable(p)
    ensures r.decisions[k] != NoPath ==>
              && GoesToFirstChoice(r, k, UsableTest()) && r.decisions[k].from == r.states[k].carrying
              && r.decisions[k].reason == (if r.states[k].carrying.Some? then LinkLost else Acquired)
              && r.states[k + 1].carrying == Some(r.decisions[k].to)
  {
    var up := Filter(r.looks[k].paths, UsableTest());
    if up != [] {
      assert up[0] in up;
      var i := BestIsFirstChoice(r.looks[k].paths, UsableTest(), r.cfg);
    }
    assert r.Follows(k);
  }

  /** And the machine stays in every other case. */
  lemma StaysOtherwise(r: Run, k: nat)
    requires r.Valid() && k < |r.looks| && r.Current(k).Some?
    ensures r.decisions[k] == Stay <==> !r.Moves(k, Degraded) && !r.Moves(k, Preferred)
  {
    TargetStep(r, k);
  }
}
