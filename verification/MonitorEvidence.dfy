/** The monitor's decisions are a run of the failover machine over its evidence, so every theorem about
    such runs holds of the monitor; and what it moves on is fresh. */
module MonitorEvidence {
  import opened Common
  import opened Quality
  import opened DegradationReporting
  import opened Failover
  import opened PathMonitoring
  import opened MonitorRuns
  import F = FailoverRuns
  import FailoverEvidence
  import MonitorRoutes

  /** Where the run since the last adoption among the first `k` events begins. */
  function Start(r: Run, k: nat): (a: nat)
    requires k <= |r.events|
    ensures a <= k && (forall i :: a <= i < k ==> !r.events[i].op.Adopt?) && (a > 0 ==> r.events[a - 1].op.Adopt?)
  {
    if k == 0 || r.events[k - 1].op.Adopt? then k else Start(r, k - 1)
  }

  /** The events among the first `k` that were decisions, since the last adoption. */
  function Decisions(r: Run, k: nat): (d: seq<nat>)
    requires r.Shaped() && k <= |r.events|
    ensures forall j :: 0 <= j < |d| ==> Start(r, k) <= d[j] < k && r.events[d[j]].op.Evaluate?
  {
    if k == 0 || r.events[k - 1].op.Adopt? then []
    else Decisions(r, k - 1) + if r.events[k - 1].op.Evaluate? then [k - 1] else []
  }

  lemma {:induction false} DecisionsAreAll(r: Run, k: nat)
    requires r.Shaped() && k <= |r.events|
    ensures forall i, j :: 0 <= i < j < |Decisions(r, k)| ==> Decisions(r, k)[i] < Decisions(r, k)[j]
    ensures forall e :: Start(r, k) <= e < k && r.events[e].op.Evaluate? ==> e in Decisions(r, k)
  {
    if k > 0 && !r.events[k - 1].op.Adopt? {
      DecisionsAreAll(r, k - 1);
    }
  }

  function LookOf(r: Run, e: nat): F.Look
    requires r.Shaped() && e < |r.events|
  {
    F.Look(r.events[e].now, Evidence(r.monitors[e], r.events[e].now))
  }

  /** Decision `j` of the failover run is event `e` of the monitor's. */
  predicate MirrorsAt(f: F.Run, j: nat, r: Run, e: nat)
    requires f.Shaped() && r.Shaped() && j < |f.looks| && e < |r.events|
  {
    f.looks[j] == LookOf(r, e) && f.states[j] == r.monitors[e].state && r.answers[e] == Verdict(f.decisions[j])
  }

  /** `f` is the failover run that the events since the last adoption among the first `k` amount to. */
  ghost predicate Mirrors(f: F.Run, r: Run, k: nat)
    requires r.Shaped() && k <= |r.events|
  {
    && f.Valid() && f.Unique() && f.cfg == r.cfg && |f.looks| == |Decisions(r, k)|
    && f.states[|f.looks|] == r.monitors[k].state
    && (forall j :: 0 <= j < |f.looks| ==> MirrorsAt(f, j, r, Decisions(r, k)[j]))
  }

  lemma DecisionStep(r: Run, k: nat)
    requires r.Valid() && k < |r.events| && r.events[k].op.Evaluate?
    ensures r.answers[k].Verdict?
    ensures Evaluated(r.monitors[k].state, LookOf(r, k).paths, r.events[k].now, r.cfg)
            == (r.monitors[k + 1].state, r.answers[k].decision)
  {
    MonitorBasics(r, k);
    assert r.Follows(k);
  }

  lemma OtherEventKeepsMirror(f: F.Run, r: Run, k: nat)
    requires r.Valid() && k < |r.events| && !r.events[k].op.Evaluate? && !r.events[k].op.Adopt? && Mirrors(f, r, k)
    ensures Mirrors(f, r, k + 1)
  {
    MonitorRoutes.OtherEventsKeepState(r, k);
    var d := Decisions(r, k + 1);
    forall j | 0 <= j < |f.looks| ensures MirrorsAt(f, j, r, d[j]) {
      assert MirrorsAt(f, j, r, Decisions(r, k)[j]);
    }
  }

  lemma AdoptionStartsAfresh(r: Run, k: nat) returns (f: F.Run)
    requires r.Valid() && k < |r.events| && r.events[k].op.Adopt?
    ensures Mirrors(f, r, k + 1)
  {
    assert r.Follows(k);
    f := F.Run(r.cfg, [], [CarryingOn(r.events[k].op.path)], []);
  }

  /** From each adoption on, the monitor runs the failover machine on its evidence, decision for decision. */
  lemma {:induction false} MonitorIsAFailoverRun(r: Run, k: nat) returns (f: F.Run)
    requires r.Valid() && k <= |r.events|
    ensures Mirrors(f, r, k)
  {
    if k == 0 {
      f := F.Run(r.cfg, [], [NEW], []);
    } else if r.events[k - 1].op.Adopt? {
      f := AdoptionStartsAfresh(r, k - 1);
    } else {
      f := MonitorIsAFailoverRun(r, k - 1);
      if r.events[k - 1].op.Evaluate? {
        f := Extended(f, r, k - 1);
      } else {
        OtherEventKeepsMirror(f, r, k - 1);
      }
    }
  }

  /** `f` is `before` with one more decision, the one at event `k`. */
  ghost predicate Extends(f: F.Run, before: F.Run, r: Run, k: nat)
    requires r.Shaped() && k < |r.events|
  {
    && before.Shaped() && f.Shaped() && r.answers[k].Verdict?
    && f.looks == before.looks + [LookOf(r, k)]
    && f.states == before.states + [r.monitors[k + 1].state]
    && f.decisions == before.decisions + [r.answers[k].decision]
  }

  lemma ExtendedMirrorsAt(f: F.Run, before: F.Run, r: Run, k: nat, j: nat)
    requires r.Shaped() && k < |r.events| && r.events[k].op.Evaluate? && Extends(f, before, r, k)
    requires |before.looks| == |Decisions(r, k)| && before.states[|before.looks|] == r.monitors[k].state
    requires j < |f.looks|
    requires j < |before.looks| ==> MirrorsAt(before, j, r, Decisions(r, k)[j])
    ensures MirrorsAt(f, j, r, Decisions(r, k + 1)[j])
  {
  }

  lemma OneMoreDecision(before: F.Run, r: Run, k: nat) returns (f: F.Run)
    requires r.Valid() && k < |r.events| && r.events[k].op.Evaluate?
    requires before.Valid() && before.cfg == r.cfg && before.states[|before.looks|] == r.monitors[k].state
    requires |before.looks| > 0 ==> before.looks[|before.looks| - 1].now <= r.events[k].now
    ensures f.Valid() && f.cfg == r.cfg && Extends(f, before, r, k)
  {
    f := F.RunExtends(before, LookOf(r, k));
    DecisionStep(r, k);
  }

  lemma LooksStayUnique(f: F.Run, before: F.Run, r: Run, k: nat)
    requires r.Valid() && k < |r.events| && Extends(f, before, r, k) && before.Unique()
    ensures f.Unique()
  {
    MonitorBasics(r, k);
    SameIdsSameUniqueness(Evidence(r.monitors[k], r.events[k].now), r.monitors[k].paths);
  }

  lemma Extended(before: F.Run, r: Run, k: nat) returns (f: F.Run)
    requires r.Valid() && k < |r.events| && r.events[k].op.Evaluate? && Mirrors(before, r, k)
    ensures Mirrors(f, r, k + 1)
  {
    var n, d := |before.looks|, Decisions(r, k + 1);
    if n > 0 {
      assert MirrorsAt(before, n - 1, r, Decisions(r, k)[n - 1]);
    }
    f := OneMoreDecision(before, r, k);
    LooksStayUnique(f, before, r, k);
    forall j | 0 <= j < |f.looks| ensures MirrorsAt(f, j, r, d[j]) {
      ExtendedMirrorsAt(f, before, r, k, j);
    }
  }

  /** The decision of the failover run that an event is, no earlier than decision `j` if it is no earlier. */
  lemma WhichDecision(f: F.Run, r: Run, k: nat, j: nat, e: nat) returns (x: nat)
    requires r.Valid() && k <= |r.events| && Mirrors(f, r, k) && j < |f.looks|
    requires Decisions(r, k)[j] <= e < k && r.events[e].op.Evaluate?
    ensures j <= x < |f.looks| && MirrorsAt(f, x, r, e)
  {
    DecisionsAreAll(r, k);
    x :| 0 <= x < |Decisions(r, k)| && Decisions(r, k)[x] == e;
  }

  lemma LastDecision(f: F.Run, r: Run, k: nat) returns (n: nat)
    requires r.Valid() && k < |r.events| && r.events[k].op.Evaluate? && Mirrors(f, r, k + 1)
    ensures |f.looks| == n + 1 && MirrorsAt(f, n, r, k)
  {
    n := |f.looks| - 1;
    assert MirrorsAt(f, n, r, Decisions(r, k + 1)[n]);
  }

  // ------------------------------------------------------------------ the budget, as the monitor's user sees it

  /** When the moves that count among the first `k` events were decided, since the last adoption. */
  function CountedMoves(r: Run, k: nat): seq<Time>
    requires r.Shaped() && k <= |r.events|
  {
    if k == 0 || r.events[k - 1].op.Adopt? then []
    else
      CountedMoves(r, k - 1)
      + if r.events[k - 1].op.Evaluate? && Counts(r.answers[k - 1]) then [r.events[k - 1].now] else []
  }

  predicate Counts(answer: Answer) { answer.Verdict? && answer.decision.Move? && answer.decision.reason != Acquired }

  lemma {:induction false} CountedMovesMirror(f: F.Run, r: Run, k: nat, n: nat)
    requires r.Shaped() && k <= |r.events| && f.Shaped() && n == |Decisions(r, k)| <= |f.looks|
    requires forall j :: 0 <= j < n ==> MirrorsAt(f, j, r, Decisions(r, k)[j])
    ensures f.CountedTimes(n) == CountedMoves(r, k)
  {
    if k > 0 && !r.events[k - 1].op.Adopt? {
      var before, d := Decisions(r, k - 1), Decisions(r, k);
      forall j | 0 <= j < |before| ensures MirrorsAt(f, j, r, before[j]) {
        assert MirrorsAt(f, j, r, d[j]);
      }
      CountedMovesMirror(f, r, k - 1, |before|);
      if r.events[k - 1].op.Evaluate? {
        assert MirrorsAt(f, n - 1, r, d[n - 1]);
      }
    }
  }

  /** SC-007 for the whole monitor, whatever is listed, sampled and reported meanwhile: a voluntary move
      and the counted moves before it, within the window and since the last adoption, number at most
      `max_moves`. */
  lemma MonitorKeepsTheBudget(r: Run, k: nat)
    requires r.Valid() && k < |r.events|
    requires r.events[k].op.Evaluate? && r.answers[k].Verdict? && r.answers[k].decision.Move?
    requires r.answers[k].decision.reason == Degraded || r.answers[k].decision.reason == Preferred
    ensures |Filter(CountedMoves(r, k + 1), InWindow(r.events[k].now, r.cfg.window))| <= r.cfg.maxMoves
  {
    var f := MonitorIsAFailoverRun(r, k + 1);
    var n := LastDecision(f, r, k);
    CountedMovesMirror(f, r, k + 1, n + 1);
    F.WindowKeepsTheBudget(f, n);
  }

  // ------------------------------------------------------------------ fresh evidence

  /** At event `e` the path is listed and up, a sample of it was accepted within three probe intervals,
      and the samples accepted since it appeared smooth to `Good`. */
  ghost predicate FreshAndGood(r: Run, e: nat, id: InterfaceId)
    requires r.Shaped() && e < |r.events|
  {
    var (p, h) := (Find(r.monitors[e].paths, id), Accepted(r, e, id));
    && p.Some? && Usable(p.value) && h.Some? && h.value.times != []
    && Elapsed(r.events[e].now, h.value.times[|h.value.times| - 1]) <= Every(p.value, r.cadence) * STALE_AFTER_INTERVALS
    && h.value.Quality().IsMeasured() && h.value.Quality().BandOf(r.cfg.thresholds) == Good
  }

  lemma SeenAsGoodIsFresh(m: Monitor, now: Time, i: nat)
    requires i < |m.paths| && ProvingGood(Evidence(m, now)[i], m.cfg)
    ensures IsFresh(m, m.paths[i], now) && Evidence(m, now)[i] == m.paths[i]
  {
  }

  /** What the failover machine takes for proof is fresh, measured and good in fact. */
  lemma ProofIsFresh(r: Run, e: nat, id: InterfaceId)
    requires r.Valid() && e < |r.events|
    requires exists p :: p in LookOf(r, e).paths && p.id == id && ProvingGood(p, r.cfg)
    ensures FreshAndGood(r, e, id)
  {
    MonitorBasics(r, e);
    var p :| p in LookOf(r, e).paths && p.id == id && ProvingGood(p, r.cfg);
    var i :| 0 <= i < |LookOf(r, e).paths| && LookOf(r, e).paths[i] == p;
    SeenAsGoodIsFresh(r.monitors[e], r.events[e].now, i);
    FindInPlace(r.monitors[e].paths, i);
    QualityIsReplay(r, e, id);
  }

  /** Fresh and good at every decision, from one at least `long` ago to the one at `k`. */
  ghost predicate FreshFor(r: Run, k: nat, id: InterfaceId, long: Time)
    requires r.Shaped() && k < |r.events|
  {
    exists i: nat :: i <= k && r.events[i].op.Evaluate? && r.events[k].now - r.events[i].now >= long
                     && forall e :: i <= e <= k && r.events[e].op.Evaluate? ==> FreshAndGood(r, e, id)
  }

  lemma GoodForMeansFreshFor(r: Run, k: nat, f: F.Run, n: nat, id: InterfaceId, long: Time)
    requires r.Valid() && k < |r.events| && Mirrors(f, r, k + 1)
    requires |f.looks| == n + 1 && MirrorsAt(f, n, r, k)
    requires f.GoodFor(n, id, long)
    ensures FreshFor(r, k, id, long)
  {
    var j: nat :| j <= n && f.GoodThrough(j, n, id) && f.looks[n].now - f.looks[j].now >= long;
    var i := Decisions(r, k + 1)[j];
    assert MirrorsAt(f, j, r, i);
    forall e: nat | i <= e <= k && r.events[e].op.Evaluate? ensures FreshAndGood(r, e, id) {
      var x := WhichDecision(f, r, k + 1, j, e);
      assert f.GoodAt(x, id);
      ProofIsFresh(r, e, id);
    }
  }

  /** The carrying path, as the decision at event `e` saw it. */
  function Seen(r: Run, e: nat): Option<NetworkPath>
    requires r.Shaped() && e < |r.events|
  {
    CarryingPath(r.monitors[e].state, LookOf(r, e).paths)
  }

  /** One path carried, and no decision, from one at least `long` ago to the one at `k`, saw it better than `band`. */
  ghost predicate SeenBadFor(r: Run, k: nat, band: Band, long: Time)
    requires r.Shaped() && k < |r.events|
  {
    exists i: nat :: i <= k && r.events[i].op.Evaluate? && r.events[k].now - r.events[i].now >= long
                     && forall e :: i <= e <= k && r.events[e].op.Evaluate? ==>
                          && Seen(r, e).Some? && !band.Below(BandIn(Seen(r, e).value, r.cfg))
                          && r.monitors[e].state.carrying == r.monitors[k].state.carrying
  }

  lemma {:induction false} StayKeepsCarrying(f: F.Run, i: nat, n: nat, band: Band)
    requires f.Valid() && i <= n < |f.looks| && f.BadThrough(i, n, band)
    ensures f.states[i].carrying == f.states[n].carrying
  {
    if i < n {
      assert f.BadThrough(i, n - 1, band);
      StayKeepsCarrying(f, i, n - 1, band);
      assert f.Follows(n - 1);
      EvaluatedCarriesOnAUsablePath(f.states[n - 1], f.looks[n - 1].paths, f.looks[n - 1].now, f.cfg);
    }
  }

  lemma SeenBadAt(r: Run, k: nat, f: F.Run, n: nat, band: Band, j: nat, e: nat)
    requires r.Valid() && k < |r.events| && Mirrors(f, r, k + 1)
    requires |f.looks| == n + 1 && MirrorsAt(f, n, r, k) && j <= n && f.BadThrough(j, n, band)
    requires Decisions(r, k + 1)[j] <= e <= k && r.events[e].op.Evaluate?
    ensures Seen(r, e).Some? && !band.Below(BandIn(Seen(r, e).value, r.cfg))
    ensures r.monitors[e].state.carrying == r.monitors[k].state.carrying
  {
    var x := WhichDecision(f, r, k + 1, j, e);
    assert f.BadAt(x, band);
    assert f.BadThrough(x, n, band);
    StayKeepsCarrying(f, x, n, band);
  }

  lemma BadForMeansSeenBadFor(r: Run, k: nat, f: F.Run, n: nat, band: Band, long: Time)
    requires r.Valid() && k < |r.events| && Mirrors(f, r, k + 1)
    requires |f.looks| == n + 1 && MirrorsAt(f, n, r, k)
    requires f.BadFor(n, band, long)
    ensures SeenBadFor(r, k, band, long)
  {
    var j: nat :| j <= n && f.BadThrough(j, n, band) && f.looks[n].now - f.looks[j].now >= long;
    var i := Decisions(r, k + 1)[j];
    assert MirrorsAt(f, j, r, i);
    forall e: nat | i <= e <= k && r.events[e].op.Evaluate?
      ensures Seen(r, e).Some? && !band.Below(BandIn(Seen(r, e).value, r.cfg))
      ensures r.monitors[e].state.carrying == r.monitors[k].state.carrying
    {
      SeenBadAt(r, k, f, n, band, j, e);
    }
  }

  /** Every voluntary move of the monitor rests on evidence that was there. A move to a preferred path
      was earned by that path at every decision for `stable_for`. A path is left only after decisions
      saw it below `Good` for `degrade_for`, and then only for a path that is poor but measured or that
      earned it the same way, or after decisions saw it `Unusable` for `unusable_for`. */
  lemma VoluntaryMovesRestOnFreshEvidence(r: Run, k: nat)
    requires r.Valid() && k < |r.events|
    requires r.events[k].op.Evaluate? && r.answers[k].Verdict? && r.answers[k].decision.Move?
    ensures var move := r.answers[k].decision;
            && (move.reason == Preferred ==> FreshFor(r, k, move.to, r.cfg.stableFor))
            && (move.reason == Degraded ==>
                  || SeenBadFor(r, k, Unusable, r.cfg.unusableFor)
                  || (&& SeenBadFor(r, k, Poor, r.cfg.degradeFor)
                      && (|| FreshFor(r, k, move.to, r.cfg.stableFor)
                          || exists p :: p in LookOf(r, k).paths && p.id == move.to && p.quality.IsMeasured()
                                         && BandIn(p, r.cfg) != Good)))
  {
    var f := MonitorIsAFailoverRun(r, k + 1);
    var n := LastDecision(f, r, k);
    var move := r.answers[k].decision;
    if move.reason == Preferred {
      FailoverEvidence.PreferredMoveExactly(f, n);
      GoodForMeansFreshFor(r, k, f, n, move.to, r.cfg.stableFor);
    } else if move.reason == Degraded {
      FailoverEvidence.DegradedMoveExactly(f, n);
      if FailoverEvidence.UrgentAt(f, n) {
        BadForMeansSeenBadFor(r, k, f, n, Unusable, r.cfg.unusableFor);
      } else {
        BadForMeansSeenBadFor(r, k, f, n, Poor, r.cfg.degradeFor);
        var p :| FailoverEvidence.Alternative(f, n, p) && p.id == move.to;
        if BandIn(p, r.cfg) == Good {
          GoodForMeansFreshFor(r, k, f, n, move.to, r.cfg.stableFor);
        }
      }
    }
  }
}
