/** The move budget of the whole monitor across adoptions. Adopting a path starts the machine anew, so the cap
    on moves holds exactly as far as no adoption makes it forget a move. */
module MonitorBudget {
  import opened Common
  import opened Quality
  import opened Failover
  import opened PathMonitoring
  import opened MonitorRuns
  import opened MonitorEvidence
  import MonitorRoutes
  import F = FailoverRuns
  import FailoverEvidence

  /** Event `i` decided a move that counts. */
  predicate MovedAt(r: Run, i: nat)
    requires r.Shaped() && i < |r.events|
  {
    r.events[i].op.Evaluate? && Counts(r.answers[i])
  }

  /** When the moves that count were decided, over the first `k` events, adoptions or not. */
  function AllMoves(r: Run, k: nat): seq<Time>
    requires r.Shaped() && k <= |r.events|
  {
    if k == 0 then [] else AllMoves(r, k - 1) + if MovedAt(r, k - 1) then [r.events[k - 1].now] else []
  }

  predicate VoluntaryAt(r: Run, k: nat)
    requires r.Shaped() && k < |r.events|
  {
    MovedAt(r, k) && r.answers[k].decision.reason != LinkLost
  }

  lemma {:induction false} MovesSplit(r: Run, k: nat)
    requires r.Shaped() && k <= |r.events|
    ensures AllMoves(r, k) == AllMoves(r, Start(r, k)) + CountedMoves(r, k)
  {
    if k > 0 && !r.events[k - 1].op.Adopt? {
      MovesSplit(r, k - 1);
    }
  }

  function InLastWindow(r: Run, k: nat, moves: seq<Time>): nat
    requires k < |r.events|
  {
    |Filter(moves, InWindow(r.events[k].now, r.cfg.window))|
  }

  /** At a voluntary move, the moves in the window are those since the last adoption, at most `max_moves`,
      and those that the last adoption made the machine forget. */
  lemma MovesAcrossAdoptions(r: Run, k: nat)
    requires r.Valid() && k < |r.events| && VoluntaryAt(r, k)
    ensures var forgotten := InLastWindow(r, k, AllMoves(r, Start(r, k)));
            && InLastWindow(r, k, AllMoves(r, k + 1)) == forgotten + InLastWindow(r, k, CountedMoves(r, k + 1))
            && InLastWindow(r, k, AllMoves(r, k + 1)) <= forgotten + r.cfg.maxMoves
  {
    MonitorKeepsTheBudget(r, k);
    WindowSplit(r, k, Start(r, k));
  }

  lemma WindowSplit(r: Run, k: nat, a: nat)
    requires r.Shaped() && k < |r.events| && !r.events[k].op.Adopt? && a == Start(r, k)
    ensures InLastWindow(r, k, AllMoves(r, k + 1))
            == InLastWindow(r, k, AllMoves(r, a)) + InLastWindow(r, k, CountedMoves(r, k + 1))
  {
    MovesSplit(r, k + 1);
    assert Start(r, k + 1) == a;
    CountSplit(AllMoves(r, k + 1), AllMoves(r, a), CountedMoves(r, k + 1), InWindow(r.events[k].now, r.cfg.window));
  }

  lemma CountSplit(all: seq<Time>, a: seq<Time>, b: seq<Time>, keep: Time -> bool)
    requires all == a + b
    ensures |Filter(all, keep)| == |Filter(a, keep)| + |Filter(b, keep)|
  {
    FilterConcat(a, b, keep);
  }

  lemma {:induction false} MovesAreSome(r: Run, k: nat, t: Time) returns (i: nat)
    requires r.Shaped() && k <= |r.events| && t in AllMoves(r, k)
    ensures i < k && MovedAt(r, i) && r.events[i].now == t
  {
    if t in AllMoves(r, k - 1) {
      i := MovesAreSome(r, k - 1, t);
    } else {
      i := k - 1;
    }
  }

  predicate Recent(r: Run, k: nat, i: nat)
    requires k < |r.events| && i < |r.events|
  {
    Elapsed(r.events[k].now, r.events[i].now) < r.cfg.window
  }

  lemma ForgottenAreOld(r: Run, k: nat)
    requires r.Valid() && k < |r.events|
    requires forall i, j :: 0 <= j < i < k && r.events[i].op.Adopt? && MovedAt(r, j) ==>
            !Recent(r, k, i) || !Recent(r, k, j)
    ensures InLastWindow(r, k, AllMoves(r, Start(r, k))) == 0
  {
    var a, w := Start(r, k), InWindow(r.events[k].now, r.cfg.window);
    forall t | t in AllMoves(r, a) ensures !w(t) {
      var j := MovesAreSome(r, a, t);
      assert !r.events[j].op.Adopt?;
      assert !Recent(r, k, a - 1) || !Recent(r, k, j);
    }
    FilterNone(AllMoves(r, a), w);
  }

  /** SC-007 over whole runs, adoptions included: the cap holds at a voluntary move if no adoption within the
      window comes after a counted move within the window. */
  lemma CapHoldsAcrossAdoptions(r: Run, k: nat)
    requires r.Valid() && k < |r.events| && VoluntaryAt(r, k)
    requires forall i, j :: 0 <= j < i < k && r.events[i].op.Adopt? && MovedAt(r, j) ==>
            !Recent(r, k, i) || !Recent(r, k, j)
    ensures InLastWindow(r, k, AllMoves(r, k + 1)) <= r.cfg.maxMoves
  {
    MovesAcrossAdoptions(r, k);
    ForgottenAreOld(r, k);
  }

  // ------------------------------------------------------------------ the cap is exceeded

  /** How a sampled path stands in the evidence. */
  lemma SeenInEvidence(r: Run, k: nat, i: nat)
    requires r.Valid() && k < |r.events| && i < |MonitorRoutes.Listed(r, k)|
    requires var h := Accepted(r, k, MonitorRoutes.Listed(r, k)[i].id);
             && h.Some? && h.value.times != []
             && var age := Elapsed(r.events[k].now, h.value.times[|h.value.times| - 1]);
                age <= r.cadence.carryingEvery && age <= r.cadence.standbyEvery
    ensures var (p, seen) := (MonitorRoutes.Listed(r, k)[i], LookOf(r, k).paths);
            && |seen| == |MonitorRoutes.Listed(r, k)|
            && seen[i].id == p.id && (Usable(seen[i]) <==> Usable(p))
            && seen[i].quality == Accepted(r, k, p.id).value.Quality()
  {
    MonitorBasics(r, k);
    MonitorRoutes.ListedIsShown(r, k);
    FindInPlace(r.monitors[k].paths, i);
    QualityIsReplay(r, k, MonitorRoutes.Listed(r, k)[i].id);
  }

  function OneMove(window: Time): Config { Config(DEFAULT_THRESHOLDS, 0, 0, 0, window, 0, 1, window) }

  /** A poor path that was just adopted is left at once for a good one. */
  lemma AdoptedPathIsLeft(window: Time, t: Time, bad: NetworkPath, fine: NetworkPath)
    requires bad.id == 1 && fine.id == 2 && Usable(bad) && Usable(fine)
    requires BandIn(bad, OneMove(window)) == Poor && ProvingGood(fine, OneMove(window))
    ensures Evaluated(CarryingOn(1), [bad, fine], t, OneMove(window)).1 == Move(Some(1), 2, Degraded)
  {
    var r := F.RunExists(OneMove(window), Some(1), [F.Look(t, [bad, fine])]);
    assert r.Current(0) == Some(bad);
    assert r.BadThrough(0, 0, Poor) && r.BadFor(0, Poor, 0);
    assert r.GoodAt(0, 2) by { assert fine in r.looks[0].paths; }
    assert r.GoodThrough(0, 0, 2) && r.GoodFor(0, 2, 0);
    assert FailoverEvidence.Alternative(r, 0, fine);
    FailoverEvidence.DegradedMoveExactly(r, 0);
    assert r.Follows(0);
  }

  lemma TwoLosses()
    ensures Fold(UNMEASURED, [Lost, Lost]).loss == 0.234375 && Fold(UNMEASURED, [Lost, Lost]).rtt == None
  {
    assert [Lost, Lost][..1] == [Lost] && [Lost][..0] == [];
    assert Fold(UNMEASURED, [Lost]) == UNMEASURED.Observe(Lost);
  }

  lemma OneAnswer()
    ensures Fold(UNMEASURED, [Answered(40.0)]) == PathQuality(0.0, Some(40.0), Some(20.0))
  {
    assert [Answered(40.0)][..0] == [];
  }

  lemma SampleStep(r: Run, k: nat)
    requires r.Shaped() && k < |r.events| && r.events[k].op.TakeSample?
    requires Accepted(r, k, 1).Some? && Accepted(r, k, 2).Some?
    ensures var (op, h) := (r.events[k].op, Accepted(r, k, 1).value);
            Accepted(r, k + 1, 1)
            == Some(if op.path == 1 then History(h.start, h.samples + [op.sample], h.times + [r.events[k].now]) else h)
    ensures var (op, h) := (r.events[k].op, Accepted(r, k, 2).value);
            Accepted(r, k + 1, 2)
            == Some(if op.path == 2 then History(h.start, h.samples + [op.sample], h.times + [r.events[k].now]) else h)
  {
  }

  /** What the samples of the run below make of its two paths. */
  lemma TwoPaths(r: Run, t: Time, k: nat)
    requires r.Valid() && 4 <= k <= |r.events|
    requires r.events[..4] == [Event(t, Refresh(Pair())), Event(t, TakeSample(1, Lost)), Event(t, TakeSample(1, Lost)),
                               Event(t, TakeSample(2, Answered(40.0)))]
    requires forall i :: 4 <= i < k ==> r.events[i].op.Adopt? || r.events[i].op.Evaluate?
    ensures MonitorRoutes.Listed(r, k) == Pair()
    ensures Accepted(r, k, 1) == Some(History(UNMEASURED, [Lost, Lost], [t, t]))
    ensures Accepted(r, k, 2) == Some(History(UNMEASURED, [Answered(40.0)], [t]))
    decreases k
  {
    if k == 4 {
      assert r.events[0] == r.events[..4][0] && r.events[1] == r.events[..4][1];
      assert r.events[2] == r.events[..4][2] && r.events[3] == r.events[..4][3];
      assert Accepted(r, 0, 1) == None && Accepted(r, 0, 2) == None;
      assert Accepted(r, 1, 1) == Some(History(UNMEASURED, [], [])) == Accepted(r, 1, 2);
      SampleStep(r, 1);
      SampleStep(r, 2);
      SampleStep(r, 3);
      assert [] + [Answered(40.0)] == [Answered(40.0)] && [] + [Lost] == [Lost];
      assert [] + [t] == [t] && [Lost] + [Lost] == [Lost, Lost] && [t] + [t] == [t, t];
      assert MonitorRoutes.Listed(r, 1) == MonitorRoutes.Listed(r, 2) == MonitorRoutes.Listed(r, 3) == Pair();
    } else {
      TwoPaths(r, t, k - 1);
    }
  }

  function Pair(): seq<NetworkPath> {
    [NetworkPath(1, Wifi, None, UNMEASURED, Standby, 0), NetworkPath(2, Cellular, None, UNMEASURED, Standby, 0)]
  }

  /** A decision right after the first of these paths was adopted goes to the second. */
  lemma LeftAgain(r: Run, t: Time, k: nat)
    requires r.Valid() && 4 < k < |r.events| && r.cadence == DEFAULT_CADENCE && r.cfg == OneMove(r.cfg.window)
    requires r.events[..4] == [Event(t, Refresh(Pair())), Event(t, TakeSample(1, Lost)), Event(t, TakeSample(1, Lost)),
                               Event(t, TakeSample(2, Answered(40.0)))]
    requires forall i :: 4 <= i < k ==> r.events[i].op.Adopt? || r.events[i].op.Evaluate?
    requires r.events[k - 1].op == Adopt(1) && r.events[k].op == Evaluate && t <= r.events[k].now <= t + 1
    ensures r.answers[k] == Verdict(Move(Some(1), 2, Degraded))
  {
    var seen := LookOf(r, k).paths;
    TwoPaths(r, t, k);
    SeenInEvidence(r, k, 0);
    SeenInEvidence(r, k, 1);
    assert seen == [seen[0], seen[1]];
    TwoLosses();
    OneAnswer();
    MonitorRoutes.AdoptStep(r, k - 1);
    AdoptedPathIsLeft(r.cfg.window, r.events[k].now, seen[0], seen[1]);
    DecisionStep(r, k);
  }

  /** The cap is exceeded across an adoption: with one move allowed in a window, a poor path is left, adopted
      back (as the daemon does when it could not carry the move out) and left again one nanosecond later, with a
      dwell as long as the window. */
  lemma AdoptionForgetsTheBudget(window: Time, t: Time) returns (r: Run)
    requires window > 1
    ensures r.Valid() && r.cfg.window == window && r.cfg.maxMoves == 1 && |r.events| == 8
    ensures VoluntaryAt(r, 5) && r.events[6].op.Adopt? && VoluntaryAt(r, 7)
    ensures InLastWindow(r, 7, AllMoves(r, 8)) == 2
    ensures r.events[7].now - r.events[5].now < r.cfg.minDwell
  {
    r := RunExists(OneMove(window), DEFAULT_CADENCE,
                   [Event(t, Refresh(Pair())), Event(t, TakeSample(1, Lost)), Event(t, TakeSample(1, Lost)),
                    Event(t, TakeSample(2, Answered(40.0))), Event(t, Adopt(1)), Event(t, Evaluate),
                    Event(t, Adopt(1)), Event(t + 1, Evaluate)]);
    LeftAgain(r, t, 5);
    LeftAgain(r, t, 7);
    var first: seq<Time>, second: seq<Time> := [t], [t + 1];
    assert AllMoves(r, 5) == [] by { NoMovesYet(r); }
    assert AllMoves(r, 6) == [t];
    assert AllMoves(r, 7) == [t];
    assert AllMoves(r, 8) == [t, t + 1];
    FilterConcat(first, second, InWindow(t + 1, window));
  }

  lemma NoMovesYet(r: Run)
    requires r.Shaped() && |r.events| >= 5 && forall i :: 0 <= i < 5 ==> !r.events[i].op.Evaluate?
    ensures AllMoves(r, 5) == []
  {
    assert AllMoves(r, 1) == [] && AllMoves(r, 2) == [] && AllMoves(r, 3) == [] && AllMoves(r, 4) == [];
  }
}
