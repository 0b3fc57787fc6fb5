/** What the failover machine does in the long run, as the monitor's user sees it: over any interleaving of
    refreshes, samples, reports and hand-outs, decisions that see the same paths do not go back and forth,
    voluntary moves keep the dwell, and a bad path is left in bounded time. */
module MonitorProgress {
  import opened Common
  import opened Quality
  import opened Failover
  import opened PathMonitoring
  import opened MonitorRuns
  import opened MonitorEvidence
  import F = FailoverRuns
  import P = FailoverProgress
  import MonitorRoutes

  // ------------------------------------------------------------------ places in the failover run

  lemma {:induction false} DecisionsGrow(r: Run, i: nat, k: nat)
    requires r.Shaped() && k <= |r.events| && Start(r, k) <= i <= k
    ensures Decisions(r, i) <= Decisions(r, k) && Start(r, i) == Start(r, k)
    decreases k
  {
    if i < k {
      DecisionsGrow(r, i, k - 1);
    }
  }

  /** Between decisions the state stays what the last one left. */
  lemma {:induction false} StateIsMirrored(f: F.Run, r: Run, k: nat, i: nat) returns (n: nat)
    requires r.Valid() && k <= |r.events| && Mirrors(f, r, k) && Start(r, k) <= i <= k
    ensures n == |Decisions(r, i)| <= |f.looks| && f.states[n] == r.monitors[i].state
    ensures i < k && r.events[i].op.Evaluate? ==> n < |f.looks| && MirrorsAt(f, n, r, i)
    decreases k - i
  {
    n := |Decisions(r, i)|;
    DecisionsGrow(r, i, k);
    if i < k {
      DecisionsGrow(r, i + 1, k);
      if r.events[i].op.Evaluate? {
        assert Decisions(r, k)[n] == i;
        assert MirrorsAt(f, n, r, Decisions(r, k)[n]);
      } else {
        var m := StateIsMirrored(f, r, k, i + 1);
        MonitorRoutes.OtherEventsKeepState(r, i);
      }
    }
  }

  // ------------------------------------------------------------------ no ping-pong

  /** Nothing is adopted from event `a` to event `k`, and every decision sees `paths`, whichever of them is
      marked as carrying. */
  ghost predicate Unchanging(r: Run, paths: seq<NetworkPath>, a: nat, k: nat)
    requires r.Shaped() && k <= |r.events|
  {
    && UniqueIds(paths)
    && (forall i :: a <= i < k ==> !r.events[i].op.Adopt?)
    && (forall i :: a <= i < k && r.events[i].op.Evaluate? ==> P.SamePaths(LookOf(r, i).paths, paths))
  }

  predicate Voluntary(answer: Answer) {
    answer.Verdict? && answer.decision.Move?
        && (answer.decision.reason == Degraded || answer.decision.reason == Preferred)
  }

  function VoluntaryMoves(r: Run, a: nat, k: nat): nat
    requires r.Shaped() && a <= k <= |r.events|
    decreases k
  {
    if k == a then 0
    else VoluntaryMoves(r, a, k - 1) + if r.events[k - 1].op.Evaluate? && Voluntary(r.answers[k - 1]) then 1 else 0
  }

  lemma {:induction false} StartIsBefore(r: Run, a: nat, k: nat)
    requires r.Shaped() && a <= k <= |r.events| && forall i :: a <= i < k ==> !r.events[i].op.Adopt?
    ensures Start(r, k) <= a
    decreases k
  {
    if a < k {
      StartIsBefore(r, a, k - 1);
    }
  }

  /** The stretch of the failover run that a stretch of the monitor's is. */
  lemma FrozenStretch(f: F.Run, r: Run, paths: seq<NetworkPath>, a: nat, k: nat)
    requires r.Valid() && a <= k <= |r.events| && Mirrors(f, r, k) && Unchanging(r, paths, a, k)
    ensures |Decisions(r, a)| <= |f.looks| && P.Frozen(f, paths, |Decisions(r, a)|, |f.looks|)
  {
    StartIsBefore(r, a, k);
    DecisionsGrow(r, a, k);
    DecisionsAreAll(r, k);
    var n, d := |Decisions(r, a)|, Decisions(r, k);
    forall j | n <= j < |f.looks| ensures P.SamePaths(f.looks[j].paths, paths) {
      assert MirrorsAt(f, j, r, d[j]);
      LaterDecision(r, a, k, j);
    }
  }

  lemma LaterDecision(r: Run, a: nat, k: nat, j: nat)
    requires r.Shaped() && k <= |r.events| && Start(r, k) <= a <= k && |Decisions(r, a)| <= j < |Decisions(r, k)|
    ensures a <= Decisions(r, k)[j]
  {
    DecisionsGrow(r, a, k);
    DecisionsAreAll(r, k);
    DecisionsAreAll(r, a);
    assert forall x :: 0 <= x < |Decisions(r, a)| ==> Decisions(r, a)[x] == Decisions(r, k)[x];
  }

  lemma {:induction false} VoluntaryMovesMirror(f: F.Run, r: Run, k: nat, a: nat, i: nat)
    requires r.Valid() && k <= |r.events| && Start(r, k) <= a <= i <= k && Mirrors(f, r, k)
    ensures |Decisions(r, a)| <= |Decisions(r, i)| <= |f.looks|
    ensures P.VoluntaryMoves(f, |Decisions(r, a)|, |Decisions(r, i)|) == VoluntaryMoves(r, a, i)
    decreases i
  {
    if a < i {
      VoluntaryMovesMirror(f, r, k, a, i - 1);
      DecisionPlace(f, r, k, i - 1);
    } else {
      var n := StateIsMirrored(f, r, k, a);
    }
  }

  /** Event `i` is the next decision of the failover run, or none. */
  lemma DecisionPlace(f: F.Run, r: Run, k: nat, i: nat)
    requires r.Valid() && k <= |r.events| && Start(r, k) <= i < k && Mirrors(f, r, k)
    ensures var n := |Decisions(r, i)|;
            if r.events[i].op.Evaluate? then
              n < |f.looks| && |Decisions(r, i + 1)| == n + 1 && (f.Voluntary(n) <==> Voluntary(r.answers[i]))
            else |Decisions(r, i + 1)| == n <= |f.looks|
  {
    var n := StateIsMirrored(f, r, k, i);
    DecisionsGrow(r, i, k);
    DecisionsGrow(r, i + 1, k);
  }

  lemma CarriedWithin(f: F.Run, r: Run, a: nat, k: nat, n: nat, i: nat) returns (e: nat)
    requires r.Valid() && k < |r.events| && Mirrors(f, r, k + 1) && Start(r, k + 1) <= a <= i <= k
    requires n == |Decisions(r, k)|
    ensures |Decisions(r, a)| <= e <= n <= |f.looks| && f.states[e] == r.monitors[i].state
  {
    e := StateIsMirrored(f, r, k + 1, i);
    DecisionsGrow(r, i, k + 1);
    DecisionsGrow(r, k, k + 1);
    DecisionsGrow(r, a, i);
    DecisionsGrow(r, i, k);
  }

  lemma TargetIsNew(f: F.Run, r: Run, paths: seq<NetworkPath>, a: nat, k: nat) returns (n: nat)
    requires r.Valid() && a <= k < |r.events| && Unchanging(r, paths, a, k + 1) && Mirrors(f, r, k + 1)
    requires r.events[k].op.Evaluate? && r.answers[k].Verdict? && r.answers[k].decision.Move?
    ensures n == |Decisions(r, k)| < |f.looks|
    ensures forall e :: |Decisions(r, a)| <= e <= n ==> f.states[e].carrying != Some(r.answers[k].decision.to)
  {
    FrozenStretch(f, r, paths, a, k + 1);
    StartIsBefore(r, a, k + 1);
    n := StateIsMirrored(f, r, k + 1, k);
    var j := CarriedWithin(f, r, a, k, n, k);
    P.NoPingPong(f, paths, |Decisions(r, a)|, n);
  }

  /** Over any stretch of any run without an adoption in which every decision sees the same paths, whatever
      else happens in it, a path that is moved to has not carried before in the stretch. */
  lemma MonitorDoesNotPingPong(r: Run, paths: seq<NetworkPath>, a: nat, k: nat)
    requires r.Valid() && a <= k < |r.events| && Unchanging(r, paths, a, k + 1)
    requires r.events[k].op.Evaluate? && r.answers[k].Verdict? && r.answers[k].decision.Move?
    ensures forall i :: a <= i <= k ==> r.monitors[i].state.carrying != Some(r.answers[k].decision.to)
  {
    var f := MonitorIsAFailoverRun(r, k + 1);
    var n := TargetIsNew(f, r, paths, a, k);
    StartIsBefore(r, a, k + 1);
    forall i | a <= i <= k ensures r.monitors[i].state.carrying != Some(r.answers[k].decision.to) {
      var e := CarriedWithin(f, r, a, k, n, i);
    }
  }

  /** And there are fewer voluntary moves in it than paths. */
  lemma MonitorSettles(r: Run, paths: seq<NetworkPath>, a: nat, k: nat)
    requires r.Valid() && a <= k <= |r.events| && Unchanging(r, paths, a, k)
    ensures paths != [] ==> VoluntaryMoves(r, a, k) < |paths|
    ensures paths == [] ==> VoluntaryMoves(r, a, k) == 0
  {
    var f := MonitorIsAFailoverRun(r, k);
    FrozenStretch(f, r, paths, a, k);
    StartIsBefore(r, a, k);
    VoluntaryMovesMirror(f, r, k, a, k);
    P.FewerMovesThanPaths(f, paths, |Decisions(r, a)|, |f.looks|);
  }

  // ------------------------------------------------------------------ the dwell

  /** Events `j` and `k` are decisions since the last adoption; their places in the failover run. */
  lemma TwoPlaces(f: F.Run, r: Run, j: nat, k: nat) returns (m: nat, n: nat)
    requires r.Valid() && j <= k < |r.events| && Mirrors(f, r, k + 1)
    requires forall i :: j <= i <= k ==> !r.events[i].op.Adopt?
    requires r.events[j].op.Evaluate? && r.events[k].op.Evaluate?
    ensures m == |Decisions(r, j)| <= n == |Decisions(r, k)| < |f.looks| && (j < k ==> m < n)
    ensures MirrorsAt(f, m, r, j) && MirrorsAt(f, n, r, k)
  {
    StartIsBefore(r, j, k + 1);
    m := StateIsMirrored(f, r, k + 1, j);
    n := StateIsMirrored(f, r, k + 1, k);
    CountsGrow(r, k + 1, j, k);
  }

  /** A decision of the failover run between two others is a decision event between theirs. */
  lemma EventBetween(f: F.Run, r: Run, j: nat, k: nat, y: nat) returns (e: nat)
    requires r.Valid() && j <= k < |r.events| && Mirrors(f, r, k + 1)
    requires forall i :: j <= i <= k ==> !r.events[i].op.Adopt?
    requires |Decisions(r, j)| <= y < |f.looks|
    ensures j <= e <= k && r.events[e].op.Evaluate? && MirrorsAt(f, y, r, e) && y == |Decisions(r, e)|
    ensures e == k ==> y == |Decisions(r, k)|
  {
    StartIsBefore(r, j, k + 1);
    e := Decisions(r, k + 1)[y];
    LaterDecision(r, j, k + 1, y);
    assert MirrorsAt(f, y, r, e);
    PlaceIsCount(r, k + 1, y);
  }

  lemma PlaceIsCount(r: Run, k: nat, y: nat)
    requires r.Shaped() && k <= |r.events| && y < |Decisions(r, k)|
    ensures |Decisions(r, Decisions(r, k)[y])| == y
  {
    var e := Decisions(r, k)[y];
    DecisionsGrow(r, e, k);
    DecisionsGrow(r, e + 1, k);
    DecisionsAreAll(r, k);
    var n := |Decisions(r, e)|;
    assert Decisions(r, e + 1)[n] == e && Decisions(r, k)[n] == e;
  }

  /** A voluntary move of the monitor comes at least `min_dwell` after every counted move before it, unless
      every path was lost or a path was adopted in between. */
  lemma MonitorDwells(r: Run, j: nat, k: nat)
    requires r.Valid() && j < k < |r.events| && r.events[j].op.Evaluate? && r.events[k].op.Evaluate?
    requires Counts(r.answers[j]) && Voluntary(r.answers[k])
    requires forall i :: j < i < k ==> !r.events[i].op.Adopt? && r.answers[i] != Verdict(NoPath)
    ensures r.events[k].now - r.events[j].now >= r.cfg.minDwell
  {
    var f := MonitorIsAFailoverRun(r, k + 1);
    var m, n := TwoPlaces(f, r, j, k);
    forall y | m < y < n ensures f.decisions[y] != NoPath {
      var e := EventBetween(f, r, j, k, y);
    }
    F.VoluntaryMovesDwell(f, m, n);
  }

  // ------------------------------------------------------------------ bounded response

  /** The decision at event `e` sees the carrying path up but no better than `band`, and the path `id` up,
      measured, clearly better, and `Good` or not as `good` says. */
  ghost predicate SeesBetter(r: Run, e: nat, band: Band, id: InterfaceId, good: bool)
    requires r.Shaped() && e < |r.events|
  {
    && Seen(r, e).Some? && !band.Below(BandIn(Seen(r, e).value, r.cfg)) && Seen(r, e).value.id != id
    && exists p :: p in LookOf(r, e).paths && p.id == id && Usable(p) && p.quality.IsMeasured()
                   && IsBetter(Seen(r, e).value, p, r.cfg) && (good <==> BandIn(p, r.cfg) == Good)
  }

  ghost predicate StayedBetween(r: Run, i: nat, e: nat)
    requires r.Shaped() && e <= |r.events|
  {
    forall x :: i <= x < e && r.events[x].op.Evaluate? ==> r.answers[x] == Verdict(Stay)
  }

  lemma CountsGrow(r: Run, k: nat, a: nat, b: nat)
    requires r.Shaped() && k <= |r.events| && Start(r, k) <= a <= b <= k
    ensures |Decisions(r, a)| <= |Decisions(r, b)|
    ensures a < b && r.events[a].op.Evaluate? ==> |Decisions(r, a)| < |Decisions(r, b)|
  {
    DecisionsGrow(r, b, k);
    DecisionsGrow(r, a, b);
    if a < b {
      DecisionsGrow(r, a + 1, b);
    }
  }

  lemma StayedAt(f: F.Run, r: Run, k: nat, i: nat, e: nat, x: nat)
    requires r.Valid() && k <= |r.events| && Mirrors(f, r, k) && Start(r, k) <= i <= x < e <= k
    requires |Decisions(r, e)| <= |f.looks| && P.StayedThrough(f, |Decisions(r, i)|, |Decisions(r, e)|)
    requires r.events[x].op.Evaluate?
    ensures r.answers[x] == Verdict(Stay)
  {
    var z := StateIsMirrored(f, r, k, x);
    CountsGrow(r, k, i, x);
    CountsGrow(r, k, x, e);
    assert f.decisions[z] == Stay;
  }

  lemma StayedMirrors(f: F.Run, r: Run, i: nat, k: nat, y: nat, e: nat)
    requires r.Valid() && i <= e <= k < |r.events| && Mirrors(f, r, k + 1)
    requires forall x :: i <= x <= k ==> !r.events[x].op.Adopt?
    requires y == |Decisions(r, e)| <= |f.looks| && P.StayedThrough(f, |Decisions(r, i)|, y)
    ensures StayedBetween(r, i, e)
  {
    StartIsBefore(r, i, k + 1);
    forall x | i <= x < e && r.events[x].op.Evaluate? ensures r.answers[x] == Verdict(Stay) {
      StayedAt(f, r, k + 1, i, e, x);
    }
  }

  lemma SeesBetterMirrors(f: F.Run, r: Run, y: nat, e: nat, band: Band, id: InterfaceId, good: bool)
    requires r.Shaped() && f.Shaped() && f.cfg == r.cfg && y < |f.looks| && e < |r.events| && MirrorsAt(f, y, r, e)
    requires SeesBetter(r, e, band, id, good)
    ensures P.BetterElsewhere(f, y, band, id, good)
  {
  }

  lemma BetterMirrored(f: F.Run, r: Run, i: nat, k: nat, y: nat, band: Band, id: InterfaceId, good: bool)
    requires r.Valid() && i <= k < |r.events| && Mirrors(f, r, k + 1)
    requires forall x :: i <= x <= k ==> !r.events[x].op.Adopt?
    requires forall e :: i <= e <= k && r.events[e].op.Evaluate? && StayedBetween(r, i, e) ==>
               SeesBetter(r, e, band, id, good)
    requires |Decisions(r, i)| <= y < |f.looks| && P.StayedThrough(f, |Decisions(r, i)|, y)
    ensures P.BetterElsewhere(f, y, band, id, good)
  {
    var e := EventBetween(f, r, i, k, y);
    StayedMirrors(f, r, i, k, y, e);
    SeesBetterMirrors(f, r, y, e, band, id, good);
  }

  lemma LeftInTime(f: F.Run, m: nat, n: nat, band: Band, id: InterfaceId, good: bool) returns (y: nat)
    requires f.Valid() && f.Unique() && m <= n < |f.looks| && f.cfg.maxMoves >= 1
    requires forall e :: m <= e <= n && P.StayedThrough(f, m, e) ==> P.BetterElsewhere(f, e, band, id, good)
    requires var long := f.looks[n].now - f.looks[m].now;
             && long >= f.cfg.minDwell && long >= f.cfg.window
             && (|| (band == Poor && long >= f.cfg.degradeFor && long >= f.cfg.stableFor)
                 || (band == Unusable && long >= f.cfg.unusableFor))
    ensures m <= y <= n && f.Moves(y, Degraded)
  {
    if band == Poor {
      y := P.BadPathIsLeftInTime(f, m, n, id, good);
    } else {
      y := P.UnusablePathIsLeftInTime(f, m, n, id, good);
    }
  }

  /** Whatever else the monitor does meanwhile, a carrying path that its decisions keep seeing below `Good` (or
      `Unusable`) while one path stays clearly better, measured and on its side of `Good`, is left by the first
      decision that comes all the waiting times after the first such decision, if nothing is adopted. */
  lemma MonitorLeavesInTime(r: Run, i: nat, k: nat, band: Band, id: InterfaceId, good: bool) returns (j: nat)
    requires r.Valid() && i <= k < |r.events| && r.events[i].op.Evaluate? && r.events[k].op.Evaluate?
    requires r.cfg.maxMoves >= 1 && forall x :: i <= x <= k ==> !r.events[x].op.Adopt?
    requires forall e :: i <= e <= k && r.events[e].op.Evaluate? && StayedBetween(r, i, e) ==>
               SeesBetter(r, e, band, id, good)
    requires var long := r.events[k].now - r.events[i].now;
             && long >= r.cfg.minDwell && long >= r.cfg.window
             && (|| (band == Poor && long >= r.cfg.degradeFor && long >= r.cfg.stableFor)
                 || (band == Unusable && long >= r.cfg.unusableFor))
    ensures i <= j <= k && r.events[j].op.Evaluate?
    ensures r.answers[j].Verdict? && r.answers[j].decision.Move? && r.answers[j].decision.reason == Degraded
  {
    var f := MonitorIsAFailoverRun(r, k + 1);
    var m, n := TwoPlaces(f, r, i, k);
    forall e | m <= e <= n && P.StayedThrough(f, m, e) ensures P.BetterElsewhere(f, e, band, id, good) {
      BetterMirrored(f, r, i, k, e, band, id, good);
    }
    var y := LeftInTime(f, m, n, band, id, good);
    j := EventBetween(f, r, i, k, y);
  }
}
