/** What the failover machine does in the long run: it leaves a bad path in bounded time, it never goes
    back and forth between paths that do not change, and the reason it gives for staying is the truth. */
module FailoverProgress {
  import opened Common
  import opened Quality
  import opened DegradationReporting
  import opened Failover
  import opened FailoverRuns
  import opened FailoverEvidence

  // ------------------------------------------------------------------ bounded response

  ghost predicate StayedThrough(r: Run, i: nat, k: nat)
    requires r.Shaped() && k <= |r.looks|
  {
    forall e :: i <= e < k ==> r.decisions[e] == Stay
  }

  lemma {:induction false} LastMoveIsPast(r: Run, k: nat)
    requires r.Valid() && k < |r.looks|
    ensures r.LastMove(k).Some? ==> r.LastMove(k).value <= r.looks[k].now
  {
    if k > 0 {
      LastMoveIsPast(r, k - 1);
    }
  }

  lemma {:induction false} QuietChangesNothing(r: Run, i: nat, k: nat)
    requires r.Valid() && i <= k <= |r.looks| && StayedThrough(r, i, k)
    ensures r.LastMove(k) == r.LastMove(i) && r.CountedTimes(k) == r.CountedTimes(i)
  {
    if i < k {
      QuietChangesNothing(r, i, k - 1);
    }
  }

  /** After a quiet stretch as long as the dwell and the window, neither stands in the way. */
  lemma QuietLiftsLimits(r: Run, i: nat, k: nat)
    requires r.Valid() && i <= k < |r.looks| && StayedThrough(r, i, k)
    requires r.looks[k].now - r.looks[i].now >= r.cfg.minDwell
    requires r.looks[k].now - r.looks[i].now >= r.cfg.window
    requires r.cfg.maxMoves >= 1
    ensures DwellOver(r, k) && BudgetLeft(r, k)
  {
    QuietChangesNothing(r, i, k);
    LastMoveIsPast(r, i);
    CountedTimesArePast(r, i, r.looks[i].now);
    FilterNone(r.CountedTimes(k), InWindow(r.looks[k].now, r.cfg.window));
    RecentMovesAreCounted(r, k, r.looks[k].now);
  }

  /** At look `e` the carrying path is up but no better than `band`, and the path `id` is up, measured,
      clearly better, and `Good` or not as `good` says. */
  ghost predicate BetterElsewhere(r: Run, e: nat, band: Band, id: InterfaceId, good: bool)
    requires r.Shaped() && e < |r.looks|
  {
    && r.BadAt(e, band)
    && r.Current(e).value.id != id
    && exists p :: p in r.looks[e].paths && p.id == id && Usable(p) && p.quality.IsMeasured()
                   && IsBetter(r.Current(e).value, p, r.cfg) && (good <==> BandIn(p, r.cfg) == Good)
  }

  lemma BadPathMovesOnlyByLeaving(r: Run, e: nat)
    requires r.Valid() && e < |r.looks| && r.BadAt(e, Poor)
    ensures r.decisions[e] == Stay || r.Moves(e, Degraded)
  {
    TargetStep(r, e);
  }

  lemma LeavesAtLast(r: Run, i: nat, k: nat, band: Band, id: InterfaceId, good: bool, patience: Time)
    requires r.Valid() && r.Unique() && i <= k < |r.looks| && r.cfg.maxMoves >= 1
    requires StayedThrough(r, i, k)
    requires forall e :: i <= e <= k ==> BetterElsewhere(r, e, band, id, good)
    requires (band == Poor && patience == r.cfg.degradeFor && r.looks[k].now - r.looks[i].now >= r.cfg.stableFor)
             || (band == Unusable && patience == r.cfg.unusableFor)
    requires r.looks[k].now - r.looks[i].now >= patience
    requires r.looks[k].now - r.looks[i].now >= r.cfg.minDwell
    requires r.looks[k].now - r.looks[i].now >= r.cfg.window
    ensures r.Moves(k, Degraded)
  {
    QuietLiftsLimits(r, i, k);
    forall e: nat | i <= e <= k ensures r.BadAt(e, band) {
      assert BetterElsewhere(r, e, band, id, good);
    }
    assert r.BadThrough(i, k, band);
    assert r.BadFor(k, band, patience);
    assert BetterElsewhere(r, k, band, id, good);
    var p :| p in r.looks[k].paths && p.id == id && Usable(p) && p.quality.IsMeasured()
             && IsBetter(r.Current(k).value, p, r.cfg) && (good <==> BandIn(p, r.cfg) == Good);
    if good && band == Poor {
      forall e: nat | i <= e <= k ensures r.GoodAt(e, id) {
        assert BetterElsewhere(r, e, band, id, good);
      }
      assert r.GoodThrough(i, k, id);
    }
    assert Alternative(r, k, p);
    DegradedMoveExactly(r, k);
  }

  /** A carrying path that stays below `Good` while one path stays clearly better, measured and on its
      side of `Good`, is left by the first look that comes `degrade_for`, `stable_for`, `min_dwell` and
      `window` after the first such look: the machine cannot get stuck on it. */
  lemma BadPathIsLeftInTime(r: Run, i: nat, k: nat, id: InterfaceId, good: bool) returns (j: nat)
    requires r.Valid() && r.Unique() && i <= k < |r.looks| && r.cfg.maxMoves >= 1
    requires forall e :: i <= e <= k && StayedThrough(r, i, e) ==> BetterElsewhere(r, e, Poor, id, good)
    requires r.looks[k].now - r.looks[i].now >= r.cfg.degradeFor
    requires r.looks[k].now - r.looks[i].now >= r.cfg.stableFor
    requires r.looks[k].now - r.looks[i].now >= r.cfg.minDwell
    requires r.looks[k].now - r.looks[i].now >= r.cfg.window
    ensures i <= j <= k && r.Moves(j, Degraded)
  {
    j := i;
    while j < k && r.decisions[j] == Stay
      invariant i <= j <= k && StayedThrough(r, i, j)
    {
      j := j + 1;
    }
    assert BetterElsewhere(r, j, Poor, id, good);
    BadPathMovesOnlyByLeaving(r, j);
    if j == k {
      LeavesAtLast(r, i, k, Poor, id, good, r.cfg.degradeFor);
    }
  }

  /** An `Unusable` carrying path is left on trust, so a better path need not have proven anything for
      `stable_for`: `unusable_for`, the dwell and the window are all it waits for. */
  lemma UnusablePathIsLeftInTime(r: Run, i: nat, k: nat, id: InterfaceId, good: bool) returns (j: nat)
    requires r.Valid() && r.Unique() && i <= k < |r.looks| && r.cfg.maxMoves >= 1
    requires forall e :: i <= e <= k && StayedThrough(r, i, e) ==> BetterElsewhere(r, e, Unusable, id, good)
    requires r.looks[k].now - r.looks[i].now >= r.cfg.unusableFor
    requires r.looks[k].now - r.looks[i].now >= r.cfg.minDwell
    requires r.looks[k].now - r.looks[i].now >= r.cfg.window
    ensures i <= j <= k && r.Moves(j, Degraded)
  {
    j := i;
    while j < k && r.decisions[j] == Stay
      invariant i <= j <= k && StayedThrough(r, i, j)
    {
      j := j + 1;
    }
    assert BetterElsewhere(r, j, Unusable, id, good);
    BadPathMovesOnlyByLeaving(r, j);
    if j == k {
      LeavesAtLast(r, i, k, Unusable, id, good, r.cfg.unusableFor);
    }
  }

  // ------------------------------------------------------------------ no ping-pong

  /** The same path in everything a decision reads: of the role, only whether the link is up. */
  predicate SamePath(a: NetworkPath, b: NetworkPath) {
    a.id == b.id && a.quality == b.quality && a.preference == b.preference && (Usable(a) <==> Usable(b))
  }

  predicate SamePaths(a: seq<NetworkPath>, b: seq<NetworkPath>) {
    |a| == |b| && forall i :: 0 <= i < |a| ==> SamePath(a[i], b[i])
  }

  /** Every look from `a` to `k` sees `paths`, whichever of them is marked as carrying. */
  ghost predicate Frozen(r: Run, paths: seq<NetworkPath>, a: nat, k: nat)
    requires k <= |r.looks|
  {
    UniqueIds(paths) && forall e :: a <= e < k ==> SamePaths(r.looks[e].paths, paths)
  }

  /** Strictly further up: a higher band, then lower loss among poor, then preference among good. */
  predicate Above(b: NetworkPath, a: NetworkPath, cfg: Config) {
    || BandIn(a, cfg).Below(BandIn(b, cfg))
    || (BandIn(a, cfg) == Poor && BandIn(b, cfg) == Poor && b.quality.loss < a.quality.loss)
    || (BandIn(a, cfg) == Good && BandIn(b, cfg) == Good && b.preference > a.preference)
  }

  /** The path among `paths` that carries before look `k`, if its link is up. */
  function Standing(r: Run, paths: seq<NetworkPath>, k: nat): Option<NetworkPath>
    requires r.Shaped() && k <= |r.looks|
  {
    CarryingPath(r.states[k], paths)
  }

  /** The paths that have carried from look `a` on, by the time of look `k`. */
  ghost function Carried(r: Run, paths: seq<NetworkPath>, a: nat, k: nat): set<NetworkPath>
    requires r.Shaped() && k <= |r.looks|
  {
    set p | p in paths && Usable(p) && exists e :: a <= e <= k && r.states[e].carrying == Some(p.id)
  }

  function VoluntaryMoves(r: Run, a: nat, k: nat): nat
    requires r.Shaped() && a <= k <= |r.looks|
    decreases k
  {
    if k == a then 0 else VoluntaryMoves(r, a, k - 1) + if r.Voluntary(k - 1) then 1 else 0
  }

  lemma SamePathsSameCarrying(s: State, a: seq<NetworkPath>, b: seq<NetworkPath>)
    requires SamePaths(a, b)
    ensures CarryingPath(s, a).Some? <==> CarryingPath(s, b).Some?
    ensures CarryingPath(s, a).Some? ==> SamePath(CarryingPath(s, a).value, CarryingPath(s, b).value)
  {
    if s.carrying.Some? {
      var i := FindSamePlace(a, b, s.carrying.value);
    }
  }

  lemma CarryingStep(r: Run, k: nat)
    requires r.Valid() && k < |r.looks|
    ensures r.decisions[k] == Stay ==> r.Current(k).Some? && r.states[k + 1].carrying == r.states[k].carrying
    ensures r.decisions[k] == NoPath ==> r.states[k + 1].carrying == None && r.Current(k).None?
    ensures r.decisions[k].Move? ==>
              && r.states[k + 1].carrying == Some(r.decisions[k].to)
              && exists p :: p in r.looks[k].paths && p.id == r.decisions[k].to && Usable(p)
    ensures r.decisions[k].Move? && r.Current(k).Some? ==> r.Voluntary(k)
  {
    assert r.Follows(k);
    EvaluatedCarriesOnAUsablePath(r.states[k], r.looks[k].paths, r.looks[k].now, r.cfg);
    if r.Current(k).Some? {
      TargetStep(r, k);
    }
  }

  /** A voluntary move goes strictly up. */
  lemma VoluntaryGoesUp(r: Run, k: nat) returns (q: NetworkPath)
    requires r.Valid() && r.Unique() && k < |r.looks| && r.Voluntary(k)
    ensures r.Current(k).Some? && q in r.looks[k].paths && Usable(q) && q.id == r.decisions[k].to
    ensures Above(q, r.Current(k).value, r.cfg)
  {
    if r.Moves(k, Degraded) {
      DegradedMoveExactly(r, k);
      q :| Alternative(r, k, q) && q.id == r.decisions[k].to;
    } else {
      PreferredMoveExactly(r, k);
      q :| Favourite(r, k, q) && q.id == r.decisions[k].to;
    }
  }

  /** A move goes to one of `paths`, and a voluntary one strictly up. */
  lemma MoveAmong(r: Run, paths: seq<NetworkPath>, k: nat) returns (q: NetworkPath)
    requires r.Valid() && r.Unique() && k < |r.looks| && SamePaths(r.looks[k].paths, paths) && UniqueIds(paths)
    requires r.decisions[k].Move?
    ensures q in paths && Usable(q) && q.id == r.decisions[k].to && r.states[k + 1].carrying == Some(q.id)
    ensures Standing(r, paths, k + 1) == Some(q)
    ensures Standing(r, paths, k).Some? ==> r.Voluntary(k) && Above(q, Standing(r, paths, k).value, r.cfg)
    ensures r.Voluntary(k) ==> Standing(r, paths, k).Some?
  {
    CarryingStep(r, k);
    SamePathsSameCarrying(r.states[k], r.looks[k].paths, paths);
    var p: NetworkPath;
    if r.Voluntary(k) {
      p := VoluntaryGoesUp(r, k);
    } else {
      p :| p in r.looks[k].paths && p.id == r.decisions[k].to && Usable(p);
    }
    var i :| 0 <= i < |paths| && r.looks[k].paths[i] == p;
    q := paths[i];
    FindUnique(paths, q);
  }

  lemma CarriedGrows(r: Run, paths: seq<NetworkPath>, a: nat, k: nat)
    requires r.Valid() && UniqueIds(paths) && a <= k < |r.looks|
    ensures Carried(r, paths, a, k + 1)
            == Carried(r, paths, a, k)
               + (if Standing(r, paths, k + 1).Some? then {Standing(r, paths, k + 1).value} else {})
  {
    forall p ensures p in Carried(r, paths, a, k + 1) <==>
      (p in Carried(r, paths, a, k) || Standing(r, paths, k + 1) == Some(p))
    {
      if p in Carried(r, paths, a, k + 1) && r.states[k + 1].carrying != Some(p.id) {
        var e :| a <= e <= k + 1 && r.states[e].carrying == Some(p.id);
        assert e <= k;
      }
      if p in paths {
        FindUnique(paths, p);
      }
    }
  }

  ghost predicate Topmost(c: NetworkPath, among: set<NetworkPath>, cfg: Config) {
    c in among && forall p :: p in among ==> p == c || Above(c, p, cfg)
  }

  lemma TopmostAfterClimb(c: NetworkPath, q: NetworkPath, among: set<NetworkPath>, cfg: Config)
    requires Topmost(c, among, cfg) && Above(q, c, cfg)
    ensures q !in among && Topmost(q, among + {q}, cfg) && |among + {q}| == |among| + 1
  {
  }

  /** The path that carries now is above every path that carried before, and each voluntary move has
      added one path to those that carried. */
  ghost predicate Climbed(r: Run, paths: seq<NetworkPath>, a: nat, k: nat)
    requires r.Shaped() && a <= k <= |r.looks|
  {
    var carried := Carried(r, paths, a, k);
    match Standing(r, paths, k)
    case None => carried == {} && VoluntaryMoves(r, a, k) == 0
    case Some(c) => Topmost(c, carried, r.cfg) && VoluntaryMoves(r, a, k) < |carried|
  }

  lemma ClimbedAtFirst(r: Run, paths: seq<NetworkPath>, a: nat)
    requires r.Valid() && UniqueIds(paths) && a <= |r.looks|
    ensures Climbed(r, paths, a, a)
  {
    var carried := Carried(r, paths, a, a);
    forall p | p in carried ensures Standing(r, paths, a) == Some(p) {
      FindUnique(paths, p);
    }
    if Standing(r, paths, a).Some? {
      assert carried == {Standing(r, paths, a).value};
    } else {
      assert carried == {};
    }
  }

  lemma ClimbedAfterMove(r: Run, paths: seq<NetworkPath>, a: nat, k: nat)
    requires r.Valid() && r.Unique() && a <= k < |r.looks| && Frozen(r, paths, a, k + 1)
    requires Climbed(r, paths, a, k) && r.decisions[k].Move?
    ensures Climbed(r, paths, a, k + 1)
  {
    var q := MoveAmong(r, paths, k);
    CarriedGrows(r, paths, a, k);
    if Standing(r, paths, k).Some? {
      TopmostAfterClimb(Standing(r, paths, k).value, q, Carried(r, paths, a, k), r.cfg);
    } else {
      assert Carried(r, paths, a, k + 1) == {q};
    }
  }

  lemma ClimbedAfterStaying(r: Run, paths: seq<NetworkPath>, a: nat, k: nat)
    requires r.Valid() && r.Unique() && a <= k < |r.looks| && Frozen(r, paths, a, k + 1)
    requires Climbed(r, paths, a, k) && !r.decisions[k].Move?
    ensures Climbed(r, paths, a, k + 1)
  {
    CarryingStep(r, k);
    SamePathsSameCarrying(r.states[k], r.looks[k].paths, paths);
    CarriedGrows(r, paths, a, k);
    assert Carried(r, paths, a, k + 1) == Carried(r, paths, a, k);
  }

  lemma {:induction false} CarryingOnlyClimbs(r: Run, paths: seq<NetworkPath>, a: nat, k: nat)
    requires r.Valid() && r.Unique() && a <= k <= |r.looks| && Frozen(r, paths, a, k)
    ensures Climbed(r, paths, a, k)
    decreases k
  {
    if k == a {
      ClimbedAtFirst(r, paths, a);
    } else {
      CarryingOnlyClimbs(r, paths, a, k - 1);
      if r.decisions[k - 1].Move? {
        ClimbedAfterMove(r, paths, a, k - 1);
      } else {
        ClimbedAfterStaying(r, paths, a, k - 1);
      }
    }
  }

  /** Over any stretch of any run in which the paths do not change, a path that is moved to has not
      carried before in the stretch. */
  lemma NoPingPong(r: Run, paths: seq<NetworkPath>, a: nat, k: nat)
    requires r.Valid() && r.Unique() && a <= k < |r.looks| && Frozen(r, paths, a, k + 1)
    requires r.decisions[k].Move?
    ensures forall e :: a <= e <= k ==> r.states[e].carrying != Some(r.decisions[k].to)
  {
    CarryingOnlyClimbs(r, paths, a, k);
    var q := MoveAmong(r, paths, k);
    assert q !in Carried(r, paths, a, k);
  }

  /** And there are fewer voluntary moves in it than paths, however long it is. */
  lemma FewerMovesThanPaths(r: Run, paths: seq<NetworkPath>, a: nat, k: nat)
    requires r.Valid() && r.Unique() && a <= k <= |r.looks| && Frozen(r, paths, a, k)
    ensures paths != [] ==> VoluntaryMoves(r, a, k) < |paths|
    ensures paths == [] ==> VoluntaryMoves(r, a, k) == 0
  {
    CarryingOnlyClimbs(r, paths, a, k);
    SetFitsInSeq(Carried(r, paths, a, k), paths);
  }

  // ------------------------------------------------------------------ the explanation

  /** On a carrying path below `Good`, the reason given for staying is the truth. A reason other than
      `Proving` means no move is made on the same evidence; staying while the reason is `Proving` means
      the path has not been bad for long enough, or nothing that is better is proven; and staying leaves
      the reason as it was. */
  lemma ExplanationIsTrue(s: State, paths: seq<NetworkPath>, now: Time, cfg: Config)
    requires CarryingPath(s, paths).Some? && BandIn(CarryingPath(s, paths).value, cfg) != Good
    ensures var (next, decision) := Evaluated(s, paths, now, cfg);
            var (current, why) := (CarryingPath(s, paths).value, ExplainStaying(s, paths, now, cfg));
            && (why != Proving ==> decision == Stay)
            && (decision == Stay && why == Proving ==>
                  || !Sustained(next, current, now, cfg)
                  || (&& !Urgent(next, current, now, cfg)
                      && forall p :: p in paths && Usable(p) && p.id != current.id && IsBetter(current, p, cfg)
                                     ==> !Proven(next, p, now, cfg)))
            && (decision == Stay ==> ExplainStaying(next, paths, now, cfg) == why)
  {
    var (next, decision) := Evaluated(s, paths, now, cfg);
    var current, why := CarryingPath(s, paths).value, ExplainStaying(s, paths, now, cfg);
    var deciding := WithCarryingClocks(Forgotten(s, paths, now, cfg), current, now, cfg);
    var ready := Filter(paths, ReadyTest(deciding, current, now, cfg));
    var others := Filter(paths, OtherTest(current));
    assert forall p :: p in ready ==> p in others && IsBetter(current, p, cfg);
    if decision == Stay {
      assert next == deciding;
      FilterTwice(s.moves, InWindow(now, cfg.window), InWindow(now, cfg.window));
      if why == Proving && Sustained(next, current, now, cfg) {
        assert ready == [];
        var better :| better in others && IsBetter(current, better, cfg);
        assert better !in ready;
      }
    }
  }

  /** Another path is up at look `k`. */
  ghost predicate Other(r: Run, k: nat, p: NetworkPath)
    requires r.Shaped() && k < |r.looks| && r.Current(k).Some?
  {
    p in r.looks[k].paths && Usable(p) && p.id != r.Current(k).value.id
  }

  /** Some other path that is up is clearly better. */
  ghost predicate BetterThere(r: Run, k: nat)
    requires r.Shaped() && k < |r.looks| && r.Current(k).Some?
  {
    exists p :: Other(r, k, p) && ClearlyBetter(p, r.Current(k).value, r.cfg)
  }

  lemma OthersAre(r: Run, k: nat)
    requires r.Shaped() && k < |r.looks| && r.Current(k).Some?
    ensures var (c, others) := (r.Current(k).value, Filter(r.looks[k].paths, OtherTest(r.Current(k).value)));
            && (others == [] <==> forall p :: !Other(r, k, p))
            && ((exists p :: p in others && IsBetter(c, p, r.cfg)) <==> BetterThere(r, k))
  {
    var c := r.Current(k).value;
    var others := Filter(r.looks[k].paths, OtherTest(c));
    assert forall p :: p in others <==> Other(r, k, p);
    assert others != [] ==> others[0] in others;
    assert forall p :: ClearlyBetter(p, c, r.cfg) <==> IsBetter(c, p, r.cfg);
  }

  /** The reason given, exactly, from the history of the run: no other path is up; or none of those is clearly
      better; or the dwell is not over; or the budget is used up; or what is better has yet to prove itself. */
  lemma ReasonExactly(r: Run, k: nat)
    requires r.Valid() && k < |r.looks| && r.Current(k).Some?
    ensures ExplainStaying(r.states[k], r.looks[k].paths, r.looks[k].now, r.cfg)
            == if forall p :: !Other(r, k, p) then OnlyPath
               else if !BetterThere(r, k) then NoBetterPath
               else if !DwellOver(r, k) then Dwell
               else if !BudgetLeft(r, k) then Budget
               else Proving
  {
    OthersAre(r, k);
    DwellIsExact(r, k);
    BudgetIsExact(r, k, r.looks[k].now);
    RecentMovesAreCounted(r, k, r.looks[k].now);
  }
}
