/** Whole runs of the failover machine: every clock and counter it keeps is an exact summary of what
    it has seen and decided, so its decisions can be read off the history alone. */
module FailoverRuns {
  import opened Common
  import opened Quality
  import opened Failover

  datatype Look = Look(now: Time, paths: seq<NetworkPath>)

  ghost predicate TimeIsOrdered(looks: seq<Look>) {
    forall i, j :: 0 <= i <= j < |looks| ==> looks[i].now <= looks[j].now
  }

  /** A run: what was looked at, the state before each look and after the last, and what each decided. */
  datatype Run = Run(cfg: Config, looks: seq<Look>, states: seq<State>, decisions: seq<Decision>) {

    predicate Shaped() { |decisions| == |looks| && |states| == |looks| + 1 }

    predicate Follows(k: nat)
      requires Shaped() && k < |looks|
    {
      Evaluated(states[k], looks[k].paths, looks[k].now, cfg) == (states[k + 1], decisions[k])
    }

    /** The machine starts with nothing carrying, or on an adopted path; each step is an evaluation;
        time does not go back. */
    ghost predicate Valid() {
      && Shaped()
      && (states[0] == NEW || (states[0].carrying.Some? && states[0] == CarryingOn(states[0].carrying.value)))
      && FollowsTo(|looks|)
      && TimeIsOrdered(looks)
    }

    /** Each of the first `n` steps is an evaluation. */
    ghost predicate FollowsTo(n: nat)
      requires Shaped() && n <= |looks|
    {
      forall k :: 0 <= k < n ==> Follows(k)
    }

    /** The system lists each interface once. */
    ghost predicate Unique() {
      forall i :: 0 <= i < |looks| ==> UniqueIds(looks[i].paths)
    }

    predicate Moves(k: nat, reason: Reason)
      requires Shaped() && k < |looks|
    {
      decisions[k].Move? && decisions[k].reason == reason
    }

    /** Moves that replaced something carrying traffic. */
    predicate Counted(k: nat)
      requires Shaped() && k < |looks|
    {
      decisions[k].Move? && decisions[k].reason != Acquired
    }

    predicate Voluntary(k: nat)
      requires Shaped() && k < |looks|
    {
      Moves(k, Degraded) || Moves(k, Preferred)
    }

    // ---------------------------------------------------------------- history

    /** When the counted moves among the first `k` evaluations were made. */
    function CountedTimes(k: nat): seq<Time>
      requires Shaped() && k <= |looks|
    {
      if k == 0 then []
      else CountedTimes(k - 1) + if Counted(k - 1) then [looks[k - 1].now] else []
    }

    /** The counted moves among the first `k` evaluations that are less than a window old at `now`. */
    ghost function RecentMoves(k: nat, now: Time): set<nat>
      requires Shaped() && k <= |looks|
    {
      set i: nat | i < k && Counted(i) && now < looks[i].now + cfg.window
    }

    /** When the moves forced by a lost link among the first `k` evaluations were made. */
    function LostTimes(k: nat): seq<Time>
      requires Shaped() && k <= |looks|
    {
      if k == 0 then []
      else LostTimes(k - 1) + if Moves(k - 1, LinkLost) then [looks[k - 1].now] else []
    }

    /** The last counted move since the last time there was no path at all. */
    function LastMove(k: nat): Option<Time>
      requires Shaped() && k <= |looks|
    {
      if k == 0 || decisions[k - 1].NoPath? then None
      else if Counted(k - 1) then Some(looks[k - 1].now)
      else LastMove(k - 1)
    }

    function Current(k: nat): Option<NetworkPath>
      requires Shaped() && k < |looks|
    {
      CarryingPath(states[k], looks[k].paths)
    }

    predicate GoodAt(k: nat, id: InterfaceId)
      requires k < |looks|
    {
      exists p :: p in looks[k].paths && p.id == id && ProvingGood(p, cfg)
    }

    /** Listed, usable, measured and `Good` at every evaluation from `i` to `k`. */
    ghost predicate GoodThrough(i: nat, k: nat, id: InterfaceId)
      requires k < |looks|
    {
      forall e :: i <= e <= k ==> GoodAt(e, id)
    }

    /** The carrying path is up, but no better than `band`. */
    predicate BadAt(k: nat, band: Band)
      requires Shaped() && k < |looks|
    {
      Current(k).Some? && !band.Below(BandIn(Current(k).value, cfg))
    }

    /** One path carried from `i` to `k`, no better than `band` at any evaluation. */
    ghost predicate BadThrough(i: nat, k: nat, band: Band)
      requires Shaped() && k < |looks|
    {
      && (forall e :: i <= e <= k ==> BadAt(e, band))
      && (forall e :: i <= e < k ==> decisions[e] == Stay)
    }

    ghost predicate GoodFor(k: nat, id: InterfaceId, long: Time)
      requires k < |looks|
    {
      exists i: nat :: i <= k && GoodThrough(i, k, id) && looks[k].now - looks[i].now >= long
    }

    ghost predicate BadFor(k: nat, band: Band, long: Time)
      requires Shaped() && k < |looks|
    {
      exists i: nat :: i <= k && BadThrough(i, k, band) && looks[k].now - looks[i].now >= long
    }
  }

  lemma StillFollows(r: Run, longer: Run, k: nat)
    requires r.Shaped() && longer.Shaped() && k < |r.looks| && r.cfg == longer.cfg
    requires r.looks <= longer.looks && r.states <= longer.states && r.decisions <= longer.decisions && r.Follows(k)
    ensures longer.Follows(k)
  {
  }

  lemma StillFollowsTo(r: Run, longer: Run)
    requires r.Shaped() && longer.Shaped() && longer.cfg == r.cfg && |r.looks| <= |longer.looks|
    requires r.looks <= longer.looks && r.states <= longer.states && r.decisions <= longer.decisions
    requires r.FollowsTo(|r.looks|)
    ensures longer.FollowsTo(|r.looks|)
  {
    forall k | 0 <= k < |r.looks| ensures longer.Follows(k) {
      StillFollows(r, longer, k);
    }
  }

  lemma OneMoreFollows(r: Run, n: nat)
    requires r.Shaped() && n < |r.looks| && r.FollowsTo(n)
    requires Evaluated(r.states[n], r.looks[n].paths, r.looks[n].now, r.cfg) == (r.states[n + 1], r.decisions[n])
    ensures r.FollowsTo(n + 1)
  {
    assert r.Follows(n);
  }

  lemma TimeGoesOn(looks: seq<Look>, look: Look)
    requires TimeIsOrdered(looks) && (|looks| > 0 ==> looks[|looks| - 1].now <= look.now)
    ensures TimeIsOrdered(looks + [look])
  {
  }

  lemma ExtensionFollows(r: Run, look: Look, longer: Run, step: (State, Decision))
    requires r.Shaped() && r.FollowsTo(|r.looks|)
    requires step == Evaluated(r.states[|r.looks|], look.paths, look.now, r.cfg)
    requires longer == Run(r.cfg, r.looks + [look], r.states + [step.0], r.decisions + [step.1])
    ensures longer.Shaped() && longer.FollowsTo(|longer.looks|)
  {
    StillFollowsTo(r, longer);
    OneMoreFollows(longer, |r.looks|);
  }

  /** A run goes on with one more look. */
  lemma RunExtends(r: Run, look: Look) returns (longer: Run)
    requires r.Valid()
    requires |r.looks| > 0 ==> r.looks[|r.looks| - 1].now <= look.now
    ensures longer.Valid() && longer.cfg == r.cfg && longer.looks == r.looks + [look]
    ensures var step := Evaluated(r.states[|r.looks|], look.paths, look.now, r.cfg);
            longer.states == r.states + [step.0] && longer.decisions == r.decisions + [step.1]
  {
    var step := Evaluated(r.states[|r.looks|], look.paths, look.now, r.cfg);
    longer := Run(r.cfg, r.looks + [look], r.states + [step.0], r.decisions + [step.1]);
    ExtensionFollows(r, look, longer, step);
    TimeGoesOn(r.looks, look);
  }

  lemma EmptyRun(cfg: Config, adopted: Option<InterfaceId>) returns (r: Run)
    ensures r.Valid() && r.cfg == cfg && r.looks == [] && r.states[0].carrying == adopted
  {
    r := Run(cfg, [], [if adopted.Some? then CarryingOn(adopted.value) else NEW], []);
  }

  lemma SplitLast(looks: seq<Look>)
    requires looks != [] && TimeIsOrdered(looks)
    ensures var n := |looks| - 1;
            && TimeIsOrdered(looks[..n]) && looks == looks[..n] + [looks[n]]
            && (n > 0 ==> looks[..n][n - 1].now <= looks[n].now)
  {
  }

  /** Every sequence of looks, from either start, has its run. */
  lemma {:induction false} RunExists(cfg: Config, adopted: Option<InterfaceId>, looks: seq<Look>) returns (r: Run)
    requires TimeIsOrdered(looks)
    ensures r.Valid() && r.cfg == cfg && r.looks == looks && r.states[0].carrying == adopted
  {
    if looks == [] {
      r := EmptyRun(cfg, adopted);
    } else {
      SplitLast(looks);
      var n := |looks| - 1;
      var before := RunExists(cfg, adopted, looks[..n]);
      r := RunExtends(before, looks[n]);
    }
  }

  // ------------------------------------------------------------------ the budget (SC-007)

  lemma BudgetStep(r: Run, k: nat)
    requires r.Valid() && k < |r.looks|
    ensures r.states[k + 1].moves
            == Filter(r.states[k].moves, InWindow(r.looks[k].now, r.cfg.window))
               + (if r.Counted(k) then [r.looks[k].now] else [])
    ensures r.Voluntary(k) ==> |Filter(r.states[k].moves, InWindow(r.looks[k].now, r.cfg.window))| < r.cfg.maxMoves
  {
    assert r.Follows(k);
  }

  lemma {:induction false} CountedTimesArePast(r: Run, k: nat, t: Time)
    requires r.Valid() && k <= |r.looks|
    requires k > 0 ==> r.looks[k - 1].now <= t
    ensures forall at :: at in r.CountedTimes(k) ==> at <= t
  {
    if k > 0 {
      CountedTimesArePast(r, k - 1, t);
    }
  }

  /** What a later window keeps does not depend on what an earlier window already dropped. */
  lemma LaterWindowForgetsMore(moves: seq<Time>, made: seq<Time>, now: Time, t: Time, window: Time)
    requires now <= t
    ensures Filter(Filter(moves, InWindow(now, window)) + made, InWindow(t, window))
            == Filter(moves, InWindow(t, window)) + Filter(made, InWindow(t, window))
  {
    FilterConcat(Filter(moves, InWindow(now, window)), made, InWindow(t, window));
    FilterTwice(moves, InWindow(now, window), InWindow(t, window));
  }

  /** The stored moves are the counted moves of the whole history, as far as any later window can see. */
  lemma {:induction false} BudgetIsExact(r: Run, k: nat, t: Time)
    requires r.Valid() && k <= |r.looks|
    requires k > 0 ==> r.looks[k - 1].now <= t
    ensures Filter(r.states[k].moves, InWindow(t, r.cfg.window)) == Filter(r.CountedTimes(k), InWindow(t, r.cfg.window))
  {
    if k > 0 {
      var now, w := r.looks[k - 1].now, r.cfg.window;
      var made := if r.Counted(k - 1) then [now] else [];
      BudgetStep(r, k - 1);
      BudgetIsExact(r, k - 1, t);
      LaterWindowForgetsMore(r.states[k - 1].moves, made, now, t, w);
      FilterConcat(r.CountedTimes(k - 1), made, InWindow(t, w));
    }
  }

  lemma RecentMovesStep(r: Run, k: nat, now: Time)
    requires r.Shaped() && k < |r.looks|
    ensures |r.RecentMoves(k + 1, now)|
            == |r.RecentMoves(k, now)| + if r.Counted(k) && now < r.looks[k].now + r.cfg.window then 1 else 0
  {
    if r.Counted(k) && now < r.looks[k].now + r.cfg.window {
      assert r.RecentMoves(k + 1, now) == r.RecentMoves(k, now) + {k};
    } else {
      assert r.RecentMoves(k + 1, now) == r.RecentMoves(k, now);
    }
  }

  lemma CountedStep(r: Run, k: nat, now: Time)
    requires r.Shaped() && k < |r.looks| && r.looks[k].now <= now
    ensures |Filter(r.CountedTimes(k + 1), InWindow(now, r.cfg.window))|
            == |Filter(r.CountedTimes(k), InWindow(now, r.cfg.window))|
               + if r.Counted(k) && now < r.looks[k].now + r.cfg.window then 1 else 0
  {
    FilterOneMore(r.CountedTimes(k), if r.Counted(k) then [r.looks[k].now] else [], InWindow(now, r.cfg.window));
  }

  lemma {:induction false} RecentMovesAreCounted(r: Run, k: nat, now: Time)
    requires r.Shaped() && k <= |r.looks| && forall i :: 0 <= i < k ==> r.looks[i].now <= now
    ensures |r.RecentMoves(k, now)| == |Filter(r.CountedTimes(k), InWindow(now, r.cfg.window))|
  {
    if k == 0 {
      assert r.RecentMoves(0, now) == {};
    } else {
      RecentMovesAreCounted(r, k - 1, now);
      CountedStep(r, k - 1, now);
      RecentMovesStep(r, k - 1, now);
    }
  }

  /** SC-007: whenever the machine makes a voluntary move, that move and every counted move before it
      within the window number at most `max_moves`, on every run and however the paths behave. */
  lemma VoluntaryMovesKeepTheBudget(r: Run, k: nat)
    requires r.Valid() && k < |r.looks| && r.Voluntary(k)
    ensures |r.RecentMoves(k + 1, r.looks[k].now)| <= r.cfg.maxMoves
  {
    WindowKeepsTheBudget(r, k);
    RecentMovesAreCounted(r, k + 1, r.looks[k].now);
  }

  lemma WindowKeepsTheBudget(r: Run, k: nat)
    requires r.Valid() && k < |r.looks| && r.Voluntary(k)
    ensures |Filter(r.CountedTimes(k + 1), InWindow(r.looks[k].now, r.cfg.window))| <= r.cfg.maxMoves
  {
    var now := r.looks[k].now;
    BudgetStep(r, k);
    BudgetIsExact(r, k, now);
    FilterConcat(r.CountedTimes(k), [now], InWindow(now, r.cfg.window));
  }

  function InStretch(from: Time, long: Time): Time -> bool { (at: Time) => from <= at < from + long }

  /** How many counted (lost-link) moves of the first `k` evaluations fall in the window from `from` on. */
  function CountedInStretch(r: Run, k: nat, from: Time): nat
    requires r.Shaped() && k <= |r.looks|
  {
    |Filter(r.CountedTimes(k), InStretch(from, r.cfg.window))|
  }

  function LostInStretch(r: Run, k: nat, from: Time): nat
    requires r.Shaped() && k <= |r.looks|
  {
    |Filter(r.LostTimes(k), InStretch(from, r.cfg.window))|
  }

  lemma StretchAtVoluntaryMove(r: Run, k: nat, from: Time)
    requires r.Valid() && k < |r.looks| && r.Voluntary(k)
    requires from <= r.looks[k].now < from + r.cfg.window
    ensures CountedInStretch(r, k + 1, from) <= r.cfg.maxMoves
  {
    WindowKeepsTheBudget(r, k);
    CountedTimesArePast(r, k + 1, r.looks[k].now);
    FilterNarrower(r.CountedTimes(k + 1), InStretch(from, r.cfg.window), InWindow(r.looks[k].now, r.cfg.window));
  }

  lemma FilterOneMore(s: seq<Time>, more: seq<Time>, keep: Time -> bool)
    requires |more| <= 1
    ensures |Filter(s + more, keep)| == |Filter(s, keep)| + (if more != [] && keep(more[0]) then 1 else 0)
  {
    FilterConcat(s, more, keep);
  }

  lemma StretchStep(r: Run, k: nat, from: Time)
    requires r.Valid() && k < |r.looks|
    ensures var inside := from <= r.looks[k].now < from + r.cfg.window;
            && CountedInStretch(r, k + 1, from)
                 == CountedInStretch(r, k, from) + (if r.Counted(k) && inside then 1 else 0)
            && LostInStretch(r, k + 1, from)
                 == LostInStretch(r, k, from) + (if r.Moves(k, LinkLost) && inside then 1 else 0)
  {
    var now, stretch := r.looks[k].now, InStretch(from, r.cfg.window);
    FilterOneMore(r.CountedTimes(k), if r.Counted(k) then [now] else [], stretch);
    FilterOneMore(r.LostTimes(k), if r.Moves(k, LinkLost) then [now] else [], stretch);
  }

  lemma StretchBoundStep(r: Run, k: nat, from: Time)
    requires r.Valid() && k < |r.looks|
    requires CountedInStretch(r, k, from) <= r.cfg.maxMoves + LostInStretch(r, k, from)
    ensures CountedInStretch(r, k + 1, from) <= r.cfg.maxMoves + LostInStretch(r, k + 1, from)
  {
    StretchStep(r, k, from);
    if r.Voluntary(k) && from <= r.looks[k].now < from + r.cfg.window {
      StretchAtVoluntaryMove(r, k, from);
    }
  }

  /** No stretch of one window, placed anywhere in any run, holds more than `max_moves` moves beyond
      the ones forced by a lost link. Quality alone, however it fluctuates, never exceeds the cap. */
  lemma {:induction false} EveryStretchKeepsTheBudget(r: Run, k: nat, from: Time)
    requires r.Valid() && k <= |r.looks|
    ensures CountedInStretch(r, k, from) <= r.cfg.maxMoves + LostInStretch(r, k, from)
  {
    if k > 0 {
      EveryStretchKeepsTheBudget(r, k - 1, from);
      StretchBoundStep(r, k - 1, from);
    }
  }

  // ------------------------------------------------------------------ the dwell

  lemma DwellStep(r: Run, k: nat)
    requires r.Valid() && k < |r.looks|
    ensures r.states[k + 1].movedAt
            == if r.decisions[k].NoPath? then None else if r.Counted(k) then Some(r.looks[k].now)
                else r.states[k].movedAt
    ensures r.Voluntary(k) ==> Dwelled(r.states[k], r.looks[k].now, r.cfg)
  {
    assert r.Follows(k);
  }

  lemma {:induction false} DwellIsExact(r: Run, k: nat)
    requires r.Valid() && k <= |r.looks|
    ensures r.states[k].movedAt == r.LastMove(k)
  {
    if k > 0 {
      DwellIsExact(r, k - 1);
      DwellStep(r, k - 1);
    }
  }

  lemma {:induction false} LastMoveIsRecent(r: Run, j: nat, k: nat)
    requires r.Valid() && j < k <= |r.looks| && r.Counted(j)
    requires forall i :: j < i < k ==> r.decisions[i] != NoPath
    ensures r.LastMove(k).Some? && r.looks[j].now <= r.LastMove(k).value <= r.looks[k - 1].now
  {
    if j < k - 1 {
      LastMoveIsRecent(r, j, k - 1);
    }
  }

  /** A voluntary move comes at least `min_dwell` after every counted move before it, unless every path
      was lost in between, which ends the dwell. */
  lemma VoluntaryMovesDwell(r: Run, j: nat, k: nat)
    requires r.Valid() && j < k < |r.looks|
    requires r.Counted(j) && r.Voluntary(k)
    requires forall i :: j < i < k ==> r.decisions[i] != NoPath
    ensures r.looks[k].now - r.looks[j].now >= r.cfg.minDwell
  {
    DwellIsExact(r, k);
    DwellStep(r, k);
    LastMoveIsRecent(r, j, k);
  }
}
