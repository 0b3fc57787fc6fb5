/** Whole runs of the degradation reporter: what it says is what was the case. */
module ReportingRuns {
  import opened Common
  import opened Quality
  import opened DegradationReporting

  datatype TimedLook = TimedLook(now: Time, look: Look)

  datatype Run = Run(
    degradeFor: Time, recoverFor: Time, looks: seq<TimedLook>, memories: seq<Memory>, changes: seq<Option<Change>>)
  {
    predicate Shaped() { |changes| == |looks| && |memories| == |looks| + 1 }

    predicate Follows(k: nat)
      requires Shaped() && k < |looks|
    {
      Observed(memories[k], looks[k].look, looks[k].now, degradeFor, recoverFor) == (memories[k + 1], changes[k])
    }

    ghost predicate Valid() {
      && Shaped() && memories[0] == BLANK
      && (forall k :: 0 <= k < |looks| ==> Follows(k))
      && (forall i, j :: 0 <= i <= j < |looks| ==> looks[i].now <= looks[j].now)
    }

    /** What the user was last told and has not been taken back: by a recovery, or by nothing carrying. */
    function Told(k: nat): Option<Degradation>
      requires Shaped() && k <= |looks|
    {
      if k == 0 || looks[k - 1].look.carrying.None? then None
      else match changes[k - 1]
        case None => Told(k - 1)
        case Some(BecameDegraded(d)) => Some(d)
        case Some(Recovered(_)) => None
    }

    /** A measured look that is `Good` (or, for `good == false`, below it). */
    predicate Side(k: nat, good: bool)
      requires k < |looks|
    {
      looks[k].look.band.Some? && (looks[k].look.band.value == Good <==> good)
    }

    predicate Opposite(k: nat, good: bool)
      requires k < |looks|
    {
      Side(k, !good)
    }

    /** From look `i`, which is on the given side, to `k`, one path carried and no look was on the other
        side. Looks without a measurement are allowed. */
    ghost predicate Through(i: nat, k: nat, good: bool)
      requires k < |looks|
    {
      && i <= k && Side(i, good) && looks[k].look.carrying.Some?
      && (forall e :: i <= e <= k ==> looks[e].look.carrying == looks[k].look.carrying)
      && (forall e :: i <= e <= k ==> !Opposite(e, good))
    }

    ghost predicate ThroughFor(k: nat, good: bool, long: Time)
      requires k < |looks|
    {
      exists i: nat :: Through(i, k, good) && looks[k].now - looks[i].now >= long
    }
  }

  /** A run goes on with one more look. */
  lemma RunExtends(r: Run, look: TimedLook) returns (longer: Run)
    requires r.Valid() && (|r.looks| > 0 ==> r.looks[|r.looks| - 1].now <= look.now)
    ensures longer.Valid() && longer.degradeFor == r.degradeFor && longer.recoverFor == r.recoverFor
    ensures var step := Observed(r.memories[|r.looks|], look.look, look.now, r.degradeFor, r.recoverFor);
            && longer.looks == r.looks + [look]
            && longer.memories == r.memories + [step.0] && longer.changes == r.changes + [step.1]
  {
    var step := Observed(r.memories[|r.looks|], look.look, look.now, r.degradeFor, r.recoverFor);
    longer := Run(r.degradeFor, r.recoverFor, r.looks + [look], r.memories + [step.0], r.changes + [step.1]);
    forall k | 0 <= k < |longer.looks| ensures longer.Follows(k) {
      if k < |r.looks| { assert r.Follows(k); }
    }
  }

  /** Every sequence of looks has its run. */
  lemma {:induction false} RunExists(degradeFor: Time, recoverFor: Time, looks: seq<TimedLook>) returns (r: Run)
    requires forall i, j :: 0 <= i <= j < |looks| ==> looks[i].now <= looks[j].now
    ensures r.Valid() && r.looks == looks && r.degradeFor == degradeFor && r.recoverFor == recoverFor
  {
    if looks == [] {
      r := Run(degradeFor, recoverFor, [], [BLANK], []);
    } else {
      var n := |looks| - 1;
      var before := RunExists(degradeFor, recoverFor, looks[..n]);
      r := RunExtends(before, looks[n]);
      assert looks == looks[..n] + [looks[n]];
    }
  }

  function Clock(m: Memory, good: bool): Option<Time> { if good then m.goodSince else m.poorSince }

  lemma ClockStep(r: Run, k: nat, good: bool)
    requires r.Valid() && k < |r.looks|
    ensures var kept := if r.looks[k].look.carrying == r.memories[k].carrying then Clock(r.memories[k], good) else None;
            && r.memories[k + 1].carrying == r.looks[k].look.carrying
            && Clock(r.memories[k + 1], good)
               == if r.looks[k].look.carrying.None? || r.looks[k].look.band.None? then kept
                  else if r.Side(k, good) then Since(kept, r.looks[k].now) else None
  {
    assert r.Follows(k);
  }

  /** With nothing carrying, no clock runs. */
  lemma {:induction false} NothingCarryingNoClock(r: Run, k: nat, good: bool)
    requires r.Valid() && k <= |r.looks| && r.memories[k].carrying.None?
    ensures Clock(r.memories[k], good) == None
  {
    if k > 0 {
      ClockStep(r, k - 1, good);
      if r.memories[k - 1].carrying.None? {
        NothingCarryingNoClock(r, k - 1, good);
      }
    }
  }

  /** A clock shows exactly when the current unbroken stretch on its side began. */
  lemma {:induction false} ClockIsExact(r: Run, k: nat, good: bool) returns (i: nat)
    requires r.Valid() && k < |r.looks|
    ensures Clock(r.memories[k + 1], good).Some? ==>
              r.Through(i, k, good) && Clock(r.memories[k + 1], good).value == r.looks[i].now
    ensures forall j :: r.Through(j, k, good) ==> Clock(r.memories[k + 1], good).Some? && i <= j
  {
    ClockStep(r, k, good);
    i := k;
    if r.looks[k].look.carrying.None? {
      NothingCarryingNoClock(r, k + 1, good);
    } else if k > 0 {
      ClockStep(r, k - 1, good);
      if r.looks[k - 1].look.carrying == r.looks[k].look.carrying {
        var before := ClockIsExact(r, k - 1, good);
        forall j: nat | j < k && r.Through(j, k, good) ensures r.Through(j, k - 1, good) {
        }
        if Clock(r.memories[k], good).Some? {
          i := before;
        }
      } else {
        forall j: nat | r.Through(j, k, good) ensures j == k {
        }
      }
    }
    forall j: nat | r.Through(j, k, good) ensures Clock(r.memories[k + 1], good).Some? && i <= j {
      assert !r.Opposite(k, good);
    }
  }

  lemma HeldMeansThroughFor(r: Run, k: nat, good: bool, long: Time)
    requires r.Valid() && k < |r.looks|
    ensures Held(r.looks[k].now, Clock(r.memories[k + 1], good), long) <==> r.ThroughFor(k, good, long)
  {
    var i := ClockIsExact(r, k, good);
  }

  lemma MemoryStep(r: Run, k: nat)
    requires r.Valid() && k < |r.looks|
    ensures var (before, after, l) := (r.memories[k].reported, r.memories[k + 1].reported, r.looks[k].look);
            if l.carrying.None? then after == None && r.changes[k] == None
            else if r.Side(k, true) && Held(r.looks[k].now, Clock(r.memories[k + 1], true), r.recoverFor) then
              after == None && r.changes[k] == if before.Some? then Some(Recovered(l.carrying.value)) else None
            else if r.Side(k, false) && Held(r.looks[k].now, Clock(r.memories[k + 1], false), r.degradeFor) then
              var d := Degradation(l.carrying.value, l.band.value, l.staying);
              after == Some(d) && r.changes[k] == if IsNews(before, d) then Some(BecameDegraded(d)) else None
            else after == before && r.changes[k] == None
  {
    assert r.Follows(k);
  }

  /** What the reporter holds is what the user was told and has not been taken back: the same path and
      the same reason, and never a worse band than was announced. */
  lemma {:induction false} ReportedIsTold(r: Run, k: nat)
    requires r.Valid() && k <= |r.looks|
    ensures r.memories[k].reported.Some? <==> r.Told(k).Some?
    ensures r.Told(k).Some? ==>
              var (held, told) := (r.memories[k].reported.value, r.Told(k).value);
              && held.path == told.path && held.staying == told.staying
              && held.band != Good && told.band != Good
              && (held.band == Unusable ==> told.band == Unusable)
  {
    if k > 0 {
      ReportedIsTold(r, k - 1);
      MemoryStep(r, k - 1);
    }
  }

  /** "Recovered" is said exactly when a degradation stands and one path has carried, without a look
      below `Good`, for `recover_for` from a `Good` look to a `Good` look. */
  lemma RecoveredExactly(r: Run, k: nat)
    requires r.Valid() && k < |r.looks|
    ensures r.changes[k].Some? && r.changes[k].value.Recovered? <==>
              r.Told(k).Some? && r.Side(k, true) && r.ThroughFor(k, true, r.recoverFor)
    ensures r.changes[k].Some? && r.changes[k].value.Recovered? ==>
              r.looks[k].look.carrying == Some(r.changes[k].value.path)
  {
    ReportedIsTold(r, k);
    MemoryStep(r, k);
    HeldMeansThroughFor(r, k, true, r.recoverFor);
  }

  /** What look `k` sees of a path below `Good`. */
  function Seen(r: Run, k: nat): Degradation
    requires k < |r.looks| && r.looks[k].look.carrying.Some? && r.looks[k].look.band.Some?
  {
    Degradation(r.looks[k].look.carrying.value, r.looks[k].look.band.value, r.looks[k].look.staying)
  }

  /** The degradation that stands before look `k`, read off the looks alone: the last look below `Good` that
      ended a long enough stretch below it, unless a long enough good stretch or a look with nothing carrying
      came after. */
  ghost function Stands(r: Run, k: nat): Option<Degradation>
    requires k <= |r.looks|
  {
    if k == 0 || r.looks[k - 1].look.carrying.None? then None
    else if r.Side(k - 1, true) && r.ThroughFor(k - 1, true, r.recoverFor) then None
    else if r.Side(k - 1, false) && r.ThroughFor(k - 1, false, r.degradeFor) then Some(Seen(r, k - 1))
    else Stands(r, k - 1)
  }

  /** What the reporter holds is what stands. */
  lemma {:induction false} ReportedStands(r: Run, k: nat)
    requires r.Valid() && k <= |r.looks|
    ensures r.memories[k].reported == Stands(r, k)
  {
    if k > 0 {
      ReportedStands(r, k - 1);
      MemoryStep(r, k - 1);
      HeldMeansThroughFor(r, k - 1, true, r.recoverFor);
      HeldMeansThroughFor(r, k - 1, false, r.degradeFor);
    }
  }

  /** "Degraded" is said exactly when one path has carried, without a `Good` look, for `degrade_for` from a
      look below `Good` to this one, and the path, the reason or an unusable band is news against what stands;
      and it says what this look sees. */
  lemma DegradedExactly(r: Run, k: nat)
    requires r.Valid() && k < |r.looks|
    ensures r.changes[k].Some? && r.changes[k].value.BecameDegraded? <==>
              && r.Side(k, false) && r.ThroughFor(k, false, r.degradeFor)
              && (|| Stands(r, k).None?
                  || Stands(r, k).value.path != Seen(r, k).path || Stands(r, k).value.staying != Seen(r, k).staying
                  || (Seen(r, k).band == Unusable && Stands(r, k).value.band != Unusable))
    ensures r.changes[k].Some? && r.changes[k].value.BecameDegraded? ==> r.changes[k].value.what == Seen(r, k)
  {
    ReportedStands(r, k);
    MemoryStep(r, k);
    HeldMeansThroughFor(r, k, false, r.degradeFor);
  }

  /** From look `j` to look `k` something carried at every look and no recovery was said. */
  ghost predicate StandsThrough(r: Run, j: nat, k: nat)
    requires r.Shaped() && k <= |r.looks|
  {
    forall e :: j <= e < k ==>
      r.looks[e].look.carrying.Some? && !(r.changes[e].Some? && r.changes[e].value.Recovered?)
  }

  /** What was announced at `j` still stands before `k`, or something announced since. */
  lemma {:induction false} StillStands(r: Run, j: nat, k: nat)
    requires r.Valid() && j < k <= |r.looks| && StandsThrough(r, j, k)
    requires r.changes[j].Some? && r.changes[j].value.BecameDegraded?
    requires forall e :: j < e < k ==> r.changes[e].None?
    ensures Stands(r, k).Some?
    ensures var (d, held) := (r.changes[j].value.what, Stands(r, k).value);
            && held.path == d.path && held.staying == d.staying && held.band != Good
            && (held.band == Unusable || exists e :: j <= e < k && r.looks[e].look.band == Some(Poor))
  {
    if k == j + 1 {
      DegradedExactly(r, j);
      ReportedStands(r, j + 1);
      MemoryStep(r, j);
      HeldMeansThroughFor(r, j, false, r.degradeFor);
      if Stands(r, k).value.band != Unusable { assert r.looks[j].look.band == Some(Poor); }
    } else {
      StillStands(r, j, k - 1);
      DegradedExactly(r, k - 1);
      RecoveredExactly(r, k - 1);
      ReportedStands(r, k - 1);
      ReportedIsTold(r, k - 1);
      if r.Side(k - 1, false) && r.ThroughFor(k - 1, false, r.degradeFor) {
        if Stands(r, k).value.band != Unusable { assert r.looks[k - 1].look.band == Some(Poor); }
      }
    }
  }

  /** An unchanged degradation is announced once: of two announcements with none between, while something
      carries and no recovery is said, the second names another path or another reason, or says that the path
      has become unusable after it was seen to be poor. */
  lemma AnnouncedOnce(r: Run, j: nat, k: nat)
    requires r.Valid() && j < k < |r.looks| && StandsThrough(r, j, k)
    requires r.changes[j].Some? && r.changes[j].value.BecameDegraded?
    requires r.changes[k].Some? && r.changes[k].value.BecameDegraded?
    requires forall e :: j < e < k ==> r.changes[e].None?
    ensures var (d, again) := (r.changes[j].value.what, r.changes[k].value.what);
            || again.path != d.path || again.staying != d.staying
            || (again.band == Unusable && exists e :: j <= e < k && r.looks[e].look.band == Some(Poor))
  {
    StillStands(r, j, k);
    DegradedExactly(r, k);
  }
}
