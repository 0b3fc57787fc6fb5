/** Profiles, noticing that the carrying one is blocked, and what to try next. */
module Reprobing {
  import opened Common
  import opened ProbeRacing

  datatype Kind = AmneziaWg | Hysteria2 | VlessReality {
    /** AmneziaWG needs an adapter of its own, so it can only be tried by bringing it up. */
    predicate Probeable() { !AmneziaWg? }
  }

  datatype BlockReason = ProbeFailed(why: Unusable) | NoResponse | LiveChecksFailed(failures: nat)

  datatype Viability = Untested | Working(at: Time) | Blocked(at: Time, reason: BlockReason)

  datatype Profile = Profile(id: ProfileId, kind: Kind, tier: Tier, viability: Viability)

  // ------------------------------------------------------------------ the block detector

  const BLOCK_AFTER: nat := 3

  datatype LiveCheck = Passed | Failed

  datatype Detection = Fine | Suspect(failures: nat) | IsBlocked(failures: nat) | AlreadyBlocked

  datatype Watch = Watch(failures: nat, reported: bool)

  const FRESH_WATCH := Watch(0, false)

  function Checked(w: Watch, check: LiveCheck): (Watch, Detection) {
    if check.Passed? then (FRESH_WATCH, Fine)
    else
      var failures := Increment(w.failures);
      if w.reported then (Watch(failures, true), AlreadyBlocked)
      else if failures >= BLOCK_AFTER then (Watch(failures, true), IsBlocked(failures))
      else (Watch(failures, false), Suspect(failures))
  }

  class BlockDetector {
    var failures: nat
    var reported: bool

    function Contents(): Watch
      reads this
    {
      Watch(failures, reported)
    }

    constructor ()
      ensures Contents() == FRESH_WATCH
    {
      failures, reported := 0, false;
    }

    method Observe(check: LiveCheck) returns (detection: Detection)
      modifies this
      ensures (Contents(), detection) == Checked(old(Contents()), check)
    {
      match check {
        case Passed =>
          failures, reported := 0, false;
          return Fine;
        case Failed =>
          failures := Increment(failures);
          if reported {
            return AlreadyBlocked;
          } else if failures >= BLOCK_AFTER {
            reported := true;
            return IsBlocked(failures);
          } else {
            return Suspect(failures);
          }
      }
    }

    method Reset()
      modifies this
      ensures Contents() == FRESH_WATCH
    {
      failures, reported := 0, false;
    }
  }

  function WatchAfter(checks: seq<LiveCheck>): Watch {
    if checks == [] then FRESH_WATCH else Checked(WatchAfter(checks[..|checks| - 1]), checks[|checks| - 1]).0
  }

  function FailuresInARow(checks: seq<LiveCheck>): nat {
    if checks == [] || checks[|checks| - 1].Passed? then 0 else 1 + FailuresInARow(checks[..|checks| - 1])
  }

  /** The detector reports a block exactly on the third failure in a row, once until a check passes. */
  lemma {:induction false} BlockIsReportedOnce(checks: seq<LiveCheck>)
    ensures var w := WatchAfter(checks);
            && (w.reported <==> FailuresInARow(checks) >= BLOCK_AFTER)
            && w.failures == (if FailuresInARow(checks) <= U32_MAX then FailuresInARow(checks) else U32_MAX)
    ensures checks != [] ==>
              var n := FailuresInARow(checks);
              Checked(WatchAfter(checks[..|checks| - 1]), checks[|checks| - 1]).1
              == if n == 0 then Fine else if n < 3 then Suspect(n) else if n == 3 then IsBlocked(3) else AlreadyBlocked
  {
    if checks != [] {
      BlockIsReportedOnce(checks[..|checks| - 1]);
    }
  }

  // ------------------------------------------------------------------ what to try next

  predicate NotBlocked(p: Profile) { !p.viability.Blocked? }

  function RetryTest(blocked: ProfileId): Profile -> bool { (p: Profile) => p.id != blocked && NotBlocked(p) }

  function TierOrder(): (Profile, Profile) -> bool { (a: Profile, b: Profile) => a.tier == Tier1 || b.tier == Tier2 }

  function IdOf(): Profile -> ProfileId { (p: Profile) => p.id }

  /** What to try after `blocked` stopped working, best tier first; nothing when every profile is blocked. */
  function PlanReprobe(profiles: seq<Profile>, blocked: ProfileId): seq<ProfileId> {
    Map(StableSort(Filter(profiles, RetryTest(blocked)), TierOrder()), IdOf())
  }

  /** The plan names exactly the other profiles that are not blocked. */
  lemma PlanIsTheUnblocked(profiles: seq<Profile>, blocked: ProfileId)
    ensures forall id :: id in PlanReprobe(profiles, blocked) <==>
              exists p :: p in profiles && p.id == id && p.id != blocked && NotBlocked(p)
  {
    var kept := Filter(profiles, RetryTest(blocked));
    var sorted := StableSort(kept, TierOrder());
    var plan := PlanReprobe(profiles, blocked);
    SameElements(sorted, kept);
    forall id ensures id in plan <==> exists p :: p in profiles && p.id == id && p.id != blocked && NotBlocked(p) {
      if id in plan {
        var i :| 0 <= i < |plan| && plan[i] == id;
        assert sorted[i] in sorted;
      }
      if p :| p in profiles && p.id == id && p.id != blocked && NotBlocked(p) {
        assert p in kept;
        var i :| 0 <= i < |sorted| && sorted[i] == p;
        assert plan[i] == id;
      }
    }
  }

  function InTier(tier: Tier): Profile -> bool { (p: Profile) => p.tier == tier }

  lemma {:induction false} TiersInTurn(profiles: seq<Profile>)
    ensures StableSort(profiles, TierOrder()) == Filter(profiles, InTier(Tier1)) + Filter(profiles, InTier(Tier2))
  {
    if profiles != [] {
      TiersInTurn(profiles[1..]);
      FilterHead(profiles, InTier(Tier1));
      FilterHead(profiles, InTier(Tier2));
      OneMoreByTier(profiles[0], Filter(profiles[1..], InTier(Tier1)), Filter(profiles[1..], InTier(Tier2)),
                    Filter(profiles, InTier(Tier1)), Filter(profiles, InTier(Tier2)));
    }
  }

  lemma OneMoreByTier(p: Profile, first: seq<Profile>, second: seq<Profile>, first': seq<Profile>,
                      second': seq<Profile>)
    requires forall x :: x in first ==> x.tier == Tier1
    requires forall x :: x in second ==> x.tier == Tier2
    requires first' == (if p.tier == Tier1 then [p] + first else first)
    requires second' == (if p.tier == Tier2 then [p] + second else second)
    ensures Insert(p, first + second, TierOrder()) == first' + second'
  {
    if p.tier == Tier1 {
      InsertInFront(p, first + second);
      Regrouped([p], first, second);
    } else {
      InsertPast(p, first, second);
    }
  }

  lemma Regrouped(a: seq<Profile>, b: seq<Profile>, c: seq<Profile>)
    ensures (a + b) + c == a + (b + c)
  {
  }

  lemma InsertInFront(p: Profile, s: seq<Profile>)
    requires s == [] || TierOrder()(p, s[0])
    ensures Insert(p, s, TierOrder()) == [p] + s
  {
  }

  lemma {:induction false} InsertPast(p: Profile, first: seq<Profile>, second: seq<Profile>)
    requires p.tier == Tier2
    requires forall x :: x in first ==> x.tier == Tier1
    requires forall x :: x in second ==> x.tier == Tier2
    ensures Insert(p, first + second, TierOrder()) == first + ([p] + second)
  {
    if first == [] {
      assert first + second == second && first + ([p] + second) == [p] + second;
      InsertInFront(p, second);
    } else {
      InsertPast(p, first[1..], second);
      assert first[0].tier == Tier1;
      SplitHead(first, second);
      SplitHead(first, [p] + second);
    }
  }

  lemma SplitHead(a: seq<Profile>, b: seq<Profile>)
    requires a != []
    ensures (a + b)[0] == a[0] && (a + b)[1..] == a[1..] + b && a + b == [a[0]] + (a[1..] + b)
  {
  }

  /** The plan is the profiles of the first tier that may be retried, then those of the second, each in
      the order given. */
  lemma PlanIsBestTierFirst(profiles: seq<Profile>, blocked: ProfileId)
    ensures var kept := Filter(profiles, RetryTest(blocked));
            PlanReprobe(profiles, blocked) == Map(Filter(kept, InTier(Tier1)) + Filter(kept, InTier(Tier2)), IdOf())
  {
    TiersInTurn(Filter(profiles, RetryTest(blocked)));
  }
}
