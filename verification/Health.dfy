/** The health of an endpoint, from its probes. */
module Health {
  import opened Common
  import opened Quality

  const DEGRADED_RTT_THRESHOLD: Rtt := 250_000_000.0
  const DEGRADED_AFTER_BAD: nat := 2
  const HEALTHY_AFTER_GOOD: nat := 3
  const DEFAULT_UNREACHABLE_AFTER: nat := 3

  datatype HealthState = Unknown | Healthy | Degraded | Unreachable

  datatype ProbeOutcome = Answer(rtt: Rtt, loss: bool) | NoAnswer {
    predicate GoodQuality() { Answer? && rtt < DEGRADED_RTT_THRESHOLD && !loss }
  }

  datatype EndpointHealth = EndpointHealth(
    state: HealthState, lastProbe: Option<Time>, failures: nat, badQuality: nat, goodQuality: nat, estimate: Estimate)

  const NEVER_PROBED := EndpointHealth(Unknown, None, 0, 0, 0, NO_ESTIMATE)

  function StateAfterSuccess(prev: HealthState, bad: nat, good: nat): HealthState {
    if prev == Degraded then (if good >= HEALTHY_AFTER_GOOD then Healthy else Degraded)
    else if bad >= DEGRADED_AFTER_BAD then Degraded else Healthy
  }

  datatype Transition = Transition(next: EndpointHealth, becameUnreachable: bool)

  /** What one probe makes of an endpoint's health: the specification of `OnProbe`. */
  function Probed(h: EndpointHealth, outcome: ProbeOutcome, at: Time, unreachableAfter: nat): Transition {
    var next := match outcome
      case NoAnswer =>
        var failures := Increment(h.failures);
        var gone := h.state == Unknown || h.state == Unreachable || failures >= unreachableAfter;
        EndpointHealth(if gone then Unreachable else h.state, Some(at), failures, 0, 0, h.estimate)
      case Answer(rtt, _) =>
        var good := if outcome.GoodQuality() then Increment(h.goodQuality) else 0;
        var bad := if outcome.GoodQuality() then 0 else Increment(h.badQuality);
        EndpointHealth(StateAfterSuccess(h.state, bad, good), Some(at), 0, bad, good, h.estimate.Update(rtt));
    Transition(next, h.state != Unreachable && next.state == Unreachable)
  }

  /** One probe as the program applies it: a copy edited field by field. */
  method OnProbe(h: EndpointHealth, outcome: ProbeOutcome, at: Time, unreachableAfter: nat) returns (t: Transition)
    ensures t == Probed(h, outcome, at, unreachableAfter)
  {
    var prev := h.state;
    var next := h.(lastProbe := Some(at));
    match outcome {
      case NoAnswer =>
        next := next.(failures := Increment(h.failures));
        next := next.(badQuality := 0, goodQuality := 0);
        if prev == Unknown || prev == Unreachable || next.failures >= unreachableAfter {
          next := next.(state := Unreachable);
        }
      case Answer(rtt, _) =>
        next := next.(failures := 0, estimate := next.estimate.Update(rtt));
        if outcome.GoodQuality() {
          next := next.(goodQuality := Increment(h.goodQuality), badQuality := 0);
        } else {
          next := next.(badQuality := Increment(h.badQuality), goodQuality := 0);
        }
        next := next.(state := StateAfterSuccess(prev, next.badQuality, next.goodQuality));
    }
    t := Transition(next, prev != Unreachable && next.state == Unreachable);
  }

  // ------------------------------------------------------------------ whole runs

  datatype Probe = Probe(at: Time, outcome: ProbeOutcome)

  /** Health after a run of probes of a new endpoint. */
  function After(probes: seq<Probe>, unreachableAfter: nat): EndpointHealth {
    if probes == [] then NEVER_PROBED
    else
      var last := probes[|probes| - 1];
      Probed(After(probes[..|probes| - 1], unreachableAfter), last.outcome, last.at, unreachableAfter).next
  }

  /** How many probes at the end of the run failed. */
  function TrailingFailures(probes: seq<Probe>): (n: nat)
    ensures n <= |probes|
  {
    if probes == [] || probes[|probes| - 1].outcome.Answer? then 0 else 1 + TrailingFailures(probes[..|probes| - 1])
  }

  function RoundTrips(probes: seq<Probe>): seq<Rtt> {
    if probes == [] then []
    else
      var last := probes[|probes| - 1].outcome;
      RoundTrips(probes[..|probes| - 1]) + if last.Answer? then [last.rtt] else []
  }

  function Capped(n: nat): nat { if n <= U32_MAX then n else U32_MAX }

  /** What holds of every health that probes can lead to. The quality counters stay below the counts that
      would have changed the state; a state other than `Unknown` or `Unreachable` was earned by an answer;
      and an unreachable endpoint carries no quality memory, so its first answer makes it healthy. */
  ghost predicate Sound(h: EndpointHealth) {
    && (h.state == Healthy ==> h.badQuality < DEGRADED_AFTER_BAD)
    && (h.state == Degraded ==> h.goodQuality < HEALTHY_AFTER_GOOD)
    && (h.state == Unknown ==> h == NEVER_PROBED)
    && (h.state == Unreachable ==> h.badQuality == 0 && h.goodQuality == 0 && h.failures > 0)
  }

  lemma {:induction false} ReachableHealthIsSound(probes: seq<Probe>, unreachableAfter: nat)
    ensures Sound(After(probes, unreachableAfter))
    ensures After(probes, unreachableAfter).state == Unknown <==> probes == []
  {
    if probes != [] {
      ReachableHealthIsSound(probes[..|probes| - 1], unreachableAfter);
    }
  }

  /** Recovery is never blocked: whatever led to `Unreachable`, one answer of any quality makes it healthy. */
  lemma AnyAnswerRecovers(probes: seq<Probe>, unreachableAfter: nat, outcome: ProbeOutcome, at: Time)
    requires After(probes, unreachableAfter).state == Unreachable && outcome.Answer?
    ensures Probed(After(probes, unreachableAfter), outcome, at, unreachableAfter).next.state == Healthy
  {
    ReachableHealthIsSound(probes, unreachableAfter);
  }

  /** An endpoint is unreachable exactly when its last probes failed `unreachable_after` times in a row, or
      it failed and has never answered. */
  lemma {:induction false} UnreachableExactly(probes: seq<Probe>, unreachableAfter: nat)
    requires unreachableAfter <= U32_MAX
    ensures var (h, failed) := (After(probes, unreachableAfter), TrailingFailures(probes));
            && h.failures == Capped(failed)
            && (h.state == Unreachable <==> failed > 0 && (failed >= unreachableAfter || failed == |probes|))
  {
    if probes != [] {
      UnreachableExactly(probes[..|probes| - 1], unreachableAfter);
      ReachableHealthIsSound(probes[..|probes| - 1], unreachableAfter);
    }
  }

  /** The round-trip estimate is the RFC 6298 estimate over the answers alone; the time of the last probe, whether
      it was answered or not, is kept. */
  lemma {:induction false} EstimateIsOfAnswers(probes: seq<Probe>, unreachableAfter: nat)
    ensures After(probes, unreachableAfter).estimate == EstimateOf(RoundTrips(probes))
    ensures After(probes, unreachableAfter).lastProbe == if probes == [] then None else Some(probes[|probes| - 1].at)
  {
    if probes != [] {
      var before := probes[..|probes| - 1];
      EstimateIsOfAnswers(before, unreachableAfter);
      if probes[|probes| - 1].outcome.Answer? {
        assert RoundTrips(probes)[..|RoundTrips(probes)| - 1] == RoundTrips(before);
      } else {
        assert RoundTrips(probes) == RoundTrips(before);
      }
    }
  }

  // ------------------------------------------------------------------ quality, from the history

  predicate GoodAt(probes: seq<Probe>, i: nat)
    requires i < |probes|
  {
    var o := probes[i].outcome;
    o.Answer? && o.rtt < 250_000_000.0 && !o.loss
  }

  predicate BadAt(probes: seq<Probe>, i: nat)
    requires i < |probes|
  {
    var o := probes[i].outcome;
    o.Answer? && (o.rtt >= 250_000_000.0 || o.loss)
  }

  /** How many probes at the end of the run were good (or, for `good == false`, bad) answers. */
  function Trailing(probes: seq<Probe>, good: bool): (n: nat)
    ensures n <= |probes|
  {
    if probes == [] then 0
    else
      var last := |probes| - 1;
      if (if good then GoodAt(probes, last) else BadAt(probes, last)) then 1 + Trailing(probes[..last], good) else 0
  }

  lemma {:induction false} QualityCountersAreExact(probes: seq<Probe>, unreachableAfter: nat)
    ensures After(probes, unreachableAfter).badQuality == Capped(Trailing(probes, false))
    ensures After(probes, unreachableAfter).goodQuality == Capped(Trailing(probes, true))
  {
    if probes != [] {
      QualityCountersAreExact(probes[..|probes| - 1], unreachableAfter);
    }
  }

  /** The run of probes up to `i` ends in two bad answers in a row. */
  predicate TwoBad(probes: seq<Probe>, i: nat)
    requires i < |probes|
  {
    i > 0 && BadAt(probes, i - 1) && BadAt(probes, i)
  }

  predicate ThreeGood(probes: seq<Probe>, i: nat)
    requires i < |probes|
  {
    i > 1 && GoodAt(probes, i - 2) && GoodAt(probes, i - 1) && GoodAt(probes, i)
  }

  /** At probe `i` the endpoint is given up. */
  predicate Gone(probes: seq<Probe>, unreachableAfter: nat, i: nat)
    requires i < |probes|
  {
    probes[i].outcome.NoAnswer? && TrailingFailures(probes[..i + 1]) >= unreachableAfter
  }

  /** Two bad answers in a row ended at `i`, and nothing since has taken that back. */
  ghost predicate DegradedSince(probes: seq<Probe>, unreachableAfter: nat, i: nat) {
    && i < |probes| && TwoBad(probes, i)
    && forall j :: i < j < |probes| ==> !ThreeGood(probes, j) && !Gone(probes, unreachableAfter, j)
  }

  lemma SincePrefix(probes: seq<Probe>, unreachableAfter: nat, i: nat)
    requires probes != []
    ensures var n := |probes| - 1;
            DegradedSince(probes, unreachableAfter, i)
            <==> (i == n && TwoBad(probes, n))
                 || (i < n && DegradedSince(probes[..n], unreachableAfter, i)
                     && !ThreeGood(probes, n) && !Gone(probes, unreachableAfter, n))
  {
    var n := |probes| - 1;
    forall j | 0 <= j < n
      ensures ThreeGood(probes, j) <==> ThreeGood(probes[..n], j)
      ensures Gone(probes, unreachableAfter, j) <==> Gone(probes[..n], unreachableAfter, j)
    {
      assert probes[..n][..j + 1] == probes[..j + 1];
    }
  }

  lemma TrailingThree(probes: seq<Probe>)
    requires probes != []
    ensures Trailing(probes, true) >= 3 <==> ThreeGood(probes, |probes| - 1)
    ensures Trailing(probes, false) >= 2 <==> TwoBad(probes, |probes| - 1)
  {
    var n := |probes| - 1;
    if n > 0 {
      var one := probes[..n];
      if n > 1 {
        assert one[..n - 1] == probes[..n - 1];
      }
    }
  }

  /** One step of `Degraded`: entered by two bad answers in a row, kept until three good ones or giving up. */
  lemma DegradedStep(probes: seq<Probe>, unreachableAfter: nat)
    requires probes != [] && unreachableAfter <= U32_MAX
    ensures var (n, before) := (|probes| - 1, After(probes[..|probes| - 1], unreachableAfter).state);
            After(probes, unreachableAfter).state == Degraded
            <==> TwoBad(probes, n)
                 || (before == Degraded && !ThreeGood(probes, n) && !Gone(probes, unreachableAfter, n))
  {
    var n := |probes| - 1;
    QualityCountersAreExact(probes[..n], unreachableAfter);
    QualityCountersAreExact(probes, unreachableAfter);
    UnreachableExactly(probes[..n], unreachableAfter);
    UnreachableExactly(probes, unreachableAfter);
    TrailingThree(probes);
    assert probes[..n + 1] == probes;
    if TwoBad(probes, n) {
      assert probes[..n][n - 1].outcome.Answer?;
    }
  }

  /** An endpoint is degraded exactly when it gave two bad answers in a row and has since neither given three
      good ones in a row nor been given up. */
  lemma {:induction false} DegradedExactly(probes: seq<Probe>, unreachableAfter: nat)
    requires unreachableAfter <= U32_MAX
    ensures After(probes, unreachableAfter).state == Degraded <==>
              exists i :: DegradedSince(probes, unreachableAfter, i)
  {
    if probes != [] {
      var n := |probes| - 1;
      DegradedExactly(probes[..n], unreachableAfter);
      DegradedStep(probes, unreachableAfter);
      if After(probes, unreachableAfter).state == Degraded {
        if TwoBad(probes, n) {
          SincePrefix(probes, unreachableAfter, n);
        } else {
          var i :| DegradedSince(probes[..n], unreachableAfter, i);
          SincePrefix(probes, unreachableAfter, i);
        }
      }
      if i :| DegradedSince(probes, unreachableAfter, i) {
        SincePrefix(probes, unreachableAfter, i);
      }
    }
  }
}
