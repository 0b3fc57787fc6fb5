/** Judging a profile probe, and racing profiles. */
module ProbeRacing {
  import opened Common

  type ProfileId = string

  /** Tier 1 is preferred. */
  datatype Tier = Tier1 | Tier2

  const USABLE_MIN_BYTES: nat := 64 * 1024
  const USABLE_MIN_BITS_PER_SEC: nat := 256_000
  const TIER_GRACE: Time := 3_000_000_000
  const PROBE_DEADLINE: Time := 15_000_000_000
  const U64_MAX: nat := 0xffff_ffff_ffff_ffff
  const U128_SIZE: nat := 0x1_0000_0000_0000_0000_0000_0000_0000_0000

  datatype ProfileProbe = HandshakeFailed | HandshakeOnly | Transferred(bytes: nat, elapsed: Time)

  datatype Unusable = NoHandshake | NoTraffic | TooLittleData | TooSlow | InvalidMeasurement

  datatype Verdict = Usable(bitsPerSec: nat) | NotUsable(why: Unusable)

  function Rate(bytes: nat, elapsed: Time): nat
    requires elapsed > 0
  {
    var bits := bytes * 8 * 1_000_000_000 / elapsed;
    if bits <= U64_MAX then bits else U64_MAX
  }

  function Judge(probe: ProfileProbe): Verdict {
    match probe
    case HandshakeFailed => NotUsable(NoHandshake)
    case HandshakeOnly => NotUsable(NoTraffic)
    case Transferred(bytes, elapsed) =>
      if elapsed == 0 then NotUsable(InvalidMeasurement)
      else if bytes < USABLE_MIN_BYTES then NotUsable(TooLittleData)
      else if Rate(bytes, elapsed) < USABLE_MIN_BITS_PER_SEC then NotUsable(TooSlow)
      else Usable(Rate(bytes, elapsed))
  }

  lemma DivBounds(a: nat, c: nat)
    requires c > 0
    ensures (a / c) * c <= a < (a / c) * c + c
  {
  }

  lemma MulMonotone(p: nat, q: nat, c: nat, d: nat)
    requires p >= q && c >= d
    ensures p * c >= q * d
  {
    assert p * c >= q * c;
    assert q * c >= q * d;
  }

  lemma DivMonotone(a: nat, b: nat, c: nat, d: nat)
    requires a <= b && 0 < d <= c
    ensures a / c <= b / d
  {
    DivBounds(a, c);
    DivBounds(b, d);
    var p, q := a / c, b / d;
    assert (q + 1) * d == q * d + d;
    if p > q {
      MulMonotone(p, q + 1, c, d);
    }
  }

  /** More data in no more time is judged no worse, and the intermediate product of any 64-bit byte count
      fits in 128 bits. */
  lemma JudgeIsMonotone(bytes: nat, elapsed: Time, more: nat, less: Time)
    requires bytes <= more <= U64_MAX && 0 < less <= elapsed
    requires Judge(Transferred(bytes, elapsed)).Usable?
    ensures Judge(Transferred(more, less)).Usable?
    ensures Judge(Transferred(more, less)).bitsPerSec >= Judge(Transferred(bytes, elapsed)).bitsPerSec
    ensures more * 8 * 1_000_000_000 < U128_SIZE
  {
    DivMonotone(bytes * 8 * 1_000_000_000, more * 8 * 1_000_000_000, elapsed, less);
  }

  // ------------------------------------------------------------------ the race

  datatype Progress = Pending | Done(verdict: Verdict, at: Time)

  datatype Entry = Entry(id: ProfileId, tier: Tier, progress: Progress) {
    predicate IsUsable() { progress.Done? && progress.verdict.Usable? }
  }

  datatype RaceDecision = StillPending | Selected(profile: ProfileId, tier: Tier, bitsPerSec: nat) | NoneUsable

  datatype Report = Report(id: ProfileId, probe: ProfileProbe, at: Time)

  predicate UniqueEntries(entries: seq<Entry>) {
    forall i, j :: 0 <= i < j < |entries| ==> entries[i].id != entries[j].id
  }

  function PendingEntry(entries: seq<Entry>, id: ProfileId): (r: Option<nat>)
    ensures r.Some? ==> r.value < |entries| && entries[r.value].id == id && entries[r.value].progress.Pending?
    ensures r.None? ==> forall i :: 0 <= i < |entries| && entries[i].id == id ==> entries[i].progress.Done?
  {
    if entries == [] then None
    else if entries[0].id == id && entries[0].progress.Pending? then Some(0)
    else
      var rest := PendingEntry(entries[1..], id);
      assert forall i :: 1 <= i < |entries| ==> entries[i] == entries[1..][i - 1];
      if rest.None? then None else Some(rest.value + 1)
  }

  /** The first report of a profile stands. */
  function Recorded(entries: seq<Entry>, report: Report): seq<Entry> {
    var at := PendingEntry(entries, report.id);
    if at.None? then entries
    else entries[at.value := entries[at.value].(progress := Done(Judge(report.probe), report.at))]
  }

  function FailedAt(at: Time): Entry -> Entry {
    (e: Entry) => if e.progress.Pending? then e.(progress := Done(NotUsable(NoHandshake), at)) else e
  }

  /** Preferred strictly: better tier, then earlier. */
  predicate Wins(a: Entry, b: Entry)
    requires a.IsUsable() && b.IsUsable()
  {
    (a.tier == Tier1 && b.tier == Tier2) || (a.tier == b.tier && a.progress.at < b.progress.at)
  }

  function BestUsable(entries: seq<Entry>): (r: Option<Entry>)
    ensures r.Some? ==> r.value in entries && r.value.IsUsable()
    ensures r.None? ==> forall e :: e in entries ==> !e.IsUsable()
    ensures r.Some? ==> forall e :: e in entries && e.IsUsable() ==> !Wins(e, r.value)
  {
    if entries == [] then None
    else
      var rest := BestUsable(entries[1..]);
      if !entries[0].IsUsable() then rest
      else if rest.Some? && Wins(rest.value, entries[0]) then rest
      else Some(entries[0])
  }

  predicate AnyPending(entries: seq<Entry>) { exists e :: e in entries && e.progress.Pending? }

  predicate Tier1Pending(entries: seq<Entry>) { exists e :: e in entries && e.progress.Pending? && e.tier == Tier1 }

  function Decide(entries: seq<Entry>, now: Time): RaceDecision {
    match BestUsable(entries)
    case None => if AnyPending(entries) && now < PROBE_DEADLINE then StillPending else NoneUsable
    case Some(e) =>
      if e.tier == Tier2 && Tier1Pending(entries) && now < PROBE_DEADLINE && now < e.progress.at + TIER_GRACE
      then StillPending
      else Selected(e.id, e.tier, e.progress.verdict.bitsPerSec)
  }

  class ProbeRace {
    var entries: seq<Entry>

    constructor (profiles: seq<(ProfileId, Tier)>)
      ensures |entries| == |profiles|
      ensures forall i :: 0 <= i < |profiles| ==> entries[i] == Entry(profiles[i].0, profiles[i].1, Pending)
    {
      entries := seq(|profiles|, i requires 0 <= i < |profiles| => Entry(profiles[i].0, profiles[i].1, Pending));
    }

    /** False for an unknown profile or one that already reported. */
    method Record(report: Report) returns (taken: bool)
      modifies this
      ensures entries == Recorded(old(entries), report)
      ensures taken <==> entries != old(entries)
    {
      var at := PendingEntry(entries, report.id);
      if at.Some? {
        entries := entries[at.value := entries[at.value].(progress := Done(Judge(report.probe), report.at))];
        assert entries[at.value] != old(entries)[at.value];
      }
      taken := at.Some?;
    }

    method FailPending(at: Time)
      modifies this
      ensures entries == Map(old(entries), FailedAt(at))
    {
      var i := 0;
      while i < |entries|
        invariant i <= |entries| == |old(entries)|
        invariant forall j :: 0 <= j < i ==> entries[j] == FailedAt(at)(old(entries)[j])
        invariant forall j :: i <= j < |entries| ==> entries[j] == old(entries)[j]
      {
        if entries[i].progress.Pending? {
          entries := entries[i := entries[i].(progress := Done(NotUsable(NoHandshake), at))];
        }
        i := i + 1;
      }
    }
  }

  // ------------------------------------------------------------------ properties of the race

  function RecordAll(entries: seq<Entry>, reports: seq<Report>): seq<Entry> {
    if reports == [] then entries else Recorded(RecordAll(entries, reports[..|reports| - 1]), reports[|reports| - 1])
  }

  predicate OneEach(reports: seq<Report>) {
    forall i, j :: 0 <= i < j < |reports| ==> reports[i].id != reports[j].id
  }

  /** What an entry becomes once all reports are in, in whatever order. */
  ghost predicate SettledBy(before: Entry, after: Entry, reports: seq<Report>) {
    && (before.progress.Pending? ==> forall r :: r in reports && r.id == before.id ==>
         after == before.(progress := Done(Judge(r.probe), r.at)))
    && (before.progress.Done? || (forall r :: r in reports ==> r.id != before.id) ==> after == before)
  }

  lemma {:induction false} RecordAllSettles(entries: seq<Entry>, reports: seq<Report>)
    requires UniqueEntries(entries) && OneEach(reports)
    ensures |RecordAll(entries, reports)| == |entries|
    ensures forall i :: 0 <= i < |entries| ==> SettledBy(entries[i], RecordAll(entries, reports)[i], reports)
  {
    if reports != [] {
      var n := |reports| - 1;
      RecordAllSettles(entries, reports[..n]);
      var before, last := RecordAll(entries, reports[..n]), reports[n];
      forall i | 0 <= i < |entries| ensures SettledBy(entries[i], RecordAll(entries, reports)[i], reports) {
        SettleStep(entries, before, reports, i);
      }
    }
  }

  lemma SettleStep(entries: seq<Entry>, before: seq<Entry>, reports: seq<Report>, i: nat)
    requires UniqueEntries(entries) && OneEach(reports) && reports != [] && |before| == |entries| && i < |entries|
    requires forall j :: 0 <= j < |entries| ==> SettledBy(entries[j], before[j], reports[..|reports| - 1])
    ensures SettledBy(entries[i], Recorded(before, reports[|reports| - 1])[i], reports)
  {
    var last := reports[|reports| - 1];
    forall j | 0 <= j < |entries| ensures before[j].id == entries[j].id {
      assert SettledBy(entries[j], before[j], reports[..|reports| - 1]);
      if r :| r in reports[..|reports| - 1] && r.id == entries[j].id {
      }
    }
    assert SettledBy(entries[i], before[i], reports[..|reports| - 1]);
    forall r | r in reports ensures r == last || (r in reports[..|reports| - 1] && r.id != last.id) {
      var k :| 0 <= k < |reports| && reports[k] == r;
      if k < |reports| - 1 { assert reports[..|reports| - 1][k] == r; }
    }
    assert forall r :: r in reports[..|reports| - 1] ==> r in reports;
  }

  /** The race is fair to arrival order: the same reports, one per profile, give the same standing and the
      same decision however they are interleaved. */
  lemma OrderOfReportsDoesNotMatter(entries: seq<Entry>, a: seq<Report>, b: seq<Report>, now: Time)
    requires UniqueEntries(entries) && OneEach(a) && OneEach(b) && multiset(a) == multiset(b)
    ensures RecordAll(entries, a) == RecordAll(entries, b)
    ensures Decide(RecordAll(entries, a), now) == Decide(RecordAll(entries, b), now)
  {
    RecordAllSettles(entries, a);
    RecordAllSettles(entries, b);
    SameElements(a, b);
    var x, y := RecordAll(entries, a), RecordAll(entries, b);
    forall i | 0 <= i < |entries| ensures x[i] == y[i] {
      assert SettledBy(entries[i], x[i], a) && SettledBy(entries[i], y[i], b);
      if r :| r in a && r.id == entries[i].id {
        assert r in b;
      }
    }
  }

  /** With no new reports a decision, once made, never changes; there always is one by the deadline; and
      nobody wins exactly when nothing is usable and nothing more is awaited. */
  lemma DecisionIsFinal(entries: seq<Entry>, now: Time, later: Time)
    requires now <= later
    ensures Decide(entries, now) != StillPending ==> Decide(entries, later) == Decide(entries, now)
    ensures later >= PROBE_DEADLINE ==> Decide(entries, later) != StillPending
    ensures Decide(entries, now) == NoneUsable <==>
              (forall e :: e in entries ==> !e.IsUsable()) && (!AnyPending(entries) || now >= PROBE_DEADLINE)
  {
  }

  /** When every probe that has not reported has died, the race ends at once, with the best of those that
      had reported. */
  lemma FailingPendingEndsTheRace(entries: seq<Entry>, at: Time, now: Time)
    ensures Decide(Map(entries, FailedAt(at)), now) != StillPending
    ensures Decide(Map(entries, FailedAt(at)), now) == Decide(entries, PROBE_DEADLINE)
  {
    BestIgnoresFailed(entries, at);
    var failed := Map(entries, FailedAt(at));
    forall e | e in failed ensures e.progress.Done? {
      var i :| 0 <= i < |failed| && failed[i] == e;
    }
  }

  lemma {:induction false} BestIgnoresFailed(entries: seq<Entry>, at: Time)
    ensures BestUsable(Map(entries, FailedAt(at))) == BestUsable(entries)
  {
    if entries != [] {
      BestIgnoresFailed(entries[1..], at);
      assert Map(entries, FailedAt(at))[1..] == Map(entries[1..], FailedAt(at));
    }
  }

  /** The winner carried usable traffic and nothing usable was preferable. A Tier 2 profile wins only when
      no Tier 1 profile is usable, and none can still become so unless the grace period or the deadline
      has passed. */
  lemma WinnerIsDeserved(entries: seq<Entry>, now: Time)
    requires Decide(entries, now).Selected?
    ensures var d := Decide(entries, now);
            exists e :: && e in entries && e.IsUsable() && e.id == d.profile && e.tier == d.tier
                        && e.progress.verdict.bitsPerSec == d.bitsPerSec
                        && (forall o :: o in entries && o.IsUsable() ==> !Wins(o, e))
                        && (d.tier == Tier2 ==>
                              && (forall o :: o in entries && o.tier == Tier1 ==> !o.IsUsable())
                              && (|| now >= PROBE_DEADLINE || now >= e.progress.at + TIER_GRACE
                                  || forall o :: o in entries && o.tier == Tier1 ==> o.progress.Done?))
  {
    var e := BestUsable(entries).value;
    assert e in entries && e.IsUsable();
  }

  // ------------------------------------------------------------------ verdicts and decisions, exactly

  /** A transfer is judged usable exactly when it took some time, moved 64 KiB, and its rate is at least 256
      kbit/s; the rate is the whole bits per second, up to the largest 64-bit number. Otherwise the first of
      these that fails is the reason. */
  lemma JudgeExactly(bytes: nat, elapsed: Time)
    ensures var v := Judge(Transferred(bytes, elapsed));
            && (v == NotUsable(InvalidMeasurement) <==> elapsed == 0)
            && (v == NotUsable(TooLittleData) <==> elapsed > 0 && bytes < 65536)
            && (v == NotUsable(TooSlow) <==> elapsed > 0 && bytes >= 65536 && bytes * 8_000_000_000 < 256_000 * elapsed)
            && (v.Usable? <==> elapsed > 0 && bytes >= 65536 && bytes * 8_000_000_000 >= 256_000 * elapsed)
            && (v.Usable? ==>
                  && v.bitsPerSec <= 0xffff_ffff_ffff_ffff && v.bitsPerSec * elapsed <= bytes * 8_000_000_000
                  && (bytes * 8_000_000_000 < (v.bitsPerSec + 1) * elapsed || v.bitsPerSec == 0xffff_ffff_ffff_ffff))
  {
    if elapsed > 0 {
      var bits := bytes * 8_000_000_000;
      DivBounds(bits, elapsed);
      var q := bits / elapsed;
      assert (q + 1) * elapsed == q * elapsed + elapsed;
      if q < 256_000 {
        MulMonotone(256_000, q + 1, elapsed, elapsed);
      } else {
        MulMonotone(q, 256_000, elapsed, elapsed);
      }
      if q > U64_MAX { MulMonotone(q, U64_MAX, elapsed, elapsed); }
    }
  }

  /** A failed handshake and one without traffic are never usable. */
  lemma HandshakesAreNotUsable()
    ensures Judge(HandshakeFailed) == NotUsable(NoHandshake) && Judge(HandshakeOnly) == NotUsable(NoTraffic)
  {
  }

  /** The usable entry at place `k` comes first: Tier 1 before Tier 2, then the earlier, then the first listed. */
  ghost predicate ComesFirst(entries: seq<Entry>, k: nat) {
    && k < |entries| && entries[k].IsUsable()
    && forall i :: 0 <= i < |entries| && entries[i].IsUsable() ==>
         && (entries[i].tier == Tier1 ==> entries[k].tier == Tier1)
         && (entries[i].tier == entries[k].tier ==> entries[k].progress.at <= entries[i].progress.at)
         && (entries[i].tier == entries[k].tier && entries[i].progress.at == entries[k].progress.at ==> k <= i)
  }

  lemma {:induction false} BestComesFirst(entries: seq<Entry>) returns (k: nat)
    requires BestUsable(entries).Some?
    ensures ComesFirst(entries, k) && BestUsable(entries) == Some(entries[k])
  {
    var rest := entries[1..];
    assert forall i :: 1 <= i < |entries| ==> entries[i] == rest[i - 1];
    if entries[0].IsUsable() && (BestUsable(rest).None? || !Wins(BestUsable(rest).value, entries[0])) {
      k := 0;
      if BestUsable(rest).Some? {
        var j := BestComesFirst(rest);
      }
      assert forall i :: 0 <= i < |rest| && rest[i].IsUsable() ==> !Wins(rest[i], entries[0]);
    } else {
      var j := BestComesFirst(rest);
      k := j + 1;
    }
  }

  lemma OneComesFirst(entries: seq<Entry>, j: nat, k: nat)
    requires ComesFirst(entries, j) && ComesFirst(entries, k)
    ensures j == k
  {
  }

  /** Something better may still come: a Tier 1 profile is awaited, the deadline has not passed, and the grace
      period of the Tier 2 profile at place `k` has not. */
  ghost predicate Awaited(entries: seq<Entry>, k: nat, now: Time)
    requires k < |entries| && entries[k].IsUsable()
  {
    && entries[k].tier == Tier2 && now < PROBE_DEADLINE && now < entries[k].progress.at + TIER_GRACE
    && exists i :: 0 <= i < |entries| && entries[i].progress.Pending? && entries[i].tier == Tier1
  }

  lemma PendingMeans(entries: seq<Entry>)
    ensures AnyPending(entries) <==> exists i :: 0 <= i < |entries| && entries[i].progress.Pending?
    ensures Tier1Pending(entries) <==>
              exists i :: 0 <= i < |entries| && entries[i].progress.Pending? && entries[i].tier == Tier1
  {
  }

  /** With something usable, the entry that comes first is selected exactly as soon as nothing better may still
      come. */
  lemma WinnerExactly(entries: seq<Entry>, now: Time, k: nat)
    requires ComesFirst(entries, k)
    ensures Decide(entries, now)
            == if Awaited(entries, k, now) then StillPending
               else Selected(entries[k].id, entries[k].tier, entries[k].progress.verdict.bitsPerSec)
  {
    PendingMeans(entries);
    assert entries[k] in entries;
    var j := BestComesFirst(entries);
    OneComesFirst(entries, j, k);
  }

  lemma NobodyWinsExactly(entries: seq<Entry>, now: Time)
    requires forall i :: 0 <= i < |entries| ==> !entries[i].IsUsable()
    ensures Decide(entries, now)
            == if now < PROBE_DEADLINE && exists i :: 0 <= i < |entries| && entries[i].progress.Pending?
               then StillPending
               else NoneUsable
  {
    PendingMeans(entries);
  }

  /** The race, exactly. It is still on exactly when the entry that comes first may still be bettered, or
      nothing is usable, something is awaited and the deadline has not passed. When it is over, the entry that
      comes first has won, and nobody has exactly when nothing is usable. */
  lemma DecideExactly(entries: seq<Entry>, now: Time)
    ensures Decide(entries, now) == StillPending <==>
              || (exists k: nat :: ComesFirst(entries, k) && Awaited(entries, k, now))
              || (&& now < PROBE_DEADLINE
                  && (forall i :: 0 <= i < |entries| ==> !entries[i].IsUsable())
                  && exists i :: 0 <= i < |entries| && entries[i].progress.Pending?)
    ensures Decide(entries, now).Selected? ==>
              exists k: nat :: && ComesFirst(entries, k) && Decide(entries, now).profile == entries[k].id
                               && Decide(entries, now).tier == entries[k].tier
                               && Decide(entries, now).bitsPerSec == entries[k].progress.verdict.bitsPerSec
    ensures Decide(entries, now) == NoneUsable ==> forall i :: 0 <= i < |entries| ==> !entries[i].IsUsable()
  {
    if BestUsable(entries).Some? {
      var k := BestComesFirst(entries);
      WinnerExactly(entries, now, k);
      forall j: nat | ComesFirst(entries, j) ensures j == k {
        OneComesFirst(entries, j, k);
      }
    } else {
      NobodyWinsExactly(entries, now);
    }
  }
}
