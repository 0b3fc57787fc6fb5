/** Turning the routing rules into the primary core's route entries. */
module Compile {
  import opened Common
  import opened Rules

  // ------------------------------------------------------------------ route entries

  datatype EntryAction = HijackDns | RejectIt | RouteTo(outbound: string)

  const PROXY := "proxy"
  const DIRECT := "direct"

  /** One route entry of the generated configuration. Empty fields are not conditions. */
  datatype RouteEntry = RouteEntry(
    domain: seq<string>, domainSuffix: seq<string>, ipCidr: seq<Cidr>, processPath: seq<string>, port: seq<nat>,
    action: EntryAction)

  /** A pattern in the form a connection arrives in. */
  function Written(pattern: string): string {
    var normal := NormalizeDomain(pattern);
    if normal.Some? then normal.value else pattern
  }

  function EntryOf(r: RoutingRule): RouteEntry {
    var action := match r.action
      case Capture => HijackDns
      case Reject => RejectIt
      case Bypass => RouteTo(DIRECT)
      case Tunnel => RouteTo(PROXY);
    var entry := RouteEntry([], [], [], [], [], action);
    match r.matcher
    case Domain(d) => entry.(domain := [Written(d)])
    case DomainSuffix(d) => entry.(domainSuffix := [Written(d)])
    case IpRange(c) => entry.(ipCidr := [c])
    case Application(p) => entry.(processPath := [p])
    case DnsPort => entry.(port := [DNS_PORT])
    case EncryptedDnsPort => entry.(port := [ENCRYPTED_DNS_PORT])
  }

  function Compiler(): RoutingRule -> RouteEntry { (r: RoutingRule) => EntryOf(r) }

  function RouteRules(rules: RuleSet): seq<RouteEntry> { Map(ByPrecedence(rules), Compiler()) }

  /** A name ends in a suffix on a label boundary, both compared as they are. */
  predicate EndsIn(name: string, suffix: string) {
    name == suffix || (|name| > |suffix| && name[|name| - |suffix| - 1..] == ['.'] + suffix)
  }

  /** How the core reads an entry: every condition that is given holds. */
  predicate Holds(e: RouteEntry, flow: Flow)
    requires flow.Valid() && forall i :: 0 <= i < |e.ipCidr| ==> e.ipCidr[i].Valid()
  {
    && (e.domain == []
        || (flow.destination.Named? && exists d :: d in e.domain && Lower(flow.destination.name) == Lower(d)))
    && (e.domainSuffix == []
        || (flow.destination.Named?
            && exists d :: d in e.domainSuffix && EndsIn(Lower(flow.destination.name), Lower(d))))
    && (e.ipCidr == []
        || (flow.destination.Address?
            && exists i :: 0 <= i < |e.ipCidr| && e.ipCidr[i].Overlaps(HostBlock(flow.destination.ip))))
    && (e.processPath == [] || (flow.application.Some? && flow.application.value in e.processPath))
    && (e.port == [] || flow.port in e.port)
  }

  function ActionOf(a: EntryAction): Action {
    match a
    case HijackDns => Capture
    case RejectIt => Reject
    case RouteTo(outbound) => if outbound == DIRECT then Bypass else Tunnel
  }

  ghost predicate ValidEntries(entries: seq<RouteEntry>) {
    forall k, i :: 0 <= k < |entries| && 0 <= i < |entries[k].ipCidr| ==> entries[k].ipCidr[i].Valid()
  }

  /** The first entry that holds decides; the final outbound is the tunnel. */
  function CoreDecision(entries: seq<RouteEntry>, flow: Flow): Action
    requires flow.Valid() && ValidEntries(entries)
  {
    if entries == [] then Tunnel
    else if Holds(entries[0], flow) then ActionOf(entries[0].action)
    else
      assert forall k :: 1 <= k < |entries| ==> entries[k] == entries[1..][k - 1];
      CoreDecision(entries[1..], flow)
  }

  lemma EndsInIsUnder(name: string, suffix: string)
    ensures EndsIn(name, suffix) <==> Under(name, suffix)
  {
    if |name| > |suffix| {
      var cut := |name| - |suffix| - 1;
      assert name[cut..] == [name[cut]] + name[cut + 1..];
    }
  }

  // ------------------------------------------------------------------ where an entry says what its rule says

  predicate EndsInDot(name: string) { |name| > 0 && name[|name| - 1] == '.' }

  predicate IsMapped(ip: IpAddr)
    requires ip.Valid()
  {
    Canonical(ip) != ip
  }

  /** The names on which an entry and its rule part: one matched but for its trailing dot, or one that is not
      a DNS name, beneath a suffix. */
  predicate NameMismatch(m: Matcher, name: string) {
    match m
    case Domain(_) => EndsInDot(name) && MatchesName(m, name)
    case DomainSuffix(d) =>
      if EndsInDot(name) then MatchesName(m, name) else NormalizeDomain(name).None? && Under(Lower(name), Written(d))
    case _ => false
  }

  /** The flows on which an entry and its rule part: a name matched but for its trailing dot; a name that is
      not a DNS name, beneath a suffix; an IPv4 address in IPv6 clothing, in the range in either reading; a
      program path that only normalisation makes equal to the rule's. */
  predicate Mismatch(m: Matcher, flow: Flow)
    requires flow.Valid() && (m.IpRange? ==> m.cidr.Valid())
  {
    match m
    case Domain(_) => flow.destination.Named? && NameMismatch(m, flow.destination.name)
    case DomainSuffix(_) => flow.destination.Named? && NameMismatch(m, flow.destination.name)
    case IpRange(c) =>
      && flow.destination.Address? && IsMapped(flow.destination.ip)
      && (c.Overlaps(HostBlock(flow.destination.ip)) || c.Overlaps(HostBlock(Canonical(flow.destination.ip))))
    case Application(p) =>
      && flow.application.Some? && flow.application.value != p
      && NormalizeApplication(flow.application.value) == NormalizeApplication(p)
    case DnsPort => false
    case EncryptedDnsPort => false
  }

  /** What a normalised pattern looks like. */
  lemma WrittenIsNormal(pattern: string)
    requires NormalizeDomain(pattern).Some?
    ensures var w := Written(pattern);
            && NormalizeDomain(pattern) == Some(w) && Lower(w) == w && 0 < |w| <= 253 && IsAscii(w) && GoodName(w)
            && w[|w| - 1] != '.'
  {
    var bare := if EndsInDot(pattern) then pattern[..|pattern| - 1] else pattern;
    NormalizeIsIdempotent(pattern);
    LowerIsIdempotent(bare);
    GoodNameEndsInALetter(Lower(bare));
  }

  /** A name that is a normal name but for case, without a trailing dot, normalises to it. */
  lemma LowerIsNormal(name: string, w: string)
    requires Lower(name) == w && 0 < |w| <= 253 && IsAscii(w) && GoodName(w) && w[|w| - 1] != '.'
    ensures !EndsInDot(name) && NormalizeDomain(name) == Some(w)
  {
    assert IsAscii(name) by {
      forall i | 0 <= i < |name| ensures name[i] as int < 128 {
        assert w[i] == LowerChar(name[i]) && w[i] as int < 128;
      }
    }
    assert LowerChar(name[|name| - 1]) == w[|w| - 1];
  }

  lemma DomainAgrees(d: string, name: string)
    requires NormalizeDomain(d).Some?
    ensures (Lower(name) == Written(d) <==> MatchesName(Domain(d), name))
            <==> !(EndsInDot(name) && MatchesName(Domain(d), name))
  {
    WrittenIsNormal(d);
    if Lower(name) == Written(d) {
      LowerIsNormal(name, Written(d));
    }
  }

  lemma SuffixAgrees(d: string, name: string)
    requires NormalizeDomain(d).Some?
    ensures var m := DomainSuffix(d);
            (Under(Lower(name), Written(d)) <==> MatchesName(m, name))
            <==> !(if EndsInDot(name) then MatchesName(m, name)
                   else NormalizeDomain(name).None? && Under(Lower(name), Written(d)))
  {
    WrittenIsNormal(d);
    if EndsInDot(name) {
      DottedIsUnderNothing(name, Written(d));
    }
  }

  lemma DottedIsUnderNothing(name: string, w: string)
    requires EndsInDot(name) && w != [] && w[|w| - 1] != '.'
    ensures !Under(Lower(name), w)
  {
    var lower := Lower(name);
    assert lower[|lower| - 1] == '.';
    if |lower| > |w| {
      assert lower[|lower| - |w|..][|w| - 1] == lower[|lower| - 1];
    }
  }

  lemma RangeAgrees(c: Cidr, ip: IpAddr)
    requires c.Valid() && ip.Valid()
    ensures (c.Overlaps(HostBlock(ip)) <==> Contains(c, ip))
            <==> !(IsMapped(ip) && (c.Overlaps(HostBlock(ip)) || c.Overlaps(HostBlock(Canonical(ip)))))
  {
  }

  lemma SingleName(e: RouteEntry, flow: Flow, d: string)
    requires flow.Valid() && e.ipCidr == [] && e.processPath == [] && e.port == []
    ensures e.domain == [d] && e.domainSuffix == [] ==>
              (Holds(e, flow) <==> flow.destination.Named? && Lower(flow.destination.name) == Lower(d))
    ensures e.domain == [] && e.domainSuffix == [d] ==>
              (Holds(e, flow) <==> flow.destination.Named? && EndsIn(Lower(flow.destination.name), Lower(d)))
  {
    assert d in [d];
  }

  lemma NameEntryAgrees(r: RoutingRule, flow: Flow)
    requires Built(r) && flow.Valid() && (r.matcher.Domain? || r.matcher.DomainSuffix?)
    ensures (Holds(EntryOf(r), flow) <==> Matches(r, flow)) <==> !Mismatch(r.matcher, flow)
  {
    var d := if r.matcher.Domain? then r.matcher.name else r.matcher.suffix;
    SingleName(EntryOf(r), flow, Written(d));
    WrittenIsNormal(d);
    if flow.destination.Named? {
      var name := flow.destination.name;
      if r.matcher.Domain? {
        DomainAgrees(d, name);
      } else {
        EndsInIsUnder(Lower(name), Written(d));
        SuffixAgrees(d, name);
      }
    }
  }

  lemma OtherEntryAgrees(r: RoutingRule, flow: Flow)
    requires Built(r) && flow.Valid() && !r.matcher.Domain? && !r.matcher.DomainSuffix?
    ensures forall i :: 0 <= i < |EntryOf(r).ipCidr| ==> EntryOf(r).ipCidr[i].Valid()
    ensures (Holds(EntryOf(r), flow) <==> Matches(r, flow)) <==> !Mismatch(r.matcher, flow)
  {
    var e := EntryOf(r);
    if r.matcher.IpRange? {
      assert e.ipCidr[0] == r.matcher.cidr;
      if flow.destination.Address? {
        RangeAgrees(r.matcher.cidr, flow.destination.ip);
      }
    } else if r.matcher.Application? {
      assert r.matcher.path in e.processPath;
    }
  }

  /** On every flow, one rule and its entry agree exactly when the flow is not one of the mismatches. */
  lemma EntryAgrees(r: RoutingRule, flow: Flow)
    requires Built(r) && flow.Valid()
    ensures forall i :: 0 <= i < |EntryOf(r).ipCidr| ==> EntryOf(r).ipCidr[i].Valid()
    ensures (Holds(EntryOf(r), flow) <==> Matches(r, flow)) <==> !Mismatch(r.matcher, flow)
    ensures ActionOf(EntryOf(r).action) == r.action
  {
    if r.matcher.Domain? || r.matcher.DomainSuffix? {
      NameEntryAgrees(r, flow);
    } else {
      OtherEntryAgrees(r, flow);
    }
  }

  /** Before each rule that the flow mismatches comes one that it matches, so the mismatch never shows. */
  ghost predicate MismatchesHidden(rules: RuleSet, flow: Flow)
    requires flow.Valid()
  {
    forall i :: 0 <= i < |rules| && Mismatch(rules[i].matcher, flow) ==> MatchedBefore(rules, flow, i)
  }

  predicate MatchedBefore(rules: RuleSet, flow: Flow, i: nat)
    requires flow.Valid() && i <= |rules|
  {
    exists j :: 0 <= j < i && Matches(rules[j], flow)
  }

  lemma MismatchesStayHidden(rules: RuleSet, flow: Flow)
    requires flow.Valid() && rules != [] && MismatchesHidden(rules, flow) && !Matches(rules[0], flow)
    ensures MismatchesHidden(rules[1..], flow)
  {
    forall i | 0 <= i < |rules[1..]| && Mismatch(rules[1..][i].matcher, flow)
      ensures MatchedBefore(rules[1..], flow, i)
    {
      assert MatchedBefore(rules, flow, i + 1);
      var j :| 0 <= j < i + 1 && Matches(rules[j], flow);
      assert Matches(rules[1..][j - 1], flow);
    }
  }

  /** Where the first rule stands that matches the flow, or one past the end. */
  function MatchPlace(rules: RuleSet, flow: Flow): (k: nat)
    requires flow.Valid()
    ensures k <= |rules|
  {
    if rules == [] || Matches(rules[0], flow) then 0 else 1 + MatchPlace(rules[1..], flow)
  }

  /** Where the first rule stands whose entry holds for the flow, or one past the end. */
  function HoldPlace(rules: RuleSet, flow: Flow): (k: nat)
    requires flow.Valid()
    ensures k <= |rules|
  {
    if rules == [] then 0
    else
      EntryIsValid(rules[0]);
      if Holds(EntryOf(rules[0]), flow) then 0 else 1 + HoldPlace(rules[1..], flow)
  }

  lemma EntryIsValid(r: RoutingRule)
    requires Built(r)
    ensures forall i :: 0 <= i < |EntryOf(r).ipCidr| ==> EntryOf(r).ipCidr[i].Valid()
  {
  }

  function ActionAt(rules: RuleSet, k: nat): Action { if k < |rules| then rules[k].action else Tunnel }

  lemma {:induction false} MatchPlaceActs(rules: RuleSet, flow: Flow)
    requires flow.Valid()
    ensures ActionAt(rules, MatchPlace(rules, flow))
            == match FirstMatch(rules, flow) case None => Tunnel case Some(r) => r.action
  {
    if rules != [] {
      MatchPlaceActs(rules[1..], flow);
    }
  }

  lemma CoreStep(entries: seq<RouteEntry>, flow: Flow)
    requires flow.Valid() && entries != [] && ValidEntries(entries)
    ensures ValidEntries(entries[1..])
    ensures CoreDecision(entries, flow)
            == if Holds(entries[0], flow) then ActionOf(entries[0].action) else CoreDecision(entries[1..], flow)
  {
    assert forall k :: 1 <= k < |entries| ==> entries[k] == entries[1..][k - 1];
  }

  lemma {:induction false} HoldPlaceActs(rules: RuleSet, flow: Flow)
    requires flow.Valid()
    ensures ValidEntries(Map(rules, Compiler()))
    ensures CoreDecision(Map(rules, Compiler()), flow) == ActionAt(rules, HoldPlace(rules, flow))
  {
    EntriesAreValid(rules);
    if rules != [] {
      var entries := Map(rules, Compiler());
      CoreStep(entries, flow);
      ActionIsKept(rules[0]);
      assert entries[1..] == Map(rules[1..], Compiler());
      HoldPlaceActs(rules[1..], flow);
    }
  }

  lemma ActionIsKept(r: RoutingRule)
    ensures ActionOf(EntryOf(r).action) == r.action
  {
  }

  lemma HiddenStep(rules: RuleSet, flow: Flow)
    requires flow.Valid() && rules != [] && !Matches(rules[0], flow) && !Mismatch(rules[0].matcher, flow)
    ensures MismatchesHidden(rules, flow) <==> MismatchesHidden(rules[1..], flow)
  {
    if MismatchesHidden(rules, flow) {
      MismatchesStayHidden(rules, flow);
    }
    if MismatchesHidden(rules[1..], flow) {
      forall i | 0 <= i < |rules| && Mismatch(rules[i].matcher, flow) ensures MatchedBefore(rules, flow, i) {
        assert rules[i] == rules[1..][i - 1] && MatchedBefore(rules[1..], flow, i - 1);
        var j :| 0 <= j < i - 1 && Matches(rules[1..][j], flow);
        assert Matches(rules[j + 1], flow);
      }
    }
  }

  /** The first entry that holds is that of the first rule that matches exactly when each rule that the flow
      mismatches has a rule before it that the flow matches. */
  lemma {:induction false} SamePlaceExactly(rules: RuleSet, flow: Flow)
    requires flow.Valid()
    ensures HoldPlace(rules, flow) == MatchPlace(rules, flow) <==> MismatchesHidden(rules, flow)
  {
    if rules != [] {
      EntryAgrees(rules[0], flow);
      if Mismatch(rules[0].matcher, flow) {
        assert !MatchedBefore(rules, flow, 0);
      } else if Matches(rules[0], flow) {
        forall i | 0 < i < |rules| ensures MatchedBefore(rules, flow, i) {
          assert Matches(rules[0], flow);
        }
      } else {
        HiddenStep(rules, flow);
        SamePlaceExactly(rules[1..], flow);
      }
    }
  }

  lemma EntriesAreValid(rules: RuleSet)
    ensures ValidEntries(Map(rules, Compiler()))
  {
    var entries := Map(rules, Compiler());
    forall k, i | 0 <= k < |entries| && 0 <= i < |entries[k].ipCidr| ensures entries[k].ipCidr[i].Valid() {
      assert entries[k] == EntryOf(rules[k]) && Built(rules[k]);
    }
  }

  lemma OutrankedIsHidden(rules: RuleSet, flow: Flow)
    requires flow.Valid()
    requires forall r :: r in rules && Mismatch(r.matcher, flow) ==>
               Deciding(rules, flow).Some? && Deciding(rules, flow).value.precedence < r.precedence
    ensures MismatchesHidden(ByPrecedence(rules), flow)
  {
    var sorted := ByPrecedence(rules);
    ByPrecedenceSorted(rules);
    var k := FirstMatchPlace(sorted, flow);
    if k < |sorted| {
      assert forall i :: 0 <= i < k ==> PrecedenceOrder()(sorted[i], sorted[k]);
    }
    forall i | 0 <= i < |sorted| && Mismatch(sorted[i].matcher, flow) ensures MatchedBefore(sorted, flow, i) {
      assert sorted[i] in rules && Matches(sorted[k], flow);
    }
  }

  /** Over every rule set and every flow: the core acts on the very rule that decides exactly when each rule
      that the flow mismatches has a rule before it that the flow matches. Then the flow goes the way the rules
      say: the first entry that holds acts as the matching rule of lowest precedence does, and without one the
      tunnel takes the flow. */
  lemma CompiledRoutesAgree(rules: RuleSet, flow: Flow)
    requires flow.Valid()
    ensures ValidEntries(RouteRules(rules))
    ensures var sorted := ByPrecedence(rules);
            && CoreDecision(RouteRules(rules), flow) == ActionAt(sorted, HoldPlace(sorted, flow))
            && Evaluate(rules, flow) == ActionAt(sorted, MatchPlace(sorted, flow))
            && (HoldPlace(sorted, flow) == MatchPlace(sorted, flow) <==> MismatchesHidden(sorted, flow))
            && (MismatchesHidden(sorted, flow) ==> CoreDecision(RouteRules(rules), flow) == Evaluate(rules, flow))
  {
    var sorted := ByPrecedence(rules);
    HoldPlaceActs(sorted, flow);
    MatchPlaceActs(sorted, flow);
    SamePlaceExactly(sorted, flow);
  }

  /** In particular, when the rule that decides outranks each rule that the flow mismatches, as when it
      mismatches none. */
  lemma OutrankedMismatchesDoNotShow(rules: RuleSet, flow: Flow)
    requires flow.Valid()
    requires forall r :: r in rules && Mismatch(r.matcher, flow) ==>
               Deciding(rules, flow).Some? && Deciding(rules, flow).value.precedence < r.precedence
    ensures ValidEntries(RouteRules(rules))
    ensures CoreDecision(RouteRules(rules), flow) == Evaluate(rules, flow)
  {
    OutrankedIsHidden(rules, flow);
    CompiledRoutesAgree(rules, flow);
  }

  /** Alone, a rule that does anything but tunnel is carried out as it says exactly when the flow does not
      mismatch it. */
  lemma OneRuleAgreesExactly(r: RoutingRule, flow: Flow)
    requires Built(r) && flow.Valid() && r.action != Tunnel
    ensures RouteRules([r]) == [EntryOf(r)]
    ensures forall i :: 0 <= i < |EntryOf(r).ipCidr| ==> EntryOf(r).ipCidr[i].Valid()
    ensures CoreDecision([EntryOf(r)], flow) == Evaluate([r], flow) <==> !Mismatch(r.matcher, flow)
    ensures Evaluate([r], flow) == if Matches(r, flow) then r.action else Tunnel
  {
    EntryAgrees(r, flow);
    var rules: RuleSet, entries := [r], [EntryOf(r)];
    assert rules[1..] == [] && entries[1..] == [];
    assert ByPrecedence(rules) == rules;
    assert FirstMatch(rules[1..], flow) == None && CoreDecision(entries[1..], flow) == Tunnel;
  }

  function Bypassing(m: Matcher): RoutingRule { RoutingRule(1, m, Bypass, 200, false) }

  /** The rule and the core disagree: what is bypassed by the rule goes through the tunnel, or the reverse. */
  ghost predicate Parted(m: Matcher, flow: Flow)
    requires Built(Bypassing(m)) && flow.Valid()
  {
    && RouteRules([Bypassing(m)]) == [EntryOf(Bypassing(m))]
    && (forall i :: 0 <= i < |EntryOf(Bypassing(m)).ipCidr| ==> EntryOf(Bypassing(m)).ipCidr[i].Valid())
    && CoreDecision([EntryOf(Bypassing(m))], flow) != Evaluate([Bypassing(m)], flow)
  }

  lemma DottedIsMatched(name: string)
    requires NormalizeDomain(name) == Some(name)
    ensures EndsInDot(name + ".") && NormalizeDomain(name + ".") == Some(name)
    ensures MatchesName(Domain(name), name + ".") && MatchesName(DomainSuffix(name), name + ".")
  {
    WrittenIsNormal(name);
    assert (name + ".")[..|name|] == name;
  }

  lemma MismatchParts(m: Matcher, flow: Flow)
    requires Built(Bypassing(m)) && flow.Valid() && Mismatch(m, flow)
    ensures Parted(m, flow)
  {
    OneRuleAgreesExactly(Bypassing(m), flow);
  }

  /** A name with a trailing dot is bypassed by its rule and tunnelled by the core. */
  lemma TrailingDotParts(name: string, port: nat)
    requires NormalizeDomain(name) == Some(name)
    ensures Parted(Domain(name), Flow(Destination.Named(name + "."), port, None))
    ensures Parted(DomainSuffix(name), Flow(Destination.Named(name + "."), port, None))
  {
    DottedIsMatched(name);
    MismatchParts(Domain(name), Flow(Destination.Named(name + "."), port, None));
    MismatchParts(DomainSuffix(name), Flow(Destination.Named(name + "."), port, None));
  }

  /** A name that is no DNS name, beneath a bypassed suffix, is tunnelled by the rule and bypassed by the core. */
  lemma OddNameParts(suffix: string, port: nat)
    requires NormalizeDomain(suffix) == Some(suffix)
    ensures Parted(DomainSuffix(suffix), Flow(Destination.Named("!." + suffix), port, None))
  {
    OddNameIsOdd(suffix, "!." + suffix);
    MismatchParts(DomainSuffix(suffix), Flow(Destination.Named("!." + suffix), port, None));
  }

  lemma OddNameIsOdd(suffix: string, name: string)
    requires NormalizeDomain(suffix) == Some(suffix) && name == "!." + suffix
    ensures NormalizeDomain(suffix).Some? && !EndsInDot(name) && NormalizeDomain(name).None?
    ensures Under(Lower(name), Written(suffix))
  {
    WrittenIsNormal(suffix);
    LowerOfOddName(suffix, name);
    assert name[|name| - 1] == suffix[|suffix| - 1];
  }

  lemma LowerOfOddName(suffix: string, name: string)
    requires Lower(suffix) == suffix && name == "!." + suffix
    ensures Lower(name) == name && !GoodName(name) && Under(name, suffix)
  {
    assert name[1..] == "." + suffix && name[1..][1..] == suffix;
    assert Labels(name)[0] == "!";
    assert !GoodLabel("!");
    forall i | 0 <= i < |name| ensures LowerChar(name[i]) == name[i] {
      if i >= 2 { assert name[i] == suffix[i - 2] && Lower(suffix)[i - 2] == LowerChar(suffix[i - 2]); }
    }
  }

  lemma Pow2Of24()
    ensures Pow2(24) == 0x100_0000
  {
    assert Pow2(8) == 0x100;
    assert Pow2(16) == 0x1_0000;
  }

  /** 10.0.0.1 in IPv6 clothing is bypassed by a rule for 10.0.0.0/8 and tunnelled by the core. */
  lemma MappedAddressParts(port: nat)
    ensures Parted(IpRange(Cidr(V4(0x0a00_0000), 8)), Flow(Address(V6(0xffff_0a00_0001)), port, None))
  {
    var flow := Flow(Address(V6(0xffff_0a00_0001)), port, None);
    Pow2Of24();
    assert Canonical(flow.destination.ip) == V4(0x0a00_0001);
    MismatchParts(IpRange(Cidr(V4(0x0a00_0000), 8)), flow);
  }

  /** A program whose path is spelled in another case is bypassed by its rule and tunnelled by the core. */
  lemma SpellingParts(destination: Destination, port: nat)
    requires destination.Address? ==> destination.ip.Valid()
    ensures Parted(Application("App"), Flow(destination, port, Some("app")))
  {
    var flow := Flow(destination, port, Some("app"));
    SameProgram();
    MismatchParts(Application("App"), flow);
  }

  lemma SameProgram()
    ensures NormalizeApplication("App") == NormalizeApplication("app") && "App" != "app"
  {
    assert "App"[0] != "app"[0];
    assert TrimBackslashes("App") == "App" && TrimBackslashes("app") == "app";
    assert Lower("App") == Lower("app");
  }
}
