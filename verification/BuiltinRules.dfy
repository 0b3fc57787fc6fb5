/** The built-in rules, and opening a place among them for the active endpoint. */
module BuiltinRules {
  import opened Common
  import opened Rules

  /** Where the encrypted-DNS block begins: built-in bypasses keep below, a person's rules far above. */
  const FIRST_BLOCK_PRECEDENCE: nat := 100

  /** An endpoint's host, already told apart: an address literal, or a name. */
  datatype Host = IpHost(ip: IpAddr) | NameHost(name: string) {
    predicate Valid() { IpHost? ==> ip.Valid() }
  }

  datatype DomainError = PrecedenceCollision(precedence: nat) | InvalidPattern | MissingDnsCapture
                       | BuiltinRuleMissing(matcher: Matcher)

  const ORIGINS: seq<IpAddr> := [V4(0x0a42_0001), V4(0x0a09_00fe)]  // 10.66.0.1, 10.9.0.254

  const LOCAL_RANGES: seq<Cidr> := [
    Cidr(V4(0x0a00_0000), 8),    // 10.0.0.0/8
    Cidr(V4(0xac10_0000), 12),   // 172.16.0.0/12
    Cidr(V4(0xc0a8_0000), 16),   // 192.168.0.0/16
    Cidr(V4(0xa9fe_0000), 16),   // 169.254.0.0/16
    Cidr(V4(0xe000_0000), 4),    // 224.0.0.0/4
    Cidr(V6(0xfe80_0000_0000_0000_0000_0000_0000_0000), 10),  // fe80::/10
    Cidr(V6(0xff00_0000_0000_0000_0000_0000_0000_0000), 8)]   // ff00::/8

  const PORTAL_SUFFIXES: seq<string> := ["msftconnecttest.com", "msftncsi.com"]

  /** An address is bypassed by address: a name rule never matches raw traffic. */
  function EndpointMatcher(host: Host): Matcher {
    match host
    case IpHost(ip) => IpRange(HostBlock(ip))
    case NameHost(name) => Domain(name)
  }

  datatype Wanted = Wanted(matcher: Matcher, action: Action)

  function OriginWanted(): IpAddr -> Wanted { (ip: IpAddr) => Wanted(IpRange(HostBlock(ip)), Tunnel) }
  function RangeWanted(): Cidr -> Wanted { (c: Cidr) => Wanted(IpRange(c), Bypass) }
  function SuffixWanted(): string -> Wanted { (s: string) => Wanted(DomainSuffix(s), Bypass) }

  /** What the built-in set holds after DNS capture, in order. */
  function Ordered(active: Option<Host>): seq<Wanted> {
    (if active.Some? then [Wanted(EndpointMatcher(active.value), Bypass)] else []) + Always()
  }

  /** What is built in whether or not there is an endpoint. */
  function Always(): seq<Wanted> {
    Map(ORIGINS, OriginWanted()) + Map(LOCAL_RANGES, RangeWanted()) + Map(PORTAL_SUFFIXES, SuffixWanted())
  }

  /** Rule `i` of a numbered list: ids are minted in order from `firstId`. */
  function Numbered(wanted: seq<Wanted>, firstId: RuleId): seq<RoutingRule> {
    seq(|wanted|, i requires 0 <= i < |wanted| =>
      RoutingRule(firstId + 1 + i, wanted[i].matcher, wanted[i].action, 1 + i, true))
  }

  function DnsCapture(id: RuleId): RoutingRule { RoutingRule(id, DnsPort, Capture, 0, true) }

  predicate IsDnsCapture(r: RoutingRule) { r.matcher.DnsPort? && r.action == Capture }

  /** DNS capture at 0, the rest following in order from 1. */
  function Builtins(active: Option<Host>, firstId: RuleId): seq<RoutingRule> {
    [DnsCapture(firstId)] + Numbered(Ordered(active), firstId)
  }

  method NumberInOrder(ordered: seq<Wanted>, firstId: RuleId) returns (rules: seq<RoutingRule>)
    ensures rules == [DnsCapture(firstId)] + Numbered(ordered, firstId)
  {
    rules := [DnsCapture(firstId)];
    ghost var numbered := Numbered(ordered, firstId);
    for i := 0 to |ordered|
      invariant rules == [DnsCapture(firstId)] + numbered[..i]
    {
      var precedence := 1 + i;
      rules := rules + [RoutingRule(firstId + precedence, ordered[i].matcher, ordered[i].action, precedence, true)];
      assert numbered[..i + 1] == numbered[..i] + [numbered[i]];
    }
    assert numbered[..|ordered|] == numbered;
  }

  method BuildBuiltins(active: Option<Host>, firstId: RuleId) returns (rules: seq<RoutingRule>)
    ensures rules == Builtins(active, firstId)
  {
    rules := NumberInOrder(Ordered(active), firstId);
  }

  // ------------------------------------------------------------------ checks every rule set passes

  /** The first precedence, from place `i` on, that an earlier rule already has. */
  function RepeatFrom(rules: seq<RoutingRule>, i: nat): Option<nat>
    requires i <= |rules|
    decreases |rules| - i
  {
    if i == |rules| then None
    else if exists j :: 0 <= j < i && rules[j].precedence == rules[i].precedence then Some(rules[i].precedence)
    else RepeatFrom(rules, i + 1)
  }

  lemma {:induction false} NoRepeatMeansDistinct(rules: seq<RoutingRule>, i: nat)
    requires i <= |rules| && DistinctPrecedences(rules[..i])
    ensures RepeatFrom(rules, i).None? <==> DistinctPrecedences(rules)
    decreases |rules| - i
  {
    if i == |rules| {
      assert rules[..i] == rules;
    } else if !exists j :: 0 <= j < i && rules[j].precedence == rules[i].precedence {
      NoRepeatMeansDistinct(rules, i + 1);
    }
  }

  /** Rejects a set in which two rules share a precedence, naming the first that is repeated. */
  method ValidateRuleSet(rules: seq<RoutingRule>) returns (repeated: Option<nat>)
    ensures repeated.None? <==> DistinctPrecedences(rules)
    ensures repeated == RepeatFrom(rules, 0)
    ensures repeated.Some? ==>
              exists i :: && 0 <= i < |rules| && rules[i].precedence == repeated.value
                          && DistinctPrecedences(rules[..i])
                          && exists j :: 0 <= j < i && rules[j].precedence == rules[i].precedence
  {
    NoRepeatMeansDistinct(rules, 0);
    var seen: set<nat> := {};
    for i := 0 to |rules|
      invariant seen == set j | 0 <= j < i :: rules[j].precedence
      invariant RepeatFrom(rules, 0) == RepeatFrom(rules, i)
      invariant DistinctPrecedences(rules[..i])
    {
      if rules[i].precedence in seen {
        return Some(rules[i].precedence);
      }
      seen := seen + {rules[i].precedence};
    }
    return None;
  }

  function FirstCapture(rules: seq<RoutingRule>): (r: Option<RoutingRule>)
    ensures r.Some? ==> r.value in rules && IsDnsCapture(r.value)
    ensures r.None? ==> forall x :: x in rules ==> !IsDnsCapture(x)
  {
    if rules == [] then None
    else if IsDnsCapture(rules[0]) then Some(rules[0])
    else FirstCapture(rules[1..])
  }

  /** DNS capture is there and nothing outranks it. */
  predicate LeakProof(rules: seq<RoutingRule>) {
    FirstCapture(rules).Some? && forall r :: r in rules ==> FirstCapture(rules).value.precedence <= r.precedence
  }

  predicate Provides(rules: seq<RoutingRule>, w: Wanted) {
    exists r :: r in rules && r.builtin && r.matcher == w.matcher && r.action == w.action
  }

  function Required(active: Option<Host>): seq<Wanted> { [Wanted(DnsPort, Capture)] + Ordered(active) }

  /** The first required built-in that is missing. */
  function MissingBuiltin(rules: seq<RoutingRule>, wanted: seq<Wanted>): (r: Option<Matcher>)
    ensures r.None? <==> forall i :: 0 <= i < |wanted| ==> Provides(rules, wanted[i])
  {
    if wanted == [] then None
    else if !Provides(rules, wanted[0]) then Some(wanted[0].matcher)
    else
      assert forall i :: 1 <= i < |wanted| ==> wanted[i] == wanted[1..][i - 1];
      MissingBuiltin(rules, wanted[1..])
  }

  /** Rejects a set that has lost a built-in rule, naming the first one missing. */
  method ValidateBuiltinsPresent(rules: seq<RoutingRule>, active: Option<Host>) returns (missing: Option<Matcher>)
    ensures missing == MissingBuiltin(rules, Required(active))
    ensures missing.None? <==> forall i :: 0 <= i < |Required(active)| ==> Provides(rules, Required(active)[i])
    ensures missing.Some? ==>
              exists i :: && 0 <= i < |Required(active)| && Required(active)[i].matcher == missing.value
                          && !Provides(rules, Required(active)[i])
                          && forall j :: 0 <= j < i ==> Provides(rules, Required(active)[j])
  {
    var expected := Required(active);
    for i := 0 to |expected|
      invariant forall j :: 0 <= j < i ==> Provides(rules, expected[j])
      invariant MissingBuiltin(rules, expected) == MissingBuiltin(rules, expected[i..])
    {
      if !Provides(rules, expected[i]) {
        return Some(expected[i].matcher);
      }
      assert expected[i..][1..] == expected[i + 1..];
    }
    return None;
  }

  /** The lowest precedence a person's rule may have. */
  const USER_RULES_START: nat := 200

  /** A person's rule that does not come after every built-in and after the block. */
  predicate TooLow(rules: seq<RoutingRule>, p: RoutingRule) {
    p.precedence < USER_RULES_START || exists b :: b in rules && b.builtin && p.precedence <= b.precedence
  }

  predicate UserRulesFollow(rules: seq<RoutingRule>) {
    forall p :: p in rules && !p.builtin ==> !TooLow(rules, p)
  }

  method HighestBuiltin(rules: seq<RoutingRule>) returns (highest: nat)
    ensures forall b :: b in rules && b.builtin ==> b.precedence <= highest
    ensures highest == 0 || exists b :: b in rules && b.builtin && b.precedence == highest
  {
    highest := 0;
    for i := 0 to |rules|
      invariant forall j :: 0 <= j < i && rules[j].builtin ==> rules[j].precedence <= highest
      invariant highest == 0 || exists b :: b in rules && b.builtin && b.precedence == highest
    {
      if rules[i].builtin && rules[i].precedence > highest {
        highest := rules[i].precedence;
      }
    }
  }

  /** Rejects a set in which a person's rule does not follow the built-ins, naming the first such rule's
      precedence. */
  method ValidateUserRulesFollow(rules: seq<RoutingRule>) returns (low: Option<nat>)
    ensures low.None? <==> UserRulesFollow(rules)
    ensures low.None? <==>
              forall p :: p in rules && !p.builtin ==>
                p.precedence >= 200 && forall b :: b in rules && b.builtin ==> b.precedence < p.precedence
    ensures low.Some? ==>
              exists i :: && 0 <= i < |rules| && rules[i].precedence == low.value
                          && !rules[i].builtin && TooLow(rules, rules[i])
                          && forall j :: 0 <= j < i && !rules[j].builtin ==> !TooLow(rules, rules[j])
  {
    var highest := HighestBuiltin(rules);
    for i := 0 to |rules|
      invariant forall j :: 0 <= j < i && !rules[j].builtin ==> !TooLow(rules, rules[j])
    {
      var p := rules[i];
      if !p.builtin && (p.precedence < USER_RULES_START || p.precedence <= highest) {
        return Some(p.precedence);
      }
    }
    return None;
  }

  /** A built-in rule that does this is there. */
  ghost predicate HasBuiltin(rules: seq<RoutingRule>, matcher: Matcher, action: Action) {
    exists r :: r in rules && r.builtin && r.matcher == matcher && r.action == action
  }

  /** Nothing is missing exactly when there are, built in: capture of plain DNS, the bypass of the active endpoint
      (if there is one), the tunnelled origins, and the bypassed ranges and portal suffixes. */
  lemma NothingMissingExactly(rules: seq<RoutingRule>, active: Option<Host>)
    ensures MissingBuiltin(rules, Required(active)).None? <==>
              && HasBuiltin(rules, DnsPort, Capture)
              && (active.Some? ==> HasBuiltin(rules, EndpointMatcher(active.value), Bypass))
              && (forall i :: 0 <= i < |ORIGINS| ==> HasBuiltin(rules, IpRange(HostBlock(ORIGINS[i])), Tunnel))
              && (forall i :: 0 <= i < |LOCAL_RANGES| ==> HasBuiltin(rules, IpRange(LOCAL_RANGES[i]), Bypass))
              && (forall i :: 0 <= i < |PORTAL_SUFFIXES| ==>
                    HasBuiltin(rules, DomainSuffix(PORTAL_SUFFIXES[i]), Bypass))
  {
    var wanted, always := Required(active), Always();
    var a, b := Map(ORIGINS, OriginWanted()), Map(LOCAL_RANGES, RangeWanted());
    var c := Map(PORTAL_SUFFIXES, SuffixWanted());
    AllProvided([Wanted(DnsPort, Capture)], Ordered(active), rules);
    AllProvided(if active.Some? then [Wanted(EndpointMatcher(active.value), Bypass)] else [], always, rules);
    AllProvided(a + b, c, rules);
    AllProvided(a, b, rules);
    assert AllIn(wanted, rules) <==> MissingBuiltin(rules, wanted).None?;
    ProvidedOne(Wanted(DnsPort, Capture), rules);
    if active.Some? { ProvidedOne(Wanted(EndpointMatcher(active.value), Bypass), rules); }
    assert forall w :: Provides(rules, w) <==> HasBuiltin(rules, w.matcher, w.action);
    OriginsProvided(rules);
    RangesProvided(rules);
    SuffixesProvided(rules);
  }

  ghost predicate AllIn(wanted: seq<Wanted>, rules: seq<RoutingRule>) {
    forall i :: 0 <= i < |wanted| ==> Provides(rules, wanted[i])
  }

  lemma AllProvided(a: seq<Wanted>, b: seq<Wanted>, rules: seq<RoutingRule>)
    ensures AllIn(a + b, rules) <==> AllIn(a, rules) && AllIn(b, rules)
  {
    if AllIn(a + b, rules) {
      assert forall i :: 0 <= i < |a| ==> (a + b)[i] == a[i];
      assert forall i :: 0 <= i < |b| ==> (a + b)[|a| + i] == b[i];
    }
  }

  lemma ProvidedOne(w: Wanted, rules: seq<RoutingRule>)
    ensures AllIn([w], rules) <==> Provides(rules, w)
  {
    assert [w][0] == w;
  }

  lemma OriginsProvided(rules: seq<RoutingRule>)
    ensures AllIn(Map(ORIGINS, OriginWanted()), rules) <==>
              forall i :: 0 <= i < |ORIGINS| ==> HasBuiltin(rules, IpRange(HostBlock(ORIGINS[i])), Tunnel)
  {
    var a := Map(ORIGINS, OriginWanted());
    forall i | 0 <= i < |a|
      ensures Provides(rules, a[i]) <==> HasBuiltin(rules, IpRange(HostBlock(ORIGINS[i])), Tunnel)
    {
    }
  }

  lemma RangesProvided(rules: seq<RoutingRule>)
    ensures AllIn(Map(LOCAL_RANGES, RangeWanted()), rules) <==>
              forall i :: 0 <= i < |LOCAL_RANGES| ==> HasBuiltin(rules, IpRange(LOCAL_RANGES[i]), Bypass)
  {
    var a := Map(LOCAL_RANGES, RangeWanted());
    forall i | 0 <= i < |a| ensures Provides(rules, a[i]) <==> HasBuiltin(rules, IpRange(LOCAL_RANGES[i]), Bypass) {
    }
  }

  lemma SuffixesProvided(rules: seq<RoutingRule>)
    ensures AllIn(Map(PORTAL_SUFFIXES, SuffixWanted()), rules) <==>
              forall i :: 0 <= i < |PORTAL_SUFFIXES| ==> HasBuiltin(rules, DomainSuffix(PORTAL_SUFFIXES[i]), Bypass)
  {
    var a := Map(PORTAL_SUFFIXES, SuffixWanted());
    forall i | 0 <= i < |a|
      ensures Provides(rules, a[i]) <==> HasBuiltin(rules, DomainSuffix(PORTAL_SUFFIXES[i]), Bypass)
    {
    }
  }

  // ------------------------------------------------------------------ the active endpoint

  predicate BypassesAlready(r: RoutingRule, matcher: Matcher) {
    r.builtin && r.action == Bypass && r.matcher == matcher
  }

  predicate MakesRoom(r: RoutingRule) {
    r.builtin && !IsDnsCapture(r) && 1 <= r.precedence < FIRST_BLOCK_PRECEDENCE
  }

  function Shifted(r: RoutingRule): RoutingRule {
    if MakesRoom(r) then r.(precedence := r.precedence + 1) else r
  }

  function Shifter(): RoutingRule -> RoutingRule { (r: RoutingRule) => Shifted(r) }

  predicate Buildable(host: Host) { host.NameHost? ==> NormalizeDomain(host.name).Some? }

  function Opened(rules: seq<RoutingRule>, host: Host, id: RuleId): seq<RoutingRule> {
    Map(rules, Shifter()) + [RoutingRule(id, EndpointMatcher(host), Bypass, 1, true)]
  }

  predicate HasBypass(rules: seq<RoutingRule>, host: Host) {
    exists r :: r in rules && BypassesAlready(r, EndpointMatcher(host))
  }

  /** The rule set a tunnel to `host` is generated from. */
  function WithActiveEndpoint(rules: seq<RoutingRule>, host: Host, id: RuleId): Result<seq<RoutingRule>, DomainError> {
    if HasBypass(rules, host) then Ok(rules)
    else if exists r :: r in Map(rules, Shifter()) && r.builtin && r.action == Bypass
                        && r.precedence >= FIRST_BLOCK_PRECEDENCE
    then
      Err(PrecedenceCollision(FIRST_BLOCK_PRECEDENCE))
    else if !Buildable(host) then Err(InvalidPattern)
    else
      var out := Opened(rules, host, id);
      var repeated := RepeatFrom(out, 0);
      if repeated.Some? then Err(PrecedenceCollision(repeated.value))
      else if !LeakProof(out) then Err(MissingDnsCapture)
      else
        var missing := MissingBuiltin(out, Required(Some(host)));
        if missing.Some? then Err(BuiltinRuleMissing(missing.value)) else Ok(out)
  }

  /** Success by insertion, unfolded. */
  lemma InsertionFacts(rules: seq<RoutingRule>, host: Host, id: RuleId)
    requires WithActiveEndpoint(rules, host, id).Ok? && !HasBypass(rules, host)
    ensures WithActiveEndpoint(rules, host, id).value == Opened(rules, host, id)
    ensures DistinctPrecedences(Opened(rules, host, id)) && LeakProof(Opened(rules, host, id)) && Buildable(host)
  {
    NoRepeatMeansDistinct(Opened(rules, host, id), 0);
  }

  lemma OpenedIsBuilt(rules: RuleSet, host: Host, id: RuleId)
    requires host.Valid() && Buildable(host)
    ensures forall i :: 0 <= i < |Opened(rules, host, id)| ==> Built(Opened(rules, host, id)[i])
  {
  }

  /** DNS capture ends up at 0, untouched, and is the only rule there. */
  lemma CaptureIsFirst(rules: seq<RoutingRule>, host: Host, id: RuleId)
    requires DistinctPrecedences(Opened(rules, host, id)) && LeakProof(Opened(rules, host, id))
    ensures FirstCapture(Opened(rules, host, id)).value.precedence == 0
    ensures FirstCapture(Opened(rules, host, id)).value in rules
  {
    var out := Opened(rules, host, id);
    var capture, added := FirstCapture(out).value, out[|rules|];
    assert added in out;
    assert capture != added;
    if capture.precedence == 1 {
      SamePrecedenceSameRule(out, capture, added);
    }
    var i :| 0 <= i < |out| && out[i] == capture;
    assert out[i] == Shifted(rules[i]);
  }

  /** Opening a place keeps every rule's identity, match and action; a person's rules and everything at
      or beyond the block keep their numbers; and no two rules change places. */
  lemma OrderIsKept(rules: seq<RoutingRule>, host: Host, id: RuleId, i: nat, j: nat)
    requires DistinctPrecedences(rules) && WithActiveEndpoint(rules, host, id).Ok? && !HasBypass(rules, host)
    requires i < |rules| && j < |rules|
    ensures var out := WithActiveEndpoint(rules, host, id).value;
            && |out| == |rules| + 1
            && out[i] == rules[i].(precedence := out[i].precedence)
            && (!rules[i].builtin || rules[i].precedence >= FIRST_BLOCK_PRECEDENCE ==> out[i] == rules[i])
            && (out[i].precedence < out[j].precedence <==> rules[i].precedence < rules[j].precedence)
  {
    InsertionFacts(rules, host, id);
    var out := Opened(rules, host, id);
    assert out[i] == Shifted(rules[i]) && out[j] == Shifted(rules[j]);
    assert i != j ==> out[i].precedence != out[j].precedence && rules[i].precedence != rules[j].precedence;
  }

  lemma ShiftedMatchesTheSame(r: RoutingRule, flow: Flow)
    requires Built(r) && flow.Valid()
    ensures Built(Shifted(r)) && (Matches(Shifted(r), flow) <==> Matches(r, flow))
  {
  }

  /** Opening a place preserves meaning: plain DNS is captured, the endpoint is bypassed, and every other
      flow is decided by the very rule that decided it before. */
  lemma MeaningIsPreserved(rules: RuleSet, host: Host, id: RuleId, flow: Flow)
    requires host.Valid() && flow.Valid() && DistinctPrecedences(rules)
    requires WithActiveEndpoint(rules, host, id).Ok? && !HasBypass(rules, host)
    ensures forall i :: 0 <= i < |Opened(rules, host, id)| ==> Built(Opened(rules, host, id)[i])
    ensures WithActiveEndpoint(rules, host, id).value == Opened(rules, host, id)
    ensures var added := RoutingRule(id, EndpointMatcher(host), Bypass, 1, true);
            && Built(added)
            && Evaluate(Opened(rules, host, id), flow)
               == (if flow.port == DNS_PORT then Capture else if Matches(added, flow) then Bypass
                   else Evaluate(rules, flow))
            && (flow.port != DNS_PORT && !Matches(added, flow) ==>
                  && (Deciding(rules, flow).None? <==> Deciding(Opened(rules, host, id), flow).None?)
                  && (Deciding(rules, flow).Some? ==>
                       Deciding(Opened(rules, host, id), flow) == Some(Shifted(Deciding(rules, flow).value))))
  {
    InsertionFacts(rules, host, id);
    OpenedIsBuilt(rules, host, id);
    CaptureIsFirst(rules, host, id);
    var out: RuleSet := Opened(rules, host, id);
    var added, capture := out[|rules|], FirstCapture(out).value;
    assert added in out;
    if flow.port == DNS_PORT {
      DecidingIfLowest(out, flow, capture);
    } else if Matches(added, flow) {
      forall r | r in out && Matches(r, flow) ensures added.precedence <= r.precedence {
        if r.precedence == 0 { SamePrecedenceSameRule(out, r, capture); }
      }
      DecidingIfLowest(out, flow, added);
    } else {
      OthersDecideAsBefore(rules, host, id, flow);
    }
  }

  lemma OthersDecideAsBefore(rules: RuleSet, host: Host, id: RuleId, flow: Flow)
    requires host.Valid() && flow.Valid() && DistinctPrecedences(rules)
    requires WithActiveEndpoint(rules, host, id).Ok? && !HasBypass(rules, host)
    requires forall i :: 0 <= i < |Opened(rules, host, id)| ==> Built(Opened(rules, host, id)[i])
    requires !Matches(Opened(rules, host, id)[|rules|], flow)
    ensures Deciding(rules, flow).None? <==> Deciding(Opened(rules, host, id), flow).None?
    ensures Deciding(rules, flow).Some? ==>
            Deciding(Opened(rules, host, id), flow) == Some(Shifted(Deciding(rules, flow).value))
  {
    DecidingIsLowest(rules, flow);
    if Deciding(rules, flow).Some? {
      var d := Deciding(rules, flow).value;
      var i :| 0 <= i < |rules| && rules[i] == d;
      StillLowest(rules, host, id, flow, i);
    } else {
      DecidingIsLowest(Opened(rules, host, id), flow);
      forall r | r in Opened(rules, host, id) ensures !Matches(r, flow) {
        var j :| 0 <= j < |rules| + 1 && Opened(rules, host, id)[j] == r;
        if j < |rules| {
          ShiftedMatchesTheSame(rules[j], flow);
        }
      }
    }
  }

  lemma StillLowest(rules: RuleSet, host: Host, id: RuleId, flow: Flow, i: nat)
    requires host.Valid() && flow.Valid() && DistinctPrecedences(rules)
    requires WithActiveEndpoint(rules, host, id).Ok? && !HasBypass(rules, host)
    requires forall k :: 0 <= k < |Opened(rules, host, id)| ==> Built(Opened(rules, host, id)[k])
    requires !Matches(Opened(rules, host, id)[|rules|], flow)
    requires i < |rules| && Matches(rules[i], flow)
    requires forall r :: r in rules && Matches(r, flow) ==> rules[i].precedence <= r.precedence
    ensures Deciding(Opened(rules, host, id), flow) == Some(Shifted(rules[i]))
  {
    InsertionFacts(rules, host, id);
    var out: RuleSet := Opened(rules, host, id);
    ShiftedMatchesTheSame(rules[i], flow);
    forall r | r in out && Matches(r, flow) ensures out[i].precedence <= r.precedence {
      var j :| 0 <= j < |out| && out[j] == r;
      ShiftedMatchesTheSame(rules[j], flow);
      OrderIsKept(rules, host, id, j, i);
    }
    DecidingIfLowest(out, flow, out[i]);
  }

  /** Doing it again changes nothing. */
  lemma OnceIsEnough(rules: seq<RoutingRule>, host: Host, id: RuleId, again: RuleId)
    requires WithActiveEndpoint(rules, host, id).Ok?
    ensures WithActiveEndpoint(WithActiveEndpoint(rules, host, id).value, host, again)
            == WithActiveEndpoint(rules, host, id)
  {
    if !HasBypass(rules, host) {
      InsertionFacts(rules, host, id);
      assert Opened(rules, host, id)[|rules|] in Opened(rules, host, id);
    }
  }
}
