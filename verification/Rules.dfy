/** Routing rules, what they match, and which one decides. */
module Rules {
  import opened Common

  // ------------------------------------------------------------------ addresses

  const V4_SIZE: nat := 0x1_0000_0000
  const V6_SIZE: nat := 0x1_0000_0000_0000_0000_0000_0000_0000_0000

  datatype IpAddr = V4(v4: nat) | V6(v6: nat) {
    predicate Valid() { match this case V4(a) => a < V4_SIZE case V6(a) => a < V6_SIZE }
    function Bits(): nat { if V4? then 32 else 128 }
    function Number(): nat { match this case V4(a) => a case V6(a) => a }
  }

  function Pow2(n: nat): (r: nat)
    ensures r > 0
  {
    if n == 0 then 1 else 2 * Pow2(n - 1)
  }

  datatype Cidr = Cidr(addr: IpAddr, len: nat) {
    predicate Valid() { addr.Valid() && len <= addr.Bits() }

    /** Whether two blocks of one family share an address: they agree on the shorter prefix. */
    predicate Overlaps(other: Cidr)
      requires Valid() && other.Valid()
    {
      && addr.V4? == other.addr.V4?
      && var shared := if len <= other.len then len else other.len;
         addr.Number() / Pow2(addr.Bits() - shared) == other.addr.Number() / Pow2(addr.Bits() - shared)
    }
  }

  /** An IPv4-mapped IPv6 address (`::ffff:a.b.c.d`) is the IPv4 address it stands for. */
  function Canonical(ip: IpAddr): (r: IpAddr)
    requires ip.Valid()
    ensures r.Valid()
  {
    if ip.V6? && ip.v6 / V4_SIZE == 0xffff then V4(ip.v6 % V4_SIZE) else ip
  }

  function HostBlock(ip: IpAddr): Cidr { Cidr(ip, ip.Bits()) }

  predicate Contains(cidr: Cidr, ip: IpAddr)
    requires cidr.Valid() && ip.Valid()
  {
    cidr.Overlaps(HostBlock(Canonical(ip))) && cidr.len <= Canonical(ip).Bits()
  }

  // ------------------------------------------------------------------ names

  function LowerChar(c: char): char { if 'A' <= c <= 'Z' then (c as int + 32) as char else c }

  function Lower(s: string): (r: string)
    ensures |r| == |s| && forall i :: 0 <= i < |s| ==> r[i] == LowerChar(s[i])
  {
    seq(|s|, i requires 0 <= i < |s| => LowerChar(s[i]))
  }

  /** The parts of a name between dots. */
  function Labels(s: string): (r: seq<string>)
    ensures |r| > 0
  {
    if s == [] then [[]]
    else
      var rest := Labels(s[1..]);
      if s[0] == '.' then [[]] + rest else [[s[0]] + rest[0]] + rest[1..]
  }

  predicate LabelChar(c: char) { 'a' <= c <= 'z' || '0' <= c <= '9' || c == '-' || c == '_' }

  predicate GoodLabel(l: string) {
    && 1 <= |l| <= 63 && l[0] != '-' && l[|l| - 1] != '-'
    && forall i :: 0 <= i < |l| ==> LabelChar(l[i])
  }

  predicate IsAscii(s: string) { forall i :: 0 <= i < |s| ==> s[i] as int < 128 }

  predicate GoodName(lower: string) { forall l :: l in Labels(lower) ==> GoodLabel(l) }

  /** A name made comparable: lower case, no trailing dot; nothing for what cannot be a DNS name. */
  function NormalizeDomain(name: string): Option<string> {
    var bare := if |name| > 0 && name[|name| - 1] == '.' then name[..|name| - 1] else name;
    if bare == [] || |bare| > 253 || !IsAscii(bare) then None
    else if GoodName(Lower(bare)) then Some(Lower(bare)) else None
  }

  lemma {:induction false} TrailingDotIsEmptyLabel(s: string)
    requires |s| > 0 && s[|s| - 1] == '.'
    ensures Labels(s)[|Labels(s)| - 1] == []
  {
    if |s| > 1 {
      TrailingDotIsEmptyLabel(s[1..]);
      if |Labels(s[1..])| == 1 {
        OneLabelHasNoDot(s[1..]);
      }
    } else {
      assert s[1..] == [];
    }
  }

  lemma {:induction false} OneLabelHasNoDot(s: string)
    requires |Labels(s)| == 1
    ensures forall i :: 0 <= i < |s| ==> s[i] != '.'
  {
    if s != [] {
      OneLabelHasNoDot(s[1..]);
      forall i | 0 <= i < |s| ensures s[i] != '.' {
        if i > 0 { assert s[i] == s[1..][i - 1]; }
      }
    }
  }

  lemma GoodNameEndsInALetter(name: string)
    requires name != [] && GoodName(name)
    ensures name[|name| - 1] != '.'
  {
    var labels := Labels(name);
    assert GoodLabel(labels[|labels| - 1]);
    if name[|name| - 1] == '.' {
      TrailingDotIsEmptyLabel(name);
    }
  }

  lemma LowerIsIdempotent(s: string)
    ensures Lower(Lower(s)) == Lower(s)
    ensures IsAscii(s) ==> IsAscii(Lower(s))
  {
  }

  /** A normalised name is already normal: lower case, no trailing dot. */
  lemma NormalizeIsIdempotent(name: string)
    requires NormalizeDomain(name).Some?
    ensures NormalizeDomain(NormalizeDomain(name).value) == NormalizeDomain(name)
    ensures Lower(NormalizeDomain(name).value) == NormalizeDomain(name).value
  {
    var bare := if |name| > 0 && name[|name| - 1] == '.' then name[..|name| - 1] else name;
    LowerIsIdempotent(bare);
    GoodNameEndsInALetter(Lower(bare));
  }

  /** `domain` is `suffix` or a name beneath it, on a label boundary. */
  predicate Under(domain: string, suffix: string) {
    || domain == suffix
    || (|domain| > |suffix| && domain[|domain| - |suffix|..] == suffix && domain[|domain| - |suffix| - 1] == '.')
  }

  /** A Windows image path made comparable. Case folding is modelled for ASCII only. */
  function NormalizeApplication(path: string): string {
    var slashed := seq(|path|, i requires 0 <= i < |path| => if path[i] == '/' then '\\' else path[i]);
    var bare := if |slashed| >= 4 && slashed[..4] == "\\\\?\\" then slashed[4..] else slashed;
    Lower(TrimBackslashes(bare))
  }

  function TrimBackslashes(s: string): string {
    if s != [] && s[|s| - 1] == '\\' then TrimBackslashes(s[..|s| - 1]) else s
  }

  // ------------------------------------------------------------------ rules and flows

  datatype Action = Tunnel | Bypass | Capture | Reject

  datatype Matcher = Domain(name: string) | DomainSuffix(suffix: string) | IpRange(cidr: Cidr)
                   | Application(path: string) | DnsPort | EncryptedDnsPort

  type RuleId = nat

  datatype RoutingRule = RoutingRule(id: RuleId, matcher: Matcher, action: Action, precedence: nat, builtin: bool)

  const DNS_PORT: nat := 53
  const ENCRYPTED_DNS_PORT: nat := 853

  /** What `RoutingRule::build` lets through, for every rule there is. */
  predicate Built(r: RoutingRule) {
    && (r.matcher.Domain? ==> NormalizeDomain(r.matcher.name).Some?)
    && (r.matcher.DomainSuffix? ==> NormalizeDomain(r.matcher.suffix).Some?)
    && (r.matcher.IpRange? ==> r.matcher.cidr.Valid())
    && (r.matcher.DnsPort? ==> r.action == Capture)
    && (r.matcher.EncryptedDnsPort? ==> r.action == Reject)
    && (r.action == Reject ==> r.builtin)
  }

  datatype Destination = Named(name: string) | Address(ip: IpAddr)

  datatype Flow = Flow(destination: Destination, port: nat, application: Option<string>) {
    predicate Valid() { destination.Address? ==> destination.ip.Valid() }
  }

  predicate MatchesName(matcher: Matcher, name: string) {
    match matcher
    case Domain(pattern) => NormalizeDomain(name).Some? && NormalizeDomain(pattern) == NormalizeDomain(name)
    case DomainSuffix(pattern) =>
      && NormalizeDomain(name).Some? && NormalizeDomain(pattern).Some?
      && Under(NormalizeDomain(name).value, NormalizeDomain(pattern).value)
    case _ => false
  }

  predicate Matches(r: RoutingRule, flow: Flow)
    requires Built(r) && flow.Valid()
  {
    match r.matcher
    case DnsPort => flow.port == DNS_PORT
    case EncryptedDnsPort => flow.port == ENCRYPTED_DNS_PORT
    case Domain(_) => flow.destination.Named? && MatchesName(r.matcher, flow.destination.name)
    case DomainSuffix(_) => flow.destination.Named? && MatchesName(r.matcher, flow.destination.name)
    case IpRange(cidr) => flow.destination.Address? && Contains(cidr, flow.destination.ip)
    case Application(path) =>
      flow.application.Some? && NormalizeApplication(flow.application.value) == NormalizeApplication(path)
  }

  // ------------------------------------------------------------------ which rule decides

  type RuleSet = s: seq<RoutingRule> | forall i :: 0 <= i < |s| ==> Built(s[i])

  function PrecedenceOrder(): (RoutingRule, RoutingRule) -> bool {
    (a: RoutingRule, b: RoutingRule) => a.precedence <= b.precedence
  }

  /** Lowest precedence first, ties in the order given. */
  function ByPrecedence(rules: RuleSet): (r: RuleSet)
    ensures multiset(r) == multiset(rules)
  {
    var sorted := StableSort(rules, PrecedenceOrder());
    assert forall i :: 0 <= i < |sorted| ==> Built(sorted[i]) by {
      SameElements(sorted, rules);
      forall i | 0 <= i < |sorted| ensures Built(sorted[i]) {
        assert sorted[i] in rules;
      }
    }
    sorted
  }

  function FirstMatch(rules: RuleSet, flow: Flow): Option<RoutingRule>
    requires flow.Valid()
  {
    if rules == [] then None
    else if Matches(rules[0], flow) then Some(rules[0])
    else FirstMatch(rules[1..], flow)
  }

  /** The rule that decides, if any does. */
  function Deciding(rules: RuleSet, flow: Flow): Option<RoutingRule>
    requires flow.Valid()
  {
    FirstMatch(ByPrecedence(rules), flow)
  }

  /** What happens to the flow: the deciding rule's action, through the tunnel if there is none. */
  function Evaluate(rules: RuleSet, flow: Flow): Action
    requires flow.Valid()
  {
    match Deciding(rules, flow) case None => Tunnel case Some(r) => r.action
  }

  predicate DistinctPrecedences(rules: seq<RoutingRule>) {
    forall i, j :: 0 <= i < j < |rules| ==> rules[i].precedence != rules[j].precedence
  }

  lemma {:induction false} FirstMatchPlace(rules: RuleSet, flow: Flow) returns (k: nat)
    requires flow.Valid()
    ensures FirstMatch(rules, flow).None? ==> forall r :: r in rules ==> !Matches(r, flow)
    ensures FirstMatch(rules, flow).Some? ==>
              && k < |rules| && FirstMatch(rules, flow) == Some(rules[k]) && Matches(rules[k], flow)
              && forall i :: 0 <= i < k ==> !Matches(rules[i], flow)
  {
    k := 0;
    if rules != [] && !Matches(rules[0], flow) {
      var j := FirstMatchPlace(rules[1..], flow);
      k := j + 1;
    }
  }

  lemma ByPrecedenceSorted(rules: RuleSet)
    ensures Sorted(ByPrecedence(rules), PrecedenceOrder())
    ensures forall r :: r in ByPrecedence(rules) <==> r in rules
  {
    StableSortSorted(rules, PrecedenceOrder());
    SameElements(ByPrecedence(rules), rules);
  }

  /** The deciding rule is a matching rule that no matching rule outranks. */
  lemma DecidingIsLowest(rules: RuleSet, flow: Flow)
    requires flow.Valid()
    ensures Deciding(rules, flow).None? <==> forall r :: r in rules ==> !Matches(r, flow)
    ensures Deciding(rules, flow).Some? ==>
              var d := Deciding(rules, flow).value;
              && d in rules && Matches(d, flow)
              && forall r :: r in rules && Matches(r, flow) ==> d.precedence <= r.precedence
  {
    var sorted := ByPrecedence(rules);
    ByPrecedenceSorted(rules);
    var k := FirstMatchPlace(sorted, flow);
    if Deciding(rules, flow).Some? {
      forall r | r in rules && Matches(r, flow) ensures sorted[k].precedence <= r.precedence {
        var i :| 0 <= i < |sorted| && sorted[i] == r;
        assert i >= k;
        if i > k { assert PrecedenceOrder()(sorted[k], sorted[i]); }
      }
    }
  }

  lemma SamePrecedenceSameRule(rules: seq<RoutingRule>, a: RoutingRule, b: RoutingRule)
    requires DistinctPrecedences(rules) && a in rules && b in rules && a.precedence == b.precedence
    ensures a == b
  {
  }

  /** With distinct precedences the deciding rule is the one matching rule nothing else outranks. */
  lemma DecidingIfLowest(rules: RuleSet, flow: Flow, d: RoutingRule)
    requires flow.Valid() && DistinctPrecedences(rules)
    requires d in rules && Matches(d, flow)
    requires forall r :: r in rules && Matches(r, flow) ==> d.precedence <= r.precedence
    ensures Deciding(rules, flow) == Some(d)
  {
    DecidingIsLowest(rules, flow);
    SamePrecedenceSameRule(rules, d, Deciding(rules, flow).value);
  }

  /** With distinct precedences the order rules are tried in depends only on which rules there are. */
  lemma OrderDependsOnContents(a: RuleSet, b: RuleSet)
    requires DistinctPrecedences(a) && multiset(a) == multiset(b)
    ensures ByPrecedence(a) == ByPrecedence(b)
  {
    var order := PrecedenceOrder();
    StableSortSorted(a, order);
    StableSortSorted(b, order);
    SameElements(ByPrecedence(a), a);
    forall x, y | x in ByPrecedence(a) && y in ByPrecedence(a) && order(x, y) && order(y, x) ensures x == y {
      SamePrecedenceSameRule(a, x, y);
    }
    KeysFixTheOrder(ByPrecedence(a), ByPrecedence(b), order);
  }
}
