/** Which addresses a range holds, by number, and what the built-in rules make of every flow. */
module AddressRanges {
  import opened Common
  import opened Rules
  import opened BuiltinRules
  import opened BuiltinLayout

  // ------------------------------------------------------------------ division by powers of two

  lemma {:induction false} Pow2Adds(m: nat, n: nat)
    ensures Pow2(m + n) == Pow2(m) * Pow2(n)
  {
    if m > 0 {
      Pow2Adds(m - 1, n);
      assert Pow2(m) * Pow2(n) == 2 * (Pow2(m - 1) * Pow2(n));
    }
  }

  lemma MulLe(a: int, b: int, s: nat)
    ensures a <= b ==> a * s <= b * s
  {
  }

  lemma QuotientIs(a: nat, s: nat, q: nat)
    requires s > 0
    ensures a / s == q <==> q * s <= a < q * s + s
  {
    var d := a / s;
    assert a == d * s + a % s;
    MulLe(d + 1, q, s);
    MulLe(q + 1, d, s);
    assert (d + 1) * s == d * s + s && (q + 1) * s == q * s + s;
  }

  lemma Regroup(d: nat, s: nat, p: nat)
    ensures (d * p) * s == d * (s * p) && (d * p + p) * s == d * (s * p) + s * p
  {
    assert (d * p) * s == d * (p * s);
    assert (d * p + p) * s == (d * p) * s + p * s;
  }

  lemma DivDiv(a: nat, s: nat, p: nat)
    requires s > 0 && p > 0
    ensures s * p > 0 && a / (s * p) == (a / s) / p
  {
    var q := a / s;
    var d := q / p;
    QuotientIs(a, s, q);
    QuotientIs(q, p, d);
    MulLe(d * p, q, s);
    MulLe(q + 1, d * p + p, s);
    assert (q + 1) * s == q * s + s;
    Regroup(d, s, p);
    MulLe(1, p, s);
    QuotientIs(a, s * p, d);
  }

  lemma SameBlock(n: nat, m: nat, s: nat)
    requires s > 0
    ensures (n / s) * s <= m < (n / s) * s + s <==> n / s == m / s
  {
    QuotientIs(m, s, n / s);
  }

  // ------------------------------------------------------------------ ranges by number

  function Size(c: Cidr): nat
    requires c.Valid()
  {
    Pow2(c.addr.Bits() - c.len)
  }

  /** The greatest multiple of `s` up to `n`. */
  function Floor(n: nat, s: nat): nat
    requires s > 0
  {
    (n / s) * s
  }

  /** The first address of the block. */
  function First(c: Cidr): nat
    requires c.Valid()
  {
    Floor(c.addr.Number(), Size(c))
  }

  predicate InBlock(c: Cidr, ip: IpAddr)
    requires c.Valid()
  {
    ip.V4? == c.addr.V4? && First(c) <= ip.Number() < First(c) + Size(c)
  }

  lemma InBlockMeans(c: Cidr, ip: IpAddr)
    requires c.Valid() && ip.V4? == c.addr.V4?
    ensures InBlock(c, ip) <==> c.addr.Number() / Size(c) == ip.Number() / Size(c)
  {
    SameBlock(c.addr.Number(), ip.Number(), Size(c));
  }

  /** A range holds exactly the addresses of its family from its first, as many as its prefix leaves free; an
      IPv4 address in IPv6 clothing counts as the IPv4 address. */
  lemma ContainsExactly(c: Cidr, ip: IpAddr)
    requires c.Valid() && ip.Valid()
    ensures Contains(c, ip) <==> InBlock(c, Canonical(ip))
  {
    var host := Canonical(ip);
    if host.V4? == c.addr.V4? {
      InBlockMeans(c, host);
    }
  }

  /** The clothing is `::ffff:` before the IPv4 address, and nothing else is taken off. */
  lemma CanonicalExactly(ip: IpAddr, n: nat)
    requires ip.Valid() && n < V4_SIZE
    ensures Canonical(ip) == V4(n) <==> ip == V4(n) || ip == V6(0xffff_0000_0000 + n)
    ensures ip.V6? && !(0xffff_0000_0000 <= ip.v6 <= 0xffff_ffff_ffff) ==> Canonical(ip) == ip
  {
  }

  lemma NarrowerInWider(a: Cidr, b: Cidr, n: nat)
    requires a.Valid() && b.Valid() && a.addr.V4? == b.addr.V4? && a.len <= b.len
    ensures n / Size(a) == (n / Size(b)) / Pow2(b.len - a.len)
  {
    Pow2Adds(b.addr.Bits() - b.len, b.len - a.len);
    DivDiv(n, Size(b), Pow2(b.len - a.len));
  }

  lemma WiderOverlaps(a: Cidr, b: Cidr)
    requires a.Valid() && b.Valid() && a.addr.V4? == b.addr.V4? && a.len <= b.len
    ensures a.addr.Number() / Size(a) == b.addr.Number() / Size(a) <==>
              exists ip: IpAddr :: ip.Valid() && InBlock(a, ip) && InBlock(b, ip)
  {
    InBlockMeans(a, b.addr);
    InBlockMeans(b, b.addr);
    if ip: IpAddr :| ip.Valid() && InBlock(a, ip) && InBlock(b, ip) {
      InBlockMeans(a, ip);
      InBlockMeans(b, ip);
      NarrowerInWider(a, b, ip.Number());
      NarrowerInWider(a, b, b.addr.Number());
    }
  }

  /** Two blocks overlap exactly when some address lies in both. */
  lemma OverlapExactly(a: Cidr, b: Cidr)
    requires a.Valid() && b.Valid()
    ensures a.Overlaps(b) <==> exists ip: IpAddr :: ip.Valid() && InBlock(a, ip) && InBlock(b, ip)
  {
    if a.addr.V4? == b.addr.V4? {
      if a.len <= b.len {
        WiderOverlaps(a, b);
      } else {
        WiderOverlaps(b, a);
        if ip: IpAddr :| ip.Valid() && InBlock(b, ip) && InBlock(a, ip) {
          assert InBlock(a, ip) && InBlock(b, ip);
        }
      }
    }
  }

  lemma HostHoldsItself(ip: IpAddr, host: IpAddr)
    requires ip.Valid() && host.Valid()
    ensures HostBlock(host).Valid()
    ensures Contains(HostBlock(host), ip) <==> Canonical(ip) == host
  {
    ContainsExactly(HostBlock(host), ip);
    assert Size(HostBlock(host)) == 1;
  }

  // ------------------------------------------------------------------ the built-in rules, flow by flow

  /** 10.66.0.1 and 10.9.0.254. */
  predicate IsOrigin(ip: IpAddr) { ip == V4(0x0a42_0001) || ip == V4(0x0a09_00fe) }

  /** 10.*, 172.16.* to 172.31.*, 192.168.*, 169.254.*, 224.* to 239.*, fe80:: to febf:*, and ff*. */
  predicate IsLocal(ip: IpAddr) {
    match ip
    case V4(n) =>
      || 0x0a00_0000 <= n < 0x0b00_0000 || 0xac10_0000 <= n < 0xac20_0000 || 0xc0a8_0000 <= n < 0xc0a9_0000
      || 0xa9fe_0000 <= n < 0xa9ff_0000 || 0xe000_0000 <= n < 0xf000_0000
    case V6(n) =>
      || 0xfe80_0000_0000_0000_0000_0000_0000_0000 <= n < 0xfec0_0000_0000_0000_0000_0000_0000_0000
      || 0xff00_0000_0000_0000_0000_0000_0000_0000 <= n < 0x1_0000_0000_0000_0000_0000_0000_0000_0000
  }

  ghost predicate Beneath(name: string, suffix: string) {
    name == suffix || exists head: string :: name == head + "." + suffix
  }

  /** A name that a portal check asks for. */
  ghost predicate IsPortalName(name: string) {
    var n := NormalizeDomain(name);
    n.Some? && (Beneath(n.value, "msftconnecttest.com") || Beneath(n.value, "msftncsi.com"))
  }

  lemma UnderMeans(name: string, suffix: string)
    ensures Under(name, suffix) <==> Beneath(name, suffix)
  {
    if |name| > |suffix| {
      var cut := |name| - |suffix|;
      assert name == name[..cut] + name[cut..];
      assert name[..cut] == name[..cut - 1] + [name[cut - 1]];
      if Under(name, suffix) {
        assert name == name[..cut - 1] + "." + suffix;
      }
    }
    if head: string :| name == head + "." + suffix {
      assert name[|head| + 1..] == suffix && name[|head|] == '.';
    }
  }

  lemma Powers()
    ensures Pow2(16) == 0x1_0000 && Pow2(20) == 0x10_0000 && Pow2(24) == 0x100_0000 && Pow2(28) == 0x1000_0000
    ensures Pow2(118) == 0x40_0000_0000_0000_0000_0000_0000_0000
    ensures Pow2(120) == 0x100_0000_0000_0000_0000_0000_0000_0000
  {
    assert Pow2(4) == 0x10;
    assert Pow2(8) == 0x100;
    Pow2Adds(8, 8);
    Pow2Adds(16, 4);
    Pow2Adds(16, 8);
    Pow2Adds(24, 4);
    Pow2Adds(16, 16);
    Pow2Adds(32, 32);
    Pow2Adds(64, 32);
    Pow2Adds(96, 24);
    assert Pow2(6) == 0x40;
    Pow2Adds(16, 6);
    Pow2Adds(96, 22);
  }

  lemma FirstIs(c: Cidr, q: nat, size: nat)
    requires c.Valid() && Size(c) == size && c.addr.Number() == q * size
    ensures First(c) == c.addr.Number()
  {
    QuotientIs(c.addr.Number(), size, q);
  }

  /** Whether the local range at place `i` holds an address, by number. */
  predicate InLocal(i: nat, ip: IpAddr) {
    match ip
    case V4(n) =>
      || (i == 0 && 0x0a00_0000 <= n < 0x0b00_0000) || (i == 1 && 0xac10_0000 <= n < 0xac20_0000)
      || (i == 2 && 0xc0a8_0000 <= n < 0xc0a9_0000) || (i == 3 && 0xa9fe_0000 <= n < 0xa9ff_0000)
      || (i == 4 && 0xe000_0000 <= n < 0xf000_0000)
    case V6(n) =>
      || (i == 5 && 0xfe80_0000_0000_0000_0000_0000_0000_0000 <= n < 0xfec0_0000_0000_0000_0000_0000_0000_0000)
      || (i == 6 && 0xff00_0000_0000_0000_0000_0000_0000_0000 <= n < 0x1_0000_0000_0000_0000_0000_0000_0000_0000)
  }

  lemma V4RangeIs(i: nat)
    requires i < 5
    ensures LOCAL_RANGES[i].Valid() && LOCAL_RANGES[i].addr.V4? && First(LOCAL_RANGES[i]) == LOCAL_RANGES[i].addr.v4
    ensures Size(LOCAL_RANGES[i]) == [0x100_0000, 0x10_0000, 0x1_0000, 0x1_0000, 0x1000_0000][i]
  {
    Powers();
    var q := [0x0a, 0xac1, 0xc0a8, 0xa9fe, 0xe][i];
    FirstIs(LOCAL_RANGES[i], q, Size(LOCAL_RANGES[i]));
  }

  lemma V6RangeIs(i: nat)
    requires 5 <= i < 7
    ensures LOCAL_RANGES[i].Valid() && LOCAL_RANGES[i].addr.V6? && First(LOCAL_RANGES[i]) == LOCAL_RANGES[i].addr.v6
    ensures Size(LOCAL_RANGES[i])
            == if i == 5 then 0x40_0000_0000_0000_0000_0000_0000_0000 else 0x100_0000_0000_0000_0000_0000_0000_0000
  {
    Powers();
    FirstIs(LOCAL_RANGES[i], if i == 5 then 0x3fa else 0xff, Size(LOCAL_RANGES[i]));
  }

  lemma LocalRangeHolds(i: nat, ip: IpAddr)
    requires i < |LOCAL_RANGES| && ip.Valid()
    ensures LOCAL_RANGES[i].Valid() && (Contains(LOCAL_RANGES[i], ip) <==> InLocal(i, Canonical(ip)))
  {
    if i < 5 { V4RangeIs(i); } else { V6RangeIs(i); }
    ContainsExactly(LOCAL_RANGES[i], ip);
  }

  lemma LocalRangesAre(ip: IpAddr)
    ensures IsLocal(ip) <==> exists i: nat :: i < |LOCAL_RANGES| && InLocal(i, ip)
  {
    assert IsLocal(ip) <==>
        (InLocal(0, ip) || InLocal(1, ip) || InLocal(2, ip) || InLocal(3, ip) || InLocal(4, ip) || InLocal(5, ip)
         || InLocal(6, ip));
  }

  // ------------------------------------------------------------------ the whole set

  /** Rules numbered by their place: the first that matches decides. */
  lemma FirstDecides(rules: RuleSet, flow: Flow, k: nat)
    requires flow.Valid() && k < |rules| && forall i :: 0 <= i < |rules| ==> rules[i].precedence == i
    requires Matches(rules[k], flow) && forall i :: 0 <= i < k ==> !Matches(rules[i], flow)
    ensures Evaluate(rules, flow) == rules[k].action
  {
    assert DistinctPrecedences(rules);
    forall r | r in rules && Matches(r, flow) ensures rules[k].precedence <= r.precedence {
      var i :| 0 <= i < |rules| && rules[i] == r;
    }
    DecidingIfLowest(rules, flow, rules[k]);
  }

  lemma NoneDecides(rules: RuleSet, flow: Flow)
    requires flow.Valid() && forall i :: 0 <= i < |rules| ==> !Matches(rules[i], flow)
    ensures Evaluate(rules, flow) == Tunnel
  {
    DecidingIsLowest(rules, flow);
  }

  /** Whether the built-in at place `i` of the disconnected set matches. */
  ghost predicate BuiltinMatches(i: nat, flow: Flow)
    requires flow.Valid()
  {
    if i == 0 then flow.port == 53
    else if i <= 2 then flow.destination.Address? && Canonical(flow.destination.ip) == ORIGINS[i - 1]
    else if i <= 9 then flow.destination.Address? && InLocal(i - 3, Canonical(flow.destination.ip))
    else if i <= 11 then
      && flow.destination.Named? && NormalizeDomain(flow.destination.name).Some?
      && Beneath(NormalizeDomain(flow.destination.name).value,
                 if i == 10 then "msftconnecttest.com" else "msftncsi.com")
    else false
  }

  lemma SuffixMatches(i: nat, flow: Flow)
    requires i < 2 && flow.Valid() && flow.destination.Named?
    ensures MatchesName(DomainSuffix(PORTAL_SUFFIXES[i]), flow.destination.name) <==> BuiltinMatches(10 + i, flow)
  {
    PortalSuffixIs(i);
    if NormalizeDomain(flow.destination.name).Some? {
      UnderMeans(NormalizeDomain(flow.destination.name).value, PORTAL_SUFFIXES[i]);
    }
  }

  lemma PortalSuffixIs(i: nat)
    requires i < 2
    ensures NormalizeDomain(PORTAL_SUFFIXES[i]) == Some(PORTAL_SUFFIXES[i])
    ensures PORTAL_SUFFIXES[i] == if i == 0 then "msftconnecttest.com" else "msftncsi.com"
  {
    var name := if i == 0 then "msftconnecttest" else "msftncsi";
    TwoLabelNameIsNormal(name, "com");
    assert name + "." + "com" == PORTAL_SUFFIXES[i];
  }

  lemma BuiltinInPlace(i: nat, firstId: RuleId)
    requires i < 12
    ensures |Builtins(None, firstId)| == 12
    ensures var r := Builtins(None, firstId)[i];
            && r.precedence == i
            && (i == 0 ==> r.matcher == DnsPort && r.action == Capture)
            && (1 <= i <= 2 ==> r.matcher == IpRange(HostBlock(ORIGINS[i - 1])) && r.action == Tunnel)
            && (3 <= i <= 9 ==> r.matcher == IpRange(LOCAL_RANGES[i - 3]) && r.action == Bypass)
            && (10 <= i ==> r.matcher == DomainSuffix(PORTAL_SUFFIXES[i - 10]) && r.action == Bypass)
  {
    BuiltinsShape(firstId);
    if i > 0 { AlwaysInPlace(i - 1); }
  }

  lemma BuiltinMatchesExactly(i: nat, firstId: RuleId, flow: Flow)
    requires i < 12 && flow.Valid()
    ensures |Builtins(None, firstId)| == 12 && Built(Builtins(None, firstId)[i])
    ensures Matches(Builtins(None, firstId)[i], flow) <==> BuiltinMatches(i, flow)
  {
    BuiltinsAreBuilt(None, firstId);
    BuiltinInPlace(i, firstId);
    if 1 <= i <= 2 && flow.destination.Address? {
      HostHoldsItself(flow.destination.ip, ORIGINS[i - 1]);
    } else if 3 <= i <= 9 && flow.destination.Address? {
      LocalRangeHolds(i - 3, flow.destination.ip);
    } else if i >= 10 && flow.destination.Named? {
      SuffixMatches(i - 10, flow);
    }
  }

  /** What the built-in rules say, flow by flow. */
  ghost function BuiltinAnswer(flow: Flow): Action
    requires flow.Valid()
  {
    if flow.port == 53 then Capture
    else match flow.destination
      case Address(ip) =>
        if IsOrigin(Canonical(ip)) then Tunnel else if IsLocal(Canonical(ip)) then Bypass else Tunnel
      case Named(name) => if IsPortalName(name) then Bypass else Tunnel
  }

  lemma {:induction false} SearchBuiltins(firstId: RuleId, flow: Flow, k: nat) returns (rules: RuleSet)
    requires flow.Valid() && k <= 12 && (forall i :: 0 <= i < k ==> !BuiltinMatches(i, flow))
    requires k < 12 ==> BuiltinMatches(k, flow)
    ensures rules == Builtins(None, firstId) && |rules| == 12
    ensures Evaluate(rules, flow) == if k < 12 then rules[k].action else Tunnel
  {
    BuiltinsAreBuilt(None, firstId);
    rules := Builtins(None, firstId);
    BuiltinInPlace(0, firstId);
    forall i | 0 <= i < 12
      ensures rules[i].precedence == i && (Matches(rules[i], flow) <==> BuiltinMatches(i, flow))
    {
      BuiltinInPlace(i, firstId);
      BuiltinMatchesExactly(i, firstId, flow);
    }
    if k < 12 {
      FirstDecides(rules, flow, k);
    } else {
      NoneDecides(rules, flow);
    }
  }

  /** Where the first built-in stands that matches. */
  lemma FirstBuiltin(flow: Flow) returns (k: nat)
    requires flow.Valid()
    ensures k <= 12 && (forall i :: 0 <= i < k ==> !BuiltinMatches(i, flow)) && (k < 12 ==> BuiltinMatches(k, flow))
  {
    k := 0;
    while k < 12 && !BuiltinMatches(k, flow)
      invariant k <= 12 && forall i :: 0 <= i < k ==> !BuiltinMatches(i, flow)
    {
      k := k + 1;
    }
  }

  lemma AnswerOfFirst(flow: Flow, k: nat)
    requires flow.Valid() && k <= 12 && (forall i :: 0 <= i < k ==> !BuiltinMatches(i, flow))
    requires k < 12 ==> BuiltinMatches(k, flow)
    ensures BuiltinAnswer(flow)
            == if k == 0 then Capture else if k <= 2 then Tunnel else if k <= 11 then Bypass else Tunnel
  {
    assert flow.port == 53 <==> BuiltinMatches(0, flow);
    match flow.destination {
      case Address(ip) =>
        LocalRangesAre(Canonical(ip));
        assert IsOrigin(Canonical(ip)) <==> BuiltinMatches(1, flow) || BuiltinMatches(2, flow);
        assert forall i :: 3 <= i <= 9 ==> (BuiltinMatches(i, flow) <==> InLocal(i - 3, Canonical(ip)));
        assert forall i: nat :: i < |LOCAL_RANGES| ==> (InLocal(i, Canonical(ip)) <==> BuiltinMatches(i + 3, flow));
      case Named(name) =>
        assert IsPortalName(name) <==> BuiltinMatches(10, flow) || BuiltinMatches(11, flow);
    }
  }

  /** The built-in rules route every flow exactly so: plain DNS is captured; the two origins are tunnelled; every
      other address of the local ranges, and every name of a portal check, is bypassed; all else is tunnelled. */
  lemma BuiltinsRouteExactly(firstId: RuleId, flow: Flow) returns (rules: RuleSet)
    requires flow.Valid()
    ensures rules == Builtins(None, firstId) && Evaluate(rules, flow) == BuiltinAnswer(flow)
  {
    var k := FirstBuiltin(flow);
    rules := SearchBuiltins(firstId, flow, k);
    AnswerOfFirst(flow, k);
    if k < 12 { BuiltinInPlace(k, firstId); }
  }

  /** The flow goes to the endpoint's host. */
  ghost predicate GoesTo(flow: Flow, host: Host)
    requires flow.Valid()
  {
    match host
    case IpHost(ip) => flow.destination.Address? && Canonical(flow.destination.ip) == ip
    case NameHost(name) =>
      && flow.destination.Named? && NormalizeDomain(name).Some?
      && NormalizeDomain(flow.destination.name) == NormalizeDomain(name)
  }

  /** With an active endpoint they do the same, except that what goes to it is bypassed, plain DNS apart. */
  lemma ConnectedRoutesExactly(host: Host, firstId: RuleId, flow: Flow) returns (rules: RuleSet)
    requires host.Valid() && Buildable(host) && flow.Valid()
    ensures rules == Builtins(Some(host), firstId)
    ensures Evaluate(rules, flow)
            == if flow.port == 53 then Capture else if GoesTo(flow, host) then Bypass else BuiltinAnswer(flow)
  {
    var disconnected := BuiltinsRouteExactly(firstId, flow);
    BuiltinsAreBuilt(Some(host), firstId);
    rules := Builtins(Some(host), firstId);
    EndpointFirst(disconnected, rules, host, firstId, flow);
  }

  lemma EndpointFirst(disconnected: RuleSet, rules: RuleSet, host: Host, firstId: RuleId, flow: Flow)
    requires host.Valid() && Buildable(host) && flow.Valid()
    requires disconnected == Builtins(None, firstId) && rules == Builtins(Some(host), firstId)
    ensures Evaluate(rules, flow)
            == if flow.port == 53 then Capture else if GoesTo(flow, host) then Bypass else Evaluate(disconnected, flow)
  {
    OpenedRoutesLikeBuilt(host, firstId, 0, firstId, flow);
    BuiltinsAreHeld(firstId, host);
    BuiltinsAreBuilt(None, firstId);
    MeaningIsPreserved(disconnected, host, 0, flow);
    EndpointRuleMatches(RoutingRule(0, EndpointMatcher(host), Bypass, 1, true), host, flow);
  }

  lemma EndpointRuleMatches(r: RoutingRule, host: Host, flow: Flow)
    requires host.Valid() && flow.Valid() && Built(r) && r.matcher == EndpointMatcher(host)
    ensures Matches(r, flow) <==> GoesTo(flow, host)
  {
    if host.IpHost? && flow.destination.Address? {
      HostHoldsItself(flow.destination.ip, host.ip);
    }
  }
}
