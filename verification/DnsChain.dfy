/** Turning the routing rules into the primary core's DNS chain, and how lookups and connections agree. */
module DnsChain {
  import opened Common
  import opened Rules
  import opened Compile

  // ------------------------------------------------------------------ the DNS chain

  datatype QueryType = A | AAAA | OtherType

  datatype DnsAction = Refuse | Ask(server: string)

  const FAKEIP := "fakeip"
  const LOCAL := "local"

  datatype DnsEntry = DnsEntry(
    domain: seq<string>, domainSuffix: seq<string>, queryType: seq<QueryType>, invert: bool, action: DnsAction)

  datatype Query = Query(name: string, kind: QueryType)

  /** Only bypassed and refused names have entries of their own. */
  predicate Named(r: RoutingRule) {
    (r.action == Bypass || r.action == Reject) && (r.matcher.Domain? || r.matcher.DomainSuffix?)
  }

  function NamedTest(): RoutingRule -> bool { (r: RoutingRule) => Named(r) }

  function DnsEntryOf(r: RoutingRule): DnsEntry {
    var action := if r.action == Reject then Refuse else Ask(LOCAL);
    match r.matcher
    case Domain(d) => DnsEntry([Written(d)], [], [], false, action)
    case DomainSuffix(d) => DnsEntry([], [Written(d)], [], false, action)
    case _ => DnsEntry([], [], [], false, action)
  }

  function DnsCompiler(): RoutingRule -> DnsEntry { (r: RoutingRule) => DnsEntryOf(r) }

  function DnsTail(tunnelResolver: Option<string>): seq<DnsEntry> {
    [DnsEntry([], [], [A, AAAA], false, Ask(FAKEIP)),
     DnsEntry([], [], [A, AAAA], true, if tunnelResolver.Some? then Ask(tunnelResolver.value) else Refuse)]
  }

  function DnsRules(rules: RuleSet, tunnelResolver: Option<string>): seq<DnsEntry> {
    NamedChain(ByPrecedence(rules), DnsTail(tunnelResolver))
  }

  /** How the core reads a DNS entry: names as in a route entry, and `invert` last. */
  predicate Answers(e: DnsEntry, q: Query) {
    var holds :=
      && (e.domain == [] || exists d :: d in e.domain && Lower(q.name) == Lower(d))
      && (e.domainSuffix == [] || exists d :: d in e.domainSuffix && EndsIn(Lower(q.name), Lower(d)))
      && (e.queryType == [] || q.kind in e.queryType);
    if e.invert then !holds else holds
  }

  function ChainDecision(chain: seq<DnsEntry>, q: Query): Option<DnsAction> {
    if chain == [] then None
    else if Answers(chain[0], q) then Some(chain[0].action)
    else ChainDecision(chain[1..], q)
  }

  /** The core takes the name for one of the matcher's. */
  predicate Catches(m: Matcher, name: string) {
    match m
    case Domain(d) => Lower(name) == Written(d)
    case DomainSuffix(d) => Under(Lower(name), Written(d))
    case _ => false
  }

  function FirstNamed(rules: seq<RoutingRule>, name: string): Option<RoutingRule> {
    if rules == [] then None
    else if Named(rules[0]) && Catches(rules[0].matcher, name) then Some(rules[0])
    else FirstNamed(rules[1..], name)
  }

  /** The bypass or refusal that decides a name, if there is one. */
  function NameRule(rules: RuleSet, name: string): Option<RoutingRule> { FirstNamed(ByPrecedence(rules), name) }

  lemma DnsEntryReads(r: RoutingRule, q: Query)
    requires Built(r) && Named(r)
    ensures Answers(DnsEntryOf(r), q) <==> Catches(r.matcher, q.name)
  {
    var d := if r.matcher.Domain? then r.matcher.name else r.matcher.suffix;
    WrittenIsNormal(d);
    assert Written(d) in [Written(d)];
    EndsInIsUnder(Lower(q.name), Written(d));
  }

  /** On every query, a bypass or refusal of names and its DNS entry agree exactly when the name is not one of
      the mismatches. */
  lemma DnsEntryAgrees(r: RoutingRule, q: Query)
    requires Built(r) && Named(r)
    ensures (Answers(DnsEntryOf(r), q) <==> MatchesName(r.matcher, q.name)) <==> !NameMismatch(r.matcher, q.name)
  {
    DnsEntryReads(r, q);
    if r.matcher.Domain? {
      DomainAgrees(r.matcher.name, q.name);
    } else {
      SuffixAgrees(r.matcher.suffix, q.name);
    }
  }

  function NamedChain(rules: RuleSet, tail: seq<DnsEntry>): seq<DnsEntry> {
    Map(Filter(rules, NamedTest()), DnsCompiler()) + tail
  }

  lemma NamedChainStep(rules: RuleSet, tail: seq<DnsEntry>)
    requires rules != []
    ensures NamedChain(rules, tail)
            == (if Named(rules[0]) then [DnsEntryOf(rules[0])] else []) + NamedChain(rules[1..], tail)
  {
    var kept, rest := Filter(rules, NamedTest()), Filter(rules[1..], NamedTest());
    if Named(rules[0]) {
      assert kept == [rules[0]] + rest;
      assert Map(kept, DnsCompiler()) == [DnsEntryOf(rules[0])] + Map(rest, DnsCompiler());
    } else {
      assert kept == rest;
    }
  }

  lemma {:induction false} ChainAgrees(rules: RuleSet, tail: seq<DnsEntry>, q: Query)
    ensures ChainDecision(NamedChain(rules, tail), q)
            == match FirstNamed(rules, q.name)
               case None => ChainDecision(tail, q)
               case Some(r) => Some(if r.action == Reject then Refuse else Ask(LOCAL))
  {
    if rules == [] {
      assert NamedChain(rules, tail) == tail;
    } else {
      ChainAgrees(rules[1..], tail, q);
      NamedChainStep(rules, tail);
      if Named(rules[0]) {
        DnsEntryReads(rules[0], q);
        assert NamedChain(rules, tail)[1..] == NamedChain(rules[1..], tail);
      } else {
        assert NamedChain(rules, tail) == NamedChain(rules[1..], tail);
      }
    }
  }

  /** Every query, whatever its name, is decided by the chain: by the bypass or refusal of lowest precedence
      that catches it, else by the fake-address pool for addresses, else by the tunnel's resolver or a refusal.
      The final server is never consulted, and the local resolver answers exactly for names whose rule is a
      bypass. */
  lemma EveryQueryIsDecided(rules: RuleSet, tunnelResolver: Option<string>, q: Query)
    ensures ChainDecision(DnsRules(rules, tunnelResolver), q)
            == Some(match NameRule(rules, q.name)
                    case Some(r) => if r.action == Reject then Refuse else Ask(LOCAL)
                    case None =>
                      if q.kind != OtherType then Ask(FAKEIP)
                      else if tunnelResolver.Some? then Ask(tunnelResolver.value) else Refuse)
    ensures tunnelResolver != Some(LOCAL) ==>
              (ChainDecision(DnsRules(rules, tunnelResolver), q) == Some(Ask(LOCAL))
            <==> NameRule(rules, q.name).Some? && NameRule(rules, q.name).value.action == Bypass)
  {
    ChainAgrees(ByPrecedence(rules), DnsTail(tunnelResolver), q);
    DecidingName(rules, q.name);
    var tail := DnsTail(tunnelResolver);
    assert tail[1..][0] == tail[1];
    assert Answers(tail[0], q) <==> q.kind != OtherType;
    assert Answers(tail[1], q) <==> q.kind == OtherType;
  }

  lemma {:induction false} FirstNamedPlace(rules: seq<RoutingRule>, name: string) returns (k: nat)
    ensures FirstNamed(rules, name).None? ==> forall r :: r in rules ==> !(Named(r) && Catches(r.matcher, name))
    ensures FirstNamed(rules, name).Some? ==>
              && k < |rules| && FirstNamed(rules, name) == Some(rules[k]) && Named(rules[k])
                   && Catches(rules[k].matcher, name)
              && forall i :: 0 <= i < k ==> !(Named(rules[i]) && Catches(rules[i].matcher, name))
  {
    k := 0;
    if rules != [] && !(Named(rules[0]) && Catches(rules[0].matcher, name)) {
      var j := FirstNamedPlace(rules[1..], name);
      k := j + 1;
    }
  }

  lemma DecidingName(rules: RuleSet, name: string)
    ensures NameRule(rules, name).None? <==> forall r :: r in rules ==> !(Named(r) && Catches(r.matcher, name))
    ensures NameRule(rules, name).Some? ==>
              var d := NameRule(rules, name).value;
              && d in rules && Named(d) && Catches(d.matcher, name)
              && forall r :: r in rules && Named(r) && Catches(r.matcher, name) ==> d.precedence <= r.precedence
  {
    var sorted := ByPrecedence(rules);
    ByPrecedenceSorted(rules);
    var k := FirstNamedPlace(sorted, name);
    if NameRule(rules, name).Some? {
      forall r | r in rules && Named(r) && Catches(r.matcher, name) ensures sorted[k].precedence <= r.precedence {
        var i :| 0 <= i < |sorted| && sorted[i] == r;
        assert i >= k;
        if i > k { assert PrecedenceOrder()(sorted[k], sorted[i]); }
      }
    }
  }

  /** A bypass or a refusal, of this name or of a suffix it is under. */
  predicate Settles(r: RoutingRule, name: string) {
    (r.action == Bypass || r.action == Reject) && Catches(r.matcher, name)
  }

  lemma SettlesMeans(r: RoutingRule, name: string)
    ensures Settles(r, name) <==> Named(r) && Catches(r.matcher, name)
  {
  }

  /** The rule that decides a name is a bypass or refusal that catches it and that no other outranks. */
  lemma NameRuleIsNamed(rules: RuleSet, name: string)
    ensures NameRule(rules, name).None? <==> forall r :: r in rules ==> !Settles(r, name)
    ensures NameRule(rules, name).Some? ==>
              var d := NameRule(rules, name).value;
              && d in rules && Settles(d, name)
              && forall r :: r in rules && Settles(r, name) ==> d.precedence <= r.precedence
  {
    DecidingName(rules, name);
    forall r ensures Settles(r, name) <==> Named(r) && Catches(r.matcher, name) {
      SettlesMeans(r, name);
    }
  }

  // ------------------------------------------------------------------ names and connections together

  /** The rule that decides a flow. */
  ghost predicate Decides(rules: RuleSet, flow: Flow, t: RoutingRule)
    requires flow.Valid()
  {
    && t in rules && Matches(t, flow)
    && forall r :: r in rules && Matches(r, flow) ==> t.precedence <= r.precedence
  }

  /** The bypass or refusal that decides a query for a name. */
  ghost predicate DecidesName(rules: RuleSet, name: string, b: RoutingRule) {
    && b in rules && Named(b) && Catches(b.matcher, name)
    && forall r :: r in rules && Named(r) && Catches(r.matcher, name) ==> b.precedence <= r.precedence
  }

  lemma DecidesMeans(rules: RuleSet, flow: Flow, t: RoutingRule)
    requires flow.Valid() && DistinctPrecedences(rules)
    ensures Decides(rules, flow, t) <==> Deciding(rules, flow) == Some(t)
  {
    DecidingIsLowest(rules, flow);
    if Decides(rules, flow, t) {
      DecidingIfLowest(rules, flow, t);
    }
  }

  lemma DecidesNameMeans(rules: RuleSet, name: string, b: RoutingRule)
    requires DistinctPrecedences(rules)
    ensures DecidesName(rules, name, b) <==> NameRule(rules, name) == Some(b)
  {
    DecidingName(rules, name);
    if DecidesName(rules, name, b) {
      SamePrecedenceSameRule(rules, b, NameRule(rules, name).value);
    }
  }

  /** A rule that does not bypass decides the flow, ahead of the bypass of its name that decides the query. */
  ghost predicate Outranked(rules: RuleSet, flow: Flow, t: RoutingRule, b: RoutingRule)
    requires flow.Valid() && flow.destination.Named?
  {
    && Decides(rules, flow, t) && t.action != Bypass && t.precedence < b.precedence
    && DecidesName(rules, flow.destination.name, b) && b.action == Bypass
    && MatchesName(b.matcher, flow.destination.name)
  }

  /** The name is no DNS name, a bypass of a suffix it is under decides the query, and no bypass the flow. */
  ghost predicate OddlyNamed(rules: RuleSet, flow: Flow, b: RoutingRule)
    requires flow.Valid() && flow.destination.Named?
  {
    && NormalizeDomain(flow.destination.name).None?
    && DecidesName(rules, flow.destination.name, b) && b.action == Bypass
    && forall t :: t in rules && Decides(rules, flow, t) ==> t.action != Bypass
  }

  /** A bypass of the program decides the flow, and no bypass the query. */
  ghost predicate ByProgram(rules: RuleSet, flow: Flow, a: RoutingRule)
    requires flow.Valid() && flow.destination.Named?
  {
    && Decides(rules, flow, a) && a.action == Bypass && a.matcher.Application?
    && forall b :: b in rules && DecidesName(rules, flow.destination.name, b) ==> b.action != Bypass
  }

  /** The name has a trailing dot, and a bypass of it decides the flow. */
  ghost predicate Dotted(rules: RuleSet, flow: Flow, a: RoutingRule)
    requires flow.Valid() && flow.destination.Named?
  {
    EndsInDot(flow.destination.name) && Decides(rules, flow, a) && a.action == Bypass && !a.matcher.Application?
  }

  /** How a name that the core catches and a name that a rule matches relate. */
  lemma CatchOrMatch(r: RoutingRule, name: string)
    requires Built(r) && (r.matcher.Domain? || r.matcher.DomainSuffix?)
    ensures EndsInDot(name) ==> !Catches(r.matcher, name)
    ensures NormalizeDomain(name).None? ==> !MatchesName(r.matcher, name)
    ensures !EndsInDot(name) && NormalizeDomain(name).Some? ==>
              (Catches(r.matcher, name) <==> MatchesName(r.matcher, name))
  {
    var d := if r.matcher.Domain? then r.matcher.name else r.matcher.suffix;
    WrittenIsNormal(d);
    if EndsInDot(name) {
      DottedIsUnderNothing(name, Written(d));
      assert Under(Written(d), Written(d));
    } else if r.matcher.Domain? {
      DomainAgrees(d, name);
    } else {
      SuffixAgrees(d, name);
    }
  }

  /** What is local and not bypassed. */
  lemma LocalNotBypassed(rules: RuleSet, flow: Flow, b: RoutingRule)
    requires flow.Valid() && flow.destination.Named? && DistinctPrecedences(rules)
    requires DecidesName(rules, flow.destination.name, b) && b.action == Bypass && Evaluate(rules, flow) != Bypass
    ensures OddlyNamed(rules, flow, b)
            || (Deciding(rules, flow).Some? && Outranked(rules, flow, Deciding(rules, flow).value, b))
  {
    var name := flow.destination.name;
    CatchOrMatch(b, name);
    DecidingIsLowest(rules, flow);
    if NormalizeDomain(name).None? {
      forall t | t in rules && Decides(rules, flow, t) ensures t.action != Bypass {
        DecidesMeans(rules, flow, t);
      }
    } else {
      assert Matches(b, flow);
      var t := Deciding(rules, flow).value;
      if t.precedence == b.precedence { SamePrecedenceSameRule(rules, t, b); }
    }
  }

  /** A bypass of a name without a trailing dot that decides the flow also decides the query. */
  lemma NameBypassDecidesQuery(rules: RuleSet, flow: Flow, a: RoutingRule)
    requires flow.Valid() && flow.destination.Named? && !EndsInDot(flow.destination.name)
    requires Decides(rules, flow, a) && a.action == Bypass && !a.matcher.Application?
    ensures DecidesName(rules, flow.destination.name, a)
  {
    var name := flow.destination.name;
    CatchOrMatch(a, name);
    forall r | r in rules && Named(r) && Catches(r.matcher, name) ensures a.precedence <= r.precedence {
      CatchOrMatch(r, name);
      assert Matches(r, flow);
    }
  }

  lemma BypassedNotLocal(rules: RuleSet, flow: Flow, a: RoutingRule)
    requires flow.Valid() && flow.destination.Named?
    requires Decides(rules, flow, a) && a.action == Bypass
    requires forall b :: b in rules && DecidesName(rules, flow.destination.name, b) ==> b.action != Bypass
    ensures ByProgram(rules, flow, a) || Dotted(rules, flow, a)
  {
    if !a.matcher.Application? && !EndsInDot(flow.destination.name) {
      NameBypassDecidesQuery(rules, flow, a);
    }
  }

  lemma DottedIsNotLocal(rules: RuleSet, name: string, b: RoutingRule)
    requires b in rules && DecidesName(rules, name, b)
    ensures !EndsInDot(name)
  {
    CatchOrMatch(b, name);
  }

  /** Whether a query for the flow's name is answered by the local resolver. */
  predicate AskedLocally(rules: RuleSet, tunnelResolver: Option<string>, q: Query) {
    ChainDecision(DnsRules(rules, tunnelResolver), q) == Some(Ask(LOCAL))
  }

  lemma AskedLocallyMeans(rules: RuleSet, tunnelResolver: Option<string>, q: Query)
    requires DistinctPrecedences(rules) && tunnelResolver != Some(LOCAL)
    ensures AskedLocally(rules, tunnelResolver, q) <==>
              NameRule(rules, q.name).Some? && DecidesName(rules, q.name, NameRule(rules, q.name).value)
              && NameRule(rules, q.name).value.action == Bypass
    ensures forall b :: DecidesName(rules, q.name, b) ==> NameRule(rules, q.name) == Some(b)
  {
    EveryQueryIsDecided(rules, tunnelResolver, q);
    DecidingName(rules, q.name);
    forall b | DecidesName(rules, q.name, b) ensures NameRule(rules, q.name) == Some(b) {
      DecidesNameMeans(rules, q.name, b);
    }
  }

  /** For every name, program and port. A name is asked of the local network although its flow is not bypassed
      exactly when a rule that does not bypass outranks the bypass of the name (a tunnel rule has no DNS entry),
      or the name is no DNS name and only the core takes it for one beneath a bypassed suffix. A flow is
      bypassed although its name is not asked of the local network exactly when a bypass of its program decides
      it, or a bypass of the name but for a trailing dot. */
  lemma LookupAgreesWithRoutingExactly(rules: RuleSet, tunnelResolver: Option<string>, kind: QueryType, flow: Flow)
    requires flow.Valid() && flow.destination.Named? && DistinctPrecedences(rules) && tunnelResolver != Some(LOCAL)
    ensures var local := AskedLocally(rules, tunnelResolver, Query(flow.destination.name, kind));
            var bypassed := Evaluate(rules, flow) == Bypass;
            && (local && !bypassed <==>
                  (exists t, b :: Outranked(rules, flow, t, b)) || (exists b :: OddlyNamed(rules, flow, b)))
            && (bypassed && !local <==>
                  (exists a :: ByProgram(rules, flow, a)) || (exists a :: Dotted(rules, flow, a)))
  {
    LocalOnlyExactly(rules, tunnelResolver, kind, flow);
    BypassOnlyExactly(rules, tunnelResolver, kind, flow);
  }

  lemma LocalOnlyExactly(rules: RuleSet, tunnelResolver: Option<string>, kind: QueryType, flow: Flow)
    requires flow.Valid() && flow.destination.Named? && DistinctPrecedences(rules) && tunnelResolver != Some(LOCAL)
    ensures AskedLocally(rules, tunnelResolver, Query(flow.destination.name, kind)) && Evaluate(rules, flow) != Bypass
            <==> (exists t, b :: Outranked(rules, flow, t, b)) || (exists b :: OddlyNamed(rules, flow, b))
  {
    var q := Query(flow.destination.name, kind);
    AskedLocallyMeans(rules, tunnelResolver, q);
    if AskedLocally(rules, tunnelResolver, q) && Evaluate(rules, flow) != Bypass {
      LocalNotBypassed(rules, flow, NameRule(rules, q.name).value);
    }
    if t, b :| Outranked(rules, flow, t, b) {
      DecidesMeans(rules, flow, t);
    }
    if b :| OddlyNamed(rules, flow, b) {
      DecidingIsLowest(rules, flow);
      if Deciding(rules, flow).Some? { DecidesMeans(rules, flow, Deciding(rules, flow).value); }
    }
  }

  lemma BypassOnlyExactly(rules: RuleSet, tunnelResolver: Option<string>, kind: QueryType, flow: Flow)
    requires flow.Valid() && flow.destination.Named? && DistinctPrecedences(rules) && tunnelResolver != Some(LOCAL)
    ensures Evaluate(rules, flow) == Bypass && !AskedLocally(rules, tunnelResolver, Query(flow.destination.name, kind))
            <==> (exists a :: ByProgram(rules, flow, a)) || (exists a :: Dotted(rules, flow, a))
  {
    var q := Query(flow.destination.name, kind);
    AskedLocallyMeans(rules, tunnelResolver, q);
    if Evaluate(rules, flow) == Bypass && !AskedLocally(rules, tunnelResolver, q) {
      var a := Deciding(rules, flow).value;
      DecidesMeans(rules, flow, a);
      BypassedNotLocal(rules, flow, a);
    }
    if a :| ByProgram(rules, flow, a) {
      DecidesMeans(rules, flow, a);
    }
    if a :| Dotted(rules, flow, a) {
      DecidesMeans(rules, flow, a);
      if AskedLocally(rules, tunnelResolver, q) { DottedIsNotLocal(rules, q.name, NameRule(rules, q.name).value); }
    }
  }

  // ------------------------------------------------------------------ each of the four happens

  /** A connection to a name, by an unknown program. */
  function Connection(name: string, port: nat): Flow { Flow(Destination.Named(name), port, None) }

  /** A name tunnelled by one rule and bypassed by a later one is connected to through the tunnel and looked up
      on the local network. */
  lemma TunnelledNameAskedLocally(name: string, port: nat, kind: QueryType)
    requires NormalizeDomain(name) == Some(name)
    ensures var rules :=
              [RoutingRule(1, Domain(name), Tunnel, 200, false), RoutingRule(2, Domain(name), Bypass, 201, false)];
            && Built(rules[0]) && Built(rules[1])
            && Evaluate(rules, Connection(name, port)) == Tunnel && AskedLocally(rules, None, Query(name, kind))
  {
    var rules: RuleSet :=
      [RoutingRule(1, Domain(name), Tunnel, 200, false), RoutingRule(2, Domain(name), Bypass, 201, false)];
    WrittenIsNormal(name);
    CatchOrMatch(rules[1], name);
    assert rules[0] in rules && rules[1] in rules;
    DecidesMeans(rules, Connection(name, port), rules[0]);
    assert Outranked(rules, Connection(name, port), rules[0], rules[1]);
    LookupAgreesWithRoutingExactly(rules, None, kind, Connection(name, port));
  }

  lemma OneRuleDecides(r: RoutingRule, flow: Flow)
    requires Built(r) && flow.Valid()
    ensures Decides([r], flow, r) <==> Matches(r, flow)
    ensures Evaluate([r], flow) == if Matches(r, flow) then r.action else Tunnel
    ensures flow.destination.Named? ==>
              (DecidesName([r], flow.destination.name, r) <==> Named(r) && Catches(r.matcher, flow.destination.name))
  {
    var rules: RuleSet := [r];
    assert r in rules;
    if Matches(r, flow) {
      DecidesMeans(rules, flow, r);
    } else {
      DecidingIsLowest(rules, flow);
    }
  }

  /** A name that is no DNS name, beneath a bypassed suffix, is tunnelled and looked up on the local network. */
  lemma OddNameAskedLocally(suffix: string, port: nat, kind: QueryType)
    requires NormalizeDomain(suffix) == Some(suffix)
    ensures var (rules, name) := ([Bypassing(DomainSuffix(suffix))], "!." + suffix);
            Evaluate(rules, Connection(name, port)) == Tunnel && AskedLocally(rules, None, Query(name, kind))
  {
    var b, name := Bypassing(DomainSuffix(suffix)), "!." + suffix;
    var rules: RuleSet := [b];
    OddNameIsOdd(suffix, name);
    OneRuleDecides(b, Connection(name, port));
    CatchOrMatch(b, name);
    assert OddlyNamed(rules, Connection(name, port), b);
    LookupAgreesWithRoutingExactly(rules, None, kind, Connection(name, port));
  }

  /** A name that only a bypassed program asks for is answered with a fake address. */
  lemma ProgramIsGivenAFakeAddress(name: string, program: string, port: nat)
    ensures var rules := [Bypassing(Application(program))];
            var flow := Flow(Destination.Named(name), port, Some(program));
            && Evaluate(rules, flow) == Bypass
            && ChainDecision(DnsRules(rules, None), Query(name, A)) == Some(Ask(FAKEIP))
  {
    var a, flow := Bypassing(Application(program)), Flow(Destination.Named(name), port, Some(program));
    var rules: RuleSet := [a];
    OneRuleDecides(a, flow);
    assert Matches(a, flow);
    DecidingName(rules, name);
    EveryQueryIsDecided(rules, None, Query(name, A));
  }

  /** A bypassed name with a trailing dot is answered with a fake address. */
  lemma DottedNameIsGivenAFakeAddress(name: string, port: nat)
    requires NormalizeDomain(name) == Some(name)
    ensures var (rules, dotted) := ([Bypassing(Domain(name))], name + ".");
            && Evaluate(rules, Connection(dotted, port)) == Bypass
            && ChainDecision(DnsRules(rules, None), Query(dotted, A)) == Some(Ask(FAKEIP))
  {
    var a, dotted := Bypassing(Domain(name)), name + ".";
    var rules: RuleSet := [a];
    WrittenIsNormal(name);
    assert dotted[..|name|] == name;
    CatchOrMatch(a, dotted);
    OneRuleDecides(a, Connection(dotted, port));
    DecidingName(rules, dotted);
    EveryQueryIsDecided(rules, None, Query(dotted, A));
  }

  /** For an unknown program and a name without a trailing dot, what is bypassed is looked up locally. */
  lemma BypassedNameIsAskedLocally(rules: RuleSet, tunnelResolver: Option<string>, name: string, kind: QueryType,
                                   port: nat)
    requires DistinctPrecedences(rules) && tunnelResolver != Some(LOCAL) && !EndsInDot(name)
    requires Evaluate(rules, Connection(name, port)) == Bypass
    ensures AskedLocally(rules, tunnelResolver, Query(name, kind))
  {
    LookupAgreesWithRoutingExactly(rules, tunnelResolver, kind, Connection(name, port));
  }

  /** The generated configuration depends only on which rules there are, not on the order they are kept in. */
  lemma ConfigurationDependsOnContents(a: RuleSet, b: RuleSet, tunnelResolver: Option<string>)
    requires DistinctPrecedences(a) && multiset(a) == multiset(b)
    ensures RouteRules(a) == RouteRules(b) && DnsRules(a, tunnelResolver) == DnsRules(b, tunnelResolver)
  {
    OrderDependsOnContents(a, b);
  }
}
