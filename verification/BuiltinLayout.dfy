/** When the active endpoint finds its place among the rules, and what the standard layout makes of it. */
module BuiltinLayout {
  import opened Common
  import opened Rules
  import opened BuiltinRules

  /** A rule set as the program holds one: it passed the checks every mutation runs. */
  ghost predicate HeldSet(rules: seq<RoutingRule>) {
    && DistinctPrecedences(rules) && LeakProof(rules) && MissingBuiltin(rules, Required(None)).None?
    && UserRulesFollow(rules)
  }

  /** The layout has room: capture is at 0, the last bypass is below 99, nothing that stays is at 1 (as a
      second capture rule could be), and nothing that moves would be pushed onto something that stays (such
      as a second capture rule, or a rule at the block's first number). */
  ghost predicate HasRoom(rules: seq<RoutingRule>) {
    && FirstCapture(rules).Some? && FirstCapture(rules).value.precedence == 0
    && (forall r :: r in rules && r.builtin && r.action == Bypass ==> r.precedence < FIRST_BLOCK_PRECEDENCE - 1)
    && (forall r :: r in rules && !MakesRoom(r) ==> r.precedence != 1)
    && (forall a, b :: a in rules && b in rules && MakesRoom(a) && !MakesRoom(b) ==> b.precedence != a.precedence + 1)
  }

  lemma RoomKeepsApart(rules: seq<RoutingRule>, a: RoutingRule, b: RoutingRule)
    requires HasRoom(rules) && a in rules && b in rules && a.precedence != b.precedence
    ensures Shifted(a).precedence != Shifted(b).precedence
  {
  }

  lemma RoomKeepsDistinct(rules: seq<RoutingRule>, host: Host, id: RuleId)
    requires DistinctPrecedences(rules) && HasRoom(rules)
    ensures DistinctPrecedences(Opened(rules, host, id))
  {
    var out := Opened(rules, host, id);
    forall i, j | 0 <= i < j < |out| ensures out[i].precedence != out[j].precedence {
      if j < |rules| {
        RoomKeepsApart(rules, rules[i], rules[j]);
      } else {
        assert rules[i] in rules;
      }
    }
  }

  lemma FirstCaptureStep(rules: seq<RoutingRule>)
    requires rules != []
    ensures FirstCapture(rules) == if IsDnsCapture(rules[0]) then Some(rules[0]) else FirstCapture(rules[1..])
  {
  }

  lemma OpenedStep(rules: seq<RoutingRule>, added: RoutingRule)
    requires rules != []
    ensures var out := Map(rules, Shifter()) + [added];
            out[0] == Shifted(rules[0]) && out[1..] == Map(rules[1..], Shifter()) + [added]
  {
  }

  /** Opening a place leaves the first capture rule as it is. */
  lemma {:induction false} FirstCaptureIsKept(rules: seq<RoutingRule>, added: RoutingRule)
    requires FirstCapture(rules).Some?
    ensures FirstCapture(Map(rules, Shifter()) + [added]) == FirstCapture(rules)
  {
    FirstCaptureStep(rules);
    FirstCaptureStep(Map(rules, Shifter()) + [added]);
    OpenedStep(rules, added);
    if !IsDnsCapture(rules[0]) {
      FirstCaptureIsKept(rules[1..], added);
    }
  }

  lemma RoomKeepsLeakProof(rules: seq<RoutingRule>, host: Host, id: RuleId)
    requires HasRoom(rules)
    ensures LeakProof(Opened(rules, host, id))
  {
    FirstCaptureIsKept(rules, RoutingRule(id, EndpointMatcher(host), Bypass, 1, true));
  }

  lemma RoomKeepsBuiltins(rules: seq<RoutingRule>, host: Host, id: RuleId)
    requires MissingBuiltin(rules, Required(None)).None?
    ensures MissingBuiltin(Opened(rules, host, id), Required(Some(host))).None?
  {
    var out, wanted := Opened(rules, host, id), Required(Some(host));
    forall k | 0 <= k < |wanted| ensures Provides(out, wanted[k]) {
      if k == 1 {
        assert out[|rules|] in out;
      } else {
        var before := Required(None)[if k == 0 then 0 else k - 1];
        assert before == wanted[k];
        assert Provides(rules, before);
        var r :| r in rules && r.builtin && r.matcher == before.matcher && r.action == before.action;
        var i :| 0 <= i < |rules| && rules[i] == r;
        assert out[i] in out;
      }
    }
  }

  lemma BypassesStayLow(rules: seq<RoutingRule>)
    requires HasRoom(rules)
    ensures !exists r :: r in Map(rules, Shifter()) && r.builtin && r.action == Bypass
                         && r.precedence >= FIRST_BLOCK_PRECEDENCE
  {
    var shifted := Map(rules, Shifter());
    forall r | r in shifted && r.builtin && r.action == Bypass ensures r.precedence < FIRST_BLOCK_PRECEDENCE {
      var i :| 0 <= i < |shifted| && shifted[i] == r;
      assert rules[i] in rules && r == Shifted(rules[i]);
    }
  }

  lemma InsertsWhen(rules: seq<RoutingRule>, host: Host, id: RuleId)
    requires !exists r :: r in Map(rules, Shifter()) && r.builtin && r.action == Bypass
                          && r.precedence >= FIRST_BLOCK_PRECEDENCE
    requires Buildable(host) && RepeatFrom(Opened(rules, host, id), 0).None? && LeakProof(Opened(rules, host, id))
    requires MissingBuiltin(Opened(rules, host, id), Required(Some(host))).None?
    ensures WithActiveEndpoint(rules, host, id).Ok?
  {
  }

  lemma RoomSuffices(rules: seq<RoutingRule>, host: Host, id: RuleId)
    requires HeldSet(rules) && Buildable(host) && HasRoom(rules)
    ensures WithActiveEndpoint(rules, host, id).Ok?
  {
    BypassesStayLow(rules);
    RoomKeepsDistinct(rules, host, id);
    NoRepeatMeansDistinct(Opened(rules, host, id), 0);
    RoomKeepsLeakProof(rules, host, id);
    RoomKeepsBuiltins(rules, host, id);
    InsertsWhen(rules, host, id);
  }

  /** On a set the program holds, the endpoint is inserted exactly when its host can be written as a rule
      and the layout has room. */
  lemma InsertionSucceedsExactly(rules: seq<RoutingRule>, host: Host, id: RuleId)
    requires HeldSet(rules) && !HasBypass(rules, host)
    ensures WithActiveEndpoint(rules, host, id).Ok? <==> Buildable(host) && HasRoom(rules)
  {
    if WithActiveEndpoint(rules, host, id).Ok? {
      InsertionFacts(rules, host, id);
      RoomWasThere(rules, host, id);
    } else if Buildable(host) && HasRoom(rules) {
      RoomSuffices(rules, host, id);
    }
  }

  /** A built-in bypass stands at 99 or beyond, so making room would push it onto the block. */
  ghost predicate BypassTooHigh(rules: seq<RoutingRule>) {
    exists r :: r in rules && r.builtin && r.action == Bypass && r.precedence >= FIRST_BLOCK_PRECEDENCE - 1
  }

  lemma PushedMeans(rules: seq<RoutingRule>)
    requires LeakProof(rules)
    ensures BypassTooHigh(rules) <==>
              exists r :: r in Map(rules, Shifter()) && r.builtin && r.action == Bypass
                          && r.precedence >= FIRST_BLOCK_PRECEDENCE
  {
    var shifted := Map(rules, Shifter());
    if r :| r in rules && r.builtin && r.action == Bypass && r.precedence >= FIRST_BLOCK_PRECEDENCE - 1 {
      var i :| 0 <= i < |rules| && rules[i] == r;
      assert shifted[i] in shifted;
    }
    if r :| r in shifted && r.builtin && r.action == Bypass && r.precedence >= FIRST_BLOCK_PRECEDENCE {
      var i :| 0 <= i < |shifted| && shifted[i] == r;
      assert rules[i] in rules && r == Shifted(rules[i]);
    }
  }

  lemma {:induction false} RepeatIsRepeated(rules: seq<RoutingRule>, i: nat)
    requires i <= |rules| && RepeatFrom(rules, i).Some?
    ensures exists a, b :: && 0 <= a < b < |rules|
                           && rules[a].precedence == rules[b].precedence == RepeatFrom(rules, i).value
    decreases |rules| - i
  {
    if !(exists j :: 0 <= j < i && rules[j].precedence == rules[i].precedence) {
      RepeatIsRepeated(rules, i + 1);
    }
  }

  lemma CaptureNotFirst(rules: seq<RoutingRule>, host: Host, id: RuleId)
    requires LeakProof(rules) && DistinctPrecedences(Opened(rules, host, id))
    ensures LeakProof(Opened(rules, host, id)) <==> FirstCapture(rules).value.precedence == 0
  {
    var out := Opened(rules, host, id);
    FirstCaptureIsKept(rules, RoutingRule(id, EndpointMatcher(host), Bypass, 1, true));
    if LeakProof(out) {
      CaptureIsFirst(rules, host, id);
    }
  }

  /** What the endpoint's own bypass matches: the address alone, or the name. */
  function HostMatcher(host: Host): Matcher {
    if host.NameHost? then Domain(host.name) else IpRange(Cidr(host.ip, if host.ip.V4? then 32 else 128))
  }

  /** The first reason for a refusal, or none. */
  ghost predicate RefusedFor(rules: seq<RoutingRule>, host: Host, out: seq<RoutingRule>,
                             result: Result<seq<RoutingRule>, DomainError>)
    requires FirstCapture(rules).Some?
  {
    if BypassTooHigh(rules) then result == Err(PrecedenceCollision(100))
    else if !Buildable(host) then result == Err(InvalidPattern)
    else if !DistinctPrecedences(out) then
      exists a, b :: && 0 <= a < b < |out| && out[a].precedence == out[b].precedence
                     && result == Err(PrecedenceCollision(out[a].precedence))
    else if FirstCapture(rules).value.precedence != 0 then result == Err(MissingDnsCapture)
    else result == Ok(out)
  }

  lemma RefusalExactly(rules: seq<RoutingRule>, host: Host, id: RuleId)
    requires HeldSet(rules) && !HasBypass(rules, host)
    ensures RefusedFor(rules, host, Opened(rules, host, id), WithActiveEndpoint(rules, host, id))
  {
    var out := Opened(rules, host, id);
    PushedMeans(rules);
    NoRepeatMeansDistinct(out, 0);
    if RepeatFrom(out, 0).Some? {
      RepeatIsRepeated(out, 0);
    } else {
      CaptureNotFirst(rules, host, id);
    }
    RoomKeepsBuiltins(rules, host, id);
  }

  /** The outcome on every set that the program holds. A set with a built-in bypass of the endpoint is left as it
      is. Otherwise the first of these is the reason for a refusal: a bypass would be pushed onto the block; the
      host cannot be written as a rule; two rules would share the number named; capture would not be first. With
      none of them, the endpoint is inserted. */
  lemma OutcomeExactly(rules: seq<RoutingRule>, host: Host, id: RuleId)
    requires HeldSet(rules)
    ensures var result := WithActiveEndpoint(rules, host, id);
            if exists r :: r in rules && r.builtin && r.action == Bypass && r.matcher == HostMatcher(host) then
              result == Ok(rules)
            else RefusedFor(rules, host, Opened(rules, host, id), result)
  {
    assert HostMatcher(host) == EndpointMatcher(host);
    if r :| r in rules && r.builtin && r.action == Bypass && r.matcher == HostMatcher(host) {
      assert BypassesAlready(r, EndpointMatcher(host));
    } else {
      assert !HasBypass(rules, host);
      RefusalExactly(rules, host, id);
    }
  }

  lemma BypassesWereLow(rules: seq<RoutingRule>, host: Host, id: RuleId, r: RoutingRule)
    requires !HasBypass(rules, host) && WithActiveEndpoint(rules, host, id).Ok?
    requires r in rules && r.builtin && r.action == Bypass
    ensures r.precedence < FIRST_BLOCK_PRECEDENCE - 1
  {
    var shifted := Map(rules, Shifter());
    var i :| 0 <= i < |rules| && rules[i] == r;
    assert shifted[i] in shifted;
  }

  lemma NothingIsPushedOnto(rules: seq<RoutingRule>, host: Host, id: RuleId, b: RoutingRule)
    requires DistinctPrecedences(Opened(rules, host, id)) && b in rules && !MakesRoom(b)
    ensures b.precedence != 1
    ensures forall a :: a in rules && MakesRoom(a) ==> b.precedence != a.precedence + 1
  {
    var out := Opened(rules, host, id);
    var j :| 0 <= j < |rules| && rules[j] == b;
    assert out[j] == b && out[|rules|].precedence == 1;
    forall a | a in rules && MakesRoom(a) ensures b.precedence != a.precedence + 1 {
      var i :| 0 <= i < |rules| && rules[i] == a;
      assert out[i] == Shifted(a);
    }
  }

  lemma RoomWasThere(rules: seq<RoutingRule>, host: Host, id: RuleId)
    requires LeakProof(rules) && !HasBypass(rules, host) && WithActiveEndpoint(rules, host, id).Ok?
    ensures HasRoom(rules)
  {
    InsertionFacts(rules, host, id);
    CaptureIsFirst(rules, host, id);
    FirstCaptureIsKept(rules, RoutingRule(id, EndpointMatcher(host), Bypass, 1, true));
    forall r | r in rules && r.builtin && r.action == Bypass ensures r.precedence < FIRST_BLOCK_PRECEDENCE - 1 {
      BypassesWereLow(rules, host, id, r);
    }
    forall b | b in rules && !MakesRoom(b)
      ensures b.precedence != 1 && forall a :: a in rules && MakesRoom(a) ==> b.precedence != a.precedence + 1
    {
      NothingIsPushedOnto(rules, host, id, b);
    }
  }

  // ------------------------------------------------------------------ the standard layout

  lemma AlwaysInPlace(i: nat)
    requires i < 11
    ensures |Always()| == 11
    ensures i < 2 ==> Always()[i] == OriginWanted()(ORIGINS[i])
    ensures 2 <= i < 9 ==> Always()[i] == RangeWanted()(LOCAL_RANGES[i - 2])
    ensures 9 <= i ==> Always()[i] == SuffixWanted()(PORTAL_SUFFIXES[i - 9])
  {
  }

  lemma RangesAreWide(i: nat)
    requires i < |LOCAL_RANGES|
    ensures LOCAL_RANGES[i].len < 32
  {
  }

  lemma NeverTheEndpoint(host: Host, i: nat)
    requires i < 11
    ensures |Always()| == 11 && Always()[i] != Wanted(EndpointMatcher(host), Bypass) && !Always()[i].matcher.DnsPort?
  {
    AlwaysInPlace(i);
    if 2 <= i < 9 {
      RangesAreWide(i - 2);
    }
  }

  lemma OrderedShape(host: Host)
    ensures |Ordered(None)| == 11 && Ordered(Some(host)) == [Wanted(EndpointMatcher(host), Bypass)] + Ordered(None)
    ensures forall i :: 0 <= i < 11 ==> Ordered(None)[i] != Wanted(EndpointMatcher(host), Bypass)
    ensures forall i :: 0 <= i < 11 ==> !Ordered(None)[i].matcher.DnsPort?
  {
    assert Ordered(None) == Always();
    NeverTheEndpoint(host, 0);
    forall i | 0 <= i < 11
      ensures Ordered(None)[i] != Wanted(EndpointMatcher(host), Bypass) && !Ordered(None)[i].matcher.DnsPort?
    {
      NeverTheEndpoint(host, i);
    }
  }

  lemma NumberedShape(wanted: seq<Wanted>, firstId: RuleId)
    requires forall i :: 0 <= i < |wanted| ==> !wanted[i].matcher.DnsPort?
    ensures var rules := [DnsCapture(firstId)] + Numbered(wanted, firstId);
            && |rules| == |wanted| + 1 && rules[0] == DnsCapture(firstId) && FirstCapture(rules) == Some(rules[0])
            && (forall i :: 0 <= i < |rules| ==>
                 rules[i].precedence == i && rules[i].builtin && (i > 0 ==> !IsDnsCapture(rules[i])))
            && (forall i :: 1 <= i < |rules| ==>
                 rules[i].matcher == wanted[i - 1].matcher && rules[i].action == wanted[i - 1].action)
  {
  }

  /** The shape of the disconnected set: capture at 0, then eleven built-ins numbered from 1. */
  lemma BuiltinsShape(firstId: RuleId)
    ensures var rules := Builtins(None, firstId);
            && |rules| == 12 && rules[0] == DnsCapture(firstId) && FirstCapture(rules) == Some(rules[0])
            && (forall i :: 0 <= i < 12 ==>
                 rules[i].precedence == i && rules[i].builtin && (i > 0 ==> !IsDnsCapture(rules[i])))
            && (forall i :: 1 <= i < 12 ==>
                 rules[i].matcher == Ordered(None)[i - 1].matcher && rules[i].action == Ordered(None)[i - 1].action)
  {
    OrderedShape(NameHost(""));
    NumberedShape(Ordered(None), firstId);
  }

  lemma BuiltinsProvide(firstId: RuleId)
    ensures MissingBuiltin(Builtins(None, firstId), Required(None)).None?
  {
    BuiltinsShape(firstId);
    OrderedShape(NameHost(""));
    var rules, wanted := Builtins(None, firstId), Required(None);
    forall k | 0 <= k < |wanted| ensures Provides(rules, wanted[k]) {
      assert rules[k] in rules;
    }
  }

  lemma BuiltinsAreHeld(firstId: RuleId, host: Host)
    ensures HeldSet(Builtins(None, firstId)) && HasRoom(Builtins(None, firstId))
            && !HasBypass(Builtins(None, firstId), host)
  {
    BuiltinsShape(firstId);
    BuiltinsProvide(firstId);
    OrderedShape(host);
    var rules := Builtins(None, firstId);
    forall r | r in rules ensures r.builtin && r.precedence < 12 && (IsDnsCapture(r) ==> r == rules[0])
      ensures !BypassesAlready(r, EndpointMatcher(host))
    {
      var i :| 0 <= i < |rules| && rules[i] == r;
      if i > 0 { assert Ordered(None)[i - 1] != Wanted(EndpointMatcher(host), Bypass); }
    }
  }

  /** The same rule but for its identifier. */
  predicate SameRule(a: RoutingRule, b: RoutingRule) { a == b.(id := a.id) }

  lemma OpenedInPlace(host: Host, firstId: RuleId, id: RuleId, otherId: RuleId, i: nat)
    requires i < 13
    ensures |Opened(Builtins(None, firstId), host, id)| == |Builtins(Some(host), otherId)| == 13
    ensures var (out, built) := (Opened(Builtins(None, firstId), host, id), Builtins(Some(host), otherId));
            SameRule(out[i], built[if i == 0 then 0 else if i == 12 then 1 else i + 1])
  {
    OrderedShape(host);
    BuiltinsShape(firstId);
    var rules := Builtins(None, firstId);
    assert i < 12 ==> Opened(rules, host, id)[i] == Shifted(rules[i]);
  }

  /** Opening a place for the endpoint in the disconnected set gives, rule for rule, the set that is built
      with the endpoint from the start. */
  lemma OpenedIsBuiltWithEndpoint(host: Host, firstId: RuleId, id: RuleId, otherId: RuleId)
    requires Buildable(host)
    ensures var (r, built) := (WithActiveEndpoint(Builtins(None, firstId), host, id), Builtins(Some(host), otherId));
            && r.Ok? && |r.value| == |built| == 13
            && SameRule(r.value[0], built[0]) && SameRule(r.value[12], built[1])
            && forall i :: 1 <= i < 12 ==> SameRule(r.value[i], built[i + 1])
  {
    var rules := Builtins(None, firstId);
    BuiltinsAreHeld(firstId, host);
    InsertionSucceedsExactly(rules, host, id);
    InsertionFacts(rules, host, id);
    OpenedInPlace(host, firstId, id, otherId, 0);
    OpenedInPlace(host, firstId, id, otherId, 12);
    var out, built := Opened(rules, host, id), Builtins(Some(host), otherId);
    forall i | 1 <= i < 12 ensures SameRule(out[i], built[i + 1]) {
      OpenedInPlace(host, firstId, id, otherId, i);
    }
  }

  /** Two sets with the same rules but for identifiers, and distinct precedences, route every flow alike. */
  lemma SameRulesSameMeaning(a: RuleSet, b: RuleSet, flow: Flow)
    requires flow.Valid() && DistinctPrecedences(a) && DistinctPrecedences(b)
    requires Covers(a, b) && Covers(b, a)
    ensures Evaluate(a, flow) == Evaluate(b, flow)
  {
    DecidingIsLowest(a, flow);
    DecidingIsLowest(b, flow);
    if Deciding(a, flow).Some? {
      DecidesAlike(a, b, flow);
    } else if Deciding(b, flow).Some? {
      DecidesAlike(b, a, flow);
    }
  }

  /** Every rule of `b` is in `a`, but for its identifier. */
  ghost predicate Covers(a: seq<RoutingRule>, b: seq<RoutingRule>) {
    forall y :: y in b ==> HasTwin(a, y)
  }

  predicate HasTwin(a: seq<RoutingRule>, y: RoutingRule) { exists x :: x in a && SameRule(x, y) }

  lemma TwinMatches(x: RoutingRule, y: RoutingRule, flow: Flow)
    requires SameRule(x, y) && Built(y) && flow.Valid()
    ensures Built(x) && (Matches(x, flow) <==> Matches(y, flow)) && x.precedence == y.precedence && x.action == y.action
  {
  }

  lemma TwinIsLowest(a: RuleSet, b: RuleSet, flow: Flow, x: RoutingRule, y: RoutingRule)
    requires flow.Valid() && Covers(a, b) && SameRule(y, x) && x in a
    requires forall r :: r in a && Matches(r, flow) ==> x.precedence <= r.precedence
    ensures forall r :: r in b && Matches(r, flow) ==> y.precedence <= r.precedence
  {
    forall r | r in b && Matches(r, flow) ensures y.precedence <= r.precedence {
      assert HasTwin(a, r);
      var twin :| twin in a && SameRule(twin, r);
      TwinMatches(twin, r, flow);
    }
  }

  lemma DecidesAlike(a: RuleSet, b: RuleSet, flow: Flow)
    requires flow.Valid() && DistinctPrecedences(b)
    requires Covers(a, b) && Covers(b, a)
    requires Deciding(a, flow).Some?
    ensures Deciding(b, flow).Some? && Deciding(b, flow).value.action == Deciding(a, flow).value.action
  {
    DecidingIsLowest(a, flow);
    var x := Deciding(a, flow).value;
    assert HasTwin(b, x);
    var y :| y in b && SameRule(y, x);
    TwinMatches(y, x, flow);
    TwinIsLowest(a, b, flow, x, y);
    DecidingIfLowest(b, flow, y);
  }

  lemma {:induction false} OneLabel(b: string)
    requires forall i :: 0 <= i < |b| ==> b[i] != '.'
    ensures Labels(b) == [b]
  {
    if b != [] {
      OneLabel(b[1..]);
      assert b == [b[0]] + b[1..];
    }
  }

  lemma {:induction false} TwoLabels(a: string, b: string)
    requires forall i :: 0 <= i < |a| ==> a[i] != '.'
    requires Labels(b) == [b]
    ensures Labels(a + "." + b) == [a, b]
  {
    var whole := a + "." + b;
    if a != [] {
      TwoLabels(a[1..], b);
      assert whole[1..] == a[1..] + "." + b;
      assert a == [a[0]] + a[1..];
    } else {
      assert whole[1..] == b;
    }
  }

  lemma TwoLabelNameIsNormal(a: string, b: string)
    requires GoodLabel(a) && GoodLabel(b)
    ensures NormalizeDomain(a + "." + b) == Some(a + "." + b)
  {
    OneLabel(b);
    TwoLabels(a, b);
    var whole := a + "." + b;
    assert whole[|whole| - 1] == b[|b| - 1];
    forall i | 0 <= i < |whole| ensures whole[i] as int < 128 && LowerChar(whole[i]) == whole[i] {
      assert whole[i] == '.' || LabelChar(whole[i]);
    }
    assert Lower(whole) == whole;
  }

  lemma PortalSuffixesAreNormal(i: nat)
    requires i < |PORTAL_SUFFIXES|
    ensures NormalizeDomain(PORTAL_SUFFIXES[i]).Some?
  {
    var name := if i == 0 then "msftconnecttest" else "msftncsi";
    TwoLabelNameIsNormal(name, "com");
    assert name + "." + "com" == PORTAL_SUFFIXES[i];
  }

  predicate CanBeWritten(w: Wanted) {
    && (w.matcher.Domain? ==> NormalizeDomain(w.matcher.name).Some?)
    && (w.matcher.DomainSuffix? ==> NormalizeDomain(w.matcher.suffix).Some?)
    && (w.matcher.IpRange? ==> w.matcher.cidr.Valid())
    && !w.matcher.DnsPort? && !w.matcher.EncryptedDnsPort? && w.action != Reject
  }

  lemma RangesCanBeWritten(i: nat)
    ensures i < |ORIGINS| ==> CanBeWritten(OriginWanted()(ORIGINS[i]))
    ensures i < |LOCAL_RANGES| ==> CanBeWritten(RangeWanted()(LOCAL_RANGES[i]))
  {
  }

  lemma AlwaysCanBeWritten(i: nat)
    requires i < |Always()|
    ensures CanBeWritten(Always()[i])
  {
    AlwaysInPlace(i);
    if i < 2 {
      RangesCanBeWritten(i);
    } else if i < 9 {
      RangesCanBeWritten(i - 2);
    } else {
      PortalSuffixesAreNormal(i - 9);
    }
  }

  lemma OrderedCanBeWritten(active: Option<Host>, i: nat)
    requires active.Some? ==> active.value.Valid() && Buildable(active.value)
    requires i < |Ordered(active)|
    ensures CanBeWritten(Ordered(active)[i])
  {
    var n := if active.Some? then 1 else 0;
    if n <= i {
      assert Ordered(active)[i] == Always()[i - n];
      AlwaysCanBeWritten(i - n);
    }
  }

  lemma NumberedAt(wanted: seq<Wanted>, firstId: RuleId, i: nat)
    requires i <= |wanted|
    ensures var rules := [DnsCapture(firstId)] + Numbered(wanted, firstId);
            && |rules| == |wanted| + 1 && rules[i].precedence == i && rules[i].builtin
            && (if i == 0 then rules[i] == DnsCapture(firstId)
                else rules[i].matcher == wanted[i - 1].matcher && rules[i].action == wanted[i - 1].action)
  {
  }

  lemma WrittenIsBuilt(w: Wanted, r: RoutingRule)
    requires CanBeWritten(w) && r.matcher == w.matcher && r.action == w.action
    ensures Built(r)
  {
  }

  lemma BuiltinsAreBuilt(active: Option<Host>, firstId: RuleId)
    requires active.Some? ==> active.value.Valid() && Buildable(active.value)
    ensures forall i :: 0 <= i < |Builtins(active, firstId)| ==> Built(Builtins(active, firstId)[i])
    ensures DistinctPrecedences(Builtins(active, firstId))
  {
    var rules, wanted := Builtins(active, firstId), Ordered(active);
    NumberedAt(wanted, firstId, 0);
    forall i | 0 <= i < |rules| ensures Built(rules[i]) && rules[i].precedence == i {
      NumberedAt(wanted, firstId, i);
      if i > 0 {
        OrderedCanBeWritten(active, i - 1);
        WrittenIsBuilt(wanted[i - 1], rules[i]);
      }
    }
  }

  /** A tunnel's rules route every flow alike, whether the endpoint was there from the start or its place
      was opened later. */
  lemma OpenedRoutesLikeBuilt(host: Host, firstId: RuleId, id: RuleId, otherId: RuleId, flow: Flow)
    requires host.Valid() && Buildable(host) && flow.Valid()
    ensures WithActiveEndpoint(Builtins(None, firstId), host, id).Ok?
    ensures var (out, built) :=
            (WithActiveEndpoint(Builtins(None, firstId), host, id).value, Builtins(Some(host), otherId));
            && (forall i :: 0 <= i < |out| ==> Built(out[i])) && (forall i :: 0 <= i < |built| ==> Built(built[i]))
            && Evaluate(out, flow) == Evaluate(built, flow)
  {
    OpenedIsBuiltWithEndpoint(host, firstId, id, otherId);
    BuiltinsAreHeld(firstId, host);
    InsertionFacts(Builtins(None, firstId), host, id);
    BuiltinsAreBuilt(None, firstId);
    BuiltinsAreBuilt(Some(host), otherId);
    OpenedIsBuilt(Builtins(None, firstId), host, id);
    RoutesAlike(Opened(Builtins(None, firstId), host, id), Builtins(Some(host), otherId), flow);
  }

  lemma RoutesAlike(out: RuleSet, built: RuleSet, flow: Flow)
    requires |out| == |built| == 13 && DistinctPrecedences(out) && DistinctPrecedences(built) && flow.Valid()
    requires SameRule(out[0], built[0]) && SameRule(out[12], built[1])
    requires forall i :: 1 <= i < 12 ==> SameRule(out[i], built[i + 1])
    ensures Evaluate(out, flow) == Evaluate(built, flow)
  {
    TwinsBothWays(out, built);
    SameRulesSameMeaning(out, built, flow);
  }

  lemma TwinsBothWays(out: seq<RoutingRule>, built: seq<RoutingRule>)
    requires |out| == |built| == 13
    requires SameRule(out[0], built[0]) && SameRule(out[12], built[1])
    requires forall i :: 1 <= i < 12 ==> SameRule(out[i], built[i + 1])
    ensures Covers(out, built) && Covers(built, out)
  {
    forall y | y in built ensures HasTwin(out, y) {
      var j :| 0 <= j < 13 && built[j] == y;
      var i := if j == 0 then 0 else if j == 1 then 12 else j - 1;
      assert out[i] in out && SameRule(out[i], y);
    }
    forall x | x in out ensures HasTwin(built, x) {
      var i :| 0 <= i < 13 && out[i] == x;
      var j := if i == 0 then 0 else if i == 12 then 1 else i + 1;
      assert built[j] in built && SameRule(built[j], x);
    }
  }

  // ------------------------------------------------------------------ a person's rules

  function BuiltinTest(): RoutingRule -> bool { (r: RoutingRule) => r.builtin }

  /** The built-in rules of a set. */
  function BuiltinsOf(rules: RuleSet): RuleSet {
    var builtins := Filter(rules, BuiltinTest());
    assert forall i :: 0 <= i < |builtins| ==> Built(builtins[i]) by {
      forall i | 0 <= i < |builtins| ensures Built(builtins[i]) {
        assert builtins[i] in builtins && builtins[i] in rules;
      }
    }
    builtins
  }

  lemma BuiltinsOutrank(rules: RuleSet, flow: Flow)
    requires flow.Valid() && DistinctPrecedences(rules) && UserRulesFollow(rules)
    requires Deciding(BuiltinsOf(rules), flow).Some?
    ensures Deciding(rules, flow) == Deciding(BuiltinsOf(rules), flow)
  {
    var builtins := BuiltinsOf(rules);
    DecidingIsLowest(builtins, flow);
    var d := Deciding(builtins, flow).value;
    forall r | r in rules && Matches(r, flow) ensures d.precedence <= r.precedence {
      if r.builtin {
        assert r in builtins;
      } else {
        assert !TooLow(rules, r);
      }
    }
    DecidingIfLowest(rules, flow, d);
  }

  /** In a set that the program holds, no rule a person added can change what the built-ins decide: what they
      bypass stays local, what they refuse stays refused, and plain DNS stays captured. */
  lemma PersonalRulesCannotLift(rules: RuleSet, flow: Flow)
    requires flow.Valid() && DistinctPrecedences(rules) && UserRulesFollow(rules)
    requires Deciding(BuiltinsOf(rules), flow).Some?
    ensures Evaluate(rules, flow) == Evaluate(BuiltinsOf(rules), flow)
  {
    BuiltinsOutrank(rules, flow);
  }
}
