/** Chains of findings on one host: the retrospective rule match, its prospective dual, and the
    candidates for second-order confirmation. */
module Chains {
  import opened Options
  import Text

  datatype Tag =
    | OpenRedirect | Ssrf | AdminExposure | AccessControl | DependencyExposure | KnownVuln | WeakAuth | BusinessLogic
    | RateLimit | Xss | Oauth | GraphqlIntrospection | SubdomainTakeover | WebCachePoisoning | HeaderInjection
    | Deserialization | SessionFixation | Websocket | Sqli | Idor | Csrf | Xxe | StoredWrite | CommandInjection
    | OtherTag(name: string)

  datatype Severity = High | Critical

  datatype Rule = Rule(signature: string, tagA: Tag, tagB: Tag, severity: Severity)

  /** The rule table. */
  const RULES: seq<Rule> := FIRST_RULES + MORE_RULES + LAST_RULES

  const FIRST_RULES: seq<Rule> := [
    Rule("open_redirect+ssrf", OpenRedirect, Ssrf, Critical),
    Rule("admin_exposure+access_control", AdminExposure, AccessControl, High),
    Rule("dependency_exposure+known_vuln", DependencyExposure, KnownVuln, High),
    Rule("weak_auth+business_logic", WeakAuth, BusinessLogic, High),
    Rule("idor+rate_limit", AccessControl, RateLimit, High),
    Rule("xss+weak_auth", Xss, WeakAuth, High),
    Rule("open_redirect+oauth", OpenRedirect, Oauth, High),
    Rule("graphql_introspection+access_control", GraphqlIntrospection, AccessControl, High)]

  const MORE_RULES: seq<Rule> := [
    Rule("subdomain_takeover+oauth", SubdomainTakeover, Oauth, Critical),
    Rule("web_cache_poisoning+xss", WebCachePoisoning, Xss, Critical),
    Rule("header_injection+web_cache_poisoning", HeaderInjection, WebCachePoisoning, High),
    Rule("deserialization+known_vuln", Deserialization, KnownVuln, Critical),
    Rule("session_fixation+xss", SessionFixation, Xss, Critical),
    Rule("websocket+access_control", Websocket, AccessControl, High)]

  const LAST_RULES: seq<Rule> := [
    Rule("sqli+idor", Sqli, Idor, Critical),
    Rule("csrf+weak_auth", Csrf, WeakAuth, High),
    Rule("xxe+ssrf", Xxe, Ssrf, Critical),
    Rule("second_order_sqli", StoredWrite, Sqli, Critical),
    Rule("second_order_idor", StoredWrite, Idor, High),
    Rule("command_injection+known_vuln", CommandInjection, KnownVuln, Critical)]

  datatype Finding = Finding(cls: string, url: string, basis: string, confirmed: bool)

  datatype Chain = Chain(
    signature: string, severity: Severity, a: Finding, b: Finding, speculative: bool, basis: string)

  datatype Hint = Hint(signature: string, have: Tag, lookFor: Tag, severity: Severity)

  /** How a vulnerability class is tagged; nothing else of a finding is looked at. */
  type Tagging = string -> set<Tag>

  // ------------------------------------------------------------------
  // How sure a chain is
  // ------------------------------------------------------------------

  function Normal(basis: string): string { Text.Lower(Text.Strip(if basis == "" then "derived" else basis)) }

  function Rank(basis: string): nat {
    if basis == "assumed" || basis == "recalled" then 0
    else if basis == "observed" then 2
    else if basis == "confirmed" then 3
    else 1
  }

  /** The weaker of the two, the first of two equals. */
  function WeakestBasis(a: Finding, b: Finding): string {
    if Rank(Normal(b.basis)) < Rank(Normal(a.basis)) then Normal(b.basis) else Normal(a.basis)
  }

  /** A basis counts without padding and case; none is "derived". */
  lemma BasisNormal(before: string, basis: string, after: string)
    requires Text.Blank(before) && Text.Blank(after)
    requires basis != "" && !Text.IsSpace(basis[0]) && !Text.IsSpace(basis[|basis| - 1])
    ensures Normal("") == "derived" && Normal(before + basis + after) == Text.Lower(basis)
  {
    Text.StripPadded(before, basis, after);
    Text.StripPadded("", "derived", "");
    assert "" + "derived" + "" == "derived";
  }

  /** The weaker basis: guessed if either is, seen only if both are, confirmed only if both are, and of
      equally sure ones the first. */
  lemma WeakestMeans(a: Finding, b: Finding)
    ensures var guessed, seen := {"assumed", "recalled"}, {"observed", "confirmed"};
            var x, y, w := Normal(a.basis), Normal(b.basis), WeakestBasis(a, b);
            && (w in guessed <==> x in guessed || y in guessed) && (w in seen <==> x in seen && y in seen)
            && (w == "confirmed" <==> x == "confirmed" && y == "confirmed") && w in {x, y}
            && ((&& (x in guessed <==> y in guessed) && (x in seen <==> y in seen)
                 && (x == "confirmed" <==> y == "confirmed")) ==> w == x)
  {
    hide Normal;
  }

  predicate Speculative(f: Finding) {
    !f.confirmed && Text.Lower(Text.Strip(f.basis)) in {"assumed", "recalled"}
  }

  // ------------------------------------------------------------------
  // Detection
  // ------------------------------------------------------------------

  function FirstWith(host: seq<Finding>, tag: Tag, tags: Tagging): Option<Finding> {
    if host == [] then None
    else if tag in tags(host[0].cls) then Some(host[0])
    else FirstWith(host[1..], tag, tags)
  }

  /** The chain a rule makes on a host, if it fires. */
  function ChainOf(rule: Rule, host: seq<Finding>, tags: Tagging): Option<Chain> {
    var a, b := FirstWith(host, rule.tagA, tags), FirstWith(host, rule.tagB, tags);
    if a.None? || b.None? || (a.value.url == b.value.url && rule.tagA == rule.tagB) then None
    else Some(Chain(rule.signature, rule.severity, a.value, b.value,
                    Speculative(a.value) || Speculative(b.value), WeakestBasis(a.value, b.value)))
  }

  predicate Fires(rule: Rule, host: seq<Finding>, tags: Tagging) { ChainOf(rule, host, tags).Some? }

  function ChainsOf(rules: seq<Rule>, host: seq<Finding>, tags: Tagging): seq<Chain> {
    if rules == [] then []
    else
      var last := ChainOf(rules[|rules| - 1], host, tags);
      ChainsOf(rules[..|rules| - 1], host, tags) + if last.Some? then [last.value] else []
  }

  method Detect(rules: seq<Rule>, host: seq<Finding>, tags: Tagging) returns (chains: seq<Chain>)
    ensures chains == ChainsOf(rules, host, tags)
  {
    hide Speculative, WeakestBasis;
    chains := [];
    for i := 0 to |rules|
      invariant chains == ChainsOf(rules[..i], host, tags)
    {
      var rule := rules[i];
      assert rules[..i + 1][..i] == rules[..i] && rules[..i + 1][i] == rule;
      var a, b := FirstWith(host, rule.tagA, tags), FirstWith(host, rule.tagB, tags);
      if a.None? || b.None? {
        continue;
      }
      if a.value.url == b.value.url && rule.tagA == rule.tagB {
        continue;
      }
      chains := chains + [Chain(rule.signature, rule.severity, a.value, b.value,
                                Speculative(a.value) || Speculative(b.value), WeakestBasis(a.value, b.value))];
    }
    assert rules[..|rules|] == rules;
  }

  predicate Carries(host: seq<Finding>, tag: Tag, tags: Tagging) { exists f :: f in host && tag in tags(f.cls) }

  lemma {:induction false} FirstWithFinds(host: seq<Finding>, tag: Tag, tags: Tagging)
    ensures FirstWith(host, tag, tags).Some? <==> Carries(host, tag, tags)
    ensures FirstWith(host, tag, tags).Some? ==>
              FirstWith(host, tag, tags).value in host && tag in tags(FirstWith(host, tag, tags).value.cls)
  {
    if host != [] {
      FirstWithFinds(host[1..], tag, tags);
      assert forall f :: f in host <==> f == host[0] || f in host[1..];
    }
  }

  /** When a rule fires, whatever the order of the findings: its tags differ and both are on the host. */
  lemma FiresWhen(rule: Rule, host: seq<Finding>, tags: Tagging)
    ensures Fires(rule, host, tags) <==>
              rule.tagA != rule.tagB && Carries(host, rule.tagA, tags) && Carries(host, rule.tagB, tags)
  {
    hide FirstWith, Carries, Speculative, WeakestBasis;
    FirstWithFinds(host, rule.tagA, tags);
    FirstWithFinds(host, rule.tagB, tags);
  }

  lemma {:induction false} FirstWithKept(host: seq<Finding>, more: seq<Finding>, tag: Tag, tags: Tagging)
    requires FirstWith(host, tag, tags).Some?
    ensures FirstWith(host + more, tag, tags) == FirstWith(host, tag, tags)
  {
    assert (host + more)[1..] == host[1..] + more;
    if tag !in tags(host[0].cls) { FirstWithKept(host[1..], more, tag, tags); }
  }

  /** A chain once found is found again, with the same two findings, however many are appended. */
  lemma ChainIsKept(rule: Rule, host: seq<Finding>, more: seq<Finding>, tags: Tagging)
    requires Fires(rule, host, tags)
    ensures ChainOf(rule, host + more, tags) == ChainOf(rule, host, tags)
  {
    hide FirstWith, Speculative, WeakestBasis;
    FirstWithKept(host, more, rule.tagA, tags);
    FirstWithKept(host, more, rule.tagB, tags);
  }

  lemma SpeculativeIsLow(f: Finding)
    ensures Speculative(f) <==> !f.confirmed && Rank(Normal(f.basis)) == 0
  {
    if f.basis == "" {
      assert |Text.Lower(Text.Strip(f.basis))| == 0;
      DerivedIsNotLow();
    }
  }

  lemma DerivedIsNotLow()
    ensures Rank(Normal("")) != 0
  {
    var d := "derived";
    assert Text.StripRight(d) == d && Text.StripLeft(d) == d;
    assert Text.Lower(d)[0] == 'd';
  }

  /** A chain is as sure as its weaker input and no surer, and it is speculative exactly when it rests
      on an input of the lowest rank that nobody confirmed. */
  lemma ChainIsAsSureAsItsInputs(rule: Rule, host: seq<Finding>, tags: Tagging)
    requires Fires(rule, host, tags)
    ensures var c := ChainOf(rule, host, tags).value;
            && Rank(c.basis) <= Rank(Normal(c.a.basis)) && Rank(c.basis) <= Rank(Normal(c.b.basis))
            && c.basis in {Normal(c.a.basis), Normal(c.b.basis)}
            && (c.speculative <==> (!c.a.confirmed && Rank(Normal(c.a.basis)) == 0)
                                   || (!c.b.confirmed && Rank(Normal(c.b.basis)) == 0))
            && (c.speculative ==> Rank(c.basis) == 0)
  {
    hide Speculative, Normal, FirstWith, Rank;
    var c := ChainOf(rule, host, tags).value;
    SpeculativeIsLow(c.a);
    SpeculativeIsLow(c.b);
  }

  // ------------------------------------------------------------------
  // Pivot hints
  // ------------------------------------------------------------------

  function Present(host: seq<Finding>, tags: Tagging): set<Tag> {
    if host == [] then {} else Present(host[..|host| - 1], tags) + tags(host[|host| - 1].cls)
  }

  predicate Wanted(have: Tag, lookFor: Tag, mine: set<Tag>, present: set<Tag>) {
    have in mine && lookFor !in present && lookFor !in mine
  }

  /** Adds a hint unless its signature and goal are there. */
  function Offer(hints: seq<Hint>, hint: Hint, wanted: bool): seq<Hint> {
    if wanted && !Offered(hints, hint.signature, hint.lookFor) then hints + [hint] else hints
  }

  predicate Offered(hints: seq<Hint>, signature: string, lookFor: Tag) {
    exists h :: h in hints && h.signature == signature && h.lookFor == lookFor
  }

  /** Both ways round a rule. */
  function Offers(hints: seq<Hint>, rule: Rule, mine: set<Tag>, present: set<Tag>): seq<Hint> {
    var ab := Hint(rule.signature, rule.tagA, rule.tagB, rule.severity);
    var ba := Hint(rule.signature, rule.tagB, rule.tagA, rule.severity);
    var one := Offer(hints, ab, Wanted(rule.tagA, rule.tagB, mine, present));
    Offer(one, ba, Wanted(rule.tagB, rule.tagA, mine, present))
  }

  function HintsOf(rules: seq<Rule>, mine: set<Tag>, present: set<Tag>): seq<Hint> {
    if rules == [] then []
    else Offers(HintsOf(rules[..|rules| - 1], mine, present), rules[|rules| - 1], mine, present)
  }

  /** The pairs offered so far, as the code keeps them. */
  ghost function Keys(hints: seq<Hint>): set<(string, Tag)> { set h | h in hints :: (h.signature, h.lookFor) }

  method OfferOne(hints: seq<Hint>, seen: set<(string, Tag)>, hint: Hint, mine: set<Tag>, present: set<Tag>)
    returns (hints': seq<Hint>, seen': set<(string, Tag)>)
    requires seen == Keys(hints)
    ensures hints' == Offer(hints, hint, Wanted(hint.have, hint.lookFor, mine, present)) && seen' == Keys(hints')
  {
    hints', seen' := hints, seen;
    if hint.have in mine && hint.lookFor !in present && hint.lookFor !in mine {
      var key := (hint.signature, hint.lookFor);
      if key in seen {
        return;
      }
      hints', seen' := hints + [hint], seen + {key};
    }
  }

  method PivotHints(rules: seq<Rule>, cls: string, host: seq<Finding>, tags: Tagging) returns (hints: seq<Hint>)
    ensures hints == HintsOf(rules, tags(cls), Present(host, tags))
  {
    hide Keys, Offer, Wanted;
    var mine := tags(cls);
    if mine == {} {
      NoTagsNoHints(rules, Present(host, tags));
      return [];
    }
    var present := {};
    for i := 0 to |host|
      invariant present == Present(host[..i], tags)
    {
      assert host[..i + 1][..i] == host[..i] && host[..i + 1][i] == host[i];
      present := present + tags(host[i].cls);
    }
    assert host[..|host|] == host;
    hints := [];
    NoKeys();
    var seen: set<(string, Tag)> := {};
    for i := 0 to |rules|
      invariant hints == HintsOf(rules[..i], mine, present) && seen == Keys(hints)
    {
      var rule := rules[i];
      assert rules[..i + 1][..i] == rules[..i] && rules[..i + 1][i] == rule;
      hints, seen := OfferOne(hints, seen, Hint(rule.signature, rule.tagA, rule.tagB, rule.severity), mine, present);
      hints, seen := OfferOne(hints, seen, Hint(rule.signature, rule.tagB, rule.tagA, rule.severity), mine, present);
    }
    assert rules[..|rules|] == rules;
  }

  lemma NoKeys()
    ensures Keys([]) == {}
  {}

  lemma {:induction false} NoTagsNoHints(rules: seq<Rule>, present: set<Tag>)
    ensures HintsOf(rules, {}, present) == []
  {
    if rules != [] { NoTagsNoHints(rules[..|rules| - 1], present); }
  }

  lemma {:induction false} PresentMeansCarried(host: seq<Finding>, tags: Tagging, tag: Tag)
    ensures tag in Present(host, tags) <==> Carries(host, tag, tags)
  {
    if host != [] {
      PresentMeansCarried(host[..|host| - 1], tags, tag);
      assert forall f :: f in host <==> f in host[..|host| - 1] || f == host[|host| - 1];
    }
  }

  ghost predicate Asks(rule: Rule, signature: string, have: Tag, lookFor: Tag) {
    && rule.signature == signature
    && ((rule.tagA == have && rule.tagB == lookFor) || (rule.tagB == have && rule.tagA == lookFor))
  }

  lemma OfferSound(hints: seq<Hint>, hint: Hint, wanted: bool)
    ensures forall h :: h in Offer(hints, hint, wanted) ==> h in hints || (wanted && h == hint)
    ensures forall s, t :: Offered(Offer(hints, hint, wanted), s, t) <==>
              Offered(hints, s, t) || (wanted && s == hint.signature && t == hint.lookFor)
  {
    if wanted && !Offered(hints, hint.signature, hint.lookFor) {
      assert forall h :: h in hints + [hint] <==> h in hints || h == hint;
      assert hint in hints + [hint];
    }
  }

  /** Some rule asks for the goal, with one side just found and the goal not there. */
  ghost predicate IsAsked(rules: seq<Rule>, mine: set<Tag>, present: set<Tag>, signature: string, lookFor: Tag) {
    exists rule, have :: rule in rules && Asks(rule, signature, have, lookFor) && Wanted(have, lookFor, mine, present)
  }

  /** One rule read either way asks for the goal. */
  ghost predicate LastAsks(rule: Rule, mine: set<Tag>, present: set<Tag>, signature: string, lookFor: Tag) {
    rule.signature == signature && ((rule.tagB == lookFor && Wanted(rule.tagA, lookFor, mine, present))
                                    || (rule.tagA == lookFor && Wanted(rule.tagB, lookFor, mine, present)))
  }

  lemma OffersSound(hints: seq<Hint>, rule: Rule, mine: set<Tag>, present: set<Tag>, signature: string, lookFor: Tag)
    ensures Offered(Offers(hints, rule, mine, present), signature, lookFor)
            <==> Offered(hints, signature, lookFor) || LastAsks(rule, mine, present, signature, lookFor)
  {
    hide Offer, Offered, Wanted;
    var wantB := Wanted(rule.tagA, rule.tagB, mine, present);
    var ab := Hint(rule.signature, rule.tagA, rule.tagB, rule.severity);
    OfferSound(hints, ab, wantB);
    OfferSound(Offer(hints, ab, wantB), Hint(rule.signature, rule.tagB, rule.tagA, rule.severity),
               Wanted(rule.tagB, rule.tagA, mine, present));
  }

  /** Which goals are offered: those of a rule with one side just found and the other not there. */
  lemma {:induction false} OfferedWhen(
    rules: seq<Rule>, mine: set<Tag>, present: set<Tag>, signature: string, lookFor: Tag)
    ensures Offered(HintsOf(rules, mine, present), signature, lookFor)
            <==> IsAsked(rules, mine, present, signature, lookFor)
  {
    if rules != [] {
      hide Offers, Offered, IsAsked, LastAsks;
      var front, rule := rules[..|rules| - 1], rules[|rules| - 1];
      OfferedWhen(front, mine, present, signature, lookFor);
      OffersSound(HintsOf(front, mine, present), rule, mine, present, signature, lookFor);
      AskedByLast(front, rule, signature, lookFor, mine, present);
      assert rules == front + [rule];
    }
  }

  lemma AskedByLast(
    front: seq<Rule>, last: Rule, signature: string, lookFor: Tag, mine: set<Tag>, present: set<Tag>)
    ensures IsAsked(front + [last], mine, present, signature, lookFor)
            <==> IsAsked(front, mine, present, signature, lookFor) || LastAsks(last, mine, present, signature, lookFor)
  {
    hide Wanted;
    assert last in front + [last];
    assert forall rule :: rule in front ==> rule in front + [last];
    if last.signature == signature && last.tagB == lookFor { assert Asks(last, signature, last.tagA, lookFor); }
    if last.signature == signature && last.tagA == lookFor { assert Asks(last, signature, last.tagB, lookFor); }
  }

  /** Every hint is one such rule, read one way or the other. */
  lemma {:induction false} HintsAreRules(rules: seq<Rule>, mine: set<Tag>, present: set<Tag>, h: Hint)
    requires h in HintsOf(rules, mine, present)
    ensures Wanted(h.have, h.lookFor, mine, present)
    ensures exists rule :: rule in rules && Asks(rule, h.signature, h.have, h.lookFor) && rule.severity == h.severity
  {
    if rules != [] {
      hide Offer, Offered, Wanted;
      var front, rule := rules[..|rules| - 1], rules[|rules| - 1];
      var hints := HintsOf(front, mine, present);
      var wantB := Wanted(rule.tagA, rule.tagB, mine, present);
      var ab := Hint(rule.signature, rule.tagA, rule.tagB, rule.severity);
      OfferSound(hints, ab, wantB);
      OfferSound(Offer(hints, ab, wantB), Hint(rule.signature, rule.tagB, rule.tagA, rule.severity),
                 Wanted(rule.tagB, rule.tagA, mine, present));
      if h in hints {
        HintsAreRules(front, mine, present, h);
      } else {
        assert rule in rules && Asks(rule, h.signature, h.have, h.lookFor);
      }
    }
  }

  /** No goal is offered twice under one signature. */
  lemma {:induction false} HintsDiffer(rules: seq<Rule>, mine: set<Tag>, present: set<Tag>)
    ensures Differ(HintsOf(rules, mine, present))
  {
    if rules != [] {
      hide Differ, Offered, Wanted;
      var front, rule := rules[..|rules| - 1], rules[|rules| - 1];
      HintsDiffer(front, mine, present);
      var wantB := Wanted(rule.tagA, rule.tagB, mine, present);
      var ab := Hint(rule.signature, rule.tagA, rule.tagB, rule.severity);
      var hints := HintsOf(front, mine, present);
      OfferDiffers(hints, ab, wantB);
      OfferDiffers(Offer(hints, ab, wantB), Hint(rule.signature, rule.tagB, rule.tagA, rule.severity),
                   Wanted(rule.tagB, rule.tagA, mine, present));
    } else {
      assert Differ([]);
    }
  }

  ghost predicate Differ(hints: seq<Hint>) {
    forall i, j :: 0 <= i < j < |hints| ==>
        (hints[i].signature, hints[i].lookFor) != (hints[j].signature, hints[j].lookFor)
  }

  lemma OfferDiffers(hints: seq<Hint>, hint: Hint, wanted: bool)
    requires Differ(hints)
    ensures Differ(Offer(hints, hint, wanted))
  {
    assert forall i :: 0 <= i < |hints| ==> hints[i] in hints;
  }

  // ------------------------------------------------------------------
  // The two views are complementary
  // ------------------------------------------------------------------

  /** The goals of a rule's own tags among the hints for a finding new on the host. */
  ghost predicate Hinted(rules: seq<Rule>, rule: Rule, found: Finding, host: seq<Finding>, tags: Tagging) {
    var hints := HintsOf(rules, tags(found.cls), Present(host, tags));
    Offered(hints, rule.signature, rule.tagA) || Offered(hints, rule.signature, rule.tagB)
  }

  lemma CarriesOneMore(host: seq<Finding>, found: Finding, tag: Tag, tags: Tagging)
    ensures Carries(host + [found], tag, tags) <==> Carries(host, tag, tags) || tag in tags(found.cls)
  {
    assert forall f :: f in host + [found] <==> f in host || f == found;
    assert found in host + [found];
  }

  /** For a finding on one side of a rule: the rule either fires on the host with it or is hinted at,
      and never both - unless both sides of the rule are one tag, when it never does either. */
  lemma FiresOrHints(rules: seq<Rule>, rule: Rule, found: Finding, host: seq<Finding>, tags: Tagging)
    requires rule in rules && (rule.tagA in tags(found.cls) || rule.tagB in tags(found.cls))
    ensures !(Fires(rule, host + [found], tags) && Hinted(rules, rule, found, host, tags))
    ensures Fires(rule, host + [found], tags) || Hinted(rules, rule, found, host, tags) <==> rule.tagA != rule.tagB
  {
    hide Offered, HintsOf, Carries, Present, Fires;
    var mine, present, all := tags(found.cls), Present(host, tags), host + [found];
    FiresWhen(rule, all, tags);
    forall t ensures Carries(all, t, tags) <==> t in present || t in mine {
      CarriesOneMore(host, found, t, tags);
      PresentMeansCarried(host, tags, t);
    }
    OfferedWhen(rules, mine, present, rule.signature, rule.tagA);
    OfferedWhen(rules, mine, present, rule.signature, rule.tagB);
    if !Fires(rule, all, tags) && rule.tagA != rule.tagB {
      if rule.tagA in mine {
        assert Asks(rule, rule.signature, rule.tagA, rule.tagB);
      } else {
        assert Asks(rule, rule.signature, rule.tagB, rule.tagA);
      }
    }
  }

  /** Following a hint completes its chain: any later host list with the finding and with one that
      carries the goal fires a rule of the hint's signature and severity. */
  lemma {:induction false} HintCompletes(
      rules: seq<Rule>, h: Hint, found: Finding, host: seq<Finding>, later: seq<Finding>, goal: Finding, tags: Tagging)
    requires h in HintsOf(rules, tags(found.cls), Present(host, tags))
    requires found in later && goal in later && h.lookFor in tags(goal.cls)
    ensures exists rule ::
              rule in rules && rule.signature == h.signature && rule.severity == h.severity && Fires(rule, later, tags)
  {
    hide HintsOf, Fires;
    HintsAreRules(rules, tags(found.cls), Present(host, tags), h);
    var rule :| rule in rules && Asks(rule, h.signature, h.have, h.lookFor) && rule.severity == h.severity;
    FiresWhen(rule, later, tags);
    assert Carries(later, h.have, tags) && Carries(later, h.lookFor, tags);
  }

  /** In the shipped table no rule is dead: its two tags differ. */
  lemma ShippedRulesAreLive(rule: Rule)
    requires rule in RULES
    ensures rule.tagA != rule.tagB
  {
    if rule in FIRST_RULES { FirstRulesAreLive(rule); }
    if rule in MORE_RULES { MoreRulesAreLive(rule); }
    if rule in LAST_RULES { LastRulesAreLive(rule); }
  }

  lemma FirstRulesAreLive(rule: Rule)
    requires rule in FIRST_RULES
    ensures rule.tagA != rule.tagB && rule.tagA != StoredWrite && rule.tagB != StoredWrite
    ensures rule.signature !in {"second_order_sqli", "second_order_idor"}
  {}

  lemma MoreRulesAreLive(rule: Rule)
    requires rule in MORE_RULES
    ensures rule.tagA != rule.tagB && rule.tagA != StoredWrite && rule.tagB != StoredWrite
    ensures rule.signature !in {"second_order_sqli", "second_order_idor"}
  {}

  lemma LastRulesAreLive(rule: Rule)
    requires rule in LAST_RULES
    ensures rule.tagA != rule.tagB && rule.tagB != StoredWrite
    ensures rule.tagA == StoredWrite <==> rule.signature in {"second_order_sqli", "second_order_idor"}
    ensures rule.tagA == StoredWrite ==> rule.tagB == if rule.signature == "second_order_sqli" then Sqli else Idor
  {}

  /** The shipped rules over stored writes are the two kinds second-order candidates are made for. */
  lemma ShippedSecondOrder(rule: Rule)
    requires rule in RULES
    ensures rule.tagB != StoredWrite
    ensures rule.tagA == StoredWrite <==> rule.signature in {"second_order_sqli", "second_order_idor"}
    ensures rule.tagA == StoredWrite ==> rule.tagB == if rule.signature == "second_order_sqli" then Sqli else Idor
  {
    if rule in FIRST_RULES { FirstRulesAreLive(rule); }
    if rule in MORE_RULES { MoreRulesAreLive(rule); }
    if rule in LAST_RULES { LastRulesAreLive(rule); }
  }

  /** So on the shipped table a finding on one side of a rule always does exactly one of the two. */
  lemma ShippedFiresOrHints(rule: Rule, found: Finding, host: seq<Finding>, tags: Tagging)
    requires rule in RULES && (rule.tagA in tags(found.cls) || rule.tagB in tags(found.cls))
    ensures Fires(rule, host + [found], tags) <==> !Hinted(RULES, rule, found, host, tags)
  {
    hide Fires, Hinted;
    ShippedRulesAreLive(rule);
    FiresOrHints(RULES, rule, found, host, tags);
  }

  /** Chains come out once per rule that fires, and a host that grows never loses one. */
  lemma {:induction false} ChainsGrow(rules: seq<Rule>, host: seq<Finding>, more: seq<Finding>, tags: Tagging, c: Chain)
    ensures c in ChainsOf(rules, host, tags) <==> exists rule :: rule in rules && ChainOf(rule, host, tags) == Some(c)
    ensures c in ChainsOf(rules, host, tags) ==> c in ChainsOf(rules, host + more, tags)
  {
    if rules != [] {
      hide ChainOf;
      var front, rule := rules[..|rules| - 1], rules[|rules| - 1];
      assert forall r :: r in rules <==> r in front || r == rule;
      ChainsGrow(front, host, more, tags, c);
      if ChainOf(rule, host, tags).Some? { ChainIsKept(rule, host, more, tags); }
    }
  }

  // ------------------------------------------------------------------
  // Second-order candidates
  // ------------------------------------------------------------------

  datatype Candidate = Candidate(signature: string, a: Finding, b: Finding)

  function Carrying(host: seq<Finding>, tag: Tag, tags: Tagging): seq<Finding> {
    if host == [] then []
    else
      var front := Carrying(host[..|host| - 1], tag, tags);
      if tag in tags(host[|host| - 1].cls) then front + [host[|host| - 1]] else front
  }

  function WithReads(a: Finding, sources: seq<Finding>, signature: string): seq<Candidate> {
    if sources == [] then []
    else
      var front, b := WithReads(a, sources[..|sources| - 1], signature), sources[|sources| - 1];
      if a.url == b.url then front else front + [Candidate(signature, a, b)]
  }

  function Pairs(writes: seq<Finding>, sources: seq<Finding>, signature: string): seq<Candidate> {
    if writes == [] then []
    else Pairs(writes[..|writes| - 1], sources, signature) + WithReads(writes[|writes| - 1], sources, signature)
  }

  /** All write and read pairs at different addresses, for one kind. */
  method PairsOfKind(writes: seq<Finding>, sources: seq<Finding>, signature: string) returns (out: seq<Candidate>)
    ensures out == Pairs(writes, sources, signature)
  {
    out := [];
    for i := 0 to |writes|
      invariant out == Pairs(writes[..i], sources, signature)
    {
      assert writes[..i + 1][..i] == writes[..i] && writes[..i + 1][i] == writes[i];
      ghost var before := out;
      for k := 0 to |sources|
        invariant out == before + WithReads(writes[i], sources[..k], signature)
      {
        assert sources[..k + 1][..k] == sources[..k] && sources[..k + 1][k] == sources[k];
        if writes[i].url == sources[k].url {
          continue;
        }
        out := out + [Candidate(signature, writes[i], sources[k])];
      }
      assert sources[..|sources|] == sources;
    }
    assert writes[..|writes|] == writes;
  }

  method SecondOrderCandidates(host: seq<Finding>, tags: Tagging) returns (out: seq<Candidate>)
    ensures out == CandidatesOf(host, Sqli, "second_order_sqli", tags)
                   + CandidatesOf(host, Idor, "second_order_idor", tags)
  {
    hide Pairs, Carrying;
    var sqli := PairsOfKind(Carrying(host, StoredWrite, tags), Carrying(host, Sqli, tags), "second_order_sqli");
    var idor := PairsOfKind(Carrying(host, StoredWrite, tags), Carrying(host, Idor, tags), "second_order_idor");
    out := sqli + idor;
  }

  function CandidatesOf(host: seq<Finding>, read: Tag, signature: string, tags: Tagging): seq<Candidate> {
    Pairs(Carrying(host, StoredWrite, tags), Carrying(host, read, tags), signature)
  }

  lemma {:induction false} CarryingMeans(host: seq<Finding>, tag: Tag, tags: Tagging, f: Finding)
    ensures f in Carrying(host, tag, tags) <==> f in host && tag in tags(f.cls)
  {
    if host != [] {
      CarryingMeans(host[..|host| - 1], tag, tags, f);
      assert f in host <==> f in host[..|host| - 1] || f == host[|host| - 1];
    }
  }

  lemma {:induction false} WithReadsMeans(a: Finding, sources: seq<Finding>, signature: string, c: Candidate)
    ensures c in WithReads(a, sources, signature) <==>
              c.signature == signature && c.a == a && c.b in sources && a.url != c.b.url
  {
    if sources != [] { WithReadsMeans(a, sources[..|sources| - 1], signature, c); }
  }

  lemma {:induction false} PairsMean(writes: seq<Finding>, sources: seq<Finding>, signature: string, c: Candidate)
    ensures c in Pairs(writes, sources, signature) <==>
              c.signature == signature && c.a in writes && c.b in sources && c.a.url != c.b.url
  {
    if writes != [] {
      PairsMean(writes[..|writes| - 1], sources, signature, c);
      WithReadsMeans(writes[|writes| - 1], sources, signature, c);
    }
  }

  /** What the candidates are: every write and read on the host at two different addresses. */
  lemma CandidatesMean(host: seq<Finding>, read: Tag, signature: string, tags: Tagging, c: Candidate)
    ensures c in CandidatesOf(host, read, signature, tags) <==>
              c.signature == signature && c.a in host && c.b in host && c.a.url != c.b.url
              && StoredWrite in tags(c.a.cls) && read in tags(c.b.cls)
  {
    hide Pairs, Carrying;
    PairsMean(Carrying(host, StoredWrite, tags), Carrying(host, read, tags), signature, c);
    CarryingMeans(host, StoredWrite, tags, c.a);
    CarryingMeans(host, read, tags, c.b);
  }

  /** Against detection: a candidate always comes with its chain, and a chain comes without any
      candidate exactly when every write and every read on the host are at one address. */
  lemma CandidatesBackChains(host: seq<Finding>, rule: Rule, tags: Tagging)
    requires rule.tagA == StoredWrite && rule.tagB != StoredWrite
    ensures CandidatesOf(host, rule.tagB, rule.signature, tags) != [] ==> Fires(rule, host, tags)
    ensures Fires(rule, host, tags) ==>
              (CandidatesOf(host, rule.tagB, rule.signature, tags) == [] <==>
               forall a, b :: a in host && b in host && StoredWrite in tags(a.cls) && rule.tagB in tags(b.cls) ==>
                   a.url == b.url)
  {
    hide CandidatesOf, Fires;
    FiresWhen(rule, host, tags);
    var cs := CandidatesOf(host, rule.tagB, rule.signature, tags);
    forall c { CandidatesMean(host, rule.tagB, rule.signature, tags, c); }
    if cs != [] {
      assert cs[0] in cs;
      assert Carries(host, StoredWrite, tags) && Carries(host, rule.tagB, tags);
    } else {
      forall a, b | a in host && b in host && StoredWrite in tags(a.cls) && rule.tagB in tags(b.cls)
        ensures a.url == b.url
      {
        assert Candidate(rule.signature, a, b) !in cs;
      }
    }
  }
}
