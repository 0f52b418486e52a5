/** Two-domain policy evaluation (src/model/policy.cpp). */
module Policy {
  import opened Model

  datatype PolicyDecision = Allowed | RefusedExplicitly | MissingAllowRule | StaleGeneration

  datatype PolicyEvaluation = PolicyEvaluation(decision: PolicyDecision, allowDegraded: bool, maxCapacity: nat)

  /** The directed pair a decision is about. */
  datatype Subject = Subject(source: Cluster, target: Cluster, endpointA: Name, endpointB: Name)

  // ---- what the rules mean ----

  /** The rule speaks for one of the two domains and its non-empty fields name the pair. */
  predicate Matches(rule: PolicyRule, s: Subject) {
    && (rule.owner == s.source.domain || rule.owner == s.target.domain)
    && (rule.clusterA == [] || rule.clusterA == s.source.id)
    && (rule.clusterB == [] || rule.clusterB == s.target.id)
    && (rule.endpointA == [] || rule.endpointA == s.endpointA)
    && (rule.endpointB == [] || rule.endpointB == s.endpointB)
  }

  /** A rule that names its owner's cluster counts only at that cluster's policy generation. */
  predicate Current(rule: PolicyRule, s: Subject) {
    && (rule.owner == s.source.domain && rule.clusterA != [] && rule.clusterA == s.source.id
        ==> rule.generation == s.source.policyGeneration)
    && (rule.owner == s.target.domain && rule.clusterB != [] && rule.clusterB == s.target.id
        ==> rule.generation == s.target.policyGeneration)
  }

  predicate CurrentAllow(rule: PolicyRule, s: Subject) {
    Matches(rule, s) && Current(rule, s) && rule.allow
  }

  predicate CurrentRefuse(rule: PolicyRule, s: Subject) {
    Matches(rule, s) && Current(rule, s) && !rule.allow
  }

  predicate StaleMatch(rule: PolicyRule, s: Subject) {
    Matches(rule, s) && !Current(rule, s)
  }

  predicate Refuses(rules: map<Name, PolicyRule>, s: Subject) {
    exists id <- rules :: CurrentRefuse(rules[id], s)
  }

  predicate Allows(rules: map<Name, PolicyRule>, s: Subject, domain: Name) {
    exists id <- rules :: CurrentAllow(rules[id], s) && rules[id].owner == domain
  }

  predicate OnlyStale(rules: map<Name, PolicyRule>, s: Subject, domain: Name) {
    && !Allows(rules, s, domain)
    && exists id <- rules :: StaleMatch(rules[id], s) && rules[id].owner == domain
  }

  function Meaning(rules: map<Name, PolicyRule>, s: Subject): PolicyDecision {
    if Refuses(rules, s) then RefusedExplicitly
    else if Allows(rules, s, s.source.domain) && Allows(rules, s, s.target.domain) then Allowed
    else if OnlyStale(rules, s, s.source.domain) || OnlyStale(rules, s, s.target.domain) then StaleGeneration
    else MissingAllowRule
  }

  predicate DegradedPermitted(rules: map<Name, PolicyRule>, s: Subject) {
    forall id <- rules :: CurrentAllow(rules[id], s) ==> rules[id].allowDegraded
  }

  /** The least nonzero limit of any current allow; 0 when no current allow sets a limit. */
  ghost predicate IsLimit(rules: map<Name, PolicyRule>, s: Subject, limit: nat) {
    && (forall id <- rules :: CurrentAllow(rules[id], s) && rules[id].maxCapacity != 0
          ==> 0 < limit <= rules[id].maxCapacity)
    && (limit != 0 ==> exists id <- rules :: CurrentAllow(rules[id], s) && rules[id].maxCapacity == limit)
  }

  // ---- the fold over the rules ----

  /** `DomainRules`: what has been absorbed for one authority domain. */
  datatype DomainRules = DomainRules(hasAllow: bool, hasRefuse: bool, allowDegraded: bool, maxCapacity: nat,
                                     stale: bool)

  const NO_RULES := DomainRules(false, false, true, 0, false)

  function Absorb(d: DomainRules, rule: PolicyRule, current: bool): DomainRules {
    if !current then d.(stale := true)
    else if !rule.allow then d.(hasRefuse := true)
    else d.(hasAllow := true,
            allowDegraded := d.allowDegraded && rule.allowDegraded,
            maxCapacity := if rule.maxCapacity != 0 && (d.maxCapacity == 0 || rule.maxCapacity < d.maxCapacity)
            then rule.maxCapacity else d.maxCapacity)
  }

  /** `d` is what the rules in `seen` leave for `domain`. */
  ghost predicate Absorbed(rules: map<Name, PolicyRule>, seen: set<Name>, s: Subject, domain: Name, d: DomainRules)
    requires seen <= rules.Keys
  {
    AbsorbedVerdicts(rules, seen, s, domain, d) && AbsorbedLimits(rules, seen, s, domain, d)
  }

  ghost predicate AbsorbedVerdicts(
      rules: map<Name, PolicyRule>, seen: set<Name>, s: Subject, domain: Name, d: DomainRules)
    requires seen <= rules.Keys
  {
    && (d.hasAllow <==> exists id <- seen :: CurrentAllow(rules[id], s) && rules[id].owner == domain)
    && (d.hasRefuse <==> exists id <- seen :: CurrentRefuse(rules[id], s) && rules[id].owner == domain)
    && (d.stale <==> exists id <- seen :: StaleMatch(rules[id], s) && rules[id].owner == domain)
  }

  ghost predicate AbsorbedLimits(
      rules: map<Name, PolicyRule>, seen: set<Name>, s: Subject, domain: Name, d: DomainRules)
    requires seen <= rules.Keys
  {
    && (d.allowDegraded <==>
        forall id <- seen :: CurrentAllow(rules[id], s) && rules[id].owner == domain ==> rules[id].allowDegraded)
    && (forall id <- seen :: CurrentAllow(rules[id], s) && rules[id].owner == domain && rules[id].maxCapacity != 0
          ==> 0 < d.maxCapacity <= rules[id].maxCapacity)
    && (d.maxCapacity != 0 ==>
          exists id <- seen ::
            CurrentAllow(rules[id], s) && rules[id].owner == domain && rules[id].maxCapacity == d.maxCapacity)
  }

  function AbsorbFor(d: DomainRules, rule: PolicyRule, s: Subject, domain: Name): DomainRules {
    if Matches(rule, s) && rule.owner == domain then Absorb(d, rule, Current(rule, s)) else d
  }

  lemma AbsorbVerdicts(
      rules: map<Name, PolicyRule>, seen: set<Name>, id: Name, s: Subject, domain: Name, d: DomainRules)
    requires id in rules && seen <= rules.Keys && AbsorbedVerdicts(rules, seen, s, domain, d)
    ensures AbsorbedVerdicts(rules, seen + {id}, s, domain, AbsorbFor(d, rules[id], s, domain))
  {
    assert forall x <- seen :: x in seen + {id};
    assert id in seen + {id};
  }

  lemma AbsorbLimits(rules: map<Name, PolicyRule>, seen: set<Name>, id: Name, s: Subject, domain: Name, d: DomainRules)
    requires id in rules && seen <= rules.Keys && AbsorbedLimits(rules, seen, s, domain, d)
    ensures AbsorbedLimits(rules, seen + {id}, s, domain, AbsorbFor(d, rules[id], s, domain))
  {
    assert forall x <- seen :: x in seen + {id};
    assert id in seen + {id};
  }

  lemma AbsorbStep(rules: map<Name, PolicyRule>, seen: set<Name>, id: Name, s: Subject, domain: Name, d: DomainRules)
    requires id in rules && seen <= rules.Keys && Absorbed(rules, seen, s, domain, d)
    ensures Absorbed(rules, seen + {id}, s, domain, AbsorbFor(d, rules[id], s, domain))
  {
    AbsorbVerdicts(rules, seen, id, s, domain, d);
    AbsorbLimits(rules, seen, id, s, domain, d);
  }

  /** The two accumulators, or the single one when one domain governs both clusters. */
  ghost predicate BothAbsorbed(
      rules: map<Name, PolicyRule>, seen: set<Name>, s: Subject, perDomain: map<Name, DomainRules>)
  {
    && seen <= rules.Keys && perDomain.Keys == {s.source.domain, s.target.domain}
    && Absorbed(rules, seen, s, s.source.domain, perDomain[s.source.domain])
    && Absorbed(rules, seen, s, s.target.domain, perDomain[s.target.domain])
  }

  function AbsorbRule(perDomain: map<Name, DomainRules>, rule: PolicyRule, s: Subject): map<Name, DomainRules> {
    if Matches(rule, s) && rule.owner in perDomain
    then perDomain[rule.owner := Absorb(perDomain[rule.owner], rule, Current(rule, s))]
    else perDomain
  }

  lemma AbsorbedInto(perDomain: map<Name, DomainRules>, rule: PolicyRule, s: Subject, domain: Name)
    requires domain in perDomain
    ensures AbsorbRule(perDomain, rule, s).Keys == perDomain.Keys
    ensures AbsorbRule(perDomain, rule, s)[domain] == AbsorbFor(perDomain[domain], rule, s, domain)
  {
  }

  lemma AbsorbRuleStep(
      rules: map<Name, PolicyRule>, seen: set<Name>, id: Name, s: Subject, perDomain: map<Name, DomainRules>)
    requires id in rules && BothAbsorbed(rules, seen, s, perDomain)
    ensures BothAbsorbed(rules, seen + {id}, s, AbsorbRule(perDomain, rules[id], s))
  {
    AbsorbedInto(perDomain, rules[id], s, s.source.domain);
    AbsorbedInto(perDomain, rules[id], s, s.target.domain);
    AbsorbStep(rules, seen, id, s, s.source.domain, perDomain[s.source.domain]);
    AbsorbStep(rules, seen, id, s, s.target.domain, perDomain[s.target.domain]);
  }

  lemma NothingAbsorbed(rules: map<Name, PolicyRule>, s: Subject)
    ensures BothAbsorbed(rules, {}, s, map[s.source.domain := NO_RULES, s.target.domain := NO_RULES])
  {
  }

  /** The loop of `evaluate_policy`: the rules are visited in any order. */
  method AbsorbAll(rules: map<Name, PolicyRule>, s: Subject) returns (perDomain: map<Name, DomainRules>)
    ensures BothAbsorbed(rules, rules.Keys, s, perDomain)
  {
    perDomain := map[s.source.domain := NO_RULES, s.target.domain := NO_RULES];
    var todo := rules.Keys;
    ghost var seen: set<Name> := {};
    NothingAbsorbed(rules, s);
    while todo != {}
      invariant todo !! seen && todo + seen == rules.Keys
      invariant BothAbsorbed(rules, seen, s, perDomain)
      decreases |todo|
    {
      var id :| id in todo;
      AbsorbRuleStep(rules, seen, id, s, perDomain);
      perDomain := AbsorbRule(perDomain, rules[id], s);
      todo, seen := todo - {id}, seen + {id};
    }
    assert seen == rules.Keys;
  }

  /** `evaluate_policy`. */
  method EvaluatePolicy(rules: map<Name, PolicyRule>, s: Subject) returns (e: PolicyEvaluation)
    ensures e.decision == Meaning(rules, s)
    ensures e.allowDegraded <==> DegradedPermitted(rules, s)
    ensures IsLimit(rules, s, e.maxCapacity)
  {
    var perDomain := AbsorbAll(rules, s);
    e := Conclude(rules, s, perDomain[s.source.domain], perDomain[s.target.domain]);
  }

  /** The verdict over the two domains' accumulated rules. */
  method Conclude(ghost rules: map<Name, PolicyRule>, s: Subject, a: DomainRules, b: DomainRules)
    returns (e: PolicyEvaluation)
    requires Absorbed(rules, rules.Keys, s, s.source.domain, a)
    requires Absorbed(rules, rules.Keys, s, s.target.domain, b)
    ensures e.decision == Meaning(rules, s)
    ensures e.allowDegraded <==> DegradedPermitted(rules, s)
    ensures IsLimit(rules, s, e.maxCapacity)
  {
    var decision;
    if a.hasRefuse || b.hasRefuse {
      decision := RefusedExplicitly;
    } else if a.hasAllow && b.hasAllow {
      decision := Allowed;
    } else if (!a.hasAllow && a.stale) || (!b.hasAllow && b.stale) {
      decision := StaleGeneration;
    } else {
      decision := MissingAllowRule;
    }
    var limit := 0;
    if a.hasAllow && a.maxCapacity != 0 {
      limit := a.maxCapacity;
    }
    if b.hasAllow && b.maxCapacity != 0 && (limit == 0 || b.maxCapacity < limit) {
      limit := b.maxCapacity;
    }
    var degraded := (a.hasAllow ==> a.allowDegraded) && (b.hasAllow ==> b.allowDegraded);
    e := PolicyEvaluation(decision, degraded, limit);
  }
}
