/** Which rules decide about a pair, told by the fields of the rules alone. */
module PolicyScope {
  import opened Model
  import opened Policy
  import opened Engine

  /** The rule is about something else: neither domain owns it, or one of its fields names another cluster or
      endpoint than the one in its place. */
  predicate Elsewhere(rule: PolicyRule, s: Subject) {
    || rule.owner !in {s.source.domain, s.target.domain}
    || rule.clusterA !in {[], s.source.id} || rule.clusterB !in {[], s.target.id}
    || rule.endpointA !in {[], s.endpointA} || rule.endpointB !in {[], s.endpointB}
  }

  /** The rule names a cluster of its owner, in its place, and not the policy generation of that cluster. */
  predicate Outdated(rule: PolicyRule, s: Subject) {
    || (&& rule.owner == s.source.domain && rule.clusterA == s.source.id != []
        && rule.generation != s.source.policyGeneration)
    || (&& rule.owner == s.target.domain && rule.clusterB == s.target.id != []
        && rule.generation != s.target.policyGeneration)
  }

  /** The rule speaks about the pair now. */
  predicate Here(rule: PolicyRule, s: Subject) {
    !Elsewhere(rule, s) && !Outdated(rule, s)
  }

  lemma HereIsCurrent(rule: PolicyRule, s: Subject)
    ensures Elsewhere(rule, s) <==> !Matches(rule, s)
    ensures CurrentAllow(rule, s) <==> Here(rule, s) && rule.allow
    ensures CurrentRefuse(rule, s) <==> Here(rule, s) && !rule.allow
    ensures StaleMatch(rule, s) <==> !Elsewhere(rule, s) && Outdated(rule, s)
  {
  }

  lemma AllHereAreCurrent(rules: map<Name, PolicyRule>, s: Subject)
    ensures forall id <- rules :: CurrentAllow(rules[id], s) <==> Here(rules[id], s) && rules[id].allow
    ensures forall id <- rules :: CurrentRefuse(rules[id], s) <==> Here(rules[id], s) && !rules[id].allow
    ensures forall id <- rules :: StaleMatch(rules[id], s) <==> !Elsewhere(rules[id], s) && Outdated(rules[id], s)
  {
    forall id | id in rules
      ensures CurrentAllow(rules[id], s) <==> Here(rules[id], s) && rules[id].allow
      ensures CurrentRefuse(rules[id], s) <==> Here(rules[id], s) && !rules[id].allow
      ensures StaleMatch(rules[id], s) <==> !Elsewhere(rules[id], s) && Outdated(rules[id], s)
    {
      HereIsCurrent(rules[id], s);
    }
  }

  /** A pair is refused exactly by a rule that speaks about it now and does not allow it. */
  lemma RefusedExactly(rules: map<Name, PolicyRule>, s: Subject)
    ensures Meaning(rules, s) == RefusedExplicitly <==> exists id <- rules :: Here(rules[id], s) && !rules[id].allow
  {
    AllHereAreCurrent(rules, s);
  }

  /** Some rule of the domain speaks about the pair now and allows it. */
  predicate AllowedBy(rules: map<Name, PolicyRule>, s: Subject, domain: Name) {
    exists id <- rules :: rules[id].owner == domain && Here(rules[id], s) && rules[id].allow
  }

  /** It is allowed exactly when it is not refused and each domain has a rule that speaks about it now and
      allows it. */
  lemma AllowedExactly(rules: map<Name, PolicyRule>, s: Subject)
    ensures Meaning(rules, s) == Allowed <==>
              && (forall id <- rules :: Here(rules[id], s) ==> rules[id].allow)
              && AllowedBy(rules, s, s.source.domain) && AllowedBy(rules, s, s.target.domain)
  {
    AllHereAreCurrent(rules, s);
  }

  /** What is neither is stale exactly when a domain without an allowing rule has an outdated one. */
  lemma StaleExactly(rules: map<Name, PolicyRule>, s: Subject)
    ensures Meaning(rules, s) == StaleGeneration <==>
              && Meaning(rules, s) !in {RefusedExplicitly, Allowed}
              && exists id <- rules :: !Elsewhere(rules[id], s) && Outdated(rules[id], s)
                                       && !AllowedBy(rules, s, rules[id].owner)
  {
    AllHereAreCurrent(rules, s);
    forall id | id in rules && !Elsewhere(rules[id], s) && Outdated(rules[id], s)
                && !AllowedBy(rules, s, rules[id].owner)
      ensures OnlyStale(rules, s, rules[id].owner)
    {
      assert StaleMatch(rules[id], s);
    }
  }

  // ---- rules about something else ----

  /** All an evaluation tells. */
  ghost predicate SameEvaluation(m: map<Name, PolicyRule>, n: map<Name, PolicyRule>, s: Subject) {
    && Meaning(m, s) == Meaning(n, s) && DegradedPermitted(m, s) == DegradedPermitted(n, s)
    && forall limit: nat :: IsLimit(m, s, limit) <==> IsLimit(n, s, limit)
  }

  /** A rule about something else may as well not be there. */
  lemma ElsewhereIsIgnored(rules: map<Name, PolicyRule>, s: Subject, id: Name)
    requires id in rules && Elsewhere(rules[id], s)
    ensures SameEvaluation(rules, rules - {id}, s)
  {
    HereIsCurrent(rules[id], s);
    var rest := rules - {id};
    forall k | k in rules && Matches(rules[k], s) ensures k in rest && rest[k] == rules[k] {}
    SameMatching(rules, rest, s);
  }

  lemma SameMatching(m: map<Name, PolicyRule>, n: map<Name, PolicyRule>, s: Subject)
    requires n.Keys <= m.Keys && (forall k <- n :: n[k] == m[k])
    requires forall k <- m :: Matches(m[k], s) ==> k in n
    ensures SameEvaluation(m, n, s)
  {
    SameDecision(m, n, s);
    assert DegradedPermitted(m, s) == DegradedPermitted(n, s);
    forall limit: nat ensures IsLimit(m, s, limit) <==> IsLimit(n, s, limit) {}
  }

  lemma SameDecision(m: map<Name, PolicyRule>, n: map<Name, PolicyRule>, s: Subject)
    requires n.Keys <= m.Keys && (forall k <- n :: n[k] == m[k])
    requires forall k <- m :: Matches(m[k], s) ==> k in n
    ensures Meaning(m, s) == Meaning(n, s)
  {
    assert Refuses(m, s) <==> Refuses(n, s);
    forall domain ensures Allows(m, s, domain) <==> Allows(n, s, domain) {}
    forall domain ensures OnlyStale(m, s, domain) <==> OnlyStale(n, s, domain) {}
  }

  // ---- what it means for a query ----

  /** The subject of a query whose endpoints both have an owner. */
  ghost function SubjectOf(r: Registry, q: Query): Subject
    requires Owner(r, q.source).Some? && Owner(r, q.target).Some?
  {
    Subject(r.clusters[Owner(r, q.source).value], r.clusters[Owner(r, q.target).value], q.source, q.target)
  }

  /** One rule that refuses the pair is enough, whatever contracts, grants and other rules there are. */
  lemma RefusingRuleBlocks(r: Registry, q: Query, v: View, id: Name, c: Uuid, g: Uuid)
    requires Owner(r, q.source).Some? && Owner(r, q.target).Some?
    requires id in r.policies && Here(r.policies[id], SubjectOf(r, q)) && !r.policies[id].allow
    ensures !Authorizes(r, q, v, c, g)
  {
    RefusedExactly(r.policies, SubjectOf(r, q));
  }

  /** An authorization rests on an allowing rule of each domain. */
  lemma AuthorizedIsAllowed(r: Registry, q: Query, v: View, c: Uuid, g: Uuid)
    requires Authorizes(r, q, v, c, g)
    ensures Owner(r, q.source).Some? && Owner(r, q.target).Some?
    ensures var s := SubjectOf(r, q);
            AllowedBy(r.policies, s, s.source.domain) && AllowedBy(r.policies, s, s.target.domain)
  {
    AllowedExactly(r.policies, SubjectOf(r, q));
  }
}
