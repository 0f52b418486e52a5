/** What a decision does not look at: the capacity counters, the reservations, the audit trail, and which of
    the two usable states a grant is in. */
module DecisionFrame {
  import opened Model
  import opened Policy
  import opened Engine
  import opened Fencing

  predicate SameButCounter(a: Endpoint, b: Endpoint) {
    b == a.(reserved := b.reserved)
  }

  predicate SameButCounters(a: Cluster, b: Cluster) {
    && b == a.(endpoints := b.endpoints) && a.endpoints.Keys == b.endpoints.Keys
    && forall e <- a.endpoints :: SameButCounter(a.endpoints[e], b.endpoints[e])
  }

  predicate SameClusters(a: map<Name, Cluster>, b: map<Name, Cluster>) {
    a.Keys == b.Keys && forall c <- a :: SameButCounters(a[c], b[c])
  }

  predicate SameUse(a: Grant, b: Grant) {
    b == a || (a.Usable() && b.Usable() && b == a.(state := b.state))
  }

  predicate SameGrants(a: map<Uuid, Grant>, b: map<Uuid, Grant>) {
    a.Keys == b.Keys && forall g <- a :: SameUse(a[g], b[g])
  }

  /** The registries differ in nothing a decision looks at. */
  predicate LooksSame(r: Registry, s: Registry) {
    && s.paths == r.paths && s.policies == r.policies && s.contracts == r.contracts
    && SameClusters(r.clusters, s.clusters) && SameGrants(r.grants, s.grants)
  }

  /** The same pairs are authorized, by the same contracts over the same grants. */
  ghost predicate SameDecisions(r: Registry, s: Registry) {
    forall q: Query, v: View, c, g :: Authorizes(r, q, v, c, g) <==> Authorizes(s, q, v, c, g)
  }

  lemma SameClustersTransitive(a: map<Name, Cluster>, b: map<Name, Cluster>, c: map<Name, Cluster>)
    requires SameClusters(a, b) && SameClusters(b, c)
    ensures SameClusters(a, c)
  {
    forall k | k in a ensures SameButCounters(a[k], c[k]) {
      assert SameButCounters(a[k], b[k]) && SameButCounters(b[k], c[k]);
      forall e | e in a[k].endpoints ensures SameButCounter(a[k].endpoints[e], c[k].endpoints[e]) {
        assert SameButCounter(a[k].endpoints[e], b[k].endpoints[e]);
        assert SameButCounter(b[k].endpoints[e], c[k].endpoints[e]);
      }
    }
  }

  lemma LoweredIsSame(a: map<Name, Cluster>, b: map<Name, Cluster>)
    requires ClustersLowered(a, b)
    ensures SameClusters(a, b)
  {
    forall c | c in a ensures SameButCounters(a[c], b[c]) {
      assert ClusterLowered(a[c], b[c]);
      forall e | e in a[c].endpoints ensures SameButCounter(a[c].endpoints[e], b[c].endpoints[e]) {
        assert EndpointLowered(a[c].endpoints[e], b[c].endpoints[e]);
      }
    }
  }

  lemma LooksSameSymmetric(r: Registry, s: Registry)
    requires LooksSame(r, s)
    ensures LooksSame(s, r)
  {
    forall c | c in s.clusters ensures SameButCounters(s.clusters[c], r.clusters[c]) {
      assert SameButCounters(r.clusters[c], s.clusters[c]);
      forall e | e in s.clusters[c].endpoints
        ensures SameButCounter(s.clusters[c].endpoints[e], r.clusters[c].endpoints[e])
      {
        assert SameButCounter(r.clusters[c].endpoints[e], s.clusters[c].endpoints[e]);
      }
    }
    forall g | g in s.grants ensures SameUse(s.grants[g], r.grants[g]) {
      assert SameUse(r.grants[g], s.grants[g]);
    }
  }

  // ---- admission ----

  lemma SameOwner(r: Registry, s: Registry, e: Name)
    requires SameClusters(r.clusters, s.clusters)
    ensures Owner(s, e) == Owner(r, e)
  {
    forall c | c in r.clusters ensures e in r.clusters[c].endpoints <==> e in s.clusters[c].endpoints {
      assert SameButCounters(r.clusters[c], s.clusters[c]);
    }
    assert (set c | c in r.clusters && e in r.clusters[c].endpoints)
        == (set c | c in s.clusters && e in s.clusters[c].endpoints);
  }

  predicate SameSubject(a: Subject, b: Subject) {
    && a.source.domain == b.source.domain && a.source.id == b.source.id
    && a.source.policyGeneration == b.source.policyGeneration
    && a.target.domain == b.target.domain && a.target.id == b.target.id
    && a.target.policyGeneration == b.target.policyGeneration
    && a.endpointA == b.endpointA && a.endpointB == b.endpointB
  }

  lemma SameMatches(rule: PolicyRule, a: Subject, b: Subject)
    requires SameSubject(a, b)
    ensures CurrentAllow(rule, a) == CurrentAllow(rule, b) && CurrentRefuse(rule, a) == CurrentRefuse(rule, b)
    ensures StaleMatch(rule, a) == StaleMatch(rule, b)
  {
  }

  lemma SameMeaning(rules: map<Name, PolicyRule>, a: Subject, b: Subject)
    requires SameSubject(a, b)
    ensures Meaning(rules, a) == Meaning(rules, b) && DegradedPermitted(rules, a) == DegradedPermitted(rules, b)
  {
    forall id | id in rules
      ensures CurrentAllow(rules[id], a) == CurrentAllow(rules[id], b)
      ensures CurrentRefuse(rules[id], a) == CurrentRefuse(rules[id], b)
      ensures StaleMatch(rules[id], a) == StaleMatch(rules[id], b)
    {
      SameMatches(rules[id], a, b);
    }
  }

  lemma SameAdmission(r: Registry, s: Registry, q: Query)
    requires LooksSame(r, s)
    ensures Admission(s, q) == Admission(r, q)
  {
    SameOwner(r, s, q.source);
    SameOwner(r, s, q.target);
    var a, b := Owner(r, q.source), Owner(r, q.target);
    if a.Some? && b.Some? {
      assert SameButCounters(r.clusters[a.value], s.clusters[a.value]);
      assert SameButCounters(r.clusters[b.value], s.clusters[b.value]);
      SamePair(r, s, q, r.clusters[a.value], r.clusters[b.value], s.clusters[a.value], s.clusters[b.value]);
    }
  }

  lemma SameDegraded(r: Registry, s: Registry, q: Query)
    requires LooksSame(r, s) && Owner(r, q.source).Some? && Owner(r, q.target).Some?
    requires Owner(s, q.source) == Owner(r, q.source) && Owner(s, q.target) == Owner(r, q.target)
    ensures DegradedAccepted(s, q) == DegradedAccepted(r, q)
  {
    var a, b := Owner(r, q.source).value, Owner(r, q.target).value;
    SameRules(r.policies, q, r.clusters[a], r.clusters[b], s.clusters[a], s.clusters[b]);
    SameCluster(r.clusters[a], s.clusters[a], q.source);
    SameCluster(r.clusters[b], s.clusters[b], q.target);
  }

  lemma StillAdmitted(r: Registry, s: Registry, q: Query)
    requires LooksSame(r, s) && Admitted(r, q)
    ensures Admitted(s, q)
  {
    SameAdmission(r, s, q);
    SameOwner(r, s, q.source);
    SameOwner(r, s, q.target);
    SameDegraded(r, s, q);
  }

  lemma SameCluster(a: Cluster, x: Cluster, e: Name)
    requires SameButCounters(a, x) && e in a.endpoints
    ensures CheckCluster(x) == CheckCluster(a) && x.generation == a.generation
    ensures CheckEndpoint(x.endpoints[e]) == CheckEndpoint(a.endpoints[e])
    ensures x.endpoints[e].permitsDegraded == a.endpoints[e].permitsDegraded
  {
    assert SameButCounter(a.endpoints[e], x.endpoints[e]);
  }

  lemma SameChecks(q: Query, a: Cluster, b: Cluster, x: Cluster, y: Cluster)
    requires SameButCounters(a, x) && SameButCounters(b, y) && q.source in a.endpoints && q.target in b.endpoints
    ensures CheckPair(q, x, y) == CheckPair(q, a, b)
  {
    SameCluster(a, x, q.source);
    SameCluster(b, y, q.target);
  }

  lemma SameRules(rules: map<Name, PolicyRule>, q: Query, a: Cluster, b: Cluster, x: Cluster, y: Cluster)
    requires SameButCounters(a, x) && SameButCounters(b, y)
    ensures var one, two := Subject(a, b, q.source, q.target), Subject(x, y, q.source, q.target);
            Meaning(rules, two) == Meaning(rules, one) && DegradedPermitted(rules, two) == DegradedPermitted(rules, one)
  {
    SameMeaning(rules, Subject(a, b, q.source, q.target), Subject(x, y, q.source, q.target));
  }

  lemma SamePair(r: Registry, s: Registry, q: Query, a: Cluster, b: Cluster, x: Cluster, y: Cluster)
    requires s.paths == r.paths && s.policies == r.policies && SameButCounters(a, x) && SameButCounters(b, y)
    requires q.source in a.endpoints && q.target in b.endpoints
    ensures AdmitPair(s, q, x, y) == AdmitPair(r, q, a, b)
  {
    SameChecks(q, a, b, x, y);
    SameRules(r.policies, q, a, b, x, y);
    assert Paths(s.paths, q.source, q.target) == Paths(r.paths, q.source, q.target);
  }

  // ---- candidates ----

  lemma SameConsent(r: Registry, s: Registry, c: Contract, side: Side)
    requires SameClusters(r.clusters, s.clusters) && c.BothConsented()
    ensures CheckConsent(s, c, side) == CheckConsent(r, c, side)
  {
    var k := c.parties.At(side).cluster;
    if k in r.clusters { assert SameButCounters(r.clusters[k], s.clusters[k]); }
  }

  lemma SameConsents(r: Registry, s: Registry, c: Contract)
    requires SameClusters(r.clusters, s.clusters)
    ensures CheckConsents(s, c) == CheckConsents(r, c)
  {
    if c.BothConsented() {
      SameConsent(r, s, c, First);
      SameConsent(r, s, c, Second);
    }
  }

  lemma SameBinding(r: Registry, s: Registry, c: Contract, g: Grant, h: Grant, side: Side)
    requires SameClusters(r.clusters, s.clusters) && h.bindings == g.bindings
    ensures CheckBinding(s, c, h, side) == CheckBinding(r, c, g, side)
  {
    var k := c.parties.At(side).cluster;
    if k in r.clusters { assert SameButCounters(r.clusters[k], s.clusters[k]); }
  }

  lemma SameSelected(r: Registry, s: Registry, c: Contract, g: Grant, h: Grant, q: Query, v: View)
    requires SameClusters(r.clusters, s.clusters) && SameUse(g, h)
    ensures CheckSelected(s, c, h, q, v) == CheckSelected(r, c, g, q, v)
  {
    SameBinding(r, s, c, g, h, First);
    SameBinding(r, s, c, g, h, Second);
  }

  lemma SameLatest(a: map<Uuid, Grant>, b: map<Uuid, Grant>, c: Uuid, g: Uuid)
    requires SameGrants(a, b) && IsLatest(a, c, g)
    ensures IsLatest(b, c, g)
  {
    forall h | h in a
      ensures b[h].contract == a[h].contract && b[h].issuedAt == a[h].issuedAt
    {
      assert SameUse(a[h], b[h]);
    }
  }

  lemma SamePasses(r: Registry, s: Registry, q: Query, v: View, c: Uuid)
    requires LooksSame(r, s) && Passes(r, q, v, c)
    ensures Passes(s, q, v, c)
  {
    SameConsents(r, s, r.contracts[c]);
    var g := Latest(r.grants, c);
    SameLatest(r.grants, s.grants, c, g);
    LatestUnique(s.grants, c, g, Latest(s.grants, c));
    SameSelected(r, s, r.contracts[c], r.grants[g], s.grants[g], q, v);
  }

  lemma StillAuthorizes(r: Registry, s: Registry, q: Query, v: View, c: Uuid, g: Uuid)
    requires LooksSame(r, s) && Authorizes(r, q, v, c, g)
    ensures Authorizes(s, q, v, c, g)
  {
    StillAdmitted(r, s, q);
    SamePasses(r, s, q, v, c);
    SameLatest(r.grants, s.grants, c, g);
  }

  /** Neither the counters nor the reservations behind a grant decide anything. */
  lemma LedgerDoesNotDecide(r: Registry, s: Registry)
    requires LooksSame(r, s)
    ensures SameDecisions(r, s)
  {
    LooksSameSymmetric(r, s);
    forall q: Query, v: View, c, g ensures Authorizes(r, q, v, c, g) <==> Authorizes(s, q, v, c, g) {
      if Authorizes(r, q, v, c, g) { StillAuthorizes(r, s, q, v, c, g); }
      if Authorizes(s, q, v, c, g) { StillAuthorizes(s, r, q, v, c, g); }
    }
  }
}
