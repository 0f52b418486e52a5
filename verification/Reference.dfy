/** The set-based reference of the differential tests (tests/differential/reference_model.hpp), and its
    agreement with the decision engine. */
module Reference {
  import opened Model
  import opened Policy
  import opened Engine

  predicate ClusterUsable(c: Cluster) {
    c.state == ClusterActive && !c.generationConflict && !c.consentWithdrawn
  }

  /** Every endpoint of the cluster that the query names is active and open. */
  predicate EndpointsUsable(c: Cluster, q: Query) {
    forall e <- c.endpoints :: e == q.source || e == q.target ==>
      c.endpoints[e].state == EndpointActive && c.endpoints[e].interClusterAllowed
  }

  predicate EndpointsPermitDegraded(c: Cluster, q: Query) {
    forall e <- c.endpoints :: e == q.source || e == q.target ==> c.endpoints[e].permitsDegraded
  }

  predicate LivePath(paths: map<Name, Path>, q: Query, p: Name) {
    && p in paths && Between(paths[p], q.source, q.target) && !paths[p].containsUnsupportedEdge
    && (paths[p].state == PathUp || paths[p].state == PathDegraded)
  }

  predicate DegradedOnly(paths: map<Name, Path>, q: Query) {
    forall p <- paths :: LivePath(paths, q, p) ==> paths[p].state != PathUp
  }

  ghost predicate ConsentHolds(r: Registry, c: Contract, side: Side) {
    && c.consents.At(side).Some?
    && var consent := c.consents.At(side).value;
       var owner := Owner(r, c.parties.At(side).endpoint);
    && consent.termsDigest == c.termsDigest && consent.decision == ConsentAccepted
    && owner.Some?
    && var cluster := r.clusters[owner.value];
    && consent.incarnation == cluster.incarnation && consent.generation == cluster.generation
    && consent.policyGeneration == cluster.policyGeneration && consent.cluster == cluster.id
  }

  ghost predicate BindingHolds(r: Registry, c: Contract, g: Grant, side: Side) {
    var owner := Owner(r, c.parties.At(side).endpoint);
    && owner.Some?
    && var cluster := r.clusters[owner.value];
       g.bindings.At(side) == Binding(cluster.incarnation, cluster.generation, cluster.policyGeneration)
  }

  /** The reference accepts the contract: consented, and both consents current. */
  ghost predicate ContractHolds(r: Registry, c: Contract) {
    c.state == Consented && ConsentHolds(r, c, First) && ConsentHolds(r, c, Second)
  }

  ghost predicate GrantHolds(r: Registry, c: Contract, g: Grant, q: Query, v: View) {
    && g.Usable() && g.BothAcknowledged() && g.termsDigest == c.termsDigest
    && g.term == v.term && g.coordinator == v.incarnation
    && BindingHolds(r, c, g, First) && BindingHolds(r, c, g, Second)
    && v.now <= g.validUntil && q.requestedCapacity <= g.capacity
  }

  /** The reference's conditions on the pair itself. */
  ghost predicate PairHolds(r: Registry, q: Query) {
    && q.source != q.target && Owner(r, q.source).Some? && Owner(r, q.target).Some?
    && var s := r.clusters[Owner(r, q.source).value];
       var t := r.clusters[Owner(r, q.target).value];
    && ClusterUsable(s) && ClusterUsable(t) && EndpointsUsable(s, q) && EndpointsUsable(t, q)
    && GenerationExpected(q.sourceGeneration, s.generation)
    && GenerationExpected(q.targetGeneration, t.generation)
    && Meaning(r.policies, Subject(s, t, q.source, q.target)) == Allowed
    && (exists p :: LivePath(r.paths, q, p))
    && (DegradedOnly(r.paths, q) ==>
          && q.allowDegraded && DegradedPermitted(r.policies, Subject(s, t, q.source, q.target))
          && EndpointsPermitDegraded(s, q) && EndpointsPermitDegraded(t, q))
  }

  ghost predicate ReferenceAuthorizes(r: Registry, q: Query, v: View, c: Uuid, g: Uuid) {
    && PairHolds(r, q)
    && Candidate(r, q, c) && ContractHolds(r, r.contracts[c])
    && g in r.grants && r.grants[g].contract == c && GrantHolds(r, r.contracts[c], r.grants[g], q, v)
  }

  // ---- well-formed registries ----

  /** Parties own the endpoint they bring, and consents name their party. */
  predicate PartiesOwn(r: Registry, c: Contract, side: Side) {
    var party := c.parties.At(side);
    && party.cluster in r.clusters && party.endpoint in r.clusters[party.cluster].endpoints
    && (c.consents.At(side).Some? ==>
          c.consents.At(side).value.cluster == party.cluster && c.consents.At(side).value.endpoint == party.endpoint)
  }

  /** A live contract both sides accepted is in the state Consented. */
  predicate StateTellsConsent(c: Contract) {
    c.BothConsented() ==>
      c.state in {Consented, ContractRefused, ContractWithdrawn, ContractFenced, ContractExpired}
  }

  /** Asked only of contracts that could carry the query: those covering its pair that both sides accepted. */
  predicate WellFormed(r: Registry, q: Query) {
    && UniqueOwners(r)
    && (forall c <- r.clusters :: r.clusters[c].id == c)
    && (forall c <- r.contracts :: Candidate(r, q, c) && r.contracts[c].BothConsented() ==>
          && PartiesOwn(r, r.contracts[c], First) && PartiesOwn(r, r.contracts[c], Second)
          && StateTellsConsent(r.contracts[c]))
  }

  predicate OneGrantPerContract(r: Registry) {
    forall g <- r.grants, h <- r.grants :: r.grants[g].contract == r.grants[h].contract ==> g == h
  }

  // ---- agreement ----

  lemma OwnerIsUnique(r: Registry, c: Name, e: Name)
    requires UniqueOwners(r) && c in r.clusters && e in r.clusters[c].endpoints
    ensures Owner(r, e) == Some(c)
  {
  }

  lemma PathsAgree(r: Registry, q: Query)
    ensures (exists p :: LivePath(r.paths, q, p)) <==> !Paths(r.paths, q.source, q.target).Blocked?
    ensures (exists p :: LivePath(r.paths, q, p)) ==>
              (DegradedOnly(r.paths, q) <==> Paths(r.paths, q.source, q.target) == OnlyDegraded)
  {
    if p :| LivePath(r.paths, q, p) {
      assert SeesState(r.paths, q.source, q.target, r.paths[p].state);
    }
    if SeesState(r.paths, q.source, q.target, PathUp) {
      var p :| p in r.paths && Between(r.paths[p], q.source, q.target) && !r.paths[p].containsUnsupportedEdge
               && r.paths[p].state == PathUp;
      assert LivePath(r.paths, q, p);
    }
    if SeesState(r.paths, q.source, q.target, PathDegraded) {
      var p :| p in r.paths && Between(r.paths[p], q.source, q.target) && !r.paths[p].containsUnsupportedEdge
               && r.paths[p].state == PathDegraded;
      assert LivePath(r.paths, q, p);
    }
  }

  lemma PairChecksAgree(q: Query, s: Cluster, t: Cluster)
    requires q.source in s.endpoints && q.target in t.endpoints
    requires q.target in s.endpoints ==> s == t
    requires q.source in t.endpoints ==> s == t
    ensures CheckPair(q, s, t) == Ok <==>
              && ClusterUsable(s) && ClusterUsable(t) && EndpointsUsable(s, q) && EndpointsUsable(t, q)
              && GenerationExpected(q.sourceGeneration, s.generation)
              && GenerationExpected(q.targetGeneration, t.generation)
  {
  }

  /** The checks before any contract is looked at are the reference's. */
  lemma PairAgrees(r: Registry, q: Query)
    requires UniqueOwners(r)
    ensures Admitted(r, q) <==> PairHolds(r, q)
  {
    var a, b := Owner(r, q.source), Owner(r, q.target);
    if a.Some? && b.Some? && q.source != q.target {
      var s, t := r.clusters[a.value], r.clusters[b.value];
      PairChecksAgree(q, s, t);
      PathsAgree(r, q);
    }
  }

  lemma ConsentAgrees(r: Registry, c: Contract, side: Side)
    requires UniqueOwners(r) && (forall k <- r.clusters :: r.clusters[k].id == k)
    requires PartiesOwn(r, c, side) && c.BothConsented()
    ensures CheckConsent(r, c, side) == Ok <==> ConsentHolds(r, c, side)
  {
    OwnerIsUnique(r, c.parties.At(side).cluster, c.parties.At(side).endpoint);
  }

  lemma ContractAgrees(r: Registry, c: Contract)
    requires UniqueOwners(r) && (forall k <- r.clusters :: r.clusters[k].id == k)
    requires c.BothConsented() ==> PartiesOwn(r, c, First) && PartiesOwn(r, c, Second) && StateTellsConsent(c)
    ensures CheckConsents(r, c) == Ok <==> ContractHolds(r, c)
    ensures ContractHolds(r, c) ==> c.BothConsented()
  {
    if c.BothConsented() {
      ConsentAgrees(r, c, First);
      ConsentAgrees(r, c, Second);
    }
  }

  lemma GrantAgrees(r: Registry, c: Contract, g: Grant, q: Query, v: View)
    requires UniqueOwners(r) && PartiesOwn(r, c, First) && PartiesOwn(r, c, Second)
    ensures CheckSelected(r, c, g, q, v) == Ok <==> GrantHolds(r, c, g, q, v)
  {
    OwnerIsUnique(r, c.parties.first.cluster, c.parties.first.endpoint);
    OwnerIsUnique(r, c.parties.second.cluster, c.parties.second.endpoint);
  }

  /** On a well-formed registry the engine authorizes over exactly those grants the reference
      authorizes that are also the latest of their contract. */
  lemma EngineIsReferenceOnLatest(r: Registry, q: Query, v: View, c: Uuid, g: Uuid)
    requires WellFormed(r, q)
    ensures Authorizes(r, q, v, c, g) <==> ReferenceAuthorizes(r, q, v, c, g) && IsLatest(r.grants, c, g)
  {
    PairAgrees(r, q);
    if Candidate(r, q, c) && IsLatest(r.grants, c, g) {
      assert HasGrant(r.grants, c);
      LatestUnique(r.grants, c, g, Latest(r.grants, c));
      ContractAgrees(r, r.contracts[c]);
      if r.contracts[c].BothConsented() { GrantAgrees(r, r.contracts[c], r.grants[g], q, v); }
    }
  }

  /** With at most one grant per contract the two verdicts coincide. */
  lemma EngineEqualsReference(r: Registry, q: Query, v: View)
    requires WellFormed(r, q) && OneGrantPerContract(r)
    ensures (exists c, g :: Authorizes(r, q, v, c, g)) <==> (exists c, g :: ReferenceAuthorizes(r, q, v, c, g))
  {
    forall c, g ensures Authorizes(r, q, v, c, g) <==> ReferenceAuthorizes(r, q, v, c, g) {
      EngineIsReferenceOnLatest(r, q, v, c, g);
    }
  }
}
