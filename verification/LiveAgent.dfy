/** A cluster agent as the runtime changes it (src/runtime/agent.cpp): the grant map is edited in place. */
module LiveAgents {
  import opened Model
  import opened Coordination
  import opened Agents

  class LiveAgent {
    var state: Agent

    constructor (a: Agent)
      ensures state == a
    {
      state := a;
    }

    /** The loop of `fence_not_revalidated`. */
    method FenceOthers(term: nat)
      modifies this
      ensures state == FenceNotRevalidated(old(state), term)
    {
      var before, grants, todo := state, state.reg.grants, state.reg.grants.Keys;
      ghost var all := FenceNotRevalidated(before, term).reg.grants;
      while todo != {}
        invariant todo <= grants.Keys == before.reg.grants.Keys == all.Keys
        invariant forall g <- grants :: grants[g] == if g in todo then before.reg.grants[g] else all[g]
        decreases |todo|
      {
        var g :| g in todo;
        todo := todo - {g};
        if Retained(grants[g]) && grants[g].term != term {
          grants := grants[g := grants[g].(state := GrantFenced)];
        }
      }
      assert grants == all;
      state := state.(reg := state.reg.(grants := grants));
    }

    /** The loop of `reevaluate_enforcement`. */
    method Reevaluates(now: Time)
      modifies this
      ensures state == Reevaluate(old(state), now)
    {
      var before, grants, todo := state, state.reg.grants, state.reg.grants.Keys;
      ghost var all := Reevaluate(before, now).reg.grants;
      while todo != {}
        invariant todo <= grants.Keys == before.reg.grants.Keys == all.Keys
        invariant forall g <- grants :: grants[g] == if g in todo then before.reg.grants[g] else all[g]
        decreases |todo|
      {
        var g :| g in todo;
        todo := todo - {g};
        grants := grants[g := grants[g].(state := Reevaluated(before, grants[g], now))];
      }
      assert grants == all;
      state := state.(reg := state.reg.(grants := grants));
    }

    /** `on_hello_ack`. */
    method OnAcknowledged(ok: bool, session: Uuid, term: nat) returns (sent: seq<Message>)
      modifies this
      ensures Reply(state, sent) == OnHelloAck(old(state), ok, session, term)
    {
      if !ok {
        state := state.(connection := None, joined := false);
        return [];
      }
      state := state.(session := session, coordinatorTerm := term, joined := true);
      FenceOthers(term);
      return Report(state);
    }

    /** `on_prepare_grant`. */
    method OnPrepareGrant(g: Grant) returns (sent: seq<Message>)
      modifies this
      ensures Reply(state, sent) == OnPrepare(old(state), g)
    {
      var accepted := false;
      if Preparable(state, g) {
        match PutGrant(state.reg, g.(state := Prepared)) {
          case Success(r) =>
            state := state.(reg := r);
            accepted := true;
          case Failure(_) =>
        }
      }
      return [PreparedMessage(state.session, g.id, g.attempt, accepted)];
    }

    /** `on_commit_grant`. */
    method OnCommitGrant(g: Uuid, attempt: Uuid) returns (sent: seq<Message>)
      modifies this
      ensures Reply(state, sent) == OnCommit(old(state), g, attempt)
    {
      var installed := Committable(state, g, attempt);
      if installed {
        state := SetGrantState(state, g, GrantActive);
      }
      return [CommittedMessage(state.session, g, attempt, installed)];
    }

    /** The loop of `on_fence`. */
    method OnFenceGrants(gs: seq<Uuid>)
      modifies this
      ensures state == OnFence(old(state), gs).agent
    {
      var before, grants := state, state.reg.grants;
      for i := 0 to |gs|
        invariant grants.Keys == before.reg.grants.Keys
        invariant forall g <- grants ::
                    grants[g] == if g in gs[..i] then before.reg.grants[g].(state := GrantFenced)
                      else before.reg.grants[g]
      {
        if gs[i] in grants && grants[gs[i]].state != GrantFenced {
          grants := grants[gs[i] := grants[gs[i]].(state := GrantFenced)];
        }
        assert gs[..i + 1] == gs[..i] + [gs[i]];
      }
      assert gs[..|gs|] == gs;
      assert grants == OnFence(before, gs).agent.reg.grants;
      state := state.(reg := state.reg.(grants := grants));
    }
  }
}
