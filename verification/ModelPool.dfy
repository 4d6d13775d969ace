/** The slot operations statement by statement, on the rows they update, against the effects `ModelSlots` gives. */
module ModelPool {
  import opened Results
  import opened ModelSlots

  // ----- What one UPDATE does to one agent -----

  function Put(which: Slot, s: Slots, value: Option<Id>): Slots {
    match which
    case Primary => s.(primary := value)
    case Secondary => s.(secondary := value)
    case Fallback => s.(fallback := value)
  }

  function Nulled(which: Slot, t: Id, m: Id, agent: Agent): Agent {
    if agent.tenant == Some(t) && Held(which, agent.slots) == Some(m)
    then agent.(slots := Put(which, agent.slots, None)) else agent
  }

  function MigratedPrimary(t: Id, before: Id, after: Id, agent: Agent): Agent {
    if agent.tenant == Some(t) && agent.slots.primary == Some(before)
    then agent.(slots := agent.slots.(primary := Some(after))) else agent
  }

  function MigratedOther(which: Slot, t: Id, before: Option<Id>, after: Id, agent: Agent): Agent {
    if agent.tenant == Some(t) && Held(which, agent.slots) == before && !TakenElsewhere(which, agent.slots, after)
    then agent.(slots := Put(which, agent.slots, Some(after))) else agent
  }

  function Assigned(t: Id, m: Id, agent: Agent): Agent {
    if agent.tenant == Some(t) && agent.slots.primary.None?
    then agent.(slots := agent.slots.(primary := Some(m))) else agent
  }

  /** The model is left in no slot but `keep`. */
  function Cleared(t: Id, m: Id, keep: Slot, agent: Agent): Agent {
    if agent.tenant == Some(t) then agent.(slots := Put(keep, ClearAll(agent.slots, m), Held(keep, agent.slots)))
    else agent
  }

  lemma NullingClears(t: Id, m: Id, keep: Slot, agent: Agent)
    ensures var first := if keep != Primary then Nulled(Primary, t, m, agent) else agent;
            var second := if keep != Secondary then Nulled(Secondary, t, m, first) else first;
            (if keep != Fallback then Nulled(Fallback, t, m, second) else second) == Cleared(t, m, keep, agent)
  {
  }

  /** For one agent, migration followed by clearing is the effect of setting a secondary or fallback slot. */
  lemma FollowThenClear(which: Slot, t: Id, previous: Option<Id>, m: Id, agent: Agent)
    requires which != Primary && agent.tenant == Some(t)
    ensures Cleared(t, m, which, MigratedOther(which, t, previous, m, agent)) ==
            agent.(slots := AgentAfterSet(which, agent.slots, previous, m))
  {
  }

  /** For the primary slot there is nothing to migrate when it was empty or held the model already. */
  lemma FollowPrimaryThenClear(t: Id, previous: Option<Id>, m: Id, agent: Agent)
    requires agent.tenant == Some(t)
    ensures var moved := if previous.Some? && previous != Some(m) then MigratedPrimary(t, previous.value, m, agent)
                         else agent;
            Cleared(t, m, Primary, moved) == agent.(slots := AgentAfterSet(Primary, agent.slots, previous, m))
  {
  }

  /** The agent once the rows in `passed` have handed their followers to the subscription. */
  function Moved(models: map<Id, Model>, m: Id, t: Id, passed: set<Id>, agent: Agent): Agent
    requires m in models
  {
    var primary := agent.slots.primary;
    if agent.tenant == Some(t) && primary.Some? && primary.value in passed && primary.value in models
       && primary != Some(m) && models[primary.value].tenant == Some(t)
       && Replaces(models[m].auth, models[primary.value])
    then agent.(slots := agent.slots.(primary := Some(m))) else agent
  }

  lemma MovedNext(models: map<Id, Model>, m: Id, t: Id, passed: set<Id>, r: Id, agent: Agent)
    requires m in models && r in models && models[r].tenant == Some(t)
    ensures Moved(models, m, t, passed + {r}, agent) ==
            if r != m && Replaces(models[m].auth, models[r])
            then MigratedPrimary(t, r, m, Moved(models, m, t, passed, agent)) else Moved(models, m, t, passed, agent)
  {
  }

  lemma MovedAll(models: map<Id, Model>, m: Id, t: Id, passed: set<Id>, agent: Agent)
    requires m in models && forall r | r in models && models[r].tenant == Some(t) :: r in passed
    ensures Moved(models, m, t, models.Keys, agent) == Moved(models, m, t, passed, agent)
  {
  }

  /** What the three branches of the activation do to one agent. */
  lemma ActivationOfAgent(s: State, m: Id, t: Id, agent: Agent)
    requires m in s.models && t in s.tenants
    ensures var after, primary := WithPrimary(agent, NewPrimary(s, m, t, agent)), s.tenants[t].primary;
            && (primary.None? ==> Assigned(t, m, agent) == after)
            && (primary.Some? && TakesPrimary(s, m, t) ==>
                  Assigned(t, m, Moved(s.models, m, t, s.models.Keys, agent)) == after)
            && (!TakesPrimary(s, m, t) ==> Assigned(t, primary.value, agent) == after)
  {
  }

  class Pool {
    var models: map<Id, Model>
    var tenants: map<Id, Slots>
    var agents: map<Id, Agent>

    ghost function View(): State
      reads this
    {
      State(models, tenants, agents)
    }

    // ----- Statements of engine/app/dao/agent_dao.py -----

    /** `UPDATE agents SET <slot> = NULL WHERE tenant_id = t AND <slot> = m`. */
    method NullSlot(which: Slot, t: Id, m: Id)
      modifies this`agents
      ensures agents == map a | a in old(agents) :: Nulled(which, t, m, old(agents)[a])
    {
      agents := map a | a in agents :: Nulled(which, t, m, agents[a]);
    }

    /** Null every slot except `keep` that still holds `m`. */
    method ClearOtherSlotsMatching(t: Id, m: Id, keep: Slot)
      modifies this`agents
      ensures agents == map a | a in old(agents) :: Cleared(t, m, keep, old(agents)[a])
    {
      if keep != Primary { NullSlot(Primary, t, m); }
      if keep != Secondary { NullSlot(Secondary, t, m); }
      if keep != Fallback { NullSlot(Fallback, t, m); }
      forall a | a in old(agents) ensures a in agents && agents[a] == Cleared(t, m, keep, old(agents)[a]) {
        NullingClears(t, m, keep, old(agents)[a]);
      }
    }

    method MigratePrimaryModel(t: Id, before: Id, after: Id)
      modifies this`agents
      ensures agents == map a | a in old(agents) :: MigratedPrimary(t, before, after, old(agents)[a])
    {
      agents := map a | a in agents :: MigratedPrimary(t, before, after, agents[a]);
    }

    /** Migration of a secondary or fallback slot; `before` is NULL when the company had none. */
    method MigrateOtherModel(which: Slot, t: Id, before: Option<Id>, after: Id)
      requires which != Primary
      modifies this`agents
      ensures agents == map a | a in old(agents) :: MigratedOther(which, t, before, after, old(agents)[a])
    {
      agents := map a | a in agents :: MigratedOther(which, t, before, after, agents[a]);
    }

    // ----- Operations -----

    method Check(m: Id, mayManage: bool) returns (r: Result<Id, Error>)
      ensures r == if m !in models then Err(ModelNotFound)
                   else if !mayManage then Err(Forbidden)
                   else if models[m].tenant.None? then Err(NotTenantScoped)
                   else if !models[m].enabled then Err(ModelDisabled)
                   else if models[m].tenant.value !in tenants then Err(TenantNotFound)
                   else Ok(models[m].tenant.value)
    {
      if m !in models { return Err(ModelNotFound); }
      if !mayManage { return Err(Forbidden); }
      if models[m].tenant.None? { return Err(NotTenantScoped); }
      if !models[m].enabled { return Err(ModelDisabled); }
      var t := models[m].tenant.value;
      if t !in tenants { return Err(TenantNotFound); }
      r := Ok(t);
    }

    method AddLlmModel(m: Id, t: Id, enabled: bool, family: Family)
      requires m !in models
      modifies this
      ensures View() == Apply(old(View()), Add(m, t, enabled, family))
    {
      models := models[m := Model(Some(t), enabled, family, ApiKey)];
      if enabled && t in tenants {
        if tenants[t].primary.None? {
          tenants := tenants[t := tenants[t].(primary := Some(m))];
        } else if tenants[t].fallback.None? {
          tenants := tenants[t := tenants[t].(fallback := Some(m))];
        }
      }
    }

    method SetDefaultLlmModel(m: Id, mayManage: bool) returns (r: Option<Error>)
      modifies this
      ensures r == None <==> SetSlot(old(View()), Primary, m, mayManage).Ok?
      ensures r.Some? ==> SetSlot(old(View()), Primary, m, mayManage) == Err(r.value)
      ensures View() == Apply(old(View()), Set(Primary, m, mayManage))
    {
      var check := Check(m, mayManage);
      if check.Err? { return Some(check.error); }
      var t := check.value;
      var previous := tenants[t].primary;
      var updates := tenants[t].(primary := Some(m));
      if tenants[t].fallback == Some(m) { updates := updates.(fallback := None); }
      if tenants[t].secondary == Some(m) { updates := updates.(secondary := None); }
      tenants := tenants[t := updates];
      if previous.Some? && previous != Some(m) {
        MigratePrimaryModel(t, previous.value, m);
      }
      ClearOtherSlotsMatching(t, m, Primary);
      r := None;
      ghost var after := SetSlot(old(View()), Primary, m, mayManage).value.agents;
      forall a | a in old(agents) ensures a in agents && agents[a] == after[a] {
        if old(agents)[a].tenant == Some(t) {
          FollowPrimaryThenClear(t, previous, m, old(agents)[a]);
        }
      }
      assert agents == after;
    }

    method SetOtherLlmModel(which: Slot, m: Id, mayManage: bool) returns (r: Option<Error>)
      requires which != Primary
      modifies this
      ensures r == None <==> SetSlot(old(View()), which, m, mayManage).Ok?
      ensures r.Some? ==> SetSlot(old(View()), which, m, mayManage) == Err(r.value)
      ensures View() == Apply(old(View()), Set(which, m, mayManage))
    {
      var check := Check(m, mayManage);
      if check.Err? { return Some(check.error); }
      var t := check.value;
      if TakenElsewhere(which, tenants[t], m) { return Some(MustDiffer); }
      var previous := Held(which, tenants[t]);
      tenants := tenants[t := Put(which, tenants[t], Some(m))];
      MigrateOtherModel(which, t, previous, m);
      ClearOtherSlotsMatching(t, m, which);
      r := None;
      ghost var after := SetSlot(old(View()), which, m, mayManage).value.agents;
      forall a | a in old(agents) ensures a in agents && agents[a] == after[a] {
        if old(agents)[a].tenant == Some(t) {
          FollowThenClear(which, t, previous, m, old(agents)[a]);
        }
      }
      assert agents == after;
    }

    method RemoveLlmModel(m: Id, force: bool, mayManage: bool) returns (r: Option<Error>)
      modifies this
      ensures r == None <==> RemoveModel(old(View()), m, force, mayManage).Ok?
      ensures r.Some? ==> RemoveModel(old(View()), m, force, mayManage) == Err(r.value)
      ensures View() == Apply(old(View()), Remove(m, force, mayManage))
    {
      if m !in models { return Some(ModelNotFound); }
      if !mayManage { return Some(Forbidden); }
      var names := set a | a in agents && agents[a].named && Uses(agents[a].slots, m);
      assert names != {} <==> NamedReference(View(), m) by {
        if a :| a in agents && agents[a].named && Uses(agents[a].slots, m) { assert a in names; }
      }
      if names != {} && !force { return Some(InUse); }
      if names != {} {
        // nullify_model_references
        agents := map a | a in agents :: agents[a].(slots := ClearAll(agents[a].slots, m));
      } else if exists a | a in agents :: Uses(agents[a].slots, m) {
        return Some(StillReferenced);
      }
      models := models - {m};
      tenants := map t | t in tenants :: ClearAll(tenants[t], m);   // ON DELETE SET NULL
      r := None;
      assert agents == Forget(old(View()), m).agents;
    }

    method UpdateLlmModel(m: Id, enabled: Option<bool>, provider: Option<Family>, mayManage: bool)
      returns (r: Option<Error>)
      modifies this
      ensures r == None <==> UpdateModel(old(View()), m, enabled, provider, mayManage).Ok?
      ensures r.Some? ==> UpdateModel(old(View()), m, enabled, provider, mayManage) == Err(r.value)
      ensures View() == Apply(old(View()), Update(m, enabled, provider, mayManage))
    {
      if m !in models { return Some(ModelNotFound); }
      if !mayManage { return Some(Forbidden); }
      r := None;
      var updated := models[m];
      if provider.Some? { updated := updated.(family := provider.value); }
      if enabled.Some? { updated := updated.(enabled := enabled.value); }
      models := models[m := updated];
      if models[m].tenant.Some? && models[m].tenant.value in tenants && enabled == Some(false) {
        var t := models[m].tenant.value;
        var cleared := tenants[t];
        if tenants[t].primary == Some(m) { cleared := cleared.(primary := None); }
        if tenants[t].fallback == Some(m) { cleared := cleared.(fallback := None); }
        if tenants[t].secondary == Some(m) { cleared := cleared.(secondary := None); }
        tenants := tenants[t := cleared];
      }
    }

    // ----- Subscriptions (engine/app/services/enterprise_llm.py, lines 192-222) -----

    /** `UPDATE agents SET primary_model_id = m WHERE tenant_id = t AND primary_model_id IS NULL`. */
    method AssignPrimaryWhereNull(t: Id, m: Id)
      modifies this`agents
      ensures agents == map a | a in old(agents) :: Assigned(t, m, old(agents)[a])
    {
      agents := map a | a in agents :: Assigned(t, m, agents[a]);
    }

    /** The loop over the company's rows: each replaced one hands its followers to the subscription. */
    method MigrateReplacedKeys(m: Id, t: Id)
      requires m in models
      modifies this`agents
      ensures agents == map a | a in old(agents) :: Moved(models, m, t, models.Keys, old(agents)[a])
    {
      var rows := set r | r in models && models[r].tenant == Some(t);
      ghost var passed: set<Id> := {};
      while rows != {}
        invariant forall r | r in rows :: r in models && models[r].tenant == Some(t)
        invariant forall r | r in models && models[r].tenant == Some(t) :: r in rows || r in passed
        invariant agents.Keys == old(agents).Keys
        invariant forall a | a in old(agents) :: agents[a] == Moved(models, m, t, passed, old(agents)[a])
        decreases |rows|
      {
        AnyOf(rows);
        var r :| r in rows;
        MigrateReplacedKey(m, t, r, passed, old(agents));
        rows := rows - {r};
        passed := passed + {r};
      }
      forall a | a in old(agents) ensures agents[a] == Moved(models, m, t, models.Keys, old(agents)[a]) {
        MovedAll(models, m, t, passed, old(agents)[a]);
      }
    }

    /** One round of that loop. */
    method MigrateReplacedKey(m: Id, t: Id, r: Id, ghost passed: set<Id>, ghost first: map<Id, Agent>)
      requires m in models && r in models && models[r].tenant == Some(t) && agents.Keys == first.Keys
      requires forall a | a in first :: agents[a] == Moved(models, m, t, passed, first[a])
      modifies this`agents
      ensures agents.Keys == first.Keys
      ensures forall a | a in first :: agents[a] == Moved(models, m, t, passed + {r}, first[a])
    {
      forall a | a in first
        ensures Moved(models, m, t, passed + {r}, first[a]) ==
                if r != m && Replaces(models[m].auth, models[r]) then MigratedPrimary(t, r, m, agents[a]) else agents[a]
      {
        MovedNext(models, m, t, passed, r, first[a]);
      }
      if r != m && Replaces(models[m].auth, models[r]) {
        MigratePrimaryModel(t, r, m);
      }
    }

    method ActivatePoolModelForTenant(m: Id, t: Id)
      requires m in models
      modifies this`tenants, this`agents
      ensures View() == Activate(old(View()), m, t)
    {
      if t !in tenants {
        return;
      }
      ghost var after := Activate(old(View()), m, t).agents;
      var slots := tenants[t];
      if slots.primary.None? {
        tenants := tenants[t := slots.(primary := Some(m))];
        AssignPrimaryWhereNull(t, m);
      } else {
        var current := slots.primary.value;
        if models[m].auth != ApiKey && (current !in models || Replaces(models[m].auth, models[current])) {
          tenants := tenants[t := slots.(primary := Some(m))];
          MigrateReplacedKeys(m, t);
          AssignPrimaryWhereNull(t, m);
        } else {
          if slots.fallback.None? && current != m {
            tenants := tenants[t := slots.(fallback := Some(m))];
          }
          AssignPrimaryWhereNull(t, current);
        }
      }
      forall a | a in old(agents) ensures a in agents && agents[a] == after[a] {
        ActivationOfAgent(old(View()), m, t, old(agents)[a]);
      }
      assert agents == after;
    }

    /** The company's subscription row is updated, or made, and then activated
        (engine/app/services/grok_subscription.py, lines 211-240; chatgpt_subscription.py, lines 52-84). */
    method ConnectSubscription(m: Id, t: Id, auth: Auth)
      requires Enabled(View(), Connect(m, t, auth))
      modifies this
      ensures View() == Apply(old(View()), Connect(m, t, auth))
    {
      if m in models {
        var row := models[m].(enabled := true);
        if auth == GrokSubscription { row := row.(family := Grok); }
        models := models[m := row];
      } else {
        models := models[m := Model(Some(t), true, if auth == GrokSubscription then Grok else OpenAi, auth)];
      }
      assert models[m] == SavedSubscription(old(View()), m, t, auth);
      ActivatePoolModelForTenant(m, t);
    }
  }

  lemma AnyOf(ids: set<Id>)
    requires ids != {}
    ensures exists id :: id in ids
  {
    assert (forall id :: id !in ids) ==> ids == {};
  }
}
