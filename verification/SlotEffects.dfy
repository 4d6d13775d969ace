/** What each slot operation does to each slot of each company and agent, one slot at a time
    (engine/app/api/enterprise.py, lines 386-745; engine/app/dao/agent_dao.py, lines 955-1102;
    engine/app/services/enterprise_llm.py, lines 146-222). */
module SlotEffects {
  import opened Results
  import opened ModelSlots

  predicate Elsewhere(which: Slot, s: Slots, m: Id) {
    exists other: Slot :: other != which && Held(other, s) == Some(m)
  }

  // ----- Setting a slot -----

  ghost predicate MaySet(s: State, which: Slot, m: Id, mayManage: bool) {
    && m in s.models && mayManage && s.models[m].enabled
    && s.models[m].tenant.Some? && s.models[m].tenant.value in s.tenants
    && (which != Primary ==> !Elsewhere(which, s.tenants[s.models[m].tenant.value], m))
  }

  /** Accepted exactly for an enabled model of an existing company that fills no other slot of it, or for the primary
      slot; a refusal changes nothing. */
  lemma SetAcceptedIff(s: State, which: Slot, m: Id, mayManage: bool)
    ensures SetSlot(s, which, m, mayManage).Ok? <==> MaySet(s, which, m, mayManage)
    ensures !MaySet(s, which, m, mayManage) ==> Apply(s, Set(which, m, mayManage)) == s
    ensures SetSlot(s, which, m, mayManage) == Err(MustDiffer) ==>
              which != Primary && Elsewhere(which, s.tenants[s.models[m].tenant.value], m)
  {
    if m in s.models && s.models[m].tenant.Some? && s.models[m].tenant.value in s.tenants {
      var slots := s.tenants[s.models[m].tenant.value];
      assert which == Secondary && slots.primary == Some(m) ==> Held(Primary, slots) == Some(m);
      assert which == Secondary && slots.fallback == Some(m) ==> Held(Fallback, slots) == Some(m);
      assert which == Fallback && slots.primary == Some(m) ==> Held(Primary, slots) == Some(m);
      assert which == Fallback && slots.secondary == Some(m) ==> Held(Secondary, slots) == Some(m);
    }
  }

  /** The company's slot holds the model, which leaves the other slots; everything else in them stays. */
  lemma SetCompany(s: State, which: Slot, m: Id, slot: Slot)
    requires MaySet(s, which, m, true)
    ensures var r, t := Apply(s, Set(which, m, true)), s.models[m].tenant.value;
            && r.models == s.models && r.tenants.Keys == s.tenants.Keys && r.agents.Keys == s.agents.Keys
            && (forall c | c in s.tenants && c != t :: r.tenants[c] == s.tenants[c])
            && Held(slot, r.tenants[t]) == (if slot == which then Some(m)
                                            else if Held(slot, s.tenants[t]) == Some(m) then None
                                            else Held(slot, s.tenants[t]))
  {
    SetAcceptedIff(s, which, m, true);
    assert forall other: Slot | other != which && Held(other, s.tenants[s.models[m].tenant.value]) == Some(m) ::
        Elsewhere(which, s.tenants[s.models[m].tenant.value], m);
  }

  /** The agent follows the company: its slot held what the company's held, and for secondary and fallback the model is
      in no other slot of it, for the primary the company did have a model. */
  predicate Follows(which: Slot, company: Slots, agent: Slots, m: Id) {
    && Held(which, agent) == Held(which, company)
    && if which == Primary then Held(which, company).Some? else !Elsewhere(which, agent, m)
  }

  /** An agent that follows its company goes on following it; one with a choice of its own keeps that, but no agent of
      the company keeps the model in another slot. */
  lemma SetAgent(s: State, which: Slot, m: Id, a: Id, slot: Slot)
    requires MaySet(s, which, m, true) && a in s.agents
    ensures var r, t := Apply(s, Set(which, m, true)), s.models[m].tenant.value;
            && a in r.agents && r.agents[a].tenant == s.agents[a].tenant && r.agents[a].named == s.agents[a].named
            && var before, after := s.agents[a].slots, r.agents[a].slots;
            if s.agents[a].tenant != Some(t) then after == before
            else if slot == which then
              Held(slot, after) == if Follows(which, s.tenants[t], before, m) then Some(m) else Held(slot, before)
            else
              Held(slot, after) == if Held(slot, before) == Some(m) then None else Held(slot, before)
  {
    SetAcceptedIff(s, which, m, true);
    var slots := s.agents[a].slots;
    assert slots.primary == Some(m) ==> Held(Primary, slots) == Some(m);
    assert slots.secondary == Some(m) ==> Held(Secondary, slots) == Some(m);
    assert slots.fallback == Some(m) ==> Held(Fallback, slots) == Some(m);
  }

  // ----- Adding, updating and removing a model -----

  /** The company's first free slot among primary and fallback, if the new model is enabled. */
  predicate FirstFree(slot: Slot, s: Slots) {
    match slot
    case Primary => Held(Primary, s).None?
    case Secondary => false
    case Fallback => Held(Primary, s).Some? && Held(Fallback, s).None?
  }

  lemma AddEffect(s: State, m: Id, t: Id, enabled: bool, family: Family, slot: Slot)
    ensures var r := Apply(s, Add(m, t, enabled, family));
            && r.models == s.models[m := Model(Some(t), enabled, family, ApiKey)] && r.agents == s.agents
            && r.tenants.Keys == s.tenants.Keys
            && (forall c | c in s.tenants && c != t :: r.tenants[c] == s.tenants[c])
            && (t in s.tenants ==>
                  Held(slot, r.tenants[t]) ==
                  if enabled && FirstFree(slot, s.tenants[t]) then Some(m) else Held(slot, s.tenants[t]))
  {
  }

  predicate Names(s: Slots, m: Id) {
    exists slot: Slot :: Held(slot, s) == Some(m)
  }

  lemma NamesIsUses(s: Slots, m: Id)
    ensures Names(s, m) <==> Uses(s, m)
  {
    assert s.primary == Some(m) ==> Held(Primary, s) == Some(m);
    assert s.secondary == Some(m) ==> Held(Secondary, s) == Some(m);
    assert s.fallback == Some(m) ==> Held(Fallback, s) == Some(m);
  }

  ghost predicate MayRemove(s: State, m: Id, force: bool, mayManage: bool) {
    && m in s.models && mayManage
    && (!force ==> forall a | a in s.agents && Names(s.agents[a].slots, m) :: !s.agents[a].named)
    && ((forall a | a in s.agents && Names(s.agents[a].slots, m) :: !s.agents[a].named) ==>
          forall a | a in s.agents :: !Names(s.agents[a].slots, m))
  }

  /** Without force a model goes only when no agent names it; with force also when an agent that has a name does. */
  lemma RemoveAcceptedIff(s: State, m: Id, force: bool, mayManage: bool)
    ensures RemoveModel(s, m, force, mayManage).Ok? <==> MayRemove(s, m, force, mayManage)
    ensures !MayRemove(s, m, force, mayManage) ==> Apply(s, Remove(m, force, mayManage)) == s
  {
    forall a | a in s.agents { NamesIsUses(s.agents[a].slots, m); }
  }

  predicate OnlyLoses(before: Slots, after: Slots, m: Id, slot: Slot) {
    Held(slot, after) == if Held(slot, before) == Some(m) then None else Held(slot, before)
  }

  /** A removed model leaves every slot of every company and agent, and nothing else changes. */
  lemma RemoveEffect(s: State, m: Id, force: bool, slot: Slot)
    requires MayRemove(s, m, force, true)
    ensures var r := Apply(s, Remove(m, force, true));
            && r.models == s.models - {m} && r.tenants.Keys == s.tenants.Keys && r.agents.Keys == s.agents.Keys
            && (forall t | t in s.tenants :: OnlyLoses(s.tenants[t], r.tenants[t], m, slot))
            && (forall a | a in s.agents ::
                  && r.agents[a].tenant == s.agents[a].tenant && r.agents[a].named == s.agents[a].named
                  && OnlyLoses(s.agents[a].slots, r.agents[a].slots, m, slot))
  {
    RemoveAcceptedIff(s, m, force, true);
  }

  /** An update changes the fields it gives; and only an update that disables the model takes it out of the slots of its
      company. */
  lemma UpdateEffect(s: State, m: Id, enabled: Option<bool>, family: Option<Family>, mayManage: bool, slot: Slot)
    ensures var r := Apply(s, Update(m, enabled, family, mayManage));
            if m !in s.models || !mayManage then r == s
            else
              var before := s.models[m];
              && r.agents == s.agents && r.tenants.Keys == s.tenants.Keys && r.models.Keys == s.models.Keys
              && (forall n | n in s.models && n != m :: r.models[n] == s.models[n])
              && r.models[m].tenant == before.tenant && r.models[m].auth == before.auth
              && r.models[m].enabled == (if enabled.Some? then enabled.value else before.enabled)
              && r.models[m].family == (if family.Some? then family.value else before.family)
              && forall t | t in s.tenants ::
                   if before.tenant == Some(t) && enabled == Some(false)
                   then OnlyLoses(s.tenants[t], r.tenants[t], m, slot) else r.tenants[t] == s.tenants[t]
  {
  }

  // ----- Connecting a subscription -----

  /** The model is of the vendor of this subscription, and paid for in another way. */
  predicate Superseded(auth: Auth, model: Model) {
    && model.auth != auth
    && ((auth == GrokSubscription && model.family == Grok) || (auth == ChatGptSubscription && model.family == OpenAi))
  }

  /** The company had no primary model, or a deleted one, or one that the subscription supersedes. */
  predicate Takes(models: map<Id, Model>, auth: Auth, company: Slots) {
    var primary := Held(Primary, company);
    primary.None? || primary.value !in models || Superseded(auth, models[primary.value])
  }

  /** The subscription's row is saved enabled; the company's primary slot is taken, or else its empty fallback. */
  lemma ConnectCompany(s: State, m: Id, t: Id, auth: Auth, slot: Slot)
    requires Enabled(s, Connect(m, t, auth))
    ensures var r := Apply(s, Connect(m, t, auth));
            && r.models.Keys == s.models.Keys + {m}
            && (forall n | n in s.models && n != m :: r.models[n] == s.models[n])
            && r.models[m].tenant == Some(t) && r.models[m].enabled && r.models[m].auth == auth
            && (auth == GrokSubscription ==> r.models[m].family == Grok)
            && (auth == ChatGptSubscription ==>
                  r.models[m].family == if m in s.models then s.models[m].family else OpenAi)
            && r.tenants.Keys == s.tenants.Keys && (forall c | c in s.tenants && c != t :: r.tenants[c] == s.tenants[c])
            && (t in s.tenants ==>
                  var before := s.tenants[t];
                  Held(slot, r.tenants[t]) ==
                  if slot == Primary && Takes(r.models, auth, before) then Some(m)
                  else if slot == Fallback && !Takes(r.models, auth, before) && Held(Fallback, before).None?
                          && Held(Primary, before) != Some(m) then Some(m)
                  else Held(slot, before))
  {
  }

  /** The agent's primary model is one of the company that the subscription supersedes. */
  predicate HeldSuperseded(models: map<Id, Model>, auth: Auth, m: Id, t: Id, agent: Slots) {
    var primary := Held(Primary, agent);
    && primary.Some? && primary.value != m && primary.value in models
    && models[primary.value].tenant == Some(t) && Superseded(auth, models[primary.value])
  }

  /** Agents of the company without a primary model get the company's new or present one; those whose model is
      superseded follow if the company's primary slot was filled and is taken; no other slot and no other agent
      changes. */
  lemma ConnectAgent(s: State, m: Id, t: Id, auth: Auth, a: Id)
    requires Enabled(s, Connect(m, t, auth)) && a in s.agents
    ensures var r := Apply(s, Connect(m, t, auth));
            && r.agents.Keys == s.agents.Keys && r.agents[a].tenant == s.agents[a].tenant
            && r.agents[a].named == s.agents[a].named
            && var before, after := s.agents[a].slots, r.agents[a].slots;
            && Held(Secondary, after) == Held(Secondary, before) && Held(Fallback, after) == Held(Fallback, before)
            && Held(Primary, after) ==
               if t !in s.tenants || s.agents[a].tenant != Some(t) then Held(Primary, before)
               else
                 var company := s.tenants[t];
                 if Held(Primary, before).None? then
                   if Takes(r.models, auth, company) then Some(m) else Held(Primary, company)
                 else if Takes(r.models, auth, company) && Held(Primary, company).Some?
                         && HeldSuperseded(r.models, auth, m, t, before) then Some(m)
                 else Held(Primary, before)
  {
  }
}
