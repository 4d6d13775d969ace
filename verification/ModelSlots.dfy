/** The model slots of companies and their agents (engine/app/api/enterprise.py, lines 386-745, with the SQL of
    engine/app/dao/agent_dao.py, lines 955-1102, and the foreign keys of engine/scripts/schema_baseline.sql).

    Each operation is given here by its effect; class `Pool` in `ModelPool` performs it statement by statement. */
module ModelSlots {
  import opened Results

  type Id = nat

  /** The vendor a model's provider field names, and how it is paid for. */
  datatype Family = Grok | OpenAi | OtherFamily
  datatype Auth = ApiKey | GrokSubscription | ChatGptSubscription

  datatype Model = Model(tenant: Option<Id>, enabled: bool, family: Family, auth: Auth)

  /** Three slots, of a company or of an agent. */
  datatype Slots = Slots(primary: Option<Id>, secondary: Option<Id>, fallback: Option<Id>)

  datatype Agent = Agent(tenant: Option<Id>, named: bool, slots: Slots)

  datatype State = State(models: map<Id, Model>, tenants: map<Id, Slots>, agents: map<Id, Agent>)

  datatype Error =
    | Forbidden
    | ModelNotFound
    | NotTenantScoped
    | ModelDisabled
    | TenantNotFound
    | MustDiffer
    | InUse
    | StillReferenced   // the foreign key of `agents` refuses the deletion

  datatype Slot = Primary | Secondary | Fallback

  const EMPTY := Slots(None, None, None)

  predicate Distinct(s: Slots) {
    && (s.primary.Some? ==> s.primary != s.secondary && s.primary != s.fallback)
    && (s.secondary.Some? ==> s.secondary != s.fallback)
  }

  predicate Uses(s: Slots, m: Id) {
    s.primary == Some(m) || s.secondary == Some(m) || s.fallback == Some(m)
  }

  function Without(slot: Option<Id>, m: Id): Option<Id> {
    if slot == Some(m) then None else slot
  }

  function ClearAll(s: Slots, m: Id): Slots {
    Slots(Without(s.primary, m), Without(s.secondary, m), Without(s.fallback, m))
  }

  // ----- Effects -----

  /** The company's slots once `m` is put into one of them. */
  function TenantAfterSet(which: Slot, s: Slots, m: Id): Slots {
    match which
    case Primary => ClearAll(s, m).(primary := Some(m))
    case Secondary => s.(secondary := Some(m))
    case Fallback => s.(fallback := Some(m))
  }

  /** An agent's slots then, where `previous` is what the company's slot held: an agent that followed the company
      follows it, and the model stays in no other slot. */
  function AgentAfterSet(which: Slot, s: Slots, previous: Option<Id>, m: Id): Slots {
    match which
    case Primary =>
      ClearAll(s, m).(primary := if previous.Some? && s.primary == previous then Some(m) else s.primary)
    case Secondary =>
      ClearAll(s, m).(secondary := if s.secondary == previous && s.primary != Some(m) && s.fallback != Some(m)
                                   then Some(m) else s.secondary)
    case Fallback =>
      ClearAll(s, m).(fallback := if s.fallback == previous && s.primary != Some(m) && s.secondary != Some(m)
                                  then Some(m) else s.fallback)
  }

  function Held(which: Slot, s: Slots): Option<Id> {
    match which
    case Primary => s.primary
    case Secondary => s.secondary
    case Fallback => s.fallback
  }

  /** Secondary and fallback refuse a model that already fills another slot; the primary slot takes it over. */
  predicate TakenElsewhere(which: Slot, s: Slots, m: Id) {
    match which
    case Primary => false
    case Secondary => s.primary == Some(m) || s.fallback == Some(m)
    case Fallback => s.primary == Some(m) || s.secondary == Some(m)
  }

  function SetSlot(s: State, which: Slot, m: Id, mayManage: bool): Result<State, Error> {
    if m !in s.models then Err(ModelNotFound)
    else if !mayManage then Err(Forbidden)
    else if s.models[m].tenant.None? then Err(NotTenantScoped)
    else if !s.models[m].enabled then Err(ModelDisabled)
    else
      var t := s.models[m].tenant.value;
      if t !in s.tenants then Err(TenantNotFound)
      else if TakenElsewhere(which, s.tenants[t], m) then Err(MustDiffer)
      else
        var previous := Held(which, s.tenants[t]);
        Ok(s.(tenants := s.tenants[t := TenantAfterSet(which, s.tenants[t], m)],
              agents := map a | a in s.agents ::
                if s.agents[a].tenant == Some(t)
                then s.agents[a].(slots := AgentAfterSet(which, s.agents[a].slots, previous, m))
                else s.agents[a]))
  }

  /** A new model of company `t` takes the company's first free slot among primary and fallback. */
  function AddModel(s: State, m: Id, t: Id, enabled: bool, family: Family): State {
    var added := s.(models := s.models[m := Model(Some(t), enabled, family, ApiKey)]);
    if !enabled || t !in s.tenants then added
    else if s.tenants[t].primary.None? then added.(tenants := s.tenants[t := s.tenants[t].(primary := Some(m))])
    else if s.tenants[t].fallback.None? then added.(tenants := s.tenants[t := s.tenants[t].(fallback := Some(m))])
    else added
  }

  predicate Referenced(s: State, m: Id) {
    exists a | a in s.agents :: Uses(s.agents[a].slots, m)
  }

  /** Whether the list of names of the referencing agents is non-empty: nameless agents are not in it. */
  predicate NamedReference(s: State, m: Id) {
    exists a | a in s.agents :: s.agents[a].named && Uses(s.agents[a].slots, m)
  }

  function Forget(s: State, m: Id): State {
    State(s.models - {m},
          map t | t in s.tenants :: ClearAll(s.tenants[t], m),
          map a | a in s.agents :: s.agents[a].(slots := ClearAll(s.agents[a].slots, m)))
  }

  function RemoveModel(s: State, m: Id, force: bool, mayManage: bool): Result<State, Error> {
    if m !in s.models then Err(ModelNotFound)
    else if !mayManage then Err(Forbidden)
    else if NamedReference(s, m) && !force then Err(InUse)
    else if !NamedReference(s, m) && Referenced(s, m) then Err(StillReferenced)
    else Ok(Forget(s, m))
  }

  /** `enabled` and `family` are fields of the request, when they are given. */
  function UpdateModel(s: State, m: Id, enabled: Option<bool>, family: Option<Family>, mayManage: bool):
    Result<State, Error>
  {
    if m !in s.models then Err(ModelNotFound)
    else if !mayManage then Err(Forbidden)
    else
      var model := s.models[m].(family := if family.Some? then family.value else s.models[m].family,
                                enabled := if enabled.Some? then enabled.value else s.models[m].enabled);
      var tenant := model.tenant;
      var updated := s.(models := s.models[m := model]);
      if enabled == Some(false) && tenant.Some? && tenant.value in s.tenants then
        Ok(updated.(tenants := s.tenants[tenant.value := ClearAll(s.tenants[tenant.value], m)]))
      else Ok(updated)
  }

  // ----- Connecting a subscription -----

  /** engine/app/services/enterprise_llm.py, lines 146-171: an API-key row of the subscription's vendor, or a row of
      that vendor paid for by the other subscription. */
  predicate Replaces(auth: Auth, model: Model) {
    match auth
    case GrokSubscription => model.family == Grok && model.auth != GrokSubscription
    case ChatGptSubscription => model.family == OpenAi && model.auth != ChatGptSubscription
    case ApiKey => false
  }

  /** The saved row: a new one, or the company's existing one with new tokens, enabled in either case. */
  function SavedSubscription(s: State, m: Id, t: Id, auth: Auth): Model {
    var family := if auth == GrokSubscription then Grok else if m in s.models then s.models[m].family else OpenAi;
    Model(Some(t), true, family, auth)
  }

  /** Whether the subscription takes the primary slot: it is empty, or holds a model that the subscription replaces. */
  predicate TakesPrimary(s: State, m: Id, t: Id)
    requires m in s.models && t in s.tenants
  {
    var current := s.tenants[t].primary;
    current.None? || (s.models[m].auth != ApiKey
                      && (current.value !in s.models || Replaces(s.models[m].auth, s.models[current.value])))
  }

  function TenantAfterActivate(s: State, m: Id, t: Id): Slots
    requires m in s.models && t in s.tenants
  {
    var slots := s.tenants[t];
    if TakesPrimary(s, m, t) then slots.(primary := Some(m))
    else if slots.fallback.None? && slots.primary != Some(m) then slots.(fallback := Some(m))
    else slots
  }

  /** The agent follows from an API-key row of the company that the subscription replaces. */
  predicate FollowsKey(s: State, m: Id, t: Id, agent: Agent)
    requires m in s.models
  {
    && agent.slots.primary.Some? && agent.slots.primary.value in s.models && agent.slots.primary != Some(m)
    && s.models[agent.slots.primary.value].tenant == Some(t)
    && Replaces(s.models[m].auth, s.models[agent.slots.primary.value])
  }

  /** What activation writes into the agent's primary slot, if anything. No other slot of it is looked at. */
  function NewPrimary(s: State, m: Id, t: Id, agent: Agent): Option<Id>
    requires m in s.models && t in s.tenants
  {
    if agent.tenant != Some(t) then None
    else if TakesPrimary(s, m, t) then
      if agent.slots.primary.None? || (s.tenants[t].primary.Some? && FollowsKey(s, m, t, agent)) then Some(m) else None
    else if agent.slots.primary.None? then s.tenants[t].primary
    else None
  }

  function WithPrimary(agent: Agent, primary: Option<Id>): Agent {
    if primary.None? then agent else agent.(slots := agent.slots.(primary := primary))
  }

  /** activate_pool_model_for_tenant (engine/app/services/enterprise_llm.py, lines 192-222). */
  function Activate(s: State, m: Id, t: Id): State
    requires m in s.models
  {
    if t !in s.tenants then s
    else s.(tenants := s.tenants[t := TenantAfterActivate(s, m, t)],
            agents := map a | a in s.agents :: WithPrimary(s.agents[a], NewPrimary(s, m, t, s.agents[a])))
  }

  function ConnectSubscription(s: State, m: Id, t: Id, auth: Auth): State {
    Activate(s.(models := s.models[m := SavedSubscription(s, m, t, auth)]), m, t)
  }

  datatype Op =
    | Add(m: Id, tenant: Id, enabled: bool, family: Family)
    | Set(which: Slot, m: Id, mayManage: bool)
    | Remove(m: Id, force: bool, mayManage: bool)
    | Update(m: Id, enable: Option<bool>, provider: Option<Family>, mayManage: bool)
    | Connect(m: Id, tenant: Id, auth: Auth)

  /** A new row gets a new id; and a company has one row for each kind of subscription, by two unique indexes
      (engine/scripts/schema_baseline.sql, lines 78-81). */
  predicate Enabled(s: State, op: Op) {
    match op
    case Add(m, _, _, _) => m !in s.models
    case Connect(m, t, auth) =>
      && auth != ApiKey
      && (m in s.models ==> s.models[m].tenant == Some(t) && s.models[m].auth == auth)
      && (m !in s.models ==> forall n | n in s.models :: !(s.models[n].tenant == Some(t) && s.models[n].auth == auth))
    case _ => true
  }

  /** A refused operation changes nothing. */
  function Apply(s: State, op: Op): State {
    match op
    case Add(m, t, enabled, family) => AddModel(s, m, t, enabled, family)
    case Set(which, m, mayManage) => Kept(s, SetSlot(s, which, m, mayManage))
    case Remove(m, force, mayManage) => Kept(s, RemoveModel(s, m, force, mayManage))
    case Update(m, enable, provider, mayManage) => Kept(s, UpdateModel(s, m, enable, provider, mayManage))
    case Connect(m, t, auth) => ConnectSubscription(s, m, t, auth)
  }

  function Kept(s: State, r: Result<State, Error>): State {
    match r
    case Ok(t) => t
    case Err(_) => s
  }

  // ----- The invariant -----

  predicate Usable(s: State, t: Id, slot: Option<Id>) {
    slot.Some? ==> slot.value in s.models && s.models[slot.value].tenant == Some(t) && s.models[slot.value].enabled
  }

  /** A company's slots are pairwise distinct, and each names an existing, enabled model of that company. */
  predicate TenantSound(s: State, t: Id)
    requires t in s.tenants
  {
    var slots := s.tenants[t];
    Distinct(slots) && Usable(s, t, slots.primary) && Usable(s, t, slots.secondary) && Usable(s, t, slots.fallback)
  }

  /** An agent's slots are pairwise distinct and name existing models. */
  ghost predicate AgentSound(s: State, a: Id)
    requires a in s.agents
  {
    Distinct(s.agents[a].slots) && forall m | Uses(s.agents[a].slots, m) :: m in s.models
  }

  ghost predicate Inv(s: State) {
    && (forall t | t in s.tenants :: TenantSound(s, t))
    && (forall a | a in s.agents :: AgentSound(s, a))
  }

  /** Every operation but the connection of a subscription keeps all slots sound. */
  lemma StepKeepsInv(s: State, op: Op)
    requires Inv(s) && Enabled(s, op) && !op.Connect?
    ensures Inv(Apply(s, op))
  {
    var t := Apply(s, op);
    StepKeepsRows(s, op);
    forall c | c in t.tenants ensures TenantSound(t, c) {
      assert TenantSound(s, c);
      StepKeepsTenant(s, op, c);
    }
    forall a | a in t.agents ensures AgentSound(t, a) {
      assert AgentSound(s, a);
      StepKeepsAgent(s, op, a);
    }
  }

  /** No operation adds or removes a company or an agent. */
  lemma StepKeepsRows(s: State, op: Op)
    requires Enabled(s, op)
    ensures Apply(s, op).tenants.Keys == s.tenants.Keys && Apply(s, op).agents.Keys == s.agents.Keys
  {
  }

  lemma AddKeepsTenant(s: State, m: Id, t: Id, enabled: bool, family: Family, c: Id)
    requires c in s.tenants && TenantSound(s, c) && m !in s.models
    ensures var r := AddModel(s, m, t, enabled, family); c in r.tenants && TenantSound(r, c)
  {
  }

  lemma SetKeepsTenant(s: State, which: Slot, m: Id, mayManage: bool, c: Id)
    requires c in s.tenants && TenantSound(s, c) && SetSlot(s, which, m, mayManage).Ok?
    ensures var r := SetSlot(s, which, m, mayManage).value; c in r.tenants && TenantSound(r, c)
  {
    ClearAllEffect(s.tenants[c], m);
  }

  lemma RemoveKeepsTenant(s: State, m: Id, c: Id)
    requires c in s.tenants && TenantSound(s, c)
    ensures c in Forget(s, m).tenants && TenantSound(Forget(s, m), c)
  {
  }

  lemma UpdateKeepsTenant(s: State, m: Id, enabled: Option<bool>, family: Option<Family>, mayManage: bool, c: Id)
    requires c in s.tenants && TenantSound(s, c) && UpdateModel(s, m, enabled, family, mayManage).Ok?
    ensures var r := UpdateModel(s, m, enabled, family, mayManage).value; c in r.tenants && TenantSound(r, c)
  {
  }

  lemma StepKeepsTenant(s: State, op: Op, c: Id)
    requires c in s.tenants && TenantSound(s, c) && Enabled(s, op) && !op.Connect?
    ensures c in Apply(s, op).tenants && TenantSound(Apply(s, op), c)
  {
    match op
    case Add(m, t, enabled, family) => AddKeepsTenant(s, m, t, enabled, family, c);
    case Set(which, m, mayManage) =>
      if SetSlot(s, which, m, mayManage).Ok? { SetKeepsTenant(s, which, m, mayManage, c); }
    case Remove(m, force, mayManage) =>
      if RemoveModel(s, m, force, mayManage).Ok? { RemoveKeepsTenant(s, m, c); }
    case Update(m, enable, provider, mayManage) =>
      if UpdateModel(s, m, enable, provider, mayManage).Ok? {
        UpdateKeepsTenant(s, m, enable, provider, mayManage, c);
      }
  }

  lemma AgentAfterSetDistinct(which: Slot, s: Slots, previous: Option<Id>, m: Id)
    requires Distinct(s)
    ensures Distinct(AgentAfterSet(which, s, previous, m))
    ensures forall n | Uses(AgentAfterSet(which, s, previous, m), n) :: Uses(s, n) || n == m
    ensures forall other | Held(other, AgentAfterSet(which, s, previous, m)) == Some(m) :: other == which
  {
  }

  lemma ClearAllEffect(s: Slots, m: Id)
    ensures Distinct(s) ==> Distinct(ClearAll(s, m))
    ensures forall n :: Uses(ClearAll(s, m), n) <==> Uses(s, n) && n != m
    ensures !Uses(s, m) ==> ClearAll(s, m) == s
  {
  }

  lemma StepKeepsAgent(s: State, op: Op, a: Id)
    requires a in s.agents && AgentSound(s, a) && Enabled(s, op) && !op.Connect?
    ensures a in Apply(s, op).agents && AgentSound(Apply(s, op), a)
  {
    var before := s.agents[a].slots;
    match op
    case Set(which, m, mayManage) =>
      if SetSlot(s, which, m, mayManage).Ok? {
        AgentAfterSetDistinct(which, before, Held(which, s.tenants[s.models[m].tenant.value]), m);
      }
    case Remove(m, _, _) => ClearAllEffect(before, m);
    case Add(m, _, _, _) => assert Apply(s, op).models.Keys == s.models.Keys + {m};
    case Update(_, _, _, _) => assert Apply(s, op).models.Keys == s.models.Keys;
  }

  // ----- When connecting a subscription keeps the slots sound -----

  /** Activation writes into a slot of the company a model that another slot of it holds. */
  predicate CompanyCollides(s: State, m: Id, t: Id)
    requires m in s.models && t in s.tenants
  {
    var slots := s.tenants[t];
    if TakesPrimary(s, m, t) then slots.secondary == Some(m) || slots.fallback == Some(m)
    else slots.fallback.None? && slots.primary != Some(m) && slots.secondary == Some(m)
  }

  /** Activation writes into an agent's primary slot a model that another slot of it holds. */
  predicate AgentCollides(s: State, m: Id, t: Id, a: Id)
    requires m in s.models && t in s.tenants && a in s.agents
  {
    var primary, slots := NewPrimary(s, m, t, s.agents[a]), s.agents[a].slots;
    primary.Some? && (slots.secondary == primary || slots.fallback == primary)
  }

  predicate ConnectCollides(s: State, m: Id, t: Id, auth: Auth) {
    var saved := s.(models := s.models[m := SavedSubscription(s, m, t, auth)]);
    t in s.tenants && (CompanyCollides(saved, m, t) || exists a | a in s.agents :: AgentCollides(saved, m, t, a))
  }

  lemma SavingKeepsInv(s: State, m: Id, t: Id, auth: Auth)
    requires Inv(s) && Enabled(s, Connect(m, t, auth))
    ensures Inv(s.(models := s.models[m := SavedSubscription(s, m, t, auth)]))
  {
    var saved := s.(models := s.models[m := SavedSubscription(s, m, t, auth)]);
    forall c | c in saved.tenants ensures TenantSound(saved, c) {
      assert TenantSound(s, c);
    }
    forall a | a in saved.agents ensures AgentSound(saved, a) {
      assert AgentSound(s, a);
    }
  }

  lemma ActivateTenant(s: State, m: Id, t: Id, c: Id)
    requires m in s.models && s.models[m].tenant == Some(t) && s.models[m].enabled
    requires t in s.tenants && c in s.tenants && TenantSound(s, c)
    ensures c in Activate(s, m, t).tenants
    ensures TenantSound(Activate(s, m, t), c) <==> !(c == t && CompanyCollides(s, m, t))
  {
  }

  lemma ActivateAgent(s: State, m: Id, t: Id, a: Id)
    requires m in s.models && t in s.tenants && TenantSound(s, t) && a in s.agents && AgentSound(s, a)
    ensures a in Activate(s, m, t).agents
    ensures AgentSound(Activate(s, m, t), a) <==> !AgentCollides(s, m, t, a)
  {
    var primary := NewPrimary(s, m, t, s.agents[a]);
    assert primary.Some? ==> primary.value in s.models;
    assert Activate(s, m, t).agents[a] == WithPrimary(s.agents[a], primary);
  }

  /** Connecting a subscription keeps all slots sound exactly when none of its writes meets the same model in another
      slot of the same company or agent. */
  lemma ConnectKeepsInvIff(s: State, m: Id, t: Id, auth: Auth)
    requires Inv(s) && Enabled(s, Connect(m, t, auth))
    ensures Inv(ConnectSubscription(s, m, t, auth)) <==> !ConnectCollides(s, m, t, auth)
  {
    SavingKeepsInv(s, m, t, auth);
    var saved := s.(models := s.models[m := SavedSubscription(s, m, t, auth)]);
    if t in s.tenants {
      var r := Activate(saved, m, t);
      assert TenantSound(saved, t);
      forall c | c in saved.tenants
        ensures c in r.tenants && (TenantSound(r, c) <==> !(c == t && CompanyCollides(saved, m, t)))
      {
        assert TenantSound(saved, c);
        ActivateTenant(saved, m, t, c);
      }
      forall a | a in saved.agents ensures a in r.agents && (AgentSound(r, a) <==> !AgentCollides(saved, m, t, a)) {
        assert AgentSound(saved, a);
        ActivateAgent(saved, m, t, a);
      }
      assert r.tenants.Keys == saved.tenants.Keys && r.agents.Keys == saved.agents.Keys;
    }
  }

  // ----- Runs -----

  predicate StepAt(states: seq<State>, ops: seq<Op>, i: int) {
    && 0 <= i < |ops| && i + 1 < |states|
    && Enabled(states[i], ops[i]) && states[i + 1] == Apply(states[i], ops[i])
  }

  /** No slot is filled yet. */
  ghost predicate Unfilled(s: State) {
    && (forall t | t in s.tenants :: s.tenants[t] == EMPTY)
    && (forall a | a in s.agents :: s.agents[a].slots == EMPTY)
  }

  ghost predicate Run(states: seq<State>, ops: seq<Op>) {
    |states| == |ops| + 1 && Unfilled(states[0]) && forall i | 0 <= i < |ops| :: StepAt(states, ops, i)
  }

  predicate Collides(s: State, op: Op) {
    op.Connect? && ConnectCollides(s, op.m, op.tenant, op.auth)
  }

  /** In every state reached by adding, setting, updating and removing models, and by connecting subscriptions that do
      not collide, each company's and each agent's slots are sound. */
  lemma {:induction false} ReachableSound(states: seq<State>, ops: seq<Op>, n: nat)
    requires Run(states, ops) && n < |states|
    requires forall i | 0 <= i < n :: !Collides(states[i], ops[i])
    ensures Inv(states[n])
  {
    if n > 0 {
      ReachableSound(states, ops, n - 1);
      var s, op := states[n - 1], ops[n - 1];
      assert StepAt(states, ops, n - 1);
      if op.Connect? {
        ConnectKeepsInvIff(s, op.m, op.tenant, op.auth);
      } else {
        StepKeepsInv(s, op);
      }
    }
  }

  /** Setting a slot touches one company and its agents only. */
  lemma SetTouchesOneCompany(s: State, which: Slot, m: Id, mayManage: bool)
    requires SetSlot(s, which, m, mayManage).Ok?
    ensures var r, t := SetSlot(s, which, m, mayManage).value, s.models[m].tenant.value;
            && r.models == s.models && r.tenants.Keys == s.tenants.Keys && r.agents.Keys == s.agents.Keys
            && (forall c | c in s.tenants && c != t :: r.tenants[c] == s.tenants[c])
            && (forall a | a in s.agents && s.agents[a].tenant != Some(t) :: r.agents[a] == s.agents[a])
            && Held(which, r.tenants[t]) == Some(m)
            && (forall a | a in s.agents && s.agents[a].tenant == Some(t) ::
                  forall other | Held(other, r.agents[a].slots) == Some(m) :: other == which)
  {
  }

  /** After a deletion nothing refers to the model any more. */
  lemma RemovedIsForgotten(s: State, m: Id, force: bool, mayManage: bool)
    requires Inv(s) && RemoveModel(s, m, force, mayManage).Ok?
    ensures var r := RemoveModel(s, m, force, mayManage).value;
            && m !in r.models
            && (forall t | t in r.tenants :: !Uses(r.tenants[t], m))
            && (forall a | a in r.agents :: !Uses(r.agents[a].slots, m))
            && (!force ==> r.agents == s.agents)
  {
  }

  // ----- Slots of a new personal assistant (engine/app/api/onboarding.py, lines 103-140) -----

  function UsableSlot(s: State, t: Id, slot: Option<Id>): Option<Id> {
    if slot.Some? && Usable(s, t, slot) then slot else None
  }

  /** `firstEnabled` is some enabled model of the company, when it has one. */
  method TenantModelIds(s: State, tenant: Option<Id>, firstEnabled: Option<Id>) returns (slots: Slots)
    ensures Distinct(slots)
    ensures tenant.None? ==> slots == EMPTY
    ensures tenant.Some? ==>
              && Usable(s, tenant.value, slots.primary)
              && Usable(s, tenant.value, slots.secondary)
              && Usable(s, tenant.value, slots.fallback)
    ensures (tenant.Some? && tenant.value in s.tenants && TenantSound(s, tenant.value)
             && s.tenants[tenant.value].primary.Some?) ==> slots == s.tenants[tenant.value]
    ensures (tenant.Some? && tenant.value in s.tenants && TenantSound(s, tenant.value)
             && s.tenants[tenant.value].primary.None?) ==>
              var own := s.tenants[tenant.value];
              && slots.primary == UsableSlot(s, tenant.value, firstEnabled)
              && (slots.secondary == own.secondary || own.secondary == slots.primary)
              && (slots.fallback == own.fallback || own.fallback == slots.primary)
    ensures forall slot: Slot, m | Held(slot, slots) == Some(m) ::
              m in s.models && s.models[m].enabled && tenant.Some? && s.models[m].tenant == tenant
    ensures tenant.Some? && tenant.value in s.tenants ==>
              forall slot: Slot, m | Held(slot, s.tenants[tenant.value]) == Some(m) ::
                m in s.models && s.models[m].enabled && s.models[m].tenant == tenant ==> Uses(slots, m)
  {
    if tenant.None? {
      return EMPTY;
    }
    var t := tenant.value;
    var own := if t in s.tenants then s.tenants[t] else EMPTY;
    var primary := if own.primary.Some? then own.primary else firstEnabled;
    var secondary, fallback := own.secondary, own.fallback;
    primary := UsableSlot(s, t, primary);
    secondary := UsableSlot(s, t, secondary);
    fallback := UsableSlot(s, t, fallback);
    if secondary == primary {
      secondary := None;
    }
    if fallback == primary || fallback == secondary {
      fallback := None;
    }
    slots := Slots(primary, secondary, fallback);
    assert Distinct(slots);   // assert_distinct_model_slots never refuses
  }

  // ----- A run in which connecting a subscription collides -----

  const COLLIDING_OPS :=
    [Add(1, 0, true, OtherFamily), Connect(2, 0, GrokSubscription), Update(1, Some(false), None, true),
     Connect(2, 0, GrokSubscription)]

  /** A company's subscription becomes its fallback; its default is disabled, and the subscription is connected again:
      one model is now primary and fallback. */
  lemma ReconnectCanOverlap() returns (states: seq<State>)
    ensures Run(states, COLLIDING_OPS) && Inv(states[3])
    ensures 0 in states[4].tenants && states[4].tenants[0] == Slots(Some(2), None, Some(2))
  {
    var key := Model(Some(0), true, OtherFamily, ApiKey);
    var grok := Model(Some(0), true, Grok, GrokSubscription);
    var s0 := State(map[], map[0 := EMPTY], map[]);
    var s1 := State(map[1 := key], map[0 := Slots(Some(1), None, None)], map[]);
    var s2 := State(map[1 := key, 2 := grok], map[0 := Slots(Some(1), None, Some(2))], map[]);
    var s3 := State(map[1 := key.(enabled := false), 2 := grok], map[0 := Slots(None, None, Some(2))], map[]);
    var s4 := State(s3.models, map[0 := Slots(Some(2), None, Some(2))], map[]);
    states := [s0, s1, s2, s3, s4];
    assert StepAt(states, COLLIDING_OPS, 0);
    assert StepAt(states, COLLIDING_OPS, 1);
    assert StepAt(states, COLLIDING_OPS, 2);
    assert StepAt(states, COLLIDING_OPS, 3);
  }

  const AGENT_OPS :=
    [Connect(2, 0, GrokSubscription), Add(1, 0, true, OtherFamily), Set(Primary, 1, true), Set(Secondary, 2, true),
     Remove(1, true, true), Connect(2, 0, GrokSubscription)]

  const KEY_MODEL := Model(Some(0), true, OtherFamily, ApiKey)
  const GROK_MODEL := Model(Some(0), true, Grok, GrokSubscription)

  /** The slots of company 0 and of its agent 7. */
  predicate Holding(s: State, company: Slots, agent: Slots) {
    && 0 in s.tenants && s.tenants[0] == company
    && 7 in s.agents && s.agents[7] == Agent(Some(0), true, agent)
  }

  lemma HoldingConnect(s: State, company: Slots, agent: Slots, m: Id)
    requires Holding(s, company, agent) && company.primary.None? && agent.primary.None?
    ensures var t := Apply(s, Connect(m, 0, GrokSubscription));
            && Holding(t, company.(primary := Some(m)), agent.(primary := Some(m)))
            && t.models == s.models[m := GROK_MODEL]
  {
  }

  lemma HoldingSet(s: State, company: Slots, agent: Slots, which: Slot, m: Id)
    requires Holding(s, company, agent) && !TakenElsewhere(which, company, m)
    requires m in s.models && s.models[m].tenant == Some(0) && s.models[m].enabled
    ensures var t := Apply(s, Set(which, m, true));
            && Holding(t, TenantAfterSet(which, company, m), AgentAfterSet(which, agent, Held(which, company), m))
            && t.models == s.models
  {
  }

  lemma HoldingRemove(s: State, company: Slots, agent: Slots, m: Id)
    requires Holding(s, company, agent) && m in s.models && Uses(agent, m)
    ensures var t := Apply(s, Remove(m, true, true));
            Holding(t, ClearAll(company, m), ClearAll(agent, m)) && t.models == s.models - {m}
  {
    assert s.agents[7].named && Uses(s.agents[7].slots, m);
    assert NamedReference(s, m);
  }

  /** One more operation of a run, for runs written out step by step. */
  lemma Extend(states: seq<State>, ops: seq<Op>, op: Op) returns (longer: seq<State>)
    requires Run(states, ops) && Enabled(states[|ops|], op)
    ensures longer == states + [Apply(states[|ops|], op)] && Run(longer, ops + [op])
  {
    longer := states + [Apply(states[|ops|], op)];
    forall i | 0 <= i <= |ops| ensures StepAt(longer, ops + [op], i) {
      assert i < |ops| ==> StepAt(states, ops, i);
    }
  }

  lemma FirstConnected() returns (states: seq<State>)
    ensures Run(states, AGENT_OPS[..3]) && states[3].models == map[2 := GROK_MODEL, 1 := KEY_MODEL]
    ensures Holding(states[3], Slots(Some(1), None, None), Slots(Some(1), None, None))
  {
    var s0 := State(map[], map[0 := EMPTY], map[7 := Agent(Some(0), true, EMPTY)]);
    states := [s0];
    assert Run(states, AGENT_OPS[..0]);
    HoldingConnect(s0, EMPTY, EMPTY, 2);
    states := Extend(states, AGENT_OPS[..0], AGENT_OPS[0]);
    states := Extend(states, AGENT_OPS[..1], AGENT_OPS[1]);
    assert AGENT_OPS[..1] + [AGENT_OPS[1]] == AGENT_OPS[..2];
    assert Holding(states[2], Slots(Some(2), None, Some(1)), Slots(Some(2), None, None));
    HoldingSet(states[2], Slots(Some(2), None, Some(1)), Slots(Some(2), None, None), Primary, 1);
    states := Extend(states, AGENT_OPS[..2], AGENT_OPS[2]);
    assert AGENT_OPS[..2] + [AGENT_OPS[2]] == AGENT_OPS[..3];
  }

  /** The same for an agent: it follows the company's changes until the removal of its primary model leaves it only the
      subscription as secondary, which the next connection makes its primary as well. */
  lemma ReconnectCanOverlapAgent() returns (states: seq<State>)
    ensures Run(states, AGENT_OPS)
    ensures 7 in states[6].agents && states[6].agents[7].slots == Slots(Some(2), Some(2), None)
  {
    var one, both := Slots(Some(1), None, None), Slots(Some(1), Some(2), None);
    states := FirstConnected();
    HoldingSet(states[3], one, one, Secondary, 2);
    states := Extend(states, AGENT_OPS[..3], AGENT_OPS[3]);
    assert AGENT_OPS[..3] + [AGENT_OPS[3]] == AGENT_OPS[..4];
    HoldingRemove(states[4], both, both, 1);
    states := Extend(states, AGENT_OPS[..4], AGENT_OPS[4]);
    assert AGENT_OPS[..4] + [AGENT_OPS[4]] == AGENT_OPS[..5];
    HoldingConnect(states[5], Slots(None, Some(2), None), Slots(None, Some(2), None), 2);
    states := Extend(states, AGENT_OPS[..5], AGENT_OPS[5]);
    assert AGENT_OPS[..5] + [AGENT_OPS[5]] == AGENT_OPS;
  }
}
