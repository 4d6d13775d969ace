/** The two-step OAuth sign-in (engine/app/api/auth.py, lines 932-960, 1024-1063 and 1108-1153): the first step stores
    what it learnt under a token if the token is unused (SET NX with a time to live), the second reads and deletes it
    in one step (GETDEL). Requests run in any interleaving; a stored entry may expire at any moment. */
module OAuthPending {
  import opened Results

  type Token = string
  type Tenant = string

  datatype User = User(tenant: Option<Tenant>, active: bool)

  datatype Pending = Pending(provider: string, audience: string, info: string, allowed: seq<Tenant>)

  /** The second step's request. */
  datatype Request = Request(provider: string, audience: string, token: Token, tenant: Tenant)

  datatype Outcome =
    | SessionExpired                                  // 400
    | UnknownProvider                                 // 404
    | TenantRefused                                   // 403
    | LookedUp(info: string, tenant: Tenant)          // find_or_create_user is called with these

  /** Every successful SET NX is one issue, numbered in order; `issue` says which one an entry is. */
  datatype Entry = Entry(issue: nat, pending: Pending)

  datatype Issued = Issued(token: Token, pending: Pending, users: seq<User>)

  datatype Redemption = Redemption(request: Request, issue: nat, outcome: Outcome)

  datatype State = State(
    cache: map<Token, Entry>,
    issues: seq<Issued>,
    redemptions: seq<Redemption>,
    expired: set<nat>)

  datatype Event =
    | SignIn(token: Token, provider: string, audience: string, info: string, users: seq<User>)
    | Redeem(request: Request, providerKnown: bool)
    | Expire(token: Token)

  const EMPTY := State(map[], [], [], {})

  /** The active accounts of the identity that belong to a tenant; a choice is offered from two on. */
  function TenantUsers(users: seq<User>): seq<User> {
    if users == [] then []
    else (if users[0].tenant.Some? && users[0].active then [users[0]] else []) + TenantUsers(users[1..])
  }

  function TenantIds(users: seq<User>): seq<Tenant> {
    if users == [] then []
    else (if users[0].tenant.Some? then [users[0].tenant.value] else []) + TenantIds(users[1..])
  }

  function MakePending(provider: string, audience: string, info: string, users: seq<User>): Pending {
    Pending(provider, audience, info, TenantIds(TenantUsers(users)))
  }

  /** What the second step does with the entry it took; an empty list of tenants would let any tenant pass. */
  function Judge(request: Request, found: Option<Pending>, providerKnown: bool): Outcome {
    match found
    case None => SessionExpired
    case Some(p) =>
      if p.provider != request.provider || p.audience != request.audience then SessionExpired
      else if !providerKnown then UnknownProvider
      else if p.allowed != [] && request.tenant !in p.allowed then TenantRefused
      else LookedUp(p.info, request.tenant)
  }

  predicate Enabled(s: State, e: Event) {
    match e
    case SignIn(_, _, _, _, users) => |TenantUsers(users)| > 1
    case Redeem(request, _) => request.token != "" && request.tenant != ""
    case Expire(token) => token in s.cache
  }

  function Step(s: State, e: Event): State
    requires Enabled(s, e)
  {
    match e
    case SignIn(token, provider, audience, info, users) =>
      if token in s.cache then s    // not stored: the caller gets 503
      else
        var pending := MakePending(provider, audience, info, users);
        s.(cache := s.cache[token := Entry(|s.issues|, pending)],
           issues := s.issues + [Issued(token, pending, users)])
    case Redeem(request, known) =>
      if request.token !in s.cache then s
      else
        var entry := s.cache[request.token];
        s.(cache := s.cache - {request.token},
           redemptions := s.redemptions
             + [Redemption(request, entry.issue, Judge(request, Some(entry.pending), known))])
    case Expire(token) =>
      s.(cache := s.cache - {token}, expired := s.expired + {s.cache[token].issue})
  }

  // ----- What every run keeps -----

  predicate Cached(s: State, token: Token, issue: int) {
    token in s.cache && s.cache[token].issue == issue
  }

  predicate Redeemed(s: State, i: int, issue: int) {
    0 <= i < |s.redemptions| && s.redemptions[i].issue == issue
  }

  predicate EntriesGenuine(s: State) {
    forall token | token in s.cache ::
      && s.cache[token].issue < |s.issues|
      && s.issues[s.cache[token].issue].token == token
      && s.issues[s.cache[token].issue].pending == s.cache[token].pending
  }

  predicate IssuesGenuine(s: State) {
    forall k | 0 <= k < |s.issues| ::
      && |TenantUsers(s.issues[k].users)| > 1
      && s.issues[k].pending.allowed == TenantIds(TenantUsers(s.issues[k].users))
  }

  predicate GenuineRedemption(s: State, r: Redemption) {
    && r.issue < |s.issues|
    && var issued := s.issues[r.issue];
    && r.request.token == issued.token
    && (r.outcome == Judge(r.request, Some(issued.pending), true)
        || r.outcome == Judge(r.request, Some(issued.pending), false))
  }

  predicate RedemptionsGenuine(s: State) {
    forall i | 0 <= i < |s.redemptions| :: GenuineRedemption(s, s.redemptions[i])
  }

  /** An issue has one fate: it is in the cache, or was redeemed once, or has expired. */
  ghost predicate OneFate(s: State) {
    && (forall i, j, issue: int | Redeemed(s, i, issue) && Redeemed(s, j, issue) :: i == j)
    && (forall i, token, issue: int | Redeemed(s, i, issue) :: !Cached(s, token, issue))
    && (forall i, issue: int | Redeemed(s, i, issue) :: issue !in s.expired)
    && (forall token, issue: int | Cached(s, token, issue) :: issue !in s.expired)
    && (forall issue | issue in s.expired :: issue < |s.issues|)
  }

  ghost predicate NoneLost(s: State) {
    forall issue: int | 0 <= issue < |s.issues| ::
      issue in s.expired || (exists token :: Cached(s, token, issue)) || exists i :: Redeemed(s, i, issue)
  }

  ghost predicate Inv(s: State) {
    EntriesGenuine(s) && IssuesGenuine(s) && RedemptionsGenuine(s) && OneFate(s) && NoneLost(s)
  }

  lemma StepKeepsGenuine(s: State, e: Event)
    requires Inv(s) && Enabled(s, e)
    ensures var t := Step(s, e); EntriesGenuine(t) && IssuesGenuine(t) && RedemptionsGenuine(t)
  {
    var t := Step(s, e);
    assert forall k | 0 <= k < |s.issues| :: t.issues[k] == s.issues[k];
    forall i | 0 <= i < |s.redemptions|
      ensures t.redemptions[i] == s.redemptions[i] && GenuineRedemption(t, s.redemptions[i])
    {
      assert GenuineRedemption(s, s.redemptions[i]);
    }
  }

  lemma StepKeepsOneFate(s: State, e: Event)
    requires Inv(s) && Enabled(s, e)
    ensures OneFate(Step(s, e))
  {
    var t := Step(s, e);
    forall i, issue: int | Redeemed(t, i, issue)
      ensures Redeemed(s, i, issue) || (i == |s.redemptions| && e.Redeem? && Cached(s, e.request.token, issue))
    {
      if i < |s.redemptions| { assert t.redemptions[i] == s.redemptions[i]; }
    }
    forall token, issue: int | Cached(t, token, issue)
      ensures Cached(s, token, issue) || (e.SignIn? && issue == |s.issues|)
    {
    }
    assert e.Expire? ==> Cached(s, e.token, s.cache[e.token].issue);
    forall i | 0 <= i < |s.redemptions| ensures s.redemptions[i].issue < |s.issues| {
      assert GenuineRedemption(s, s.redemptions[i]);
    }
  }

  lemma StepKeepsNoneLost(s: State, e: Event)
    requires Inv(s) && Enabled(s, e)
    ensures NoneLost(Step(s, e))
  {
    var t := Step(s, e);
    forall issue: int | 0 <= issue < |t.issues|
      ensures issue in t.expired || (exists token :: Cached(t, token, issue)) || exists i :: Redeemed(t, i, issue)
    {
      if issue == |s.issues| {
        assert Cached(t, e.token, issue);
      } else if token :| Cached(s, token, issue) {
        if e.Redeem? && e.request.token == token {
          assert Redeemed(t, |s.redemptions|, issue);
        } else if !(e.Expire? && e.token == token) {
          assert Cached(t, token, issue);
        }
      } else if i :| Redeemed(s, i, issue) {
        assert t.redemptions[i] == s.redemptions[i];
        assert Redeemed(t, i, issue);
      }
    }
  }

  ghost predicate Run(states: seq<State>, events: seq<Event>) {
    && |states| == |events| + 1 && states[0] == EMPTY
    && forall i | 0 <= i < |events| :: Enabled(states[i], events[i]) && states[i + 1] == Step(states[i], events[i])
  }

  lemma {:induction false} RunKeepsInv(states: seq<State>, events: seq<Event>, n: nat)
    requires Run(states, events) && n < |states|
    ensures Inv(states[n])
  {
    if n > 0 {
      RunKeepsInv(states, events, n - 1);
      StepKeepsGenuine(states[n - 1], events[n - 1]);
      StepKeepsOneFate(states[n - 1], events[n - 1]);
      StepKeepsNoneLost(states[n - 1], events[n - 1]);
    }
  }

  // ----- The promises -----

  /** What a sign-in stored is redeemed at most once, even under a token that is used again later. */
  lemma RedeemedAtMostOnce(states: seq<State>, events: seq<Event>, n: nat, i: nat, j: nat)
    requires Run(states, events) && n < |states|
    requires i < |states[n].redemptions| && j < |states[n].redemptions|
    requires states[n].redemptions[i].issue == states[n].redemptions[j].issue
    ensures i == j
  {
    RunKeepsInv(states, events, n);
    assert Redeemed(states[n], i, states[n].redemptions[i].issue);
    assert Redeemed(states[n], j, states[n].redemptions[j].issue);
  }

  /** With tokens that never repeat, a token is redeemed at most once. */
  lemma TokenRedeemedAtMostOnce(states: seq<State>, events: seq<Event>, n: nat, i: nat, j: nat)
    requires Run(states, events) && n < |states|
    requires forall k, m | 0 <= k < m < |states[n].issues| :: states[n].issues[k].token != states[n].issues[m].token
    requires i < |states[n].redemptions| && j < |states[n].redemptions|
    requires states[n].redemptions[i].request.token == states[n].redemptions[j].request.token
    ensures i == j
  {
    RunKeepsInv(states, events, n);
    var s := states[n];
    assert GenuineRedemption(s, s.redemptions[i]) && GenuineRedemption(s, s.redemptions[j]);
    RedeemedAtMostOnce(states, events, n, i, j);
  }

  lemma {:induction false} TenantIdsOf(users: seq<User>, tenant: Tenant)
    requires tenant in TenantIds(TenantUsers(users))
    ensures exists u :: u in users && u.active && u.tenant == Some(tenant)
  {
    if users != [] {
      var rest := users[1..];
      if users[0].tenant.Some? && users[0].active {
        assert TenantUsers(users)[1..] == TenantUsers(rest);
        if users[0].tenant.value != tenant {
          TenantIdsOf(rest, tenant);
        }
      } else {
        assert TenantUsers(users) == TenantUsers(rest);
        TenantIdsOf(rest, tenant);
      }
    }
  }

  lemma {:induction false} TenantUsersListed(users: seq<User>)
    ensures |TenantIds(TenantUsers(users))| == |TenantUsers(users)|
  {
    if users != [] {
      TenantUsersListed(users[1..]);
      if users[0].tenant.Some? && users[0].active {
        assert TenantUsers(users)[1..] == TenantUsers(users[1..]);
      } else {
        assert TenantUsers(users) == TenantUsers(users[1..]);
      }
    }
  }

  /** A redemption that reaches the user lookup does so for the provider and the audience of the sign-in that stored it,
      with its user information, and for a tenant in which that sign-in found an active account. */
  lemma LookupIsGenuine(states: seq<State>, events: seq<Event>, n: nat, i: nat)
    requires Run(states, events) && n < |states| && i < |states[n].redemptions|
    requires states[n].redemptions[i].outcome.LookedUp?
    ensures var r := states[n].redemptions[i];
            && r.issue < |states[n].issues|
            && var issued := states[n].issues[r.issue];
            && r.request.token == issued.token
            && r.request.provider == issued.pending.provider && r.request.audience == issued.pending.audience
            && r.outcome.info == issued.pending.info
            && r.outcome.tenant == r.request.tenant && r.outcome.tenant in issued.pending.allowed
            && exists u :: u in issued.users && u.active && u.tenant == Some(r.outcome.tenant)
  {
    RunKeepsInv(states, events, n);
    var s := states[n];
    var r := s.redemptions[i];
    assert GenuineRedemption(s, r);
    TenantUsersListed(s.issues[r.issue].users);
    TenantIdsOf(s.issues[r.issue].users, r.request.tenant);
  }

  /** Any redemption, refused or not, uses the entry up: the token is worth nothing until it is stored again. */
  lemma RefusalBurnsToken(s: State, request: Request, known: bool, retry: Request)
    requires Inv(s) && Enabled(s, Redeem(request, known)) && Enabled(s, Redeem(retry, true))
    requires retry.token == request.token
    ensures var t := Step(s, Redeem(request, known)); Step(t, Redeem(retry, true)) == t
  {
  }

  // ----- When a redemption succeeds -----

  /** The sign-in whose entry is in the cache under this token: its store found the token unused, and no redemption or
      expiry has come since. */
  function StoredBy(events: seq<Event>, token: Token): Option<nat> {
    if events == [] then None
    else
      var last, before := |events| - 1, StoredBy(events[..|events| - 1], token);
      match events[last]
      case SignIn(t, _, _, _, _) => if t == token && before.None? then Some(last) else before
      case Redeem(request, _) => if request.token == token then None else before
      case Expire(t) => if t == token then None else before
  }

  /** The accounts of the sign-in at position `m` include an active one of this tenant. */
  predicate HasAccount(users: seq<User>, tenant: Tenant) {
    exists u :: u in users && u.active && u.tenant == Some(tenant)
  }

  lemma {:induction false} TenantIdsHold(users: seq<User>, u: User)
    requires u in users && u.active && u.tenant.Some?
    ensures u.tenant.value in TenantIds(TenantUsers(users))
  {
    if u != users[0] {
      TenantIdsHold(users[1..], u);
      var rest := TenantUsers(users[1..]);
      assert TenantUsers(users) == [users[0]] + rest || TenantUsers(users) == rest;
    }
  }

  lemma AllowedIff(users: seq<User>, tenant: Tenant)
    ensures tenant in TenantIds(TenantUsers(users)) <==> HasAccount(users, tenant)
    ensures |TenantIds(TenantUsers(users))| == |TenantUsers(users)|
  {
    if tenant in TenantIds(TenantUsers(users)) { TenantIdsOf(users, tenant); }
    if u :| u in users && u.active && u.tenant == Some(tenant) { TenantIdsHold(users, u); }
    TenantUsersListed(users);
  }

  /** The entry that the sign-in at position `m` has stored is in the cache. */
  predicate EntryOf(s: State, token: Token, e: Event) {
    && e.SignIn? && token in s.cache && |TenantUsers(e.users)| > 1
    && s.cache[token].pending == Pending(e.provider, e.audience, e.info, TenantIds(TenantUsers(e.users)))
  }

  lemma {:induction false} CacheIsStored(states: seq<State>, events: seq<Event>, n: nat, token: Token)
    requires Run(states, events) && n < |states|
    ensures token in states[n].cache <==> StoredBy(events[..n], token).Some?
    ensures match StoredBy(events[..n], token)
            case None => true
            case Some(m) => m < n && EntryOf(states[n], token, events[m])
  {
    if n > 0 {
      CacheIsStored(states, events, n - 1, token);
      assert events[..n][..n - 1] == events[..n - 1];
      assert Enabled(states[n - 1], events[n - 1]) && states[n] == Step(states[n - 1], events[n - 1]);
    }
  }

  /** What the second step answers when its redemption is event `n` of a run. */
  function Answer(states: seq<State>, events: seq<Event>, n: nat): Outcome
    requires n < |events| && n < |states| && events[n].Redeem?
  {
    var token := events[n].request.token;
    Judge(events[n].request, if token in states[n].cache then Some(states[n].cache[token].pending) else None,
          events[n].providerKnown)
  }

  /** The redemption is for the provider and the audience of the sign-in that stored the token. */
  predicate ForSignIn(request: Request, signIn: Event) {
    signIn.SignIn? && signIn.provider == request.provider && signIn.audience == request.audience
  }

  /** Each answer of the second step, by the events before it: the session has expired unless the token is stored for
      this provider and audience; then the provider must be known, and the sign-in must have found an active account
      in the chosen tenant; and with all that the user is looked up with the sign-in's information. */
  lemma AnswerIff(states: seq<State>, events: seq<Event>, n: nat)
    requires Run(states, events) && n < |events| && events[n].Redeem?
    ensures var request, stored := events[n].request, StoredBy(events[..n], events[n].request.token);
            && (stored.Some? ==> stored.value < n)
            && Answer(states, events, n) ==
               if stored.None? || !ForSignIn(request, events[stored.value]) then SessionExpired
               else if !events[n].providerKnown then UnknownProvider
               else if !HasAccount(events[stored.value].users, request.tenant) then TenantRefused
               else LookedUp(events[stored.value].info, request.tenant)
    ensures if StoredBy(events[..n], events[n].request.token).None? then states[n + 1] == states[n]
            else
              && |states[n + 1].redemptions| == |states[n].redemptions| + 1
              && states[n + 1].redemptions[|states[n].redemptions|].outcome == Answer(states, events, n)
  {
    var request := events[n].request;
    CacheIsStored(states, events, n, request.token);
    var stored := StoredBy(events[..n], request.token);
    if stored.Some? { AllowedIff(events[stored.value].users, request.tenant); }
  }

  // ----- The functions on the shared cache -----

  class Redis {
    var cache: map<Token, Entry>
    ghost var issues: seq<Issued>
    ghost var redemptions: seq<Redemption>
    ghost var expired: set<nat>
    var issueCount: nat

    ghost function View(): State
      reads this
    {
      State(cache, issues, redemptions, expired)
    }

    ghost predicate Valid()
      reads this
    {
      issueCount == |issues|
    }

    constructor ()
      ensures Valid() && View() == EMPTY
    {
      cache, issues, redemptions, expired, issueCount := map[], [], [], {}, 0;
    }

    method SetIfAbsent(token: Token, pending: Pending) returns (stored: bool)
      requires Valid()
      modifies this`cache, this`issueCount
      ensures stored <==> token !in old(cache)
      ensures cache == if stored then old(cache)[token := Entry(|issues|, pending)] else old(cache)
      ensures issueCount == old(issueCount) + if stored then 1 else 0
    {
      if token in cache {
        return false;
      }
      cache := cache[token := Entry(issueCount, pending)];
      issueCount := issueCount + 1;
      return true;
    }

    method GetDel(token: Token) returns (found: Option<Entry>)
      modifies this`cache
      ensures found == if token in old(cache) then Some(old(cache)[token]) else None
      ensures cache == old(cache) - {token}
    {
      found := None;
      if token in cache {
        found := Some(cache[token]);
        cache := cache - {token};
      }
    }

    /** The end of the first step; `unavailable` is the 503 of a token already in use. */
    method SignIn(token: Token, provider: string, audience: string, info: string, users: seq<User>)
      returns (unavailable: bool)
      requires Valid() && |TenantUsers(users)| > 1
      modifies this
      ensures Valid() && View() == Step(old(View()), Event.SignIn(token, provider, audience, info, users))
      ensures unavailable <==> token in old(cache)
    {
      var tenantUsers := TenantUsers(users);
      var pending := Pending(provider, audience, info, TenantIds(tenantUsers));
      var stored := SetIfAbsent(token, pending);
      if stored {
        issues := issues + [Issued(token, pending, users)];
      }
      return !stored;
    }

    /** The second step up to the user lookup. */
    method Redeem(request: Request, providerKnown: bool) returns (outcome: Outcome)
      requires Valid() && request.token != "" && request.tenant != ""
      modifies this
      ensures Valid() && View() == Step(old(View()), Event.Redeem(request, providerKnown))
      ensures outcome == Judge(request,
        if request.token in old(cache) then Some(old(cache)[request.token].pending) else None, providerKnown)
    {
      var found := GetDel(request.token);
      if found.None? {
        return SessionExpired;
      }
      var pending := found.value.pending;
      if pending.provider != request.provider || pending.audience != request.audience {
        outcome := SessionExpired;
      } else if !providerKnown {
        outcome := UnknownProvider;
      } else if pending.allowed != [] && request.tenant !in pending.allowed {
        outcome := TenantRefused;
      } else {
        outcome := LookedUp(pending.info, request.tenant);
      }
      redemptions := redemptions + [Redemption(request, found.value.issue, outcome)];
    }
  }
}
