/** Idempotent broadcasts (engine/app/api/notification.py, lines 309-452, and
    engine/app/dao/broadcast_submission_dao.py): requests that race on one key, as interleaved steps.

    A request's database writes stay invisible until it commits, so they are kept with the request until then.
    The unique index on (tenant, sender, key) makes a claim wait while another transaction holds the key.
    The fingerprint is modelled as the payload it hashes. */
module Broadcast {
  import opened Results

  type Id = nat

  datatype Payload = Payload(title: string, body: string, sendEmail: bool)

  datatype Key = Key(tenant: Id, sender: Id, text: string)

  datatype Request = Request(key: Option<Key>, payload: Payload, broadcastId: Id)

  datatype User = User(id: Id, email: string)   // "" when the user has no address

  datatype Delivery = ToUser(user: Id) | ToAgent(agent: Id) | Email(user: Id, address: string)

  /** A row of `broadcast_submissions`, which is also what a successful answer reports. */
  datatype Receipt = Receipt(fingerprint: Payload, broadcastId: Id, users: nat, agents: nat, emails: nat)

  /** A fan-out: the history row and everything sent with it. */
  datatype Publication = Publication(key: Option<Key>, receipt: Receipt, deliveries: seq<Delivery>)

  datatype Answer =
    | Sent(receipt: Receipt)
    | Conflict            // 409
    | SmtpUnconfigured    // 400
    | Failed              // any exception

  // ----- One fan-out -----

  function Emails(users: seq<User>): seq<Delivery> {
    if users == [] then []
    else
      var last := users[|users| - 1];
      Emails(users[..|users| - 1]) + if last.email != "" then [Email(last.id, last.email)] else []
  }

  function UserNotices(users: seq<User>): seq<Delivery> {
    seq(|users|, i requires 0 <= i < |users| => ToUser(users[i].id))
  }

  function AgentNotices(agents: seq<Id>): seq<Delivery> {
    seq(|agents|, i requires 0 <= i < |agents| => ToAgent(agents[i]))
  }

  function FanOut(req: Request, users: seq<User>, agents: seq<Id>): Publication {
    var emails := if req.payload.sendEmail then Emails(users) else [];
    Publication(req.key, Receipt(req.payload, req.broadcastId, |users|, |agents|, |emails|),
                UserNotices(users) + AgentNotices(agents) + emails)
  }

  // ----- To whom a fan-out goes -----

  function UserIds(users: seq<User>): seq<Id> {
    seq(|users|, i requires 0 <= i < |users| => users[i].id)
  }

  /** How often a delivery is due: one notice for each user and agent, and, if the payload asks for e-mail, one e-mail
      for each user with an address. */
  ghost function Due(req: Request, users: seq<User>, agents: seq<Id>, d: Delivery): nat {
    match d
    case ToUser(u) => multiset(UserIds(users))[u]
    case ToAgent(a) => multiset(agents)[a]
    case Email(u, to) => if req.payload.sendEmail && to != "" then multiset(users)[User(u, to)] else 0
  }

  /** Everything that is due and nothing else, under the request's key, payload and id. */
  ghost predicate Addressed(req: Request, users: seq<User>, agents: seq<Id>, p: Publication) {
    && p.key == req.key && p.receipt.fingerprint == req.payload && p.receipt.broadcastId == req.broadcastId
    && forall d :: multiset(p.deliveries)[d] == Due(req, users, agents, d)
  }

  lemma {:induction false} UsersNotified(users: seq<User>, d: Delivery)
    ensures multiset(UserNotices(users))[d] == if d.ToUser? then multiset(UserIds(users))[d.user] else 0
  {
    if users != [] {
      var init, last := users[..|users| - 1], users[|users| - 1];
      UsersNotified(init, d);
      assert UserNotices(users) == UserNotices(init) + [ToUser(last.id)];
      assert UserIds(users) == UserIds(init) + [last.id];
    }
  }

  lemma {:induction false} AgentsNotified(agents: seq<Id>, d: Delivery)
    ensures multiset(AgentNotices(agents))[d] == if d.ToAgent? then multiset(agents)[d.agent] else 0
  {
    if agents != [] {
      var init, last := agents[..|agents| - 1], agents[|agents| - 1];
      AgentsNotified(init, d);
      assert AgentNotices(agents) == AgentNotices(init) + [ToAgent(last)];
      assert agents == init + [last];
    }
  }

  lemma {:induction false} UsersMailed(users: seq<User>, d: Delivery)
    ensures multiset(Emails(users))[d] ==
            if d.Email? && d.address != "" then multiset(users)[User(d.user, d.address)] else 0
  {
    if users != [] {
      var init, last := users[..|users| - 1], users[|users| - 1];
      UsersMailed(init, d);
      assert users == init + [last];
    }
  }

  lemma FanOutAddressed(req: Request, users: seq<User>, agents: seq<Id>)
    ensures Addressed(req, users, agents, FanOut(req, users, agents))
  {
    var p := FanOut(req, users, agents);
    forall d ensures multiset(p.deliveries)[d] == Due(req, users, agents, d) {
      UsersNotified(users, d);
      AgentsNotified(agents, d);
      UsersMailed(users, d);
    }
  }

  /** The loops of the fan-out, counting as they send. */
  method SendAll(req: Request, users: seq<User>, agents: seq<Id>) returns (p: Publication)
    ensures p == FanOut(req, users, agents)
    ensures Addressed(req, users, agents, p) && Counted(p)
  {
    var deliveries: seq<Delivery> := [];
    var countUsers, countAgents, countEmails := 0, 0, 0;
    for i := 0 to |users|
      invariant deliveries == UserNotices(users)[..i] && countUsers == i
    {
      deliveries := deliveries + [ToUser(users[i].id)];
      countUsers := countUsers + 1;
    }
    for i := 0 to |agents|
      invariant deliveries == UserNotices(users) + AgentNotices(agents)[..i] && countAgents == i
    {
      deliveries := deliveries + [ToAgent(agents[i])];
      countAgents := countAgents + 1;
    }
    if req.payload.sendEmail {
      var queued: seq<Delivery> := [];
      for i := 0 to |users|
        invariant queued == Emails(users[..i])
      {
        assert users[..i + 1][..i] == users[..i];
        if users[i].email != "" {
          queued := queued + [Email(users[i].id, users[i].email)];
        }
      }
      assert users[..|users|] == users;
      countEmails := |queued|;
      deliveries := deliveries + queued;
    }
    p := Publication(req.key, Receipt(req.payload, req.broadcastId, countUsers, countAgents, countEmails), deliveries);
    assert p.deliveries == FanOut(req, users, agents).deliveries;
    FanOutAddressed(req, users, agents);
    FanOutCounted(req, users, agents);
  }

  function Count(deliveries: seq<Delivery>, kind: Delivery -> bool): nat {
    if deliveries == [] then 0
    else Count(deliveries[..|deliveries| - 1], kind) + if kind(deliveries[|deliveries| - 1]) then 1 else 0
  }

  lemma {:induction false} CountAppend(a: seq<Delivery>, b: seq<Delivery>, kind: Delivery -> bool)
    ensures Count(a + b, kind) == Count(a, kind) + Count(b, kind)
    decreases |b|
  {
    if b == [] {
      assert a + b == a;
    } else {
      var init := b[..|b| - 1];
      CountAppend(a, init, kind);
      assert (a + b)[..|a + b| - 1] == a + init;
    }
  }

  lemma {:induction false} CountUniform(q: seq<Delivery>, kind: Delivery -> bool, yes: bool)
    requires forall d | d in q :: kind(d) == yes
    ensures Count(q, kind) == if yes then |q| else 0
  {
    if q != [] {
      assert q[|q| - 1] in q;
      CountUniform(q[..|q| - 1], kind, yes);
    }
  }

  const TO_USER: Delivery -> bool := (d: Delivery) => d.ToUser?
  const TO_AGENT: Delivery -> bool := (d: Delivery) => d.ToAgent?
  const BY_EMAIL: Delivery -> bool := (d: Delivery) => d.Email?

  /** The recorded counts are the numbers of deliveries actually made. */
  ghost predicate Counted(p: Publication) {
    && p.receipt.users == Count(p.deliveries, TO_USER)
    && p.receipt.agents == Count(p.deliveries, TO_AGENT)
    && p.receipt.emails == Count(p.deliveries, BY_EMAIL)
  }

  lemma EmailsAreEmails(users: seq<User>)
    ensures forall d | d in Emails(users) :: d.Email?
  {
  }

  lemma FanOutCounted(req: Request, users: seq<User>, agents: seq<Id>)
    ensures Counted(FanOut(req, users, agents))
  {
    var a, b := UserNotices(users), AgentNotices(agents);
    var c := if req.payload.sendEmail then Emails(users) else [];
    EmailsAreEmails(users);
    CountThree(a, b, c, TO_USER, true, false, false);
    CountThree(a, b, c, TO_AGENT, false, true, false);
    CountThree(a, b, c, BY_EMAIL, false, false, true);
  }

  lemma CountThree(a: seq<Delivery>, b: seq<Delivery>, c: seq<Delivery>, kind: Delivery -> bool,
                   inA: bool, inB: bool, inC: bool)
    requires forall d | d in a :: kind(d) == inA
    requires forall d | d in b :: kind(d) == inB
    requires forall d | d in c :: kind(d) == inC
    ensures Count(a + b + c, kind) ==
            (if inA then |a| else 0) + (if inB then |b| else 0) + (if inC then |c| else 0)
  {
    CountUniform(a, kind, inA);
    CountUniform(b, kind, inB);
    CountUniform(c, kind, inC);
    CountAppend(a, b, kind);
    CountAppend(a + b, c, kind);
  }

  // ----- Steps -----

  datatype Phase =
    | New
    | Checked                       // no receipt seen before the transaction
    | Claimed                       // the transaction holds the key, if there is one
    | Prepared(draft: Publication)  // everything written, nothing committed
    | Done(answer: Answer)

  datatype State = State(
    receipts: map<Key, Receipt>,
    published: seq<Publication>,
    phases: map<Id, Phase>)

  datatype Event =
    | Lookup(smtp: bool)
    | Claim
    | CheckEmail(smtp: bool)
    | Send(users: seq<User>, agents: seq<Id>)
    | Commit(raises: bool)   // what runs after the commit may still raise
    | Abort                  // an exception before it, or from the commit itself: rolled back

  predicate Holds(requests: map<Id, Request>, s: State, r: Id, k: Key) {
    r in requests && r in s.phases && requests[r].key == Some(k) && (s.phases[r].Claimed? || s.phases[r].Prepared?)
  }

  function Replay(receipt: Receipt, payload: Payload): Answer {
    if receipt.fingerprint != payload then Conflict else Sent(receipt)
  }

  ghost predicate Free(requests: map<Id, Request>, s: State, k: Key) {
    forall r :: !Holds(requests, s, r, k)
  }

  /** Whether request `r` can take step `e`; a claim waits while the key is held and not yet committed. */
  ghost predicate Enabled(requests: map<Id, Request>, s: State, r: Id, e: Event) {
    && r in requests && r in s.phases
    && var req, phase := requests[r], s.phases[r];
    match e
    case Lookup(_) => phase == New
    case Claim =>
      phase == Checked && (req.key.Some? && req.key.value !in s.receipts ==> Free(requests, s, req.key.value))
    case CheckEmail(smtp) => phase == Claimed && req.key.Some? && req.payload.sendEmail && !smtp
    case Send(_, _) => phase == Claimed
    case Commit(_) => phase.Prepared?
    case Abort => phase.Claimed? || phase.Prepared?
  }

  ghost function Apply(requests: map<Id, Request>, s: State, r: Id, e: Event): State
    requires Enabled(requests, s, r, e)
  {
    var req := requests[r];
    match e
    case Lookup(smtp) =>
      To(s, r,
         if req.key.Some? && req.key.value in s.receipts then Done(Replay(s.receipts[req.key.value], req.payload))
         else if req.key.None? && req.payload.sendEmail && !smtp then Done(SmtpUnconfigured)
         else Checked)
    case Claim =>
      To(s, r,
         if req.key.Some? && req.key.value in s.receipts then Done(Replay(s.receipts[req.key.value], req.payload))
         else Claimed)
    case CheckEmail(_) => To(s, r, Done(SmtpUnconfigured))     // released, then rolled back
    case Send(users, agents) => To(s, r, Prepared(FanOut(req, users, agents)))
    case Commit(raises) =>
      var draft := s.phases[r].draft;
      State(if req.key.Some? then s.receipts[req.key.value := draft.receipt] else s.receipts,
            s.published + [draft], s.phases[r := Done(if raises then Failed else Sent(draft.receipt))])
    case Abort => To(s, r, Done(Failed))
  }

  function To(s: State, r: Id, phase: Phase): State {
    s.(phases := s.phases[r := phase])
  }

  function Initial(requests: map<Id, Request>): State {
    State(map[], [], map r | r in requests :: New)
  }

  datatype Move = Move(r: Id, event: Event)

  ghost predicate StepAt(requests: map<Id, Request>, states: seq<State>, moves: seq<Move>, i: int) {
    && 0 <= i < |moves| && i + 1 < |states|
    && Enabled(requests, states[i], moves[i].r, moves[i].event)
    && states[i + 1] == Apply(requests, states[i], moves[i].r, moves[i].event)
  }

  ghost predicate Run(requests: map<Id, Request>, states: seq<State>, moves: seq<Move>) {
    && |states| == |moves| + 1 && states[0] == Initial(requests)
    && forall i | 0 <= i < |moves| :: StepAt(requests, states, moves, i)
  }

  // ----- The invariant -----

  /** One holder per key, and never of a key that has its receipt. */
  ghost predicate HoldersDistinct(requests: map<Id, Request>, s: State) {
    && s.phases.Keys == requests.Keys
    && (forall r, q, k | Holds(requests, s, r, k) && Holds(requests, s, q, k) :: r == q)
    && (forall r, k | Holds(requests, s, r, k) :: k !in s.receipts)
  }

  /** A draft is a fan-out of its own request. */
  predicate OwnDraft(req: Request, phase: Phase) {
    phase.Prepared? ==>
      && phase.draft.key == req.key
      && phase.draft.receipt.fingerprint == req.payload
      && phase.draft.receipt.broadcastId == req.broadcastId
  }

  ghost predicate DraftsSound(requests: map<Id, Request>, s: State) {
    forall r | r in s.phases && r in requests ::
      OwnDraft(requests[r], s.phases[r]) && (s.phases[r].Prepared? ==> Counted(s.phases[r].draft))
  }

  predicate Publishes(s: State, i: int, k: Key) {
    0 <= i < |s.published| && s.published[i].key == Some(k)
  }

  /** Receipts and keyed publications are in one-to-one correspondence. */
  ghost predicate LedgerSound(s: State) {
    && (forall p | p in s.published :: Counted(p))
    && (forall i, k | Publishes(s, i, k) :: k in s.receipts && s.receipts[k] == s.published[i].receipt)
    && (forall k | k in s.receipts :: exists i :: Publishes(s, i, k))
    && (forall i, j, k | Publishes(s, i, k) && Publishes(s, j, k) :: i == j)
  }

  /** A success under a key reports the key's receipt; a conflict means the receipt is for another payload. */
  predicate AnswerSound(s: State, req: Request, phase: Phase) {
    phase.Done? && req.key.Some? ==>
      var k := req.key.value;
      && (phase.answer.Sent? ==> k in s.receipts && phase.answer.receipt == s.receipts[k]
                                 && phase.answer.receipt.fingerprint == req.payload)
      && (phase.answer.Conflict? ==> k in s.receipts && s.receipts[k].fingerprint != req.payload)
  }

  ghost predicate AnswersSound(requests: map<Id, Request>, s: State) {
    forall r | r in s.phases && r in requests :: AnswerSound(s, requests[r], s.phases[r])
  }

  ghost predicate Inv(requests: map<Id, Request>, s: State) {
    HoldersDistinct(requests, s) && DraftsSound(requests, s) && LedgerSound(s) && AnswersSound(requests, s)
  }

  /** A change of one request's phase keeps the holders distinct if it gives the request no key that is taken, and no
      held key gets a receipt. */
  lemma PhaseChange(requests: map<Id, Request>, s: State, t: State, r: Id)
    requires HoldersDistinct(requests, s) && t.phases.Keys == requests.Keys
    requires forall q | q in requests && q != r :: t.phases[q] == s.phases[q]
    requires forall k | Holds(requests, t, r, k) :: Holds(requests, s, r, k) || Free(requests, s, k)
    requires forall q, k | Holds(requests, t, q, k) :: k !in t.receipts
    ensures HoldersDistinct(requests, t)
  {
    forall q, k | Holds(requests, t, q, k) && q != r ensures Holds(requests, s, q, k) {}
    forall q, p, k | Holds(requests, t, q, k) && Holds(requests, t, p, k) ensures q == p {
      assert Holds(requests, s, q, k) || q == r;
      assert Holds(requests, s, p, k) || p == r;
    }
  }

  lemma StepKeepsHolders(requests: map<Id, Request>, s: State, r: Id, e: Event)
    requires HoldersDistinct(requests, s) && DraftsSound(requests, s) && Enabled(requests, s, r, e)
    ensures HoldersDistinct(requests, Apply(requests, s, r, e))
  {
    var t := Apply(requests, s, r, e);
    forall q, k | Holds(requests, t, q, k) && q != r ensures Holds(requests, s, q, k) {}
    forall k | Holds(requests, t, r, k)
      ensures Holds(requests, s, r, k) || (Free(requests, s, k) && k !in s.receipts)
    {
    }
    forall q, k | Holds(requests, t, q, k) ensures k !in t.receipts {
      if e.Commit? && requests[r].key == Some(k) {
        assert Holds(requests, s, r, k);
      }
    }
    PhaseChange(requests, s, t, r);
  }

  lemma StepKeepsLedger(requests: map<Id, Request>, s: State, r: Id, e: Event)
    requires HoldersDistinct(requests, s) && DraftsSound(requests, s) && LedgerSound(s) && Enabled(requests, s, r, e)
    ensures LedgerSound(Apply(requests, s, r, e))
  {
    var t := Apply(requests, s, r, e);
    if e.Commit? {
      var draft := s.phases[r].draft;
      assert requests[r].key.Some? ==> Holds(requests, s, r, requests[r].key.value);
      assert OwnDraft(requests[r], s.phases[r]);
      forall i, k ensures Publishes(t, i, k) <==> Publishes(s, i, k) || (i == |s.published| && draft.key == Some(k)) {
      }
      forall k | k in t.receipts ensures exists i :: Publishes(t, i, k) {
        if draft.key == Some(k) {
          assert Publishes(t, |s.published|, k);
        } else {
          var i :| Publishes(s, i, k);
          assert Publishes(t, i, k);
        }
      }
    } else {
      assert forall i, k :: Publishes(t, i, k) <==> Publishes(s, i, k);
    }
  }

  lemma StepKeepsAnswers(requests: map<Id, Request>, s: State, r: Id, e: Event)
    requires HoldersDistinct(requests, s) && DraftsSound(requests, s) && AnswersSound(requests, s)
    requires Enabled(requests, s, r, e)
    ensures AnswersSound(requests, Apply(requests, s, r, e))
  {
    var t := Apply(requests, s, r, e);
    if e.Commit? {
      assert requests[r].key.Some? ==> Holds(requests, s, r, requests[r].key.value);
      assert OwnDraft(requests[r], s.phases[r]);
    }
    forall q | q in t.phases && q in requests && q != r ensures AnswerSound(t, requests[q], t.phases[q]) {
      assert AnswerSound(s, requests[q], s.phases[q]);
    }
  }

  lemma StepKeepsInv(requests: map<Id, Request>, s: State, r: Id, e: Event)
    requires Inv(requests, s) && Enabled(requests, s, r, e)
    ensures Inv(requests, Apply(requests, s, r, e))
  {
    StepKeepsHolders(requests, s, r, e);
    StepKeepsLedger(requests, s, r, e);
    StepKeepsAnswers(requests, s, r, e);
    if e.Send? {
      FanOutCounted(requests[r], e.users, e.agents);
    }
  }

  lemma {:induction false} RunKeepsInv(requests: map<Id, Request>, states: seq<State>, moves: seq<Move>, i: nat)
    requires Run(requests, states, moves) && i < |states|
    ensures Inv(requests, states[i])
  {
    if i > 0 {
      RunKeepsInv(requests, states, moves, i - 1);
      assert StepAt(requests, states, moves, i - 1);
      StepKeepsInv(requests, states[i - 1], moves[i - 1].r, moves[i - 1].event);
    }
  }

  // ----- What every run keeps -----

  /** At most one fan-out is ever published under a key, and its receipt is the one on record. */
  lemma AtMostOneFanOut(requests: map<Id, Request>, states: seq<State>, moves: seq<Move>, n: nat, i: nat, j: nat)
    requires Run(requests, states, moves) && n < |states|
    requires i < |states[n].published| && j < |states[n].published|
    requires states[n].published[i].key.Some? && states[n].published[i].key == states[n].published[j].key
    ensures i == j
    ensures var p := states[n].published[i];
            p.key.value in states[n].receipts && states[n].receipts[p.key.value] == p.receipt && Counted(p)
  {
    RunKeepsInv(requests, states, moves, n);
    var k := states[n].published[i].key.value;
    assert Publishes(states[n], i, k) && Publishes(states[n], j, k);
  }

  /** Request `r` has sent this fan-out, to the users and agents it found, among the first `n` moves. */
  ghost predicate SentBy(requests: map<Id, Request>, moves: seq<Move>, n: nat, r: Id, p: Publication) {
    exists m | 0 <= m < n && m < |moves| ::
      && moves[m].r == r && r in requests && moves[m].event.Send?
      && Addressed(requests[r], moves[m].event.users, moves[m].event.agents, p)
  }

  lemma SentByLater(requests: map<Id, Request>, moves: seq<Move>, n: nat, r: Id, p: Publication)
    requires SentBy(requests, moves, n, r, p)
    ensures SentBy(requests, moves, n + 1, r, p)
  {
  }

  lemma {:induction false} DraftsSent(requests: map<Id, Request>, states: seq<State>, moves: seq<Move>, n: nat, r: Id)
    requires Run(requests, states, moves) && n < |states|
    requires r in states[n].phases && states[n].phases[r].Prepared?
    ensures SentBy(requests, moves, n, r, states[n].phases[r].draft)
  {
    var m := moves[n - 1];
    assert StepAt(requests, states, moves, n - 1);
    if m.r == r && m.event.Send? {
      FanOutAddressed(requests[r], m.event.users, m.event.agents);
      assert moves[n - 1].r == r;
    } else {
      DraftsSent(requests, states, moves, n - 1, r);
      SentByLater(requests, moves, n - 1, r, states[n].phases[r].draft);
    }
  }

  /** In every run, whatever is published went to exactly the users and agents that its request found, by mail as well
      exactly if the request asked for it. */
  lemma {:induction false} PublishedIsAddressed(requests: map<Id, Request>, states: seq<State>, moves: seq<Move>,
                                                n: nat, i: nat)
    requires Run(requests, states, moves) && n < |states| && i < |states[n].published|
    ensures exists r :: SentBy(requests, moves, n, r, states[n].published[i])
  {
    var m := moves[n - 1];
    assert StepAt(requests, states, moves, n - 1);
    if i < |states[n - 1].published| {
      PublishedIsAddressed(requests, states, moves, n - 1, i);
      var r :| SentBy(requests, moves, n - 1, r, states[n - 1].published[i]);
      assert states[n].published[i] == states[n - 1].published[i];
      SentByLater(requests, moves, n - 1, r, states[n].published[i]);
    } else {
      DraftsSent(requests, states, moves, n - 1, m.r);
      SentByLater(requests, moves, n - 1, m.r, states[n].published[i]);
    }
  }

  lemma StepKeepsHistory(requests: map<Id, Request>, s: State, r: Id, e: Event)
    requires HoldersDistinct(requests, s) && Enabled(requests, s, r, e)
    ensures var t := Apply(requests, s, r, e);
            && (forall k | k in s.receipts :: k in t.receipts && t.receipts[k] == s.receipts[k])
            && s.published <= t.published
            && (forall q | q in s.phases ::
                  q in t.phases && (q != r || s.phases[q].Done? ==> t.phases[q] == s.phases[q]))
  {
    if e.Commit? && requests[r].key.Some? {
      assert Holds(requests, s, r, requests[r].key.value);
    }
  }

  /** Receipts and publications are never withdrawn, and an answer is final. */
  lemma {:induction false} HistoryStays(requests: map<Id, Request>, states: seq<State>, moves: seq<Move>,
                                        i: nat, j: nat)
    requires Run(requests, states, moves) && i <= j < |states|
    ensures forall k | k in states[i].receipts ::
              k in states[j].receipts && states[j].receipts[k] == states[i].receipts[k]
    ensures states[i].published <= states[j].published
    ensures forall r | r in states[i].phases && states[i].phases[r].Done? ::
              r in states[j].phases && states[j].phases[r] == states[i].phases[r]
    decreases j
  {
    if i < j {
      HistoryStays(requests, states, moves, i, j - 1);
      RunKeepsHolders(requests, states, moves, j - 1);
      assert StepAt(requests, states, moves, j - 1);
      StepKeepsHistory(requests, states[j - 1], moves[j - 1].r, moves[j - 1].event);
    }
  }

  lemma RunKeepsHolders(requests: map<Id, Request>, states: seq<State>, moves: seq<Move>, i: nat)
    requires Run(requests, states, moves) && i < |states|
    ensures HoldersDistinct(requests, states[i])
  {
    RunKeepsInv(requests, states, moves, i);
  }

  /** Every successful answer under one key is the same answer, whoever gets it and whenever. */
  lemma SameAnswer(requests: map<Id, Request>, states: seq<State>, moves: seq<Move>,
                   i: nat, j: nat, r: Id, q: Id)
    requires Run(requests, states, moves) && i < |states| && j < |states|
    requires r in requests && q in requests && requests[r].key.Some? && requests[r].key == requests[q].key
    requires r in states[i].phases && states[i].phases[r].Done? && states[i].phases[r].answer.Sent?
    requires q in states[j].phases && states[j].phases[q].Done? && states[j].phases[q].answer.Sent?
    ensures states[i].phases[r].answer == states[j].phases[q].answer
    ensures requests[r].payload == requests[q].payload
  {
    RunKeepsInv(requests, states, moves, i);
    RunKeepsInv(requests, states, moves, j);
    if i <= j {
      HistoryStays(requests, states, moves, i, j);
    } else {
      HistoryStays(requests, states, moves, j, i);
    }
  }

  lemma StepAnswersFromReceipt(requests: map<Id, Request>, s: State, m: Move, r: Id)
    requires HoldersDistinct(requests, s) && Enabled(requests, s, m.r, m.event)
    requires r in requests && requests[r].key.Some? && requests[r].key.value in s.receipts && r in s.phases
    requires s.phases[r] in {New, Checked} || s.phases[r].Done?
    ensures var t, answer := Apply(requests, s, m.r, m.event),
                             Replay(s.receipts[requests[r].key.value], requests[r].payload);
            && r in t.phases && t.phases[r] in {New, Checked, Done(answer), s.phases[r]}
            && (m.r == r ==> t.published == s.published)
  {
  }

  /** From the moment a key has its receipt, a request that has not yet claimed it is only ever answered from
      that receipt: replayed when the payload matches, refused with a conflict when it does not. It sends nothing. */
  lemma {:induction false} AnsweredFromReceipt(requests: map<Id, Request>, states: seq<State>, moves: seq<Move>,
                                               i: nat, j: nat, r: Id)
    requires Run(requests, states, moves) && i <= j < |states|
    requires r in requests && requests[r].key.Some? && requests[r].key.value in states[i].receipts
    requires r in states[i].phases && states[i].phases[r] in {New, Checked}
    ensures r in states[j].phases
    ensures states[j].phases[r] in
              {New, Checked, Done(Replay(states[i].receipts[requests[r].key.value], requests[r].payload))}
    ensures forall n | i <= n < j && moves[n].r == r :: states[n + 1].published == states[n].published
    decreases j
  {
    if i < j {
      var k := requests[r].key.value;
      AnsweredFromReceipt(requests, states, moves, i, j - 1, r);
      assert k in states[j - 1].receipts && states[j - 1].receipts[k] == states[i].receipts[k] by {
        HistoryStays(requests, states, moves, i, j - 1);
      }
      RunKeepsHolders(requests, states, moves, j - 1);
      assert StepAt(requests, states, moves, j - 1);
      StepAnswersFromReceipt(requests, states[j - 1], moves[j - 1], r);
    }
  }

  /** Request `r` has committed by state `n`. */
  ghost predicate Committed(moves: seq<Move>, n: nat, r: Id) {
    exists m | 0 <= m < n && m < |moves| :: moves[m].r == r && moves[m].event.Commit?
  }

  /** The steps of a request that has not committed change no receipt and publish nothing; and one that is answered
      without having committed holds no key, so it stands in nobody's way. */
  lemma AttemptLeavesNothing(requests: map<Id, Request>, states: seq<State>, moves: seq<Move>, n: nat, r: Id)
    requires Run(requests, states, moves) && n < |states| && !Committed(moves, n, r)
    ensures forall m | 0 <= m < n && moves[m].r == r ::
              states[m + 1].receipts == states[m].receipts && states[m + 1].published == states[m].published
    ensures r in states[n].phases && states[n].phases[r].Done? ==> forall k :: !Holds(requests, states[n], r, k)
  {
    forall m | 0 <= m < n && moves[m].r == r
      ensures states[m + 1].receipts == states[m].receipts && states[m + 1].published == states[m].published
    {
      assert StepAt(requests, states, moves, m);
    }
  }

  /** Once a request has committed, it has published, and is answered with its receipt or, if something raised after the
      commit, with an error; either way whoever asks again under the key is answered from that receipt. */
  lemma CommitStands(requests: map<Id, Request>, states: seq<State>, moves: seq<Move>,
                     m: nat, n: nat, r: Id, q: Id, e: Event)
    requires Run(requests, states, moves) && m < n < |states|
    requires moves[m].r == r && moves[m].event.Commit?
    requires Enabled(requests, states[n], q, e) && e.Lookup?
    requires r in requests && requests[q].key.Some? && requests[q].key == requests[r].key
    ensures r in states[m].phases && states[m].phases[r].Prepared?
    ensures var receipt := states[m].phases[r].draft.receipt;
            && states[m].phases[r].draft in states[n].published
            && r in states[n].phases
            && states[n].phases[r] == Done(if moves[m].event.raises then Failed else Sent(receipt))
            && Apply(requests, states[n], q, e).phases[q] == Done(Replay(receipt, requests[q].payload))
  {
    assert StepAt(requests, states, moves, m);
    HistoryStays(requests, states, moves, m + 1, n);
    assert states[m + 1].published[|states[m].published|] == states[m].phases[r].draft;
  }

  /** As long as a key has no receipt and nobody holds it, a request that arrives can publish and be answered. */
  lemma RetryCanSucceed(requests: map<Id, Request>, states: seq<State>, moves: seq<Move>, r: Id,
                        users: seq<User>, agents: seq<Id>)
    requires Run(requests, states, moves)
    requires var s := states[|moves|];
             && r in requests && r in s.phases && s.phases[r] == New
             && requests[r].key.Some? && requests[r].key.value !in s.receipts
             && Free(requests, s, requests[r].key.value)
    ensures exists more: seq<State> ::
              var path := [Move(r, Lookup(true)), Move(r, Claim), Move(r, Send(users, agents)), Move(r, Commit(false))];
              && |more| == 4 && Run(requests, states + more, moves + path)
              && r in more[3].phases && more[3].phases[r] == Done(Sent(FanOut(requests[r], users, agents).receipt))
              && more[3].published == states[|moves|].published + [FanOut(requests[r], users, agents)]
  {
    var s := states[|moves|];
    var path := [Move(r, Lookup(true)), Move(r, Claim), Move(r, Send(users, agents)), Move(r, Commit(false))];
    var s1 := Apply(requests, s, r, Lookup(true));
    assert forall q, k | Holds(requests, s1, q, k) :: Holds(requests, s, q, k);
    var s2 := Apply(requests, s1, r, Claim);
    var s3 := Apply(requests, s2, r, Send(users, agents));
    var s4 := Apply(requests, s3, r, Commit(false));
    var more := [s1, s2, s3, s4];
    var all, steps := states + more, moves + path;
    forall i | 0 <= i < |steps| ensures StepAt(requests, all, steps, i) {
      if i < |moves| {
        assert StepAt(requests, states, moves, i);
        assert all[i] == states[i] && all[i + 1] == states[i + 1] && steps[i] == moves[i];
      } else {
        assert steps[i] == path[i - |moves|];
      }
    }
    assert Run(requests, all, steps);
  }
}
