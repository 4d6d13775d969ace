/** `broadcast_notification` as it is written, run without interference, against the steps of `Broadcast`. */
module BroadcastHandler {
  import opened Results
  import opened Broadcast

  datatype Trouble = NoTrouble | BeforeCommit | AfterCommit

  /** What the steps of one request lead to when no other request moves in between. `smtp` says whether SMTP is
      configured, and `trouble` whether something raises, before or after the commit. */
  ghost function Served(requests: map<Id, Request>, s: State, r: Id, smtp: bool,
                        users: seq<User>, agents: seq<Id>, trouble: Trouble): State
    requires Enabled(requests, s, r, Lookup(smtp))
    requires requests[r].key.Some? ==> Free(requests, s, requests[r].key.value)
  {
    var s1 := Apply(requests, s, r, Lookup(smtp));
    if s1.phases[r].Done? then s1
    else
      FreeAfterLookup(requests, s, r, smtp);
      var s2 := Apply(requests, s1, r, Claim);
      if s2.phases[r].Done? then s2
      else if Enabled(requests, s2, r, CheckEmail(smtp)) then Apply(requests, s2, r, CheckEmail(smtp))
      else
        var s3 := Apply(requests, s2, r, Send(users, agents));
        Apply(requests, s3, r, if trouble == BeforeCommit then Abort else Commit(trouble == AfterCommit))
  }

  lemma FreeAfterLookup(requests: map<Id, Request>, s: State, r: Id, smtp: bool)
    requires Enabled(requests, s, r, Lookup(smtp))
    requires requests[r].key.Some? ==> Free(requests, s, requests[r].key.value)
    ensures requests[r].key.Some? ==>
              Free(requests, Apply(requests, s, r, Lookup(smtp)), requests[r].key.value)
  {
    var t := Apply(requests, s, r, Lookup(smtp));
    assert forall q, k | Holds(requests, t, q, k) :: Holds(requests, s, q, k);
  }

  /** The whole call by its effect: a known key is answered from its receipt; a missing SMTP configuration or an
      exception before the commit leaves everything as it was; otherwise one fan-out is published, addressed to these
      users and agents, and its receipt is recorded under the key. */
  ghost predicate Effect(req: Request, smtp: bool, users: seq<User>, agents: seq<Id>, trouble: Trouble,
                         draft: Publication, receipts: map<Key, Receipt>, published: seq<Publication>,
                         receiptsAfter: map<Key, Receipt>, publishedAfter: seq<Publication>, answer: Answer)
  {
    if req.key.Some? && req.key.value in receipts then
      && receiptsAfter == receipts && publishedAfter == published
      && answer == if receipts[req.key.value].fingerprint == req.payload then Sent(receipts[req.key.value])
                   else Conflict
    else if (req.payload.sendEmail && !smtp) || trouble == BeforeCommit then
      && receiptsAfter == receipts && publishedAfter == published
      && answer == if req.payload.sendEmail && !smtp then SmtpUnconfigured else Failed
    else
      && Addressed(req, users, agents, draft) && Counted(draft)
      && publishedAfter == published + [draft]
      && receiptsAfter == (if req.key.Some? then receipts[req.key.value := draft.receipt] else receipts)
      && answer == if trouble == AfterCommit then Failed else Sent(draft.receipt)
  }

  lemma ServedKnown(requests: map<Id, Request>, s: State, r: Id, smtp: bool, users: seq<User>, agents: seq<Id>,
                    trouble: Trouble)
    requires Enabled(requests, s, r, Lookup(smtp)) && requests[r].key.Some? && requests[r].key.value in s.receipts
    requires Free(requests, s, requests[r].key.value)
    ensures var t := Served(requests, s, r, smtp, users, agents, trouble);
            t == To(s, r, Done(Replay(s.receipts[requests[r].key.value], requests[r].payload)))
  {
  }

  lemma ServedNew(requests: map<Id, Request>, s: State, r: Id, smtp: bool, users: seq<User>, agents: seq<Id>,
                  trouble: Trouble)
    requires Enabled(requests, s, r, Lookup(smtp))
    requires requests[r].key.Some? ==>
               Free(requests, s, requests[r].key.value) && requests[r].key.value !in s.receipts
    ensures var t, draft := Served(requests, s, r, smtp, users, agents, trouble), FanOut(requests[r], users, agents);
            && r in t.phases
            && if requests[r].payload.sendEmail && !smtp then t == To(s, r, Done(SmtpUnconfigured))
               else if trouble == BeforeCommit then t == To(s, r, Done(Failed))
               else
                 && t.phases[r] == Done(if trouble == AfterCommit then Failed else Sent(draft.receipt))
                 && t.published == s.published + [draft]
                 && t.receipts == if requests[r].key.Some? then s.receipts[requests[r].key.value := draft.receipt]
                                  else s.receipts
  {
    FreeAfterLookup(requests, s, r, smtp);
  }

  /** That effect is exactly where the steps of one request lead. */
  lemma EffectIsSteps(requests: map<Id, Request>, s: State, r: Id, smtp: bool, users: seq<User>, agents: seq<Id>,
                      trouble: Trouble, receipts: map<Key, Receipt>, published: seq<Publication>, answer: Answer)
    requires Enabled(requests, s, r, Lookup(smtp))
    requires requests[r].key.Some? ==> Free(requests, s, requests[r].key.value)
    ensures var t := Served(requests, s, r, smtp, users, agents, trouble);
            Effect(requests[r], smtp, users, agents, trouble, FanOut(requests[r], users, agents),
                   s.receipts, s.published, receipts, published, answer) <==>
            receipts == t.receipts && published == t.published && r in t.phases && t.phases[r] == Done(answer)
  {
    if requests[r].key.Some? && requests[r].key.value in s.receipts {
      ServedKnown(requests, s, r, smtp, users, agents, trouble);
    } else {
      ServedNew(requests, s, r, smtp, users, agents, trouble);
    }
    FanOutAddressed(requests[r], users, agents);
    FanOutCounted(requests[r], users, agents);
  }

  class Database {
    var receipts: map<Key, Receipt>
    var published: seq<Publication>

    method BroadcastNotification(req: Request, smtp: bool, users: seq<User>, agents: seq<Id>, trouble: Trouble)
      returns (answer: Answer)
      modifies this
      ensures Effect(req, smtp, users, agents, trouble, FanOut(req, users, agents),
                     old(receipts), old(published), receipts, published, answer)
    {
      if req.key.Some? {
        if req.key.value in receipts {
          return Replay(receipts[req.key.value], req.payload);
        }
      } else if req.payload.sendEmail && !smtp {
        return SmtpUnconfigured;
      }
      if req.key.Some? && req.payload.sendEmail && !smtp {
        return SmtpUnconfigured;
      }
      var draft := SendAll(req, users, agents);
      if trouble == BeforeCommit {
        return Failed;
      }
      if req.key.Some? {
        receipts := receipts[req.key.value := draft.receipt];
      }
      published := published + [draft];
      answer := if trouble == AfterCommit then Failed else Sent(draft.receipt);
    }
  }
}
