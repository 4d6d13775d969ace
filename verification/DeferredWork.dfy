/** What becomes of a coroutine that is scheduled (engine/app/api/background_tasks.py, lines 40-80, with
    engine/app/db/session.py, lines 31-102), told by the events of the run alone. */
module DeferredWork {
  import opened Results
  import opened BackgroundTasks

  /** Where the callbacks that joined batch `k` at position `j` are at position `n`: each commit takes them along. */
  function Place(events: seq<Event>, j: nat, n: nat, k: Id): Id
    requires j < n <= |events|
    decreases n
  {
    if n == j + 1 then k else NextPlace(events[n - 1], Place(events, j, n - 1, k))
  }

  function NextPlace(e: Event, k: Id): Id {
    if e.Detach? && e.open == k then e.flight else k
  }

  /** Event `m` ends the batch they are in. */
  predicate Ends(events: seq<Event>, j: nat, m: int, k: Id) {
    j < m < |events| && events[m].EndTransaction? && events[m].k == Place(events, j, m, k)
  }

  ghost predicate FirstEnd(events: seq<Event>, j: nat, m: int, k: Id) {
    Ends(events, j, m, k) && forall i | j < i < m :: !Ends(events, j, i, k)
  }

  /** The three ways a schedule can go. */
  lemma ScheduleOutcome(states: seq<State>, events: seq<Event>, j: nat, c: Id, scope: Option<Id>)
    requires Run(states, events) && states[0] == INITIAL && j < |events| && events[j] == ScheduleTask(c, scope)
    ensures c !in states[j].fates && c in states[j + 1].fates
    ensures var s, t := states[j], states[j + 1];
            if !s.accepting then t == s.(fates := s.fates[c := Closed])
            else match scope
                 case None => t.fates[c] == Running && c in t.owned && t.batches == s.batches
                 case Some(k) =>
                   && t.fates[c] == Deferred && t.owned == s.owned
                   && k in t.batches && t.batches == s.batches[k := t.batches[k]]
                   && t.batches[k] == (if k in s.batches then s.batches[k] else []) + [Entry(c, s.generation)]
  {
    assert StepAt(states, events, j);
    if states[j].accepting && scope.None? { ScheduleNow(states[j], c); }
  }

  /** As long as its batch has not ended, a coroutine keeps its place in it, wherever it is moved. */
  lemma StepMoves(s: State, e: Event, k: Id, i: nat, c: Id)
    requires Inv(s) && Enabled(s, e) && At(s, k, i, c) && !(e.EndTransaction? && e.k == k)
    ensures At(Apply(s, e), NextPlace(e, k), i, c)
  {
    match e
    case EndTransaction(l, committed) =>
      EndWaiting(s, l, committed);
      if InEntries(Batch(s, l), c) {
        var x :| 0 <= x < |Batch(s, l)| && Batch(s, l)[x].coroutine == c;
        assert At(s, l, x, c);
      }
    case ScheduleTask(d, scope) =>
      if s.accepting && scope.None? { ScheduleNow(s, d); }
    case _ =>
  }

  lemma {:induction false} StillWaits(states: seq<State>, events: seq<Event>, j: nat, n: nat, c: Id, k: Id)
    requires Run(states, events) && states[0] == INITIAL && j < n < |states|
    requires events[j] == ScheduleTask(c, Some(k)) && states[j].accepting
    requires forall m | j < m < n :: !Ends(events, j, m, k)
    ensures exists i :: At(states[n], Place(events, j, n, k), i, c)
    ensures IsDeferred(states[n], c)
    ensures c in states[n].scheduledIn && states[n].scheduledIn[c] == states[j].generation
    decreases n
  {
    RunKeepsInv(states, events, n);
    if n == j + 1 {
      ScheduleOutcome(states, events, j, c, Some(k));
      assert At(states[n], Place(events, j, n, k), |Batch(states[j], k)|, c);
    } else {
      StillWaits(states, events, j, n - 1, c, k);
      var p := Place(events, j, n - 1, k);
      var i :| At(states[n - 1], p, i, c);
      RunKeepsInv(states, events, n - 1);
      assert StepAt(states, events, n - 1) && !Ends(events, j, n - 1, k);
      StepMoves(states[n - 1], events[n - 1], p, i, c);
      assert Place(events, j, n, k) == NextPlace(events[n - 1], p);
      assert At(states[n], NextPlace(events[n - 1], p), i, c);
      RunStep(states, events, n - 1, c);
    }
  }

  /** The transaction's end decides: launched if it commits with admission open and no restart in between, closed if
      not, and for good. */
  lemma EndDecides(states: seq<State>, events: seq<Event>, j: nat, m: nat, n: nat, c: Id, k: Id)
    requires Run(states, events) && states[0] == INITIAL && j < m < n < |states|
    requires events[j] == ScheduleTask(c, Some(k)) && states[j].accepting && FirstEnd(events, j, m, k)
    ensures var launched := events[m].committed && states[m].accepting && states[m].generation == states[j].generation;
            && (Launched(states[n], c) <==> launched) && (IsClosed(states[n], c) <==> !launched)
  {
    StillWaits(states, events, j, m, c, k);
    var p := Place(events, j, m, k);
    var i :| At(states[m], p, i, c);
    assert InEntries(Batch(states[m], p), c);
    RunStep(states, events, m, c);
    OneFate(states, events, m + 1, n, c);
  }

  /** This end is the first, it commits, admission is open, and nobody has restarted since position `j`. */
  ghost predicate CommitsIn(states: seq<State>, events: seq<Event>, j: nat, m: int, k: Id)
    requires j < |states| == |events| + 1
  {
    && FirstEnd(events, j, m, k) && events[m].committed
    && states[m].accepting && states[m].generation == states[j].generation
  }

  /** Work scheduled inside a transaction is launched if and only if the transaction commits while admission is open, in
      the generation it was scheduled in; it is closed if and only if the transaction ends in any other way; and until
      then it waits. */
  lemma LaunchedIffCommitted(states: seq<State>, events: seq<Event>, j: nat, n: nat, c: Id, k: Id)
    requires Run(states, events) && states[0] == INITIAL && j < n < |states|
    requires events[j] == ScheduleTask(c, Some(k)) && states[j].accepting
    ensures Launched(states[n], c) <==> exists m :: j < m < n && CommitsIn(states, events, j, m, k)
    ensures IsClosed(states[n], c) <==>
            exists m :: j < m < n && FirstEnd(events, j, m, k) && !CommitsIn(states, events, j, m, k)
    ensures IsDeferred(states[n], c) <==> forall m | j < m < n :: !Ends(events, j, m, k)
  {
    if forall m | j < m < n :: !Ends(events, j, m, k) {
      StillWaits(states, events, j, n, c, k);
    } else {
      var m := FirstOf(events, j, n, k);
      EndDecides(states, events, j, m, n, c, k);
      forall i | FirstEnd(events, j, i, k) ensures i == m { OneFirstEnd(events, j, i, m, k); }
      assert Launched(states[n], c) <==> CommitsIn(states, events, j, m, k);
    }
  }

  lemma OneFirstEnd(events: seq<Event>, j: nat, i: int, m: int, k: Id)
    requires FirstEnd(events, j, i, k) && FirstEnd(events, j, m, k)
    ensures i == m
  {
  }

  lemma {:induction false} FirstOf(events: seq<Event>, j: nat, n: nat, k: Id) returns (m: nat)
    requires n <= |events| && exists i :: j < i < n && Ends(events, j, i, k)
    ensures j < m < n && FirstEnd(events, j, m, k)
    decreases n
  {
    if i :| j < i < n - 1 && Ends(events, j, i, k) {
      m := FirstOf(events, j, n - 1, k);
    } else {
      m := n - 1;
    }
  }

  /** A coroutine is closed only when admission is closed as it is scheduled, or as its batch ends, or when that batch
      is rolled back or belongs to an earlier generation. */
  lemma ClosedOnlyThen(states: seq<State>, events: seq<Event>, j: nat, c: Id)
    requires Run(states, events) && states[0] == INITIAL && j < |events|
    requires IsClosed(states[j + 1], c) && !IsClosed(states[j], c)
    ensures var s, e := states[j], events[j];
            || (e.ScheduleTask? && e.c == c && !s.accepting)
            || (&& e.EndTransaction? && e.k in s.batches
                && (exists i :: 0 <= i < |s.batches[e.k]| && s.batches[e.k][i].coroutine == c)
                && !(e.committed && s.accepting && c in s.scheduledIn && s.scheduledIn[c] == s.generation))
  {
    RunKeepsInv(states, events, j);
    assert StepAt(states, events, j);
    RunStep(states, events, j, c);
    match events[j]
    case EndTransaction(k, committed) => EndEffect(states[j], k, committed);
    case ScheduleTask(d, scope) => if states[j].accepting && scope.None? { ScheduleNow(states[j], d); }
    case _ =>
  }

  /** A launched coroutine is over exactly from its own end on. */
  lemma FinishesOnce(states: seq<State>, events: seq<Event>, j: nat, c: Id)
    requires Run(states, events) && states[0] == INITIAL && j < |events| && Launched(states[j], c)
    ensures Launched(states[j + 1], c)
    ensures states[j + 1].fates[c] == Finished <==> states[j].fates[c] == Finished || events[j] == Finish(c)
  {
    RunKeepsInv(states, events, j);
    assert StepAt(states, events, j);
    RunStep(states, events, j, c);
    match events[j]
    case EndTransaction(k, committed) => EndEffect(states[j], k, committed);
    case ScheduleTask(d, scope) => if states[j].accepting && scope.None? { ScheduleNow(states[j], d); }
    case _ =>
  }
}
