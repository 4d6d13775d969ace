/** Work launched after commit (engine/app/api/background_tasks.py), with the completion batches of the request
    transaction that carries it (engine/app/db/session.py, lines 22-108).

    `State` and its step functions say what each operation does; class `Tasks` is the module in the source's own
    form, each method proved to perform its step. */
module BackgroundTasks {
  import opened Results

  type Id = nat

  /** A coroutine is `Deferred` until its transaction ends, then launched as a task or closed. */
  datatype Fate = Deferred | Running | Finished | Closed

  /** The `launch`/`drop` pair registered for one coroutine, with the generation its closure captured. */
  datatype Entry = Entry(coroutine: Id, generation: nat)

  datatype State = State(
    accepting: bool,
    generation: nat,
    owned: set<Id>,                 // `_tasks`
    fates: map<Id, Fate>,
    scheduledIn: map<Id, nat>,      // the generation a coroutine was accepted in
    batches: map<Id, seq<Entry>>,   // callbacks of open transactions, and of commits in flight
    drains: map<Id, set<Id>>)       // calls of `drain_background_tasks` that wait, with their snapshot

  const INITIAL := State(true, 0, {}, map[], map[], map[], map[])

  function Batch(s: State, k: Id): seq<Entry> {
    if k in s.batches then s.batches[k] else []
  }

  // ----- What each operation does -----

  /** The fate the callbacks give an entry once its transaction has ended. */
  function Verdict(s: State, e: Entry, committed: bool): Fate {
    if committed && s.accepting && e.generation == s.generation then Running else Closed
  }

  function Resolve(s: State, e: Entry, committed: bool): State {
    var fate := Verdict(s, e, committed);
    s.(fates := s.fates[e.coroutine := fate], owned := if fate == Running then s.owned + {e.coroutine} else s.owned)
  }

  function Dispatch(s: State, entries: seq<Entry>, committed: bool): State {
    if entries == [] then s
    else Resolve(Dispatch(s, entries[..|entries| - 1], committed), entries[|entries| - 1], committed)
  }

  /** Scheduling inside transaction `scope`, or outside any. */
  function Schedule(s: State, c: Id, scope: Option<Id>): State {
    if !s.accepting then s.(fates := s.fates[c := Closed])
    else
      var e := Entry(c, s.generation);
      var t := s.(fates := s.fates[c := Deferred], scheduledIn := s.scheduledIn[c := s.generation]);
      match scope
      case None => Dispatch(t, [e], true)
      case Some(k) => t.(batches := t.batches[k := Batch(t, k) + [e]])
  }

  datatype Event =
    | Start
    | ScheduleTask(c: Id, scope: Option<Id>)
    | Detach(open: Id, flight: Id)          // a commit begins: its callbacks leave the open batch
    | EndTransaction(k: Id, committed: bool) // the callbacks of one batch run
    | Finish(c: Id)                          // a task returns, raises or is cancelled
    | ObserveCompletion(c: Id)               // its done callback runs
    | DrainBegin(d: Id)
    | DrainEnd(d: Id)

  predicate Enabled(s: State, e: Event) {
    match e
    case ScheduleTask(c, _) => c !in s.fates
    case Detach(k, j) => j != k && Batch(s, j) == []
    case Finish(c) => c in s.fates && s.fates[c] == Running
    case ObserveCompletion(c) => c in s.fates && s.fates[c] == Finished
    case DrainBegin(d) => d !in s.drains
    case DrainEnd(d) => d in s.drains && forall c | c in s.drains[d] :: c in s.fates && s.fates[c] == Finished
    case _ => true
  }

  function Apply(s: State, e: Event): State
    requires Enabled(s, e)
  {
    match e
    case Start => s.(generation := s.generation + 1, accepting := true)
    case ScheduleTask(c, scope) => Schedule(s, c, scope)
    case Detach(k, j) => s.(batches := s.batches[j := Batch(s, k)][k := []])
    case EndTransaction(k, committed) => Dispatch(s.(batches := s.batches[k := []]), Batch(s, k), committed)
    case Finish(c) => s.(fates := s.fates[c := Finished])
    case ObserveCompletion(c) => s.(owned := s.owned - {c})
    case DrainBegin(d) =>   // with nothing owned the call is over at once
      s.(accepting := false, drains := if s.owned == {} then s.drains else s.drains[d := s.owned])
    case DrainEnd(d) => s.(owned := s.owned - s.drains[d], drains := s.drains - {d})
  }

  predicate StepAt(states: seq<State>, events: seq<Event>, i: int) {
    && 0 <= i < |events| && i + 1 < |states|
    && Enabled(states[i], events[i]) && states[i + 1] == Apply(states[i], events[i])
  }

  /** A run: one state more than events, each event enabled and applied. */
  ghost predicate Run(states: seq<State>, events: seq<Event>) {
    |states| == |events| + 1 && forall i | 0 <= i < |events| :: StepAt(states, events, i)
  }

  // ----- The invariant -----

  predicate At(s: State, k: Id, i: int, c: Id) {
    k in s.batches && 0 <= i < |s.batches[k]| && s.batches[k][i].coroutine == c
  }

  /** A deferred coroutine waits in one place of one batch, and nothing else waits; its closure captured the generation
      it was scheduled in. */
  ghost predicate WaitingSound(s: State) {
    && (forall c | c in s.fates && s.fates[c] == Deferred :: exists k, i :: At(s, k, i, c))
    && (forall k, i, c | At(s, k, i, c) :: c in s.fates && s.fates[c] == Deferred)
    && (forall c, k, i, l, j | At(s, k, i, c) && At(s, l, j, c) :: k == l && i == j)
    && (forall k, i, c | At(s, k, i, c) :: c in s.scheduledIn && s.scheduledIn[c] == s.batches[k][i].generation)
  }

  /** Running tasks are owned; what is owned, or in a drain's snapshot, was launched. */
  ghost predicate OwnedSound(s: State) {
    && (forall c | c in s.fates && s.fates[c] == Running :: c in s.owned)
    && (forall c | c in s.owned :: c in s.fates && s.fates[c] in {Running, Finished})
    && (forall d | d in s.drains :: forall c | c in s.drains[d] :: c in s.fates && s.fates[c] in {Running, Finished})
  }

  /** One waiting drain will join everything that is owned. */
  predicate DrainHolds(s: State, d: Id) {
    d in s.drains && s.owned <= s.drains[d]
  }

  /** While admission is closed, nothing is owned that no waiting drain has in its snapshot. */
  ghost predicate ClosedSound(s: State) {
    !s.accepting ==> s.owned == {} || exists d :: DrainHolds(s, d)
  }

  ghost predicate Sound(s: State) {
    WaitingSound(s) && OwnedSound(s)
  }

  ghost predicate Inv(s: State) {
    Sound(s) && ClosedSound(s)
  }

  predicate IsDeferred(s: State, c: Id) {
    c in s.fates && s.fates[c] == Deferred
  }

  /** Nothing changes about the waiting coroutines as long as the batches, and who is deferred, stay. */
  lemma SameWaiting(s: State, t: State)
    requires WaitingSound(s) && t.batches == s.batches
    requires forall c :: IsDeferred(t, c) <==> IsDeferred(s, c)
    requires forall c | IsDeferred(s, c) && c in s.scheduledIn ::
               c in t.scheduledIn && t.scheduledIn[c] == s.scheduledIn[c]
    ensures WaitingSound(t)
  {
    forall k, i, c ensures At(t, k, i, c) <==> At(s, k, i, c) {}
    forall c | c in t.fates && t.fates[c] == Deferred ensures exists k, i :: At(t, k, i, c) {
      assert IsDeferred(s, c);
      var k, i :| At(s, k, i, c);
      assert At(t, k, i, c);
    }
    forall k, i, c | At(t, k, i, c)
      ensures c in t.fates && t.fates[c] == Deferred
      ensures c in t.scheduledIn && t.scheduledIn[c] == t.batches[k][i].generation
    {
      assert At(s, k, i, c) && IsDeferred(s, c) && IsDeferred(t, c);
    }
  }

  ghost predicate DistinctCoroutines(entries: seq<Entry>) {
    forall i, j | 0 <= i < |entries| && 0 <= j < |entries| && entries[i].coroutine == entries[j].coroutine :: i == j
  }

  predicate InEntries(entries: seq<Entry>, c: Id) {
    exists i | 0 <= i < |entries| :: entries[i].coroutine == c
  }

  lemma InInit(entries: seq<Entry>, c: Id)
    requires entries != [] && DistinctCoroutines(entries)
    ensures var init, last := entries[..|entries| - 1], entries[|entries| - 1];
            && DistinctCoroutines(init) && !InEntries(init, last.coroutine) && InEntries(entries, last.coroutine)
            && (InEntries(entries, c) <==> InEntries(init, c) || c == last.coroutine)
  {
    var init := entries[..|entries| - 1];
    assert forall i | 0 <= i < |init| :: init[i] == entries[i];
  }

  lemma {:induction false} DispatchFrame(s: State, entries: seq<Entry>, committed: bool)
    requires DistinctCoroutines(entries)
    ensures var t := Dispatch(s, entries, committed);
            && t == s.(fates := t.fates, owned := t.owned)
            && (forall c | !InEntries(entries, c) ::
                  (c in t.fates <==> c in s.fates) && (c in s.fates ==> t.fates[c] == s.fates[c])
                  && (c in t.owned <==> c in s.owned))
  {
    if entries != [] {
      DispatchFrame(s, entries[..|entries| - 1], committed);
      forall c { InInit(entries, c); }
    }
  }

  /** Running a batch decides each of its coroutines by the state the batch started in, and nothing else changes. */
  lemma {:induction false} DispatchEffect(s: State, entries: seq<Entry>, committed: bool)
    requires DistinctCoroutines(entries)
    ensures var t := Dispatch(s, entries, committed);
            && t == s.(fates := t.fates, owned := t.owned)
            && (forall c | !InEntries(entries, c) ::
                  (c in t.fates <==> c in s.fates) && (c in s.fates ==> t.fates[c] == s.fates[c])
                  && (c in t.owned <==> c in s.owned))
            && (forall i | 0 <= i < |entries| :: Decided(s, t, entries[i], committed))
  {
    DispatchFrame(s, entries, committed);
    if entries != [] {
      var init, last := entries[..|entries| - 1], entries[|entries| - 1];
      InInit(entries, last.coroutine);
      DispatchFrame(s, init, committed);
      DispatchEffect(s, init, committed);
      var u, t := Dispatch(s, init, committed), Dispatch(s, entries, committed);
      assert t == Resolve(u, last, committed);
      forall i | 0 <= i < |entries| ensures Decided(s, t, entries[i], committed) {
        if i < |init| {
          assert entries[i] == init[i] && Decided(s, u, init[i], committed) && InEntries(init, init[i].coroutine);
        }
      }
    }
  }

  predicate Decided(s: State, t: State, e: Entry, committed: bool) {
    && e.coroutine in t.fates && t.fates[e.coroutine] == Verdict(s, e, committed)
    && (Verdict(s, e, committed) == Running ==> e.coroutine in t.owned)
    && (e.coroutine in t.owned ==> e.coroutine in s.owned || Verdict(s, e, committed) == Running)
  }

  lemma DeferKeepsSound(s: State, c: Id, k: Id)
    requires Sound(s) && c !in s.fates && s.accepting
    ensures Sound(Schedule(s, c, Some(k)))
  {
    var t := Schedule(s, c, Some(k));
    var n := |Batch(s, k)|;
    assert At(t, k, n, c);
    assert forall l, i, x | At(s, l, i, x) :: At(t, l, i, x) && x != c;
    assert forall l, i, x | At(t, l, i, x) :: At(s, l, i, x) || (l == k && i == n && x == c);
  }

  /** With no transaction open, an accepted coroutine is launched at once. */
  lemma ScheduleNow(s: State, c: Id)
    requires s.accepting
    ensures Schedule(s, c, None) == s.(fates := s.fates[c := Deferred][c := Running],
                                       scheduledIn := s.scheduledIn[c := s.generation], owned := s.owned + {c})
  {
    var u := s.(fates := s.fates[c := Deferred], scheduledIn := s.scheduledIn[c := s.generation]);
    var e := Entry(c, s.generation);
    assert Dispatch(u, [e], true) == Resolve(Dispatch(u, [], true), e, true);
  }

  lemma ScheduleKeepsSound(s: State, c: Id, scope: Option<Id>)
    requires Sound(s) && c !in s.fates
    ensures Sound(Schedule(s, c, scope))
  {
    if s.accepting && scope.Some? {
      DeferKeepsSound(s, c, scope.value);
    } else {
      var t := Schedule(s, c, scope);
      if s.accepting { ScheduleNow(s, c); }
      assert forall x :: IsDeferred(t, x) <==> IsDeferred(s, x);
      SameWaiting(s, t);
    }
  }

  lemma DetachKeepsSound(s: State, k: Id, j: Id)
    requires Sound(s) && Enabled(s, Detach(k, j))
    ensures Sound(Apply(s, Detach(k, j)))
  {
    var t := Apply(s, Detach(k, j));
    forall l, i, x | At(s, l, i, x) ensures At(t, if l == k then j else l, i, x) {
    }
    forall l, i, x | At(t, l, i, x) ensures At(s, if l == j then k else l, i, x) && l != k {
    }
  }

  lemma BatchDistinct(s: State, k: Id)
    requires WaitingSound(s)
    ensures DistinctCoroutines(Batch(s, k))
  {
    var entries := Batch(s, k);
    forall i, j | 0 <= i < |entries| && 0 <= j < |entries| && entries[i].coroutine == entries[j].coroutine
      ensures i == j
    {
      assert At(s, k, i, entries[i].coroutine) && At(s, k, j, entries[i].coroutine);
    }
  }

  /** What the end of a transaction does to the coroutines of its batch, and to no others. */
  lemma EndEffect(s: State, k: Id, committed: bool)
    requires Sound(s)
    ensures var t := Apply(s, EndTransaction(k, committed));
            && t == s.(fates := t.fates, owned := t.owned, batches := s.batches[k := []])
            && (forall i | 0 <= i < |Batch(s, k)| ::
                  var e := Batch(s, k)[i];
                  && e.coroutine in s.fates && s.fates[e.coroutine] == Deferred
                  && e.coroutine in s.scheduledIn && s.scheduledIn[e.coroutine] == e.generation
                  && e.coroutine in t.fates && t.fates[e.coroutine] == Verdict(s, e, committed)
                  && (e.coroutine in t.owned <==> t.fates[e.coroutine] == Running))
            && (forall c | !InEntries(Batch(s, k), c) ::
                  (c in t.fates <==> c in s.fates) && (c in s.fates ==> t.fates[c] == s.fates[c])
                  && (c in t.owned <==> c in s.owned))
  {
    BatchDistinct(s, k);
    var entries, u := Batch(s, k), s.(batches := s.batches[k := []]);
    DispatchEffect(u, entries, committed);
    var t := Apply(s, EndTransaction(k, committed));
    forall i | 0 <= i < |entries| ensures At(s, k, i, entries[i].coroutine) && Decided(u, t, entries[i], committed) {
    }
  }

  /** Only the ended batch stops waiting. */
  lemma EndWaiting(s: State, k: Id, committed: bool)
    requires Sound(s)
    ensures var t := Apply(s, EndTransaction(k, committed));
            forall l, i, x :: At(t, l, i, x) <==> At(s, l, i, x) && !InEntries(Batch(s, k), x)
  {
    EndEffect(s, k, committed);
    var entries, t := Batch(s, k), Apply(s, EndTransaction(k, committed));
    assert forall j | 0 <= j < |entries| :: At(s, k, j, entries[j].coroutine);
    forall l, i, x ensures At(t, l, i, x) <==> At(s, l, i, x) && !InEntries(entries, x) {
      if At(s, l, i, x) && l == k { assert entries[i].coroutine == x; }
    }
  }

  lemma EndKeepsSound(s: State, k: Id, committed: bool)
    requires Sound(s)
    ensures Sound(Apply(s, EndTransaction(k, committed)))
  {
    var entries, t := Batch(s, k), Apply(s, EndTransaction(k, committed));
    EndEffect(s, k, committed);
    EndWaiting(s, k, committed);
    forall c | c in t.fates && t.fates[c] == Deferred ensures exists l, i :: At(t, l, i, c) {
      assert !InEntries(entries, c);
      var l, i :| At(s, l, i, c);
      assert At(t, l, i, c);
    }
  }

  /** The events that leave every batch alone. */
  lemma QuietKeepsSound(s: State, e: Event)
    requires Sound(s) && Enabled(s, e)
    requires e.Start? || e.Finish? || e.ObserveCompletion? || e.DrainBegin? || e.DrainEnd?
    ensures Sound(Apply(s, e))
  {
    var t := Apply(s, e);
    assert forall x :: IsDeferred(t, x) <==> IsDeferred(s, x);
    SameWaiting(s, t);
  }

  /** While admission is closed, no event but a start takes on work, and only its own end removes a drain. */
  lemma ClosedOnlyShrinks(s: State, e: Event)
    requires Sound(s) && Enabled(s, e) && !s.accepting && e != Start
    ensures var t := Apply(s, e);
            && !t.accepting && t.owned <= s.owned
            && forall d | d in s.drains && e != DrainEnd(d) :: d in t.drains && t.drains[d] == s.drains[d]
  {
    match e
    case EndTransaction(k, committed) =>
      EndEffect(s, k, committed);
      forall x | x in Apply(s, e).owned ensures x in s.owned {
        assert !InEntries(Batch(s, k), x);
      }
    case _ =>
  }

  lemma AdmissionStays(s: State, e: Event)
    requires Sound(s) && Enabled(s, e) && e != Start && !e.DrainBegin?
    ensures Apply(s, e).accepting == s.accepting
  {
    match e
    case ScheduleTask(c, None) => if s.accepting { ScheduleNow(s, c); }
    case EndTransaction(k, committed) => EndEffect(s, k, committed);
    case _ =>
  }

  lemma StepKeepsClosed(s: State, e: Event)
    requires Inv(s) && Enabled(s, e)
    ensures ClosedSound(Apply(s, e))
  {
    var t := Apply(s, e);
    if e.DrainBegin? {
      assert s.owned != {} ==> DrainHolds(t, e.d);
    } else if !s.accepting && e != Start {
      ClosedOnlyShrinks(s, e);
      if d :| DrainHolds(s, d) {
        if e == DrainEnd(d) {
          assert t.owned == {};
        } else {
          assert DrainHolds(t, d);
        }
      }
    } else if e != Start {
      AdmissionStays(s, e);
    }
  }

  lemma StepKeepsInv(s: State, e: Event)
    requires Inv(s) && Enabled(s, e)
    ensures Inv(Apply(s, e))
  {
    StepKeepsClosed(s, e);
    match e
    case ScheduleTask(c, scope) => ScheduleKeepsSound(s, c, scope);
    case Detach(k, j) => DetachKeepsSound(s, k, j);
    case EndTransaction(k, committed) => EndKeepsSound(s, k, committed);
    case _ => QuietKeepsSound(s, e);
  }

  lemma {:induction false} RunKeepsInv(states: seq<State>, events: seq<Event>, n: nat)
    requires Run(states, events) && states[0] == INITIAL && n < |states|
    ensures Inv(states[n])
  {
    if n > 0 {
      RunKeepsInv(states, events, n - 1);
      assert StepAt(states, events, n - 1);
      StepKeepsInv(states[n - 1], events[n - 1]);
    }
  }

  // ----- What every run keeps -----

  predicate Launched(s: State, c: Id) {
    c in s.fates && s.fates[c] in {Running, Finished}
  }

  predicate IsClosed(s: State, c: Id) {
    c in s.fates && s.fates[c] == Closed
  }

  /** One event. A launch happens only at a commit, with admission open and in the generation of the scheduling;
      a rollback closes everything its transaction scheduled; and neither fate is ever undone. */
  lemma StepFates(s: State, e: Event, c: Id)
    requires Inv(s) && Enabled(s, e)
    ensures var t := Apply(s, e);
            && (Launched(s, c) ==> Launched(t, c))
            && (IsClosed(s, c) ==> IsClosed(t, c))
            && (Launched(t, c) && !Launched(s, c) ==>
                  && s.accepting && c in t.scheduledIn && t.scheduledIn[c] == s.generation
                  && (e == ScheduleTask(c, None) || (e.EndTransaction? && e.committed && InEntries(Batch(s, e.k), c))))
            && (e.EndTransaction? && InEntries(Batch(s, e.k), c) ==>
                  && (e.committed && s.accepting && s.scheduledIn[c] == s.generation ==> Launched(t, c))
                  && (!(e.committed && s.accepting && s.scheduledIn[c] == s.generation) ==> IsClosed(t, c)))
  {
    match e
    case ScheduleTask(d, scope) =>
      if s.accepting && scope.None? {
        ScheduleNow(s, d);
      }
    case EndTransaction(k, committed) =>
      EndEffect(s, k, committed);
      if InEntries(Batch(s, k), c) {
        var i :| 0 <= i < |Batch(s, k)| && Batch(s, k)[i].coroutine == c;
        assert Batch(s, k)[i].generation == s.scheduledIn[c];
      }
    case _ =>
  }

  /** The guarantees of one event, at position `j` of a run. */
  lemma RunStep(states: seq<State>, events: seq<Event>, j: nat, c: Id)
    requires Run(states, events) && states[0] == INITIAL && j < |events|
    ensures var s, e, t := states[j], events[j], states[j + 1];
            && (Launched(s, c) ==> Launched(t, c)) && (IsClosed(s, c) ==> IsClosed(t, c))
            && (Launched(t, c) && !Launched(s, c) ==>
                  && s.accepting && c in t.scheduledIn && t.scheduledIn[c] == s.generation
                  && (e == ScheduleTask(c, None) || (e.EndTransaction? && e.committed && InEntries(Batch(s, e.k), c))))
            && (e.EndTransaction? && InEntries(Batch(s, e.k), c) ==>
                  && c in s.scheduledIn
                  && (e.committed && s.accepting && s.scheduledIn[c] == s.generation ==> Launched(t, c))
                  && (!(e.committed && s.accepting && s.scheduledIn[c] == s.generation) ==> IsClosed(t, c)))
            && (c in s.fates ==> c in t.fates)
            && (c in s.fates && c in s.scheduledIn ==> c in t.scheduledIn && t.scheduledIn[c] == s.scheduledIn[c])
            && t.generation == (if e == Start then s.generation + 1 else s.generation)
            && t.accepting == (if e == Start then true else s.accepting && !e.DrainBegin?)
            && (!s.accepting && e != Start ==> t.owned <= s.owned)
  {
    RunKeepsInv(states, events, j);
    assert StepAt(states, events, j);
    var s, e := states[j], events[j];
    StepFates(s, e, c);
    if !s.accepting && e != Start { ClosedOnlyShrinks(s, e); }
    match e
    case EndTransaction(k, committed) => EndEffect(s, k, committed);
    case ScheduleTask(d, scope) =>
      if s.accepting && scope.None? {
        ScheduleNow(s, d);
      }
    case _ =>
  }

  /** Over any run, a coroutine that was launched is never closed, and one that was closed is never launched. */
  lemma {:induction false} OneFate(states: seq<State>, events: seq<Event>, i: nat, j: nat, c: Id)
    requires Run(states, events) && states[0] == INITIAL && i <= j < |states|
    ensures Launched(states[i], c) ==> Launched(states[j], c) && !IsClosed(states[j], c)
    ensures IsClosed(states[i], c) ==> IsClosed(states[j], c) && !Launched(states[j], c)
    decreases j
  {
    if i < j {
      OneFate(states, events, i, j - 1, c);
      RunStep(states, events, j - 1, c);
    }
  }

  /** The generation a coroutine was accepted in never changes, and the process only moves on. */
  lemma {:induction false} StampStays(states: seq<State>, events: seq<Event>, i: nat, j: nat, c: Id)
    requires Run(states, events) && states[0] == INITIAL && i <= j < |states|
    requires c in states[i].scheduledIn && c in states[i].fates
    ensures c in states[j].scheduledIn && states[j].scheduledIn[c] == states[i].scheduledIn[c] && c in states[j].fates
    ensures states[i].generation <= states[j].generation
    decreases j
  {
    if i < j {
      StampStays(states, events, i, j - 1, c);
      RunStep(states, events, j - 1, c);
    }
  }

  /** A coroutine scheduled before a restart and not yet launched is never launched after it. */
  lemma {:induction false} NoLaunchAcrossRestart(states: seq<State>, events: seq<Event>, i: nat, j: nat, c: Id)
    requires Run(states, events) && states[0] == INITIAL && i <= j < |states|
    requires c in states[i].scheduledIn && c in states[i].fates && states[i].scheduledIn[c] < states[i].generation
    ensures Launched(states[j], c) ==> Launched(states[i], c)
    decreases j
  {
    if i < j {
      NoLaunchAcrossRestart(states, events, i, j - 1, c);
      StampStays(states, events, i, j - 1, c);
      RunStep(states, events, j - 1, c);
    }
  }

  /** Once its transaction has ended, every scheduled coroutine has been launched or closed. */
  lemma NothingLost(s: State)
    requires Inv(s) && forall k | k in s.batches :: s.batches[k] == []
    ensures forall c | c in s.fates :: Launched(s, c) || IsClosed(s, c)
  {
  }

  // ----- Draining -----

  ghost predicate NoStart(events: seq<Event>, i: nat, j: nat) {
    forall m | i <= m < j && m < |events| :: events[m] != Start
  }

  /** The call `d` that began at position `i` is still waiting in state `j`. */
  ghost predicate Waiting(states: seq<State>, events: seq<Event>, i: nat, j: nat, d: Id)
    requires |states| == |events| + 1
  {
    && i < j < |states| && events[i] == DrainBegin(d) && states[i].owned != {}
    && forall m | i < m < j :: events[m] != DrainEnd(d)
  }

  /** The call `d` that began at position `i` has returned when state `j` is reached: at once, or by its end event. */
  ghost predicate Returned(states: seq<State>, events: seq<Event>, i: nat, j: nat, d: Id)
    requires |states| == |events| + 1
  {
    && i < j < |states| && events[i] == DrainBegin(d)
    && if states[i].owned == {} then j == i + 1
       else events[j - 1] == DrainEnd(d) && Waiting(states, events, i, j - 1, d)
  }

  /** While a drain waits and nobody restarts, admission stays closed and what is owned stays within its snapshot. */
  lemma {:induction false} DrainWindow(states: seq<State>, events: seq<Event>, i: nat, j: nat, d: Id)
    requires Run(states, events) && states[0] == INITIAL
    requires Waiting(states, events, i, j, d) && NoStart(events, i, j)
    ensures !states[j].accepting && d in states[j].drains && states[j].owned <= states[j].drains[d]
    decreases j
  {
    assert StepAt(states, events, i);
    if i + 1 < j {
      DrainWindow(states, events, i, j - 1, d);
      RunStep(states, events, j - 1, 0);
      DrainsKept(states, events, j - 1, d);
    }
  }

  lemma DrainsKept(states: seq<State>, events: seq<Event>, j: nat, d: Id)
    requires Run(states, events) && states[0] == INITIAL && j < |events| && d in states[j].drains
    ensures events[j] != DrainEnd(d) ==>
              d in states[j + 1].drains && states[j + 1].drains[d] == states[j].drains[d]
  {
    RunKeepsInv(states, events, j);
    assert StepAt(states, events, j);
    match events[j]
    case EndTransaction(k, committed) => EndEffect(states[j], k, committed);
    case ScheduleTask(c, scope) => if states[j].accepting && scope.None? { ScheduleNow(states[j], c); }
    case _ =>
  }

  /** Whatever restarts came before: with admission closed and no drain waiting, nothing is owned and nothing runs. */
  lemma ClosedAndNotDraining(states: seq<State>, events: seq<Event>, n: nat)
    requires Run(states, events) && states[0] == INITIAL && n < |states|
    requires !states[n].accepting && states[n].drains == map[]
    ensures states[n].owned == {}
    ensures forall c | c in states[n].fates :: states[n].fates[c] != Running
  {
    RunKeepsInv(states, events, n);
    assert forall d :: !DrainHolds(states[n], d);
    RunningIsOwned(states, events, n);
  }

  lemma RunningIsOwned(states: seq<State>, events: seq<Event>, n: nat)
    requires Run(states, events) && states[0] == INITIAL && n < |states|
    ensures forall c | c in states[n].fates && states[n].fates[c] == Running :: c in states[n].owned
  {
    RunKeepsInv(states, events, n);
  }

  /** When a drain returns, and from then until the next start, nothing is owned and no launched work is running. */
  lemma {:induction false} DrainLeavesNothing(states: seq<State>, events: seq<Event>, i: nat, j: nat, n: nat, d: Id)
    requires Run(states, events) && states[0] == INITIAL
    requires Returned(states, events, i, j, d) && j <= n < |states| && NoStart(events, i, n)
    ensures !states[n].accepting && states[n].owned == {}
    ensures forall c | c in states[n].fates :: states[n].fates[c] != Running
    decreases n
  {
    assert StepAt(states, events, i) && StepAt(states, events, j - 1);
    if j < n {
      DrainLeavesNothing(states, events, i, j, n - 1, d);
      RunStep(states, events, n - 1, 0);
    } else if states[i].owned != {} {
      DrainWindow(states, events, i, j - 1, d);
    }
    RunningIsOwned(states, events, n);
  }

  // ----- Draining while others restart -----

  /** The event takes `c` out of the owned set: its completion is observed, or a drain that joined it returns. */
  predicate Releases(s: State, e: Event, c: Id) {
    e == ObserveCompletion(c) || (e.DrainEnd? && e.d in s.drains && c in s.drains[e.d])
  }

  lemma StepOwned(s: State, e: Event, c: Id)
    requires Inv(s) && Enabled(s, e)
    ensures var t := Apply(s, e);
            c in t.owned <==> (c in s.owned || (Launched(t, c) && !Launched(s, c))) && !Releases(s, e, c)
  {
    match e
    case EndTransaction(k, committed) => EndEffect(s, k, committed);
    case ScheduleTask(d, scope) => if s.accepting && scope.None? { ScheduleNow(s, d); }
    case _ =>
  }

  /** `c` was launched between states `i` and `j`, and nothing has taken it out of the owned set since. */
  ghost predicate LaunchedAndKept(states: seq<State>, events: seq<Event>, i: nat, j: nat, c: Id)
    requires |states| == |events| + 1 && i <= j < |states|
  {
    && Launched(states[j], c) && !Launched(states[i], c)
    && forall m | i <= m < j :: !Releases(states[m], events[m], c)
  }

  /** What one event at position `j` of a run does to the ownership of `c`. */
  lemma RunOwned(states: seq<State>, events: seq<Event>, j: nat, c: Id)
    requires Run(states, events) && states[0] == INITIAL && j < |events|
    ensures var s, e, t := states[j], events[j], states[j + 1];
            && (c in t.owned <==> (c in s.owned || (Launched(t, c) && !Launched(s, c))) && !Releases(s, e, c))
            && (Releases(s, e, c) ==> Launched(s, c))
  {
    RunKeepsInv(states, events, j);
    assert StepAt(states, events, j);
    StepOwned(states[j], events[j], c);
  }

  lemma OwnedIsLaunched(states: seq<State>, events: seq<Event>, n: nat, c: Id)
    requires Run(states, events) && states[0] == INITIAL && n < |states|
    ensures c in states[n].owned ==> Launched(states[n], c)
  {
    RunKeepsInv(states, events, n);
  }

  /** Only launched work is released. */
  lemma NeverReleased(states: seq<State>, events: seq<Event>, i: nat, j: nat, c: Id)
    requires Run(states, events) && states[0] == INITIAL && i <= j < |states| && !Launched(states[j], c)
    ensures forall m | i <= m < j :: !Releases(states[m], events[m], c)
  {
    forall m | i <= m < j ensures !Releases(states[m], events[m], c) {
      RunOwned(states, events, m, c);
      OneFate(states, events, m, j, c);
    }
  }

  /** What was launched by state `i` and is owned later was owned then. */
  lemma {:induction false} OwnedBefore(states: seq<State>, events: seq<Event>, i: nat, j: nat, c: Id)
    requires Run(states, events) && states[0] == INITIAL && i <= j < |states|
    requires Launched(states[i], c) && c in states[j].owned
    ensures c in states[i].owned
    decreases j
  {
    if i < j {
      OneFate(states, events, i, j - 1, c);
      RunOwned(states, events, j - 1, c);
      OwnedBefore(states, events, i, j - 1, c);
    }
  }

  /** What was not launched by state `i` is owned later exactly when it has been launched and not released since. */
  lemma {:induction false} OwnedSince(states: seq<State>, events: seq<Event>, i: nat, j: nat, c: Id)
    requires Run(states, events) && states[0] == INITIAL && i <= j < |states| && !Launched(states[i], c)
    ensures c in states[j].owned <==> LaunchedAndKept(states, events, i, j, c)
    decreases j
  {
    if i == j {
      OwnedIsLaunched(states, events, i, c);
    } else {
      OwnedSince(states, events, i, j - 1, c);
      RunOwned(states, events, j - 1, c);
      OneFate(states, events, j - 1, j, c);
      if !Launched(states[j - 1], c) {
        NeverReleased(states, events, i, j - 1, c);
      }
    }
  }

  /** The snapshot of a waiting drain is what was owned when it began. */
  lemma {:induction false} SnapshotKept(states: seq<State>, events: seq<Event>, i: nat, j: nat, d: Id)
    requires Run(states, events) && states[0] == INITIAL && Waiting(states, events, i, j, d)
    ensures d in states[j].drains && states[j].drains[d] == states[i].owned
    decreases j
  {
    assert StepAt(states, events, i);
    if i + 1 < j {
      SnapshotKept(states, events, i, j - 1, d);
      DrainsKept(states, events, j - 1, d);
    }
  }

  /** A drain that returns leaves nothing owned exactly when nothing was launched while it waited, or whatever was
      has been released in the meantime. */
  lemma DrainEmptiesIff(states: seq<State>, events: seq<Event>, i: nat, j: nat, d: Id)
    requires Run(states, events) && states[0] == INITIAL && Returned(states, events, i, j, d)
    ensures states[j].owned == {} <==> forall c :: !LaunchedAndKept(states, events, i, j, c)
  {
    forall c ensures c in states[j].owned <==> LaunchedAndKept(states, events, i, j, c) {
      if Launched(states[i], c) {
        DrainTakes(states, events, i, j, d, c);
      } else {
        OwnedSince(states, events, i, j, c);
      }
    }
    assert (forall c :: c !in states[j].owned) ==> states[j].owned == {};
  }

  /** A drain that returns leaves owned nothing that had been launched when it began. */
  lemma DrainTakes(states: seq<State>, events: seq<Event>, i: nat, j: nat, d: Id, c: Id)
    requires Run(states, events) && states[0] == INITIAL && Returned(states, events, i, j, d)
    requires Launched(states[i], c)
    ensures c !in states[j].owned
  {
    assert StepAt(states, events, j - 1);
    if c in states[j].owned {
      OwnedBefore(states, events, i, j, c);
      SnapshotKept(states, events, i, j - 1, d);
    }
  }

  // ----- A restart while a drain waits -----

  const RESTART_EVENTS :=
    [ScheduleTask(7, None), DrainBegin(0), Start, ScheduleTask(1, None), Finish(7), DrainEnd(0)]

  /** The states of that run, from the second to the last but one. */
  const RESTARTED_1 := State(true, 0, {7}, map[7 := Running], map[7 := 0], map[], map[])
  const RESTARTED_2 := State(false, 0, {7}, map[7 := Running], map[7 := 0], map[], map[0 := {7}])
  const RESTARTED_3 := State(true, 1, {7}, map[7 := Running], map[7 := 0], map[], map[0 := {7}])
  const RESTARTED_4 := State(true, 1, {7, 1}, map[7 := Running, 1 := Running], map[7 := 0, 1 := 1], map[],
                             map[0 := {7}])
  const RESTARTED_5 := State(true, 1, {7, 1}, map[7 := Finished, 1 := Running], map[7 := 0, 1 := 1], map[],
                             map[0 := {7}])

  lemma RestartSteps()
    ensures Apply(INITIAL, RESTART_EVENTS[0]) == RESTARTED_1
    ensures Enabled(RESTARTED_1, RESTART_EVENTS[1]) && Apply(RESTARTED_1, RESTART_EVENTS[1]) == RESTARTED_2
    ensures Apply(RESTARTED_2, RESTART_EVENTS[2]) == RESTARTED_3
  {
    ScheduleNow(INITIAL, 7);
  }

  lemma RestartLaunches()
    ensures Enabled(RESTARTED_3, RESTART_EVENTS[3]) && Apply(RESTARTED_3, RESTART_EVENTS[3]) == RESTARTED_4
    ensures Enabled(RESTARTED_4, RESTART_EVENTS[4]) && Apply(RESTARTED_4, RESTART_EVENTS[4]) == RESTARTED_5
  {
    ScheduleNow(RESTARTED_3, 1);
  }

  /** A restart while a drain waits can leave work behind, so the condition cannot be dropped. */
  lemma RestartDuringDrain() returns (states: seq<State>)
    ensures Run(states, RESTART_EVENTS) && states[0] == INITIAL && Returned(states, RESTART_EVENTS, 1, 6, 0)
    ensures states[6].owned == {1} && 1 in states[6].fates && states[6].fates[1] == Running
  {
    RestartSteps();
    RestartLaunches();
    var last := Apply(RESTARTED_5, RESTART_EVENTS[5]);
    states := [INITIAL, RESTARTED_1, RESTARTED_2, RESTARTED_3, RESTARTED_4, RESTARTED_5, last];
    forall i | 0 <= i < 6 ensures StepAt(states, RESTART_EVENTS, i) {
    }
  }
}
