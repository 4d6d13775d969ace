/** _SerialPatchQueue (engine/app/api/feishu.py, lines 225-246): a chain of tasks, each awaiting the task that was the
    tail when it was enqueued. The event loop may resume any task whose await is over, in any order. */
module PatchQueue {
  import opened Results

  /** `Done` carries whether the job's exception left the runner. */
  datatype Phase = Waiting | Running | Done(raised: bool)

  datatype Runner = Runner(prev: Option<nat>, phase: Phase)

  datatype Mark = Started(job: nat) | Finished(job: nat)

  datatype State = State(runners: seq<Runner>, tail: Option<nat>, log: seq<Mark>)

  datatype Event = Enqueue | Start(i: nat) | Finish(i: nat, raised: bool)

  const EMPTY := State([], None, [])

  predicate IsDone(s: State, i: int) {
    0 <= i < |s.runners| && s.runners[i].phase.Done?
  }

  predicate Enabled(s: State, e: Event) {
    match e
    case Enqueue => true
    case Start(i) =>
      && i < |s.runners| && s.runners[i].phase.Waiting?
      && (s.runners[i].prev.Some? ==> IsDone(s, s.runners[i].prev.value))
    case Finish(i, _) => i < |s.runners| && s.runners[i].phase.Running?
  }

  function Step(s: State, e: Event): State
    requires Enabled(s, e)
  {
    match e
    case Enqueue =>
      s.(runners := s.runners + [Runner(s.tail, Waiting)], tail := Some(|s.runners|))
    case Start(i) =>
      s.(runners := s.runners[i := s.runners[i].(phase := Running)], log := s.log + [Started(i)])
    case Finish(i, raised) =>
      s.(runners := s.runners[i := s.runners[i].(phase := Done(raised))], log := s.log + [Finished(i)])
  }

  // ----- What every run keeps -----

  /** The log of `n` jobs run one after the other in order. */
  function SerialLog(n: nat): seq<Mark> {
    if n == 0 then [] else SerialLog(n - 1) + [Started(n - 1), Finished(n - 1)]
  }

  ghost predicate Chained(s: State) {
    && s.tail == (if s.runners == [] then None else Some(|s.runners| - 1))
    && forall i | 0 <= i < |s.runners| :: s.runners[i].prev == if i == 0 then None else Some(i - 1)
  }

  /** Exactly the first `k` jobs are over, at most job `k` is running, and the log says they ran one by one. */
  ghost predicate Serial(s: State, k: nat) {
    && k <= |s.runners|
    && (forall i | 0 <= i < k :: s.runners[i].phase.Done?)
    && (forall i | k < i < |s.runners| :: s.runners[i].phase.Waiting?)
    && (k < |s.runners| ==> !s.runners[k].phase.Done?)
    && s.log == SerialLog(k) + if k < |s.runners| && s.runners[k].phase.Running? then [Started(k)] else []
  }

  ghost predicate Inv(s: State) {
    Chained(s) && exists k: nat :: Serial(s, k)
  }

  /** How many jobs are over after the event. */
  function Over(k: nat, e: Event): nat {
    if e.Finish? then k + 1 else k
  }

  lemma OnlyHeadMoves(s: State, k: nat, e: Event)
    requires Chained(s) && Serial(s, k) && Enabled(s, e)
    ensures e.Start? ==> e.i == k
    ensures e.Finish? ==> e.i == k
  {
  }

  lemma StepKeepsSerial(s: State, k: nat, e: Event)
    requires Chained(s) && Serial(s, k) && Enabled(s, e)
    ensures Chained(Step(s, e)) && Serial(Step(s, e), Over(k, e))
  {
    OnlyHeadMoves(s, k, e);
  }

  ghost predicate Run(states: seq<State>, events: seq<Event>) {
    && |states| == |events| + 1 && states[0] == EMPTY
    && forall i | 0 <= i < |events| :: Enabled(states[i], events[i]) && states[i + 1] == Step(states[i], events[i])
  }

  lemma {:induction false} RunKeepsInv(states: seq<State>, events: seq<Event>, n: nat)
    requires Run(states, events) && n < |states|
    ensures Inv(states[n])
  {
    if n == 0 {
      assert Serial(EMPTY, 0);
    } else {
      RunKeepsInv(states, events, n - 1);
      var k: nat :| Serial(states[n - 1], k);
      StepKeepsSerial(states[n - 1], k, events[n - 1]);
    }
  }

  lemma {:induction false} SerialLogAt(n: nat, i: nat)
    requires i < n
    ensures |SerialLog(n)| == 2 * n
    ensures SerialLog(n)[2 * i] == Started(i) && SerialLog(n)[2 * i + 1] == Finished(i)
  {
    if n > 1 { SerialLogAt(n - 1, if i < n - 1 then i else 0); }
  }

  /** In every run the log starts job 0, finishes job 0, starts job 1 and so on: enqueue order, no two jobs at once. */
  lemma RunsInOrder(states: seq<State>, events: seq<Event>, n: nat, i: nat)
    requires Run(states, events) && n < |states| && i < |states[n].log|
    ensures states[n].log[i] == if i % 2 == 0 then Started(i / 2) else Finished(i / 2)
  {
    RunKeepsInv(states, events, n);
    var s := states[n];
    var k: nat :| Serial(s, k);
    if k > 0 { SerialLogAt(k, if i / 2 < k then i / 2 else 0); }
    assert i / 2 <= k;
  }

  /** Whatever earlier jobs did, the first job that is not over is running or may start: a failure blocks nothing. */
  lemma NothingBlocks(s: State)
    requires Inv(s)
    ensures (forall i | 0 <= i < |s.runners| :: IsDone(s, i))
            || exists k | 0 <= k < |s.runners| :: Enabled(s, Start(k)) || s.runners[k].phase.Running?
  {
  }

  /** drain awaits the tail of the moment it is called; it ends when that task does. */
  predicate DrainOver(s: State, awaited: Option<nat>) {
    awaited.Some? ==> IsDone(s, awaited.value)
  }

  lemma {:induction false} RunnersGrow(states: seq<State>, events: seq<Event>, m: nat, n: nat)
    requires Run(states, events) && m <= n < |states|
    ensures |states[m].runners| <= |states[n].runners|
  {
    if m < n { RunnersGrow(states, events, m, n - 1); }
  }

  /** A drain called in state `m` is over in state `n` exactly when every job enqueued before the call has finished. */
  lemma DrainWaitsForAll(states: seq<State>, events: seq<Event>, m: nat, n: nat)
    requires Run(states, events) && m <= n < |states|
    ensures DrainOver(states[n], states[m].tail) <==>
            forall i | 0 <= i < |states[m].runners| :: IsDone(states[n], i)
  {
    RunKeepsInv(states, events, m);
    RunKeepsInv(states, events, n);
    RunnersGrow(states, events, m, n);
    var k: nat :| Serial(states[n], k);
    assert forall i | 0 <= i < |states[n].runners| :: IsDone(states[n], i) <==> i < k;
  }

  // ----- The class -----

  class SerialPatchQueue {
    var tail: Option<nat>
    /** The tasks the queue has created, in the event loop's hands. */
    var runners: seq<Runner>
    ghost var log: seq<Mark>

    ghost function View(): State
      reads this
    {
      State(runners, tail, log)
    }

    constructor ()
      ensures View() == EMPTY
    {
      tail, runners, log := None, [], [];
    }

    method Enqueue()
      modifies this
      ensures View() == Step(old(View()), Event.Enqueue)
    {
      var prev := tail;
      tail := Some(|runners|);
      runners := runners + [Runner(prev, Waiting)];
    }

    /** A task is resumed: past its await the exception of the previous task has been swallowed and the job begins. */
    method Resume(i: nat) returns (started: bool)
      requires Chained(View()) && i < |runners| && runners[i].phase.Waiting?
      modifies this
      ensures started <==> Enabled(old(View()), Start(i))
      ensures View() == if started then Step(old(View()), Start(i)) else old(View())
    {
      var prev := runners[i].prev;
      if prev.Some? && !runners[prev.value].phase.Done? {
        return false;
      }
      runners := runners[i := runners[i].(phase := Running)];
      log := log + [Started(i)];
      return true;
    }

    method Complete(i: nat, raised: bool)
      requires i < |runners| && runners[i].phase.Running?
      modifies this
      ensures View() == Step(old(View()), Finish(i, raised))
    {
      runners := runners[i := runners[i].(phase := Done(raised))];
      log := log + [Finished(i)];
    }

    /** `awaited` is the tail when drain was called; only that task's own exception reaches the caller. */
    method Drain(awaited: Option<nat>) returns (over: bool, raised: bool)
      requires awaited.Some? ==> awaited.value < |runners|
      ensures over <==> DrainOver(View(), awaited)
      ensures raised <==> awaited.Some? && IsDone(View(), awaited.value) && runners[awaited.value].phase.raised
    {
      if awaited.None? {
        return true, false;
      }
      if runners[awaited.value].phase.Done? {
        return true, runners[awaited.value].phase.raised;
      }
      return false, false;
    }
  }
}
