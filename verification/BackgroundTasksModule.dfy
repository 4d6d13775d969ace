/** The module-level functions of engine/app/api/background_tasks.py and the completion batches of
    engine/app/db/session.py, on the state they share. Each performs the step `BackgroundTasks` gives for it. */
module BackgroundTasksModule {
  import opened Results
  import opened BackgroundTasks

  class Tasks {
    var tasks: set<Id>
    var accepting: bool
    var generation: nat
    var fates: map<Id, Fate>
    var scheduledIn: map<Id, nat>
    var batches: map<Id, seq<Entry>>
    var snapshots: map<Id, set<Id>>

    ghost function View(): State
      reads this
    {
      State(accepting, generation, tasks, fates, scheduledIn, batches, snapshots)
    }

    constructor ()
      ensures View() == INITIAL
    {
      tasks, accepting, generation := {}, true, 0;
      fates, scheduledIn, batches, snapshots := map[], map[], map[], map[];
    }

    method StartBackgroundTasks()
      modifies this
      ensures View() == Apply(old(View()), Start)
    {
      generation := generation + 1;
      accepting := true;
    }

    method Reject(c: Id)
      modifies this`fates
      ensures fates == old(fates)[c := Closed]
    {
      fates := fates[c := Closed];
    }

    method Launch(e: Entry)
      modifies this
      ensures View() == Resolve(old(View()), e, true)
    {
      if !accepting || e.generation != generation {
        Reject(e.coroutine);
        return;
      }
      fates := fates[e.coroutine := Running];
      tasks := tasks + {e.coroutine};
    }

    method Drop(e: Entry)
      modifies this
      ensures View() == Resolve(old(View()), e, false)
    {
      fates := fates[e.coroutine := Closed];
    }

    method DispatchCompletion(entries: seq<Entry>, committed: bool)
      modifies this
      ensures View() == Dispatch(old(View()), entries, committed)
    {
      for i := 0 to |entries|
        invariant View() == Dispatch(old(View()), entries[..i], committed)
      {
        assert entries[..i + 1][..i] == entries[..i];
        if committed {
          Launch(entries[i]);
        } else {
          Drop(entries[i]);
        }
      }
      assert entries[..|entries|] == entries;
    }

    /** Runs the callback at once outside a transaction; otherwise leaves it to the transaction's batch. */
    method RunAfterCommit(e: Entry, scope: Option<Id>)
      modifies this
      ensures scope == None ==> View() == Dispatch(old(View()), [e], true)
      ensures scope.Some? ==>
                var s := old(View());
                View() == s.(batches := s.batches[scope.value := Batch(s, scope.value) + [e]])
    {
      match scope
      case None => DispatchCompletion([e], true);
      case Some(k) =>
        var batch := if k in batches then batches[k] else [];
        batches := batches[k := batch + [e]];
    }

    method ScheduleBackgroundTask(c: Id, scope: Option<Id>)
      requires c !in fates
      modifies this
      ensures View() == Apply(old(View()), ScheduleTask(c, scope))
      ensures !old(accepting) ==> fates == old(fates)[c := Closed] && batches == old(batches)
      ensures old(accepting) && scope.Some? ==>
                && fates == old(fates)[c := Deferred] && tasks == old(tasks)
                && batches == old(batches)[scope.value := (if scope.value in old(batches) then old(batches)[scope.value]
                                                           else []) + [Entry(c, generation)]]
      ensures old(accepting) && scope.None? ==> c in fates && fates[c] == Running && c in tasks
    {
      if !accepting {
        Reject(c);
        return;
      }
      fates := fates[c := Deferred];
      scheduledIn := scheduledIn[c := generation];
      if scope.None? { ScheduleNow(old(View()), c); }
      RunAfterCommit(Entry(c, generation), scope);
    }

    /** The commit of one transaction: its callbacks are taken from the batch first, so that later ones stay behind. */
    method CommitAndFlush(scope: Id, flight: Id, succeeds: bool)
      requires Enabled(View(), Detach(scope, flight))
      modifies this
      ensures View() == Apply(Apply(old(View()), Detach(scope, flight)), EndTransaction(flight, succeeds))
    {
      var pending := if scope in batches then batches[scope] else [];
      batches := batches[flight := pending][scope := []];
      assert View() == Apply(old(View()), Detach(scope, flight));
      batches := batches[flight := []];
      DispatchCompletion(pending, succeeds);
    }

    /** What is left in the batch when the transaction scope exits counts as rolled back. */
    method ExitScope(scope: Id)
      modifies this
      ensures View() == Apply(old(View()), EndTransaction(scope, false))
    {
      var pending := if scope in batches then batches[scope] else [];
      batches := batches[scope := []];
      DispatchCompletion(pending, false);
    }

    method CompletionObserved(c: Id)
      requires Enabled(View(), ObserveCompletion(c))
      modifies this
      ensures View() == Apply(old(View()), ObserveCompletion(c))
    {
      tasks := tasks - {c};
    }

    /** `drain_background_tasks` up to its wait; `d` names the call, and with nothing owned it is over here. */
    method BeginDrain(d: Id) returns (waits: bool)
      requires Enabled(View(), DrainBegin(d))
      modifies this
      ensures View() == Apply(old(View()), DrainBegin(d))
      ensures waits <==> d in snapshots
    {
      accepting := false;
      if tasks == {} {
        return false;
      }
      snapshots := snapshots[d := tasks];
      return true;
    }

    /** The second half, once every task of the snapshot has been joined. */
    method EndDrain(d: Id)
      requires Enabled(View(), DrainEnd(d))
      modifies this
      ensures View() == Apply(old(View()), DrainEnd(d))
    {
      var joined := snapshots[d];
      snapshots := snapshots - {d};
      tasks := tasks - joined;
    }
  }
}
