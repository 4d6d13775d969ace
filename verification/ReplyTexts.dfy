/** What the cards of a streamed reply contain, and when they are queued, read off the callbacks alone
    (engine/app/api/feishu.py, lines 950-1116). */
module ReplyTexts {
  import opened Results
  import opened StreamingReply

  // ----- The texts and lines that a list of callbacks amounts to -----

  function AnswerText(events: seq<Event>): string {
    if events == [] then ""
    else
      var last := events[|events| - 1];
      AnswerText(events[..|events| - 1]) + if last.OnChunk? then last.text else ""
  }

  function ThinkingText(events: seq<Event>): string {
    if events == [] then ""
    else
      var last := events[|events| - 1];
      ThinkingText(events[..|events| - 1]) + if last.OnThinking? then last.text else ""
  }

  function NameGiven(name: string): string {
    if name == "" then "unknown_tool" else name
  }

  function KeyGiven(callId: string, name: string): string {
    if callId != "" then callId else NameGiven(name)
  }

  /** The tool started last. */
  function LastTool(events: seq<Event>): Option<RunningTool> {
    if events == [] then None
    else
      var last := events[|events| - 1];
      if last.OnToolRunning? then Some(RunningTool(KeyGiven(last.callId, last.name), NameGiven(last.name)))
      else LastTool(events[..|events| - 1])
  }

  /** One line for each tool that is done. */
  function DoneLines(events: seq<Event>): seq<string> {
    if events == [] then []
    else
      var init, last := events[..|events| - 1], events[|events| - 1];
      if !last.OnToolDone? || LastTool(init).None? then DoneLines(init)
      else
        var name := LastTool(init).value.name;
        DoneLines(init) + [(if last.failed then "\U{274C} Tool failed: `" else "\U{2705} Tool done: `") + name + "`"]
  }

  // ----- The dictionary of running tools -----

  predicate KeyAt(running: seq<RunningTool>, i: int, id: string) {
    0 <= i < |running| && running[i].id == id
  }

  /** An assignment: in place for a known key, at the end for a new one. */
  ghost predicate Assigned(before: seq<RunningTool>, tool: RunningTool, after: seq<RunningTool>) {
    || (exists i :: KeyAt(before, i, tool.id) && after == before[i := tool])
    || (after == before + [tool] && forall i :: !KeyAt(before, i, tool.id))
  }

  /** A removal, if the key is there. */
  ghost predicate Removed(before: seq<RunningTool>, id: string, after: seq<RunningTool>) {
    || (exists i :: KeyAt(before, i, id) && after == before[..i] + before[i + 1..])
    || (after == before && forall i :: !KeyAt(before, i, id))
  }

  lemma {:induction false} PutAssigns(running: seq<RunningTool>, id: string, name: string)
    ensures Assigned(running, RunningTool(id, name), Put(running, id, name))
  {
    var tool := RunningTool(id, name);
    if running == [] {
      assert Put(running, id, name) == running + [tool];
    } else if running[0].id == id {
      assert KeyAt(running, 0, id) && Put(running, id, name) == running[0 := tool];
    } else {
      var rest := running[1..];
      PutAssigns(rest, id, name);
      if i :| KeyAt(rest, i, id) && Put(rest, id, name) == rest[i := tool] {
        assert KeyAt(running, i + 1, id) && Put(running, id, name) == running[i + 1 := tool];
      } else {
        forall i ensures !KeyAt(running, i, id) {
          assert !KeyAt(rest, i - 1, id);
        }
        assert Put(running, id, name) == running + [tool];
      }
    }
  }

  lemma RemoveBehind(running: seq<RunningTool>, i: nat)
    requires i + 1 < |running|
    ensures var rest := running[1..];
            [running[0]] + (rest[..i] + rest[i + 1..]) == running[..i + 1] + running[i + 2..]
  {
  }

  lemma {:induction false} PopRemoves(running: seq<RunningTool>, id: string)
    ensures Removed(running, id, Pop(running, id))
  {
    if running == [] {
    } else if running[0].id == id {
      assert KeyAt(running, 0, id) && Pop(running, id) == running[..0] + running[1..];
    } else {
      var rest := running[1..];
      PopRemoves(rest, id);
      if i :| KeyAt(rest, i, id) && Pop(rest, id) == rest[..i] + rest[i + 1..] {
        RemoveBehind(running, i);
        assert KeyAt(running, i + 1, id);
      } else {
        forall i ensures !KeyAt(running, i, id) {
          assert !KeyAt(rest, i - 1, id);
        }
      }
    }
  }

  /** Tools enter the dictionary when they start and leave it when they are done; nothing else touches it. */
  lemma RunningToolsFollow(hash: string -> int, messageId: Option<string>, states: seq<State>, events: seq<Event>,
                           n: nat)
    requires Run(hash, messageId, states, events) && n < |events|
    ensures states[0].running == []
    ensures var e, before, after := events[n], states[n].running, states[n + 1].running;
            if e.OnToolRunning? then
              Assigned(before, RunningTool(KeyGiven(e.callId, e.name), NameGiven(e.name)), after)
            else if e.OnToolDone? then
              LastTool(events[..n]).Some? && Removed(before, LastTool(events[..n]).value.id, after)
            else after == before
  {
    assert StepAt(hash, states, events, n);
    var s, e := states[n], events[n];
    TextsFollow(hash, messageId, states, events, n);
    if e.OnToolRunning? { PutAssigns(s.running, KeyGiven(e.callId, e.name), NameGiven(e.name)); }
    if e.OnToolDone? { PopRemoves(s.running, s.call.id); }
  }

  // ----- The buffers -----

  /** The tool under way is the one started last. */
  predicate CallIsLast(s: State, events: seq<Event>) {
    s.call.Executing? ==> LastTool(events) == Some(RunningTool(s.call.id, s.call.name))
  }

  /** In every run the answer is what the chunks say and the thinking what the thinking callbacks say, each in order,
      and the finished lines are those of the tools that are done. */
  lemma {:induction false} TextsFollow(hash: string -> int, messageId: Option<string>, states: seq<State>,
                                       events: seq<Event>, n: nat)
    requires Run(hash, messageId, states, events) && n < |states|
    ensures states[n].answer == AnswerText(events[..n])
    ensures states[n].thinking == ThinkingText(events[..n])
    ensures states[n].finished == DoneLines(events[..n])
    ensures states[n].messageId == messageId && CallIsLast(states[n], events[..n])
  {
    if n > 0 {
      TextsFollow(hash, messageId, states, events, n - 1);
      assert StepAt(hash, states, events, n - 1);
      assert events[..n][..n - 1] == events[..n - 1];
    }
  }

  // ----- The cards -----

  function RunningText(running: seq<RunningTool>): seq<string> {
    seq(|running|, i requires 0 <= i < |running| => "\U{23F3} Tool running: `" + running[i].name + "`")
  }

  lemma {:induction false} RunningLinesAre(running: seq<RunningTool>)
    ensures RunningLines(running) == RunningText(running)
  {
    if running != [] {
      RunningLinesAre(running[1..]);
      assert RunningText(running) == [RunningText(running)[0]] + RunningText(running[1..]);
    }
  }

  /** A card with everything the callbacks have said: both texts, the last 20 finished lines and the running lines. */
  predicate SaysAll(c: Card, events: seq<Event>, running: seq<RunningTool>) {
    var lines := DoneLines(events);
    && c.answer == AnswerText(events) && c.thinking == ThinkingText(events)
    && c.tools == (if |lines| <= 20 then lines else lines[|lines| - 20..]) + RunningText(running)
  }

  /** The clock of a callback that comes to a flush. */
  function FlushTime(e: Event): Option<real> {
    match e
    case OnChunk(_, now) => Some(now)
    case OnThinking(_, now) => Some(now)
    case OnToolRunning(_, _, now) => Some(now)
    case OnToolSaved(now) => Some(now)
    case OnHeartbeat(now) => Some(now)
    case _ => None
  }

  /** Time and hash of the card queued last. */
  function LastQueued(hash: string -> int, s: State): (real, int) {
    if s.patches == [] then (0.0, 0)
    else
      var last := s.patches[|s.patches| - 1];
      (last.at, hash(HashedText(last.card)))
  }

  /** Callback `e` queues a card: there is a message; a second has passed since the last card, or a tool forces it;
      and a heartbeat has something that the last card's hash does not cover. */
  predicate QueuesCard(hash: string -> int, s: State, e: Event) {
    && s.messageId.Some? && s.messageId.value != "" && FlushTime(e).Some?
    && (FlushTime(e).value - LastQueued(hash, s).0 >= 1.0 || e.OnToolRunning? || e.OnToolSaved?)
    && (e.OnHeartbeat? ==> hash(HashedText(Shown(s))) != LastQueued(hash, s).1)
  }

  lemma FlushQueues(hash: string -> int, s: State, reason: Reason, now: real)
    requires (s.lastFlush, s.lastHash) == LastQueued(hash, s)
    ensures var t := Flushed(hash, s, reason, now);
            if && s.messageId.Some? && s.messageId.value != ""
               && (now - LastQueued(hash, s).0 >= 1.0 || reason == Tool)
               && (reason == Heartbeat ==> hash(HashedText(Shown(s))) != LastQueued(hash, s).1)
            then
              && |t.patches| == |s.patches| + 1 && s.patches <= t.patches
              && t.patches[|s.patches|].card == Shown(t) && t.patches[|s.patches|].at == now
            else t.patches == s.patches
  {
  }

  lemma StepQueues(hash: string -> int, s: State, e: Event)
    requires Throttled(hash, s) && Enabled(s, e)
    ensures var t := Step(hash, s, e);
            if !QueuesCard(hash, s, e) then t.patches == s.patches
            else
              && |t.patches| == |s.patches| + 1 && s.patches <= t.patches
              && t.patches[|s.patches|].card == Shown(t) && Some(t.patches[|s.patches|].at) == FlushTime(e)
  {
    if s.patches != [] { assert Justified(hash, s.patches, |s.patches| - 1); }
    if IsCallback(e) {
      var (u, reason) := Prepared(s, e);
      if reason.Some? {
        assert Step(hash, s, e) == Flushed(hash, u, reason.value, e.now);
        FlushQueues(hash, u, reason.value, e.now);
      }
    } else {
      assert Step(hash, s, e).patches == s.patches;
    }
  }

  lemma ShownSaysAll(hash: string -> int, messageId: Option<string>, states: seq<State>, events: seq<Event>, n: nat)
    requires Run(hash, messageId, states, events) && n < |states|
    ensures SaysAll(Shown(states[n]), events[..n], states[n].running)
  {
    TextsFollow(hash, messageId, states, events, n);
    RunningLinesAre(states[n].running);
  }

  lemma RunThrottled(hash: string -> int, messageId: Option<string>, states: seq<State>, events: seq<Event>, n: nat)
    requires Run(hash, messageId, states, events) && n < |states|
    ensures Throttled(hash, states[n])
  {
    RunKeepsInv(hash, messageId, states, events, n);
  }

  /** In every run, a callback queues a card exactly under these conditions, at the end of the queue, at its own time,
      and the card says everything said up to it. */
  lemma QueuedCards(hash: string -> int, messageId: Option<string>, states: seq<State>, events: seq<Event>, n: nat)
    requires Run(hash, messageId, states, events) && n < |events|
    ensures !QueuesCard(hash, states[n], events[n]) ==> states[n + 1].patches == states[n].patches
    ensures QueuesCard(hash, states[n], events[n]) ==>
              && |states[n + 1].patches| == |states[n].patches| + 1 && states[n].patches <= states[n + 1].patches
              && var patch := states[n + 1].patches[|states[n].patches|];
              && Some(patch.at) == FlushTime(events[n])
              && SaysAll(patch.card, events[..n + 1], states[n + 1].running)
  {
    assert StepAt(hash, states, events, n);
    RunThrottled(hash, messageId, states, events, n);
    StepQueues(hash, states[n], events[n]);
    ShownSaysAll(hash, messageId, states, events, n + 1);
  }

  /** Card `i` was queued by callback `m`, with everything said until then. */
  ghost predicate QueuedAt(states: seq<State>, events: seq<Event>, n: int, m: int, i: int) {
    && 0 <= m < n < |states| && m < |events| && 0 <= i < |states[n].patches|
    && |states[m].patches| == i && |states[m + 1].patches| == i + 1
    && SaysAll(states[n].patches[i].card, events[..m + 1], states[m + 1].running)
  }

  /** Every card in the queue says everything that had been said when it was queued. */
  lemma {:induction false} EveryCardSaysAll(hash: string -> int, messageId: Option<string>, states: seq<State>,
                                            events: seq<Event>, n: nat, i: nat)
    requires Run(hash, messageId, states, events) && n < |states| && i < |states[n].patches|
    ensures exists m :: QueuedAt(states, events, n, m, i)
  {
    assert n > 0;
    QueuedCards(hash, messageId, states, events, n - 1);
    if i < |states[n - 1].patches| {
      EveryCardSaysAll(hash, messageId, states, events, n - 1, i);
      var m :| QueuedAt(states, events, n - 1, m, i);
      assert QueuedAt(states, events, n, m, i);
    } else {
      assert QueuedAt(states, events, n, n - 1, i);
    }
  }

  // ----- What is written -----

  function WritesOf(events: seq<Event>): seq<Write> {
    if events == [] then []
    else
      var last := events[|events| - 1];
      WritesOf(events[..|events| - 1])
      + match last
        case FinishJob(i, true) => [Queued(i)]
        case PatchFinal(text, true) => [Final(text)]
        case _ => []
  }

  /** The message shows the cards that were delivered, in the order of delivery, and nothing else. */
  lemma {:induction false} WritesFollow(hash: string -> int, messageId: Option<string>, states: seq<State>,
                                        events: seq<Event>, n: nat)
    requires Run(hash, messageId, states, events) && n < |states|
    ensures states[n].writes == WritesOf(events[..n])
  {
    if n > 0 {
      WritesFollow(hash, messageId, states, events, n - 1);
      assert StepAt(hash, states, events, n - 1);
      assert events[..n][..n - 1] == events[..n - 1];
    }
  }
}
