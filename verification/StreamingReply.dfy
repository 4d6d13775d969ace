/** The streamed Feishu reply (engine/app/api/feishu.py, lines 950-1116 and 1152-1175): buffers that grow while the
    model answers, tool lines, throttled card patches through the serial queue, and the final card after the queue has
    drained. */
module StreamingReply {
  import opened Results
  import Q = PatchQueue

  /** What a card is built from. */
  datatype Card = Card(answer: string, thinking: string, tools: seq<string>)

  datatype Reason = Chunk | Thinking | Tool | Heartbeat

  /** A queued patch: its card, why and when it was queued, and the hash it was recorded under. */
  datatype Patch = Patch(card: Card, reason: Reason, at: real, key: int)

  /** What reached the message: the card of queued job `job`, or the final card. */
  datatype Write = Queued(job: nat) | Final(text: string)

  datatype Stage = Streaming | Draining(awaited: Option<nat>) | Drained | Closed

  /** An entry of `_tool_status_running`; the dictionary keeps the order of insertion. */
  datatype RunningTool = RunningTool(id: string, name: string)

  /** Where the model call is with its tools: it executes one at a time, and none while a round streams
      (engine/app/services/llm/caller.py, lines 387-455 and 719-732). `Saving`: the tool is done and its call is being
      written to the chat history. */
  datatype ToolCall = NoCall | Executing(id: string, name: string) | Saving

  datatype State = State(
    messageId: Option<string>,
    answer: string, thinking: string,   // the two buffers joined
    finished: seq<string>, running: seq<RunningTool>, call: ToolCall,
    lastHash: int, lastFlush: real,
    patches: seq<Patch>, queue: Q.State,
    writes: seq<Write>,
    stage: Stage)

  /** `now` is the clock read inside _flush_stream. */
  datatype Event =
    | OnChunk(text: string, now: real)
    | OnThinking(text: string, now: real)
    | OnToolRunning(callId: string, name: string, now: real)
    | OnToolDone(failed: bool)           // the call is then saved, which suspends, before the flush
    | OnToolSaved(now: real)
    | OnToolRaised                       // the tool's execution raised: no callback
    | OnHeartbeat(now: real)
    | StartJob(i: nat)
    | FinishJob(i: nat, delivered: bool)
    | BeginDrain
    | EndDrain
    | PatchFinal(text: string, delivered: bool)

  const FLUSH_INTERVAL := 1.0
  const KEPT_LINES: nat := 20

  // ----- Tool lines -----

  function RunningLine(name: string): string {
    "\U{23F3} Tool running: `" + name + "`"
  }

  function FinishedLine(name: string, failed: bool): string {
    (if failed then "\U{274C} Tool failed: `" else "\U{2705} Tool done: `") + name + "`"
  }

  function ToolName(name: string): string {
    if name == "" then "unknown_tool" else name
  }

  function CallKey(callId: string, name: string): string {
    if callId == "" then ToolName(name) else callId
  }

  function Put(running: seq<RunningTool>, id: string, name: string): seq<RunningTool> {
    if running == [] then [RunningTool(id, name)]
    else if running[0].id == id then [RunningTool(id, name)] + running[1..]
    else [running[0]] + Put(running[1..], id, name)
  }

  function Pop(running: seq<RunningTool>, id: string): seq<RunningTool> {
    if running == [] then []
    else if running[0].id == id then running[1..]
    else [running[0]] + Pop(running[1..], id)
  }

  function NameOf(running: seq<RunningTool>, id: string): Option<string> {
    if running == [] then None
    else if running[0].id == id then Some(running[0].name)
    else NameOf(running[1..], id)
  }

  function RunningLines(running: seq<RunningTool>): seq<string> {
    if running == [] then [] else [RunningLine(running[0].name)] + RunningLines(running[1..])
  }

  function LastLines(lines: seq<string>): seq<string> {
    if |lines| > KEPT_LINES then lines[|lines| - KEPT_LINES..] else lines
  }

  function JoinLines(lines: seq<string>): string {
    if lines == [] then ""
    else if |lines| == 1 then lines[0]
    else lines[0] + "\n" + JoinLines(lines[1..])
  }

  // ----- Steps -----

  function Shown(s: State): Card {
    Card(s.answer, s.thinking, LastLines(s.finished) + RunningLines(s.running))
  }

  function HashedText(c: Card): string {
    c.answer + c.thinking + JoinLines(c.tools)
  }

  predicate HasMessage(s: State) {
    s.messageId.Some? && s.messageId.value != ""
  }

  /** _flush_stream; only a tool update forces it. */
  function Flushed(hash: string -> int, s: State, reason: Reason, now: real): State {
    var key := hash(HashedText(Shown(s)));
    if !HasMessage(s) then s
    else if reason != Tool && now - s.lastFlush < FLUSH_INTERVAL then s
    else if reason == Heartbeat && key == s.lastHash then s
    else s.(lastHash := key, lastFlush := now,
            patches := s.patches + [Patch(Shown(s), reason, now, key)],
            queue := Q.Step(s.queue, Q.Enqueue))
  }

  function Init(messageId: Option<string>): State {
    State(messageId, "", "", [], [], NoCall, 0, 0.0, [], Q.EMPTY, [], Streaming)
  }

  predicate Enabled(s: State, e: Event) {
    match e
    case OnChunk(_, _) | OnThinking(_, _) | OnToolRunning(_, _, _) => s.stage.Streaming? && s.call.NoCall?
    case OnToolDone(_) | OnToolRaised => s.stage.Streaming? && s.call.Executing?
    case OnToolSaved(_) => s.stage.Streaming? && s.call.Saving?
    case OnHeartbeat(_) => s.stage.Streaming?
    case StartJob(i) => Q.Enabled(s.queue, Q.Start(i))
    case FinishJob(i, _) => Q.Enabled(s.queue, Q.Finish(i, false))
    case BeginDrain => s.stage.Streaming? && s.call.NoCall? && HasMessage(s)
    case EndDrain => s.stage.Draining? && Q.DrainOver(s.queue, s.stage.awaited)
    case PatchFinal(_, _) => s.stage.Drained?
  }

  function Step(hash: string -> int, s: State, e: Event): State
    requires Enabled(s, e)
  {
    match e
    case OnChunk(text, now) => Flushed(hash, s.(answer := s.answer + text), Chunk, now)
    case OnThinking(text, now) => Flushed(hash, s.(thinking := s.thinking + text), Thinking, now)
    case OnToolRunning(callId, name, now) =>
      var id, tool := CallKey(callId, name), ToolName(name);
      Flushed(hash, s.(running := Put(s.running, id, tool), call := Executing(id, tool)), Tool, now)
    case OnToolDone(failed) =>
      s.(running := Pop(s.running, s.call.id), finished := s.finished + [FinishedLine(s.call.name, failed)],
         call := Saving)
    case OnToolSaved(now) => Flushed(hash, s.(call := NoCall), Tool, now)
    case OnToolRaised => s.(call := NoCall)
    case OnHeartbeat(now) => Flushed(hash, s, Heartbeat, now)
    case StartJob(i) => s.(queue := Q.Step(s.queue, Q.Start(i)))
    case FinishJob(i, delivered) =>   // the job itself swallows the patch's exception
      s.(queue := Q.Step(s.queue, Q.Finish(i, false)), writes := s.writes + if delivered then [Queued(i)] else [])
    case BeginDrain => s.(stage := Draining(s.queue.tail))
    case EndDrain => s.(stage := Drained)
    case PatchFinal(text, delivered) =>
      s.(stage := Closed, writes := s.writes + if delivered then [Final(text)] else [])
  }

  predicate StepAt(hash: string -> int, states: seq<State>, events: seq<Event>, i: int) {
    && 0 <= i < |events| && i + 1 < |states|
    && Enabled(states[i], events[i]) && states[i + 1] == Step(hash, states[i], events[i])
  }

  ghost predicate Run(hash: string -> int, messageId: Option<string>, states: seq<State>, events: seq<Event>) {
    && |states| == |events| + 1 && states[0] == Init(messageId)
    && forall i | 0 <= i < |events| :: StepAt(hash, states, events, i)
  }

  // ----- What every run keeps -----

  predicate Extends(later: Card, earlier: Card) {
    earlier.answer <= later.answer && earlier.thinking <= later.thinking
  }

  /** The texts of the queued cards form a chain of prefixes, ending in the text of this moment. */
  ghost predicate Growing(s: State) {
    && (forall i, j | 0 <= i < j < |s.patches| :: Extends(s.patches[j].card, s.patches[i].card))
    && (forall i | 0 <= i < |s.patches| :: Extends(Shown(s), s.patches[i].card))
  }

  /** What the throttle and the heartbeat compare with: the patch queued before number `i`. */
  function FlushedBefore(patches: seq<Patch>, i: nat): (real, int)
    requires i <= |patches|
  {
    if i == 0 then (0.0, 0) else (patches[i - 1].at, patches[i - 1].key)
  }

  predicate Justified(hash: string -> int, patches: seq<Patch>, i: nat)
    requires i < |patches|
  {
    var p, before := patches[i], FlushedBefore(patches, i);
    && p.key == hash(HashedText(p.card))
    && (p.reason != Tool ==> p.at - before.0 >= FLUSH_INTERVAL)
    && (p.reason == Heartbeat ==> p.key != before.1)
  }

  ghost predicate Throttled(hash: string -> int, s: State) {
    && (s.lastFlush, s.lastHash) == FlushedBefore(s.patches, |s.patches|)
    && forall i | 0 <= i < |s.patches| :: Justified(hash, s.patches, i)
  }

  /** The card queued last; before the first patch, the empty card that the message was sent with. */
  function LastCard(s: State): Card {
    if s.patches == [] then Card("", "", []) else s.patches[|s.patches| - 1].card
  }

  /** The same texts, and tool lines whose joined text is shorter. */
  predicate Shrunk(now: Card, last: Card) {
    now.answer == last.answer && now.thinking == last.thinking && |JoinLines(now.tools)| < |JoinLines(last.tools)|
  }

  /** Outside tool calls the last card has the tool lines of this moment. While a tool executes it is the card of this
      moment; while its call is saved only the tool lines may differ, and then their text has become shorter. */
  predicate ToolsShown(call: ToolCall, running: seq<RunningTool>, now: Card, last: Card) {
    match call
    case NoCall => now.tools == last.tools
    case Executing(id, name) => now == last && NameOf(running, id) == Some(name)
    case Saving => now == last || Shrunk(now, last)
  }

  predicate ToolsCurrent(s: State) {
    HasMessage(s) ==> ToolsShown(s.call, s.running, Shown(s), LastCard(s))
  }

  /** `k` jobs are over; what was written comes from them in their order, and the final card comes after all of them. */
  ghost predicate Delivered(s: State, k: nat) {
    && |s.patches| == |s.queue.runners|
    && Q.Chained(s.queue) && Q.Serial(s.queue, k)
    && (forall a | 0 <= a < |s.writes| && s.writes[a].Queued? :: s.writes[a].job < k)
    && (forall a, b | 0 <= a < b < |s.writes| && s.writes[a].Queued? && s.writes[b].Queued? ::
          s.writes[a].job < s.writes[b].job)
    && (forall a | 0 <= a < |s.writes| && s.writes[a].Final? :: a == |s.writes| - 1 && s.stage.Closed?)
    && (s.stage.Draining? ==> s.stage.awaited == s.queue.tail)
    && (s.stage.Drained? || s.stage.Closed? ==> k == |s.patches|)
  }

  ghost predicate Sound(hash: string -> int, s: State) {
    Growing(s) && Throttled(hash, s) && ToolsCurrent(s)
  }

  ghost predicate Inv(hash: string -> int, s: State) {
    Sound(hash, s) && exists k: nat :: Delivered(s, k)
  }

  // ----- Lengths of tool lines -----

  function Total(lines: seq<string>): nat {
    if lines == [] then 0 else |lines[0]| + 1 + Total(lines[1..])
  }

  lemma {:induction false} JoinLength(lines: seq<string>)
    requires lines != []
    ensures |JoinLines(lines)| + 1 == Total(lines)
  {
    if |lines| > 1 { JoinLength(lines[1..]); }
  }

  lemma {:induction false} TotalConcat(a: seq<string>, b: seq<string>)
    ensures Total(a + b) == Total(a) + Total(b)
  {
    if a == [] {
      assert a + b == b;
    } else {
      assert (a + b)[1..] == a[1..] + b;
      TotalConcat(a[1..], b);
    }
  }

  lemma {:induction false} PutNames(running: seq<RunningTool>, id: string, name: string)
    ensures NameOf(Put(running, id, name), id) == Some(name)
  {
    if running != [] && running[0].id != id { PutNames(running[1..], id, name); }
  }

  lemma {:induction false} PopShortens(running: seq<RunningTool>, id: string, name: string)
    requires NameOf(running, id) == Some(name)
    ensures Total(RunningLines(Pop(running, id))) + |RunningLine(name)| + 1 == Total(RunningLines(running))
  {
    if running[0].id != id {
      PopShortens(running[1..], id, name);
      assert RunningLines(Pop(running, id)) ==
             [RunningLine(running[0].name)] + RunningLines(Pop(running[1..], id));
    }
  }

  lemma KeptGrowsByOne(lines: seq<string>, line: string)
    ensures Total(LastLines(lines + [line])) <= Total(LastLines(lines)) + |line| + 1
  {
    var last := LastLines(lines);
    TotalConcat(last, [line]);
    if |lines| < KEPT_LINES {
      assert LastLines(lines + [line]) == last + [line];
    } else {
      assert last == [last[0]] + last[1..];
      assert LastLines(lines + [line]) == last[1..] + [line];
      TotalConcat(last[1..], [line]);
    }
  }

  /** A finished tool's line is shorter than its running line, so the joined lines become shorter, dropped lines or
      not. */
  lemma FinishingShortens(finished: seq<string>, running: seq<RunningTool>, id: string, name: string, failed: bool)
    requires NameOf(running, id) == Some(name)
    ensures var before, after := LastLines(finished) + RunningLines(running),
                                 LastLines(finished + [FinishedLine(name, failed)]) + RunningLines(Pop(running, id));
            |JoinLines(after)| < |JoinLines(before)|
  {
    var line := FinishedLine(name, failed);
    var before, after := LastLines(finished) + RunningLines(running),
                         LastLines(finished + [line]) + RunningLines(Pop(running, id));
    TotalConcat(LastLines(finished), RunningLines(running));
    TotalConcat(LastLines(finished + [line]), RunningLines(Pop(running, id)));
    PopShortens(running, id, name);
    KeptGrowsByOne(finished, line);
    assert |line| < |RunningLine(name)|;
    assert after != [] && before != [];
    JoinLength(before);
    JoinLength(after);
  }

  // ----- Each step -----

  lemma FlushThrottled(hash: string -> int, s: State, reason: Reason, now: real)
    requires Throttled(hash, s)
    ensures Throttled(hash, Flushed(hash, s, reason, now))
  {
    var t := Flushed(hash, s, reason, now);
    forall i | 0 <= i < |t.patches| ensures Justified(hash, t.patches, i) {
      if i < |s.patches| {
        assert t.patches[i] == s.patches[i] && Justified(hash, s.patches, i);
      }
    }
  }

  lemma FlushGrows(hash: string -> int, s: State, reason: Reason, now: real)
    requires Growing(s)
    ensures Growing(Flushed(hash, s, reason, now))
  {
  }

  lemma FlushDelivers(hash: string -> int, s: State, reason: Reason, now: real, k: nat)
    requires Delivered(s, k) && s.stage.Streaming?
    ensures Delivered(Flushed(hash, s, reason, now), k)
  {
    Q.StepKeepsSerial(s.queue, k, Q.Enqueue);
  }

  lemma GrowKeeps(s: State, t: State)
    requires Growing(s) && t.patches == s.patches && Extends(Shown(t), Shown(s))
    ensures Growing(t)
  {
  }

  /** The events that change texts or tool lines, or flush. */
  predicate IsCallback(e: Event) {
    || e.OnChunk? || e.OnThinking? || e.OnToolRunning? || e.OnToolDone? || e.OnToolSaved? || e.OnToolRaised?
    || e.OnHeartbeat?
  }

  /** The state in which the callback comes to its flush, and the flush's reason. */
  function Prepared(s: State, e: Event): (State, Option<Reason>)
    requires Enabled(s, e) && IsCallback(e)
  {
    match e
    case OnChunk(text, _) => (s.(answer := s.answer + text), Some(Chunk))
    case OnThinking(text, _) => (s.(thinking := s.thinking + text), Some(Thinking))
    case OnToolRunning(callId, name, _) =>
      var id, tool := CallKey(callId, name), ToolName(name);
      (s.(running := Put(s.running, id, tool), call := Executing(id, tool)), Some(Tool))
    case OnToolDone(failed) =>
      (s.(running := Pop(s.running, s.call.id), finished := s.finished + [FinishedLine(s.call.name, failed)],
          call := Saving), None)
    case OnToolSaved(_) => (s.(call := NoCall), Some(Tool))
    case OnToolRaised => (s.(call := NoCall), None)
    case OnHeartbeat(_) => (s, Some(Heartbeat))
  }

  lemma CallbackKeeps(hash: string -> int, s: State, e: Event, k: nat)
    requires Sound(hash, s) && Delivered(s, k) && Enabled(s, e) && IsCallback(e)
    ensures var t := Step(hash, s, e); Growing(t) && Throttled(hash, t) && Delivered(t, k)
  {
    var (u, reason) := Prepared(s, e);
    GrowKeeps(s, u);
    if reason.Some? {
      var now := e.now;
      assert Step(hash, s, e) == Flushed(hash, u, reason.value, now);
      FlushGrows(hash, u, reason.value, now);
      FlushThrottled(hash, u, reason.value, now);
      FlushDelivers(hash, u, reason.value, now, k);
    }
  }

  /** A flush either queues the card of this moment or leaves the last one; one forced by a tool queues it. */
  lemma FlushedCard(hash: string -> int, s: State, reason: Reason, now: real)
    ensures var t := Flushed(hash, s, reason, now);
            && Shown(t) == Shown(s) && t.call == s.call && t.running == s.running && HasMessage(t) == HasMessage(s)
            && (LastCard(t) == Shown(s) || (LastCard(t) == LastCard(s) && !(reason == Tool && HasMessage(s))))
  {
  }

  lemma CallbackShowsTools(hash: string -> int, s: State, e: Event)
    requires ToolsCurrent(s) && Enabled(s, e) && IsCallback(e)
    ensures ToolsCurrent(Step(hash, s, e))
  {
    var (u, reason) := Prepared(s, e);
    assert HasMessage(u) == HasMessage(s) && LastCard(u) == LastCard(s);
    match e {
      case OnToolRunning(callId, name, _) => PutNames(s.running, CallKey(callId, name), ToolName(name));
      case OnToolDone(failed) =>
        if HasMessage(s) { FinishingShortens(s.finished, s.running, s.call.id, s.call.name, failed); }
      case _ =>
    }
    if reason.Some? {
      FlushedCard(hash, u, reason.value, e.now);
      assert Step(hash, s, e) == Flushed(hash, u, reason.value, e.now);
    }
  }

  lemma QueueStepDelivers(hash: string -> int, s: State, e: Event, k: nat)
    requires Delivered(s, k) && Enabled(s, e) && !IsCallback(e)
    ensures Delivered(Step(hash, s, e), if e.FinishJob? then k + 1 else k)
  {
    match e
    case StartJob(i) => Q.StepKeepsSerial(s.queue, k, Q.Start(i));
    case FinishJob(i, _) =>
      Q.OnlyHeadMoves(s.queue, k, Q.Finish(i, false));
      Q.StepKeepsSerial(s.queue, k, Q.Finish(i, false));
    case EndDrain => assert k < |s.patches| ==> !Q.IsDone(s.queue, |s.patches| - 1);
    case _ =>
  }

  lemma QueueStepKeeps(hash: string -> int, s: State, e: Event)
    requires Sound(hash, s) && Enabled(s, e) && !IsCallback(e)
    ensures Sound(hash, Step(hash, s, e))
  {
    var t := Step(hash, s, e);
    assert Shown(t) == Shown(s) && t.patches == s.patches && LastCard(t) == LastCard(s);
    GrowKeeps(s, t);
  }

  lemma StepKeepsInv(hash: string -> int, s: State, e: Event, k: nat)
    requires Sound(hash, s) && Delivered(s, k) && Enabled(s, e)
    ensures var t := Step(hash, s, e); Sound(hash, t) && Delivered(t, if e.FinishJob? then k + 1 else k)
  {
    if IsCallback(e) {
      CallbackKeeps(hash, s, e, k);
      CallbackShowsTools(hash, s, e);
    } else {
      QueueStepKeeps(hash, s, e);
      QueueStepDelivers(hash, s, e, k);
    }
  }

  lemma {:induction false} RunKeepsInv(hash: string -> int, messageId: Option<string>,
                                       states: seq<State>, events: seq<Event>, n: nat)
    requires Run(hash, messageId, states, events) && n < |states|
    ensures Inv(hash, states[n])
  {
    if n == 0 {
      assert Q.Serial(Q.EMPTY, 0);
      assert Delivered(Init(messageId), 0);
    } else {
      RunKeepsInv(hash, messageId, states, events, n - 1);
      assert StepAt(hash, states, events, n - 1);
      var k: nat :| Delivered(states[n - 1], k);
      StepKeepsInv(hash, states[n - 1], events[n - 1], k);
      assert Delivered(states[n], if events[n - 1].FinishJob? then k + 1 else k);
    }
  }

  // ----- What the reader of the message sees -----

  /** The cards written before the final one, in the order they were written: each answer extends the one before. */
  lemma AnswersOnlyGrow(hash: string -> int, s: State, a: nat, b: nat)
    requires Inv(hash, s) && a < b < |s.writes| && s.writes[b].Queued?
    ensures s.writes[a].Queued? && s.writes[a].job < s.writes[b].job < |s.patches|
    ensures Extends(s.patches[s.writes[b].job].card, s.patches[s.writes[a].job].card)
  {
  }

  /** The final patch goes out only when every queued job is over; once it has, no further event is possible. */
  lemma FinalCardIsLast(hash: string -> int, s: State, e: Event)
    requires Inv(hash, s) && Enabled(s, e)
    ensures e.PatchFinal? ==> forall i | 0 <= i < |s.patches| :: Q.IsDone(s.queue, i)
    ensures !s.stage.Closed?
    ensures forall a | 0 <= a < |s.writes| :: !s.writes[a].Final?
  {
  }

  /** Patches not forced by a tool come at least an interval after the one before; a heartbeat's text has changed. */
  lemma PatchesAreSpaced(hash: string -> int, messageId: Option<string>, states: seq<State>, events: seq<Event>,
                         n: nat, i: nat)
    requires Run(hash, messageId, states, events) && n < |states| && 0 < i < |states[n].patches|
    ensures var p, q := states[n].patches[i - 1], states[n].patches[i];
            && (q.reason != Tool ==> q.at - p.at >= FLUSH_INTERVAL)
            && (q.reason == Heartbeat ==> q.card != p.card)
            && Extends(q.card, p.card)
  {
    RunKeepsInv(hash, messageId, states, events, n);
    assert Justified(hash, states[n].patches, i) && Justified(hash, states[n].patches, i - 1);
  }

  /** Every change of the tool lines reaches a card at once, or by a flush that is forced when the call has been saved:
      whenever no save is under way, the last card has the tool lines of this moment. */
  lemma ToolLinesReachTheCard(hash: string -> int, messageId: Option<string>, states: seq<State>, events: seq<Event>,
                              n: nat)
    requires Run(hash, messageId, states, events) && n < |states| && HasMessage(states[n])
    ensures !states[n].call.Saving? ==> Shown(states[n]).tools == LastCard(states[n]).tools
    ensures n < |events| && events[n].OnToolSaved? ==>
              && |states[n + 1].patches| == |states[n].patches| + 1
              && LastCard(states[n + 1]) == Shown(states[n + 1]) == Shown(states[n])
  {
    RunKeepsInv(hash, messageId, states, events, n);
    if n < |events| { assert StepAt(hash, states, events, n); }
  }

  /** When no two texts share a hash, and the empty text has Python's hash 0, a heartbeat that is due is skipped exactly
      when the card it would show is the one queued last: the joined text never hides a change. */
  lemma SkippedHeartbeatShowsNothingNew(hash: string -> int, messageId: Option<string>, states: seq<State>,
                                        events: seq<Event>, n: nat, now: real)
    requires Run(hash, messageId, states, events) && n < |states| && HasMessage(states[n])
    requires hash("") == 0 && forall x, y | hash(x) == hash(y) :: x == y
    requires now - states[n].lastFlush >= FLUSH_INTERVAL
    ensures Flushed(hash, states[n], Heartbeat, now) == states[n] <==> Shown(states[n]) == LastCard(states[n])
  {
    var s := states[n];
    RunKeepsInv(hash, messageId, states, events, n);
    var shown, last := Shown(s), LastCard(s);
    if s.patches != [] { assert Justified(hash, s.patches, |s.patches| - 1); }
    assert s.lastHash == hash(HashedText(last));
    assert Extends(shown, last);
    if HashedText(shown) == HashedText(last) {
      assert |HashedText(shown)| == |shown.answer| + |shown.thinking| + |JoinLines(shown.tools)|;
      assert |HashedText(last)| == |last.answer| + |last.thinking| + |JoinLines(last.tools)|;
    }
  }

  // ----- The class -----

  /** The variables shared by the callbacks of one reply. */
  class Reply {
    const messageId: Option<string>
    var streamBuffer: seq<string>
    var thinkingBuffer: seq<string>
    var toolStatusDone: seq<string>
    var toolStatusRunning: seq<RunningTool>
    var lastHash: int
    var lastFlush: real
    var queue: Q.SerialPatchQueue
    ghost var call: ToolCall
    ghost var patches: seq<Patch>
    ghost var writes: seq<Write>
    ghost var stage: Stage

    ghost function View(): State
      reads this, queue
    {
      State(messageId, Concat(streamBuffer), Concat(thinkingBuffer), toolStatusDone, toolStatusRunning, call,
            lastHash, lastFlush, patches, queue.View(), writes, stage)
    }

    constructor (messageId: Option<string>)
      ensures View() == Init(messageId) && fresh(queue)
    {
      this.messageId := messageId;
      streamBuffer, thinkingBuffer, toolStatusDone, toolStatusRunning := [], [], [], [];
      lastHash, lastFlush := 0, 0.0;
      call, patches, writes, stage := NoCall, [], [], Streaming;
      queue := new Q.SerialPatchQueue();
    }

    /** The flush runs under a lock and awaits nothing while it holds it. */
    method FlushStream(hash: string -> int, reason: Reason, now: real)
      modifies this, queue
      ensures View() == Flushed(hash, old(View()), reason, now) && queue == old(queue)
      ensures streamBuffer == old(streamBuffer) && thinkingBuffer == old(thinkingBuffer)
    {
      if messageId.None? || messageId.value == "" {
        return;
      }
      if reason != Tool && now - lastFlush < FLUSH_INTERVAL {
        return;
      }
      var card := Card(Concat(streamBuffer), Concat(thinkingBuffer),
                       LastLines(toolStatusDone) + RunningLines(toolStatusRunning));
      var currentHash := hash(HashedText(card));
      if reason == Heartbeat && currentHash == lastHash {
        return;
      }
      lastHash := currentHash;
      patches := patches + [Patch(card, reason, now, currentHash)];
      queue.Enqueue();
      lastFlush := now;
    }

    method Chunk(hash: string -> int, text: string, now: real)
      requires stage.Streaming? && call.NoCall?
      modifies this, queue
      ensures View() == Step(hash, old(View()), OnChunk(text, now)) && queue == old(queue)
      ensures streamBuffer == old(streamBuffer) + [text] && thinkingBuffer == old(thinkingBuffer)
    {
      ConcatAppend(streamBuffer, text);
      streamBuffer := streamBuffer + [text];
      FlushStream(hash, Reason.Chunk, now);
    }

    method Thinking(hash: string -> int, text: string, now: real)
      requires stage.Streaming? && call.NoCall?
      modifies this, queue
      ensures View() == Step(hash, old(View()), OnThinking(text, now)) && queue == old(queue)
      ensures thinkingBuffer == old(thinkingBuffer) + [text] && streamBuffer == old(streamBuffer)
    {
      ConcatAppend(thinkingBuffer, text);
      thinkingBuffer := thinkingBuffer + [text];
      FlushStream(hash, Reason.Thinking, now);
    }

    /** The tool callback with status "running". */
    method ToolRunning(hash: string -> int, callId: string, name: string, now: real)
      requires stage.Streaming? && call.NoCall?
      modifies this, queue
      ensures View() == Step(hash, old(View()), OnToolRunning(callId, name, now)) && queue == old(queue)
    {
      var toolName := if name == "" then "unknown_tool" else name;
      var id := if callId == "" then toolName else callId;
      toolStatusRunning := Put(toolStatusRunning, id, toolName);
      call := Executing(id, toolName);
      FlushStream(hash, Tool, now);
    }

    /** The tool callback with status "done" for the call under way, up to the save. */
    method ToolDone(callId: string, name: string, failed: bool)
      requires stage.Streaming? && call == Executing(CallKey(callId, name), ToolName(name))
      modifies this
      ensures forall hash :: View() == Step(hash, old(View()), OnToolDone(failed))
    {
      var toolName := if name == "" then "unknown_tool" else name;
      toolStatusRunning := Pop(toolStatusRunning, if callId == "" then toolName else callId);
      toolStatusDone := toolStatusDone + [FinishedLine(toolName, failed)];
      call := Saving;
    }

    /** The end of that callback: the save is over and the flush is forced. */
    method ToolSaved(hash: string -> int, now: real)
      requires stage.Streaming? && call.Saving?
      modifies this, queue
      ensures View() == Step(hash, old(View()), OnToolSaved(now)) && queue == old(queue)
    {
      call := NoCall;
      FlushStream(hash, Tool, now);
    }
  }

  function Concat(parts: seq<string>): string {
    if parts == [] then "" else parts[0] + Concat(parts[1..])
  }

  lemma {:induction false} ConcatAppend(parts: seq<string>, text: string)
    ensures Concat(parts + [text]) == Concat(parts) + text
  {
    if parts == [] {
      assert Concat([text]) == text + Concat([text][1..]) == text;
    } else {
      ConcatAppend(parts[1..], text);
      assert (parts + [text])[1..] == parts[1..] + [text];
    }
  }
}
