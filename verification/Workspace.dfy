/** Writing and deleting one workspace file under a version token (engine/app/api/files.py, lines 104-266), with other
    requests and the agent's own tools changing the file between any two steps. The conditional write of the managed
    S3 storage holds a durable claim on the key (engine/app/services/storage_runtime/quota_conditional.py,
    lines 16-45), so it is one step; the base class compares and then writes (storage_runtime/base.py,
    lines 236-254), which is two. */
module Workspace {
  import opened Results

  type Id = nat

  /** engine/app/services/storage_runtime/base.py, lines 42-44: every absent file has the same token, ":0". */
  datatype Token = Absent | Stamp(n: nat)

  datatype File = File(content: string, stamp: nat)

  /** `after` is the new content, or None to delete; `guard` the expected version token, if one was sent. */
  datatype Request = Request(guard: Option<Token>, after: Option<string>)

  /** `overwritten` is what the change really replaced; the program does not have it. */
  datatype Phase =
    | Started
    | FoundFile
    | HasBefore(before: Option<string>)
    | Matched(before: Option<string>)       // compared but not yet written; only in the base class
    | Changed(before: Option<string>, overwritten: Option<string>)
    | Logged
    | Conflict
    | Failed

  datatype Writer = Writer(request: Request, phase: Phase)

  datatype Revision = Revision(writer: Id, before: Option<string>, after: Option<string>, overwritten: Option<string>)

  datatype State = State(
    file: Option<File>,
    issued: set<nat>,            // the stamps the file has ever had
    writers: map<Id, Writer>,
    winners: seq<Id>,            // in the order their changes took place
    removals: nat,               // how often the file has been removed
    wonAfter: seq<nat>,          // how often it had been when each winner changed it
    log: seq<Revision>)

  /** `atomic`: the compare and the change are one step. `unique`: no stamp is given twice. */
  datatype Storage = Storage(atomic: bool, unique: bool)

  datatype Event =
    | Begin(w: Id, request: Request)
    | Exists(w: Id)
    | ReadText(w: Id)
    | ChangeIfMatch(w: Id, stamp: nat)
    | Compare(w: Id)
    | Change(w: Id, stamp: nat)
    | Persist(w: Id)
    | OtherWrite(content: string, stamp: nat)
    | OtherDelete

  function Current(s: State): Token {
    if s.file.Some? then Stamp(s.file.value.stamp) else Absent
  }

  function Content(s: State): Option<string> {
    if s.file.Some? then Some(s.file.value.content) else None
  }

  predicate In(s: State, w: Id, p: Phase -> bool) {
    w in s.writers && p(s.writers[w].phase)
  }

  /** Clients send tokens they were given, so a stamp in a request has been the file's before. */
  predicate Enabled(d: Storage, s: State, e: Event) {
    match e
    case Begin(w, request) =>
      && w !in s.writers
      && (request.guard.Some? && request.guard.value.Stamp? ==> request.guard.value.n in s.issued)
    case Exists(w) => In(s, w, (p: Phase) => p.Started?)
    case ReadText(w) => In(s, w, (p: Phase) => p.FoundFile?)
    case ChangeIfMatch(w, stamp) =>
      d.atomic && In(s, w, (p: Phase) => p.HasBefore?) && (d.unique ==> stamp !in s.issued)
    case Compare(w) => !d.atomic && In(s, w, (p: Phase) => p.HasBefore?)
    case Change(w, stamp) => !d.atomic && In(s, w, (p: Phase) => p.Matched?) && (d.unique ==> stamp !in s.issued)
    case Persist(w) => In(s, w, (p: Phase) => p.Changed?)
    case OtherWrite(_, stamp) => d.unique ==> stamp !in s.issued
    case OtherDelete => true
  }

  function To(s: State, w: Id, phase: Phase): State
    requires w in s.writers
  {
    s.(writers := s.writers[w := s.writers[w].(phase := phase)])
  }

  function Put(s: State, content: Option<string>, stamp: nat): State {
    if content.Some? then s.(file := Some(File(content.value, stamp)), issued := s.issued + {stamp})
    else s.(file := None, removals := s.removals + if s.file.Some? then 1 else 0)
  }

  predicate Matches(s: State, guard: Option<Token>) {
    guard.Some? ==> Current(s) == guard.value
  }

  function Win(s: State, w: Id, before: Option<string>, stamp: nat): State
    requires w in s.writers
  {
    var t := Put(s, s.writers[w].request.after, stamp);
    To(t, w, Changed(before, Content(s))).(winners := s.winners + [w], wonAfter := s.wonAfter + [s.removals])
  }

  function Step(d: Storage, s: State, e: Event): State
    requires Enabled(d, s, e)
  {
    match e
    case Begin(w, request) => s.(writers := s.writers[w := Writer(request, Started)])
    case Exists(w) =>
      if s.file.Some? then To(s, w, FoundFile)
      else if s.writers[w].request.after.None? then To(s, w, Failed)   // nothing to delete
      else To(s, w, HasBefore(None))
    case ReadText(w) => To(s, w, if s.file.Some? then HasBefore(Content(s)) else Failed)
    case ChangeIfMatch(w, stamp) =>
      if Matches(s, s.writers[w].request.guard) then Win(s, w, s.writers[w].phase.before, stamp) else To(s, w, Conflict)
    case Compare(w) =>
      To(s, w, if Matches(s, s.writers[w].request.guard) then Matched(s.writers[w].phase.before) else Conflict)
    case Change(w, stamp) => Win(s, w, s.writers[w].phase.before, stamp)
    case Persist(w) =>
      var c := s.writers[w].phase;
      To(s, w, Logged).(log := s.log + [Revision(w, c.before, s.writers[w].request.after, c.overwritten)])
    case OtherWrite(content, stamp) => Put(s, Some(content), stamp)
    case OtherDelete => Put(s, None, 0)
  }

  const EMPTY := State(None, {}, map[], [], 0, [], [])

  /** The state after the events, if each is possible when it comes. */
  function Exec(d: Storage, s: State, events: seq<Event>): Option<State>
    decreases |events|
  {
    if events == [] then Some(s)
    else if Enabled(d, s, events[0]) then Exec(d, Step(d, s, events[0]), events[1..])
    else None
  }

  ghost predicate Reached(d: Storage, s: State) {
    exists events: seq<Event> :: Exec(d, EMPTY, events) == Some(s)
  }

  // ----- What every run keeps when the step is atomic and the stamps are fresh -----

  predicate Guarded(s: State, w: Id, n: nat) {
    w in s.writers && s.writers[w].request.guard == Some(Stamp(n))
  }

  predicate Stamped(s: State, w: Id) {
    && w in s.writers
    && s.writers[w].request.guard.Some? && s.writers[w].request.guard.value.Stamp?
  }

  predicate StampsIssued(s: State) {
    && (s.file.Some? ==> s.file.value.stamp in s.issued)
    && (forall w | w in s.writers && Stamped(s, w) :: s.writers[w].request.guard.value.n in s.issued)
  }

  /** If the file still has the stamp a writer expects, the content the writer read is the file's. */
  predicate ReadCurrent(s: State) {
    forall w | w in s.writers && Stamped(s, w) && s.writers[w].phase.HasBefore?
               && Matches(s, s.writers[w].request.guard)
      :: s.writers[w].phase.before == Content(s)
  }

  predicate ChangedRight(s: State) {
    && (forall w | w in s.writers :: !s.writers[w].phase.Matched?)
    && (forall w | w in s.writers && Stamped(s, w) && s.writers[w].phase.Changed? ::
          s.writers[w].phase.before == s.writers[w].phase.overwritten)
    && (forall i | 0 <= i < |s.log| :: Stamped(s, s.log[i].writer) ==> s.log[i].before == s.log[i].overwritten)
    && (forall i | 0 <= i < |s.log| :: s.log[i].writer in s.writers)
  }

  /** A stamp that has been won is not the file's, and nobody else has won it. */
  predicate WonOnce(s: State) {
    && (forall i | 0 <= i < |s.winners| :: s.winners[i] in s.writers)
    && (forall i | 0 <= i < |s.winners| && Stamped(s, s.winners[i]) ::
          !Matches(s, s.writers[s.winners[i]].request.guard))
    && (forall i, j | 0 <= i < j < |s.winners| && Stamped(s, s.winners[i]) ::
          s.writers[s.winners[i]].request.guard != s.writers[s.winners[j]].request.guard)
  }

  predicate Inv(s: State) {
    StampsIssued(s) && ReadCurrent(s) && ChangedRight(s) && WonOnce(s)
  }

  const MANAGED := Storage(true, true)

  lemma StepKeepsStamps(s: State, e: Event)
    requires Inv(s) && Enabled(MANAGED, s, e)
    ensures StampsIssued(Step(MANAGED, s, e))
  {
  }

  lemma StepKeepsReads(s: State, e: Event)
    requires Inv(s) && Enabled(MANAGED, s, e)
    ensures ReadCurrent(Step(MANAGED, s, e))
  {
  }

  lemma StepKeepsChanges(s: State, e: Event)
    requires Inv(s) && Enabled(MANAGED, s, e)
    ensures ChangedRight(Step(MANAGED, s, e))
  {
    var t := Step(MANAGED, s, e);
    forall i | 0 <= i < |t.log| && Stamped(t, t.log[i].writer) ensures t.log[i].before == t.log[i].overwritten {
      if i < |s.log| { assert t.log[i] == s.log[i] && Stamped(s, s.log[i].writer); }
    }
  }

  lemma StepKeepsWinners(s: State, e: Event)
    requires Inv(s) && Enabled(MANAGED, s, e)
    ensures WonOnce(Step(MANAGED, s, e))
  {
    var t := Step(MANAGED, s, e);
    forall i | 0 <= i < |s.winners| ensures t.winners[i] == s.winners[i] {}
    forall w | w in s.writers ensures w in t.writers && t.writers[w].request == s.writers[w].request {}
  }

  lemma {:induction false} ExecKeepsInv(s: State, events: seq<Event>)
    requires Inv(s) && Exec(MANAGED, s, events).Some?
    ensures Inv(Exec(MANAGED, s, events).value)
    decreases |events|
  {
    if events != [] {
      StepKeepsStamps(s, events[0]);
      StepKeepsReads(s, events[0]);
      StepKeepsChanges(s, events[0]);
      StepKeepsWinners(s, events[0]);
      ExecKeepsInv(Step(MANAGED, s, events[0]), events[1..]);
    }
  }

  lemma ReachedInv(s: State)
    requires Reached(MANAGED, s)
    ensures Inv(s)
  {
    var events: seq<Event> :| Exec(MANAGED, EMPTY, events) == Some(s);
    ExecKeepsInv(EMPTY, events);
  }

  /** Of the writers that expected the same stamp, at most one has changed the file. */
  lemma OneWinnerPerStamp(s: State, i: nat, j: nat, n: nat)
    requires Reached(MANAGED, s) && i < |s.winners| && j < |s.winners|
    requires Guarded(s, s.winners[i], n) && Guarded(s, s.winners[j], n)
    ensures i == j
  {
    ReachedInv(s);
  }

  // ----- Requests that expect an absent file -----

  /** The request writes a file that it expects not to be there. */
  predicate Creator(s: State, w: Id) {
    w in s.writers && s.writers[w].request.guard == Some(Absent) && s.writers[w].request.after.Some?
  }

  /** What a creator has written is still there, or a removal has come since; and between two creators comes one. */
  predicate CreatorsApart(s: State) {
    && |s.wonAfter| == |s.winners| && (forall i | 0 <= i < |s.winners| :: s.winners[i] in s.writers)
    && (forall i | 0 <= i < |s.winners| && Creator(s, s.winners[i]) ::
          s.wonAfter[i] <= s.removals && (s.file.None? ==> s.wonAfter[i] < s.removals))
    && (forall i, j | 0 <= i < j < |s.winners| && Creator(s, s.winners[i]) && Creator(s, s.winners[j]) ::
          s.wonAfter[i] < s.wonAfter[j])
  }

  lemma StepKeepsCreators(d: Storage, s: State, e: Event)
    requires d.atomic && CreatorsApart(s) && Enabled(d, s, e)
    ensures CreatorsApart(Step(d, s, e))
  {
    var t := Step(d, s, e);
    forall w | w in s.writers ensures w in t.writers && t.writers[w].request == s.writers[w].request {}
    assert t.removals >= s.removals;
    assert s.file.Some? && t.file.None? ==> t.removals == s.removals + 1;
    forall i | 0 <= i < |s.winners|
      ensures t.winners[i] == s.winners[i] && t.wonAfter[i] == s.wonAfter[i]
      ensures Creator(t, t.winners[i]) <==> Creator(s, s.winners[i])
    {
    }
  }

  lemma {:induction false} ExecKeepsCreators(d: Storage, s: State, events: seq<Event>)
    requires d.atomic && CreatorsApart(s) && Exec(d, s, events).Some?
    ensures CreatorsApart(Exec(d, s, events).value)
    decreases |events|
  {
    if events != [] {
      StepKeepsCreators(d, s, events[0]);
      ExecKeepsCreators(d, Step(d, s, events[0]), events[1..]);
    }
  }

  /** Two writers that both expected no file can both succeed only if the file was removed between their writes; so as
      long as nothing is removed, at most one does. The stamps may repeat. */
  lemma CreatorsNeedRemoval(d: Storage, s: State, i: nat, j: nat)
    requires d.atomic && Reached(d, s) && i < j < |s.winners|
    requires Creator(s, s.winners[i]) && Creator(s, s.winners[j])
    ensures |s.wonAfter| == |s.winners| && s.wonAfter[i] < s.wonAfter[j] <= s.removals
  {
    var events: seq<Event> :| Exec(d, EMPTY, events) == Some(s);
    ExecKeepsCreators(d, EMPTY, events);
  }

  /** With a removal in between both succeed: the token of an absent file does not say which absence was seen. */
  lemma CreatorsBothWin() returns (s: State)
    ensures Reached(MANAGED, s) && |s.winners| == 2 && s.winners[0] != s.winners[1] && s.removals == 1
    ensures Creator(s, s.winners[0]) && Creator(s, s.winners[1])
  {
    s := Start(MANAGED);
    s := Next(MANAGED, s, Begin(0, Request(Some(Absent), Some("y"))));
    s := Next(MANAGED, s, Exists(0));
    s := Next(MANAGED, s, Begin(1, Request(Some(Absent), Some("z"))));
    s := Next(MANAGED, s, Exists(1));
    s := Next(MANAGED, s, ChangeIfMatch(0, 0));
    s := Next(MANAGED, s, OtherDelete);
    s := Next(MANAGED, s, ChangeIfMatch(1, 1));
  }

  // ----- Which guards make the revision log right -----

  lemma {:induction false} ExecAppend(d: Storage, s: State, events: seq<Event>, e: Event)
    requires Exec(d, s, events).Some? && Enabled(d, Exec(d, s, events).value, e)
    ensures Exec(d, s, events + [e]) == Some(Step(d, Exec(d, s, events).value, e))
    decreases |events|
  {
    if events == [] {
      assert [e][1..] == [] && ([] + [e]) == [e];
    } else {
      assert (events + [e])[1..] == events[1..] + [e];
      ExecAppend(d, Step(d, s, events[0]), events[1..], e);
    }
  }

  /** One more event of a run, for runs written out step by step. */
  lemma Next(d: Storage, s: State, e: Event) returns (t: State)
    requires Reached(d, s) && Enabled(d, s, e)
    ensures t == Step(d, s, e) && Reached(d, t)
  {
    t := Step(d, s, e);
    var events: seq<Event> :| Exec(d, EMPTY, events) == Some(s);
    ExecAppend(d, EMPTY, events, e);
  }

  lemma Start(d: Storage) returns (s: State)
    ensures s == EMPTY && Reached(d, s)
  {
    s := EMPTY;
    var none: seq<Event> := [];
    assert Exec(d, EMPTY, none) == Some(EMPTY);
  }

  /** The file is "x" with stamp 0, and writer 0 has read it. */
  lemma OneRead(d: Storage, guard: Option<Token>) returns (s: State)
    requires guard.Some? && guard.value.Stamp? ==> guard.value.n == 0
    ensures Reached(d, s) && s.file == Some(File("x", 0)) && s.issued == {0}
    ensures s.winners == [] && s.wonAfter == [] && s.log == []
    ensures s.writers == map[0 := Writer(Request(guard, Some("z")), HasBefore(Some("x")))]
  {
    s := Start(d);
    s := Next(d, s, OtherWrite("x", 0));
    s := Next(d, s, Begin(0, Request(guard, Some("z"))));
    s := Next(d, s, Exists(0));
    s := Next(d, s, ReadText(0));
  }

  datatype Kind = NoToken | AbsentToken | StampToken

  function KindOf(request: Request): Kind {
    match request.guard
    case None => NoToken
    case Some(Absent) => AbsentToken
    case Some(Stamp(_)) => StampToken
  }

  /** The file changes, in a way its guard does not see, before the compare of writer 0; or, with a stamp and a storage
      that compares first, between its compare and its change. */
  lemma ChangeAfterRead(d: Storage, guard: Option<Token>) returns (s: State)
    requires guard.Some? && guard.value.Stamp? ==> guard.value.n == 0 && !d.atomic
    ensures Reached(d, s) && 0 in s.writers && s.writers[0].request.guard == guard && s.log == []
    ensures s.writers[0].phase.Changed? && s.writers[0].phase.before == Some("x")
    ensures s.writers[0].phase.overwritten != Some("x")
  {
    s := OneRead(d, guard);
    var between := if guard == Some(Absent) then OtherDelete else OtherWrite("y", 1);
    if d.atomic {
      s := Next(d, s, between);
      s := Next(d, s, ChangeIfMatch(0, 2));
    } else if guard.Some? && guard.value.Stamp? {
      s := Next(d, s, Compare(0));
      s := Next(d, s, between);
      s := Next(d, s, Change(0, 2));
    } else {
      s := Next(d, s, between);
      s := Next(d, s, Compare(0));
      s := Next(d, s, Change(0, 2));
    }
  }

  /** With stamps that come back, as those of contents do, the file is another one just when writer 0 reads it. */
  lemma ReadBetweenStamps(d: Storage) returns (s: State)
    requires d.atomic && !d.unique
    ensures Reached(d, s) && 0 in s.writers && s.writers[0].request.guard == Some(Stamp(0)) && s.log == []
    ensures s.writers[0].phase == Changed(Some("y"), Some("x"))
  {
    s := Start(d);
    s := Next(d, s, OtherWrite("x", 0));
    s := Next(d, s, Begin(0, Request(Some(Stamp(0)), Some("z"))));
    s := Next(d, s, Exists(0));
    s := Next(d, s, OtherWrite("y", 1));
    s := Next(d, s, ReadText(0));
    s := Next(d, s, OtherWrite("x", 0));
    s := Next(d, s, ChangeIfMatch(0, 2));
  }

  /** A run in which a request of this kind logs a content that it did not replace. */
  lemma RaceLogsStale(d: Storage, kind: Kind) returns (s: State)
    requires !(d.atomic && d.unique && kind == StampToken)
    ensures Reached(d, s) && |s.log| == 1 && s.log[0].writer in s.writers
    ensures KindOf(s.writers[s.log[0].writer].request) == kind
    ensures s.log[0].before != s.log[0].overwritten
  {
    if kind == StampToken && d.atomic {
      s := ReadBetweenStamps(d);
    } else {
      var guard := match kind case NoToken => None case AbsentToken => Some(Absent) case StampToken => Some(Stamp(0));
      s := ChangeAfterRead(d, guard);
    }
    s := Next(d, s, Persist(0));
  }

  /** Every revision logged for a request of this kind, in every run, has the content that was really replaced. */
  ghost predicate LogsWhatItReplaced(d: Storage, kind: Kind) {
    forall s: State, i: nat | Reached(d, s) && i < |s.log| && s.log[i].writer in s.writers
                              && KindOf(s.writers[s.log[i].writer].request) == kind
      :: s.log[i].before == s.log[i].overwritten
  }

  /** The log is right for exactly the requests that carry the stamp of an existing file, on exactly the storages whose
      conditional write is atomic and whose stamps are unique. In every other case a change between the read and the
      write can go unnoticed. */
  lemma LogRightIffStamped(d: Storage, kind: Kind)
    ensures LogsWhatItReplaced(d, kind) <==> d.atomic && d.unique && kind == StampToken
  {
    if d.atomic && d.unique && kind == StampToken {
      forall s: State, i: nat | Reached(d, s) && i < |s.log| && s.log[i].writer in s.writers
                                && KindOf(s.writers[s.log[i].writer].request) == kind
        ensures s.log[i].before == s.log[i].overwritten
      {
        ReachedInv(s);
        assert Stamped(s, s.log[i].writer);
      }
    } else {
      var s := RaceLogsStale(d, kind);
      assert s.log[0].before != s.log[0].overwritten;
    }
  }

  // ----- What each event does to the file and to the log -----

  /** The token a client is given for this file: ":0" for a missing one. */
  function TokenOf(file: Option<File>): Token {
    match file
    case None => Absent
    case Some(f) => Stamp(f.stamp)
  }

  function Text(file: Option<File>): Option<string> {
    match file
    case None => None
    case Some(f) => Some(f.content)
  }

  /** Let through exactly without a token or with the file's own. */
  predicate LetThrough(guard: Option<Token>, file: Option<File>) {
    guard.None? || guard == Some(TokenOf(file))
  }

  function Wanted(request: Request, stamp: nat): Option<File> {
    match request.after
    case None => None
    case Some(content) => Some(File(content, stamp))
  }

  /** The file changes only by a request that was let through, and is then what that request wants, or by others. */
  lemma FileEffect(d: Storage, s: State, e: Event)
    requires Enabled(d, s, e)
    ensures Step(d, s, e).file ==
            match e
            case ChangeIfMatch(w, stamp) =>
              if LetThrough(s.writers[w].request.guard, s.file) then Wanted(s.writers[w].request, stamp) else s.file
            case Change(w, stamp) => Wanted(s.writers[w].request, stamp)
            case OtherWrite(content, stamp) => Some(File(content, stamp))
            case OtherDelete => None
            case _ => s.file
  {
  }

  /** A request reads the file's content once, or its absence; is refused by the guard or changes the file; and a
      change is logged with what was read, what was wanted, and what was there. */
  lemma WriterEffect(d: Storage, s: State, e: Event, w: Id)
    requires Enabled(d, s, e) && w in s.writers
    ensures var t, request := Step(d, s, e), s.writers[w].request;
            && w in t.writers && t.writers[w].request == request
            && match e
               case Exists(v) => v == w ==>
                 t.writers[w].phase == if s.file.Some? then FoundFile
                                       else if request.after.Some? then HasBefore(None) else Failed
               case ReadText(v) => v == w ==>
                 t.writers[w].phase == if s.file.Some? then HasBefore(Text(s.file)) else Failed
               case ChangeIfMatch(v, stamp) => v == w ==>
                 t.writers[w].phase == if LetThrough(request.guard, s.file)
                                       then Changed(s.writers[w].phase.before, Text(s.file)) else Conflict
               case Compare(v) => v == w ==>
                 t.writers[w].phase == if LetThrough(request.guard, s.file)
                                       then Matched(s.writers[w].phase.before) else Conflict
               case Change(v, stamp) => v == w ==>
                 t.writers[w].phase == Changed(s.writers[w].phase.before, Text(s.file))
               case Persist(v) => v == w ==>
                 var c := s.writers[w].phase;
                 t.log == s.log + [Revision(w, c.before, request.after, c.overwritten)]
               case _ => t.writers[w] == s.writers[w] && t.log == s.log
  {
  }

  predicate LogsRequests(s: State) {
    && (forall i | 0 <= i < |s.log| ::
          && s.log[i].writer in s.writers && s.log[i].after == s.writers[s.log[i].writer].request.after
          && s.writers[s.log[i].writer].phase == Logged)
    && forall i, j | 0 <= i < j < |s.log| :: s.log[i].writer != s.log[j].writer
  }

  lemma StepKeepsLog(d: Storage, s: State, e: Event)
    requires LogsRequests(s) && Enabled(d, s, e)
    ensures LogsRequests(Step(d, s, e))
  {
    var t := Step(d, s, e);
    forall i | 0 <= i < |s.log| ensures t.log[i] == s.log[i] {}
    forall w | w in s.writers && s.writers[w].phase == Logged ensures w in t.writers && t.writers[w] == s.writers[w] {}
  }

  lemma {:induction false} ExecKeepsLog(d: Storage, s: State, events: seq<Event>)
    requires LogsRequests(s) && Exec(d, s, events).Some?
    ensures LogsRequests(Exec(d, s, events).value)
    decreases |events|
  {
    if events != [] {
      StepKeepsLog(d, s, events[0]);
      ExecKeepsLog(d, Step(d, s, events[0]), events[1..]);
    }
  }

  /** On every storage and in every run each request is logged once at most, with the content it asked for. */
  lemma LoggedAsRequested(d: Storage, s: State, i: nat, j: nat)
    requires Reached(d, s) && i < |s.log| && j < |s.log|
    ensures s.log[i].writer in s.writers && s.log[i].after == s.writers[s.log[i].writer].request.after
    ensures s.log[i].writer == s.log[j].writer ==> i == j
  {
    var events: seq<Event> :| Exec(d, EMPTY, events) == Some(s);
    ExecKeepsLog(d, EMPTY, events);
  }

  // ----- Which storages let at most one writer through -----

  /** Of two winners, the first did not expect the stamp that the second did, and if both expected no file, a removal
      came between them. */
  predicate Apart(s: State, i: int, j: int) {
    0 <= i < j < |s.winners| <= |s.wonAfter| && s.winners[i] in s.writers && s.winners[j] in s.writers ==>
      && (Stamped(s, s.winners[i]) ==>
            s.writers[s.winners[i]].request.guard != s.writers[s.winners[j]].request.guard)
      && (Creator(s, s.winners[i]) && Creator(s, s.winners[j]) ==> s.wonAfter[i] < s.wonAfter[j])
  }

  ghost predicate OneWinner(d: Storage) {
    forall s: State, i: nat, j: nat | Reached(d, s) :: Apart(s, i, j)
  }

  lemma BothRead(d: Storage) returns (s: State)
    ensures Reached(d, s) && s.file == Some(File("x", 0)) && s.issued == {0} && s.winners == [] && s.wonAfter == []
    ensures forall w: Id | w < 2 :: w in s.writers
              && s.writers[w] == Writer(Request(Some(Stamp(0)), Some("z")), HasBefore(Some("x")))
  {
    var request := Request(Some(Stamp(0)), Some("z"));
    s := OneRead(d, request.guard);
    s := Next(d, s, Begin(1, request));
    s := Next(d, s, Exists(1));
    s := Next(d, s, ReadText(1));
  }

  /** Two writers with one stamp both succeed: both compare before either writes, or the stamp comes back. */
  lemma TwoWinners(d: Storage) returns (s: State)
    requires !d.atomic || !d.unique
    ensures Reached(d, s) && |s.winners| == |s.wonAfter| == 2
    ensures Guarded(s, s.winners[0], 0) && Guarded(s, s.winners[1], 0)
  {
    s := BothRead(d);
    if !d.atomic {
      s := Next(d, s, Compare(0));
      s := Next(d, s, Compare(1));
      s := Next(d, s, Change(0, 1));
      s := Next(d, s, Change(1, 2));
    } else {
      s := Next(d, s, ChangeIfMatch(0, 1));
      s := Next(d, s, OtherWrite("x", 0));
      s := Next(d, s, ChangeIfMatch(1, 1));   // the stamps may be those of the contents
    }
  }

  /** At most one winner per stamp, and per absence of the file, is what an atomic compare-and-change with unique stamps
      gives, and nothing less does. */
  lemma OneWinnerIffAtomicAndUnique(d: Storage)
    ensures OneWinner(d) <==> d.atomic && d.unique
  {
    if d.atomic && d.unique {
      forall s: State, i: nat, j: nat | Reached(d, s) ensures Apart(s, i, j) {
        ReachedInv(s);
        if i < j < |s.winners| && Creator(s, s.winners[i]) && Creator(s, s.winners[j]) {
          CreatorsNeedRemoval(d, s, i, j);
        }
      }
    } else {
      var s := TwoWinners(d);
      assert !Apart(s, 0, 1);
    }
  }

  // ----- The handler without interleaving -----

  class WorkspaceFile {
    var file: Option<File>
    ghost var issued: set<nat>
    ghost var log: seq<Revision>

    /** Alone, every write that succeeds logs what it replaced, whatever the guard. */
    method WriteWorkspaceFile(ghost w: Id, content: string, token: Option<Token>, stamp: nat) returns (ok: bool)
      requires stamp !in issued
      modifies this
      ensures ok <==> token.None? || token.value == (if old(file).Some? then Stamp(old(file).value.stamp) else Absent)
      ensures !ok ==> file == old(file) && issued == old(issued) && log == old(log)
      ensures ok ==>
        var before := if old(file).Some? then Some(old(file).value.content) else None;
        && file == Some(File(content, stamp)) && issued == old(issued) + {stamp}
        && log == old(log) + [Revision(w, before, Some(content), before)]
    {
      var before := None;
      if file.Some? {
        before := Some(file.value.content);
      }
      var current := if file.Some? then Stamp(file.value.stamp) else Absent;
      if token.Some? && current != token.value {
        return false;
      }
      ghost var overwritten := if file.Some? then Some(file.value.content) else None;
      file := Some(File(content, stamp));
      issued := issued + {stamp};
      log := log + [Revision(w, before, Some(content), overwritten)];
      return true;
    }
  }
}
