/** Opaque page cursors (engine/app/api/chat_sessions.py, lines 70-106 and 278-312;
    engine/app/schemas/activity_responses.py, lines 35-53): a position bound to whoever it was issued for, as unpadded
    base64url over the JSON of the cursor model. What a client sees by sending `next_cursor` back. */
module SessionCursor {
  import opened Results
  import opened Utf8
  import opened Base64Url
  import opened Paging
  import opened MovingRows

  /** `binding` is what the cursor may be used for: agent and scope, agent and action type, user and status. */
  datatype Cursor<B> = Cursor(binding: B, position: Key)

  datatype CursorError = Invalid | Foreign

  /** The model's JSON writer and its validating reader; the reader rejects what is not a cursor. */
  datatype Codec<!B> = Codec(dump: Cursor<B> -> seq<Byte>, load: seq<Byte> -> Option<Cursor<B>>)

  ghost predicate Inverse<B(!new)>(codec: Codec<B>) {
    forall c :: codec.load(codec.dump(c)) == Some(c)
  }

  function Issue<B>(codec: Codec<B>, binding: B, position: Key): string {
    EncodeUnpadded(codec.dump(Cursor(binding, position)))
  }

  function Parse<B(==)>(codec: Codec<B>, raw: Option<string>, binding: B): Result<Option<Key>, CursorError> {
    if raw.None? then Ok(None)
    else
      match DecodeUnpadded(raw.value)
      case None => Err(Invalid)
      case Some(bytes) =>
        match codec.load(bytes)
        case None => Err(Invalid)
        case Some(c) => if c.binding != binding then Err(Foreign) else Ok(Some(c.position))
  }

  /** The cursor that the model's reader finds in a text. */
  function Loaded<B>(codec: Codec<B>, raw: string): Option<Cursor<B>> {
    match DecodeUnpadded(raw)
    case None => None
    case Some(bytes) => codec.load(bytes)
  }

  /** Each outcome, and when it comes: a text is invalid when it is no base64url, or the reader refuses its bytes;
      foreign when it names another binding; and a position otherwise. Only a missing cursor starts at the front. */
  lemma ParseOutcome<B>(codec: Codec<B>, raw: string, binding: B)
    ensures Parse(codec, None, binding) == Ok(None)
    ensures !Decodable(raw) ==> Parse(codec, Some(raw), binding) == Err(Invalid)
    ensures Decodable(raw) <==> DecodeUnpadded(raw).Some?
    ensures Parse(codec, Some(raw), binding) ==
            match Loaded(codec, raw)
            case None => Err(Invalid)
            case Some(c) => if c.binding == binding then Ok(Some(c.position)) else Err(Foreign)
  {
    DecodesIff(raw);
  }

  /** An issued cursor gives its position back to the binding it was issued for, and to no other. */
  lemma IssuedParses<B(!new)>(codec: Codec<B>, issuer: B, reader: B, position: Key)
    requires Inverse(codec)
    ensures Parse(codec, Some(Issue(codec, issuer, position)), reader) ==
            if reader == issuer then Ok(Some(position)) else Err(Foreign)
  {
    RoundTrip(codec.dump(Cursor(issuer, position)));
  }

  /** Two issued cursors are the same text only if they are the same cursor. */
  lemma IssueInjective<B(!new)>(codec: Codec<B>, b0: B, b1: B, p0: Key, p1: Key)
    requires Inverse(codec) && Issue(codec, b0, p0) == Issue(codec, b1, p1)
    ensures b0 == b1 && p0 == p1
  {
    IssuedParses(codec, b0, b0, p0);
    IssuedParses(codec, b1, b0, p1);
  }

  // ----- A client that follows next_cursor -----

  /** One request to the handler: the rows fetched from the table of that moment and the answer built from them. */
  datatype Exchange = Exchange(table: set<Key>, fetched: seq<Key>, items: seq<Key>, nextCursor: Option<string>)

  /** `lead` is the shared session in front of the first page; the other listings have none. */
  ghost predicate Answers<B(!new)>(codec: Codec<B>, binding: B, lead: seq<Key>, raw: Option<string>, limit: nat,
                                   r: Exchange)
    requires limit >= 1
  {
    && var after := Parse(codec, raw, binding);
    && after.Ok?
    && Fetched(r.table, after.value, limit + 1, r.fetched)
    && var selected := Selected(r.fetched, limit);
    && r.items == (if after.value.Some? then selected else lead + selected)
    && r.nextCursor == if |r.fetched| > limit then Some(Issue(codec, binding, selected[limit - 1])) else None
  }

  ghost predicate Followed<B(!new)>(codec: Codec<B>, binding: B, lead: seq<Key>, raw: Option<string>, limit: nat,
                                    exchanges: seq<Exchange>)
    requires limit >= 1
    decreases |exchanges|
  {
    && exchanges != []
    && Answers(codec, binding, lead, raw, limit, exchanges[0])
    && (exchanges[0].nextCursor.None? <==> |exchanges| == 1)
    && (exchanges[0].nextCursor.Some? ==>
          Followed(codec, binding, lead, exchanges[0].nextCursor, limit, exchanges[1..]))
  }

  function Tables(exchanges: seq<Exchange>): seq<set<Key>> {
    if exchanges == [] then [] else [exchanges[0].table] + Tables(exchanges[1..])
  }

  function Fetches(exchanges: seq<Exchange>): seq<seq<Key>> {
    if exchanges == [] then [] else [exchanges[0].fetched] + Fetches(exchanges[1..])
  }

  function Shown(exchanges: seq<Exchange>): seq<Key> {
    if exchanges == [] then [] else exchanges[0].items + Shown(exchanges[1..])
  }

  /** The cursor in an answer stands for the position its page ended at. */
  lemma AnswerCarriesCursor<B(!new)>(codec: Codec<B>, binding: B, lead: seq<Key>, raw: Option<string>, limit: nat,
                                     r: Exchange)
    requires Inverse(codec) && limit >= 1 && Answers(codec, binding, lead, raw, limit, r)
    ensures r.nextCursor.Some? <==> NextCursor(r.fetched, limit).Some?
    ensures r.nextCursor.Some? ==> Parse(codec, r.nextCursor, binding) == Ok(NextCursor(r.fetched, limit))
  {
    if r.nextCursor.Some? {
      IssuedParses(codec, binding, binding, Selected(r.fetched, limit)[limit - 1]);
    }
  }

  /** Text cursors carry a traversal exactly as positions would. */
  lemma {:induction false} FollowedIsTraversal<B(!new)>(codec: Codec<B>, binding: B, lead: seq<Key>, after: Option<Key>,
                                                        raw: Option<string>, limit: nat, exchanges: seq<Exchange>)
    requires Inverse(codec) && limit >= 1 && Followed(codec, binding, lead, raw, limit, exchanges)
    requires Parse(codec, raw, binding) == Ok(after)
    ensures Traversal(after, Tables(exchanges), Fetches(exchanges), limit)
    decreases |exchanges|
  {
    var first, rest := exchanges[0], exchanges[1..];
    AnswerCarriesCursor(codec, binding, lead, raw, limit, first);
    if first.nextCursor.Some? {
      FollowedIsTraversal(codec, binding, lead, NextCursor(first.fetched, limit), first.nextCursor, limit, rest);
    } else {
      assert rest == [];
    }
    TraversalStep(after, first, Tables(rest), Fetches(rest), limit);
  }

  /** The pages shown are those of the traversal, with the lead in front of the first page only. */
  lemma {:induction false} FollowedShows<B(!new)>(codec: Codec<B>, binding: B, lead: seq<Key>, after: Option<Key>,
                                                  raw: Option<string>, limit: nat, exchanges: seq<Exchange>)
    requires Inverse(codec) && limit >= 1 && Followed(codec, binding, lead, raw, limit, exchanges)
    requires Parse(codec, raw, binding) == Ok(after)
    ensures Shown(exchanges) == (if after.Some? then [] else lead) + Listing(Fetches(exchanges), limit)
    decreases |exchanges|
  {
    var first, rest := exchanges[0], exchanges[1..];
    var front, selected := if after.Some? then [] else lead, Selected(first.fetched, limit);
    AnswerCarriesCursor(codec, binding, lead, raw, limit, first);
    ListingStep(first, Fetches(rest), limit);
    if first.nextCursor.Some? {
      FollowedShows(codec, binding, lead, NextCursor(first.fetched, limit), first.nextCursor, limit, rest);
      assert Shown(rest) == [] + Listing(Fetches(rest), limit) == Listing(Fetches(rest), limit);
    } else {
      assert rest == [];
    }
    assert first.items == front + selected;
    Join(front, selected, Listing(Fetches(rest), limit));
  }

  lemma {:induction false} ColumnsAt(exchanges: seq<Exchange>)
    ensures |Tables(exchanges)| == |Fetches(exchanges)| == |exchanges|
    ensures forall i | 0 <= i < |exchanges| :: exchanges[i] in exchanges && Tables(exchanges)[i] == exchanges[i].table
  {
    if exchanges != [] { ColumnsAt(exchanges[1..]); }
  }

  lemma ListingStep(r: Exchange, fetches: seq<seq<Key>>, limit: nat)
    ensures Listing([r.fetched] + fetches, limit) == Selected(r.fetched, limit) + Listing(fetches, limit)
  {
  }

  lemma TraversalStep(cursor: Option<Key>, r: Exchange, tables: seq<set<Key>>, fetches: seq<seq<Key>>, limit: nat)
    requires limit >= 1 && |tables| == |fetches| && Fetched(r.table, cursor, limit + 1, r.fetched)
    requires NextCursor(r.fetched, limit).None? <==> fetches == []
    requires NextCursor(r.fetched, limit).Some? ==> Traversal(NextCursor(r.fetched, limit), tables, fetches, limit)
    ensures Traversal(cursor, [r.table] + tables, [r.fetched] + fetches, limit)
  {
  }

  lemma Join<T>(a: seq<T>, b: seq<T>, c: seq<T>)
    ensures (a + b) + c == a + (b + c)
  {
  }

  /** The client sees the shared session first and no session twice, however their sort keys move forward meanwhile; and
      a session that is there at every request is shown, unless a message moved it past the cursor before the page that
      would have shown it. */
  lemma SharedSessionLeads<B(!new)>(codec: Codec<B>, binding: B, shared: Key, limit: nat, exchanges: seq<Exchange>,
                                    keys: seq<Key>, id: int)
    requires Inverse(codec) && limit >= 1 && Followed(codec, binding, [shared], None, limit, exchanges)
    requires OnlyForward(Tables(exchanges))
    requires forall r, k | r in exchanges && k in r.table :: k.id != shared.id
    requires Present(Tables(exchanges), keys, id)
    ensures |Shown(exchanges)| >= 1 && Shown(exchanges)[0] == shared
    ensures DistinctIds(Shown(exchanges))
    ensures |keys| == |Fetches(exchanges)|
    ensures HasId(Shown(exchanges)[1..], id) <==> forall i :: !Overtaken(None, Fetches(exchanges), limit, keys, i)
  {
    FollowedIsTraversal(codec, binding, [shared], None, None, limit, exchanges);
    FollowedShows(codec, binding, [shared], None, None, limit, exchanges);
    ColumnsAt(exchanges);
    var rows := Listing(Fetches(exchanges), limit);
    assert Shown(exchanges) == [shared] + rows && Shown(exchanges)[1..] == rows;
    NoIdTwice(None, Tables(exchanges), Fetches(exchanges), limit);
    forall i | 0 <= i < |rows| ensures rows[i].id != shared.id {
      ShownIsInTable(None, Tables(exchanges), Fetches(exchanges), limit, rows[i]);
    }
    ReturnedUnlessOvertaken(None, Tables(exchanges), Fetches(exchanges), limit, keys, id);
  }
}
