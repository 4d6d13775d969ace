/** Keyset pages over rows that move while they are read. A chat session's `last_message_at` is written anew with every
    message (engine/app/services/chat_persist.py, line 51), which puts the session further forward in the listing of
    engine/app/dao/chat_dao.py, lines 251-305. Rows are told apart by their ids here, not by their sort keys. */
module MovingRows {
  import opened Results
  import opened Paging

  /** The row is where it was, or further forward. */
  predicate Forward(later: Key, earlier: Key) {
    later == earlier || Before(later, earlier)
  }

  predicate MovedForward(table: set<Key>, later: set<Key>) {
    forall k, l | k in table && l in later && k.id == l.id :: Forward(l, k)
  }

  /** From each read to any later one, a row with the same id has only moved forward; within one read ids are unique. */
  ghost predicate OnlyForward(tables: seq<set<Key>>) {
    forall i, j | 0 <= i <= j < |tables| :: MovedForward(tables[i], tables[j])
  }

  predicate HasId(rows: seq<Key>, id: int) {
    exists i | 0 <= i < |rows| :: rows[i].id == id
  }

  ghost predicate DistinctIds(rows: seq<Key>) {
    forall i, j | 0 <= i < j < |rows| :: rows[i].id != rows[j].id
  }

  lemma TailForward(tables: seq<set<Key>>)
    requires OnlyForward(tables) && |tables| >= 1
    ensures OnlyForward(tables[1..])
  {
    forall i, j | 0 <= i <= j < |tables[1..]| ensures MovedForward(tables[1..][i], tables[1..][j]) {
      assert MovedForward(tables[i + 1], tables[j + 1]);
    }
  }

  lemma ShownIsInTable(cursor: Option<Key>, tables: seq<set<Key>>, fetches: seq<seq<Key>>, limit: nat, l: Key)
    requires limit >= 1 && Traversal(cursor, tables, fetches, limit) && l in Listing(fetches, limit)
    ensures After(cursor, l) && exists j | 0 <= j < |tables| :: l in tables[j]
  {
    ListingOrdered(cursor, tables, fetches, limit);
    ListingExact(cursor, tables, fetches, limit, l);
  }

  lemma BehindAndForward(next: Key, k: Key, l: Key)
    requires Before(next, l) && !Before(next, k)
    ensures !Forward(l, k)
  {
    BeforeIsStrictTotal(next, l, k);
    BeforeIsStrictTotal(next, k, l);
  }

  /** A row of this page comes in no later page, wherever it has moved. */
  lemma NotShownAgain(cursor: Option<Key>, tables: seq<set<Key>>, fetches: seq<seq<Key>>, limit: nat, k: Key, l: Key)
    requires limit >= 1 && Traversal(cursor, tables, fetches, limit) && OnlyForward(tables)
    requires NextCursor(fetches[0], limit).Some?
    requires k in Selected(fetches[0], limit) && l in Listing(fetches[1..], limit)
    ensures k.id != l.id
  {
    var next := NextCursor(fetches[0], limit);
    ShownIsInTable(next, tables[1..], fetches[1..], limit, l);
    var j :| 0 <= j < |tables[1..]| && l in tables[1..][j];
    PageExact(tables[0], cursor, fetches[0], limit, k);
    BehindAndForward(next.value, k, l);
    assert MovedForward(tables[0], tables[j + 1]) && l in tables[j + 1];
  }

  /** No id is returned twice. */
  lemma {:induction false} NoIdTwice(cursor: Option<Key>, tables: seq<set<Key>>, fetches: seq<seq<Key>>, limit: nat)
    requires limit >= 1 && Traversal(cursor, tables, fetches, limit) && OnlyForward(tables)
    ensures DistinctIds(Listing(fetches, limit))
    decreases |fetches|
  {
    var page, rest := Selected(fetches[0], limit), Listing(fetches[1..], limit);
    var all := Listing(fetches, limit);
    assert all == page + rest;
    if NextCursor(fetches[0], limit).Some? {
      TailForward(tables);
      NoIdTwice(NextCursor(fetches[0], limit), tables[1..], fetches[1..], limit);
    } else {
      assert fetches[1..] == [];
    }
    forall i, j | 0 <= i < j < |all| ensures all[i].id != all[j].id {
      if j < |page| {
        PageIdsDistinct(tables[0], cursor, fetches[0], limit, i, j, tables);
      } else if i < |page| {
        assert all[i] in page && all[j] == rest[j - |page|];
        NotShownAgain(cursor, tables, fetches, limit, all[i], all[j]);
      } else {
        assert all[i] == rest[i - |page|] && all[j] == rest[j - |page|];
      }
    }
  }

  lemma PageIdsDistinct(table: set<Key>, cursor: Option<Key>, rows: seq<Key>, limit: nat, i: nat, j: nat,
                        tables: seq<set<Key>>)
    requires limit >= 1 && Fetched(table, cursor, limit + 1, rows) && i < j < |Selected(rows, limit)|
    requires |tables| >= 1 && tables[0] == table && OnlyForward(tables)
    ensures Selected(rows, limit)[i].id != Selected(rows, limit)[j].id
  {
    var k, l := rows[i], rows[j];
    assert k in rows && l in rows && Before(k, l);
    assert MovedForward(tables[0], tables[0]);
    BeforeIsStrictTotal(k, l, k);
  }

  // ----- A row that is there at every read -----

  /** `keys[i]` is the place of the row with this id when page `i` is read. */
  ghost predicate Present(tables: seq<set<Key>>, keys: seq<Key>, id: int) {
    && |keys| == |tables|
    && forall i | 0 <= i < |keys| :: keys[i].id == id && keys[i] in tables[i]
  }

  /** The row was still to come when the page before `i` had been read, and had moved to the cursor or past it when page
      `i` was. */
  predicate Overtaken(cursor: Option<Key>, fetches: seq<seq<Key>>, limit: nat, keys: seq<Key>, i: int)
    requires limit >= 1 && |keys| == |fetches|
  {
    && 0 < i < |fetches|
    && After(CursorAt(cursor, fetches, limit, i), keys[i - 1]) && !After(CursorAt(cursor, fetches, limit, i), keys[i])
  }

  lemma TailPresent(tables: seq<set<Key>>, keys: seq<Key>, id: int)
    requires |tables| >= 1 && Present(tables, keys, id)
    ensures Present(tables[1..], keys[1..], id)
  {
  }

  lemma TailOvertaken(cursor: Option<Key>, fetches: seq<seq<Key>>, limit: nat, keys: seq<Key>, i: int)
    requires limit >= 1 && |keys| == |fetches| >= 1 && 1 < i < |fetches|
    ensures Overtaken(cursor, fetches, limit, keys, i) <==>
            Overtaken(NextCursor(fetches[0], limit), fetches[1..], limit, keys[1..], i - 1)
  {
    assert CursorAt(NextCursor(fetches[0], limit), fetches[1..], limit, i - 1) == CursorAt(cursor, fetches, limit, i);
  }

  /** A row that the cursor has passed is neither returned nor overtaken any more. */
  lemma {:induction false} PassedStaysPassed(cursor: Option<Key>, tables: seq<set<Key>>, fetches: seq<seq<Key>>,
                                             limit: nat, keys: seq<Key>, id: int)
    requires limit >= 1 && Traversal(cursor, tables, fetches, limit)
    requires OnlyForward(tables) && Present(tables, keys, id) && !After(cursor, keys[0])
    ensures !HasId(Listing(fetches, limit), id)
    ensures forall i :: !Overtaken(cursor, fetches, limit, keys, i)
    decreases |fetches|
  {
    var page, next := Selected(fetches[0], limit), NextCursor(fetches[0], limit);
    NotOnPage(cursor, tables, fetches, limit, keys, id);
    if next.Some? {
      assert MovedForward(tables[0], tables[1]) && keys[1] in tables[1];
      assert next.value in fetches[0];
      BeforeIsStrictTotal(keys[1], keys[0], cursor.value);
      BeforeIsStrictTotal(cursor.value, next.value, keys[1]);
      BeforeIsStrictTotal(cursor.value, next.value, keys[0]);
      BeforeIsStrictTotal(keys[1], keys[0], keys[1]);
      BeforeIsStrictTotal(cursor.value, keys[1], keys[0]);
      TailForward(tables);
      TailPresent(tables, keys, id);
      PassedStaysPassed(next, tables[1..], fetches[1..], limit, keys[1..], id);
      ShownFromRest(fetches, limit, id);
      forall i ensures !Overtaken(cursor, fetches, limit, keys, i) {
        if 1 < i < |fetches| { TailOvertaken(cursor, fetches, limit, keys, i); }
      }
    } else {
      assert fetches[1..] == [];
      assert Listing(fetches, limit) == page;
    }
  }

  /** A page returns the id exactly when it returns the row where it is at this read. */
  lemma OnPage(cursor: Option<Key>, tables: seq<set<Key>>, fetches: seq<seq<Key>>, limit: nat, keys: seq<Key>, id: int)
    requires limit >= 1 && |tables| == |fetches| >= 1 && Fetched(tables[0], cursor, limit + 1, fetches[0])
    requires OnlyForward(tables) && Present(tables, keys, id)
    ensures HasId(Selected(fetches[0], limit), id) <==> keys[0] in Selected(fetches[0], limit)
  {
    var page := Selected(fetches[0], limit);
    if i :| 0 <= i < |page| && page[i].id == id {
      assert page[i] in fetches[0] && MovedForward(tables[0], tables[0]);
      BeforeIsStrictTotal(page[i], keys[0], page[i]);
    }
  }

  lemma NotOnPage(cursor: Option<Key>, tables: seq<set<Key>>, fetches: seq<seq<Key>>, limit: nat, keys: seq<Key>,
                  id: int)
    requires limit >= 1 && |tables| == |fetches| >= 1 && Fetched(tables[0], cursor, limit + 1, fetches[0])
    requires OnlyForward(tables) && Present(tables, keys, id) && !After(cursor, keys[0])
    ensures !HasId(Selected(fetches[0], limit), id)
  {
    OnPage(cursor, tables, fetches, limit, keys, id);
    PageExact(tables[0], cursor, fetches[0], limit, keys[0]);
  }

  lemma ShownFromRest(fetches: seq<seq<Key>>, limit: nat, id: int)
    requires fetches != []
    ensures HasId(Listing(fetches, limit), id) <==>
            HasId(Selected(fetches[0], limit), id) || HasId(Listing(fetches[1..], limit), id)
  {
    var page, rest := Selected(fetches[0], limit), Listing(fetches[1..], limit);
    var all := Listing(fetches, limit);
    assert all == page + rest;
    if i :| 0 <= i < |page| && page[i].id == id { assert all[i].id == id; }
    if i :| 0 <= i < |rest| && rest[i].id == id { assert all[|page| + i].id == id; }
    if i :| 0 <= i < |all| && all[i].id == id {
      if i < |page| { assert page[i].id == id; } else { assert rest[i - |page|].id == id; }
    }
  }

  /** A row that is there at every read is returned, unless at some read it had moved past the cursor before the page
      that would have shown it. */
  lemma {:induction false} ReturnedUnlessOvertaken(cursor: Option<Key>, tables: seq<set<Key>>, fetches: seq<seq<Key>>,
                                                   limit: nat, keys: seq<Key>, id: int)
    requires limit >= 1 && Traversal(cursor, tables, fetches, limit)
    requires OnlyForward(tables) && Present(tables, keys, id) && After(cursor, keys[0])
    ensures HasId(Listing(fetches, limit), id) <==> forall i :: !Overtaken(cursor, fetches, limit, keys, i)
    decreases |fetches|
  {
    var page, next := Selected(fetches[0], limit), NextCursor(fetches[0], limit);
    OnPage(cursor, tables, fetches, limit, keys, id);
    PageExact(tables[0], cursor, fetches[0], limit, keys[0]);
    if next.Some? {
      TailForward(tables);
      TailPresent(tables, keys, id);
      ShownFromRest(fetches, limit, id);
      assert CursorAt(cursor, fetches, limit, 1) == next;
      assert Overtaken(cursor, fetches, limit, keys, 1) <==> After(next, keys[0]) && !After(next, keys[1]);
      forall i | 1 < i < |fetches| {
        TailOvertaken(cursor, fetches, limit, keys, i);
      }
      if After(next, keys[1]) {
        assert MovedForward(tables[0], tables[1]) && keys[1] in tables[1];
        BeforeIsStrictTotal(next.value, keys[1], keys[0]);
        assert After(next, keys[0]);
        ReturnedUnlessOvertaken(next, tables[1..], fetches[1..], limit, keys[1..], id);
        OvertakenLater(cursor, fetches, limit, keys);
      } else {
        PassedStaysPassed(next, tables[1..], fetches[1..], limit, keys[1..], id);
        OvertakenLater(cursor, fetches, limit, keys);
      }
    } else {
      assert fetches[1..] == [];
      assert Listing(fetches, limit) == page;
    }
  }

  lemma OvertakenLater(cursor: Option<Key>, fetches: seq<seq<Key>>, limit: nat, keys: seq<Key>)
    requires limit >= 1 && |keys| == |fetches| >= 1
    ensures (forall i :: !Overtaken(cursor, fetches, limit, keys, i)) <==>
            && !Overtaken(cursor, fetches, limit, keys, 1)
            && forall i :: !Overtaken(NextCursor(fetches[0], limit), fetches[1..], limit, keys[1..], i)
  {
    forall i | 1 < i < |fetches|
      ensures Overtaken(cursor, fetches, limit, keys, i) <==>
              Overtaken(NextCursor(fetches[0], limit), fetches[1..], limit, keys[1..], i - 1)
    {
      TailOvertaken(cursor, fetches, limit, keys, i);
    }
    if i :| Overtaken(NextCursor(fetches[0], limit), fetches[1..], limit, keys[1..], i) {
      assert Overtaken(cursor, fetches, limit, keys, i + 1);
    }
  }

  /** A session that gets a message between two reads can be missed: it stood behind the cursor and moves in front. */
  lemma MovingRowCanBeMissed()
    ensures var top, low, moved := Key(Some(10), 0, 2), Key(Some(5), 0, 1), Key(Some(20), 0, 1);
            var tables, fetches := [{top, low}, {top, moved}], [[top, low], []];
            && Traversal(None, tables, fetches, 1) && OnlyForward(tables)
            && Present(tables, [low, moved], 1) && !HasId(Listing(fetches, 1), 1)
            && Overtaken(None, fetches, 1, [low, moved], 1)
  {
    var top, low, moved := Key(Some(10), 0, 2), Key(Some(5), 0, 1), Key(Some(20), 0, 1);
    var tables: seq<set<Key>>, fetches := [{top, low}, {top, moved}], [[top, low], []];
    assert Fetched(tables[0], None, 2, fetches[0]);
    assert Fetched(tables[1], Some(top), 2, fetches[1]);
    assert Traversal(Some(top), tables[1..], fetches[1..], 1);
    assert Traversal(None, tables, fetches, 1);
    forall i, j | 0 <= i <= j < 2 ensures MovedForward(tables[i], tables[j]) {}
    assert OnlyForward(tables) && Overtaken(None, fetches, 1, [low, moved], 1);
    ReturnedUnlessOvertaken(None, tables, fetches, 1, [low, moved], 1);
  }
}
