/** Keyset pages (engine/app/api/activity.py, lines 79-98; engine/app/api/company_admissions.py, lines 34-50 and
    79-95; engine/app/api/company_transfers.py, lines 35-44 and 63-72; engine/app/api/chat_sessions.py,
    lines 293-312): what following `next_cursor` returns while the table changes between reads. */
module Paging {
  import opened Results

  /** A row's place in the order `major DESC NULLS LAST, minor DESC, id DESC`. Ids are unique, so a row is its key. */
  datatype Key = Key(major: Option<int>, minor: int, id: int)

  predicate Before(a: Key, b: Key) {
    || (a.major.Some? && (b.major.None? || a.major.value > b.major.value))
    || (a.major == b.major && (a.minor > b.minor || (a.minor == b.minor && a.id > b.id)))
  }

  // ----- The seek clauses of the queries -----

  /** SQL's `(a, b) < (c, d)`. */
  predicate RowLess(a: int, b: int, c: int, d: int) {
    a < c || (a == c && b < d)
  }

  /** engine/app/dao/chat_dao.py, lines 281-294: a comparison with NULL is never true. */
  predicate SessionSeek(after: Key, row: Key) {
    if after.major.None? then
      row.major.None? && RowLess(row.minor, row.id, after.minor, after.id)
    else
      || (row.major.Some? && row.major.value < after.major.value)
      || (row.major.Some? && row.major == after.major && RowLess(row.minor, row.id, after.minor, after.id))
      || row.major.None?
  }

  /** engine/app/dao/activity_log_dao.py, lines 86-96. */
  predicate ActivitySeek(createdAt: Option<int>, id: int, rowCreatedAt: Option<int>, rowId: int) {
    if createdAt.None? then
      rowCreatedAt.None? && rowId < id
    else
      || (rowCreatedAt.Some? && rowCreatedAt.value < createdAt.value)
      || (rowCreatedAt == createdAt && rowId < id)
      || rowCreatedAt.None?
  }

  /** engine/app/dao/company_admission_dao.py, lines 91-93, and company_transfer_dao.py, lines 54-56. */
  predicate RequestSeek(createdAt: int, id: int, rowCreatedAt: int, rowId: int) {
    RowLess(rowCreatedAt, rowId, createdAt, id)
  }

  /** Each seek clause selects exactly the rows that its query orders after the cursor. */
  lemma SeekIsOrder(a: Key, b: Key, c: int, d: int)
    ensures SessionSeek(a, b) <==> Before(a, b)
    ensures ActivitySeek(a.major, a.id, b.major, b.id) <==> Before(Key(a.major, 0, a.id), Key(b.major, 0, b.id))
    ensures RequestSeek(c, a.id, d, b.id) <==> Before(Key(Some(c), 0, a.id), Key(Some(d), 0, b.id))
  {
  }

  lemma BeforeIsStrictTotal(a: Key, b: Key, c: Key)
    ensures !Before(a, a)
    ensures Before(a, b) && Before(b, c) ==> Before(a, c)
    ensures a != b ==> (Before(a, b) <==> !Before(b, a))
  {
  }

  // ----- One page -----

  predicate After(cursor: Option<Key>, k: Key) {
    cursor.Some? ==> Before(cursor.value, k)
  }

  ghost predicate Ordered(rows: seq<Key>) {
    forall i, j | 0 <= i < j < |rows| :: Before(rows[i], rows[j])
  }

  /** What the query returns: the first `n` rows of the table after the cursor, in order. */
  ghost predicate Fetched(table: set<Key>, cursor: Option<Key>, n: nat, rows: seq<Key>) {
    && Ordered(rows) && |rows| <= n
    && (forall k | k in rows :: k in table && After(cursor, k))
    && (forall k | k in table && After(cursor, k) && k !in rows ::
          |rows| == n && forall r | r in rows :: Before(r, k))
  }

  function Selected(rows: seq<Key>, limit: nat): seq<Key> {
    if |rows| > limit then rows[..limit] else rows
  }

  function NextCursor(rows: seq<Key>, limit: nat): Option<Key>
    requires limit >= 1
  {
    if |rows| > limit then Some(Selected(rows, limit)[limit - 1]) else None
  }

  // ----- Following the cursor -----

  /** Pages read one after the other, `tables[i]` being the table when page `i` is read, until no cursor is given. */
  ghost predicate Traversal(cursor: Option<Key>, tables: seq<set<Key>>, fetches: seq<seq<Key>>, limit: nat)
    requires limit >= 1
    decreases |fetches|
  {
    && |tables| == |fetches| >= 1
    && Fetched(tables[0], cursor, limit + 1, fetches[0])
    && var next := NextCursor(fetches[0], limit);
    && (next.None? <==> |fetches| == 1)
    && (next.Some? ==> Traversal(next, tables[1..], fetches[1..], limit))
  }

  function Listing(fetches: seq<seq<Key>>, limit: nat): seq<Key> {
    if fetches == [] then [] else Selected(fetches[0], limit) + Listing(fetches[1..], limit)
  }

  /** The cursor page `i` is read with. */
  function CursorAt(cursor: Option<Key>, fetches: seq<seq<Key>>, limit: nat, i: nat): Option<Key>
    requires limit >= 1 && i <= |fetches|
  {
    if i == 0 then cursor else NextCursor(fetches[i - 1], limit)
  }

  /** Page `i` is the one whose stretch of the order holds `k`. */
  predicate Covers(cursor: Option<Key>, fetches: seq<seq<Key>>, limit: nat, i: nat, k: Key)
    requires limit >= 1 && i < |fetches|
  {
    && After(CursorAt(cursor, fetches, limit, i), k)
    && var next := NextCursor(fetches[i], limit); (next.Some? ==> !Before(next.value, k))
  }

  lemma PageExact(table: set<Key>, cursor: Option<Key>, rows: seq<Key>, limit: nat, k: Key)
    requires limit >= 1 && Fetched(table, cursor, limit + 1, rows)
    ensures var next := NextCursor(rows, limit);
            k in Selected(rows, limit) <==> k in table && After(cursor, k) && (next.Some? ==> !Before(next.value, k))
  {
  }

  /** The pages together are in strict order, so no row is returned twice. */
  lemma {:induction false} ListingOrdered(cursor: Option<Key>, tables: seq<set<Key>>, fetches: seq<seq<Key>>,
                                          limit: nat)
    requires limit >= 1 && Traversal(cursor, tables, fetches, limit)
    ensures Ordered(Listing(fetches, limit))
    ensures forall k | k in Listing(fetches, limit) :: After(cursor, k)
    decreases |fetches|
  {
    var items, next := Selected(fetches[0], limit), NextCursor(fetches[0], limit);
    assert forall k | k in items :: k in fetches[0];
    if next.Some? {
      var rest := Listing(fetches[1..], limit);
      ListingOrdered(next, tables[1..], fetches[1..], limit);
      var last := items[limit - 1];
      var all := Listing(fetches, limit);
      forall i, j | 0 <= i < j < |all| ensures Before(all[i], all[j]) {
        if i < limit <= j {
          assert all[j] == rest[j - limit] && rest[j - limit] in rest;
          BeforeIsStrictTotal(items[i], last, all[j]);
        }
      }
      assert last in items;
      forall k | k in rest ensures After(cursor, k) {
        if cursor.Some? { BeforeIsStrictTotal(cursor.value, last, k); }
      }
    } else {
      assert fetches[1..] == [];
      assert Listing(fetches, limit) == items;
    }
  }

  lemma {:induction false} CoveredAfter(cursor: Option<Key>, tables: seq<set<Key>>, fetches: seq<seq<Key>>,
                                        limit: nat, i: nat, k: Key)
    requires limit >= 1 && Traversal(cursor, tables, fetches, limit) && i < |fetches|
    requires After(CursorAt(cursor, fetches, limit, i), k)
    ensures After(cursor, k)
    decreases |fetches|
  {
    if i > 0 {
      var next := NextCursor(fetches[0], limit);
      assert CursorAt(next, fetches[1..], limit, i - 1) == CursorAt(cursor, fetches, limit, i);
      CoveredAfter(next, tables[1..], fetches[1..], limit, i - 1, k);
      assert next.value in fetches[0];
      if cursor.Some? { BeforeIsStrictTotal(cursor.value, next.value, k); }
    }
  }

  /** Exactly which rows a traversal returns: those in the table at the one read that covers their place. */
  lemma {:induction false} ListingExact(cursor: Option<Key>, tables: seq<set<Key>>, fetches: seq<seq<Key>>,
                                        limit: nat, k: Key)
    requires limit >= 1 && Traversal(cursor, tables, fetches, limit)
    ensures k in Listing(fetches, limit) <==>
            exists i | 0 <= i < |fetches| :: Covers(cursor, fetches, limit, i, k) && k in tables[i]
    ensures After(cursor, k) ==> exists i | 0 <= i < |fetches| :: Covers(cursor, fetches, limit, i, k)
    decreases |fetches|
  {
    var next := NextCursor(fetches[0], limit);
    PageExact(tables[0], cursor, fetches[0], limit, k);
    assert After(cursor, k) && (next.Some? ==> !Before(next.value, k)) <==> Covers(cursor, fetches, limit, 0, k);
    if next.Some? {
      ListingExact(next, tables[1..], fetches[1..], limit, k);
      forall i | 0 < i < |fetches|
        ensures Covers(cursor, fetches, limit, i, k) <==> Covers(next, fetches[1..], limit, i - 1, k)
      {
        assert CursorAt(next, fetches[1..], limit, i - 1) == CursorAt(cursor, fetches, limit, i);
      }
      if i :| 0 <= i < |fetches| - 1 && Covers(next, fetches[1..], limit, i, k) && k in tables[1..][i] {
        assert Covers(cursor, fetches, limit, i + 1, k) && k in tables[i + 1];
      }
      if i :| 0 < i < |fetches| && Covers(cursor, fetches, limit, i, k) && k in tables[i] {
        assert Covers(next, fetches[1..], limit, i - 1, k) && k in tables[1..][i - 1];
      }
      if i :| 0 <= i < |fetches| - 1 && Covers(next, fetches[1..], limit, i, k) {
        assert Covers(cursor, fetches, limit, i + 1, k);
      }
    } else {
      assert Listing(fetches, limit) == Selected(fetches[0], limit);
    }
  }

  /** A row that is in the table at every read is returned, exactly once, whatever else comes and goes. */
  lemma StableRowReturnedOnce(tables: seq<set<Key>>, fetches: seq<seq<Key>>, limit: nat, k: Key)
    requires limit >= 1 && Traversal(None, tables, fetches, limit)
    requires forall i | 0 <= i < |tables| :: k in tables[i]
    ensures exists i | 0 <= i < |Listing(fetches, limit)| :: Listing(fetches, limit)[i] == k
    ensures forall i, j | 0 <= i < j < |Listing(fetches, limit)| ::
              !(Listing(fetches, limit)[i] == k && Listing(fetches, limit)[j] == k)
  {
    ListingExact(None, tables, fetches, limit, k);
    var i :| 0 <= i < |fetches| && Covers(None, fetches, limit, i, k);
    assert k in tables[i];
    ListingOrdered(None, tables, fetches, limit);
    BeforeIsStrictTotal(k, k, k);
  }

  // ----- A table that does not change -----

  function Pages(n: nat, limit: nat): nat
    requires limit >= 1
  {
    if n == 0 then 1 else (n + limit - 1) / limit
  }

  /** The number of rows after the cursor decides the number of pages. */
  lemma {:induction false} FixedTableSizes(cursor: Option<Key>, table: set<Key>, tables: seq<set<Key>>,
                                           fetches: seq<seq<Key>>, limit: nat)
    requires limit >= 1 && Traversal(cursor, tables, fetches, limit)
    requires forall i | 0 <= i < |tables| :: tables[i] == table
    ensures forall k :: k in Listing(fetches, limit) <==> k in table && After(cursor, k)
    ensures |fetches| == Pages(|Listing(fetches, limit)|, limit)
    decreases |fetches|
  {
    forall k ensures k in Listing(fetches, limit) <==> k in table && After(cursor, k) {
      ListingExact(cursor, tables, fetches, limit, k);
      if i :| 0 <= i < |fetches| && Covers(cursor, fetches, limit, i, k) {
        CoveredAfter(cursor, tables, fetches, limit, i, k);
      }
    }
    var next := NextCursor(fetches[0], limit);
    if next.Some? {
      var rest := Listing(fetches[1..], limit);
      FixedTableSizes(next, table, tables[1..], fetches[1..], limit);
      var beyond := fetches[0][limit];
      assert beyond in fetches[0];
      assert beyond in rest;
      PagesNext(|rest|, limit);
    } else {
      assert Listing(fetches, limit) == fetches[0];
      PagesOne(|fetches[0]|, limit);
    }
  }

  lemma PagesNext(n: nat, limit: nat)
    requires limit >= 1 && n >= 1
    ensures Pages(limit + n, limit) == 1 + Pages(n, limit)
  {
    DivAddOne(n + limit - 1, limit);
    assert limit + n + limit - 1 == n + limit - 1 + limit;
  }

  lemma DivAddOne(x: nat, d: nat)
    requires d >= 1
    ensures (x + d) / d == x / d + 1
  {
    var q, e := x / d, (x + d) / d;
    assert q * d <= x < q * d + d && e * d <= x + d < e * d + d;
    assert (q + 1) * d == q * d + d;
    if e < q + 1 { MulMonotone(e + 1, q + 1, d); }
    if e > q + 1 { MulMonotone(q + 2, e, d); }
  }

  lemma MulMonotone(a: nat, b: nat, d: nat)
    requires a <= b
    ensures a * d <= b * d
  {
  }

  lemma PagesOne(n: nat, limit: nat)
    requires limit >= 1 && n <= limit
    ensures Pages(n, limit) == 1
  {
  }

  lemma {:induction false} OrderedHasNoDuplicates(rows: seq<Key>, table: set<Key>)
    requires Ordered(rows) && forall k :: k in rows <==> k in table
    ensures |rows| == |table|
    decreases |rows|
  {
    if rows == [] {
      assert table == {};
    } else {
      var first, rest := rows[0], rows[1..];
      assert rows == [first] + rest;
      BeforeIsStrictTotal(first, first, first);
      assert first !in rest;
      OrderedHasNoDuplicates(rest, table - {first});
    }
  }

  /** On a fixed table the pages are the whole table in order, and there are max(1, ceil(n / limit)) of them. */
  lemma FixedTable(table: set<Key>, tables: seq<set<Key>>, fetches: seq<seq<Key>>, limit: nat)
    requires limit >= 1 && Traversal(None, tables, fetches, limit)
    requires forall i | 0 <= i < |tables| :: tables[i] == table
    ensures Ordered(Listing(fetches, limit))
    ensures forall k :: k in Listing(fetches, limit) <==> k in table
    ensures |fetches| == Pages(|table|, limit)
  {
    ListingOrdered(None, tables, fetches, limit);
    FixedTableSizes(None, table, tables, fetches, limit);
    OrderedHasNoDuplicates(Listing(fetches, limit), table);
  }
}
