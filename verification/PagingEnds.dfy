/** Following `next_cursor` on a table that does not change comes to an end, after the number of pages that the size of
    the table says. */
module PagingEnds {
  import opened Results
  import opened Paging

  /** Pages read so far, each with the cursor of the one before; the last one may still have a cursor. */
  ghost predicate Reading(table: set<Key>, cursor: Option<Key>, fetches: seq<seq<Key>>, limit: nat)
    requires limit >= 1
    decreases |fetches|
  {
    fetches != [] ==>
      && Fetched(table, cursor, limit + 1, fetches[0])
      && var next := NextCursor(fetches[0], limit);
      |fetches| > 1 ==> next.Some? && Reading(table, next, fetches[1..], limit)
  }

  function Remaining(table: set<Key>, cursor: Option<Key>): set<Key> {
    set k | k in table && After(cursor, k)
  }

  lemma {:induction false} OrderedSize(rows: seq<Key>)
    requires Ordered(rows)
    ensures |set k | k in rows| == |rows|
  {
    if rows != [] {
      var first, rest := rows[0], rows[1..];
      assert rows == [first] + rest;
      BeforeIsStrictTotal(first, first, first);
      OrderedSize(rest);
      assert (set k | k in rows) == {first} + set k | k in rest;
    }
  }

  lemma PageSplits(table: set<Key>, cursor: Option<Key>, rows: seq<Key>, limit: nat, k: Key)
    requires limit >= 1 && Fetched(table, cursor, limit + 1, rows) && NextCursor(rows, limit).Some?
    ensures var page, next := Selected(rows, limit), NextCursor(rows, limit);
            && (k in Remaining(table, cursor) <==> k in page || k in Remaining(table, next))
            && !(k in page && k in Remaining(table, next))
  {
    var next := NextCursor(rows, limit);
    PageExact(table, cursor, rows, limit, k);
    assert next.value in rows;
    if cursor.Some? { BeforeIsStrictTotal(cursor.value, next.value, k); }
  }

  /** A page with a successor takes `limit` rows off what remains, and leaves some. */
  lemma PageTakesLimit(table: set<Key>, cursor: Option<Key>, rows: seq<Key>, limit: nat)
    requires limit >= 1 && Fetched(table, cursor, limit + 1, rows) && NextCursor(rows, limit).Some?
    ensures |Remaining(table, cursor)| == limit + |Remaining(table, NextCursor(rows, limit))|
    ensures |Remaining(table, NextCursor(rows, limit))| >= 1
  {
    var page, next := Selected(rows, limit), NextCursor(rows, limit);
    var taken := set k | k in page;
    OrderedSize(page);
    forall k
      ensures k in Remaining(table, cursor) <==> k in taken || k in Remaining(table, next)
      ensures !(k in taken && k in Remaining(table, next))
    {
      PageSplits(table, cursor, rows, limit, k);
    }
    assert Remaining(table, cursor) == taken + Remaining(table, next);
    assert rows[limit] in rows && rows[limit] in Remaining(table, next);
    assert Remaining(table, next) != {};
  }

  /** However far a client has followed the cursors, it has not read more pages than what remained calls for. */
  lemma {:induction false} ReadingBounded(table: set<Key>, cursor: Option<Key>, fetches: seq<seq<Key>>, limit: nat)
    requires limit >= 1 && Reading(table, cursor, fetches, limit)
    ensures |fetches| <= Pages(|Remaining(table, cursor)|, limit)
    decreases |fetches|
  {
    PagesPositive(|Remaining(table, cursor)|, limit);
    if |fetches| > 1 {
      var next := NextCursor(fetches[0], limit);
      PageTakesLimit(table, cursor, fetches[0], limit);
      ReadingBounded(table, next, fetches[1..], limit);
      PagesNext(|Remaining(table, next)|, limit);
    }
  }

  lemma PagesPositive(n: nat, limit: nat)
    requires limit >= 1
    ensures Pages(n, limit) >= 1
  {
    if n >= 1 { DivAddOne(n - 1, limit); }
  }

  // ----- A complete traversal exists -----

  predicate IsFirst(k: Key, rows: set<Key>) {
    k in rows && forall l | l in rows && l != k :: Before(k, l)
  }

  lemma {:induction false} FirstExists(rows: set<Key>)
    requires rows != {}
    ensures exists k :: IsFirst(k, rows)
  {
    var x :| x in rows;
    var rest := rows - {x};
    assert rows == rest + {x};
    if rest == {} {
      assert IsFirst(x, rows);
    } else {
      FirstExists(rest);
      var k :| IsFirst(k, rest);
      forall l { BeforeIsStrictTotal(x, k, l); }
      assert IsFirst(if Before(k, x) then k else x, rows);
    }
  }

  lemma {:induction false} ListingExists(rows: set<Key>) returns (listing: seq<Key>)
    ensures Ordered(listing) && |listing| == |rows| && forall k :: k in listing <==> k in rows
  {
    if rows == {} {
      listing := [];
    } else {
      FirstExists(rows);
      var first :| IsFirst(first, rows);
      var rest := ListingExists(rows - {first});
      listing := [first] + rest;
      assert rows == {first} + (rows - {first});
      assert forall i | 0 <= i < |rest| :: rest[i] in rest;
    }
  }

  lemma FetchExists(table: set<Key>, cursor: Option<Key>, n: nat) returns (rows: seq<Key>)
    ensures Fetched(table, cursor, n, rows)
  {
    var all := ListingExists(Remaining(table, cursor));
    rows := if |all| > n then all[..n] else all;
    forall k | k in rows ensures k in table && After(cursor, k) {
      assert k in all;
    }
    forall k | k in table && After(cursor, k) && k !in rows
      ensures |rows| == n && forall r | r in rows :: Before(r, k)
    {
      assert k in all;
      var i :| 0 <= i < |all| && all[i] == k;
      assert i >= |rows|;
    }
  }

  /** From any cursor the reading can be carried to its end. */
  lemma {:induction false} TraversalExists(table: set<Key>, cursor: Option<Key>, limit: nat)
    returns (fetches: seq<seq<Key>>)
    requires limit >= 1
    ensures fetches != [] && Traversal(cursor, seq(|fetches|, _ => table), fetches, limit)
    decreases |Remaining(table, cursor)|
  {
    var rows := FetchExists(table, cursor, limit + 1);
    var next := NextCursor(rows, limit);
    if next.None? {
      fetches := [rows];
    } else {
      PageTakesLimit(table, cursor, rows, limit);
      var rest := TraversalExists(table, next, limit);
      fetches := [rows] + rest;
      assert seq(|fetches|, _ => table)[1..] == seq(|rest|, _ => table) && fetches[1..] == rest;
    }
  }

  /** On a table of n rows that does not change, a client can follow the cursors to the end; it never reads more than
      max(1, ceil(n / limit)) pages, and has read exactly that many at the end. */
  lemma FixedTableEnds(table: set<Key>, limit: nat) returns (fetches: seq<seq<Key>>)
    requires limit >= 1
    ensures fetches != [] && Traversal(None, seq(|fetches|, _ => table), fetches, limit)
    ensures |fetches| == Pages(|table|, limit)
    ensures forall f | Reading(table, None, f, limit) :: |f| <= Pages(|table|, limit)
  {
    fetches := TraversalExists(table, None, limit);
    FixedTable(table, seq(|fetches|, _ => table), fetches, limit);
    assert Remaining(table, None) == table;
    forall f | Reading(table, None, f, limit) ensures |f| <= Pages(|table|, limit) {
      ReadingBounded(table, None, f, limit);
    }
  }
}
