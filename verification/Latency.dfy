/** The latency report (engine/scripts/latency_report.py, lines 54-97): offsets collected from timing lines, and the
    nearest-rank percentiles of every mark and interval. Percentages are exact here. */
module Latency {
  import opened Results

  /** What a JSON field holds, as far as the report looks: an integer that is not a boolean, or anything else. */
  datatype Field = Millis(n: int) | Other

  /** A line without the marker, or the kind it names and its payload, None when that is not a JSON object. */
  datatype Line = Unmatched | Timing(turn: bool, payload: Option<map<string, Field>>)

  type Offsets = map<string, int>

  // ----- Collecting -----

  function OffsetsOf(payload: map<string, Field>, marks: seq<string>): Offsets {
    map name | name in marks && name in payload && payload[name].Millis? :: payload[name].n
  }

  function Collected(lines: seq<Line>, turn: bool, marks: seq<string>): seq<Offsets> {
    if lines == [] then []
    else
      var last := lines[|lines| - 1];
      Collected(lines[..|lines| - 1], turn, marks)
      + if last.Timing? && last.payload.Some? && last.turn == turn then [OffsetsOf(last.payload.value, marks)] else []
  }

  /** Each list holds one record for every readable line of its kind, in line order, with its integer marks only. */
  method ParseLines(lines: seq<Line>, turnMarks: seq<string>, relayMarks: seq<string>)
    returns (turns: seq<Offsets>, relays: seq<Offsets>)
    ensures turns == Collected(lines, true, turnMarks)
    ensures relays == Collected(lines, false, relayMarks)
  {
    turns, relays := [], [];
    for i := 0 to |lines|
      invariant turns == Collected(lines[..i], true, turnMarks)
      invariant relays == Collected(lines[..i], false, relayMarks)
    {
      assert lines[..i + 1][..i] == lines[..i];
      if lines[i].Unmatched? || lines[i].payload.None? {
        continue;
      }
      var payload := lines[i].payload.value;
      var marks := if lines[i].turn then turnMarks else relayMarks;
      var offsets: Offsets := map[];
      for j := 0 to |marks|
        invariant offsets == OffsetsOf(payload, marks[..j])
      {
        var name := marks[j];
        assert marks[..j + 1] == marks[..j] + [name];
        if name in payload && payload[name].Millis? {
          offsets := offsets[name := payload[name].n];
        }
      }
      assert marks[..|marks|] == marks;
      if lines[i].turn {
        turns := turns + [offsets];
      } else {
        relays := relays + [offsets];
      }
    }
    assert lines[..|lines|] == lines;
  }

  predicate Readable(line: Line, turn: bool) {
    match line
    case Timing(kind, Some(_)) => kind == turn
    case _ => false
  }

  /** How many lines of this kind can be read. */
  function ReadableCount(lines: seq<Line>, turn: bool): nat {
    if lines == [] then 0
    else ReadableCount(lines[..|lines| - 1], turn) + if Readable(lines[|lines| - 1], turn) then 1 else 0
  }

  /** The record of a line has the marks asked for that are integers there, and no other. */
  predicate RecordOf(line: Line, marks: seq<string>, record: Offsets)
    requires line.Timing? && line.payload.Some?
  {
    var payload := line.payload.value;
    && (forall name | name in record :: name in marks && name in payload && payload[name] == Millis(record[name]))
    && (forall name | name in marks && name in payload && payload[name].Millis? :: name in record)
  }

  /** There are as many records as readable lines, and the record of a line comes after those of the lines before it. */
  lemma {:induction false} RecordPerLine(lines: seq<Line>, turn: bool, marks: seq<string>, i: nat)
    requires i < |lines| && Readable(lines[i], turn)
    ensures |Collected(lines, turn, marks)| == ReadableCount(lines, turn)
    ensures ReadableCount(lines[..i], turn) < ReadableCount(lines, turn)
    ensures RecordOf(lines[i], marks, Collected(lines, turn, marks)[ReadableCount(lines[..i], turn)])
  {
    var init := lines[..|lines| - 1];
    CollectedCount(init, turn, marks);
    if i < |init| {
      RecordPerLine(init, turn, marks, i);
      assert init[..i] == lines[..i];
    } else {
      assert lines[..i] == init;
    }
  }

  lemma {:induction false} CollectedCount(lines: seq<Line>, turn: bool, marks: seq<string>)
    ensures |Collected(lines, turn, marks)| == ReadableCount(lines, turn)
  {
    if lines != [] { CollectedCount(lines[..|lines| - 1], turn, marks); }
  }

  // ----- Percentiles -----

  ghost predicate Ascending(s: seq<int>) {
    forall i, j | 0 <= i <= j < |s| :: s[i] <= s[j]
  }

  function Ceil(x: real): int {
    -((-x).Floor)
  }

  lemma CeilIsLeast(x: real, n: int)
    ensures Ceil(x) <= n <==> x <= n as real
  {
  }

  lemma CeilMonotone(x: real, y: real)
    requires x <= y
    ensures Ceil(x) <= Ceil(y)
  {
  }

  /** q percent of n. */
  function Share(q: real, n: nat): real {
    q / 100.0 * n as real
  }

  lemma ShareMonotone(q: real, p: real, n: nat)
    requires q <= p
    ensures Share(q, n) <= Share(p, n)
  {
    ProductMonotone(q / 100.0, p / 100.0, n as real);
  }

  lemma ProductMonotone(x: real, y: real, n: real)
    requires x <= y && n >= 0.0
    ensures x * n <= y * n
  {
    assert (y - x) * n >= 0.0;
    assert (y - x) * n == y * n - x * n;
  }

  lemma ShareOfAll(n: nat)
    ensures Share(100.0, n) == n as real
  {
  }

  function Rank(q: real, n: nat): (i: nat)
    requires n > 0 && q <= 100.0
    ensures i < n
  {
    ShareMonotone(q, 100.0, n);
    ShareOfAll(n);
    CeilIsLeast(Share(q, n), n);
    if Ceil(Share(q, n)) - 1 > 0 then Ceil(Share(q, n)) - 1 else 0
  }

  function Percentile(ordered: seq<int>, q: real): int
    requires ordered != [] && q <= 100.0
  {
    ordered[Rank(q, |ordered|)]
  }

  function AtOrBelow(s: seq<int>, v: int): nat {
    if s == [] then 0 else (if s[0] <= v then 1 else 0) + AtOrBelow(s[1..], v)
  }

  /** At least q percent of the values are at or below `v`. */
  predicate Reaches(s: seq<int>, q: real, v: int) {
    Share(q, |s|) <= AtOrBelow(s, v) as real
  }

  lemma {:induction false} AtOrBelowSorted(s: seq<int>, k: nat, v: int)
    requires Ascending(s) && k <= |s|
    requires k > 0 ==> s[k - 1] <= v
    requires k < |s| ==> v < s[k]
    ensures AtOrBelow(s, v) == k
  {
    if s != [] {
      if k > 0 {
        AtOrBelowSorted(s[1..], k - 1, v);
      } else {
        AtOrBelowSorted(s[1..], 0, v);
      }
    }
  }

  lemma {:induction false} AtOrBelowMonotone(s: seq<int>, v: int, w: int)
    requires v <= w
    ensures AtOrBelow(s, v) <= AtOrBelow(s, w)
  {
    if s != [] { AtOrBelowMonotone(s[1..], v, w); }
  }

  lemma {:induction false} AtOrBelowAtLeast(s: seq<int>, k: nat)
    requires Ascending(s) && k < |s|
    ensures AtOrBelow(s, s[k]) >= k + 1
  {
    if k > 0 {
      AtOrBelowAtLeast(s[1..], k - 1);
    }
  }

  lemma {:induction false} AtOrBelowLess(s: seq<int>, k: nat, v: int)
    requires Ascending(s) && k < |s| && v < s[k]
    ensures AtOrBelow(s, v) <= k
  {
    if k == 0 {
      AtOrBelowSorted(s, 0, v);
    } else {
      AtOrBelowLess(s[1..], k - 1, v);
    }
  }

  lemma SharePositive(q: real, n: nat)
    requires q > 0.0 && n > 0
    ensures Share(q, n) > 0.0
  {
  }

  /** The percentile is a value of the list, at least q percent are at or below it, and no smaller value, in the list or
      not, has that. */
  lemma PercentileIsLeast(ordered: seq<int>, q: real)
    requires ordered != [] && Ascending(ordered) && 0.0 < q <= 100.0
    ensures Percentile(ordered, q) in ordered
    ensures forall v :: Reaches(ordered, q, v) <==> Percentile(ordered, q) <= v
  {
    var n, r := |ordered|, Rank(q, |ordered|);
    var share, p := Share(q, n), ordered[r];
    SharePositive(q, n);
    CeilIsLeast(share, 0);
    assert r == Ceil(share) - 1;
    forall v ensures Reaches(ordered, q, v) <==> p <= v {
      CeilIsLeast(share, AtOrBelow(ordered, v));
      if p <= v {
        AtOrBelowAtLeast(ordered, r);
        AtOrBelowMonotone(ordered, p, v);
      } else {
        AtOrBelowLess(ordered, r, v);
      }
    }
  }

  lemma RankMonotone(q: real, p: real, n: nat)
    requires n > 0 && q <= p <= 100.0
    ensures Rank(q, n) <= Rank(p, n)
  {
    ShareMonotone(q, p, n);
    CeilMonotone(Share(q, n), Share(p, n));
  }

  lemma PercentileMonotone(ordered: seq<int>, q: real, p: real)
    requires ordered != [] && Ascending(ordered) && q <= p <= 100.0
    ensures Percentile(ordered, q) <= Percentile(ordered, p)
  {
    RankMonotone(q, p, |ordered|);
  }

  // ----- Rows -----

  function Insert(v: int, s: seq<int>): seq<int> {
    if s == [] || v <= s[0] then [v] + s else [s[0]] + Insert(v, s[1..])
  }

  /** Python's `sorted`. */
  function Sorted(s: seq<int>): seq<int> {
    if s == [] then [] else Insert(s[0], Sorted(s[1..]))
  }

  lemma {:induction false} InsertKeepsAll(v: int, s: seq<int>)
    ensures multiset(Insert(v, s)) == multiset(s) + multiset{v}
  {
    if s != [] && v > s[0] {
      InsertKeepsAll(v, s[1..]);
      assert s == [s[0]] + s[1..];
    }
  }

  predicate AllAbove(low: int, s: seq<int>) {
    forall i | 0 <= i < |s| :: low <= s[i]
  }

  lemma {:induction false} InsertSorts(v: int, s: seq<int>)
    requires Ascending(s)
    ensures Ascending(Insert(v, s))
    ensures forall low | low <= v && AllAbove(low, s) :: AllAbove(low, Insert(v, s))
  {
    if s != [] && v > s[0] {
      var tail := s[1..];
      InsertSorts(v, tail);
      assert AllAbove(s[0], tail);
      forall low | low <= v && AllAbove(low, s) ensures AllAbove(low, Insert(v, s)) {
        assert AllAbove(low, tail);
      }
    }
  }

  lemma {:induction false} SortedSorts(s: seq<int>)
    ensures Ascending(Sorted(s)) && multiset(Sorted(s)) == multiset(s)
    ensures Sorted(s) == [] <==> s == []
  {
    if s != [] {
      SortedSorts(s[1..]);
      InsertSorts(s[0], Sorted(s[1..]));
      InsertKeepsAll(s[0], Sorted(s[1..]));
      assert s == [s[0]] + s[1..];
    }
  }

  /** A metric is a mark, or the difference between two marks of a record. */
  datatype Metric = Mark(name: string) | Interval(from: string, to: string)

  function Recorded(records: seq<Offsets>, m: Metric): seq<int> {
    if records == [] then []
    else
      var r := records[0];
      (match m
       case Mark(name) => if name in r then [r[name]] else []
       case Interval(a, b) => if a in r && b in r then [r[b] - r[a]] else [])
      + Recorded(records[1..], m)
  }

  datatype Row = Row(metric: Metric, values: seq<int>)

  function Rows(records: seq<Offsets>, metrics: seq<Metric>): seq<Row> {
    if metrics == [] then []
    else
      var values := Recorded(records, metrics[0]);
      (if values != [] then [Row(metrics[0], Sorted(values))] else []) + Rows(records, metrics[1..])
  }

  /** A row is its metric's recorded values, of which there are some, in ascending order. */
  lemma {:induction false} RowsSorted(records: seq<Offsets>, metrics: seq<Metric>, row: Row)
    requires row in Rows(records, metrics)
    ensures row.metric in metrics && row.values != [] && Ascending(row.values)
    ensures multiset(row.values) == multiset(Recorded(records, row.metric))
  {
    var values, rest := Recorded(records, metrics[0]), Rows(records, metrics[1..]);
    SortedSorts(values);
    if row in rest {
      RowsSorted(records, metrics[1..], row);
    } else {
      assert row == Row(metrics[0], Sorted(values));
    }
  }

  /** Every metric that was recorded at all has its row. */
  lemma {:induction false} RowsComplete(records: seq<Offsets>, metrics: seq<Metric>, m: Metric)
    requires m in metrics && Recorded(records, m) != []
    ensures Row(m, Sorted(Recorded(records, m))) in Rows(records, metrics)
  {
    if m != metrics[0] {
      RowsComplete(records, metrics[1..], m);
    }
  }

  /** The records that hold the mark, in order. */
  function Marked(records: seq<Offsets>, name: string): seq<Offsets> {
    if records == [] then []
    else (if name in records[0] then [records[0]] else []) + Marked(records[1..], name)
  }

  /** A mark is recorded for exactly the records that hold it, with its own value. */
  lemma {:induction false} MarksRecorded(records: seq<Offsets>, name: string)
    ensures var with, values := Marked(records, name), Recorded(records, Mark(name));
            && |values| == |with|
            && forall i | 0 <= i < |with| :: name in with[i] && values[i] == with[i][name]
  {
    if records != [] { MarksRecorded(records[1..], name); }
  }

  /** The records that hold both marks, in order. */
  function Having(records: seq<Offsets>, from: string, to: string): seq<Offsets> {
    if records == [] then []
    else (if from in records[0] && to in records[0] then [records[0]] else []) + Having(records[1..], from, to)
  }

  /** An interval is recorded for exactly the records that hold both its marks, as the time between them. */
  lemma {:induction false} IntervalsAddUp(records: seq<Offsets>, from: string, to: string)
    ensures var both, gaps := Having(records, from, to), Recorded(records, Interval(from, to));
            && |gaps| == |both|
            && forall i | 0 <= i < |both| ::
                 from in both[i] && to in both[i] && both[i][to] == both[i][from] + gaps[i]
  {
    if records != [] {
      var r, rest := records[0], records[1..];
      IntervalsAddUp(rest, from, to);
      var both, gaps := Having(records, from, to), Recorded(records, Interval(from, to));
      if from in r && to in r {
        assert both == [r] + Having(rest, from, to);
        assert gaps == [r[to] - r[from]] + Recorded(rest, Interval(from, to));
        forall i | 0 <= i < |both| ensures from in both[i] && to in both[i] && both[i][to] == both[i][from] + gaps[i] {
          if i > 0 {
            assert both[i] == Having(rest, from, to)[i - 1] && gaps[i] == Recorded(rest, Interval(from, to))[i - 1];
          }
        }
      } else {
        assert both == Having(rest, from, to) && gaps == Recorded(rest, Interval(from, to));
      }
    }
  }

  /** In every rendered row the three percentiles are recorded values and come in order. */
  lemma RenderedInOrder(records: seq<Offsets>, metrics: seq<Metric>, row: Row)
    requires row in Rows(records, metrics)
    ensures row.values != [] && Ascending(row.values)
    ensures Percentile(row.values, 50.0) <= Percentile(row.values, 95.0) <= Percentile(row.values, 99.0)
    ensures forall q | 0.0 < q <= 100.0 :: Percentile(row.values, q) in multiset(Recorded(records, row.metric))
  {
    RowsSorted(records, metrics, row);
    PercentileMonotone(row.values, 50.0, 95.0);
    PercentileMonotone(row.values, 95.0, 99.0);
    forall q | 0.0 < q <= 100.0 ensures Percentile(row.values, q) in multiset(Recorded(records, row.metric)) {
      assert Percentile(row.values, q) in multiset(row.values);
    }
  }
}
