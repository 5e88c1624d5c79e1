/** Line 45 of util/data.py: `sorted(data, key=lambda x: strptime(x["time"], ...))`.
    The timestamp parser is a parameter `parseTime` that gives a row's
    `time` as a minute count, or the exception parsing raises; Python's
    `sorted` is modelled as a stable insertion sort on (minute, row) pairs. */
module TimeOrder {
  import opened DataModel

  /** A row with the sort key computed for it. */
  datatype Keyed = Keyed(minute: int, row: Row)

  /** Every row has a `time` field that parses. */
  predicate TimesParse(rows: seq<Row>, parseTime: Value -> Outcome<int>) {
    forall i :: 0 <= i < |rows| ==> "time" in rows[i] && parseTime(rows[i]["time"]).Ok?
  }

  function MinuteOf(row: Row, parseTime: Value -> Outcome<int>): int
    requires "time" in row && parseTime(row["time"]).Ok?
  {
    parseTime(row["time"]).value
  }

  /** Rows in non-decreasing time order. */
  predicate InTimeOrder(rows: seq<Row>, parseTime: Value -> Outcome<int>)
    requires TimesParse(rows, parseTime)
  {
    forall i, j :: 0 <= i < j < |rows| ==> MinuteOf(rows[i], parseTime) <= MinuteOf(rows[j], parseTime)
  }

  /** The rows whose time is minute m, in their order. */
  function AtMinute(rows: seq<Row>, parseTime: Value -> Outcome<int>, m: int): seq<Row>
    requires TimesParse(rows, parseTime)
  {
    if rows == [] then []
    else (if MinuteOf(rows[0], parseTime) == m then [rows[0]] else []) + AtMinute(rows[1..], parseTime, m)
  }

  /** Each pair carries the minute its row's `time` parses to. */
  predicate KeysMatch(ks: seq<Keyed>, parseTime: Value -> Outcome<int>) {
    forall i :: 0 <= i < |ks| ==> "time" in ks[i].row && parseTime(ks[i].row["time"]) == Ok(ks[i].minute)
  }

  function RowsOf(ks: seq<Keyed>): (rows: seq<Row>)
    ensures |rows| == |ks| && forall i :: 0 <= i < |ks| ==> rows[i] == ks[i].row
  {
    if ks == [] then [] else [ks[0].row] + RowsOf(ks[1..])
  }

  /** The row has a `time` field that parses. */
  predicate TimeParses(row: Row, parseTime: Value -> Outcome<int>) {
    "time" in row && parseTime(row["time"]).Ok?
  }

  /** What computing the key of a row whose time does not parse raises:
      KeyError without a `time` field, else the parser's exception. */
  function TimeError(row: Row, parseTime: Value -> Outcome<int>): Exception
    requires !TimeParses(row, parseTime)
  {
    if "time" !in row then KeyError else parseTime(row["time"]).exc
  }

  /** The keys `sorted` computes, row by row before any comparison: a row
      without `time` raises KeyError, and the first row that fails decides
      the exception. */
  function TimeKeys(rows: seq<Row>, parseTime: Value -> Outcome<int>): (r: Outcome<seq<Keyed>>)
    ensures r.Ok? <==> TimesParse(rows, parseTime)
    ensures r.Ok? ==> RowsOf(r.value) == rows && KeysMatch(r.value, parseTime)
    ensures r.Raised? ==>
              exists j :: && 0 <= j < |rows| && !TimeParses(rows[j], parseTime)
                          && r.exc == TimeError(rows[j], parseTime)
                          && forall k :: 0 <= k < j ==> TimeParses(rows[k], parseTime)
  {
    if rows == [] then Ok([])
    else if "time" !in rows[0] then Raised(KeyError)
    else
      assert forall i :: 1 <= i < |rows| ==> rows[i] == rows[1..][i - 1];
      var m :- parseTime(rows[0]["time"]);
      var rest :- TimeKeys(rows[1..], parseTime);
      Ok([Keyed(m, rows[0])] + rest)
  }

  predicate SortedByMinute(ks: seq<Keyed>) {
    forall i, j :: 0 <= i < j < |ks| ==> ks[i].minute <= ks[j].minute
  }

  /** Places x before the first element whose minute is not smaller: x
      precedes every equal key already there, as it came earlier. */
  function Insert(x: Keyed, ks: seq<Keyed>): (r: seq<Keyed>)
    ensures multiset(r) == multiset(ks) + multiset{x}
  {
    if ks == [] || x.minute <= ks[0].minute then [x] + ks
    else
      assert ks == [ks[0]] + ks[1..];
      [ks[0]] + Insert(x, ks[1..])
  }

  /** Every element of `Insert(x, ks)` is x or an element of ks. */
  lemma InsertFrom(x: Keyed, ks: seq<Keyed>, j: nat)
    requires j < |Insert(x, ks)|
    ensures Insert(x, ks)[j] == x || Insert(x, ks)[j] in ks
  {
    var t := Insert(x, ks);
    assert t[j] in multiset(ks) + multiset{x} by {
      assert t[j] in multiset(t);
    }
  }

  lemma {:induction false} InsertSorted(x: Keyed, ks: seq<Keyed>)
    requires SortedByMinute(ks)
    ensures SortedByMinute(Insert(x, ks))
  {
    if ks != [] && x.minute > ks[0].minute {
      var t := Insert(x, ks[1..]);
      InsertSorted(x, ks[1..]);
      forall j | 0 <= j < |t| ensures ks[0].minute <= t[j].minute {
        InsertFrom(x, ks[1..], j);
      }
      var r := [ks[0]] + t;
      assert r == Insert(x, ks);
      forall a, b | 0 <= a < b < |r| ensures r[a].minute <= r[b].minute {
        assert r[b] == t[b - 1];
        if a > 0 {
          assert r[a] == t[a - 1];
        }
      }
    }
  }

  /** `sorted` on the computed keys. */
  function SortByMinute(ks: seq<Keyed>): (r: seq<Keyed>)
    ensures multiset(r) == multiset(ks)
    ensures SortedByMinute(r)
  {
    if ks == [] then []
    else
      assert ks == [ks[0]] + ks[1..];
      var t := SortByMinute(ks[1..]);
      InsertSorted(ks[0], t);
      Insert(ks[0], t)
  }

  /** The pairs with minute m, in their order. */
  function WithMinute(ks: seq<Keyed>, m: int): seq<Keyed> {
    if ks == [] then [] else (if ks[0].minute == m then [ks[0]] else []) + WithMinute(ks[1..], m)
  }

  lemma {:induction false} InsertStable(x: Keyed, ks: seq<Keyed>, m: int)
    ensures WithMinute(Insert(x, ks), m) == WithMinute([x] + ks, m)
  {
    assert ([x] + ks)[1..] == ks;
    if ks != [] && x.minute > ks[0].minute {
      var t := Insert(x, ks[1..]);
      InsertStable(x, ks[1..], m);
      assert ([ks[0]] + t)[1..] == t;
      assert ([x] + ks[1..])[1..] == ks[1..];
    }
  }

  /** Stability: for each minute, the pairs keep their input order. */
  lemma {:induction false} SortStable(ks: seq<Keyed>, m: int)
    ensures WithMinute(SortByMinute(ks), m) == WithMinute(ks, m)
  {
    if ks != [] {
      var t := SortByMinute(ks[1..]);
      InsertStable(ks[0], t, m);
      SortStable(ks[1..], m);
      assert ([ks[0]] + t)[1..] == t;
    }
  }

  lemma {:induction false} RowsOfInsert(x: Keyed, ks: seq<Keyed>)
    ensures multiset(RowsOf(Insert(x, ks))) == multiset(RowsOf(ks)) + multiset{x.row}
  {
    if ks == [] || x.minute <= ks[0].minute {
      assert RowsOf([x] + ks) == [x.row] + RowsOf(ks);
    } else {
      var t := Insert(x, ks[1..]);
      RowsOfInsert(x, ks[1..]);
      assert RowsOf([ks[0]] + t) == [ks[0].row] + RowsOf(t);
      assert RowsOf(ks) == [ks[0].row] + RowsOf(ks[1..]);
    }
  }

  lemma {:induction false} RowsOfSort(ks: seq<Keyed>)
    ensures multiset(RowsOf(SortByMinute(ks))) == multiset(RowsOf(ks))
  {
    if ks != [] {
      RowsOfSort(ks[1..]);
      RowsOfInsert(ks[0], SortByMinute(ks[1..]));
      assert RowsOf(ks) == [ks[0].row] + RowsOf(ks[1..]);
    }
  }

  /** Sorting keeps every pair, so it keeps the pairs' keys matching. */
  lemma SortKeepsKeys(ks: seq<Keyed>, parseTime: Value -> Outcome<int>)
    requires KeysMatch(ks, parseTime)
    ensures KeysMatch(SortByMinute(ks), parseTime)
  {
    var s := SortByMinute(ks);
    forall i | 0 <= i < |s|
      ensures "time" in s[i].row && parseTime(s[i].row["time"]) == Ok(s[i].minute)
    {
      assert s[i] in multiset(s);
      assert s[i] in ks;
    }
  }

  lemma {:induction false} WithMinuteRows(ks: seq<Keyed>, parseTime: Value -> Outcome<int>, m: int)
    requires KeysMatch(ks, parseTime)
    ensures TimesParse(RowsOf(ks), parseTime)
    ensures RowsOf(WithMinute(ks, m)) == AtMinute(RowsOf(ks), parseTime, m)
  {
    if ks != [] {
      assert KeysMatch(ks[1..], parseTime) by {
        forall i | 0 <= i < |ks[1..]|
          ensures "time" in ks[1..][i].row && parseTime(ks[1..][i].row["time"]) == Ok(ks[1..][i].minute)
        {
          assert ks[1..][i] == ks[i + 1];
        }
      }
      WithMinuteRows(ks[1..], parseTime, m);
      var tail := WithMinute(ks[1..], m);
      assert RowsOf(ks)[1..] == RowsOf(ks[1..]);
      if ks[0].minute == m {
        assert WithMinute(ks, m) == [ks[0]] + tail;
        assert ([ks[0]] + tail)[1..] == tail;
      } else {
        assert WithMinute(ks, m) == tail;
      }
    }
  }

  /** `sorted(data, key=...)`: the first row whose key cannot be computed
      raises; otherwise the rows in a new order. */
  function SortRows(rows: seq<Row>, parseTime: Value -> Outcome<int>): Outcome<seq<Row>> {
    var ks :- TimeKeys(rows, parseTime);
    Ok(RowsOf(SortByMinute(ks)))
  }

  /** The sort succeeds exactly when every row's time parses, and then gives
      a permutation of the rows in non-decreasing time order in which rows
      of equal time keep their input order. */
  lemma SortRowsIsStableSort(rows: seq<Row>, parseTime: Value -> Outcome<int>)
    ensures SortRows(rows, parseTime).Ok? <==> TimesParse(rows, parseTime)
    ensures SortRows(rows, parseTime).Ok? ==>
      var sorted := SortRows(rows, parseTime).value;
      && multiset(sorted) == multiset(rows)
      && TimesParse(sorted, parseTime)
      && InTimeOrder(sorted, parseTime)
      && forall m :: AtMinute(sorted, parseTime, m) == AtMinute(rows, parseTime, m)
  {
    var keys := TimeKeys(rows, parseTime);
    if keys.Ok? {
      var ks := keys.value;
      var s := SortByMinute(ks);
      RowsOfSort(ks);
      SortKeepsKeys(ks, parseTime);
      WithMinuteRows(s, parseTime, 0);
      WithMinuteRows(ks, parseTime, 0);
      forall m ensures AtMinute(RowsOf(s), parseTime, m) == AtMinute(rows, parseTime, m) {
        WithMinuteRows(s, parseTime, m);
        WithMinuteRows(ks, parseTime, m);
        SortStable(ks, m);
      }
    }
  }
}
