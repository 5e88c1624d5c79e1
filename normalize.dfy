/** `normalize_data(input_path, output_path)` (util/data.py:37-83) as a whole:
    the rows read from the input, the sort by time, the labelling and
    scaling loop, the header taken from the first row and the hand-over to
    the CSV writer. Opening the two files is reduced to whether each open
    succeeds. */
module Normalize {
  import opened DataModel
  import opened TimeOrder
  import opened Batch

  /** What `csv.DictWriter` writes before `True` is returned: the rows, and
      the field names of the first row as the header. */
  datatype Written = Written(rows: seq<Row>, header: set<string>)

  /** No row has a field outside the header. `csv.DictWriter` is made with
      its default `extrasaction="raise"`, so `writerows` raises ValueError on
      a row with a field the header lacks; a row lacking a header field is
      written with an empty cell there. */
  predicate FitsHeader(rows: seq<Row>, header: set<string>) {
    forall i :: 0 <= i < |rows| ==> rows[i].Keys <= header
  }

  /** `normalize_data`: `source` is None when opening the input raises
      FileNotFoundError and otherwise holds the rows `csv.DictReader`
      produced; `destinationOpens` says whether opening the output succeeds. */
  function NormalizeSpec(source: Option<seq<Row>>, parseTime: Value -> Outcome<int>, c: Divisors,
                         destinationOpens: bool): Reply<Written>
    requires c.Valid()
  {
    match source
    case None => ReturnedFalse
    case Some(rows) =>
      match SortRows(rows, parseTime)
      case Raised(e) => Escaped(e)
      case Ok(sorted) =>
        match ProcessAll(sorted, c)
        case Raised(e) => if e == ValueError || e == IndexError then ReturnedFalse else Escaped(e)
        case Ok(out) =>
          if out == [] then Escaped(IndexError)
          else if !destinationOpens then ReturnedFalse
          else if !FitsHeader(out, out[0].Keys) then Escaped(ValueError)
          else Returned(Written(out, out[0].Keys))
  }

  /** `writerows` on the array: whether every row's fields are in the header,
      checked row by row. */
  method RowsFitHeader(data: array<Row>, header: set<string>) returns (fits: bool)
    ensures fits <==> FitsHeader(data[..], header)
  {
    for i := 0 to data.Length
      invariant forall j :: 0 <= j < i ==> data[j].Keys <= header
    {
      if !(data[i].Keys <= header) {
        assert data[..][i] == data[i];
        return false;
      }
    }
    return true;
  }

  /** `normalize_data`, with the sorted rows copied into an array that the
      loop rewrites in place. */
  method NormalizeData(source: Option<seq<Row>>, parseTime: Value -> Outcome<int>, c: Divisors,
                       destinationOpens: bool) returns (r: Reply<Written>)
    requires c.Valid()
    ensures r == NormalizeSpec(source, parseTime, c, destinationOpens)
  {
    if source.None? {
      return ReturnedFalse;
    }
    var sorted := SortRows(source.value, parseTime);
    if sorted.Raised? {
      return Escaped(sorted.exc);
    }
    var rows := sorted.value;
    var data := new Row[|rows|](j requires 0 <= j < |rows| => rows[j]);
    assert data[..] == rows;
    var status := LabelAndScale(data, c);
    if status.Raised? {
      if status.exc == ValueError || status.exc == IndexError {
        return ReturnedFalse;
      }
      return Escaped(status.exc);
    }
    if data.Length == 0 {
      return Escaped(IndexError);
    }
    var fields := data[0].Keys;
    if !destinationOpens {
      return ReturnedFalse;
    }
    var fits := RowsFitHeader(data, fields);
    if !fits {
      return Escaped(ValueError);
    }
    return Returned(Written(data[..], fields));
  }

  /** An empty input reaches `data[0]` outside any `try`: IndexError escapes. */
  lemma EmptyTableEscapes(parseTime: Value -> Outcome<int>, c: Divisors, destinationOpens: bool)
    requires c.Valid()
    ensures NormalizeSpec(Some([]), parseTime, c, destinationOpens) == Escaped(IndexError)
  {
    assert TimeKeys([], parseTime) == Ok([]);
    assert SortRows([], parseTime) == Ok([]);
  }

  /** The sort at line 45 is outside every `try`: a row without `time`, or
      whose `time` does not parse, makes `normalize_data` raise the exception
      of the first such row, where a bad `precipitation` only gives `False`. */
  lemma SortFailureEscapes(rows: seq<Row>, parseTime: Value -> Outcome<int>, c: Divisors, destinationOpens: bool)
    requires c.Valid() && !TimesParse(rows, parseTime)
    ensures TimeKeys(rows, parseTime).Raised?
    ensures NormalizeSpec(Some(rows), parseTime, c, destinationOpens) == Escaped(TimeKeys(rows, parseTime).exc)
    ensures exists j :: && 0 <= j < |rows| && !TimeParses(rows[j], parseTime)
                        && (forall k :: 0 <= k < j ==> TimeParses(rows[k], parseTime))
                        && NormalizeSpec(Some(rows), parseTime, c, destinationOpens) == Escaped(TimeError(rows[j], parseTime))
  {
    var j :| && 0 <= j < |rows| && !TimeParses(rows[j], parseTime)
             && TimeKeys(rows, parseTime).exc == TimeError(rows[j], parseTime)
             && forall k :: 0 <= k < j ==> TimeParses(rows[k], parseTime);
  }

  /** A written row with a field the header lacks makes `writerows` raise
      ValueError, which the `except FileNotFoundError` does not catch. */
  lemma ExtraFieldEscapes(rows: seq<Row>, parseTime: Value -> Outcome<int>, c: Divisors, j: nat, k: string)
    requires c.Valid() && SortRows(rows, parseTime).Ok?
    requires ProcessAll(SortRows(rows, parseTime).value, c).Ok?
    requires var out := ProcessAll(SortRows(rows, parseTime).value, c).value;
      j < |out| && k in out[j] && k !in out[0]
    ensures NormalizeSpec(Some(rows), parseTime, c, true) == Escaped(ValueError)
  {
  }

  /** Sorting moves rows, so rows that all have the same fields still do. */
  lemma SortKeepsFields(rows: seq<Row>, parseTime: Value -> Outcome<int>, fields: set<string>)
    requires SortRows(rows, parseTime).Ok?
    requires forall i :: 0 <= i < |rows| ==> rows[i].Keys == fields
    ensures |SortRows(rows, parseTime).value| == |rows|
    ensures forall i :: 0 <= i < |rows| ==> SortRows(rows, parseTime).value[i].Keys == fields
  {
    SortRowsIsStableSort(rows, parseTime);
    var sorted := SortRows(rows, parseTime).value;
    assert |sorted| == |rows| by {
      assert |multiset(sorted)| == |multiset(rows)|;
    }
    forall i | 0 <= i < |sorted| ensures sorted[i].Keys == fields {
      assert sorted[i] in multiset(rows) by {
        assert sorted[i] in multiset(sorted);
      }
    }
  }

  /** Rows with the same fields come out of the loop with the same fields,
      the nine written columns added. */
  lemma LoopKeepsFields(sorted: seq<Row>, c: Divisors, fields: set<string>)
    requires c.Valid() && ProcessAll(sorted, c).Ok?
    requires forall i :: 0 <= i < |sorted| ==> sorted[i].Keys == fields
    ensures |ProcessAll(sorted, c).value| == |sorted|
    ensures forall i :: 0 <= i < |sorted| ==> ProcessAll(sorted, c).value[i].Keys == fields + WrittenColumns()
  {
    ProcessUpToRows(sorted, c, |sorted|);
    forall i | 0 <= i < |sorted| ensures ProcessAll(sorted, c).value[i].Keys == fields + WrittenColumns() {
      LoopKeys(sorted, c, i);
    }
  }

  /** When all input rows have the same fields, as `csv.DictReader` gives for
      lines no longer than the header, every written row has the header's
      fields: a table the loop completes is then always written. */
  lemma UniformRowsAreWritten(rows: seq<Row>, parseTime: Value -> Outcome<int>, c: Divisors, fields: set<string>)
    requires c.Valid() && SortRows(rows, parseTime).Ok? && rows != []
    requires forall i :: 0 <= i < |rows| ==> rows[i].Keys == fields
    requires ProcessAll(SortRows(rows, parseTime).value, c).Ok?
    ensures NormalizeSpec(Some(rows), parseTime, c, true).Returned?
    ensures NormalizeSpec(Some(rows), parseTime, c, true).value.header == fields + WrittenColumns()
  {
    SortKeepsFields(rows, parseTime, fields);
    var sorted := SortRows(rows, parseTime).value;
    LoopKeepsFields(sorted, c, fields);
    var out := ProcessAll(sorted, c).value;
    assert FitsHeader(out, out[0].Keys);
  }

  /** Once the rows are sorted, `False` comes back exactly when an iteration
      raises ValueError (nothing is written) or when the output cannot be
      opened; a missing column (KeyError) or a `None` sensor (TypeError)
      escapes; the IndexError named in the `except` never happens. */
  lemma LoopOutcomes(rows: seq<Row>, parseTime: Value -> Outcome<int>, c: Divisors, destinationOpens: bool)
    requires c.Valid() && SortRows(rows, parseTime).Ok?
    ensures var loop := ProcessAll(SortRows(rows, parseTime).value, c);
      && (NormalizeSpec(Some(rows), parseTime, c, destinationOpens) == ReturnedFalse <==>
            loop == Raised(ValueError) || (loop.Ok? && loop.value != [] && !destinationOpens))
      && (loop.Raised? ==> loop.exc in {KeyError, ValueError, TypeError})
      && (loop.Raised? && loop.exc != ValueError ==>
            NormalizeSpec(Some(rows), parseTime, c, destinationOpens) == Escaped(loop.exc))
  {
    LoopNeverRaisesIndexError(SortRows(rows, parseTime).value, c);
  }

  /** `True` is returned only after the sort and the loop both succeeded on
      a non-empty table and the output opened; what is written is the
      loop's result, with the first row's field names as header. */
  lemma ReturnedMeans(source: Option<seq<Row>>, parseTime: Value -> Outcome<int>, c: Divisors,
                      destinationOpens: bool)
    requires c.Valid() && NormalizeSpec(source, parseTime, c, destinationOpens).Returned?
    ensures source.Some? && SortRows(source.value, parseTime).Ok? && destinationOpens
    ensures var out := ProcessAll(SortRows(source.value, parseTime).value, c);
      && out.Ok? && out.value != [] && FitsHeader(out.value, out.value[0].Keys)
      && NormalizeSpec(source, parseTime, c, destinationOpens) == Returned(Written(out.value, out.value[0].Keys))
  {
  }

  /** The loop leaves every `time` alone, so a table sorted by time stays
      sorted; it keeps the row count. */
  lemma LoopKeepsTimeOrder(sorted: seq<Row>, parseTime: Value -> Outcome<int>, c: Divisors)
    requires c.Valid() && TimesParse(sorted, parseTime) && InTimeOrder(sorted, parseTime)
    requires ProcessAll(sorted, c).Ok?
    ensures var out := ProcessAll(sorted, c).value;
      |out| == |sorted| && TimesParse(out, parseTime) && InTimeOrder(out, parseTime)
  {
    var out := ProcessAll(sorted, c).value;
    ProcessUpToRows(sorted, c, |sorted|);
    ColumnsDistinct();
    forall i | 0 <= i < |out|
      ensures "time" in out[i] && out[i]["time"] == sorted[i]["time"]
    {
      OtherColumnsAfterLoop(sorted, c, i, "time");
    }
    assert TimesParse(out, parseTime);
    assert forall i :: 0 <= i < |out| ==> MinuteOf(out[i], parseTime) == MinuteOf(sorted[i], parseTime);
  }

  /** The header, taken from the first written row, names the four label
      columns and the five sensor columns. */
  lemma HeaderHasWrittenColumns(sorted: seq<Row>, c: Divisors)
    requires c.Valid() && ProcessAll(sorted, c).Ok? && ProcessAll(sorted, c).value != []
    ensures WrittenColumns() <= ProcessAll(sorted, c).value[0].Keys
  {
    var out := ProcessAll(sorted, c).value;
    ProcessUpToRows(sorted, c, |sorted|);
    forall h: Horizon ensures h.Column() in out[0] {
      LabelsAfterLoop(sorted, c, 0, h);
    }
    forall s: Sensor ensures s.Column() in out[0] {
      SensorsAfterLoop(sorted, c, 0, s);
    }
  }

  /** What `True` stands for: the input's rows, sorted into time order by a
      stable sort, went through the loop; the written table has one row per
      input row, still in time order, and its header holds the nine columns
      the loop writes. */
  lemma WrittenTable(rows: seq<Row>, parseTime: Value -> Outcome<int>, c: Divisors, destinationOpens: bool)
    requires c.Valid() && NormalizeSpec(Some(rows), parseTime, c, destinationOpens).Returned?
    ensures TimesParse(rows, parseTime) && destinationOpens
    ensures var sorted := SortRows(rows, parseTime).value;
            var written := NormalizeSpec(Some(rows), parseTime, c, destinationOpens).value;
      && multiset(sorted) == multiset(rows)
      && TimesParse(sorted, parseTime) && InTimeOrder(sorted, parseTime)
      && (forall m :: AtMinute(sorted, parseTime, m) == AtMinute(rows, parseTime, m))
      && ProcessAll(sorted, c) == Ok(written.rows)
      && |written.rows| == |rows| > 0
      && TimesParse(written.rows, parseTime) && InTimeOrder(written.rows, parseTime)
      && written.header == written.rows[0].Keys
      && WrittenColumns() <= written.header
      && FitsHeader(written.rows, written.header)
  {
    ReturnedMeans(Some(rows), parseTime, c, destinationOpens);
    SortRowsIsStableSort(rows, parseTime);
    var sorted := SortRows(rows, parseTime).value;
    assert |sorted| == |rows| by {
      assert |multiset(sorted)| == |multiset(rows)|;
    }
    LoopKeepsTimeOrder(sorted, parseTime, c);
    HeaderHasWrittenColumns(sorted, c);
  }
}
