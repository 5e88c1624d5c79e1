/** `prepare_data(data, feature_indices, target_index)` (util/data.py:15-18):
    from rows given as lists of cells, a feature matrix of the selected
    columns and a target vector, both of floats. numpy arrays are sequences. */
module Matrix {
  import opened DataModel

  /** `row[i]` on a Python list: a negative index counts from the end, and an
      index outside `-len(row) <= i < len(row)` raises IndexError. */
  function PyIndex(row: seq<Value>, i: int): (r: Outcome<Value>)
    ensures r.Ok? <==> -|row| <= i < |row|
    ensures r.Raised? ==> r.exc == IndexError
  {
    if 0 <= i < |row| then Ok(row[i])
    else if -|row| <= i < 0 then Ok(row[|row| + i])
    else Raised(IndexError)
  }

  /** A negative index names the same cell as that index plus the length. */
  lemma NegativeIndexFromEnd(row: seq<Value>, i: int)
    requires 0 <= i < |row|
    ensures PyIndex(row, i - |row|) == PyIndex(row, i) == Ok(row[i])
  {
  }

  /** `float(row[i])`: IndexError for an index out of range, else what
      `float()` gives. */
  function Cell(row: seq<Value>, i: int): (r: Outcome<real>)
    ensures r.Ok? <==> PyIndex(row, i).Ok? && ToFloat(PyIndex(row, i).value).Ok?
    ensures r.Raised? ==> r.exc in {IndexError, ValueError, TypeError}
  {
    var v :- PyIndex(row, i);
    ToFloat(v)
  }

  /** `[float(row[i]) for i in feature_indices]`: the cells in the order of
      the indices; the first cell that raises ends the comprehension. */
  function Features(row: seq<Value>, indices: seq<int>): (r: Outcome<seq<real>>)
    ensures r.Ok? <==> forall j :: 0 <= j < |indices| ==> Cell(row, indices[j]).Ok?
    ensures r.Ok? ==> |r.value| == |indices| &&
                      forall j :: 0 <= j < |indices| ==> r.value[j] == Cell(row, indices[j]).value
    ensures r.Raised? ==> exists j :: 0 <= j < |indices| && Cell(row, indices[j]) == Raised(r.exc)
  {
    if indices == [] then Ok([])
    else
      assert forall j :: 1 <= j < |indices| ==> indices[j] == indices[1..][j - 1];
      var x :- Cell(row, indices[0]);
      var rest :- Features(row, indices[1..]);
      Ok([x] + rest)
  }

  /** The outer comprehension of x: one feature row per data row, in order. */
  function FeatureMatrix(data: seq<seq<Value>>, indices: seq<int>): (r: Outcome<seq<seq<real>>>)
    ensures r.Ok? <==> forall k :: 0 <= k < |data| ==> Features(data[k], indices).Ok?
    ensures r.Ok? ==> |r.value| == |data| &&
                      forall k :: 0 <= k < |data| ==> r.value[k] == Features(data[k], indices).value
    ensures r.Raised? ==> exists k :: 0 <= k < |data| && Features(data[k], indices) == Raised(r.exc)
  {
    if data == [] then Ok([])
    else
      assert forall k :: 1 <= k < |data| ==> data[k] == data[1..][k - 1];
      var features :- Features(data[0], indices);
      var rest :- FeatureMatrix(data[1..], indices);
      Ok([features] + rest)
  }

  /** `[float(row[target_index]) for row in data]`. */
  function Targets(data: seq<seq<Value>>, target: int): (r: Outcome<seq<real>>)
    ensures r.Ok? <==> forall k :: 0 <= k < |data| ==> Cell(data[k], target).Ok?
    ensures r.Ok? ==> |r.value| == |data| &&
                      forall k :: 0 <= k < |data| ==> r.value[k] == Cell(data[k], target).value
    ensures r.Raised? ==> exists k :: 0 <= k < |data| && Cell(data[k], target) == Raised(r.exc)
  {
    if data == [] then Ok([])
    else
      assert forall k :: 1 <= k < |data| ==> data[k] == data[1..][k - 1];
      var y :- Cell(data[0], target);
      var rest :- Targets(data[1..], target);
      Ok([y] + rest)
  }

  /** `prepare_data`: x is built before y, and nothing is caught. */
  function PrepareData(data: seq<seq<Value>>, indices: seq<int>, target: int): Outcome<(seq<seq<real>>, seq<real>)> {
    var x :- FeatureMatrix(data, indices);
    var y :- Targets(data, target);
    Ok((x, y))
  }

  /** Every selected cell of row k converts. */
  predicate RowConverts(row: seq<Value>, indices: seq<int>, target: int) {
    && (forall j :: 0 <= j < |indices| ==> Cell(row, indices[j]).Ok?)
    && Cell(row, target).Ok?
  }

  /** Both arrays come back exactly when every selected cell of every row
      converts. */
  lemma PrepareDataOk(data: seq<seq<Value>>, indices: seq<int>, target: int)
    ensures PrepareData(data, indices, target).Ok? <==>
              forall k :: 0 <= k < |data| ==> RowConverts(data[k], indices, target)
  {
    var x := FeatureMatrix(data, indices);
    var y := Targets(data, target);
    assert PrepareData(data, indices, target).Ok? <==> x.Ok? && y.Ok?;
  }

  /** x has one row per input row holding `float(row[i])` for the indices in
      order, and y holds `float(row[target_index])` row by row. */
  lemma PrepareDataValues(data: seq<seq<Value>>, indices: seq<int>, target: int)
    requires PrepareData(data, indices, target).Ok?
    ensures var (x, y) := PrepareData(data, indices, target).value;
      && |x| == |y| == |data|
      && (forall k :: 0 <= k < |data| ==>
            && |x[k]| == |indices|
            && forall j :: 0 <= j < |indices| ==> x[k][j] == Cell(data[k], indices[j]).value)
      && (forall k :: 0 <= k < |data| ==> y[k] == Cell(data[k], target).value)
  {
  }

  /** A failure is an IndexError from an index out of range, or the exception
      `float()` raises on a cell. */
  lemma PrepareDataRaises(data: seq<seq<Value>>, indices: seq<int>, target: int)
    requires PrepareData(data, indices, target).Raised?
    ensures PrepareData(data, indices, target).exc in {IndexError, ValueError, TypeError}
  {
    var x := FeatureMatrix(data, indices);
    if x.Raised? {
      var k :| 0 <= k < |data| && Features(data[k], indices) == Raised(x.exc);
      var j :| 0 <= j < |indices| && Cell(data[k], indices[j]) == Raised(x.exc);
    } else {
      var y := Targets(data, target);
      var k :| 0 <= k < |data| && Cell(data[k], target) == Raised(y.exc);
    }
  }

  /** The feature matrix is evaluated first: when it fails, its exception is
      the one `prepare_data` raises, whatever the targets hold. */
  lemma FeaturesRaiseFirst(data: seq<seq<Value>>, indices: seq<int>, target: int)
    requires FeatureMatrix(data, indices).Raised?
    ensures PrepareData(data, indices, target) == Raised(FeatureMatrix(data, indices).exc)
  {
  }
}
