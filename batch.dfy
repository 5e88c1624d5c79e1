/** `normalize_data` (util/data.py:37-83): sort the table by time, then walk
    it row by row, writing four look-ahead precipitation labels into each row
    and rescaling its five sensor columns in place. */
module Batch {
  import opened DataModel
  import opened Labels
  import opened TimeOrder

  /** The four look-ahead horizons, in the order the loop writes them. */
  datatype Horizon = H1 | H6 | H12 | H24 {
    /** How many rows ahead the label is read. */
    function Ahead(): nat {
      match this
      case H1 => 1
      case H6 => 6
      case H12 => 12
      case H24 => 24
    }

    /** The column the label is written to. */
    function Column(): string {
      match this
      case H1 => "precipitation_1h"
      case H6 => "precipitation_6h"
      case H12 => "precipitation_12h"
      case H24 => "precipitation_24h"
    }
  }

  /** The horizons in the order the loop writes them. */
  const Horizons: seq<Horizon> := [H1, H6, H12, H24]

  /** The placeholder written when the row is too close to the end. */
  const Placeholder: Value := Float(0.0)

  /** The nine columns the loop writes. */
  function WrittenColumns(): set<string> {
    {H1.Column(), H6.Column(), H12.Column(), H24.Column(),
     Temperature.Column(), DewPoint.Column(), Humidity.Column(), Pressure.Column(), Radiation.Column()}
  }

  /** The value assigned to column `h` of row i: the label of the
      `precipitation` h rows ahead when i < len(rows) - h, else the
      placeholder. */
  function HorizonLabel(rows: seq<Row>, i: nat, h: Horizon): Outcome<Value>
    requires i < |rows|
  {
    if i < |rows| - h.Ahead() then
      var ahead := rows[i + h.Ahead()];
      if "precipitation" !in ahead then Raised(KeyError)
      else
        var k :- ToLabel(ahead["precipitation"]);
        Ok(Int(k))
    else Ok(Placeholder)
  }

  /** `float(row[column]) / divisor` for one sensor. */
  function Scaled(row: Row, s: Sensor, c: Divisors): Outcome<Value>
    requires c.Valid()
  {
    if s.Column() !in row then Raised(KeyError)
    else
      var x :- ToFloat(row[s.Column()]);
      Ok(Float(x / c.For(s)))
  }

  /** Lines 49-60 on row i: for each horizon of hs in turn, its label is
      computed and written into the row. */
  function LabelRow(rows: seq<Row>, i: nat, hs: seq<Horizon>, row: Row): Outcome<Row>
    requires i < |rows|
  {
    if hs == [] then Ok(row)
    else
      var p :- HorizonLabel(rows, i, hs[0]);
      LabelRow(rows, i, hs[1..], row[hs[0].Column() := p])
  }

  /** Lines 61-69 on one row: for each sensor of ss in turn, its column is
      read from the row as the earlier assignments left it and overwritten
      with the value divided by the sensor's constant. */
  function ScaleRow(row: Row, ss: seq<Sensor>, c: Divisors): Outcome<Row>
    requires c.Valid()
  {
    if ss == [] then Ok(row)
    else
      var v :- Scaled(row, ss[0], c);
      ScaleRow(row[ss[0].Column() := v], ss[1..], c)
  }

  /** One iteration of the loop on row i. */
  function ProcessRow(rows: seq<Row>, i: nat, c: Divisors): Outcome<Row>
    requires i < |rows| && c.Valid()
  {
    var labelled :- LabelRow(rows, i, Horizons, rows[i]);
    ScaleRow(labelled, Sensors, c)
  }

  /** The first k iterations of the loop: the processed rows, or the
      exception of the first row that raises. */
  function ProcessUpTo(rows: seq<Row>, c: Divisors, k: nat): Outcome<seq<Row>>
    requires k <= |rows| && c.Valid()
  {
    if k == 0 then Ok([])
    else
      var done :- ProcessUpTo(rows, c, k - 1);
      var row :- ProcessRow(rows, k - 1, c);
      Ok(done + [row])
  }

  /** The whole loop of lines 47-69 on the sorted rows. */
  function ProcessAll(rows: seq<Row>, c: Divisors): Outcome<seq<Row>>
    requires c.Valid()
  {
    ProcessUpTo(rows, c, |rows|)
  }

  /** A row the loop has not yet reached still holds what the sort put there,
      so a label read from the partly rewritten table is the label of the
      sorted table. */
  lemma LookAheadSeesSortedRows(cur: seq<Row>, rows: seq<Row>, i: nat, h: Horizon)
    requires |cur| == |rows| && i < |rows|
    requires cur[i + 1..] == rows[i + 1..]
    ensures HorizonLabel(cur, i, h) == HorizonLabel(rows, i, h)
  {
    if i < |rows| - h.Ahead() {
      assert cur[i + h.Ahead()] == cur[i + 1..][h.Ahead() - 1];
      assert rows[i + h.Ahead()] == rows[i + 1..][h.Ahead() - 1];
    }
  }

  /** Once an iteration has raised, the loop's outcome is that exception. */
  lemma {:induction false} FailureSticks(rows: seq<Row>, c: Divisors, k: nat, n: nat)
    requires c.Valid() && k <= n <= |rows|
    requires ProcessUpTo(rows, c, k).Raised?
    ensures ProcessUpTo(rows, c, n) == ProcessUpTo(rows, c, k)
    decreases n
  {
    if n > k {
      FailureSticks(rows, c, k, n - 1);
    }
  }

  /** An iteration that completes extends the processed prefix by its row. */
  lemma NextRowDone(rows: seq<Row>, c: Divisors, i: nat, done: seq<Row>, row: Row)
    requires c.Valid() && i < |rows|
    requires ProcessUpTo(rows, c, i) == Ok(done)
    requires ProcessRow(rows, i, c) == Ok(row)
    ensures ProcessUpTo(rows, c, i + 1) == Ok(done + [row])
  {
  }

  /** An iteration that raises after the rows before it completed decides the
      outcome of the loop so far. */
  lemma NextRowRaises(rows: seq<Row>, c: Divisors, i: nat, e: Exception)
    requires c.Valid() && i < |rows|
    requires ProcessUpTo(rows, c, i).Ok? && ProcessRow(rows, i, c) == Raised(e)
    ensures ProcessUpTo(rows, c, i + 1) == Raised(e)
  {
  }

  /** Lines 49-60 for one horizon, reading `data[i + h]` in the array. */
  method LabelAhead(data: array<Row>, i: nat, h: Horizon) returns (v: Outcome<Value>)
    requires i < data.Length
    ensures v == HorizonLabel(data[..], i, h)
  {
    if i < data.Length - h.Ahead() {
      var ahead := data[i + h.Ahead()];
      if "precipitation" !in ahead {
        return Raised(KeyError);
      }
      var k := ToLabel(ahead["precipitation"]);
      if k.Raised? {
        return Raised(k.exc);
      }
      return Ok(Int(k.value));
    }
    return Ok(Placeholder);
  }

  /** Lines 49-60 on row i of the array: each label is read from the rows
      ahead and written into row i before the next one is read. */
  method WriteLabels(data: array<Row>, i: nat, ghost sorted: seq<Row>) returns (status: Outcome<()>)
    requires i < data.Length == |sorted| && data[i..] == sorted[i..]
    modifies data
    ensures forall j :: 0 <= j < data.Length && j != i ==> data[j] == old(data[j])
    ensures LabelRow(sorted, i, Horizons, sorted[i]).Raised? ==>
              status == Raised(LabelRow(sorted, i, Horizons, sorted[i]).exc)
    ensures LabelRow(sorted, i, Horizons, sorted[i]).Ok? ==>
              status == Ok(()) && data[i] == LabelRow(sorted, i, Horizons, sorted[i]).value
  {
    ghost var goal := LabelRow(sorted, i, Horizons, sorted[i]);
    assert Horizons[1..] == [H6, H12, H24];
    var p1 := LabelAhead(data, i, H1);
    LookAheadSeesSortedRows(data[..], sorted, i, H1);
    if p1.Raised? {
      return Raised(p1.exc);
    }
    data[i] := data[i][H1.Column() := p1.value];
    assert goal == LabelRow(sorted, i, [H6, H12, H24], data[i]);
    assert data[i + 1..] == sorted[i + 1..];
    assert [H6, H12, H24][1..] == [H12, H24];
    var p6 := LabelAhead(data, i, H6);
    LookAheadSeesSortedRows(data[..], sorted, i, H6);
    if p6.Raised? {
      return Raised(p6.exc);
    }
    data[i] := data[i][H6.Column() := p6.value];
    assert goal == LabelRow(sorted, i, [H12, H24], data[i]);
    assert data[i + 1..] == sorted[i + 1..];
    assert [H12, H24][1..] == [H24];
    var p12 := LabelAhead(data, i, H12);
    LookAheadSeesSortedRows(data[..], sorted, i, H12);
    if p12.Raised? {
      return Raised(p12.exc);
    }
    data[i] := data[i][H12.Column() := p12.value];
    assert goal == LabelRow(sorted, i, [H24], data[i]);
    assert data[i + 1..] == sorted[i + 1..];
    assert [H24][1..] == [];
    var p24 := LabelAhead(data, i, H24);
    LookAheadSeesSortedRows(data[..], sorted, i, H24);
    if p24.Raised? {
      return Raised(p24.exc);
    }
    data[i] := data[i][H24.Column() := p24.value];
    assert goal == LabelRow(sorted, i, [], data[i]);
    status := Ok(());
  }

  /** Lines 61-69 on row i of the array: each sensor overwritten with its
      value divided by its constant. */
  method WriteSensors(data: array<Row>, i: nat, c: Divisors) returns (status: Outcome<()>)
    requires i < data.Length && c.Valid()
    modifies data
    ensures forall j :: 0 <= j < data.Length && j != i ==> data[j] == old(data[j])
    ensures ScaleRow(old(data[i]), Sensors, c).Raised? ==>
              status == Raised(ScaleRow(old(data[i]), Sensors, c).exc)
    ensures ScaleRow(old(data[i]), Sensors, c).Ok? ==>
              status == Ok(()) && data[i] == ScaleRow(old(data[i]), Sensors, c).value
  {
    ghost var goal := ScaleRow(data[i], Sensors, c);
    assert Sensors[1..] == [DewPoint, Humidity, Pressure, Radiation];
    var t := Scaled(data[i], Temperature, c);
    if t.Raised? {
      return Raised(t.exc);
    }
    data[i] := data[i][Temperature.Column() := t.value];
    assert goal == ScaleRow(data[i], [DewPoint, Humidity, Pressure, Radiation], c);
    assert [DewPoint, Humidity, Pressure, Radiation][1..] == [Humidity, Pressure, Radiation];
    var d := Scaled(data[i], DewPoint, c);
    if d.Raised? {
      return Raised(d.exc);
    }
    data[i] := data[i][DewPoint.Column() := d.value];
    assert goal == ScaleRow(data[i], [Humidity, Pressure, Radiation], c);
    assert [Humidity, Pressure, Radiation][1..] == [Pressure, Radiation];
    var hu := Scaled(data[i], Humidity, c);
    if hu.Raised? {
      return Raised(hu.exc);
    }
    data[i] := data[i][Humidity.Column() := hu.value];
    assert goal == ScaleRow(data[i], [Pressure, Radiation], c);
    assert [Pressure, Radiation][1..] == [Radiation];
    var p := Scaled(data[i], Pressure, c);
    if p.Raised? {
      return Raised(p.exc);
    }
    data[i] := data[i][Pressure.Column() := p.value];
    assert goal == ScaleRow(data[i], [Radiation], c);
    assert [Radiation][1..] == [];
    var sw := Scaled(data[i], Radiation, c);
    if sw.Raised? {
      return Raised(sw.exc);
    }
    data[i] := data[i][Radiation.Column() := sw.value];
    assert goal == ScaleRow(data[i], [], c);
    status := Ok(());
  }

  /** One iteration of the loop on row i of the array. */
  method RewriteRow(data: array<Row>, i: nat, c: Divisors, ghost sorted: seq<Row>) returns (status: Outcome<()>)
    requires i < data.Length == |sorted| && data[i..] == sorted[i..] && c.Valid()
    modifies data
    ensures forall j :: 0 <= j < data.Length && j != i ==> data[j] == old(data[j])
    ensures ProcessRow(sorted, i, c).Raised? ==> status == Raised(ProcessRow(sorted, i, c).exc)
    ensures ProcessRow(sorted, i, c).Ok? ==> status == Ok(()) && data[i] == ProcessRow(sorted, i, c).value
  {
    assert data[i] == sorted[i];
    status := WriteLabels(data, i, sorted);
    if status.Ok? {
      status := WriteSensors(data, i, c);
    }
  }

  /** The loop of lines 48-69, rewriting the rows of `data` in place. It
      either completes, leaving every row as `ProcessAll` of the sorted table
      says, or stops at the first exception. */
  method LabelAndScale(data: array<Row>, c: Divisors) returns (status: Outcome<()>)
    requires c.Valid()
    modifies data
    ensures ProcessAll(old(data[..]), c).Ok? ==>
              status == Ok(()) && data[..] == ProcessAll(old(data[..]), c).value
    ensures ProcessAll(old(data[..]), c).Raised? ==>
              status == Raised(ProcessAll(old(data[..]), c).exc)
  {
    ghost var sorted := data[..];
    var i := 0;
    while i < data.Length
      invariant 0 <= i <= data.Length == |sorted|
      invariant ProcessUpTo(sorted, c, i) == Ok(data[..i])
      invariant data[i..] == sorted[i..]
    {
      ghost var done := data[..i];
      ghost var before := data[..];
      status := RewriteRow(data, i, c, sorted);
      if status.Raised? {
        NextRowRaises(sorted, c, i, status.exc);
        FailureSticks(sorted, c, i + 1, data.Length);
        return;
      }
      NextRowDone(sorted, c, i, done, data[i]);
      assert data[..i + 1] == done + [data[i]] by {
        assert forall j :: 0 <= j < i ==> data[..i + 1][j] == before[j] == done[j];
      }
      assert data[i + 1..] == sorted[i + 1..] by {
        assert forall j :: i + 1 <= j < data.Length ==> data[j] == before[j] == sorted[j];
      }
      i := i + 1;
    }
    assert data[..] == data[..i];
    status := Ok(());
  }

  /** Sensors with pairwise different columns. */
  predicate DistinctSensors(ss: seq<Sensor>) {
    forall a, b :: 0 <= a < b < |ss| ==> ss[a].Column() != ss[b].Column()
  }

  /** The column names the loop writes are nine distinct names, and none of
      them is `precipitation` or `time`. */
  lemma ColumnsDistinct()
    ensures forall h: Horizon, s: Sensor :: h.Column() != s.Column()
    ensures forall h: Horizon, g: Horizon :: h != g ==> h.Column() != g.Column()
    ensures DistinctSensors(Sensors)
    ensures forall h: Horizon :: h in Horizons
    ensures forall s: Sensor :: s in Sensors
    ensures "precipitation" !in WrittenColumns() && "time" !in WrittenColumns()
  {
    forall h: Horizon ensures h in Horizons {
      var j := HorizonIndex(h);
    }
    forall s: Sensor ensures s in Sensors {
      var j := SensorIndex(s);
    }
  }

  /** Writing the labels of hs succeeds exactly when every one of them can be
      computed, and otherwise raises KeyError or ValueError. */
  lemma {:induction false} LabelRowOk(rows: seq<Row>, i: nat, hs: seq<Horizon>, row: Row)
    requires i < |rows|
    ensures LabelRow(rows, i, hs, row).Ok? <==> forall j :: 0 <= j < |hs| ==> HorizonLabel(rows, i, hs[j]).Ok?
    ensures LabelRow(rows, i, hs, row).Raised? ==> LabelRow(rows, i, hs, row).exc in {KeyError, ValueError}
  {
    if hs != [] {
      var p := HorizonLabel(rows, i, hs[0]);
      if p.Ok? {
        LabelRowOk(rows, i, hs[1..], row[hs[0].Column() := p.value]);
        assert forall j :: 1 <= j < |hs| ==> hs[j] == hs[1..][j - 1];
      }
    }
  }

  /** Writing the labels of hs leaves every other column as it was. */
  lemma {:induction false} LabelRowKeeps(rows: seq<Row>, i: nat, hs: seq<Horizon>, row: Row, k: string)
    requires i < |rows| && LabelRow(rows, i, hs, row).Ok?
    requires forall j :: 0 <= j < |hs| ==> hs[j].Column() != k
    ensures k in LabelRow(rows, i, hs, row).value <==> k in row
    ensures k in row ==> LabelRow(rows, i, hs, row).value[k] == row[k]
  {
    if hs != [] {
      var p := HorizonLabel(rows, i, hs[0]);
      LabelRowKeeps(rows, i, hs[1..], row[hs[0].Column() := p.value], k);
    }
  }

  /** Writing the labels of hs leaves, for each h among them, the label of
      horizon h in column h. */
  lemma {:induction false} LabelRowWrites(rows: seq<Row>, i: nat, hs: seq<Horizon>, row: Row, h: Horizon)
    requires i < |rows| && LabelRow(rows, i, hs, row).Ok? && h in hs
    ensures HorizonLabel(rows, i, h).Ok?
    ensures h.Column() in LabelRow(rows, i, hs, row).value
    ensures LabelRow(rows, i, hs, row).value[h.Column()] == HorizonLabel(rows, i, h).value
  {
    var p := HorizonLabel(rows, i, hs[0]);
    var next := row[hs[0].Column() := p.value];
    if h in hs[1..] {
      LabelRowWrites(rows, i, hs[1..], next, h);
    } else {
      assert h == hs[0];
      ColumnsDistinct();
      forall j | 0 <= j < |hs[1..]| ensures hs[1..][j].Column() != h.Column() {
        assert hs[1..][j] != h;
      }
      LabelRowKeeps(rows, i, hs[1..], next, h.Column());
    }
  }

  /** With distinct columns, rescaling the sensors of ss succeeds exactly when
      each of their columns is present and holds a value `float()` accepts,
      and otherwise raises KeyError, ValueError or TypeError. */
  lemma {:induction false} ScaleRowOk(row: Row, ss: seq<Sensor>, c: Divisors)
    requires c.Valid() && DistinctSensors(ss)
    ensures ScaleRow(row, ss, c).Ok? <==>
              forall j :: 0 <= j < |ss| ==> ss[j].Column() in row && ToFloat(row[ss[j].Column()]).Ok?
    ensures ScaleRow(row, ss, c).Raised? ==> ScaleRow(row, ss, c).exc in {KeyError, ValueError, TypeError}
  {
    if ss != [] {
      var v := Scaled(row, ss[0], c);
      if v.Ok? {
        var next := row[ss[0].Column() := v.value];
        assert DistinctSensors(ss[1..]) by {
          forall a, b | 0 <= a < b < |ss[1..]| ensures ss[1..][a].Column() != ss[1..][b].Column() {
            assert ss[1..][a] == ss[a + 1] && ss[1..][b] == ss[b + 1];
          }
        }
        ScaleRowOk(next, ss[1..], c);
        forall j | 1 <= j < |ss| ensures ss[j] == ss[1..][j - 1] && ss[j].Column() != ss[0].Column() {
        }
      }
    }
  }

  /** Rescaling the sensors of ss leaves every other column as it was. */
  lemma {:induction false} ScaleRowKeeps(row: Row, ss: seq<Sensor>, c: Divisors, k: string)
    requires c.Valid() && ScaleRow(row, ss, c).Ok?
    requires forall j :: 0 <= j < |ss| ==> ss[j].Column() != k
    ensures k in ScaleRow(row, ss, c).value <==> k in row
    ensures k in row ==> ScaleRow(row, ss, c).value[k] == row[k]
  {
    if ss != [] {
      var v := Scaled(row, ss[0], c);
      ScaleRowKeeps(row[ss[0].Column() := v.value], ss[1..], c, k);
    }
  }

  /** With distinct columns, rescaling leaves in each sensor's column the
      value the row held there, divided by that sensor's constant: each
      column is divided exactly once. */
  lemma {:induction false} ScaleRowWrites(row: Row, ss: seq<Sensor>, c: Divisors, s: Sensor)
    requires c.Valid() && DistinctSensors(ss) && ScaleRow(row, ss, c).Ok? && s in ss
    ensures s.Column() in row && ToFloat(row[s.Column()]).Ok?
    ensures s.Column() in ScaleRow(row, ss, c).value
    ensures ScaleRow(row, ss, c).value[s.Column()] == Float(ToFloat(row[s.Column()]).value / c.For(s))
  {
    var v := Scaled(row, ss[0], c);
    var next := row[ss[0].Column() := v.value];
    assert DistinctSensors(ss[1..]) by {
      forall a, b | 0 <= a < b < |ss[1..]| ensures ss[1..][a].Column() != ss[1..][b].Column() {
        assert ss[1..][a] == ss[a + 1] && ss[1..][b] == ss[b + 1];
      }
    }
    forall j | 0 <= j < |ss[1..]| ensures ss[1..][j].Column() != ss[0].Column() {
      assert ss[1..][j] == ss[j + 1];
    }
    if s == ss[0] {
      ScaleRowKeeps(next, ss[1..], c, s.Column());
    } else {
      assert s in ss[1..];
      ScaleRowWrites(next, ss[1..], c, s);
      assert s.Column() != ss[0].Column() by {
        var j :| 0 <= j < |ss[1..]| && ss[1..][j] == s;
      }
    }
  }

  lemma HorizonIndex(h: Horizon) returns (j: nat)
    ensures j < |Horizons| && Horizons[j] == h
  {
    j := match h case H1 => 0 case H6 => 1 case H12 => 2 case H24 => 3;
  }

  lemma SensorIndex(s: Sensor) returns (j: nat)
    ensures j < |Sensors| && Sensors[j] == s
  {
    j := match s case Temperature => 0 case DewPoint => 1 case Humidity => 2 case Pressure => 3 case Radiation => 4;
  }

  /** Writing the labels keeps the sensor columns as the sorted row had them. */
  lemma LabelsKeepSensors(rows: seq<Row>, i: nat, labelled: Row, s: Sensor)
    requires i < |rows| && LabelRow(rows, i, Horizons, rows[i]) == Ok(labelled)
    ensures s.Column() in labelled <==> s.Column() in rows[i]
    ensures s.Column() in rows[i] ==> labelled[s.Column()] == rows[i][s.Column()]
  {
    ColumnsDistinct();
    LabelRowKeeps(rows, i, Horizons, rows[i], s.Column());
  }

  /** The four labels of row i can be computed exactly when the label of
      each horizon can. */
  lemma LabelsOk(rows: seq<Row>, i: nat)
    requires i < |rows|
    ensures LabelRow(rows, i, Horizons, rows[i]).Ok? <==> forall h: Horizon :: HorizonLabel(rows, i, h).Ok?
    ensures LabelRow(rows, i, Horizons, rows[i]).Raised? ==> LabelRow(rows, i, Horizons, rows[i]).exc in {KeyError, ValueError}
  {
    LabelRowOk(rows, i, Horizons, rows[i]);
    ColumnsDistinct();
    if forall j :: 0 <= j < |Horizons| ==> HorizonLabel(rows, i, Horizons[j]).Ok? {
      forall h: Horizon ensures HorizonLabel(rows, i, h).Ok? {
        var j := HorizonIndex(h);
      }
    }
  }

  /** The five sensors of a labelled row can be rescaled exactly when each
      column is present in the sorted row and holds a value `float()`
      accepts. */
  lemma SensorsOk(rows: seq<Row>, i: nat, labelled: Row, c: Divisors)
    requires c.Valid() && i < |rows| && LabelRow(rows, i, Horizons, rows[i]) == Ok(labelled)
    ensures ScaleRow(labelled, Sensors, c).Ok? <==>
              forall s: Sensor :: s.Column() in rows[i] && ToFloat(rows[i][s.Column()]).Ok?
    ensures ScaleRow(labelled, Sensors, c).Raised? ==> ScaleRow(labelled, Sensors, c).exc in {KeyError, ValueError, TypeError}
  {
    ColumnsDistinct();
    ScaleRowOk(labelled, Sensors, c);
    forall s: Sensor
      ensures (s.Column() in labelled && ToFloat(labelled[s.Column()]).Ok?) <==>
              (s.Column() in rows[i] && ToFloat(rows[i][s.Column()]).Ok?)
    {
      LabelsKeepSensors(rows, i, labelled, s);
    }
    if forall j :: 0 <= j < |Sensors| ==> Sensors[j].Column() in labelled && ToFloat(labelled[Sensors[j].Column()]).Ok? {
      forall s: Sensor ensures s.Column() in labelled && ToFloat(labelled[s.Column()]).Ok? {
        var j := SensorIndex(s);
      }
    }
  }

  /** An iteration on row i completes exactly when all four look-ahead labels
      can be computed and all five sensor columns are present and hold values
      `float()` accepts; otherwise it raises KeyError, ValueError or
      TypeError, never IndexError. */
  lemma RowOk(rows: seq<Row>, i: nat, c: Divisors)
    requires c.Valid() && i < |rows|
    ensures ProcessRow(rows, i, c).Ok? <==>
              && (forall h: Horizon :: HorizonLabel(rows, i, h).Ok?)
              && (forall s: Sensor :: s.Column() in rows[i] && ToFloat(rows[i][s.Column()]).Ok?)
    ensures ProcessRow(rows, i, c).Raised? ==> ProcessRow(rows, i, c).exc in {KeyError, ValueError, TypeError}
  {
    LabelsOk(rows, i);
    var labelled := LabelRow(rows, i, Horizons, rows[i]);
    if labelled.Ok? {
      SensorsOk(rows, i, labelled.value, c);
    }
  }

  /** One iteration writes label h of row i: the label of the precipitation h
      rows ahead when there is such a row, the placeholder otherwise. */
  lemma RowLabel(rows: seq<Row>, i: nat, c: Divisors, h: Horizon)
    requires c.Valid() && i < |rows| && ProcessRow(rows, i, c).Ok?
    ensures h.Column() in ProcessRow(rows, i, c).value
    ensures i + h.Ahead() < |rows| ==>
              && "precipitation" in rows[i + h.Ahead()]
              && ToLabel(rows[i + h.Ahead()]["precipitation"]).Ok?
              && ProcessRow(rows, i, c).value[h.Column()] == Int(ToLabel(rows[i + h.Ahead()]["precipitation"]).value)
    ensures i + h.Ahead() >= |rows| ==> ProcessRow(rows, i, c).value[h.Column()] == Placeholder
  {
    ColumnsDistinct();
    LabelRowWrites(rows, i, Horizons, rows[i], h);
    var labelled := LabelRow(rows, i, Horizons, rows[i]).value;
    ScaleRowKeeps(labelled, Sensors, c, h.Column());
  }

  /** One iteration overwrites sensor s of row i with the value the sorted
      row held, divided by the sensor's own constant. */
  lemma RowSensor(rows: seq<Row>, i: nat, c: Divisors, s: Sensor)
    requires c.Valid() && i < |rows| && ProcessRow(rows, i, c).Ok?
    ensures s.Column() in rows[i] && ToFloat(rows[i][s.Column()]).Ok?
    ensures s.Column() in ProcessRow(rows, i, c).value
    ensures ProcessRow(rows, i, c).value[s.Column()] == Float(ToFloat(rows[i][s.Column()]).value / c.For(s))
  {
    ColumnsDistinct();
    var labelled := LabelRow(rows, i, Horizons, rows[i]).value;
    LabelRowKeeps(rows, i, Horizons, rows[i], s.Column());
    ScaleRowWrites(labelled, Sensors, c, s);
  }

  /** One iteration leaves every column it does not write as it was, adds
      none besides the four labels, and removes none. */
  lemma RowOtherColumns(rows: seq<Row>, i: nat, c: Divisors, k: string)
    requires c.Valid() && i < |rows| && ProcessRow(rows, i, c).Ok?
    requires k !in WrittenColumns()
    ensures k in ProcessRow(rows, i, c).value <==> k in rows[i]
    ensures k in rows[i] ==> ProcessRow(rows, i, c).value[k] == rows[i][k]
  {
    var labelled := LabelRow(rows, i, Horizons, rows[i]).value;
    LabelRowKeeps(rows, i, Horizons, rows[i], k);
    ScaleRowKeeps(labelled, Sensors, c, k);
  }

  /** The loop completes exactly when every row's iteration does, and then
      holds one rewritten row per sorted row, in the same order. */
  lemma {:induction false} ProcessUpToRows(rows: seq<Row>, c: Divisors, k: nat)
    requires c.Valid() && k <= |rows|
    ensures ProcessUpTo(rows, c, k).Ok? <==> forall j :: 0 <= j < k ==> ProcessRow(rows, j, c).Ok?
    ensures ProcessUpTo(rows, c, k).Ok? ==>
              |ProcessUpTo(rows, c, k).value| == k &&
              forall j :: 0 <= j < k ==> ProcessRow(rows, j, c) == Ok(ProcessUpTo(rows, c, k).value[j])
  {
    if k > 0 {
      ProcessUpToRows(rows, c, k - 1);
    }
  }

  /** When the loop raises, the exception is that of the first row whose
      iteration raises. */
  lemma {:induction false} FirstFailureDecides(rows: seq<Row>, c: Divisors, k: nat)
    requires c.Valid() && k <= |rows|
    requires ProcessUpTo(rows, c, k).Raised?
    ensures exists j :: 0 <= j < k && ProcessRow(rows, j, c) == Raised(ProcessUpTo(rows, c, k).exc) &&
                        forall j' :: 0 <= j' < j ==> ProcessRow(rows, j', c).Ok?
  {
    var e := ProcessUpTo(rows, c, k).exc;
    if ProcessUpTo(rows, c, k - 1).Raised? {
      FirstFailureDecides(rows, c, k - 1);
    } else {
      ProcessUpToRows(rows, c, k - 1);
      assert ProcessRow(rows, k - 1, c) == Raised(e);
    }
  }

  /** The IndexError the loop's `except` names is never raised: the loop
      raises KeyError, ValueError or TypeError, or completes. */
  lemma LoopNeverRaisesIndexError(rows: seq<Row>, c: Divisors)
    requires c.Valid()
    ensures ProcessAll(rows, c).Raised? ==> ProcessAll(rows, c).exc in {KeyError, ValueError, TypeError}
  {
    if ProcessAll(rows, c).Raised? {
      FirstFailureDecides(rows, c, |rows|);
      var j :| 0 <= j < |rows| && ProcessRow(rows, j, c) == Raised(ProcessAll(rows, c).exc);
      RowOk(rows, j, c);
    }
  }

  /** After the loop, label h of row i is the label of the sorted row h
      ahead, or the placeholder when i >= len(rows) - h. */
  lemma LabelsAfterLoop(rows: seq<Row>, c: Divisors, i: nat, h: Horizon)
    requires c.Valid() && i < |rows| && ProcessAll(rows, c).Ok?
    ensures |ProcessAll(rows, c).value| == |rows|
    ensures h.Column() in ProcessAll(rows, c).value[i]
    ensures i < |rows| - h.Ahead() ==>
              && "precipitation" in rows[i + h.Ahead()]
              && ToLabel(rows[i + h.Ahead()]["precipitation"]).Ok?
              && ProcessAll(rows, c).value[i][h.Column()] == Int(ToLabel(rows[i + h.Ahead()]["precipitation"]).value)
    ensures i >= |rows| - h.Ahead() ==> ProcessAll(rows, c).value[i][h.Column()] == Placeholder
  {
    ProcessUpToRows(rows, c, |rows|);
    RowLabel(rows, i, c, h);
  }

  /** After the loop, each sensor of each row is its sorted value divided by
      its own constant, so multiplying back by the constant gives the
      reading. */
  lemma SensorsAfterLoop(rows: seq<Row>, c: Divisors, i: nat, s: Sensor)
    requires c.Valid() && i < |rows| && ProcessAll(rows, c).Ok?
    ensures |ProcessAll(rows, c).value| == |rows|
    ensures s.Column() in rows[i] && ToFloat(rows[i][s.Column()]).Ok?
    ensures s.Column() in ProcessAll(rows, c).value[i]
    ensures ProcessAll(rows, c).value[i][s.Column()] == Float(ToFloat(rows[i][s.Column()]).value / c.For(s))
    ensures ProcessAll(rows, c).value[i][s.Column()].x * c.For(s) == ToFloat(rows[i][s.Column()]).value
  {
    ProcessUpToRows(rows, c, |rows|);
    RowSensor(rows, i, c, s);
  }

  /** After the loop, every column the loop does not write (`precipitation`
      and `time` among them) is as the sort left it. */
  lemma OtherColumnsAfterLoop(rows: seq<Row>, c: Divisors, i: nat, k: string)
    requires c.Valid() && i < |rows| && ProcessAll(rows, c).Ok?
    requires k !in WrittenColumns()
    ensures |ProcessAll(rows, c).value| == |rows|
    ensures k in ProcessAll(rows, c).value[i] <==> k in rows[i]
    ensures k in rows[i] ==> ProcessAll(rows, c).value[i][k] == rows[i][k]
  {
    ProcessUpToRows(rows, c, |rows|);
    RowOtherColumns(rows, i, c, k);
  }

  /** After the loop, each row has the fields of its sorted row and the
      nine written columns, and no others. */
  lemma LoopKeys(rows: seq<Row>, c: Divisors, i: nat)
    requires c.Valid() && i < |rows| && ProcessAll(rows, c).Ok?
    ensures |ProcessAll(rows, c).value| == |rows|
    ensures ProcessAll(rows, c).value[i].Keys == rows[i].Keys + WrittenColumns()
  {
    ProcessUpToRows(rows, c, |rows|);
    var out := ProcessAll(rows, c).value[i];
    forall h: Horizon ensures h.Column() in out {
      LabelsAfterLoop(rows, c, i, h);
    }
    forall s: Sensor ensures s.Column() in out {
      SensorsAfterLoop(rows, c, i, s);
    }
    forall k | k !in WrittenColumns() ensures k in out <==> k in rows[i] {
      OtherColumnsAfterLoop(rows, c, i, k);
    }
  }

  /** The last row gets the placeholder for all four horizons; with at least
      25 rows, the row 25 from the end gets a real 24-row label, that of the
      last row. */
  lemma TailLabels(rows: seq<Row>, c: Divisors)
    requires c.Valid() && |rows| > 0 && ProcessAll(rows, c).Ok?
    ensures |ProcessAll(rows, c).value| == |rows|
    ensures forall h: Horizon :: h.Column() in ProcessAll(rows, c).value[|rows| - 1] &&
                                 ProcessAll(rows, c).value[|rows| - 1][h.Column()] == Placeholder
    ensures |rows| >= 25 ==>
              && "precipitation" in rows[|rows| - 1]
              && ToLabel(rows[|rows| - 1]["precipitation"]).Ok?
              && H24.Column() in ProcessAll(rows, c).value[|rows| - 25]
              && ProcessAll(rows, c).value[|rows| - 25][H24.Column()] == Int(ToLabel(rows[|rows| - 1]["precipitation"]).value)
  {
    ProcessUpToRows(rows, c, |rows|);
    forall h: Horizon
      ensures h.Column() in ProcessAll(rows, c).value[|rows| - 1] &&
              ProcessAll(rows, c).value[|rows| - 1][h.Column()] == Placeholder
    {
      LabelsAfterLoop(rows, c, |rows| - 1, h);
    }
    if |rows| >= 25 {
      LabelsAfterLoop(rows, c, |rows| - 25, H24);
    }
  }
}
