/** `normalize_sensors(data)` (util/data.py:86-95): one live reading, keyed
    `temperature`, `dewpoint`, `humidity`, `pressure` and `luminosity`, mapped
    onto the five sensor columns of the historical table. */
module Live {
  import opened DataModel
  import Batch

  /** The extra divisor the live path applies to luminosity on top of
      LUMINOSITY_N. */
  const LuminosityExtra: real := 4000.0

  /** The total divisor the live path applies to sensor `s`. */
  function LiveDivisor(s: Sensor, c: Divisors): (d: real)
    requires c.Valid()
    ensures d > 0.0
  {
    if s == Radiation then c.luminosity * LuminosityExtra else c.For(s)
  }

  /** The value of one entry of the dictionary literal: `float(data[key])`
      divided by its constant, and luminosity once more by 4000. A missing
      key raises KeyError, a value `float()` rejects raises its exception. */
  function LiveField(data: Row, s: Sensor, c: Divisors): (r: Outcome<real>)
    requires c.Valid()
    ensures r.Ok? <==> s.LiveKey() in data && ToFloat(data[s.LiveKey()]).Ok?
    ensures r.Ok? ==> r.value * LiveDivisor(s, c) == ToFloat(data[s.LiveKey()]).value
    ensures r.Raised? ==>
              r.exc == (if s.LiveKey() in data then ToFloat(data[s.LiveKey()]).exc else KeyError)
  {
    if s.LiveKey() !in data then Raised(KeyError)
    else
      var x :- ToFloat(data[s.LiveKey()]);
      if s == Radiation then Ok(x / c.luminosity / LuminosityExtra) else Ok(x / c.For(s))
  }

  /** The dictionary literal, its entries evaluated in order: the first entry
      that raises ends the evaluation. */
  function LiveRow(data: Row, c: Divisors): Outcome<Row>
    requires c.Valid()
  {
    var temperature :- LiveField(data, Temperature, c);
    var dewPoint :- LiveField(data, DewPoint, c);
    var humidity :- LiveField(data, Humidity, c);
    var pressure :- LiveField(data, Pressure, c);
    var radiation :- LiveField(data, Radiation, c);
    Ok(map[Temperature.Column() := Float(temperature),
           DewPoint.Column() := Float(dewPoint),
           Humidity.Column() := Float(humidity),
           Pressure.Column() := Float(pressure),
           Radiation.Column() := Float(radiation)])
  }

  /** `normalize_sensors`: ValueError (and IndexError, which cannot arise)
      give `False`; KeyError and TypeError escape. */
  function NormalizeSensors(data: Row, c: Divisors): Reply<Row>
    requires c.Valid()
  {
    match LiveRow(data, c)
    case Ok(row) => Returned(row)
    case Raised(e) => if e == ValueError || e == IndexError then ReturnedFalse else Escaped(e)
  }

  /** The five output keys: the sensor columns of the historical table. */
  function LiveColumns(): set<string> {
    {Temperature.Column(), DewPoint.Column(), Humidity.Column(), Pressure.Column(), Radiation.Column()}
  }

  /** Each of the five entries evaluates. */
  predicate FieldsOk(data: Row, c: Divisors)
    requires c.Valid()
  {
    && LiveField(data, Temperature, c).Ok? && LiveField(data, DewPoint, c).Ok?
    && LiveField(data, Humidity, c).Ok? && LiveField(data, Pressure, c).Ok?
    && LiveField(data, Radiation, c).Ok?
  }

  lemma LiveRowOk(data: Row, c: Divisors)
    requires c.Valid()
    ensures LiveRow(data, c).Ok? <==> FieldsOk(data, c)
    ensures LiveRow(data, c).Ok? ==>
              && LiveRow(data, c).value.Keys == LiveColumns()
              && forall s: Sensor :: LiveRow(data, c).value[s.Column()] == Float(LiveField(data, s, c).value)
  {
    if FieldsOk(data, c) {
      var row := LiveRow(data, c).value;
      forall s: Sensor ensures row[s.Column()] == Float(LiveField(data, s, c).value) {
        match s
        case Temperature =>
        case DewPoint =>
        case Humidity =>
        case Pressure =>
        case Radiation =>
      }
    }
  }

  /** The five entries evaluate exactly when the entry of every sensor does. */
  lemma FieldsOkEverySensor(data: Row, c: Divisors)
    requires c.Valid()
    ensures FieldsOk(data, c) <==> forall s: Sensor :: LiveField(data, s, c).Ok?
  {
    if FieldsOk(data, c) {
      forall s: Sensor ensures LiveField(data, s, c).Ok? {
        match s
        case Temperature =>
        case DewPoint =>
        case Humidity =>
        case Pressure =>
        case Radiation =>
      }
    }
  }

  /** A dictionary comes back exactly when all five keys are present and
      hold values `float()` accepts. */
  lemma LiveReturns(data: Row, c: Divisors)
    requires c.Valid()
    ensures NormalizeSensors(data, c).Returned? <==>
              forall s: Sensor :: s.LiveKey() in data && ToFloat(data[s.LiveKey()]).Ok?
  {
    LiveRowOk(data, c);
    FieldsOkEverySensor(data, c);
    assert NormalizeSensors(data, c).Returned? <==> LiveRow(data, c).Ok?;
  }

  /** The dictionary that comes back has exactly the five sensor columns,
      each holding its entry. */
  lemma LiveReturnedRow(data: Row, c: Divisors)
    requires c.Valid() && NormalizeSensors(data, c).Returned?
    ensures var row := NormalizeSensors(data, c).value;
      && row.Keys == LiveColumns()
      && forall s: Sensor :: row[s.Column()] == Float(LiveField(data, s, c).value)
  {
    var row := LiveRow(data, c).value;
    assert NormalizeSensors(data, c).value == row;
    LiveRowOk(data, c);
    forall s: Sensor
      ensures row[s.Column()] == Float(LiveField(data, s, c).value)
    {
    }
  }

  /** Each output value is the reading divided by the live divisor:
      multiplying back gives the reading. */
  lemma LiveRoundTrip(data: Row, c: Divisors, s: Sensor)
    requires c.Valid() && NormalizeSensors(data, c).Returned?
    ensures s.LiveKey() in data && ToFloat(data[s.LiveKey()]).Ok?
    ensures NormalizeSensors(data, c).value[s.Column()].x * LiveDivisor(s, c) == ToFloat(data[s.LiveKey()]).value
  {
    LiveReturns(data, c);
    LiveReturnedRow(data, c);
    var x := LiveField(data, s, c).value;
    assert NormalizeSensors(data, c).value[s.Column()].x == x;
  }

  /** The first entry that raises decides the reply: `False` for a value
      that is not a number, the exception itself for a missing key or a
      `None` value. */
  lemma FirstFailingField(data: Row, c: Divisors, j: nat)
    requires c.Valid() && j < |Sensors|
    requires forall k :: 0 <= k < j ==> LiveField(data, Sensors[k], c).Ok?
    requires LiveField(data, Sensors[j], c).Raised?
    ensures var e := LiveField(data, Sensors[j], c).exc;
      NormalizeSensors(data, c) == if e == ValueError then ReturnedFalse else Escaped(e)
  {
    assert LiveRow(data, c) == Raised(LiveField(data, Sensors[j], c).exc) by {
      if j == 0 {
      } else if j == 1 {
        assert LiveField(data, Sensors[0], c).Ok?;
      } else if j == 2 {
        assert LiveField(data, Sensors[0], c).Ok? && LiveField(data, Sensors[1], c).Ok?;
      } else if j == 3 {
        assert LiveField(data, Sensors[0], c).Ok? && LiveField(data, Sensors[1], c).Ok?;
        assert LiveField(data, Sensors[2], c).Ok?;
      } else {
        assert LiveField(data, Sensors[0], c).Ok? && LiveField(data, Sensors[1], c).Ok?;
        assert LiveField(data, Sensors[2], c).Ok? && LiveField(data, Sensors[3], c).Ok?;
      }
    }
  }

  /** A reading without `humidity` whose first two values parse makes
      `normalize_sensors` raise KeyError rather than return `False`. */
  lemma MissingHumidityEscapes(data: Row, c: Divisors)
    requires c.Valid() && "humidity" !in data
    requires LiveField(data, Temperature, c).Ok? && LiveField(data, DewPoint, c).Ok?
    ensures NormalizeSensors(data, c) == Escaped(KeyError)
  {
    FirstFailingField(data, c, 2);
  }

  /** The live path agrees with the batch loop's scaling on the same value,
      except that luminosity comes out 4000 times smaller. */
  lemma LiveAgainstBatch(data: Row, row: Row, s: Sensor, c: Divisors)
    requires c.Valid() && s.LiveKey() in data && s.Column() in row
    requires data[s.LiveKey()] == row[s.Column()]
    ensures LiveField(data, s, c).Ok? <==> Batch.Scaled(row, s, c).Ok?
    ensures LiveField(data, s, c).Ok? ==>
              LiveField(data, s, c).value
                == Batch.Scaled(row, s, c).value.x / (if s == Radiation then LuminosityExtra else 1.0)
  {
  }
}
