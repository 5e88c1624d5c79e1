/** Values as they flow through `util/data.py`: the cells of a row dictionary,
    the Python exceptions the transform can raise, `float()` on a cell, the
    five sensor columns and the scaling constants. */
module DataModel {

  /** The Python exceptions the transform can raise. */
  datatype Exception = ValueError | TypeError | KeyError | IndexError

  /** The result of evaluating a Python expression: a value, or an exception
      propagating out of it. Usable with `:-`. */
  datatype Outcome<+T> = Ok(value: T) | Raised(exc: Exception) {
    predicate IsFailure() { Raised? }

    function PropagateFailure<U>(): Outcome<U>
      requires Raised?
    {
      Raised(exc)
    }

    function Extract(): T
      requires Ok?
    {
      value
    }
  }

  /** What a Python function of the module hands back to its caller: a value,
      the `False` its `except` clauses return, or an exception it lets escape. */
  datatype Reply<+T> = Returned(value: T) | ReturnedFalse | Escaped(exc: Exception)

  datatype Option<+T> = None | Some(value: T)

  /** A cell of a row dictionary. CSV cells are text, or `None`, which
      `csv.DictReader` puts in the fields a short line lacks; the transform
      itself writes floats and ints. */
  datatype Value =
    | NumText(r: real)   // text that `float()` parses as r
    | BadText            // text that `float()` rejects with ValueError
    | NoneValue          // None, or another object `float()` rejects with TypeError
    | Float(x: real)
    | Int(n: int)

  /** A row dictionary, keyed by column name. */
  type Row = map<string, Value>

  /** `float(v)`. */
  function ToFloat(v: Value): Outcome<real> {
    match v
    case NumText(x) => Ok(x)
    case BadText => Raised(ValueError)
    case NoneValue => Raised(TypeError)
    case Float(x) => Ok(x)
    case Int(n) => Ok(n as real)
  }

  /** The five continuous sensor readings, in the order both normalisers
      process them. */
  datatype Sensor = Temperature | DewPoint | Humidity | Pressure | Radiation {
    /** The column of the historical table; also the output key of the live path. */
    function Column(): string {
      match this
      case Temperature => "temperature_2m"
      case DewPoint => "dew_point_2m"
      case Humidity => "relative_humidity_2m"
      case Pressure => "surface_pressure"
      case Radiation => "shortwave_radiation"
    }

    /** The key of a live reading. */
    function LiveKey(): string {
      match this
      case Temperature => "temperature"
      case DewPoint => "dewpoint"
      case Humidity => "humidity"
      case Pressure => "pressure"
      case Radiation => "luminosity"
    }
  }

  /** The sensors in processing order. */
  const Sensors: seq<Sensor> := [Temperature, DewPoint, Humidity, Pressure, Radiation]

  /** The scaling constants TEMP_N, DEWPOINT_N, HUMIDITY_N, PRESSURE_N and
      LUMINOSITY_N, given as parameters. */
  datatype Divisors = Divisors(temperature: real, dewPoint: real, humidity: real,
                               pressure: real, luminosity: real)
  {
    predicate Valid() {
      temperature > 0.0 && dewPoint > 0.0 && humidity > 0.0 && pressure > 0.0 && luminosity > 0.0
    }

    /** The constant sensor `s` is divided by. */
    function For(s: Sensor): (d: real)
      requires Valid()
      ensures d > 0.0
    {
      match s
      case Temperature => temperature
      case DewPoint => dewPoint
      case Humidity => humidity
      case Pressure => pressure
      case Radiation => luminosity
    }
  }
}
