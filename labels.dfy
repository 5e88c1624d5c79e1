/** `to_label` (util/data.py): the severity class of a precipitation amount. */
module Labels {
  import opened DataModel

  /** `to_label(v)`. Only a TypeError from `float()` is caught, and it gives
      -1; a ValueError (text that is not a number) escapes. */
  function ToLabel(v: Value): (r: Outcome<int>)
    ensures r.Ok? ==> -1 <= r.value <= 4
    ensures r == Ok(-1) <==> ToFloat(v) == Raised(TypeError)
    ensures r.Raised? <==> ToFloat(v) == Raised(ValueError)
    ensures r.Raised? ==> r.exc == ValueError
  {
    match ToFloat(v)
    case Raised(TypeError) => Ok(-1)
    case Raised(e) => Raised(e)
    case Ok(x) =>
      if x == 0.0 then Ok(0)
      else if x < 0.5 then Ok(1)
      else if x < 4.0 then Ok(2)
      else if x < 8.0 then Ok(3)
      else Ok(4)
  }

  /** The severity bands, interval by interval: class 1 takes every other
      amount below 0.5, negative ones included. */
  predicate InBand(x: real, k: int) {
    || (k == 0 && x == 0.0)
    || (k == 1 && x != 0.0 && x < 0.5)
    || (k == 2 && 0.5 <= x < 4.0)
    || (k == 3 && 4.0 <= x < 8.0)
    || (k == 4 && 8.0 <= x)
  }

  /** Every amount lies in exactly one band. */
  lemma BandsPartition(x: real)
    ensures exists k :: 0 <= k <= 4 && InBand(x, k)
    ensures forall j, k :: InBand(x, j) && InBand(x, k) ==> j == k
  {
    if x == 0.0 { assert InBand(x, 0); }
    else if x < 0.5 { assert InBand(x, 1); }
    else if x < 4.0 { assert InBand(x, 2); }
    else if x < 8.0 { assert InBand(x, 3); }
    else { assert InBand(x, 4); }
  }

  /** On a value `float()` accepts, the label is exactly the band. */
  lemma LabelIsBand(v: Value, x: real, k: int)
    requires ToFloat(v) == Ok(x)
    ensures ToLabel(v) == Ok(k) <==> InBand(x, k)
  {
  }

  /** On amounts that are not negative, more precipitation never gives a lower
      class. */
  lemma LabelMonotone(x: real, y: real)
    requires 0.0 <= x <= y
    ensures ToLabel(Float(x)).value <= ToLabel(Float(y)).value
  {
  }

  /** The negative-amount quirk: every negative amount is class 1, above the
      class 0 of an exact zero. */
  lemma NegativeAmountIsClassOne(x: real)
    requires x < 0.0
    ensures ToLabel(Float(x)) == Ok(1)
    ensures ToLabel(Float(x)).value > ToLabel(Float(0.0)).value
  {
  }

  /** None gives the invalid marker -1; text that is not a number escapes as a
      ValueError instead. */
  lemma InvalidInputs()
    ensures ToLabel(NoneValue) == Ok(-1)
    ensures ToLabel(BadText) == Raised(ValueError)
  {
  }
}
