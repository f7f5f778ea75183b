/** Optional values: the model's stand-in for JavaScript's `null`, `undefined` and NaN. */
module Wrappers {
  datatype Option<T> = None | Some(value: T)
  {
    function GetOr(default: T): (r: T)
      ensures this.Some? ==> r == value
      ensures this.None? ==> r == default
    {
      match this
      case Some(v) => v
      case None => default
    }
  }

  /**
   * A JavaScript number field: a finite value, or `NaN`, which stands for
   * every non-finite value and for `null` and `undefined` alike.
   */
  datatype Num = NaN | Fin(v: real)

  /** `x || d` on a number field: the field unless it is `0`, NaN or missing. */
  function OrNum(x: Num, d: real): (r: real)
    ensures x.Fin? && x.v != 0.0 ==> r == x.v
    ensures x.NaN? || x.v == 0.0 ==> r == d
  {
    if x.Fin? && x.v != 0.0 then x.v else d
  }

  /** `x || d` on an integer field: the field unless it is `0` or missing. */
  function OrInt(x: Option<int>, d: int): (r: int)
    ensures x.Some? && x.value != 0 ==> r == x.value
    ensures x.None? || x.value == 0 ==> r == d
  {
    if x.Some? && x.value != 0 then x.value else d
  }
}
