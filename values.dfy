/** Small value types shared by the model of the proxy manager. */
module Values {

  /** A value that may be missing; `None` stands for JavaScript's `null`/`undefined`. */
  datatype Option<+T> = None | Some(value: T)

  /** One field of a partial object given to a shallow merge: either the key is absent
      from the object, or it is present with a value. */
  datatype Field<+T> = Absent | Present(value: T)
  {
    /** The value a shallow merge `{...old, ...patch}` leaves for this key. */
    function Over(previous: T): T
    {
      if Present? then value else previous
    }
  }

  /** A JavaScript number as the core uses it: an integer, or NaN (what `Number`
      yields for text that is not a number). */
  datatype Num = Int(v: int) | NaN
  {
    /** `this - k`; NaN stays NaN. */
    function Minus(k: int): Num
    {
      if Int? then Int(v - k) else NaN
    }

    /** `this + k`; NaN stays NaN. */
    function Plus(k: int): Num
    {
      if Int? then Int(v + k) else NaN
    }

    /** `this < 0`; every comparison with NaN is false. */
    predicate Negative()
    {
      Int? && v < 0
    }
  }
}
