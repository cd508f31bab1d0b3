/**
 * Small shared vocabulary: an optional value that also serves as the failure
 * type of decoders, and the nullable-optional number of the schemas.
 */
module Common {

  /** An optional value; `None` doubles as "rejected" for the decoders. */
  datatype Option<+T> = None | Some(value: T) {

    predicate IsFailure() {
      None?
    }

    function PropagateFailure<U>(): Option<U>
      requires None?
    {
      None
    }

    function Extract(): T
      requires Some?
    {
      value
    }

    function GetOr(default: T): T {
      match this
      case Some(v) => v
      case None => default
    }
  }

  /**
   * A schema number declared `.nullable().optional()`: the key may be missing,
   * hold `null` (`Nil`), or hold a number. Template literals print the first two
   * differently ("undefined" / "null"), while `??` and `||` treat both alike.
   */
  datatype Maybe = Undefined | Nil | Defined(n: real) {

    /** `this ?? d` */
    function Or(d: real): real {
      if Defined? then n else d
    }

    /** True exactly when `this || undefined` keeps the number: a defined, non-zero value. */
    predicate Truthy() {
      Defined? && n != 0.0
    }
  }
}
