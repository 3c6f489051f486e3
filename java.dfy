/** The few Java language facts the controller depends on: nullable
    references and the narrowing `(int)` cast applied to engine `long`s. */
module Java {

  /** A nullable reference: `None` stands for `null`. */
  datatype Option<+T> = None | Some(value: T) {
    /** `x != null ? x : default` */
    function GetOr(default: T): (r: T) {
      match this
      case Some(v) => v
      case None => default
    }
  }

  const INT_MIN: int := -0x8000_0000
  const INT_MAX: int := 0x7fff_ffff
  const TWO_TO_32: int := 0x1_0000_0000

  /** The value range of a Java `int`. */
  predicate IsInt(x: int) {
    INT_MIN <= x <= INT_MAX
  }

  /** Java's `(int)` cast of a `long`: keeps the low 32 bits and reads them
      as a two's-complement number. */
  function LongToInt(x: int): (r: int)
    ensures IsInt(r)
    ensures (x - r) % TWO_TO_32 == 0
    ensures IsInt(x) ==> r == x
  {
    (x - INT_MIN) % TWO_TO_32 + INT_MIN
  }
}
