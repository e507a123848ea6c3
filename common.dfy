/** Small helpers shared by every module: optional values (a C# reference
    that may be null), the exceptions the registries throw, C#'s 32-bit
    `int` arithmetic and the rounding helpers of Unity's `Mathf`. */
module Common {

  /** A value that may be absent; `None` stands for a null reference. */
  datatype Option<T> = None | Some(value: T)

  /** The exceptions thrown by the registries' add and remove operations. */
  datatype Error =
    | ArgumentNull    // ArgumentNullException: the argument was null
    | AlreadyAdded    // the element is already registered
    | NotAdded        // the element was never registered
    | NullList        // NullReferenceException: the list was never created

  /** Outcome of an operation that either succeeds with a value or throws. */
  datatype Result<T> = Ok(value: T) | Fail(error: Error)

  const Int32Min: int := -0x8000_0000
  const Int32Max: int := 0x7FFF_FFFF

  predicate InInt32(x: int) { Int32Min <= x <= Int32Max }

  /** Two's-complement wrap-around of C#'s unchecked `int` arithmetic. */
  function Wrap32(x: int): (r: int)
    ensures InInt32(r)
    ensures (r - x) % 0x1_0000_0000 == 0
    ensures InInt32(x) ==> r == x
  {
    (x - Int32Min) % 0x1_0000_0000 + Int32Min
  }

  /** `Mathf.CeilToInt(a / d)` computed exactly; valid for negative `a` too. */
  function CeilDiv(a: int, d: int): (q: int)
    requires d > 0
    ensures q * d >= a
    ensures (q - 1) * d < a
  {
    -((-a) / d)
  }

  /** `Mathf.Max` on integers. */
  function Max(a: int, b: int): int { if a < b then b else a }
}
