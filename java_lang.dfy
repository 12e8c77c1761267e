/**
 * The parts of Java's semantics the entities depend on: references that may
 * be null, the NullPointerException thrown when a null wrapper is unboxed,
 * 32-bit `int` arithmetic, and the way string concatenation renders null.
 */
module JavaLang {

  /** A field or argument of reference type: `None` stands for Java's null. */
  datatype Option<+T> = None | Some(value: T)

  /** The outcome of a Java expression that may throw a NullPointerException. */
  datatype Outcome<+T> = Returns(value: T) | ThrowsNullPointer

  const INT_MIN: int := -0x8000_0000
  const INT_MAX: int := 0x7fff_ffff

  /** The values of Java's `int` (and of a non-null `Integer`). */
  type Int32 = x: int | -0x8000_0000 <= x <= 0x7fff_ffff

  /** Two's-complement wrap-around of Java `int` addition. */
  function Wrap32(x: int): (r: Int32)
    ensures INT_MIN <= x <= INT_MAX ==> r == x
    ensures (x - r) % 0x1_0000_0000 == 0
  {
    (x + 0x8000_0000) % 0x1_0000_0000 - 0x8000_0000
  }

  /** Wrapping an intermediate result does not change the final wrapped sum. */
  lemma Wrap32OfWrapped(x: int, y: int)
    ensures Wrap32(Wrap32(x) + y) == Wrap32(x + y)
  {
    var k := (x + 0x8000_0000) / 0x1_0000_0000;
    assert Wrap32(x) + y + 0x8000_0000 == (x + y + 0x8000_0000) - k * 0x1_0000_0000;
    ModShift(x + y + 0x8000_0000, k);
  }

  /** Subtracting a multiple of 2^32 keeps the remainder modulo 2^32. */
  lemma ModShift(a: int, k: int)
    ensures (a - k * 0x1_0000_0000) % 0x1_0000_0000 == a % 0x1_0000_0000
  {
    var q, r := a / 0x1_0000_0000, a % 0x1_0000_0000;
    assert a - k * 0x1_0000_0000 == (q - k) * 0x1_0000_0000 + r;
  }

  /** `x != null ? x : 0` for an `Integer`. */
  function OrZero(x: Option<Int32>): Int32 {
    if x.Some? then x.value else 0
  }

  /** What `"..." + s` appends for a `String` that may be null. */
  function Render(s: Option<string>): string {
    if s.Some? then s.value else "null"
  }
}
