/** The pieces of `java.lang` that the basket classes lean on: what an
    `equals(Object)` method can be handed, and `int` arithmetic. */
module JavaLang {

  /** The argument of `equals(Object o)`: `null`, an instance of the
      receiver's own class, or an instance of some other class. Fields are
      never `null` in this model. */
  datatype Ref<T> = Null | Instance(obj: T) | OtherClass

  const TwoTo32: int := 0x1_0000_0000

  /** The values of a Java `int`. */
  type Int32 = x: int | -0x8000_0000 <= x < 0x8000_0000

  /** The Java `int` that an exact integer wraps around to. */
  function Wrap32(x: int): (r: Int32)
    ensures (r - x) % TwoTo32 == 0
    ensures -0x8000_0000 <= x < 0x8000_0000 ==> r == x
  {
    (x + 0x8000_0000) % TwoTo32 - 0x8000_0000
  }

  /** `result = h1; result = 31 * result + h2;` in `int` arithmetic, the
      combining step of both `hashCode` methods. Each operation wraps. */
  function HashCombine(h1: Int32, h2: Int32): (h: Int32)
    ensures (h - (31 * h1 + h2)) % TwoTo32 == 0
  {
    var m := Wrap32(31 * h1);
    var r := Wrap32(m + h2);
    assert r - (31 * h1 + h2) == (r - (m + h2)) + (m - 31 * h1);
    r
  }
}
