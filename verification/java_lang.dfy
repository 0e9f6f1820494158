/**
 The slice of the Java platform the car model relies on: the widths of `int`
 and `long`, `null` references, `BigDecimal` values, and the hash codes the
 JDK defines for `String`, `Long`, `Integer`, `BigDecimal` and `Objects.hash`.
 */
module JavaLang {

  const TWO_32: int := 0x1_0000_0000
  const TWO_64: int := 0x1_0000_0000_0000_0000
  const MAX_LONG: int := 0x7FFF_FFFF_FFFF_FFFF

  /** Java `int`: 32-bit two's complement. */
  type Int32 = x: int | -0x8000_0000 <= x < 0x8000_0000

  /** Java `long`: 64-bit two's complement. */
  type Int64 = x: int | -0x8000_0000_0000_0000 <= x < 0x8000_0000_0000_0000

  /** A nullable reference: `None` stands for Java's `null`. */
  datatype Option<+T> = None | Some(value: T)

  /**
   `java.math.BigDecimal`: the number `unscaled * 10^(-scale)`. Two values are
   `equals` in Java exactly when both parts agree (2.0 and 2.00 differ), which
   is the structural equality of this datatype.
   */
  datatype BigDecimal = BigDecimal(unscaled: int, scale: Int32)

  /** Java's narrowing to `int`: keep the low 32 bits and read them as two's complement. */
  function ToInt(x: int): (r: Int32)
    ensures (r - x) % TWO_32 == 0
    ensures 0 <= x < 0x8000_0000 ==> r == x
  {
    var m := x % TWO_32;
    if m < 0x8000_0000 then m else m - TWO_32
  }

  /** Narrowing forgets multiples of 2^32. */
  lemma ToIntShift(x: int, k: int)
    ensures ToInt(x + k * TWO_32) == ToInt(x)
  {
  }

  /** Narrowing before a `31 * h + x` step gives the same `int` as narrowing after it. */
  lemma ToIntStep(h: int, x: int)
    ensures ToInt(31 * ToInt(h) + x) == ToInt(31 * h + x)
  {
    var k := (ToInt(h) - h) / TWO_32;
    assert ToInt(h) == h + k * TWO_32;
    assert 31 * ToInt(h) + x == (31 * h + x) + (31 * k) * TWO_32;
    ToIntShift(31 * h + x, 31 * k);
  }

  /**
   The loop `for (x : xs) h = 31 * h + x;` as the JDK runs it for
   `String.hashCode`, `Arrays.hashCode` and `BigInteger.hashCode`: every step
   is computed in `int` arithmetic and wraps around.
   */
  function Fold31(xs: seq<int>, h: Int32): Int32
  {
    if xs == [] then h else Fold31(xs[1..], ToInt(31 * h + xs[0]))
  }

  /**
   The documented meaning of that loop: the polynomial
   `h * 31^n + xs[0] * 31^(n-1) + ... + xs[n-1]` over unbounded integers.
   */
  function Poly31(xs: seq<int>, h: int): int
  {
    if xs == [] then h else 31 * Poly31(xs[..|xs| - 1], h) + xs[|xs| - 1]
  }

  /** One more element appended to the input is one more wrapped step at the end. */
  lemma {:induction false} Fold31Append(xs: seq<int>, x: int, h: Int32)
    ensures Fold31(xs + [x], h) == ToInt(31 * Fold31(xs, h) + x)
  {
    if xs == [] {
      assert [x][1..] == [];
    } else {
      assert (xs + [x])[1..] == xs[1..] + [x];
      Fold31Append(xs[1..], x, ToInt(31 * h + xs[0]));
    }
  }

  /** Wrapping at every step equals computing the polynomial exactly and wrapping once. */
  lemma {:induction false} Fold31IsPoly31(xs: seq<int>, h: int)
    ensures Fold31(xs, ToInt(h)) == ToInt(Poly31(xs, h))
  {
    if xs != [] {
      var init, last := xs[..|xs| - 1], xs[|xs| - 1];
      assert xs == init + [last];
      Fold31IsPoly31(init, h);
      Fold31Append(init, last, ToInt(h));
      ToIntStep(Poly31(init, h), last);
    }
  }

  /** `String.hashCode`: the 31-fold over the string's characters, starting from 0. */
  function StringHash(s: string): (r: Int32)
    ensures r == ToInt(Poly31(Codes(s), 0))
  {
    Fold31IsPoly31(Codes(s), 0);
    Fold31(Codes(s), 0)
  }

  /** The character codes of a string. */
  function Codes(s: string): (r: seq<int>)
    ensures |r| == |s|
  {
    seq(|s|, i requires 0 <= i < |s| => s[i] as int)
  }

  /** Bitwise exclusive-or of two non-negative integers, one binary digit at a time. */
  function Xor(a: nat, b: nat): nat
    decreases a + b
  {
    if a == 0 && b == 0 then 0 else 2 * Xor(a / 2, b / 2) + (a % 2 + b % 2) % 2
  }

  /** Zero is the identity of exclusive-or. */
  lemma {:induction false} XorZero(b: nat)
    ensures Xor(0, b) == b
    decreases b
  {
    if b != 0 {
      XorZero(b / 2);
    }
  }

  /**
   `Long.hashCode(v)`: `(int)(v ^ (v >>> 32))`. The narrowing keeps the low
   32 bits, which are the two 32-bit halves of `v` exclusive-or'ed.
   */
  function LongHash(v: Int64): (r: Int32)
    ensures 0 <= v < 0x8000_0000 ==> r == v
  {
    var bits := v % TWO_64;
    var high, low := bits / TWO_32, bits % TWO_32;
    XorZero(low);
    ToInt(Xor(high, low))
  }

  /** The magnitude of a `BigInteger` as Java stores it: 32-bit words, most significant first. */
  function Words(m: nat): (ws: seq<int>)
    ensures forall i :: 0 <= i < |ws| ==> 0 <= ws[i] < TWO_32
    ensures 0 < m < TWO_32 ==> ws == [m]
  {
    if m == 0 then [] else Words(m / TWO_32) + [m % TWO_32]
  }

  /**
   `BigInteger.hashCode`: the 31-fold over the magnitude words, times the
   sign. Values that fit in an `int` hash to themselves, as with `Integer`.
   */
  function BigIntegerHash(v: int): (r: Int32)
    ensures -0x8000_0000 < v < 0x8000_0000 ==> r == v
  {
    var magnitude := if v < 0 then -v else v;
    var sign := if v < 0 then -1 else if v == 0 then 0 else 1;
    assert 0 < magnitude < 0x8000_0000 ==> Fold31(Words(magnitude), 0) == Fold31([], magnitude) == magnitude;
    ToInt(sign * Fold31(Words(magnitude), 0))
  }

  /** `BigDecimal.hashCode`: `31 * unscaledValue().hashCode() + scale`, in `int` arithmetic. */
  function BigDecimalHash(d: BigDecimal): (r: Int32)
    ensures -0x8000_0000 < d.unscaled < 0x8000_0000 ==> r == ToInt(31 * d.unscaled + d.scale)
  {
    ToInt(31 * BigIntegerHash(d.unscaled) + d.scale)
  }

  /**
   `Objects.hash(e0, ..., en)`, that is `Arrays.hashCode`: the 31-fold over the
   elements' hash codes starting from 1, where `null` hashes to 0.
   */
  function ObjectsHash(hs: seq<int>): (r: Int32)
    ensures r == ToInt(Poly31(hs, 1))
  {
    Fold31IsPoly31(hs, 1);
    Fold31(hs, 1)
  }
}
