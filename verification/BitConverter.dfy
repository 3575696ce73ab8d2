/** src/fml/base32.h: a small shift register that takes bits in groups of one length and gives
    them out in groups of another. */
module BitConverters {
  import opened BitStrings

  // ----- Bitwise operators on naturals

  function Or(a: nat, b: nat): nat
    decreases a + b
  {
    if a == 0 && b == 0 then 0 else 2 * Or(a / 2, b / 2) + if a % 2 == 1 || b % 2 == 1 then 1 else 0
  }

  function And(a: nat, b: nat): nat
    decreases a + b
  {
    if a == 0 && b == 0 then 0 else 2 * And(a / 2, b / 2) + if a % 2 == 1 && b % 2 == 1 then 1 else 0
  }

  lemma {:induction false} OrZero(a: nat)
    ensures Or(a, 0) == a
  {
    if a > 0 {
      OrZero(a / 2);
    }
  }

  lemma {:induction false} AndZero(a: nat)
    ensures And(a, 0) == 0
  {
    if a > 0 {
      AndZero(a / 2);
    }
  }

  lemma OrDouble(half: nat, b: nat)
    requires Or(half, b / 2) == half + b / 2
    ensures Or(2 * half, b) == 2 * half + b
  {
  }

  lemma TwiceAsMuch(a: nat, p: nat)
    ensures a * (2 * p) == 2 * (a * p)
  {
  }

  /** Where the bits do not meet, or is addition. */
  lemma {:induction false} OrDisjoint(a: nat, b: nat, k: nat)
    requires b < Pow2(k)
    ensures Or(a * Pow2(k), b) == a * Pow2(k) + b
  {
    if k == 0 {
      OrZero(a);
    } else {
      OrDisjoint(a, b / 2, k - 1);
      OrDouble(a * Pow2(k - 1), b);
      TwiceAsMuch(a, Pow2(k - 1));
    }
  }

  /** Masking with the low k ones is the remainder by 2^k. */
  lemma {:induction false} AndMask(a: nat, k: nat)
    ensures And(a, Pow2(k) - 1) == a % Pow2(k)
    decreases k
  {
    if k == 0 {
      AndZero(a);
    } else {
      AndMask(a / 2, k - 1);
      HalfRemainder(a, Pow2(k - 1));
    }
  }

  lemma HalfRemainder(a: nat, p: nat)
    requires p > 0
    ensures a % (2 * p) == 2 * ((a / 2) % p) + a % 2
  {
    var q, r := (a / 2) / p, (a / 2) % p;
    assert a / 2 == q * p + r;
    assert a == q * (2 * p) + (2 * r + a % 2);
    Quotient(q, 2 * p, 2 * r + a % 2);
  }

  lemma MultipleIsFar(x: int, d: int)
    requires d > 0
    ensures x > 0 ==> x * d >= d
    ensures x < 0 ==> x * d <= -d
  {
    if x > 0 {
      assert (x - 1) * d >= 0;
    } else if x < 0 {
      assert (-x - 1) * d >= 0;
    }
  }

  lemma Quotient(q: nat, d: nat, r: nat)
    requires r < d
    ensures (q * d + r) / d == q && (q * d + r) % d == r
  {
    var n := q * d + r;
    var k, m := n / d, n % d;
    Divided(n, d);
    Distribute(q - k, k, d);
    MultipleIsFar(q - k, d);
  }

  lemma Divided(n: nat, d: nat)
    requires d > 0
    ensures n == (n / d) * d + n % d && 0 <= n % d < d
  {
  }

  lemma Distribute(a: int, b: int, p: nat)
    ensures (a + b) * p == a * p + b * p
  {
  }

  lemma Shrinks(v: nat, w: nat, p: nat)
    requires v < w && p > 0
    ensures v * p < w * p
  {
    Distribute(w - v, v, p);
    assert (w - v - 1) * p >= 0;
    Distribute(w - v - 1, 1, p);
  }

  // ----- What the register holds

  /** The held bits followed by zeros, cut to n bits. */
  function Padded(held: seq<bool>, n: nat): (s: seq<bool>)
    ensures |s| == n
  {
    (held + Zeros(n))[..n]
  }

  lemma Scale(v: nat, a: nat, b: nat)
    ensures v * Pow2(a + b) == (v * Pow2(a)) * Pow2(b)
  {
    PowSum(a, b);
    assert v * (Pow2(a) * Pow2(b)) == (v * Pow2(a)) * Pow2(b);
  }

  lemma ScaleBelow(v: nat, a: nat, b: nat)
    requires v < Pow2(a)
    ensures v * Pow2(b) < Pow2(a + b)
  {
    hide Pow2;
    PowSum(a, b);
    Shrinks(v, Pow2(a), Pow2(b));
  }

  /** The register as its first n bits and the rest. */
  lemma Split(held: seq<bool>, free: nat, n: nat)
    requires n <= |held|
    ensures Val(held) * Pow2(free)
      == Val(held[..n]) * Pow2(|held| - n + free) + Val(held[n..]) * Pow2(free)
    ensures Val(held[n..]) * Pow2(free) < Pow2(|held| - n + free)
  {
    hide Val, Pow2, Bits;
    var a, b := held[..n], held[n..];
    assert held == a + b;
    ValConcat(a, b);
    Scale(Val(a), |b|, free);
    ValBound(b);
    ScaleBelow(Val(b), |b|, free);
    Distribute(Val(a) * Pow2(|b|), Val(b), Pow2(free));
  }

  lemma PeekIs(held: seq<bool>, free: nat, n: nat)
    requires n <= |held| + free
    ensures Val(held) * Pow2(free) / Pow2(|held| + free - n) == Val(Padded(held, n))
  {
    hide Val, Pow2, Bits;
    if n <= |held| {
      Split(held, free, n);
      assert Padded(held, n) == held[..n];
      Quotient(Val(held[..n]), Pow2(|held| - n + free), Val(held[n..]) * Pow2(free));
    } else {
      var pad := n - |held|;
      assert Padded(held, n) == held + Zeros(pad);
      ValConcat(held, Zeros(pad));
      ValZeros(pad);
      Scale(Val(held), pad, free - pad);
      Quotient(Val(held) * Pow2(pad), Pow2(free - pad), 0);
    }
  }

  lemma ExtractIs(held: seq<bool>, free: nat, n: nat)
    requires n <= |held|
    ensures And(Val(held) * Pow2(free) * Pow2(n), Pow2(|held| + free) - 1) == Val(held[n..]) * Pow2(free + n)
  {
    hide Val, Pow2, Bits;
    Scale(Val(held), free, n);
    AndMask(Val(held) * Pow2(free) * Pow2(n), |held| + free);
    Split(held, free + n, n);
    Quotient(Val(held[..n]), Pow2(|held| + free), Val(held[n..]) * Pow2(free + n));
  }

  lemma AppendIs(held: seq<bool>, free: nat, bits: nat, n: nat)
    requires n <= free && bits < Pow2(n)
    ensures Or(Val(held) * Pow2(free), bits * Pow2(free - n)) == Val(held + Bits(bits, n)) * Pow2(free - n)
  {
    hide Val, Pow2, Bits;
    ScaleBelow(bits, n, free - n);
    OrDisjoint(Val(held), bits * Pow2(free - n), free);
    ValConcat(held, Bits(bits, n));
    ValBits(bits, n);
    Scale(Val(held), n, free - n);
    Distribute(Val(held) * Pow2(n), bits, Pow2(free - n));
  }

  class BitConverter {
    const fromLength: nat
    const toLength: nat
    const bufferLength: nat
    var buffer: nat
    var lowerFreeBits: nat
    ghost var held: seq<bool>  // the bits taken and not yet given out, oldest first

    ghost predicate Valid()
      reads this
    {
      && 0 < fromLength && 2 * fromLength <= bufferLength
      && 0 < toLength && 2 * toLength <= bufferLength
      && |held| + lowerFreeBits == bufferLength
      && buffer == Val(held) * Pow2(lowerFreeBits)
    }

    constructor (from: nat, to: nat, size: nat)
      requires 0 < from && 2 * from <= size && 0 < to && 2 * to <= size
      ensures Valid() && held == [] && fromLength == from && toLength == to && bufferLength == size
    {
      fromLength, toLength, bufferLength := from, to, size;
      buffer, lowerFreeBits, held := 0, size, [];
    }

    function BitsAvailable(): (n: int)
      requires Valid()
      reads this
      ensures n == |held|
    {
      bufferLength - lowerFreeBits
    }

    predicate CanAppend()
      requires Valid()
      reads this
    {
      lowerFreeBits >= fromLength
    }

    predicate CanExtract()
      requires Valid()
      reads this
    {
      BitsAvailable() >= toLength
    }

    method Append(bits: nat)
      requires Valid() && bits < Pow2(fromLength) && CanAppend()
      modifies this
      ensures Valid() && held == old(held) + Bits(bits, fromLength)
    {
      AppendIs(held, lowerFreeBits, bits, fromLength);
      lowerFreeBits := lowerFreeBits - fromLength;
      buffer := Or(buffer, bits * Pow2(lowerFreeBits));
      held := held + Bits(bits, fromLength);
    }

    method Extract() returns (result: nat)
      requires Valid() && CanExtract()
      modifies this
      ensures Valid() && held == old(held)[toLength..]
      ensures result == Val(old(held)[..toLength])
    {
      ExtractIs(held, lowerFreeBits, toLength);
      assert Padded(held, toLength) == held[..toLength];
      result := Peek();
      buffer := And(buffer * Pow2(toLength), Pow2(bufferLength) - 1);
      lowerFreeBits := lowerFreeBits + toLength;
      held := held[toLength..];
    }

    /** The next group, with zeros for the bits that are not there. */
    method Peek() returns (result: nat)
      requires Valid()
      ensures result == Val(Padded(held, toLength))
    {
      PeekIs(held, lowerFreeBits, toLength);
      result := buffer / Pow2(bufferLength - toLength);
    }
  }
}
