/** src/fml/base32.cc: bytes as letters of five bits, without padding. */
module Base32 {
  import opened BitStrings
  import opened BitConverters
  import opened Wrappers

  type Byte = b: nat | b < 256

  const ENCODING: string := "ABCDEFGHIJKLMNOPQRSTUVWXYZ234567"

  // starting from '2'; -1 for a character that is no letter of the code
  const DECODE_MAP: seq<int> := [
    26, 27, 28, 29, 30, 31, -1, -1, -1, -1, -1, -1, -1, -1,
    -1, 0, 1, 2, 3, 4, 5, 6, 7, 8, 9, 10, 11, 12,
    13, 14, 15, 16, 17, 18, 19, 20, 21, 22, 23, 24, 25]

  /** The digit of a character, or -1. */
  function DigitOf(c: char): (d: int)
    ensures -1 <= d < 32
  {
    var i := c as int - '2' as int;
    if i < 0 || i >= |DECODE_MAP| then -1 else DECODE_MAP[i]
  }

  lemma LetterIs(d: nat)
    requires d < 32
    ensures ENCODING[d] as int == if d < 26 then 'A' as int + d else '2' as int + d - 26
  {
  }

  lemma MapIs(i: nat)
    requires i < 41
    ensures DECODE_MAP[i] == if i < 6 then 26 + i else if i < 15 then -1 else i - 15
  {
  }

  lemma DigitIs(c: char)
    ensures DigitOf(c) == if '2' <= c <= '7' then 26 + (c as int - '2' as int) else if 'A' <= c <= 'Z' then c as int - 'A' as int else -1
  {
    var i := c as int - '2' as int;
    if 0 <= i < 41 { MapIs(i); }
  }

  /** The two tables undo each other. */
  lemma TablesAreInverse(d: nat, c: char)
    requires d < 32
    ensures DigitOf(ENCODING[d]) == d
    ensures DigitOf(c) == d ==> ENCODING[d] == c
  {
    hide DigitOf;
    LetterIs(d);
    DigitIs(ENCODING[d]);
    DigitIs(c);
  }

  // ----- What the two functions compute

  /** Letters it takes for n bytes, and the zero bits that fill the last of them. */
  function LetterCount(n: nat): nat { (n * 8 + 4) / 5 }

  function Pad(n: nat): (p: nat)
    ensures p < 5 && n * 8 + p == 5 * LetterCount(n)
  {
    5 * LetterCount(n) - n * 8
  }

  ghost predicate IsDigits(ds: seq<nat>) { forall i :: 0 <= i < |ds| ==> ds[i] < 32 }

  lemma Powers()
    ensures Pow2(5) == 32 && Pow2(8) == 256
  {
    assert Pow2(4) == 16;
  }

  /** The bit stream of the bytes, filled up with zeros, five bits at a time. */
  function Digits(x: seq<Byte>): (ds: seq<nat>)
    ensures IsDigits(ds)
  {
    StreamOfGroups(Stream(x, 8) + Zeros(Pad(|x|)), 5);
    Powers();
    hide *;
    Groups(Stream(x, 8) + Zeros(Pad(|x|)), 5)
  }

  ghost function Letters(ds: seq<nat>): string
    requires IsDigits(ds)
  {
    seq(|ds|, i requires 0 <= i < |ds| => ENCODING[ds[i]])
  }

  ghost function Encoded(x: seq<Byte>): string { Letters(Digits(x)) }

  /** Position of the first character that is no letter of the code, or the length. */
  function FirstBad(s: string): (k: nat)
    ensures k <= |s| && (forall i :: 0 <= i < k ==> DigitOf(s[i]) >= 0) && (k < |s| ==> DigitOf(s[k]) < 0)
  {
    FirstBadFrom(s, 0)
  }

  function FirstBadFrom(s: string, k: nat): (r: nat)
    requires k <= |s| && forall i :: 0 <= i < k ==> DigitOf(s[i]) >= 0
    ensures r <= |s| && (forall i :: 0 <= i < r ==> DigitOf(s[i]) >= 0) && (r < |s| ==> DigitOf(s[r]) < 0)
    decreases |s| - k
  {
    hide DigitOf;
    if k == |s| || DigitOf(s[k]) < 0 then k else FirstBadFrom(s, k + 1)
  }

  function DigitsOf(s: string): (ds: seq<nat>)
    requires forall i :: 0 <= i < |s| ==> DigitOf(s[i]) >= 0
    ensures IsDigits(ds) && |ds| == |s|
  {
    hide DigitOf;
    seq(|s|, i requires 0 <= i < |s| => DigitOf(s[i]))
  }

  /** The bytes of the letters before the first bad character; accepted if there is none and the
      bits that make no byte are zero. */
  ghost function Decoded(s: string): (bool, seq<nat>) {
    hide DigitOf;
    var bits := Stream(DigitsOf(s[..FirstBad(s)]), 5);
    (FirstBad(s) == |s| && Val(Rest(bits, 8)) == 0, Groups(bits, 8))
  }

  // ----- What an encoding is, as a number

  /** The number whose digits to the base these are, the most significant first. */
  function Number(digits: seq<nat>, base: nat): nat {
    if digits == [] then 0 else Number(digits[..|digits| - 1], base) * base + digits[|digits| - 1]
  }

  lemma StreamNext(xs: seq<nat>, k: nat, n: nat)
    requires k < |xs|
    ensures Stream(xs[..k + 1], n) == Stream(xs[..k], n) + Bits(xs[k], n)
  {
    hide Stream;
    assert xs[..k + 1] == xs[..k] + [xs[k]];
    StreamConcat(xs[..k], [xs[k]], n);
    StreamOne(xs[k], n);
  }

  lemma {:induction false} NumberOfStream(xs: seq<nat>, n: nat)
    requires Below(xs, n)
    ensures Val(Stream(xs, n)) == Number(xs, Pow2(n))
  {
    if xs != [] {
      var k := |xs| - 1;
      hide Stream, Val, Pow2, Bits;
      NumberOfStream(xs[..k], n);
      assert xs[..k + 1] == xs;
      StreamNext(xs, k, n);
      ValConcat(Stream(xs[..k], n), Bits(xs[k], n));
      ValBits(xs[k], n);
    } else {
      assert Stream(xs, n) == [];
    }
  }

  /** The letters are the digits to the base 32 of the number whose digits to the base 256 are the bytes,
      shifted by the padding. */
  lemma EncodingIsBase32(x: seq<Byte>)
    ensures FirstBad(Encoded(x)) == |Encoded(x)| && 0 <= 5 * |Encoded(x)| - 8 * |x| < 5
    ensures Number(DigitsOf(Encoded(x)), 32) == Number(x, 256) * Pow2(5 * |Encoded(x)| - 8 * |x|)
  {
    hide Stream, Val, Pow2, Letters, Digits, Number, Zeros, DigitsOf, FirstBad, LetterCount;
    Powers();
    DigitStream(x);
    EncodedLength(x);
    LettersOfDigits(Digits(x));
    ValConcat(Stream(x, 8), Zeros(Pad(|x|)));
    ZerosLength(Pad(|x|));
    ValZeros(Pad(|x|));
    NumberOfStream(x, 8);
    NumberOfStream(Digits(x), 5);
  }

  // ----- The round trips

  lemma {:induction false} WholeGroups(bits: seq<bool>, n: nat, q: nat)
    requires n > 0 && |bits| == q * n
    ensures Rest(bits, n) == []
    decreases q
  {
    if q > 0 {
      Distribute(q - 1, 1, n);
      MultipleIsFar(q, n);
      WholeGroups(bits[n..], n, q - 1);
    }
  }

  lemma LettersOfDigits(ds: seq<nat>)
    requires IsDigits(ds)
    ensures FirstBad(Letters(ds)) == |ds| && DigitsOf(Letters(ds)) == ds
  {
    hide DigitOf;
    forall i | 0 <= i < |ds| ensures DigitOf(Letters(ds)[i]) == ds[i] {
      TablesAreInverse(ds[i], 'A');
    }
  }

  lemma DigitsOfLetters(s: string)
    requires FirstBad(s) == |s|
    ensures Letters(DigitsOf(s)) == s
  {
    hide DigitOf;
    forall i | 0 <= i < |s| ensures Letters(DigitsOf(s))[i] == s[i] {
      TablesAreInverse(DigitsOf(s)[i], s[i]);
    }
  }

  lemma DigitStream(x: seq<Byte>)
    ensures Stream(Digits(x), 5) == Stream(x, 8) + Zeros(Pad(|x|))
    ensures |Digits(x)| == LetterCount(|x|)
  {
    hide Stream, Groups, Rest, Zeros, Val, Pow2, LetterCount;
    var bits := Stream(x, 8) + Zeros(Pad(|x|));
    StreamLength(x, 8);
    ZerosLength(Pad(|x|));
    WholeGroups(bits, 5, LetterCount(|x|));
    StreamOfGroups(bits, 5);
    StreamLength(Digits(x), 5);
    assert Stream(Digits(x), 5) + [] == Stream(Digits(x), 5);
  }

  lemma EncodedLength(x: seq<Byte>)
    ensures |Encoded(x)| == LetterCount(|x|)
  {
    DigitStream(x);
  }

  /** Digits whose bits are the bytes' bits and fewer than eight zeros. */
  lemma DecodedDigits(ds: seq<nat>, x: seq<Byte>, r: nat)
    requires IsDigits(ds) && r < 8 && Stream(ds, 5) == Stream(x, 8) + Zeros(r)
    ensures Decoded(Letters(ds)) == (true, x)
  {
    hide Stream, Groups, Rest, Letters, Val, Zeros, DigitsOf, FirstBad, Digits, Pow2;
    Powers();
    LettersOfDigits(ds);
    LettersLength(ds);
    assert Letters(ds)[..|ds|] == Letters(ds);
    ZerosLength(r);
    GroupsOfStream(x, Zeros(r), 8);
    ValZeros(r);
  }

  lemma LettersLength(ds: seq<nat>)
    requires IsDigits(ds)
    ensures |Letters(ds)| == |ds|
  {
  }

  lemma ZerosLength(n: nat)
    ensures |Zeros(n)| == n
  {
  }

  /** What is encoded can be decoded. */
  lemma DecodeAfterEncode(x: seq<Byte>)
    ensures Decoded(Encoded(x)) == (true, x)
  {
    hide Decoded, Letters, Digits, Stream;
    DigitStream(x);
    DecodedDigits(Digits(x), x, Pad(|x|));
  }

  lemma GiveLetter(digits: seq<nat>, d: nat)
    requires IsDigits(digits) && d < 32
    ensures Letters(digits + [d]) == Letters(digits) + [ENCODING[d]]
  {
  }

  lemma ZeroDigit(ds: seq<nat>)
    requires IsDigits(ds)
    ensures IsDigits(ds + [0]) && Letters(ds + [0]) == Letters(ds) + "A"
    ensures Stream(ds + [0], 5) == Stream(ds, 5) + Zeros(5)
  {
    hide Letters, Stream, Bits, Zeros;
    GiveLetter(ds, 0);
    StreamConcat(ds, [0], 5);
    StreamOne(0, 5);
    BitsVal(Zeros(5));
    ValZeros(5);
    ZerosLength(5);
    assert ENCODING[0] == 'A';
  }

  lemma ZerosSum(a: nat, b: nat)
    ensures Zeros(a) + Zeros(b) == Zeros(a + b)
  {
  }

  lemma MoreZeros(ds: seq<nat>, b: seq<bool>, p: nat)
    requires IsDigits(ds) && Stream(ds, 5) == b + Zeros(p)
    ensures Stream(ds + [0], 5) == b + Zeros(p + 5)
  {
    hide Letters, Stream, Zeros;
    ZeroDigit(ds);
    ZerosSum(p, 5);
    assert (b + Zeros(p)) + Zeros(5) == b + (Zeros(p) + Zeros(5));
  }

  /** One letter too many, but a zero. */
  lemma ExtraZero(x: seq<Byte>)
    ensures IsDigits(Digits(x) + [0]) && Letters(Digits(x) + [0]) == Encoded(x) + "A"
    ensures Stream(Digits(x) + [0], 5) == Stream(x, 8) + Zeros(Pad(|x|) + 5)
  {
    hide Digits, Pad, Letters, Stream, Zeros, LetterCount;
    DigitStream(x);
    ZeroDigit(Digits(x));
    MoreZeros(Digits(x), Stream(x, 8), Pad(|x|));
  }

  /** The digits of an accepted string, from the bytes it stands for. */
  lemma AcceptedDigits(s: string, x: seq<Byte>)
    requires Decoded(s) == (true, x)
    ensures FirstBad(s) == |s|
    ensures var ds := DigitsOf(s);
      && 0 <= 5 * |s| - 8 * |x| < 8
      && Stream(ds, 5) == Stream(x, 8) + Zeros(5 * |s| - 8 * |x|)
  {
    hide Stream, Groups, Rest, Zeros, Val, Pow2, Letters, FirstBad, DigitOf;
    assert s[..|s|] == s;
    var bits := Stream(DigitsOf(s), 5);
    StreamOfGroups(bits, 8);
    ZeroIsZeros(Rest(bits, 8));
    StreamLength(DigitsOf(s), 5);
    StreamLength(x, 8);
  }

  lemma SameStream(a: seq<nat>, b: seq<nat>)
    requires IsDigits(a) && IsDigits(b) && Stream(a, 5) == Stream(b, 5)
    ensures a == b
  {
    hide Stream, Groups;
    Powers();
    GroupsOfStream(a, [], 5);
    GroupsOfStream(b, [], 5);
  }

  /** What Decode accepts, exactly: the encodings, and the encodings with one more 'A' where that
      leaves no more than seven zero bits. */
  lemma DecodeAccepts(s: string, x: seq<Byte>)
    ensures Decoded(s) == (true, x) <==>
      s == Encoded(x) || (s == Encoded(x) + "A" && 5 * |s| < 8 * |x| + 8)
  {
    hide Decoded, Stream, Letters, Digits, DigitOf, FirstBad, DigitsOf, Zeros, LetterCount;
    DecodeAfterEncode(x);
    DigitStream(x);
    EncodedLength(x);
    ExtraZero(x);
    if s == Encoded(x) + "A" && 5 * |s| < 8 * |x| + 8 {
      DecodedDigits(Digits(x) + [0], x, Pad(|x|) + 5);
    }
    if Decoded(s) == (true, x) {
      AcceptedDigits(s, x);
      DigitsOfLetters(s);
      var r := 5 * |s| - 8 * |x|;
      if r == Pad(|x|) {
        SameStream(DigitsOf(s), Digits(x));
      } else {
        assert r == Pad(|x|) + 5;
        SameStream(DigitsOf(s), Digits(x) + [0]);
      }
    }
  }

  /** An accepted string of the right length is the encoding of what it decodes to. */
  lemma EncodeAfterDecode(s: string, x: seq<Byte>)
    requires Decoded(s) == (true, x) && |s| == LetterCount(|x|)
    ensures Encoded(x) == s
  {
    hide Decoded, Encoded, LetterCount;
    DecodeAccepts(s, x);
    EncodedLength(x);
  }

  /** A bad character rejects the string, and what came back is what the letters before it spell. */
  lemma RejectedAtBadLetter(x: seq<Byte>, bad: char, rest: string)
    requires DigitOf(bad) < 0
    ensures Decoded(Encoded(x) + [bad] + rest) == (false, x)
  {
    hide Stream, Groups, Rest, Zeros, Val, Pow2, Letters, DigitOf, Digits, LetterCount;
    var s := Encoded(x) + [bad] + rest;
    var k := |Encoded(x)|;
    DigitStream(x);
    LettersOfDigits(Digits(x));
    assert forall i :: 0 <= i < k ==> s[i] == Encoded(x)[i];
    assert FirstBad(s) == k && s[..k] == Encoded(x);
    ZerosLength(Pad(|x|));
    Powers();
    GroupsOfStream(x, Zeros(Pad(|x|)), 8);
  }

  // ----- The loops

  lemma TakeGroup(done: seq<bool>, held: seq<bool>, n: nat)
    requires 0 < n <= |held| && Rest(done, n) == []
    ensures Groups(done + held[..n], n) == Groups(done, n) + [Val(held[..n])] && Rest(done + held[..n], n) == []
    ensures done + held == done + held[..n] + held[n..]
    ensures Val(held[..n]) < Pow2(n)
  {
    hide Groups, Rest, Val;
    GroupsExtend(done, held[..n], n);
    ValBound(held[..n]);
    assert held == held[..n] + held[n..];
  }

  lemma FilledUp(bytes: nat, letters: nat, left: nat)
    requires 5 * letters + left == 8 * bytes && left < 5
    ensures Pad(bytes) == if left == 0 then 0 else 5 - left
  {
  }

  lemma PaddedIs(held: seq<bool>, n: nat)
    requires |held| <= n
    ensures Padded(held, n) == held + Zeros(n - |held|)
  {
  }

  /** What the loop leaves in the register makes the last letter. */
  lemma LastLetter(input: seq<Byte>, done: seq<bool>, tail: seq<bool>)
    requires done + tail == Stream(input, 8) && Rest(done, 5) == [] && |tail| < 5
    requires IsDigits(Groups(done, 5))
    ensures Val(Padded(tail, 5)) < 32
    ensures Encoded(input) == Letters(Groups(done, 5)) + if tail == [] then "" else [ENCODING[Val(Padded(tail, 5))]]
  {
    hide Groups, Rest, Stream, Val, Pow2, Letters;
    Powers();
    ValBound(Padded(tail, 5));
    StreamOfGroups(done, 5);
    StreamLength(Groups(done, 5), 5);
    StreamLength(input, 8);
    FilledUp(|input|, |Groups(done, 5)|, |tail|);
    var pad := Zeros(Pad(|input|));
    ZerosLength(Pad(|input|));
    hide Pad;
    if tail == [] {
      assert Stream(input, 8) + pad == done;
    } else {
      PaddedIs(tail, 5);
      assert Stream(input, 8) + pad == done + (tail + pad);
      GroupsExtend(done, Padded(tail, 5), 5);
      GiveLetter(Groups(done, 5), Val(Padded(tail, 5)));
    }
  }

  method Encode(input: seq<Byte>) returns (ok: bool, output: string)
    ensures ok && output == Encoded(input)
  {
    hide Groups, Rest, Stream, Val, Pow2, Letters, Bits, Encoded;
    if input == [] {
      EncodedLength([]);
      return true, "";
    }
    Powers();
    output := "";
    ghost var done: seq<bool> := [];  // the bits given out
    var converter := new BitConverter(8, 5, 16);
    StartOfLoop(input);
    converter.Append(input[0]);
    var next := 1;
    while converter.CanExtract()
      invariant fresh(converter) && converter.Valid()
      invariant converter.fromLength == 8 && converter.toLength == 5 && converter.bufferLength == 16
      invariant 1 <= next <= |input| && (next < |input| ==> converter.CanExtract())
      invariant done + converter.held == Stream(input[..next], 8) && Rest(done, 5) == []
      invariant IsDigits(Groups(done, 5)) && output == Letters(Groups(done, 5))
      decreases |input| - next, |converter.held|
    {
      TakeGroup(done, converter.held, 5);
      GiveLetter(Groups(done, 5), Val(converter.held[..5]));
      done := done + converter.held[..5];
      var digit := converter.Extract();
      output := output + [ENCODING[digit]];
      if converter.CanAppend() && next < |input| {
        StreamNext(input, next, 8);
        converter.Append(input[next]);
        next := next + 1;
      }
    }
    assert input[..next] == input;
    LastLetter(input, done, converter.held);
    if converter.BitsAvailable() > 0 {
      var digit := converter.Peek();
      output := output + [ENCODING[digit]];
    }
    ok := true;
  }

  lemma StartOfLoop(input: seq<Byte>)
    requires input != []
    ensures Stream(input[..1], 8) == Bits(input[0], 8)
    ensures Groups([], 5) == [] && Rest([], 5) == [] && Letters([]) == ""
  {
    StreamOne(input[0], 8);
    assert input[..1] == [input[0]];
  }

  /** The bits of the first k letters, all good. */
  ghost function BitsBefore(s: string, k: nat): seq<bool>
    requires k <= |s| && forall i :: 0 <= i < k ==> DigitOf(s[i]) >= 0
  {
    Stream(DigitsOf(s[..k]), 5)
  }

  lemma NextLetter(s: string, k: nat)
    requires k < |s| && forall i :: 0 <= i <= k ==> DigitOf(s[i]) >= 0
    ensures BitsBefore(s, k + 1) == BitsBefore(s, k) + Bits(DigitOf(s[k]), 5)
  {
    hide Stream, DigitOf;
    StreamNext(DigitsOf(s[..k + 1]), k, 5);
    assert DigitsOf(s[..k + 1])[..k] == DigitsOf(s[..k]);
    assert DigitsOf(s[..k + 1])[..k + 1] == DigitsOf(s[..k + 1]);
  }

  /** Stopping at position k, with `held` still in the register. */
  lemma StopDecoding(s: string, k: nat, done: seq<bool>, held: seq<bool>)
    requires k <= |s| && (forall i :: 0 <= i < k ==> DigitOf(s[i]) >= 0) && (k < |s| ==> DigitOf(s[k]) < 0)
    requires done + held == BitsBefore(s, k) && Rest(done, 8) == [] && |held| < 8
    ensures Decoded(s) == (k == |s| && Val(Padded(held, 8)) == 0, Groups(done, 8))
  {
    hide Stream, DigitOf, DigitsOf, Groups, Rest, Val, Bits, FirstBad;
    assert FirstBad(s) == k;
    GroupsExtend(done, held, 8);
    assert Groups(done, 8) + [] == Groups(done, 8);
    var pad := Zeros(8 - |held|);
    assert Padded(held, 8) == held + pad;
    ZeroIsZeros(held);
    ZeroIsZeros(Padded(held, 8));
    if held == Zeros(|held|) {
      assert Padded(held, 8) == Zeros(8);
    }
    if Padded(held, 8) == Zeros(8) {
      assert held == Padded(held, 8)[..|held|];
      assert held == Zeros(|held|);
    }
  }

  method Decode(input: string) returns (ok: bool, result: seq<Byte>)
    ensures (ok, result) == Decoded(input)
  {
    hide Groups, Rest, Stream, Val, Pow2, Bits, Decoded, DigitsOf;
    Powers();
    result := [];
    ghost var done: seq<bool> := [];
    var converter := new BitConverter(5, 8, 16);
    NothingDecoded(input);
    for k := 0 to |input|
      invariant fresh(converter) && converter.Valid()
      invariant converter.fromLength == 5 && converter.toLength == 8 && converter.bufferLength == 16
      invariant forall i :: 0 <= i < k ==> DigitOf(input[i]) >= 0
      invariant done + converter.held == BitsBefore(input, k) && Rest(done, 8) == [] && |converter.held| < 8
      invariant result == Groups(done, 8)
    {
      var index := input[k] as int - '2' as int;
      if index < 0 || index >= |DECODE_MAP| || DECODE_MAP[index] == -1 {
        StopDecoding(input, k, done, converter.held);
        return false, result;
      }
      NextLetter(input, k);
      converter.Append(DECODE_MAP[index]);
      if converter.CanExtract() {
        TakeGroup(done, converter.held, 8);
        done := done + converter.held[..8];
        var byte := converter.Extract();
        result := result + [byte];
      }
    }
    StopDecoding(input, |input|, done, converter.held);
    var left := converter.Peek();
    ok := left == 0;
  }

  lemma NothingDecoded(s: string)
    ensures BitsBefore(s, 0) == [] && Groups([], 8) == [] && Rest([], 8) == []
  {
  }
}
