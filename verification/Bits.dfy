/** Big-endian bit strings, and cutting them into groups of n bits. */
module BitStrings {
  function Pow2(n: nat): (p: nat)
    ensures p > 0
  {
    if n == 0 then 1 else 2 * Pow2(n - 1)
  }

  function Val(s: seq<bool>): nat {
    if s == [] then 0 else 2 * Val(s[..|s| - 1]) + if s[|s| - 1] then 1 else 0
  }

  function Bits(v: nat, n: nat): (s: seq<bool>)
    ensures |s| == n
  {
    if n == 0 then [] else Bits(v / 2, n - 1) + [v % 2 == 1]
  }

  function Zeros(n: nat): seq<bool> { seq(n, _ => false) }

  /** The values of the full groups of n bits. */
  function Groups(bits: seq<bool>, n: nat): seq<nat>
    requires n > 0
    decreases |bits|
  {
    if |bits| < n then [] else [Val(bits[..n])] + Groups(bits[n..], n)
  }

  /** The bits after the last full group. */
  function Rest(bits: seq<bool>, n: nat): seq<bool>
    requires n > 0
    decreases |bits|
  {
    if |bits| < n then bits else Rest(bits[n..], n)
  }

  /** The values as one stream of n bits each. */
  function Stream(xs: seq<nat>, n: nat): seq<bool> {
    if xs == [] then [] else Bits(xs[0], n) + Stream(xs[1..], n)
  }

  ghost predicate Below(xs: seq<nat>, n: nat) { forall i :: 0 <= i < |xs| ==> xs[i] < Pow2(n) }

  lemma {:induction false} PowSum(a: nat, b: nat)
    ensures Pow2(a + b) == Pow2(a) * Pow2(b)
  {
    if a > 0 {
      PowSum(a - 1, b);
      assert 2 * (Pow2(a - 1) * Pow2(b)) == (2 * Pow2(a - 1)) * Pow2(b);
    }
  }

  lemma {:induction false} ValBits(v: nat, n: nat)
    requires v < Pow2(n)
    ensures Val(Bits(v, n)) == v
  {
    if n > 0 {
      ValBits(v / 2, n - 1);
      assert Bits(v, n)[..n - 1] == Bits(v / 2, n - 1);
    }
  }

  lemma {:induction false} BitsVal(s: seq<bool>)
    ensures Bits(Val(s), |s|) == s
  {
    if s != [] {
      BitsVal(s[..|s| - 1]);
      assert Val(s) / 2 == Val(s[..|s| - 1]);
    }
  }

  lemma {:induction false} ValBound(s: seq<bool>)
    ensures Val(s) < Pow2(|s|)
  {
    if s != [] {
      ValBound(s[..|s| - 1]);
    }
  }

  lemma {:induction false} ValConcat(a: seq<bool>, b: seq<bool>)
    ensures Val(a + b) == Val(a) * Pow2(|b|) + Val(b)
  {
    if b == [] {
      assert a + b == a;
    } else {
      var c := b[..|b| - 1];
      ValConcat(a, c);
      assert (a + b)[..|a + b| - 1] == a + c;
      assert Val(a) * Pow2(|b|) == 2 * (Val(a) * Pow2(|c|));
    }
  }

  lemma {:induction false} ValZeros(n: nat)
    ensures Val(Zeros(n)) == 0
  {
    if n > 0 {
      ValZeros(n - 1);
      assert Zeros(n)[..n - 1] == Zeros(n - 1);
    }
  }

  /** Only zeros have value zero. */
  lemma ZeroIsZeros(s: seq<bool>)
    ensures Val(s) == 0 <==> s == Zeros(|s|)
  {
    ValZeros(|s|);
    BitsVal(s);
    BitsVal(Zeros(|s|));
  }

  lemma {:induction false} StreamLength(xs: seq<nat>, n: nat)
    ensures |Stream(xs, n)| == n * |xs|
  {
    if xs != [] {
      StreamLength(xs[1..], n);
    }
  }

  lemma {:induction false} StreamConcat(a: seq<nat>, b: seq<nat>, n: nat)
    ensures Stream(a + b, n) == Stream(a, n) + Stream(b, n)
  {
    if a == [] {
      assert a + b == b;
    } else {
      StreamConcat(a[1..], b, n);
      assert (a + b)[1..] == a[1..] + b;
      assert Stream(a + b, n) == Bits(a[0], n) + (Stream(a[1..], n) + Stream(b, n));
    }
  }

  lemma StreamOne(x: nat, n: nat)
    ensures Stream([x], n) == Bits(x, n)
  {
    assert Stream([x][1..], n) == [];
  }

  lemma {:induction false} GroupsOfStream(xs: seq<nat>, tail: seq<bool>, n: nat)
    requires n > 0 && Below(xs, n) && |tail| < n
    ensures Groups(Stream(xs, n) + tail, n) == xs && Rest(Stream(xs, n) + tail, n) == tail
  {
    if xs == [] {
      assert Stream(xs, n) + tail == tail;
    } else {
      var all := Stream(xs, n) + tail;
      assert all == Bits(xs[0], n) + (Stream(xs[1..], n) + tail);
      ValBits(xs[0], n);
      assert all[..n] == Bits(xs[0], n) && all[n..] == Stream(xs[1..], n) + tail;
      GroupsOfStream(xs[1..], tail, n);
    }
  }

  lemma {:induction false} StreamOfGroups(bits: seq<bool>, n: nat)
    requires n > 0
    ensures bits == Stream(Groups(bits, n), n) + Rest(bits, n) && |Rest(bits, n)| < n && Below(Groups(bits, n), n)
    decreases |bits|
  {
    if |bits| >= n {
      StreamOfGroups(bits[n..], n);
      BitsVal(bits[..n]);
      ValBound(bits[..n]);
      assert Groups(bits, n)[1..] == Groups(bits[n..], n);
      assert bits == bits[..n] + bits[n..];
    }
  }

  /** A full group and what follows it. */
  lemma {:induction false} GroupsExtend(bits: seq<bool>, more: seq<bool>, n: nat)
    requires n > 0 && Rest(bits, n) == []
    requires |more| <= n
    ensures Groups(bits + more, n) == Groups(bits, n) + if |more| == n then [Val(more)] else []
    ensures Rest(bits + more, n) == if |more| == n then [] else more
    decreases |bits|
  {
    hide Val;
    if |bits| < n {
      assert bits + more == more;
      if |more| == n {
        assert more[..n] == more && more[n..] == [];
      }
    } else {
      GroupsExtend(bits[n..], more, n);
      assert (bits + more)[..n] == bits[..n] && (bits + more)[n..] == bits[n..] + more;
      assert Groups(bits + more, n) == [Val(bits[..n])] + Groups(bits[n..] + more, n);
      assert Groups(bits, n) == [Val(bits[..n])] + Groups(bits[n..], n);
    }
  }
}
