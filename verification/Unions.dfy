/** Sums and multiset unions over a finite set of queue ids. */
module Unions {

  ghost function Union<T>(s: set<nat>, f: map<nat, multiset<T>>): multiset<T>
    requires s <= f.Keys
    decreases |s|
  {
    if s == {} then multiset{} else
      var x :| x in s;
      f[x] + Union(s - {x}, f)
  }

  ghost function Sum(s: set<nat>, f: map<nat, nat>): nat
    requires s <= f.Keys
    decreases |s|
  {
    if s == {} then 0 else
      var x :| x in s;
      f[x] + Sum(s - {x}, f)
  }

  lemma {:induction false} UnionRemove<T>(s: set<nat>, f: map<nat, multiset<T>>, x: nat)
    requires s <= f.Keys && x in s
    ensures Union(s, f) == f[x] + Union(s - {x}, f)
    decreases |s|
  {
    var y :| y in s && Union(s, f) == f[y] + Union(s - {y}, f);
    if y != x {
      UnionRemove(s - {y}, f, x);
      UnionRemove(s - {x}, f, y);
      assert s - {y} - {x} == s - {x} - {y};
    }
  }

  lemma {:induction false} SumRemove(s: set<nat>, f: map<nat, nat>, x: nat)
    requires s <= f.Keys && x in s
    ensures Sum(s, f) == f[x] + Sum(s - {x}, f)
    decreases |s|
  {
    var y :| y in s && Sum(s, f) == f[y] + Sum(s - {y}, f);
    if y != x {
      SumRemove(s - {y}, f, x);
      SumRemove(s - {x}, f, y);
      assert s - {y} - {x} == s - {x} - {y};
    }
  }

  lemma {:induction false} UnionSame<T>(s: set<nat>, f: map<nat, multiset<T>>, g: map<nat, multiset<T>>)
    requires s <= f.Keys && s <= g.Keys && forall x :: x in s ==> f[x] == g[x]
    ensures Union(s, f) == Union(s, g)
    decreases |s|
  {
    if s != {} {
      var x :| x in s;
      UnionRemove(s, f, x);
      UnionRemove(s, g, x);
      UnionSame(s - {x}, f, g);
    }
  }

  /** Changing the value at one key changes the union by just that value. */
  lemma UnionUpdate<T>(s: set<nat>, f: map<nat, multiset<T>>, g: map<nat, multiset<T>>, x: nat)
    requires s <= f.Keys && s <= g.Keys && x in s
    requires forall y :: y in s && y != x ==> f[y] == g[y]
    ensures Union(s, f) == f[x] + Union(s - {x}, f)
    ensures Union(s, g) == g[x] + Union(s - {x}, f)
  {
    UnionRemove(s, f, x);
    UnionRemove(s, g, x);
    UnionSame(s - {x}, f, g);
  }

  lemma {:induction false} UnionMember<T>(s: set<nat>, f: map<nat, multiset<T>>, t: T)
    requires s <= f.Keys
    ensures t in Union(s, f) <==> exists x :: x in s && t in f[x]
    decreases |s|
  {
    if s != {} {
      var x :| x in s;
      UnionRemove(s, f, x);
      UnionMember(s - {x}, f, t);
      if y :| y in s && t in f[y] {
        assert y == x || y in s - {x};
      }
    }
  }

  lemma {:induction false} UnionDisjoint<T>(a: set<nat>, b: set<nat>, f: map<nat, multiset<T>>)
    requires a <= f.Keys && b <= f.Keys && a !! b
    ensures Union(a + b, f) == Union(a, f) + Union(b, f)
    decreases |a|
  {
    if a == {} {
      assert a + b == b;
    } else {
      var x :| x in a;
      UnionRemove(a, f, x);
      UnionRemove(a + b, f, x);
      UnionDisjoint(a - {x}, b, f);
      assert a + b - {x} == (a - {x}) + b;
    }
  }

  lemma {:induction false} UnionCount<T>(s: set<nat>, f: map<nat, multiset<T>>, n: map<nat, nat>)
    requires s <= f.Keys && s <= n.Keys && forall x :: x in s ==> n[x] == |f[x]|
    ensures |Union(s, f)| == Sum(s, n)
    decreases |s|
  {
    if s != {} {
      var x :| x in s;
      UnionRemove(s, f, x);
      SumRemove(s, n, x);
      UnionCount(s - {x}, f, n);
    }
  }
}
