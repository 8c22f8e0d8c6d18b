/** Finite sums of reals over sets, independent of the order in which the members are visited. */
module Sums {
  ghost function Sum<K>(s: set<K>, f: K -> real): real
  {
    if s == {} then 0.0
    else
      var k :| k in s;
      f(k) + Sum(s - {k}, f)
  }

  lemma {:induction false} Pick<K>(s: set<K>, f: K -> real, k: K)
    requires k in s
    ensures Sum(s, f) == f(k) + Sum(s - {k}, f)
  {
    var j :| j in s && Sum(s, f) == f(j) + Sum(s - {j}, f);
    if j != k {
      Pick(s - {j}, f, k);
      Pick(s - {k}, f, j);
      assert s - {j} - {k} == s - {k} - {j};
    }
  }

  lemma {:induction false} Split<K>(a: set<K>, b: set<K>, f: K -> real)
    requires a !! b
    ensures Sum(a + b, f) == Sum(a, f) + Sum(b, f)
  {
    if a == {} {
      assert a + b == b;
    } else {
      var k :| k in a;
      Pick(a, f, k);
      Pick(a + b, f, k);
      assert a + b - {k} == (a - {k}) + b;
      Split(a - {k}, b, f);
    }
  }

  /** The sum of `h` is the sum of `f` plus (`sign` 1) or minus (`sign` -1) the sum of `g`. */
  lemma {:induction false} Combine<K>(s: set<K>, f: K -> real, g: K -> real, h: K -> real, plus: bool)
    requires forall k :: k in s ==> h(k) == if plus then f(k) + g(k) else f(k) - g(k)
    ensures Sum(s, h) == if plus then Sum(s, f) + Sum(s, g) else Sum(s, f) - Sum(s, g)
  {
    if s != {} {
      var k :| k in s;
      Pick(s, f, k);
      Pick(s, g, k);
      Pick(s, h, k);
      Combine(s - {k}, f, g, h, plus);
    }
  }

  lemma {:induction false} Bounded<K>(s: set<K>, f: K -> real, g: K -> real)
    requires forall k :: k in s ==> f(k) <= g(k)
    ensures Sum(s, f) <= Sum(s, g)
  {
    if s != {} {
      var k :| k in s;
      Pick(s, f, k);
      Pick(s, g, k);
      Bounded(s - {k}, f, g);
    }
  }

  lemma Congruent<K>(s: set<K>, f: K -> real, g: K -> real)
    requires forall k :: k in s ==> f(k) == g(k)
    ensures Sum(s, f) == Sum(s, g)
  {
  }

  lemma {:induction false} Capped<K>(s: set<K>, f: K -> real, cap: real)
    requires forall k :: k in s ==> f(k) <= cap
    ensures Sum(s, f) <= |s| as real * cap
  {
    if s != {} {
      var k :| k in s;
      Pick(s, f, k);
      Capped(s - {k}, f, cap);
      assert |s| as real * cap == cap + |s - {k}| as real * cap;
    }
  }

  lemma {:induction false} Scaled<K>(s: set<K>, f: K -> real, g: K -> real, n: real)
    requires forall k :: k in s ==> f(k) == g(k) * n
    ensures Sum(s, f) == Sum(s, g) * n
  {
    if s != {} {
      var k :| k in s;
      Pick(s, f, k);
      Pick(s, g, k);
      Scaled(s - {k}, f, g, n);
      Distribute(g(k), Sum(s - {k}, g), n);
    }
  }

  lemma Distribute(x: real, y: real, n: real)
    ensures (x + y) * n == x * n + y * n
  {
  }

  lemma {:induction false} NonNegative<K>(s: set<K>, f: K -> real)
    requires forall k :: k in s ==> 0.0 <= f(k)
    ensures 0.0 <= Sum(s, f)
  {
    if s != {} {
      var k :| k in s;
      Pick(s, f, k);
      NonNegative(s - {k}, f);
    }
  }

  lemma {:induction false} Vanishing<K>(s: set<K>, f: K -> real)
    requires forall k :: k in s ==> f(k) == 0.0
    ensures Sum(s, f) == 0.0
  {
    if s != {} {
      var k :| k in s;
      Pick(s, f, k);
      Vanishing(s - {k}, f);
    }
  }

  /** A sum over a part of a set splits off the rest. */
  lemma Part<K>(a: set<K>, s: set<K>, f: K -> real)
    requires a <= s
    ensures Sum(s, f) == Sum(a, f) + Sum(s - a, f)
  {
    Split(a, s - a, f);
    assert a + (s - a) == s;
  }

  /** A sum of non-negative terms bounds each of its terms. */
  lemma Dominates<K>(s: set<K>, f: K -> real, k: K)
    requires k in s && forall j :: j in s ==> 0.0 <= f(j)
    ensures f(k) <= Sum(s, f)
  {
    Pick(s, f, k);
    NonNegative(s - {k}, f);
  }
}
