/**
 Total variation distance between two distributions with finite support: half the summed
 absolute gap, which is also the largest difference in mass over any set of outcomes.
 */
module Distance {
  import opened Sums

  ghost predicate Distribution<K(!new)>(u: set<K>, p: K -> real) {
    && (forall k :: 0.0 <= p(k))
    && (forall k :: k !in u ==> p(k) == 0.0)
    && Sum(u, p) == 1.0
  }

  ghost function Gap<K>(p: K -> real, q: K -> real): K -> real {
    k => p(k) - q(k)
  }

  ghost function AbsGap<K>(p: K -> real, q: K -> real): K -> real {
    k => if p(k) < q(k) then q(k) - p(k) else p(k) - q(k)
  }

  ghost function HalfGap<K>(u: set<K>, p: K -> real, q: K -> real): real {
    Sum(u, AbsGap(p, q)) / 2.0
  }

  /** The outcomes that `p` makes more likely than `q` does. */
  ghost function Excess<K>(u: set<K>, p: K -> real, q: K -> real): set<K> {
    set k | k in u && p(k) > q(k)
  }

  lemma Widen<K(!new)>(u: set<K>, v: set<K>, p: K -> real)
    requires Distribution(u, p) && u <= v
    ensures Distribution(v, p)
  {
    Part(u, v, p);
    Vanishing(v - u, p);
  }

  lemma MassAtMostOne<K(!new)>(u: set<K>, p: K -> real, a: set<K>)
    requires Distribution(u, p)
    ensures 0.0 <= Sum(a, p) <= 1.0
  {
    Widen(u, u + a, p);
    Part(a, u + a, p);
    NonNegative(a, p);
    NonNegative(u + a - a, p);
  }

  /** The half gap is the mass gap over the set where `p` exceeds `q`, and over the rest of the support. */
  lemma Attained<K(!new)>(u: set<K>, p: K -> real, q: K -> real)
    requires Distribution(u, p) && Distribution(u, q)
    ensures var e := Excess(u, p, q);
            && HalfGap(u, p, q) == Sum(e, Gap(p, q)) == Sum(e, p) - Sum(e, q)
            && HalfGap(u, p, q) == Sum(u - e, Gap(q, p))
  {
    var e := Excess(u, p, q);
    Combine(u, p, q, Gap(p, q), false);
    Combine(e, p, q, Gap(p, q), false);
    Part(e, u, Gap(p, q));
    Part(e, u, AbsGap(p, q));
    Congruent(e, AbsGap(p, q), Gap(p, q));
    Congruent(u - e, AbsGap(p, q), Gap(q, p));
    Combine(u - e, p, q, Gap(p, q), false);
    Combine(u - e, q, p, Gap(q, p), false);
  }

  /** No set of outcomes, inside the support or not, separates `p` from `q` by more than the half gap. */
  lemma Largest<K(!new)>(u: set<K>, p: K -> real, q: K -> real, a: set<K>)
    requires Distribution(u, p) && Distribution(u, q)
    ensures Sum(a, p) - Sum(a, q) <= HalfGap(u, p, q)
  {
    var e := Excess(u, p, q);
    var surplus := k => if k in e then p(k) - q(k) else 0.0;
    Combine(a, p, q, Gap(p, q), false);
    Bounded(a, Gap(p, q), surplus);
    Part(a, a + u, surplus);
    NonNegative(a + u - a, surplus);
    Part(e, a + u, surplus);
    Vanishing(a + u - e, surplus);
    Congruent(e, surplus, Gap(p, q));
    Attained(u, p, q);
  }

  lemma Widening<K(!new)>(u: set<K>, v: set<K>, p: K -> real, q: K -> real)
    requires Distribution(u, p) && Distribution(u, q) && u <= v
    ensures HalfGap(v, p, q) == HalfGap(u, p, q)
  {
    Part(u, v, AbsGap(p, q));
    Vanishing(v - u, AbsGap(p, q));
  }

  lemma Symmetric<K(!new)>(u: set<K>, p: K -> real, q: K -> real)
    ensures HalfGap(u, p, q) == HalfGap(u, q, p)
  {
    Congruent(u, AbsGap(p, q), AbsGap(q, p));
  }

  lemma Triangle<K(!new)>(u: set<K>, p: K -> real, q: K -> real, r: K -> real)
    requires Distribution(u, p) && Distribution(u, q) && Distribution(u, r)
    ensures HalfGap(u, p, r) <= HalfGap(u, p, q) + HalfGap(u, q, r)
  {
    var e := Excess(u, p, r);
    Attained(u, p, r);
    Largest(u, p, q, e);
    Largest(u, q, r, e);
  }

  lemma WithinUnit<K(!new)>(u: set<K>, p: K -> real, q: K -> real)
    requires Distribution(u, p) && Distribution(u, q)
    ensures 0.0 <= HalfGap(u, p, q) <= 1.0
  {
    Attained(u, p, q);
    MassAtMostOne(u, p, Excess(u, p, q));
    MassAtMostOne(u, q, Excess(u, p, q));
    NonNegative(u, AbsGap(p, q));
  }

  lemma ZeroExactly<K(!new)>(u: set<K>, p: K -> real, q: K -> real)
    requires Distribution(u, p) && Distribution(u, q)
    ensures HalfGap(u, p, q) == 0.0 <==> forall k :: p(k) == q(k)
  {
    if HalfGap(u, p, q) == 0.0 {
      forall k | k in u
        ensures p(k) == q(k)
      {
        Dominates(u, AbsGap(p, q), k);
      }
    } else if forall k :: p(k) == q(k) {
      Vanishing(u, AbsGap(p, q));
    }
  }

  lemma OneExactly<K(!new)>(u: set<K>, p: K -> real, q: K -> real)
    requires Distribution(u, p) && Distribution(u, q)
    ensures HalfGap(u, p, q) == 1.0 <==> forall k :: p(k) == 0.0 || q(k) == 0.0
  {
    var e := Excess(u, p, q);
    Attained(u, p, q);
    MassAtMostOne(u, p, e);
    MassAtMostOne(u, q, e);
    Part(e, u, p);
    if HalfGap(u, p, q) == 1.0 {
      forall k
        ensures p(k) == 0.0 || q(k) == 0.0
      {
        if k in e {
          Dominates(e, q, k);
        } else if k in u {
          Dominates(u - e, p, k);
        }
      }
    } else if forall k :: p(k) == 0.0 || q(k) == 0.0 {
      Vanishing(u - e, p);
      Vanishing(e, q);
    }
  }

  /** If `q` exceeds `p` at one outcome alone, which `p` excludes, the half gap is its mass under `q`. */
  lemma OneExcess<K(!new)>(u: set<K>, p: K -> real, q: K -> real, y: K)
    requires Distribution(u, p) && Distribution(u, q)
    requires y in u && p(y) == 0.0 < q(y)
    requires forall k :: k in u && k != y ==> q(k) <= p(k)
    ensures HalfGap(u, p, q) == q(y)
  {
    assert Excess(u, q, p) == {y};
    Symmetric(u, p, q);
    Attained(u, q, p);
    Pick({y}, Gap(q, p), y);
  }
}
