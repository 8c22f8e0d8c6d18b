/** services/drift/service.py: event histograms, the drift score, and what the score means. */
module DriftScore {
  import opened Wrappers
  import opened Enums
  import opened Sums
  import opened Distance

  type Histogram = map<EventType, nat>

  function Count(h: Histogram, e: EventType): nat {
    if e in h then h[e] else 0
  }

  /** The histogram of a list of events: one entry for each type that occurs. */
  function CountOf(events: seq<EventType>): Histogram {
    map e | e in events :: multiset(events)[e]
  }

  /** Counts events one by one. */
  method CountEvents(events: seq<EventType>) returns (counts: Histogram)
    ensures counts == CountOf(events)
    ensures forall e :: e in counts <==> e in events
    ensures forall e :: e in counts ==> counts[e] == multiset(events)[e]
  {
    counts := map[];
    for i := 0 to |events|
      invariant counts == CountOf(events[..i])
    {
      assert events[..i + 1] == events[..i] + [events[i]];
      counts := counts[events[i] := Count(counts, events[i]) + 1];
    }
    assert events[..|events|] == events;
  }

  ghost function Weight(h: Histogram): EventType -> real {
    e => Count(h, e) as real
  }

  function Ratio(part: nat, total: nat): real
    requires total > 0
  {
    part as real / total as real
  }

  function Freq(h: Histogram, total: nat): EventType -> real
    requires total > 0
  {
    e => Ratio(Count(h, e), total)
  }

  /** A histogram of `total` events. */
  ghost predicate Window(h: Histogram, total: nat) {
    Sum(h.Keys, Weight(h)) == total as real
  }

  function Min(a: real, b: real): real {
    if b < a then b else a
  }

  function Abs(x: real): real {
    if x < 0.0 then -x else x
  }

  /** The score: half the summed gap over the union of the key sets, at most 1; 0 if a window is empty. */
  ghost function Score(b: Histogram, bn: nat, r: Histogram, rn: nat): real {
    if bn == 0 || rn == 0 then 0.0
    else Min(HalfGap(b.Keys + r.Keys, Freq(b, bn), Freq(r, rn)), 1.0)
  }

  /** To the nearest integer, ties to even. */
  function Nearest(x: real): (m: int)
    ensures m as real - 0.5 <= x <= m as real + 0.5
    ensures x == m as real - 0.5 || x == m as real + 0.5 ==> m % 2 == 0
  {
    var n := x.Floor;
    var rest := x - n as real;
    if rest < 0.5 || (rest == 0.5 && n % 2 == 0) then n else n + 1
  }

  /** Python's `round(x, 4)` on exact numbers. */
  function Round4(x: real): (y: real)
    ensures -0.00005 <= y - x <= 0.00005
  {
    Nearest(x * 10000.0) as real / 10000.0
  }

  datatype Deviation = Deviation(eventType: EventType, baselineFreq: real, recentFreq: real, delta: real)

  function Rounded(e: EventType, baselineFreq: real, recentFreq: real, delta: real): Deviation {
    Deviation(e, Round4(baselineFreq), Round4(recentFreq), Round4(delta))
  }

  ghost function DeviationOf(p: EventType -> real, q: EventType -> real, e: EventType): Deviation {
    Rounded(e, p(e), q(e), AbsGap(p, q)(e))
  }

  /** `ds` lists, in alphabetical order, exactly the types of `among` whose frequencies differ by more than 0.001. */
  ghost predicate Reports(ds: seq<Deviation>, p: EventType -> real, q: EventType -> real, among: set<EventType>) {
    && (forall i, j :: 0 <= i < j < |ds| ==> Position(ds[i].eventType) < Position(ds[j].eventType))
    && (forall d :: d in ds ==>
          d.eventType in among && d == DeviationOf(p, q, d.eventType) && AbsGap(p, q)(d.eventType) > 0.001)
    && (forall e :: e in among && AbsGap(p, q)(e) > 0.001 ==> DeviationOf(p, q, e) in ds)
  }

  lemma ReportOneMore(
    ds: seq<Deviation>, p: EventType -> real, q: EventType -> real, done: set<EventType>, e: EventType)
    requires Reports(ds, p, q, done)
    requires forall x :: x in done ==> Position(x) < Position(e)
    ensures Reports(if AbsGap(p, q)(e) > 0.001 then ds + [DeviationOf(p, q, e)] else ds, p, q, done + {e})
  {
  }

  /** The loop over the types in alphabetical order, for the two frequency functions. */
  method SumGaps(types: seq<EventType>, p: EventType -> real, q: EventType -> real, ghost u: set<EventType>)
    returns (tvd: real, deviations: seq<Deviation>)
    requires forall a, b :: 0 <= a < b < |types| ==> Position(types[a]) < Position(types[b])
    requires forall e :: e in types <==> e in u
    ensures tvd / 2.0 == HalfGap(u, p, q)
    ensures Reports(deviations, p, q, u)
  {
    deviations := [];
    tvd := 0.0;
    for i := 0 to |types|
      invariant tvd == Sum(Seen(types, i), AbsGap(p, q))
      invariant Reports(deviations, p, q, Seen(types, i))
    {
      var e := types[i];
      var bFreq, rFreq := p(e), q(e);
      var delta := Abs(bFreq - rFreq);
      assert delta == AbsGap(p, q)(e);
      NextTerm(types, i, AbsGap(p, q));
      ReportOneMore(deviations, p, q, Seen(types, i), e);
      tvd := tvd + delta;
      if delta > 0.001 {
        deviations := deviations + [Rounded(e, bFreq, rFreq, delta)];
      }
    }
    assert Seen(types, |types|) == u;
  }

  /** The gaps over the sorted union of the key sets, summed, halved and capped. */
  method ComputeTvd(b: Histogram, bn: nat, r: Histogram, rn: nat) returns (score: real, deviations: seq<Deviation>)
    ensures score == Score(b, bn, r, rn)
    ensures bn == 0 || rn == 0 ==> score == 0.0 && deviations == []
    ensures bn > 0 && rn > 0 ==> Reports(deviations, Freq(b, bn), Freq(r, rn), b.Keys + r.Keys)
  {
    if bn == 0 || rn == 0 {
      return 0.0, [];
    }
    var types := SortedFrom(b.Keys + r.Keys, 0);
    var tvd;
    tvd, deviations := SumGaps(types, Freq(b, bn), Freq(r, rn), b.Keys + r.Keys);
    return Min(tvd / 2.0, 1.0), deviations;
  }

  ghost function Seen(types: seq<EventType>, i: nat): set<EventType>
    requires i <= |types|
  {
    set e | e in types[..i]
  }

  lemma NextTerm(types: seq<EventType>, i: nat, f: EventType -> real)
    requires i < |types|
    requires forall a, b :: 0 <= a < b < |types| ==> Position(types[a]) < Position(types[b])
    ensures Sum(Seen(types, i + 1), f) == Sum(Seen(types, i), f) + f(types[i])
    ensures Seen(types, i + 1) == Seen(types, i) + {types[i]}
    ensures forall x :: x in Seen(types, i) ==> Position(x) < Position(types[i])
  {
    var done := Seen(types, i);
    Pick(done + {types[i]}, f, types[i]);
    assert done + {types[i]} - {types[i]} == done;
    assert types[..i + 1] == types[..i] + [types[i]];
    assert Seen(types, i + 1) == done + {types[i]};
  }

  datatype Label = NoDrift | LowDrift | MediumDrift | HighDrift

  const THRESHOLDS: seq<(real, Label)> := [(0.6, HighDrift), (0.4, MediumDrift), (0.2, LowDrift), (0.0, NoDrift)]

  function LabelOf(score: real): Label {
    if score >= 0.6 then HighDrift else if score >= 0.4 then MediumDrift else if score >= 0.2 then LowDrift else NoDrift
  }

  /** The first threshold reached gives the label. */
  method ScoreToSeverity(score: real) returns (severity: Label)
    ensures severity == LabelOf(score)
    ensures severity == HighDrift <==> 0.6 <= score
    ensures severity == MediumDrift <==> 0.4 <= score < 0.6
    ensures severity == LowDrift <==> 0.2 <= score < 0.4
    ensures severity == NoDrift <==> score < 0.2
  {
    for i := 0 to |THRESHOLDS|
      invariant forall j :: 0 <= j < i ==> score < THRESHOLDS[j].0
    {
      assert THRESHOLDS[0].0 == 0.6 && THRESHOLDS[1].0 == 0.4 && THRESHOLDS[2].0 == 0.2 && THRESHOLDS[3].0 == 0.0;
      if score >= THRESHOLDS[i].0 {
        return THRESHOLDS[i].1;
      }
    }
    return NoDrift;
  }

  // ---- From histograms to distributions ----

  /** The counting loop conserves events: the entries sum to the number of events counted. */
  lemma {:induction false} CountingConserves(events: seq<EventType>)
    ensures Window(CountOf(events), |events|)
    ensures forall e :: Count(CountOf(events), e) == multiset(events)[e]
  {
    if events != [] {
      var n := |events| - 1;
      var init, last := events[..n], events[n];
      assert events == init + [last];
      CountingConserves(init);
      AddingOne(CountOf(init), n, last);
      assert CountOf(events) == CountOf(init)[last := Count(CountOf(init), last) + 1];
    }
  }

  lemma AddingOne(h: Histogram, n: nat, e: EventType)
    requires Window(h, n)
    ensures Window(h[e := Count(h, e) + 1], n + 1)
  {
    var more := h[e := Count(h, e) + 1];
    Pick(more.Keys, Weight(more), e);
    Congruent(h.Keys - {e}, Weight(h), Weight(more));
    assert more.Keys - {e} == h.Keys - {e};
    if e in h {
      Pick(h.Keys, Weight(h), e);
    } else {
      assert h.Keys - {e} == h.Keys;
    }
  }

  lemma FreqTimesTotal(h: Histogram, n: nat)
    requires n > 0
    ensures forall e :: Weight(h)(e) == Freq(h, n)(e) * n as real && Freq(h, n)(e) >= 0.0
  {
  }

  /** The probability that an event of the window has a type in `types`. */
  ghost function Mass(h: Histogram, n: nat, types: set<EventType>): real
    requires n > 0
  {
    Sum(types, Freq(h, n))
  }

  lemma MassTimesTotal(h: Histogram, n: nat, types: set<EventType>)
    requires n > 0
    ensures Mass(h, n, types) * n as real == Sum(types, Weight(h)) && 0.0 <= Mass(h, n, types)
  {
    FreqTimesTotal(h, n);
    Scaled(types, Weight(h), Freq(h, n), n as real);
    NonNegative(types, Freq(h, n));
  }

  lemma MassFromCount(mass: real, n: real, weight: real)
    requires n > 0.0 && mass * n == weight && weight == n
    ensures mass == 1.0
  {
  }

  lemma WindowIsDistribution(h: Histogram, n: nat, u: set<EventType>)
    requires n > 0 && Window(h, n) && h.Keys <= u
    ensures Distribution(u, Freq(h, n))
  {
    MassTimesTotal(h, n, h.Keys);
    MassFromCount(Mass(h, n, h.Keys), n as real, Sum(h.Keys, Weight(h)));
    Widen(h.Keys, u, Freq(h, n));
  }

  /** Over any set holding both key sets the half gap is the score: the cap at 1 never bites. */
  lemma ScoreUnclamped(b: Histogram, bn: nat, r: Histogram, rn: nat, u: set<EventType>)
    requires bn > 0 && rn > 0 && Window(b, bn) && Window(r, rn) && b.Keys + r.Keys <= u
    ensures Distribution(u, Freq(b, bn)) && Distribution(u, Freq(r, rn))
    ensures Score(b, bn, r, rn) == HalfGap(u, Freq(b, bn), Freq(r, rn))
    ensures 0.0 <= Score(b, bn, r, rn) <= 1.0
  {
    WindowIsDistribution(b, bn, u);
    WindowIsDistribution(r, rn, u);
    WindowIsDistribution(b, bn, b.Keys + r.Keys);
    WindowIsDistribution(r, rn, b.Keys + r.Keys);
    Widening(b.Keys + r.Keys, u, Freq(b, bn), Freq(r, rn));
    WithinUnit(u, Freq(b, bn), Freq(r, rn));
  }

  // ---- The score is a metric on non-empty windows, up to proportionality ----

  lemma ScoreSymmetric(b: Histogram, bn: nat, r: Histogram, rn: nat)
    ensures Score(b, bn, r, rn) == Score(r, rn, b, bn)
  {
    if bn > 0 && rn > 0 {
      Symmetric(b.Keys + r.Keys, Freq(b, bn), Freq(r, rn));
      assert b.Keys + r.Keys == r.Keys + b.Keys;
    }
  }

  lemma ScoreTriangle(a: Histogram, an: nat, b: Histogram, bn: nat, c: Histogram, cn: nat)
    requires an > 0 && bn > 0 && cn > 0
    requires Window(a, an) && Window(b, bn) && Window(c, cn)
    ensures Score(a, an, c, cn) <= Score(a, an, b, bn) + Score(b, bn, c, cn)
  {
    var u := a.Keys + b.Keys + c.Keys;
    ScoreUnclamped(a, an, c, cn, u);
    ScoreUnclamped(a, an, b, bn, u);
    ScoreUnclamped(b, bn, c, cn, u);
    Triangle(u, Freq(a, an), Freq(b, bn), Freq(c, cn));
  }

  /** The score is the largest difference in probability over all sets of types, and says where it is attained. */
  lemma ScoreIsLargestDifference(b: Histogram, bn: nat, r: Histogram, rn: nat)
    requires bn > 0 && rn > 0 && Window(b, bn) && Window(r, rn)
    ensures forall types :: Mass(b, bn, types) - Mass(r, rn, types) <= Score(b, bn, r, rn)
    ensures var over := set e | e in b.Keys + r.Keys && Count(b, e) * rn > Count(r, e) * bn;
            Mass(b, bn, over) - Mass(r, rn, over) == Score(b, bn, r, rn)
  {
    var u := b.Keys + r.Keys;
    var p, q := Freq(b, bn), Freq(r, rn);
    ScoreUnclamped(b, bn, r, rn, u);
    Attained(u, p, q);
    forall types
      ensures Mass(b, bn, types) - Mass(r, rn, types) <= Score(b, bn, r, rn)
    {
      Largest(u, p, q, types);
    }
    forall e
      ensures p(e) > q(e) <==> Count(b, e) * rn > Count(r, e) * bn
    {
      CrossMultiply(Count(b, e), bn, Count(r, e), rn);
    }
    assert Excess(u, p, q) == set e | e in b.Keys + r.Keys && Count(b, e) * rn > Count(r, e) * bn;
  }

  lemma CrossMultiply(x: nat, m: nat, y: nat, n: nat)
    requires m > 0 && n > 0
    ensures x as real / m as real > y as real / n as real <==> x * n > y * m
    ensures x as real / m as real == y as real / n as real <==> x * n == y * m
  {
    var s, t := x as real / m as real, y as real / n as real;
    assert s * m as real == x as real && t * n as real == y as real;
    assert (x * n) as real == s * (m as real * n as real);
    assert (y * m) as real == t * (m as real * n as real);
    assert m as real * n as real > 0.0;
  }

  /** Score 0 means proportional histograms; score 1 means no type in common. */
  lemma ScoreExtremes(b: Histogram, bn: nat, r: Histogram, rn: nat)
    requires bn > 0 && rn > 0 && Window(b, bn) && Window(r, rn)
    ensures Score(b, bn, r, rn) == 0.0 <==> forall e :: Count(b, e) * rn == Count(r, e) * bn
    ensures Score(b, bn, r, rn) == 1.0 <==> forall e :: Count(b, e) == 0 || Count(r, e) == 0
  {
    var u := b.Keys + r.Keys;
    var p, q := Freq(b, bn), Freq(r, rn);
    ScoreUnclamped(b, bn, r, rn, u);
    ZeroExactly(u, p, q);
    OneExactly(u, p, q);
    forall e
      ensures p(e) == q(e) <==> Count(b, e) * rn == Count(r, e) * bn
    {
      CrossMultiply(Count(b, e), bn, Count(r, e), rn);
    }
    FreqZero(b, bn);
    FreqZero(r, rn);
  }

  lemma FreqZero(h: Histogram, n: nat)
    requires n > 0
    ensures forall e :: Freq(h, n)(e) == 0.0 <==> Count(h, e) == 0
  {
  }

  // ---- One more event ----

  function Quot(weight: real, n: nat): real
    requires n > 0
  {
    weight / n as real
  }

  lemma MassIsQuot(h: Histogram, n: nat, types: set<EventType>)
    requires n > 0
    ensures Mass(h, n, types) == Quot(Sum(types, Weight(h)), n)
  {
    MassTimesTotal(h, n, types);
    QuotOf(Mass(h, n, types), n as real, Sum(types, Weight(h)));
  }

  lemma QuotOf(mass: real, n: real, weight: real)
    requires n > 0.0 && mass * n == weight
    ensures mass == weight / n
  {
  }

  lemma QuotStep(weight: real, more: real, n: nat)
    requires n > 0 && 0.0 <= weight && more <= weight + 1.0
    ensures Quot(more, n + 1) - Quot(weight, n) <= 1.0 / (n + 1) as real
  {
    StepBound(weight, more, n as real);
  }

  lemma StepBound(weight: real, more: real, n: real)
    requires 0.0 <= weight && n > 0.0 && more <= weight + 1.0
    ensures more / (n + 1.0) - weight / n <= 1.0 / (n + 1.0)
  {
    assert (more - 1.0) / (n + 1.0) <= weight / (n + 1.0) <= weight / n;
  }

  /** Within one window, one more event moves the probability of any set of types up by at most 1/(n+1). */
  lemma OneMoreMass(r: Histogram, n: nat, e: EventType, types: set<EventType>)
    requires n > 0 && Window(r, n)
    ensures Mass(r[e := Count(r, e) + 1], n + 1, types) - Mass(r, n, types) <= 1.0 / (n + 1) as real
  {
    var more := r[e := Count(r, e) + 1];
    OneMoreWeight(r, e, types);
    NonNegative(types, Weight(r));
    MassIsQuot(r, n, types);
    MassIsQuot(more, n + 1, types);
    QuotStep(Sum(types, Weight(r)), Sum(types, Weight(more)), n);
  }

  lemma OneMoreWeight(r: Histogram, e: EventType, types: set<EventType>)
    ensures Sum(types, Weight(r[e := Count(r, e) + 1])) <= Sum(types, Weight(r)) + 1.0
  {
    var more := r[e := Count(r, e) + 1];
    if e in types {
      Pick(types, Weight(r), e);
      Pick(types, Weight(more), e);
      Congruent(types - {e}, Weight(r), Weight(more));
    } else {
      Congruent(types, Weight(r), Weight(more));
    }
  }

  lemma OneMoreEventMovesLittle(b: Histogram, bn: nat, r: Histogram, n: nat, e: EventType)
    requires bn > 0 && n > 0 && Window(b, bn) && Window(r, n)
    ensures var more := r[e := Count(r, e) + 1];
            Abs(Score(b, bn, more, n + 1) - Score(b, bn, r, n)) <= 1.0 / (n + 1) as real
  {
    var more := r[e := Count(r, e) + 1];
    AddingOne(r, n, e);
    ScoreTriangle(b, bn, r, n, more, n + 1);
    ScoreTriangle(b, bn, more, n + 1, r, n);
    ScoreSymmetric(more, n + 1, r, n);
    ScoreIsLargestDifference(more, n + 1, r, n);
    var over := set k | k in more.Keys + r.Keys && Count(more, k) * n > Count(r, k) * (n + 1);
    OneMoreMass(r, n, e, over);
  }

  // ---- The deviation list ----

  lemma GapOfAtLeast(u: set<EventType>, over: set<EventType>, p: EventType -> real, q: EventType -> real)
    requires over <= u && Sum(over, Gap(p, q)) >= 0.2
    ensures exists e :: e in over && p(e) - q(e) > 0.001
  {
    if forall e :: e in over ==> p(e) - q(e) <= 0.001 {
      Capped(over, Gap(p, q), 0.001);
      AtMostAllTypes(over);
      assert false;
    }
  }

  /** Whenever drift is reported, some reported type has become rarer and some has become more frequent. */
  lemma DriftIsExplained(b: Histogram, bn: nat, r: Histogram, rn: nat, ds: seq<Deviation>)
    requires bn > 0 && rn > 0 && Window(b, bn) && Window(r, rn)
    requires Reports(ds, Freq(b, bn), Freq(r, rn), b.Keys + r.Keys)
    requires LabelOf(Score(b, bn, r, rn)) != NoDrift
    ensures exists d :: d in ds && d.baselineFreq > d.recentFreq
    ensures exists d :: d in ds && d.baselineFreq < d.recentFreq
  {
    var u := b.Keys + r.Keys;
    var p, q := Freq(b, bn), Freq(r, rn);
    ScoreUnclamped(b, bn, r, rn, u);
    Attained(u, p, q);
    SomeRarer(ds, p, q, u, Excess(u, p, q));
    SomeMoreFrequent(ds, p, q, u, u - Excess(u, p, q));
  }

  lemma SomeRarer(
    ds: seq<Deviation>, p: EventType -> real, q: EventType -> real, u: set<EventType>, over: set<EventType>)
    requires Reports(ds, p, q, u) && over <= u && Sum(over, Gap(p, q)) >= 0.2
    ensures exists d :: d in ds && d.baselineFreq > d.recentFreq
  {
    GapOfAtLeast(u, over, p, q);
    var e :| e in over && p(e) - q(e) > 0.001;
    ReportedOrder(ds, p, q, u, e);
  }

  lemma SomeMoreFrequent(
    ds: seq<Deviation>, p: EventType -> real, q: EventType -> real, u: set<EventType>, under: set<EventType>)
    requires Reports(ds, p, q, u) && under <= u && Sum(under, Gap(q, p)) >= 0.2
    ensures exists d :: d in ds && d.baselineFreq < d.recentFreq
  {
    GapOfAtLeast(u, under, q, p);
    var e :| e in under && q(e) - p(e) > 0.001;
    ReportedOrder(ds, p, q, u, e);
  }

  /** Rounding never hides or reverses a reported difference. */
  lemma ReportedOrder(ds: seq<Deviation>, p: EventType -> real, q: EventType -> real, u: set<EventType>, e: EventType)
    requires Reports(ds, p, q, u)
    requires e in u && AbsGap(p, q)(e) > 0.001
    ensures DeviationOf(p, q, e) in ds
    ensures var d := DeviationOf(p, q, e);
            if p(e) > q(e) then d.baselineFreq > d.recentFreq else d.baselineFreq < d.recentFreq
  {
  }

  /**
   The printed deviations, from the two histograms alone: one for each type whose share changed by more than
   0.001, with both shares and the change to four digits, in alphabetical order.
   */
  lemma DeviationsExactly(b: Histogram, bn: nat, r: Histogram, rn: nat, ds: seq<Deviation>)
    requires bn > 0 && rn > 0 && Reports(ds, Freq(b, bn), Freq(r, rn), b.Keys + r.Keys)
    ensures forall e ::
              (exists d :: d in ds && d.eventType == e) <==>
              Abs(Count(b, e) as real / bn as real - Count(r, e) as real / rn as real) > 0.001
    ensures forall d :: d in ds ==>
              && d.baselineFreq == Round4(Count(b, d.eventType) as real / bn as real)
              && d.recentFreq == Round4(Count(r, d.eventType) as real / rn as real)
              && d.delta == Round4(
                   Abs(Count(b, d.eventType) as real / bn as real - Count(r, d.eventType) as real / rn as real))
    ensures forall i, j :: 0 <= i < j < |ds| ==> Position(ds[i].eventType) < Position(ds[j].eventType)
  {
    var p, q := Freq(b, bn), Freq(r, rn);
    FreqZero(b, bn);
    FreqZero(r, rn);
    forall e
      ensures AbsGap(p, q)(e) == Abs(Count(b, e) as real / bn as real - Count(r, e) as real / rn as real)
      ensures (exists d :: d in ds && d.eventType == e) <==> AbsGap(p, q)(e) > 0.001
    {
      if AbsGap(p, q)(e) > 0.001 {
        assert e in b.Keys + r.Keys;
        assert DeviationOf(p, q, e) in ds && DeviationOf(p, q, e).eventType == e;
      }
    }
  }

  /** Four digits: the nearest multiple of 0.0001, and of two equally near ones the even multiple. */
  lemma FourDigits(x: real) returns (m: int)
    ensures Round4(x) == m as real / 10000.0
    ensures m as real - 0.5 <= x * 10000.0 <= m as real + 0.5
    ensures x * 10000.0 == m as real - 0.5 || x * 10000.0 == m as real + 0.5 ==> m % 2 == 0
  {
    m := Nearest(x * 10000.0);
  }

  // ---- The same events again ----

  /** A window holding the same events, in any order, is at distance 0. */
  lemma SameEventsScoreZero(before: seq<EventType>, after: seq<EventType>)
    requires multiset(before) == multiset(after)
    ensures Score(CountOf(before), |before|, CountOf(after), |after|) == 0.0
  {
    assert |before| == |multiset(before)| == |multiset(after)| == |after|;
    if before != [] {
      CountingConserves(before);
      CountingConserves(after);
      ScoreExtremes(CountOf(before), |before|, CountOf(after), |after|);
    }
  }

  // ---- The printed score ----

  /** Rounding changes a label exactly when it lifts the score onto a threshold that the score does not reach. */
  lemma RoundedLabelDiffers(score: real)
    ensures LabelOf(Round4(score)) != LabelOf(score) <==>
            0.19995 <= score < 0.2 || 0.39995 <= score < 0.4 || 0.59995 <= score < 0.6
  {
  }

  function Repeat(e: EventType, n: nat): seq<EventType> {
    seq(n, _ => e)
  }

  lemma {:induction false} RepeatCounts(e: EventType, n: nat)
    ensures multiset(Repeat(e, n)) == multiset{}[e := n]
  {
    if n > 0 {
      RepeatCounts(e, n - 1);
      assert Repeat(e, n) == Repeat(e, n - 1) + [e];
    }
  }

  lemma TwoTypesCount(x: EventType, y: EventType, m: nat, n: nat)
    requires x != y && m > 0 && n > 0
    ensures CountOf(Repeat(x, m) + Repeat(y, n)) == map[x := m, y := n]
  {
    var events := Repeat(x, m) + Repeat(y, n);
    RepeatCounts(x, m);
    RepeatCounts(y, n);
    assert multiset(events) == multiset{}[x := m] + multiset{}[y := n];
    CountOfMixed(events, x, y, m, n);
  }

  lemma CountOfMixed(events: seq<EventType>, x: EventType, y: EventType, m: nat, n: nat)
    requires x != y && m > 0 && n > 0 && multiset(events) == multiset{}[x := m] + multiset{}[y := n]
    ensures CountOf(events) == map[x := m, y := n]
  {
    assert forall e :: e in events <==> e in multiset(events);
  }

  const ONE_TYPE: seq<EventType> := [ToolSelected]
  const TWO_TYPES: seq<EventType> := Repeat(ToolSelected, 80_003) + Repeat(RagQuery, 19_997)

  /** Windows whose score the report rounds up to the threshold of low drift. */
  lemma JustBelowLow()
    ensures |ONE_TYPE| == 1 && |TWO_TYPES| == 100_000
    ensures Score(CountOf(ONE_TYPE), 1, CountOf(TWO_TYPES), 100_000) == 0.19997
  {
    TwoTypesCount(ToolSelected, RagQuery, 80_003, 19_997);
    CountingConserves(ONE_TYPE);
    CountingConserves(TWO_TYPES);
    OneAgainstTwo(CountOf(ONE_TYPE), CountOf(TWO_TYPES));
  }

  lemma OneAgainstTwo(b: Histogram, r: Histogram)
    requires b == map[ToolSelected := 1] && r == map[ToolSelected := 80_003, RagQuery := 19_997]
    requires Window(b, 1) && Window(r, 100_000)
    ensures Score(b, 1, r, 100_000) == 0.19997
  {
    var u := {ToolSelected, RagQuery};
    assert b.Keys + r.Keys == u;
    ScoreUnclamped(b, 1, r, 100_000, u);
    OneExcess(u, Freq(b, 1), Freq(r, 100_000), RagQuery);
  }
}
