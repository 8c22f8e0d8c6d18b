/** What every run of the ingestion pipeline keeps, and when batches agree with single calls. */
module IngestionGuarantees {
  import opened Wrappers
  import opened Enums
  import opened Calendar
  import opened Events
  import opened Quota
  import opened QuotaLedger
  import opened QuotaLimits
  import opened Sentinel
  import opened Ingestion

  // ---- Order-preserving inclusion ----

  /** `a` is `b` with some elements left out. */
  predicate Subsequence<T(==)>(a: seq<T>, b: seq<T>)
    decreases |b|
  {
    if b == [] then a == []
    else Subsequence(a, b[1..]) || (a != [] && a[0] == b[0] && Subsequence(a[1..], b[1..]))
  }

  lemma {:induction false} EmptySubsequence<T>(b: seq<T>)
    ensures Subsequence([], b)
    decreases |b|
  {
    if b != [] {
      EmptySubsequence(b[1..]);
    }
  }

  lemma {:induction false} SubsequenceAppend<T>(a: seq<T>, b: seq<T>, c: seq<T>, d: seq<T>)
    requires Subsequence(a, b) && Subsequence(c, d)
    ensures Subsequence(a + c, b + d)
    decreases |b|
  {
    if b == [] {
      assert a + c == c && b + d == d;
    } else {
      assert (b + d)[1..] == b[1..] + d;
      if Subsequence(a, b[1..]) {
        SubsequenceAppend(a, b[1..], c, d);
      } else {
        SubsequenceAppend(a[1..], b[1..], c, d);
        assert (a + c)[1..] == a[1..] + c;
      }
    }
  }

  lemma {:induction false} PrefixSubsequence<T>(b: seq<T>, k: nat)
    requires k <= |b|
    ensures Subsequence(b[..k], b)
    decreases |b|
  {
    if k == 0 {
      EmptySubsequence(b);
    } else {
      assert b[..k][1..] == b[1..][..k - 1];
      PrefixSubsequence(b[1..], k - 1);
    }
  }

  lemma {:induction false} SubsequenceMultiset<T>(a: seq<T>, b: seq<T>)
    requires Subsequence(a, b)
    ensures multiset(a) <= multiset(b) && |a| <= |b|
    decreases |b|
  {
    if b != [] {
      assert b == [b[0]] + b[1..];
      if Subsequence(a, b[1..]) {
        SubsequenceMultiset(a, b[1..]);
      } else {
        assert a == [a[0]] + a[1..];
        SubsequenceMultiset(a[1..], b[1..]);
      }
    }
  }

  // ---- The invariant ----

  function StoredFor(es: seq<Event>, tenant: string): nat {
    if es == [] then 0 else (if es[0].tenant == tenant then 1 else 0) + StoredFor(es[1..], tenant)
  }

  lemma {:induction false} StoredForAppend(a: seq<Event>, b: seq<Event>, tenant: string)
    ensures StoredFor(a + b, tenant) == StoredFor(a, tenant) + StoredFor(b, tenant)
  {
    if a == [] {
      assert a + b == b;
    } else {
      assert (a + b)[1..] == a[1..] + b;
      StoredForAppend(a[1..], b, tenant);
    }
  }

  function IsAdmit(): Entry -> bool {
    (e: Entry) => e.Admit?
  }

  /** The quota charges committed for a tenant. */
  function Charged(q: Quotas, tenant: string): nat {
    Tally(q.Of(tenant).log, IsAdmit())
  }

  ghost predicate Sound(w: World, wiring: Wiring) {
    && DistinctIds(w.stored)
    && Subsequence(w.bus, w.stored)
    && Subsequence(w.alerts, AlertsOf(w.bus))
    && w.singles + w.batched <= |w.bus|
    && (wiring.quota ==> forall t :: StoredFor(w.stored, t) <= Charged(w.quotas, t))
  }

  // ---- Charging ----

  /** One charge counts for its own tenant, if it is admitted, and for no other. */
  lemma ChargeOneCounts(w: World, wiring: Wiring, env: Env, tenant: string)
    requires wiring.quota
    ensures var (next, outcome) := ChargeOne(w, wiring, env, tenant);
            && next == w.(quotas := next.quotas, tick := next.tick)
            && forall t :: Charged(next.quotas, t) ==
                 Charged(w.quotas, t) + if t == tenant && outcome == Admitted then 1 else 0
  {
  }

  /** Charges change only the quota table; completed charges cover every event, failed ones are still kept. */
  lemma {:induction false} ChargeAllCounts(w: World, wiring: Wiring, env: Env, es: seq<Event>)
    ensures var (next, outcome) := ChargeAll(w, wiring, env, es);
            && next == w.(quotas := next.quotas, tick := next.tick)
            && (wiring.quota ==>
                  forall t ::
                    var charged := if outcome == Admitted then StoredFor(es, t) else 0;
                    Charged(next.quotas, t) >= Charged(w.quotas, t) + charged)
    decreases |es|
  {
    if es != [] && wiring.quota {
      ChargeOneCounts(w, wiring, env, es[0].tenant);
      var (next, outcome) := ChargeOne(w, wiring, env, es[0].tenant);
      if outcome == Admitted {
        ChargeAllCounts(next, wiring, env, es[1..]);
      }
    } else if es != [] {
      ChargeAllCounts(w, wiring, env, es[1..]);
    }
  }

  // ---- Every call keeps the invariant ----

  lemma PublishingSound(w: World, wiring: Wiring, env: Env, es: seq<Event>, before: seq<Event>)
    requires w.stored == before + es && Subsequence(w.bus, before) && Sound(w, wiring)
    ensures var (next, ok) := Publishing(w, env, es);
            && Sound(next, wiring) && (ok ==> next.bus == w.bus + es)
            && next == w.(bus := next.bus, tick := next.tick) && |next.bus| >= |w.bus|
  {
    var k := Survives(env, w.tick, |es|);
    PrefixSubsequence(es, k);
    SubsequenceAppend(w.bus, before, es[..k], es);
    AlertsAppend(w.bus, es[..k]);
    EmptySubsequence(AlertsOf(es[..k]));
    SubsequenceAppend(w.alerts, AlertsOf(w.bus), [], AlertsOf(es[..k]));
    assert w.alerts + [] == w.alerts && es[..|es|] == es;
  }

  lemma AlertingSubsequence(w: World, env: Env, due: seq<Alert>, already: seq<Alert>)
    requires Subsequence(w.alerts, already)
    ensures var next := Alerting(w, env, due).0;
            Subsequence(next.alerts, already + due) && next == w.(alerts := next.alerts, tick := next.tick)
  {
    var m := Survives(env, w.tick, |due|);
    PrefixSubsequence(due, m);
    SubsequenceAppend(w.alerts, already, due[..m], due);
  }

  lemma AnnounceSound(w: World, wiring: Wiring, env: Env, es: seq<Event>, batch: bool, before: seq<Event>)
    requires w.stored == before + es && Subsequence(w.bus, before) && Sound(w, wiring)
    ensures Sound(Announce(w, wiring, env, es, batch).0, wiring)
  {
    PublishingSound(w, wiring, env, es, before);
    var (published, ok) := Publishing(w, env, es);
    if ok {
      var metered := if batch then published.(batched := published.batched + |es|)
                     else published.(singles := published.singles + |es|);
      AlertsAppend(w.bus, es);
      AlertingSubsequence(metered, env, AlertsOf(es), AlertsOf(w.bus));
    }
  }

  lemma PipelineSound(w: World, wiring: Wiring, env: Env, es: seq<Event>, batch: bool)
    requires Sound(w, wiring)
    ensures Sound(Pipeline(w, wiring, env, es, batch).0, wiring)
  {
    ChargeAllCounts(w, wiring, env, es);
    var (charged, outcome) := ChargeAll(w, wiring, env, es);
    if outcome == Admitted && !env.fails(charged.tick) && DistinctIds(charged.stored + es) {
      var kept := charged.(stored := charged.stored + es, tick := charged.tick + 1);
      EmptySubsequence(es);
      SubsequenceAppend(w.bus, w.stored, [], es);
      assert w.bus + [] == w.bus;
      forall t
        ensures StoredFor(kept.stored, t) == StoredFor(w.stored, t) + StoredFor(es, t)
      {
        StoredForAppend(w.stored, es, t);
      }
      AnnounceSound(kept, wiring, env, es, batch, w.stored);
    }
  }

  /** A call of the ingestion service, or one made directly to the quota service. */
  datatype Call = Single(event: Event) | Batch(events: seq<Event>) | Admin(tenant: string, kind: Kind)

  function ServeBatch(w: World, wiring: Wiring, env: Env, es: seq<Event>): (World, Verdict) {
    if es == [] then (w, Accepted) else Pipeline(w, wiring, env, es, true)
  }

  function Serve(w: World, wiring: Wiring, env: Env, call: Call): World {
    match call
    case Single(e) => Pipeline(w, wiring, env, [e], false).0
    case Batch(es) => ServeBatch(w, wiring, env, es).0
    case Admin(tenant, kind) =>
      w.(quotas := w.quotas.Call(tenant, CallAt(env, w.tick, kind)).0, tick := w.tick + 2)
  }

  function ServeAll(w: World, wiring: Wiring, env: Env, calls: seq<Call>): World
    decreases |calls|
  {
    if calls == [] then w else ServeAll(Serve(w, wiring, env, calls[0]), wiring, env, calls[1..])
  }

  /** No call of the quota service takes a charge back. */
  lemma ChargesStay(q: Quotas, tenant: string, op: Op)
    ensures forall t :: Charged(q.Call(tenant, op).0, t) >= Charged(q, t)
  {
    CallAppends(q.Of(tenant), op);
  }

  lemma {:induction false} ServeAllSound(w: World, wiring: Wiring, env: Env, calls: seq<Call>)
    requires Sound(w, wiring)
    ensures Sound(ServeAll(w, wiring, env, calls), wiring)
    decreases |calls|
  {
    if calls != [] {
      match calls[0] {
        case Single(e) => PipelineSound(w, wiring, env, [e], false);
        case Batch(es) => PipelineSound(w, wiring, env, es, true);
        case Admin(tenant, kind) => ChargesStay(w.quotas, tenant, CallAt(env, w.tick, kind));
      }
      ServeAllSound(Serve(w, wiring, env, calls[0]), wiring, env, calls[1..]);
    }
  }

  /**
   Whatever awaits fail, after every run: the bus is the store with some events left out, the alerts are
   those of the bus with some left out, metered events were published, and stored events were charged.
   */
  lemma EveryRunIsSound(wiring: Wiring, env: Env, calls: seq<Call>)
    ensures var w := ServeAll(EMPTY, wiring, env, calls);
            && Unrepeated(w.stored)
            && Subsequence(w.bus, w.stored) && multiset(w.bus) <= multiset(w.stored)
            && Subsequence(w.alerts, AlertsOf(w.bus)) && multiset(w.alerts) <= multiset(AlertsOf(w.bus))
            && w.singles + w.batched <= |w.bus| <= |w.stored|
            && (wiring.quota ==> forall t :: StoredFor(w.stored, t) <= Charged(w.quotas, t))
  {
    ServeAllSound(EMPTY, wiring, env, calls);
    var w := ServeAll(EMPTY, wiring, env, calls);
    SubsequenceMultiset(w.bus, w.stored);
    SubsequenceMultiset(w.alerts, AlertsOf(w.bus));
  }

  // ---- Every tenant's quota history is a run of the quota service ----

  ghost predicate NeverBack(env: Env) {
    forall i, j :: 0 <= i <= j ==> !Before(env.clock(j), env.clock(i))
  }

  /** The quota calls that charging a list of events makes for one tenant. */
  function ChargeTrace(w: World, wiring: Wiring, env: Env, es: seq<Event>, tenant: string): seq<Op>
    decreases |es|
  {
    if es == [] || !wiring.quota then []
    else
      var (next, outcome) := ChargeOne(w, wiring, env, es[0].tenant);
      (if es[0].tenant == tenant then [CallAt(env, w.tick, Charge)] else [])
      + if outcome == Admitted then ChargeTrace(next, wiring, env, es[1..], tenant) else []
  }

  function CallTrace(w: World, wiring: Wiring, env: Env, call: Call, tenant: string): seq<Op> {
    match call
    case Single(e) => ChargeTrace(w, wiring, env, [e], tenant)
    case Batch(es) => ChargeTrace(w, wiring, env, es, tenant)
    case Admin(other, kind) => if other == tenant then [CallAt(env, w.tick, kind)] else []
  }

  /** Every quota call that a run makes for one tenant. */
  function Trace(w: World, wiring: Wiring, env: Env, calls: seq<Call>, tenant: string): seq<Op>
    decreases |calls|
  {
    if calls == [] then []
    else
      CallTrace(w, wiring, env, calls[0], tenant)
      + Trace(Serve(w, wiring, env, calls[0]), wiring, env, calls[1..], tenant)
  }

  /** `ops` leads from one cell to another in the time between two clock readings. */
  predicate Leads(ops: seq<Op>, a: Cell, b: Cell, start: Moment, now: Moment) {
    InOrder(start, ops) && !Before(now, Clock(start, ops)) && Run(a, ops).0 == b
  }

  lemma LeadsOn(a: Cell, b: Cell, c: Cell, one: seq<Op>, two: seq<Op>, start: Moment, between: Moment, now: Moment)
    requires Leads(one, a, b, start, between) && Leads(two, b, c, between, now)
    ensures Leads(one + two, a, c, start, now)
  {
    RunInParts(a, one, two);
    LaterStart(Clock(start, one), between, two, now);
    OrderInParts(start, one, two);
  }

  lemma LaterStart(start: Moment, later: Moment, ops: seq<Op>, now: Moment)
    requires !Before(later, start) && InOrder(later, ops) && !Before(now, Clock(later, ops))
    ensures InOrder(start, ops) && !Before(now, Clock(start, ops))
  {
    if ops == [] {
      NotBeforeTransitive(start, later, now);
    } else {
      NotBeforeTransitive(start, later, ops[0].created);
    }
  }

  /** One call for `caller`, as the cell of `tenant` sees it. */
  lemma CallLeads(q: Quotas, env: Env, tick: nat, kind: Kind, caller: string, tenant: string)
    requires NeverBack(env)
    ensures var op := CallAt(env, tick, kind);
            Leads(if caller == tenant then [op] else [], q.Of(tenant), q.Call(caller, op).0.Of(tenant), env.clock(tick),
                  env.clock(tick + 2))
  {
    var op := CallAt(env, tick, kind);
    TenantsAreIndependent(q, caller, op, tenant);
    assert [op][1..] == [];
  }

  lemma {:induction false} ChargeTraceLeads(w: World, wiring: Wiring, env: Env, es: seq<Event>, tenant: string)
    requires NeverBack(env)
    ensures var next := ChargeAll(w, wiring, env, es).0;
            && next.tick >= w.tick
            && Leads(ChargeTrace(w, wiring, env, es, tenant), w.quotas.Of(tenant), next.quotas.Of(tenant),
                     env.clock(w.tick), env.clock(next.tick))
    decreases |es|
  {
    ChargeAllCounts(w, wiring, env, es);
    if es != [] && wiring.quota {
      var (next, outcome) := ChargeOne(w, wiring, env, es[0].tenant);
      var first := if es[0].tenant == tenant then [CallAt(env, w.tick, Charge)] else [];
      CallLeads(w.quotas, env, w.tick, Charge, es[0].tenant, tenant);
      if outcome == Admitted {
        ChargeTraceLeads(next, wiring, env, es[1..], tenant);
        var last := ChargeAll(next, wiring, env, es[1..]).0;
        LeadsOn(w.quotas.Of(tenant), next.quotas.Of(tenant), last.quotas.Of(tenant),
                first, ChargeTrace(next, wiring, env, es[1..], tenant),
                env.clock(w.tick), env.clock(next.tick), env.clock(last.tick));
      } else {
        assert first + [] == first;
      }
    } else if es != [] {
      ChargeTraceLeads(w, wiring, env, es[1..], tenant);
    }
  }

  lemma PipelineLeads(w: World, wiring: Wiring, env: Env, es: seq<Event>, batch: bool, tenant: string)
    requires NeverBack(env)
    ensures var next := Pipeline(w, wiring, env, es, batch).0;
            Leads(ChargeTrace(w, wiring, env, es, tenant), w.quotas.Of(tenant), next.quotas.Of(tenant),
                  env.clock(w.tick), env.clock(next.tick))
  {
    ChargeTraceLeads(w, wiring, env, es, tenant);
    var charged, next := ChargeAll(w, wiring, env, es).0, Pipeline(w, wiring, env, es, batch).0;
    assert next.quotas == charged.quotas && next.tick >= charged.tick;
    NotBeforeTransitive(Clock(env.clock(w.tick), ChargeTrace(w, wiring, env, es, tenant)), env.clock(charged.tick),
                        env.clock(next.tick));
  }

  /** The trace of a run is a run of the quota service, in the order of the clock, that ends in the run's cell. */
  lemma {:induction false} TraceLeads(w: World, wiring: Wiring, env: Env, calls: seq<Call>, tenant: string)
    requires NeverBack(env)
    ensures var last := ServeAll(w, wiring, env, calls);
            Leads(Trace(w, wiring, env, calls, tenant), w.quotas.Of(tenant), last.quotas.Of(tenant), env.clock(w.tick),
                  env.clock(last.tick))
    decreases |calls|
  {
    if calls != [] {
      var next := Serve(w, wiring, env, calls[0]);
      var last := ServeAll(next, wiring, env, calls[1..]);
      match calls[0] {
        case Single(e) => PipelineLeads(w, wiring, env, [e], false, tenant);
        case Batch(es) =>
          if es != [] {
            PipelineLeads(w, wiring, env, es, true, tenant);
          }
        case Admin(other, kind) => CallLeads(w.quotas, env, w.tick, kind, other, tenant);
      }
      TraceLeads(next, wiring, env, calls[1..], tenant);
      LeadsOn(w.quotas.Of(tenant), next.quotas.Of(tenant), last.quotas.Of(tenant),
              CallTrace(w, wiring, env, calls[0], tenant), Trace(next, wiring, env, calls[1..], tenant),
              env.clock(w.tick), env.clock(next.tick), env.clock(last.tick));
    }
  }

  /**
   Whatever fails, and whatever else is called on the quota service in between: on any date a tenant is charged
   for at most (1 + its resets) times the largest daily limit in force at that date's charges, and its rolled
   counters are the recount of its charges.
   */
  lemma IngestionStaysWithinQuota(
    wiring: Wiring, env: Env, calls: seq<Call>, tenant: string, day: Moment, cap: nat)
    requires NeverBack(env)
    requires CappedOn(NEW_TENANT, Trace(EMPTY, wiring, env, calls, tenant), day, cap)
    ensures var w := ServeAll(EMPTY, wiring, env, calls);
            var c := w.quotas.Of(tenant);
            var now := env.clock(w.tick);
            && Tally(c.log, AdmitsOn(day)) <= (1 + Tally(c.log, ResetsOn(day))) * cap
            && (c.row.Some? ==>
                  var r := Rolled(c.row.value, now);
                  r.today == SinceReset(c.log, now) && r.month == InMonth(c.log, now))
  {
    var ops, w := Trace(EMPTY, wiring, env, calls, tenant), ServeAll(EMPTY, wiring, env, calls);
    TraceLeads(EMPTY, wiring, env, calls, tenant);
    RolledRowIsRecount(env.clock(0), ops, env.clock(w.tick));
    DailyLimitHolds(env.clock(0), ops, day, cap);
  }

  /** In the same runs, a month charges a tenant for at most the largest monthly limit in force at its charges. */
  lemma IngestionStaysWithinMonthlyQuota(
    wiring: Wiring, env: Env, calls: seq<Call>, tenant: string, month: Moment, cap: nat)
    requires NeverBack(env)
    requires CappedInMonth(NEW_TENANT, Trace(EMPTY, wiring, env, calls, tenant), month, cap)
    ensures InMonth(ServeAll(EMPTY, wiring, env, calls).quotas.Of(tenant).log, month) <= cap
  {
    TraceLeads(EMPTY, wiring, env, calls, tenant);
    MonthlyLimitHolds(env.clock(0), Trace(EMPTY, wiring, env, calls, tenant), month, cap);
  }

  /**
   A tenant that nobody provisions: at most 1,000 events on any date, and as many again after each reset, but
   never more than 20,000 in a month.
   */
  lemma UnprovisionedStaysWithinQuota(wiring: Wiring, env: Env, calls: seq<Call>, tenant: string, day: Moment)
    requires NeverBack(env)
    requires forall call :: call in calls && call.Admin? && call.tenant == tenant ==> !call.kind.Provision?
    ensures var log := ServeAll(EMPTY, wiring, env, calls).quotas.Of(tenant).log;
            && Tally(log, AdmitsOn(day)) <= (1 + Tally(log, ResetsOn(day))) * 1_000
            && InMonth(log, day) <= 20_000
  {
    NeverProvisioned(EMPTY, wiring, env, calls, tenant);
    StarterIsCapped(NEW_TENANT, Trace(EMPTY, wiring, env, calls, tenant), day);
    IngestionStaysWithinQuota(wiring, env, calls, tenant, day, 1_000);
    IngestionStaysWithinMonthlyQuota(wiring, env, calls, tenant, day, 20_000);
  }

  lemma {:induction false} OnlyCharges(w: World, wiring: Wiring, env: Env, es: seq<Event>, tenant: string)
    ensures forall op :: op in ChargeTrace(w, wiring, env, es, tenant) ==> op.kind.Charge?
    decreases |es|
  {
    if es != [] {
      OnlyCharges(ChargeOne(w, wiring, env, es[0].tenant).0, wiring, env, es[1..], tenant);
    }
  }

  lemma {:induction false} NeverProvisioned(w: World, wiring: Wiring, env: Env, calls: seq<Call>, tenant: string)
    requires forall call :: call in calls && call.Admin? && call.tenant == tenant ==> !call.kind.Provision?
    ensures forall op :: op in Trace(w, wiring, env, calls, tenant) ==> !op.kind.Provision?
    decreases |calls|
  {
    if calls != [] {
      match calls[0] {
        case Single(e) => OnlyCharges(w, wiring, env, [e], tenant);
        case Batch(es) => OnlyCharges(w, wiring, env, es, tenant);
        case Admin(_, _) =>
      }
      NeverProvisioned(Serve(w, wiring, env, calls[0]), wiring, env, calls[1..], tenant);
    }
  }

  lemma {:induction false} StarterIsCapped(c: Cell, ops: seq<Op>, day: Moment)
    requires c.row.Some? ==> c.row.value.dailyLimit == 1_000 && c.row.value.monthlyLimit == 20_000
    requires forall op :: op in ops ==> !op.kind.Provision?
    ensures CappedOn(c, ops, day, 1_000) && CappedInMonth(c, ops, day, 20_000)
    decreases |ops|
  {
    if ops != [] {
      StarterIsCapped(Apply(c, ops[0]).0, ops[1..], day);
    }
  }

  // ---- Batches against single calls, when the clock stands still and nothing fails ----

  ghost predicate Steady(env: Env, now: Moment) {
    forall t :: !env.fails(t) && env.clock(t) == now
  }

  /** The charges of a list of events: the table, the last outcome and how many events were admitted. */
  function Charges(q: Quotas, wiring: Wiring, now: Moment, es: seq<Event>): (r: (Quotas, Outcome, nat))
    ensures r.2 <= |es| && (r.1 == Admitted <==> r.2 == |es|)
    decreases |es|
  {
    if es == [] then (q, Admitted, 0)
    else
      var (next, outcome) :=
        if wiring.quota then q.Call(es[0].tenant, Op(Charge, now, now, NoFault)) else (q, Admitted);
      if outcome != Admitted then (next, outcome, 0)
      else
        var (last, final, n) := Charges(next, wiring, now, es[1..]);
        (last, final, n + 1)
  }

  lemma {:induction false} ChargeAllSteady(w: World, wiring: Wiring, env: Env, now: Moment, es: seq<Event>)
    requires Steady(env, now)
    ensures var (next, outcome) := ChargeAll(w, wiring, env, es);
            var (q, final, _) := Charges(w.quotas, wiring, now, es);
            outcome == final && next == w.(quotas := q, tick := next.tick)
    decreases |es|
  {
    if es != [] {
      var (next, outcome) := ChargeOne(w, wiring, env, es[0].tenant);
      if outcome == Admitted {
        ChargeAllSteady(next, wiring, env, now, es[1..]);
      }
    }
  }

  lemma {:induction false} SurvivesSteady(env: Env, now: Moment, tick: nat, n: nat)
    requires Steady(env, now)
    ensures Survives(env, tick, n) == n
    decreases n
  {
    if n > 0 {
      SurvivesSteady(env, now, tick + 1, n - 1);
    }
  }

  /** What a caller can see of a world: all but the ticks and the name of the counter that metered an event. */
  datatype Content = Content(quotas: Quotas, stored: seq<Event>, bus: seq<Event>, metered: nat, alerts: seq<Alert>)

  function ContentOf(w: World): Content {
    Content(w.quotas, w.stored, w.bus, w.singles + w.batched, w.alerts)
  }

  /** `es` has gone all the way through, and the quota table has become `q`. */
  function Gained(c: Content, wiring: Wiring, q: Quotas, es: seq<Event>): Content {
    Content(q, c.stored + es, c.bus + es, c.metered + |es|, c.alerts + if wiring.sentinel then AlertsOf(es) else [])
  }

  lemma PublishingSteady(w: World, env: Env, now: Moment, es: seq<Event>)
    requires Steady(env, now)
    ensures Publishing(w, env, es) == (w.(bus := w.bus + es, tick := w.tick + |es|), true)
  {
    SurvivesSteady(env, now, w.tick, |es|);
    assert es[..|es|] == es;
  }

  lemma AlertingSteady(w: World, env: Env, now: Moment, due: seq<Alert>)
    requires Steady(env, now)
    ensures Alerting(w, env, due) == (w.(alerts := w.alerts + due, tick := w.tick + |due|), true)
  {
    SurvivesSteady(env, now, w.tick, |due|);
    assert due[..|due|] == due;
  }

  lemma AnnounceSteady(
    w: World, wiring: Wiring, env: Env, now: Moment, es: seq<Event>, batch: bool, q: Quotas, c: Content)
    requires Steady(env, now)
    requires ContentOf(w) == c.(quotas := q, stored := c.stored + es)
    ensures var (next, verdict) := Announce(w, wiring, env, es, batch);
            verdict == Accepted && ContentOf(next) == Gained(c, wiring, q, es)
  {
    PublishingSteady(w, env, now, es);
    var published := Publishing(w, env, es).0;
    var metered := if batch then published.(batched := published.batched + |es|)
                   else published.(singles := published.singles + |es|);
    AlertingSteady(metered, env, now, AlertsOf(es));
    assert w.alerts + [] == w.alerts;
  }

  lemma PipelineSteady(w: World, wiring: Wiring, env: Env, now: Moment, es: seq<Event>, batch: bool)
    requires Steady(env, now)
    ensures var (next, verdict) := Pipeline(w, wiring, env, es, batch);
            var (q, outcome, _) := Charges(w.quotas, wiring, now, es);
            var charged := ContentOf(w).(quotas := q);
            if outcome != Admitted then verdict == Refused(outcome) && ContentOf(next) == charged
            else if !DistinctIds(w.stored + es) then verdict == StoreFailed && ContentOf(next) == charged
            else verdict == Accepted && ContentOf(next) == Gained(ContentOf(w), wiring, q, es)
  {
    ChargeAllSteady(w, wiring, env, now, es);
    var charged := ChargeAll(w, wiring, env, es).0;
    AnnounceSteady(charged.(stored := charged.stored + es, tick := charged.tick + 1), wiring, env, now, es, batch,
                   charged.quotas, ContentOf(w));
  }

  /** Single calls one after the other, up to the first that is not accepted; with the number accepted. */
  function OneByOne(w: World, wiring: Wiring, env: Env, es: seq<Event>): (r: (World, Verdict, nat))
    ensures r.2 <= |es|
    decreases |es|
  {
    if es == [] then (w, Accepted, 0)
    else
      var (next, verdict) := Pipeline(w, wiring, env, [es[0]], false);
      if verdict != Accepted then (next, verdict, 0)
      else
        var (last, final, n) := OneByOne(next, wiring, env, es[1..]);
        (last, final, n + 1)
  }

  lemma Assoc<T>(a: seq<T>, b: seq<T>, c: seq<T>)
    ensures a + b + c == a + (b + c)
  {
  }

  lemma GainedInParts(c: Content, wiring: Wiring, q: Quotas, r: Quotas, a: seq<Event>, b: seq<Event>)
    ensures Gained(Gained(c, wiring, q, a), wiring, r, b) == Gained(c, wiring, r, a + b)
  {
    AlertsAppend(a, b);
    Assoc(c.stored, a, b);
    Assoc(c.bus, a, b);
    Assoc(c.alerts, AlertsOf(a), AlertsOf(b));
    Assoc(c.alerts, [], []);
  }

  /** The first of a series of single calls, and what is left after it. */
  lemma FirstSingle(w: World, wiring: Wiring, env: Env, now: Moment, es: seq<Event>) returns (next: World)
    requires Steady(env, now) && es != []
    ensures var (q, outcome, k) := Charges(w.quotas, wiring, now, es);
            var all, rest := OneByOne(w, wiring, env, es), OneByOne(next, wiring, env, es[1..]);
            if k == 0 then all == (next, Refused(outcome), 0) && ContentOf(next) == ContentOf(w).(quotas := q)
            else if !DistinctIds(w.stored + [es[0]]) then all == (next, StoreFailed, 0)
            else && all == (rest.0, rest.1, rest.2 + 1)
                 && ContentOf(next) == Gained(ContentOf(w), wiring, next.quotas, [es[0]])
                 && Charges(next.quotas, wiring, now, es[1..]) == (q, outcome, k - 1)
  {
    PipelineSteady(w, wiring, env, now, [es[0]], false);
    ChargesFirst(w.quotas, wiring, now, es);
    next := Pipeline(w, wiring, env, [es[0]], false).0;
  }

  /** Charging a list is charging its first event and then, if that is admitted, the rest. */
  lemma ChargesFirst(quotas: Quotas, wiring: Wiring, now: Moment, es: seq<Event>)
    requires es != []
    ensures var (first, outcome, n) := Charges(quotas, wiring, now, [es[0]]);
            var (q, final, k) := Charges(quotas, wiring, now, es);
            if n == 0 then (q, final, k) == (first, outcome, 0)
            else k > 0 && Charges(first, wiring, now, es[1..]) == (q, final, k - 1)
  {
  }

  /**
   `single` is how single calls must end when charging the events gives `charges`: they accept exactly the
   events up to the first refused charge or repeated id.
   */
  ghost predicate Matches(
    w: World, wiring: Wiring, single: (World, Verdict, nat), charges: (Quotas, Outcome, nat), es: seq<Event>)
    requires charges.2 <= |es|
  {
    var (next, verdict, n) := single;
    var (q, outcome, k) := charges;
    if k > 0 && !DistinctIds(w.stored + es[..k]) then verdict == StoreFailed
    else && n == k && ContentOf(next) == Gained(ContentOf(w), wiring, q, es[..k])
         && verdict == if outcome == Admitted then Accepted else Refused(outcome)
  }

  lemma OneMoreAccepted(
    w: World, wiring: Wiring, e: Event, next: World, single: (World, Verdict, nat), charges: (Quotas, Outcome, nat),
    rest: seq<Event>)
    requires DistinctIds(w.stored + [e]) && ContentOf(next) == Gained(ContentOf(w), wiring, next.quotas, [e])
    requires charges.2 <= |rest| && Matches(next, wiring, single, charges, rest)
    ensures Matches(w, wiring, (single.0, single.1, single.2 + 1), (charges.0, charges.1, charges.2 + 1), [e] + rest)
  {
    var more := rest[..charges.2];
    assert ([e] + rest)[..charges.2 + 1] == [e] + more && w.stored + ([e] + more) == w.stored + [e] + more;
    assert charges.2 == 0 ==> w.stored + [e] + more == w.stored + [e];
    GainedInParts(ContentOf(w), wiring, next.quotas, charges.0, [e], more);
  }

  lemma NoneAccepted(
    w: World, wiring: Wiring, next: World, verdict: Verdict, q: Quotas, outcome: Outcome, es: seq<Event>)
    requires ContentOf(next) == ContentOf(w).(quotas := q)
    requires verdict == if outcome == Admitted then Accepted else Refused(outcome)
    ensures Matches(w, wiring, (next, verdict, 0), (q, outcome, 0), es)
  {
  }

  lemma FirstRepeated(w: World, wiring: Wiring, next: World, charges: (Quotas, Outcome, nat), es: seq<Event>)
    requires 0 < charges.2 <= |es| && !DistinctIds(w.stored + [es[0]])
    ensures Matches(w, wiring, (next, StoreFailed, 0), charges, es)
  {
    var more := es[1..][..charges.2 - 1];
    assert w.stored + es[..charges.2] == w.stored + [es[0]] + more;
    DistinctPrefix(w.stored + [es[0]], more);
  }

  lemma {:induction false} OneByOneSteady(w: World, wiring: Wiring, env: Env, now: Moment, es: seq<Event>)
    requires Steady(env, now)
    ensures Matches(w, wiring, OneByOne(w, wiring, env, es), Charges(w.quotas, wiring, now, es), es)
    decreases |es|
  {
    var charges := Charges(w.quotas, wiring, now, es);
    if es == [] {
      NoneAccepted(w, wiring, w, Accepted, w.quotas, Admitted, es);
    } else {
      var next := FirstSingle(w, wiring, env, now, es);
      if charges.2 == 0 {
        NoneAccepted(w, wiring, next, Refused(charges.1), charges.0, charges.1, es);
      } else if !DistinctIds(w.stored + [es[0]]) {
        FirstRepeated(w, wiring, next, charges, es);
      } else {
        var rest := es[1..];
        OneByOneSteady(next, wiring, env, now, rest);
        OneMoreAccepted(
          w, wiring, es[0], next, OneByOne(next, wiring, env, rest), Charges(next.quotas, wiring, now, rest), rest);
        assert es == [es[0]] + rest;
      }
    }
  }

  lemma DistinctPrefix(a: seq<Event>, b: seq<Event>)
    ensures DistinctIds(a + b) ==> DistinctIds(a)
  {
    if DistinctIds(a + b) {
      forall i, j | 0 <= i < j < |a|
        ensures a[i].id != a[j].id
      {
        assert (a + b)[i] == a[i] && (a + b)[j] == a[j];
      }
    }
  }

  /**
   A batch succeeds exactly when its events succeed one by one, and then leaves the same table of
   quotas, the same store, bus and alerts, and meters as many events.
   */
  lemma BatchAgreesWithSingles(w: World, wiring: Wiring, env: Env, now: Moment, es: seq<Event>)
    requires Steady(env, now) && DistinctIds(w.stored)
    ensures var (batch, verdict) := ServeBatch(w, wiring, env, es);
            var (single, last, _) := OneByOne(w, wiring, env, es);
            && (verdict == Accepted <==> last == Accepted)
            && (verdict == Accepted ==> ContentOf(batch) == ContentOf(single))
  {
    if es != [] {
      PipelineSteady(w, wiring, env, now, es, true);
      OneByOneSteady(w, wiring, env, now, es);
      assert es[..|es|] == es;
    }
  }

  /** How many events of a list are charged before the first refusal. */
  function ChargesMade(w: World, wiring: Wiring, env: Env, es: seq<Event>): (k: nat)
    ensures k <= |es| && (k == |es| <==> ChargeAll(w, wiring, env, es).1 == Admitted)
    decreases |es|
  {
    if es == [] then 0
    else
      var (next, outcome) := ChargeOne(w, wiring, env, es[0].tenant);
      if outcome != Admitted then 0 else 1 + ChargesMade(next, wiring, env, es[1..])
  }

  /**
   Whatever fails and however the clock runs: a batch that is refused at event k changes nothing but the quota
   table, where it keeps the charges of exactly the k events before.
   */
  lemma RefusedBatchKeepsCharges(w: World, wiring: Wiring, env: Env, es: seq<Event>)
    requires ServeBatch(w, wiring, env, es).1.Refused?
    ensures var batch := ServeBatch(w, wiring, env, es).0;
            var k := ChargesMade(w, wiring, env, es);
            && wiring.quota && k < |es|
            && batch == w.(quotas := batch.quotas, tick := batch.tick)
            && forall t :: Charged(batch.quotas, t) == Charged(w.quotas, t) + StoredFor(es[..k], t)
  {
    NeverRefusedUnlimited(w, wiring, env, es);
    ChargeAllCounts(w, wiring, env, es);
    forall t
      ensures Charged(ChargeAll(w, wiring, env, es).0.quotas, t)
           == Charged(w.quotas, t) + StoredFor(es[..ChargesMade(w, wiring, env, es)], t)
    {
      ChargesMadeCount(w, wiring, env, es, t);
    }
  }

  /** A call that is not refused charges each of its events once to the event's own tenant, stored or not. */
  lemma UnrefusedChargesAll(w: World, wiring: Wiring, env: Env, es: seq<Event>, batch: bool)
    requires wiring.quota && !Pipeline(w, wiring, env, es, batch).1.Refused?
    ensures var n := Pipeline(w, wiring, env, es, batch).0;
            forall t :: Charged(n.quotas, t) == Charged(w.quotas, t) + StoredFor(es, t)
  {
    forall t
      ensures Charged(ChargeAll(w, wiring, env, es).0.quotas, t) == Charged(w.quotas, t) + StoredFor(es, t)
    {
      ChargesMadeCount(w, wiring, env, es, t);
      assert es[..|es|] == es;
    }
  }

  lemma {:induction false} NeverRefusedUnlimited(w: World, wiring: Wiring, env: Env, es: seq<Event>)
    ensures !wiring.quota ==> ChargeAll(w, wiring, env, es).1 == Admitted
    decreases |es|
  {
    if es != [] && !wiring.quota {
      NeverRefusedUnlimited(w, wiring, env, es[1..]);
    }
  }

  lemma StoredForFirst(e: Event, es: seq<Event>, tenant: string)
    ensures StoredFor([e] + es, tenant) == (if e.tenant == tenant then 1 else 0) + StoredFor(es, tenant)
  {
    assert ([e] + es)[1..] == es;
  }

  lemma {:induction false} ChargesMadeCount(w: World, wiring: Wiring, env: Env, es: seq<Event>, t: string)
    requires wiring.quota
    ensures Charged(ChargeAll(w, wiring, env, es).0.quotas, t)
         == Charged(w.quotas, t) + StoredFor(es[..ChargesMade(w, wiring, env, es)], t)
    decreases |es|
  {
    if es != [] {
      var (next, outcome) := ChargeOne(w, wiring, env, es[0].tenant);
      ChargeOneCounts(w, wiring, env, es[0].tenant);
      if outcome == Admitted {
        var k := ChargesMade(next, wiring, env, es[1..]);
        ChargesMadeCount(next, wiring, env, es[1..], t);
        StoredForFirst(es[0], es[1..][..k], t);
        assert es[..k + 1] == [es[0]] + es[1..][..k];
      }
    }
  }

  /**
   At a fixed clock with nothing failing a refused batch keeps the charges that single calls would have made
   before the same refusal; the single calls keep their events too.
   */
  lemma RefusedBatchAgainstSingles(w: World, wiring: Wiring, env: Env, now: Moment, es: seq<Event>)
    requires Steady(env, now)
    requires Charges(w.quotas, wiring, now, es).1 != Admitted
    requires DistinctIds(w.stored + es[..Charges(w.quotas, wiring, now, es).2])
    ensures var (batch, verdict) := ServeBatch(w, wiring, env, es);
            var (single, last, k) := OneByOne(w, wiring, env, es);
            && verdict.Refused? && verdict == last && k < |es|
            && ContentOf(batch) == ContentOf(w).(quotas := single.quotas)
            && ContentOf(single) == Gained(ContentOf(w), wiring, single.quotas, es[..k])
  {
    PipelineSteady(w, wiring, env, now, es, true);
    OneByOneSteady(w, wiring, env, now, es);
  }
}
