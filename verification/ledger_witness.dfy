/** Concrete runs: one shows that a bound on resets is sharp, one that a reset can report a limit that has expired. */
module QuotaWitness {
  import opened Wrappers
  import opened Enums
  import opened Calendar
  import opened Quota
  import opened QuotaLedger
  import opened QuotaLimits
  import opened QuotaReports

  function January(day: int): Moment
    requires 1 <= day <= 31
  {
    Instant(2025, 1, day, 0)
  }

  function Call(kind: Kind, t: Moment): Op {
    Op(kind, t, t, NoFault)
  }

  function Charging(t: Moment, n: nat): seq<Op> {
    if n == 0 then [] else [Call(Charge, t)] + Charging(t, n - 1)
  }

  lemma {:induction false} ChargingInOrder(clock: Moment, t: Moment, n: nat)
    requires !Before(t, clock)
    ensures InOrder(clock, Charging(t, n)) && (n > 0 ==> Clock(clock, Charging(t, n)) == t)
    decreases n
  {
    if n > 0 {
      ChargingInOrder(t, t, n - 1);
      assert Charging(t, n)[1..] == Charging(t, n - 1);
      assert n == 1 ==> Charging(t, n - 1) == [];
    }
  }

  /** A ledger with given counts for the date and the month of `t`. */
  predicate Holds(l: Ledger, tier: Tier, t: Moment, today: nat, month: nat, resets: nat) {
    && l.tier == tier && Past(l.log, t)
    && SinceReset(l.log, t) == today && InMonth(l.log, t) == month && Tally(l.log, ResetsInMonth(t)) == resets
  }

  lemma OneEntry(l: Ledger, tier: Tier, t: Moment, today: nat, month: nat, resets: nat, e: Entry)
    requires Holds(l, tier, t, today, month, resets) && e.at == t
    ensures Holds(l.(log := l.log + [e]), tier, t, if e.Admit? then today + 1 else 0,
                  if e.Admit? then month + 1 else month, if e.Admit? then resets else resets + 1)
  {
    assert (l.log + [e])[..|l.log|] == l.log;
  }

  lemma OneCharge(l: Ledger, tier: Tier, t: Moment, today: nat, month: nat, resets: nat)
    requires Holds(l, tier, t, today, month, resets)
    requires today < LimitsForTier(tier).0 && month < LimitsForTier(tier).1
    ensures Holds(Step(l, Call(Charge, t)).0, tier, t, today + 1, month + 1, resets)
  {
    OneEntry(l, tier, t, today, month, resets, Admit(t));
  }

  lemma {:induction false} ChargingHolds(
    l: Ledger, tier: Tier, t: Moment, today: nat, month: nat, resets: nat, n: nat)
    requires Holds(l, tier, t, today, month, resets)
    requires today + n <= LimitsForTier(tier).0 && month + n <= LimitsForTier(tier).1
    ensures Holds(RunLedger(l, Charging(t, n)).0, tier, t, today + n, month + n, resets)
    decreases n
  {
    if n > 0 {
      OneCharge(l, tier, t, today, month, resets);
      assert Charging(t, n)[1..] == Charging(t, n - 1);
      ChargingHolds(Step(l, Call(Charge, t)).0, tier, t, today + 1, month + 1, resets, n - 1);
    }
  }

  /** The ledger as a later date of the same month begins: nothing has been admitted on that date. */
  lemma NewDate(l: Ledger, tier: Tier, s: Moment, t: Moment, today: nat, month: nat, resets: nat)
    requires Holds(l, tier, s, today, month, resets) && SameMonth(s, t) && s.day < t.day
    ensures Holds(l, tier, t, 0, month, resets)
  {
    NoEntryOnDate(l.log, t);
    TallyCongruent(l.log, AdmitsInMonth(s), AdmitsInMonth(t));
    TallyCongruent(l.log, ResetsInMonth(s), ResetsInMonth(t));
  }

  // ---- Twenty resets on the enterprise tier ----

  // 100,000 events on each of 30 days, then 20 times over on the 31st with a reset after each: the month
  // reaches 5,000,000 with the daily counter at 0.

  /** The day of round `r`: one round on each of the first 30 days, every later round on the 31st. */
  function DayOf(r: nat): Moment {
    January(if r < 30 then r + 1 else 31)
  }

  function Round(r: nat): seq<Op> {
    Charging(DayOf(r), HIGHEST_DAILY) + if r < 30 then [] else [Call(ResetDaily, DayOf(r))]
  }

  function Rounds(r: nat): seq<Op> {
    if r == 0 then [Call(Provision(Enterprise), January(1))] else Rounds(r - 1) + Round(r - 1)
  }

  /** After `r` rounds: 100,000 admissions each, and one reset for each round on the 31st. */
  lemma {:induction false} AfterRounds(r: nat)
    requires r <= 50
    ensures Holds(RunLedger(NEW_LEDGER, Rounds(r)).0, Enterprise, DayOf(r), 0, 100_000 * r,
                  if r < 30 then 0 else r - 30)
    ensures InOrder(January(1), Rounds(r)) && !Before(DayOf(r), Clock(January(1), Rounds(r)))
  {
    if r == 0 {
      assert Rounds(0)[1..] == [];
    } else {
      AfterRounds(r - 1);
      RoundAfter(Rounds(r - 1), r - 1);
    }
  }

  lemma RoundAfter(before: seq<Op>, r: nat)
    requires r < 50
    requires Holds(RunLedger(NEW_LEDGER, before).0, Enterprise, DayOf(r), 0, 100_000 * r, if r < 30 then 0 else r - 30)
    requires InOrder(January(1), before) && !Before(DayOf(r), Clock(January(1), before))
    ensures Holds(RunLedger(NEW_LEDGER, before + Round(r)).0, Enterprise, DayOf(r + 1), 0, 100_000 * (r + 1),
                  if r + 1 < 30 then 0 else r + 1 - 30)
    ensures InOrder(January(1), before + Round(r))
    ensures !Before(DayOf(r + 1), Clock(January(1), before + Round(r)))
  {
    OneRound(RunLedger(NEW_LEDGER, before).0, r, Clock(January(1), before));
    RunLedgerInParts(NEW_LEDGER, before, Round(r));
    OrderInParts(January(1), before, Round(r));
  }

  lemma OneRound(l: Ledger, r: nat, clock: Moment)
    requires r < 50 && Holds(l, Enterprise, DayOf(r), 0, 100_000 * r, if r < 30 then 0 else r - 30)
    requires !Before(DayOf(r), clock)
    ensures Holds(RunLedger(l, Round(r)).0, Enterprise, DayOf(r + 1), 0, 100_000 * (r + 1),
                  if r + 1 < 30 then 0 else r + 1 - 30)
    ensures InOrder(clock, Round(r)) && !Before(DayOf(r + 1), Clock(clock, Round(r)))
  {
    var charges := Charging(DayOf(r), HIGHEST_DAILY);
    ChargingHolds(l, Enterprise, DayOf(r), 0, 100_000 * r, if r < 30 then 0 else r - 30, HIGHEST_DAILY);
    ChargingInOrder(clock, DayOf(r), HIGHEST_DAILY);
    if r < 30 {
      assert Round(r) == charges;
      NewDate(RunLedger(l, charges).0, Enterprise, DayOf(r), DayOf(r + 1), 100_000, 100_000 * (r + 1), 0);
    } else {
      ThenReset(l, charges, January(31), 100_000 * (r + 1), r - 30, clock);
    }
  }

  lemma ThenReset(l: Ledger, charges: seq<Op>, t: Moment, month: nat, resets: nat, clock: Moment)
    requires Holds(RunLedger(l, charges).0, Enterprise, t, 100_000, month, resets)
    requires InOrder(clock, charges) && Clock(clock, charges) == t
    ensures Holds(RunLedger(l, charges + [Call(ResetDaily, t)]).0, Enterprise, t, 0, month, resets + 1)
    ensures InOrder(clock, charges + [Call(ResetDaily, t)]) && Clock(clock, charges + [Call(ResetDaily, t)]) == t
  {
    var reset := Call(ResetDaily, t);
    OneEntry(RunLedger(l, charges).0, Enterprise, t, 100_000, month, resets, Reset(t));
    RunLedgerInParts(l, charges, [reset]);
    assert [reset][1..] == [];
    OrderInParts(clock, charges, [reset]);
  }

  lemma RefusedNext(c: Cell, l: Ledger, clock: Moment, op: Op)
    requires Tracks(c, l, clock) && !Before(op.created, clock) && !Before(op.at, op.created)
    requires Holds(l, Enterprise, op.at, 0, 5_000_000, 20) && op.kind.Charge? && op.fault.NoFault?
    ensures c.row.Some? && c.row.value.tier == Enterprise && c.log == l.log && Apply(c, op).1 == MonthlyRefused
  {
    StepSimulates(c, l, clock, op);
  }

  /** Twenty resets in a month are enough for an enterprise tenant to be refused for its monthly limit. */
  lemma TwentyResetsCanRefuse() returns (start: Moment, ops: seq<Op>, op: Op)
    ensures InOrder(start, ops) && !Before(op.created, Clock(start, ops)) && !Before(op.at, op.created)
    ensures var c := Run(NEW_TENANT, ops).0;
            && c.row.Some? && c.row.value.tier == Enterprise
            && Tally(c.log, ResetsInMonth(op.at)) == 20
            && Apply(c, op).1 == MonthlyRefused
  {
    var rounds := 50;
    start, ops, op := January(1), Rounds(rounds), Call(Charge, DayOf(rounds));
    AfterRounds(rounds);
    CountersDecideByRecount(NEW_TENANT, NEW_LEDGER, start, ops);
    RefusedNext(Run(NEW_TENANT, ops).0, RunLedger(NEW_LEDGER, ops).0, Clock(start, ops), op);
  }

  // ---- A full month on the starter tier, then a reset in the next one ----

  /** 1,000 charges on each of the first `d` days of January. */
  function FullDaysOf(d: nat): seq<Op>
    requires d <= 31
  {
    if d == 0 then [] else FullDaysOf(d - 1) + Charging(January(d), 1_000)
  }

  lemma {:induction false} AfterFullDays(d: nat)
    requires d <= 20
    ensures Holds(RunLedger(NEW_LEDGER, FullDaysOf(d)).0, Starter, January(d + 1), 0, 1_000 * d, 0)
    ensures InOrder(January(1), FullDaysOf(d)) && !Before(January(d + 1), Clock(January(1), FullDaysOf(d)))
    ensures d > 0 ==> Clock(January(1), FullDaysOf(d)) == January(d)
  {
    if d > 0 {
      var l, clock := RunLedger(NEW_LEDGER, FullDaysOf(d - 1)).0, Clock(January(1), FullDaysOf(d - 1));
      AfterFullDays(d - 1);
      ChargingHolds(l, Starter, January(d), 0, 1_000 * (d - 1), 0, 1_000);
      ChargingInOrder(clock, January(d), 1_000);
      NewDate(RunLedger(l, Charging(January(d), 1_000)).0, Starter, January(d), January(d + 1), 1_000, 1_000 * d, 0);
      RunLedgerInParts(NEW_LEDGER, FullDaysOf(d - 1), Charging(January(d), 1_000));
      OrderInParts(January(1), FullDaysOf(d - 1), Charging(January(d), 1_000));
    }
  }

  /** A row that has seen an admission in the month of the clock has its month window there, with the whole count. */
  lemma MonthIsStored(c: Cell, l: Ledger, clock: Moment)
    requires Tracks(c, l, clock) && InMonth(l.log, clock) > 0
    ensures c.row.Some? && SameMonth(c.row.value.monthStart, clock) && c.row.value.month == InMonth(l.log, clock)
  {
    var row := c.row.value;
    DateOrder(row.dayStart, clock);
    DateOrder(row.monthStart, clock);
    if MonthNumber(row.monthStart) < MonthNumber(clock) {
      TallyNone(l.log, AdmitsInMonth(clock));
    }
    TallyCongruent(l.log, AdmitsInMonth(row.monthStart), AdmitsInMonth(clock));
  }

  lemma FullMonth() returns (ops: seq<Op>)
    ensures InOrder(January(1), ops) && Clock(January(1), ops) == January(20)
    ensures Holds(RunLedger(NEW_LEDGER, ops).0, Starter, January(21), 0, 20_000, 0)
  {
    var d := 20;
    ops := FullDaysOf(d);
    AfterFullDays(d);
  }

  lemma StaleThenAdmitted(start: Moment, ops: seq<Op>, reset: Op, charge: Op)
    requires InOrder(start, ops) && Clock(start, ops) == January(20)
    requires Holds(RunLedger(NEW_LEDGER, ops).0, Starter, January(21), 0, 20_000, 0)
    requires var february := Instant(2025, 2, 1, 0);
             reset == Call(ResetDaily, february) && charge == Call(Charge, february)
    ensures var c := Run(NEW_TENANT, ops).0;
            && Apply(c, reset).1 == Done
            && ResetStatusOf(c, reset).overMonthly
            && Apply(Apply(c, reset).0, charge).1 == Admitted
  {
    var c, l := Run(NEW_TENANT, ops).0, RunLedger(NEW_LEDGER, ops).0;
    CountersDecideByRecount(NEW_TENANT, NEW_LEDGER, start, ops);
    TallyCongruent(l.log, AdmitsInMonth(January(21)), AdmitsInMonth(January(20)));
    MonthIsStored(c, l, January(20));
    ResetStatusMayBeStale(start, ops, reset.created, reset.at);
  }

  /** After 20,000 events in January a daily reset in February reports the monthly limit; the next event is admitted. */
  lemma StaleResetStatus() returns (start: Moment, ops: seq<Op>, reset: Op, charge: Op)
    ensures reset.kind.ResetDaily? && charge.kind.Charge? && InOrder(start, ops + [reset, charge])
    ensures var c := Run(NEW_TENANT, ops).0;
            && Apply(c, reset).1 == Done
            && ResetStatusOf(c, reset).overMonthly
            && Apply(Apply(c, reset).0, charge).1 == Admitted
  {
    var february := Instant(2025, 2, 1, 0);
    start, reset, charge := January(1), Call(ResetDaily, february), Call(Charge, february);
    ops := FullMonth();
    OrderInParts(start, ops, [reset, charge]);
    StaleThenAdmitted(start, ops, reset, charge);
  }
}
