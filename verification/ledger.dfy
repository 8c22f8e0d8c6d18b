/**
 The quota counters against the history they summarise. A `Ledger` keeps no counters and no
 windows: it decides every charge by recounting the history. The counters are proved to make
 the same decisions in every run.
 */
module QuotaLedger {
  import opened Wrappers
  import opened Enums
  import opened Calendar
  import opened Quota

  // ---- Recounting a history ----

  /** Admissions on the date of `t` since the last reset on that date. */
  function SinceReset(log: seq<Entry>, t: Moment): nat {
    if log == [] then 0
    else
      var e, before := log[|log| - 1], SinceReset(log[..|log| - 1], t);
      if !SameDate(e.at, t) then before else if e.Reset? then 0 else before + 1
  }

  function Tally(log: seq<Entry>, counted: Entry -> bool): nat {
    if log == [] then 0
    else Tally(log[..|log| - 1], counted) + if counted(log[|log| - 1]) then 1 else 0
  }

  function AdmitsInMonth(t: Moment): Entry -> bool {
    (e: Entry) => e.Admit? && SameMonth(e.at, t)
  }

  function ResetsInMonth(t: Moment): Entry -> bool {
    (e: Entry) => e.Reset? && SameMonth(e.at, t)
  }

  function AdmitsOn(t: Moment): Entry -> bool {
    (e: Entry) => e.Admit? && SameDate(e.at, t)
  }

  function ResetsOn(t: Moment): Entry -> bool {
    (e: Entry) => e.Reset? && SameDate(e.at, t)
  }

  function InMonth(log: seq<Entry>, t: Moment): nat {
    Tally(log, AdmitsInMonth(t))
  }

  // ---- The reference: decisions by recount ----

  datatype Ledger = Ledger(tier: Tier, log: seq<Entry>)

  const NEW_LEDGER := Ledger(Starter, [])

  function Decide(l: Ledger, now: Moment): Outcome {
    var (daily, monthly) := LimitsForTier(l.tier);
    if SinceReset(l.log, now) >= daily then DailyRefused
    else if InMonth(l.log, now) >= monthly then MonthlyRefused
    else Admitted
  }

  function Step(l: Ledger, op: Op): (Ledger, Outcome) {
    if op.fault == LoadFails then (l, Failed)
    else
      match op.kind
      case Charge =>
        var decision := Decide(l, op.at);
        if decision != Admitted then (l, decision)
        else if op.fault == CommitFails then (l, Failed)
        else (l.(log := l.log + [Admit(op.at)]), Admitted)
      case Provision(tier) => if op.fault == CommitFails then (l, Failed) else (l.(tier := tier), Done)
      case Status => (l, if op.fault == CommitFails then Failed else Done)
      case ResetDaily => if op.fault == CommitFails then (l, Failed) else (l.(log := l.log + [Reset(op.at)]), Done)
  }

  // ---- Runs ----

  function Run(c: Cell, ops: seq<Op>): (Cell, seq<Outcome>)
    decreases |ops|
  {
    if ops == [] then (c, [])
    else
      var (next, outcome) := Apply(c, ops[0]);
      var (last, outcomes) := Run(next, ops[1..]);
      (last, [outcome] + outcomes)
  }

  function RunLedger(l: Ledger, ops: seq<Op>): (Ledger, seq<Outcome>)
    decreases |ops|
  {
    if ops == [] then (l, [])
    else
      var (next, outcome) := Step(l, ops[0]);
      var (last, outcomes) := RunLedger(next, ops[1..]);
      (last, [outcome] + outcomes)
  }

  /** The clock never goes back from `clock` on. */
  predicate InOrder(clock: Moment, ops: seq<Op>)
    decreases |ops|
  {
    ops == [] ||
    (!Before(ops[0].created, clock) && !Before(ops[0].at, ops[0].created) && InOrder(ops[0].at, ops[1..]))
  }

  function Clock(clock: Moment, ops: seq<Op>): Moment
    decreases |ops|
  {
    if ops == [] then clock else Clock(ops[0].at, ops[1..])
  }

  lemma NotBeforeTransitive(a: Moment, b: Moment, c: Moment)
    requires !Before(b, a) && !Before(c, b)
    ensures !Before(c, a)
  {
  }

  lemma {:induction false} OrderInParts(clock: Moment, a: seq<Op>, b: seq<Op>)
    requires InOrder(clock, a) && InOrder(Clock(clock, a), b)
    ensures InOrder(clock, a + b) && Clock(clock, a + b) == Clock(Clock(clock, a), b)
    decreases |a|
  {
    if a == [] {
      assert a + b == b;
    } else {
      assert (a + b)[1..] == a[1..] + b;
      OrderInParts(a[0].at, a[1..], b);
    }
  }

  lemma {:induction false} RunInParts(c: Cell, a: seq<Op>, b: seq<Op>)
    ensures Run(c, a + b).0 == Run(Run(c, a).0, b).0
    decreases |a|
  {
    if a == [] {
      assert a + b == b;
    } else {
      assert (a + b)[1..] == a[1..] + b;
      RunInParts(Apply(c, a[0]).0, a[1..], b);
    }
  }

  lemma {:induction false} RunLedgerInParts(l: Ledger, a: seq<Op>, b: seq<Op>)
    ensures RunLedger(l, a + b).0 == RunLedger(RunLedger(l, a).0, b).0
    decreases |a|
  {
    if a == [] {
      assert a + b == b;
    } else {
      assert (a + b)[1..] == a[1..] + b;
      RunLedgerInParts(Step(l, a[0]).0, a[1..], b);
    }
  }

  // ---- The simulation ----

  predicate Past(log: seq<Entry>, t: Moment) {
    forall e :: e in log ==> DayNumber(e.at) <= DayNumber(t)
  }

  /** The row summarises the history: each counter is the recount at the start of its own window. */
  predicate Summarises(row: Row, l: Ledger, clock: Moment) {
    && row.tier == l.tier && (row.dailyLimit, row.monthlyLimit) == LimitsForTier(l.tier)
    && DayNumber(row.dayStart) <= DayNumber(clock) && MonthNumber(row.monthStart) <= MonthNumber(row.dayStart)
    && Past(l.log, row.dayStart)
    && (forall e :: e in l.log && e.Admit? ==> MonthNumber(e.at) <= MonthNumber(row.monthStart))
    && row.today == SinceReset(l.log, row.dayStart)
    && row.month == InMonth(l.log, row.monthStart)
  }

  predicate Tracks(c: Cell, l: Ledger, clock: Moment) {
    && c.log == l.log
    && if c.row.Some? then Summarises(c.row.value, l, clock) else l == NEW_LEDGER
  }

  lemma {:induction false} NoEntryOnDate(log: seq<Entry>, t: Moment)
    requires forall e :: e in log ==> !SameDate(e.at, t)
    ensures SinceReset(log, t) == 0
  {
    if log != [] {
      var init := log[..|log| - 1];
      assert log == init + [log[|log| - 1]];
      NoEntryOnDate(init, t);
    }
  }

  lemma {:induction false} SameDateSameRecount(log: seq<Entry>, s: Moment, t: Moment)
    requires SameDate(s, t)
    ensures SinceReset(log, s) == SinceReset(log, t)
  {
    if log != [] {
      SameDateSameRecount(log[..|log| - 1], s, t);
    }
  }

  lemma {:induction false} TallyCongruent(log: seq<Entry>, p: Entry -> bool, q: Entry -> bool)
    requires forall e :: e in log ==> p(e) == q(e)
    ensures Tally(log, p) == Tally(log, q)
  {
    if log != [] {
      assert log == log[..|log| - 1] + [log[|log| - 1]];
      TallyCongruent(log[..|log| - 1], p, q);
    }
  }

  lemma {:induction false} TallyNone(log: seq<Entry>, p: Entry -> bool)
    requires forall e :: e in log ==> !p(e)
    ensures Tally(log, p) == 0
  {
    if log != [] {
      assert log == log[..|log| - 1] + [log[|log| - 1]];
      TallyNone(log[..|log| - 1], p);
    }
  }

  /** At any later instant the rolled counters are the recount at that instant. */
  lemma RollingRecounts(row: Row, l: Ledger, clock: Moment, now: Moment)
    requires Summarises(row, l, clock) && !Before(now, clock)
    ensures Summarises(Rolled(row, now), l, now)
    ensures Rolled(row, now).today == SinceReset(l.log, now)
    ensures Rolled(row, now).month == InMonth(l.log, now)
    ensures SameDate(Rolled(row, now).dayStart, now) && SameMonth(Rolled(row, now).monthStart, now)
  {
    DateOrder(clock, now);
    DateOrder(row.dayStart, now);
    BeforeMonthStart(row.monthStart, now);
    forall e | e in l.log {
      DateOrder(e.at, now);
    }
    if DateBefore(row.dayStart, now) {
      NoEntryOnDate(l.log, now);
    } else {
      SameDateSameRecount(l.log, row.dayStart, now);
    }
    if Before(row.monthStart, MonthStart(now)) {
      TallyNone(l.log, AdmitsInMonth(now));
    } else {
      TallyCongruent(l.log, AdmitsInMonth(row.monthStart), AdmitsInMonth(now));
    }
  }

  lemma LoadedTracks(c: Cell, l: Ledger, clock: Moment, created: Moment)
    requires Tracks(c, l, clock) && !Before(created, clock)
    ensures Tracks(c.(row := Some(LoadedRow(c, created))), l, created)
  {
  }

  lemma AdmitTracks(row: Row, l: Ledger, now: Moment)
    requires Summarises(row, l, now) && SameDate(row.dayStart, now) && SameMonth(row.monthStart, now)
    ensures Summarises(row.(today := row.today + 1, month := row.month + 1), l.(log := l.log + [Admit(now)]), now)
  {
  }

  lemma ResetTracks(row: Row, l: Ledger, clock: Moment, now: Moment)
    requires Summarises(row, l, clock) && !Before(now, clock)
    ensures Summarises(row.(today := 0, dayStart := now), l.(log := l.log + [Reset(now)]), now)
  {
  }

  /** The decision from the rolled counters is the decision by recount. */
  lemma AdmissionIsDecision(row: Row, l: Ledger, clock: Moment, now: Moment)
    requires Summarises(row, l, clock) && !Before(now, clock)
    ensures Admission(Rolled(row, now)) == Decide(l, now)
  {
    RollingRecounts(row, l, clock, now);
  }

  /** A charge ends in one of three cells: the old one, the loaded one, or the one that counts the event. */
  lemma ChargeSimulates(c: Cell, l: Ledger, loaded: Row, row: Row, op: Op)
    requires op.kind.Charge? && loaded == LoadedRow(c, op.created) && row == Rolled(loaded, op.at) && c.log == l.log
    requires Admission(row) == Decide(l, op.at)
    requires Tracks(c, l, op.at) && Tracks(Cell(Some(loaded), c.log), l, op.at)
    requires Tracks(Counted(c, row, op.at), l.(log := l.log + [Admit(op.at)]), op.at)
    ensures Apply(c, op).1 == Step(l, op).1
    ensures Tracks(Apply(c, op).0, Step(l, op).0, op.at)
  {
    ChargeEnds(c, loaded, row, op);
    if op.fault == LoadFails || Decide(l, op.at) != Admitted || op.fault == CommitFails {
      assert Step(l, op).0 == l;
    } else {
      assert Step(l, op).0 == l.(log := l.log + [Admit(op.at)]);
    }
  }

  lemma ChargeEnds(c: Cell, loaded: Row, row: Row, op: Op)
    requires op.kind.Charge? && loaded == LoadedRow(c, op.created) && row == Rolled(loaded, op.at)
    ensures Apply(c, op) ==
            if op.fault == LoadFails then (c, Failed)
            else if Admission(row) != Admitted then (Cell(Some(loaded), c.log), Admission(row))
            else if op.fault == CommitFails then (Cell(Some(loaded), c.log), Failed)
            else (Counted(c, row, op.at), Admitted)
  {
  }

  function Counted(c: Cell, row: Row, at: Moment): Cell {
    Cell(Some(row.(today := row.today + 1, month := row.month + 1)), c.log + [Admit(at)])
  }

  lemma ClockAdvances(c: Cell, l: Ledger, clock: Moment, now: Moment)
    requires Tracks(c, l, clock) && !Before(now, clock)
    ensures Tracks(c, l, now)
  {
  }

  lemma ChargeInStep(c: Cell, l: Ledger, loaded: Row, op: Op)
    requires op.kind.Charge? && loaded == LoadedRow(c, op.created) && !Before(op.at, op.created)
    requires Summarises(loaded, l, op.created) && Tracks(c, l, op.at) && Tracks(Cell(Some(loaded), c.log), l, op.at)
    ensures Apply(c, op).1 == Step(l, op).1
    ensures Tracks(Apply(c, op).0, Step(l, op).0, op.at)
  {
    var row := Rolled(loaded, op.at);
    AdmissionIsDecision(loaded, l, op.created, op.at);
    RollingRecounts(loaded, l, op.created, op.at);
    AdmitTracks(row, l, op.at);
    ChargeSimulates(c, l, loaded, row, op);
  }

  /** One call: the counters and the recount give the same answer, and stay in step. */
  lemma StepSimulates(c: Cell, l: Ledger, clock: Moment, op: Op)
    requires Tracks(c, l, clock)
    requires !Before(op.created, clock) && !Before(op.at, op.created)
    ensures Apply(c, op).1 == Step(l, op).1
    ensures Tracks(Apply(c, op).0, Step(l, op).0, op.at)
  {
    ClockAdvances(c, l, clock, op.created);
    ClockAdvances(c, l, op.created, op.at);
    LoadedTracks(c, l, clock, op.created);
    var loaded := LoadedRow(c, op.created);
    ClockAdvances(c.(row := Some(loaded)), l, op.created, op.at);
    match op.kind {
      case Charge => ChargeInStep(c, l, loaded, op);
      case Status => RollingRecounts(loaded, l, op.created, op.at);
      case ResetDaily => ResetTracks(loaded, l, op.created, op.at);
      case Provision(_) =>
    }
  }

  /** Every run from a new tenant: same decisions as by recount, and the counters still summarise the history. */
  lemma {:induction false} CountersDecideByRecount(c: Cell, l: Ledger, clock: Moment, ops: seq<Op>)
    requires Tracks(c, l, clock) && InOrder(clock, ops)
    ensures Run(c, ops).1 == RunLedger(l, ops).1
    ensures Tracks(Run(c, ops).0, RunLedger(l, ops).0, Clock(clock, ops))
    decreases |ops|
  {
    if ops != [] {
      StepSimulates(c, l, clock, ops[0]);
      CountersDecideByRecount(Apply(c, ops[0]).0, Step(l, ops[0]).0, ops[0].at, ops[1..]);
    }
  }

  /** After every run, at every later instant, the rolled row is the recount of the history. */
  lemma RolledRowIsRecount(start: Moment, ops: seq<Op>, now: Moment)
    requires InOrder(start, ops) && !Before(now, Clock(start, ops))
    ensures var c := Run(NEW_TENANT, ops).0;
            c.row.Some? ==>
              var r := Rolled(c.row.value, now);
              r.today == SinceReset(c.log, now) && r.month == InMonth(c.log, now)
  {
    CountersDecideByRecount(NEW_TENANT, NEW_LEDGER, start, ops);
    var c, l := Run(NEW_TENANT, ops).0, RunLedger(NEW_LEDGER, ops).0;
    if c.row.Some? {
      RollingRecounts(c.row.value, l, Clock(start, ops), now);
    }
  }

  // ---- The daily counter never passes the monthly one ----

  lemma {:induction false} TodayWithinMonth(log: seq<Entry>, t: Moment)
    ensures SinceReset(log, t) <= InMonth(log, t)
  {
    if log != [] {
      TodayWithinMonth(log[..|log| - 1], t);
    }
  }

  /** In every reachable row `today <= month`, rolled or not: a day window ahead of the month window holds nothing. */
  lemma StoredTodayWithinMonth(start: Moment, ops: seq<Op>)
    requires InOrder(start, ops)
    ensures var c := Run(NEW_TENANT, ops).0;
            c.row.Some? ==>
              var r := c.row.value;
              r.today <= r.month && (MonthNumber(r.monthStart) < MonthNumber(r.dayStart) ==> r.today == 0)
  {
    CountersDecideByRecount(NEW_TENANT, NEW_LEDGER, start, ops);
    var c, l, clock := Run(NEW_TENANT, ops).0, RunLedger(NEW_LEDGER, ops).0, Clock(start, ops);
    if c.row.Some? {
      var r := c.row.value;
      assert Summarises(r, l, clock);
      TodayWithinMonth(c.log, r.dayStart);
      if MonthNumber(r.monthStart) < MonthNumber(r.dayStart) {
        TallyNone(c.log, AdmitsInMonth(r.dayStart));
      } else {
        TallyCongruent(c.log, AdmitsInMonth(r.monthStart), AdmitsInMonth(r.dayStart));
      }
    }
  }
}
