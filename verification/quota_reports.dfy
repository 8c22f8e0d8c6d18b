/** What the status reports of the quota service promise, and which calls later reports can see. */
module QuotaReports {
  import opened Wrappers
  import opened Enums
  import opened Calendar
  import opened Quota
  import opened QuotaLedger

  // ---- A report and the charges that follow it ----

  /** Whether `n` charges in a row at the instant `now`, with nothing failing, are all admitted. */
  predicate AllAdmitted(c: Cell, now: Moment, n: nat)
    decreases n
  {
    n == 0 ||
    var (next, outcome) := Apply(c, Op(Charge, now, now, NoFault));
    outcome == Admitted && AllAdmitted(next, now, n - 1)
  }

  /** A status read tells exactly how many more events will be admitted at that instant. */
  lemma {:induction false} StatusPredictsCharges(c: Cell, now: Moment, n: nat)
    requires c.row.Some? && Rolled(c.row.value, now) == c.row.value
    ensures var s := ToStatus(c.row.value);
            AllAdmitted(c, now, n) <==> n <= s.dailyRemaining && n <= s.monthlyRemaining
    decreases n
  {
    if n > 0 {
      var (next, outcome) := Apply(c, Op(Charge, now, now, NoFault));
      if outcome == Admitted {
        StatusPredictsCharges(next, now, n - 1);
      }
    }
  }

  /** Which limit refuses the first charge that fails after `n` admitted ones, all at the instant `now`. */
  function RefusalAfter(c: Cell, now: Moment, n: nat): Outcome
    decreases n
  {
    var (next, outcome) := Apply(c, Op(Charge, now, now, NoFault));
    if n == 0 then outcome else RefusalAfter(next, now, n - 1)
  }

  /**
   Of the charges at the instant of a status read, the first refusal is a daily one exactly if the daily
   remaining count is at most the monthly one; it comes after exactly the smaller of the two counts.
   */
  lemma {:induction false} StatusPredictsRefusal(c: Cell, now: Moment, n: nat)
    requires c.row.Some? && Rolled(c.row.value, now) == c.row.value
    requires var s := ToStatus(c.row.value);
             n == if s.dailyRemaining <= s.monthlyRemaining then s.dailyRemaining else s.monthlyRemaining
    ensures var s := ToStatus(c.row.value);
            && AllAdmitted(c, now, n)
            && RefusalAfter(c, now, n) ==
                 if s.dailyRemaining <= s.monthlyRemaining then DailyRefused else MonthlyRefused
    decreases n
  {
    if n > 0 {
      StatusPredictsRefusal(Apply(c, Op(Charge, now, now, NoFault)).0, now, n - 1);
    }
  }

  /**
   A status read against the history: what is used on the date and in the month, and what remains of the limits
   of the tier last given.
   */
  lemma StatusAgainstHistory(start: Moment, ops: seq<Op>, read: Op)
    requires InOrder(start, ops) && Follows(Clock(start, ops), read)
    ensures var (c, l) := (Run(NEW_TENANT, ops).0, RunLedger(NEW_LEDGER, ops).0);
            var s := StatusOf(c, read);
            var today, month := SinceReset(c.log, read.at), InMonth(c.log, read.at);
            && s.tier == l.tier && s.today == today && s.month == month
            && (if today <= s.dailyLimit then today + s.dailyRemaining == s.dailyLimit else s.dailyRemaining == 0)
            && (if month <= s.monthlyLimit then month + s.monthlyRemaining == s.monthlyLimit
                else s.monthlyRemaining == 0)
            && (s.overDaily <==> today >= s.dailyLimit) && (s.overMonthly <==> month >= s.monthlyLimit)
            && (l.tier == Starter || l.tier.Other? ==> s.dailyLimit == 1_000 && s.monthlyLimit == 20_000)
            && (l.tier == Professional ==> s.dailyLimit == 10_000 && s.monthlyLimit == 200_000)
            && (l.tier == Enterprise ==> s.dailyLimit == 100_000 && s.monthlyLimit == 5_000_000)
  {
    CountersDecideByRecount(NEW_TENANT, NEW_LEDGER, start, ops);
    StatusIsRecount(Run(NEW_TENANT, ops).0, RunLedger(NEW_LEDGER, ops).0, Clock(start, ops), read);
  }

  /**
   The status that a daily reset returns has not rolled the month. After any run its flags predict the next
   charge unless the month window has expired with a full counter: then it reports a limit that no longer holds.
   */
  lemma ResetStatusMayBeStale(start: Moment, ops: seq<Op>, created: Moment, now: Moment)
    requires InOrder(start, ops) && !Before(created, Clock(start, ops)) && !Before(now, created)
    ensures var c, reset := Run(NEW_TENANT, ops).0, Op(ResetDaily, created, now, NoFault);
            var row, s := LoadedRow(c, created), ResetStatusOf(c, reset);
            var admitted := Apply(Apply(c, reset).0, Op(Charge, now, now, NoFault)).1 == Admitted;
            (admitted <==> !s.overDaily && !s.overMonthly)
            <==> !(MonthNumber(row.monthStart) < MonthNumber(now) && row.month >= row.monthlyLimit)
  {
    CountersDecideByRecount(NEW_TENANT, NEW_LEDGER, start, ops);
    LoadedTracks(Run(NEW_TENANT, ops).0, RunLedger(NEW_LEDGER, ops).0, Clock(start, ops), created);
    ResetThenCharge(LoadedRow(Run(NEW_TENANT, ops).0, created), now);
  }

  lemma ResetThenCharge(row: Row, now: Moment)
    requires row.dailyLimit > 0 && row.monthlyLimit > 0
    ensures var after := row.(today := 0, dayStart := now);
            var s := ToStatus(after);
            (Admission(Rolled(after, now)) == Admitted <==> !s.overDaily && !s.overMonthly)
            <==> !(MonthNumber(row.monthStart) < MonthNumber(now) && row.month >= row.monthlyLimit)
  {
    BeforeMonthStart(row.monthStart, now);
  }

  // ---- Which calls a later report can see ----

  /** Two reports that agree on everything but the instants at which the windows were opened. */
  predicate SameFigures(a: StatusReport, b: StatusReport) {
    a.(dayStart := b.dayStart, monthStart := b.monthStart) == b
  }

  /** A call that admits nothing and resets nothing. */
  predicate Quiet(c: Cell, op: Op) {
    op.kind.Status? || Apply(c, op).1 in {DailyRefused, MonthlyRefused, Failed}
  }

  predicate Follows(clock: Moment, op: Op) {
    !Before(op.created, clock) && !Before(op.at, op.created)
  }

  /** A status read reports the recount of the history, with windows that lie on its own date and in its own month. */
  lemma StatusIsRecount(c: Cell, l: Ledger, clock: Moment, read: Op)
    requires Tracks(c, l, clock) && Follows(clock, read)
    ensures var s := StatusOf(c, read);
            && s.tier == l.tier && (s.dailyLimit, s.monthlyLimit) == LimitsForTier(l.tier)
            && s.today == SinceReset(l.log, read.at) && s.month == InMonth(l.log, read.at)
            && SameDate(s.dayStart, read.at) && SameMonth(s.monthStart, read.at)
  {
    LoadedTracks(c, l, clock, read.created);
    RollingRecounts(LoadedRow(c, read.created), l, read.created, read.at);
  }

  /** A quiet call leaves a cell that tracks the same ledger. */
  lemma QuietTracks(c: Cell, l: Ledger, clock: Moment, op: Op)
    requires Tracks(c, l, clock) && Follows(clock, op) && Quiet(c, op)
    ensures Tracks(Apply(c, op).0, l, op.at) && Tracks(c, l, op.at)
  {
    StepSimulates(c, l, clock, op);
    assert Step(l, op).0 == l;
    NotBeforeTransitive(clock, op.created, op.at);
    ClockAdvances(c, l, clock, op.at);
  }

  /**
   Status reads, refused charges and failed calls change no later outcome and no figure of a later status
   read; the windows that such a read shows were opened on the same date and in the same month.
   */
  lemma QuietCallsAreInvisible(start: Moment, before: seq<Op>, op: Op, after: seq<Op>, read: Op)
    requires InOrder(start, before) && Follows(Clock(start, before), op) && Quiet(Run(NEW_TENANT, before).0, op)
    requires InOrder(op.at, after) && Follows(Clock(op.at, after), read)
    ensures var c := Run(NEW_TENANT, before).0;
            var (a, with) := Run(Apply(c, op).0, after);
            var (b, without) := Run(c, after);
            var s, t := StatusOf(a, read), StatusOf(b, read);
            && with == without && SameFigures(s, t)
            && SameDate(s.dayStart, t.dayStart) && SameMonth(s.monthStart, t.monthStart)
  {
    var c, l := Run(NEW_TENANT, before).0, RunLedger(NEW_LEDGER, before).0;
    CountersDecideByRecount(NEW_TENANT, NEW_LEDGER, start, before);
    QuietTracks(c, l, Clock(start, before), op);
    CountersDecideByRecount(Apply(c, op).0, l, op.at, after);
    CountersDecideByRecount(c, l, op.at, after);
    var last := RunLedger(l, after).0;
    StatusIsRecount(Run(Apply(c, op).0, after).0, last, Clock(op.at, after), read);
    StatusIsRecount(Run(c, after).0, last, Clock(op.at, after), read);
  }

  /** Whether a call stores a row whose windows it has rolled. */
  predicate StoresRoll(op: Op, outcome: Outcome) {
    (op.kind.Status? && outcome == Done) || (op.kind.Charge? && outcome == Admitted)
  }

  predicate RollsAgain(c: Cell, ops: seq<Op>)
    decreases |ops|
  {
    ops != [] &&
    var (next, outcome) := Apply(c, ops[0]);
    StoresRoll(ops[0], outcome) || RollsAgain(next, ops[1..])
  }

  /** The stored monthly counter; a missing row would be created with 0. */
  function MonthOf(c: Cell): nat {
    if c.row.Some? then c.row.value.month else 0
  }

  lemma MonthKept(c: Cell, op: Op)
    requires !StoresRoll(op, Apply(c, op).1)
    ensures MonthOf(Apply(c, op).0) == MonthOf(c)
  {
  }

  lemma MonthRolled(c: Cell, op: Op)
    requires StoresRoll(op, Apply(c, op).1)
    ensures var next := Apply(c, op).0;
            next.row.Some? && next.row.value.monthStart == Rolled(LoadedRow(c, op.created), op.at).monthStart
  {
  }

  /** A call that stores a rolled row stores the recount of the month; any other keeps the stored counter. */
  lemma MonthAfterCall(c: Cell, l: Ledger, clock: Moment, op: Op)
    requires Tracks(c, l, clock) && Follows(clock, op)
    ensures var (next, outcome) := Apply(c, op);
            MonthOf(next) == if StoresRoll(op, outcome) then InMonth(Step(l, op).0.log, op.at) else MonthOf(c)
  {
    var (next, outcome) := Apply(c, op);
    if StoresRoll(op, outcome) {
      MonthRolled(c, op);
      StatusIsRecount(c, l, clock, op);
      StepSimulates(c, l, clock, op);
      var stored, log := next.row.value, Step(l, op).0.log;
      assert Summarises(stored, Step(l, op).0, op.at);
      TallyCongruent(log, AdmitsInMonth(stored.monthStart), AdmitsInMonth(op.at));
    } else {
      MonthKept(c, op);
    }
  }

  lemma {:induction false} MonthsMeet(a: Cell, b: Cell, l: Ledger, clock: Moment, ops: seq<Op>)
    requires Tracks(a, l, clock) && Tracks(b, l, clock) && InOrder(clock, ops)
    ensures MonthOf(Run(a, ops).0) == MonthOf(Run(b, ops).0) <==> RollsAgain(b, ops) || MonthOf(a) == MonthOf(b)
    decreases |ops|
  {
    if ops != [] {
      var op := ops[0];
      MonthAfterCall(a, l, clock, op);
      MonthAfterCall(b, l, clock, op);
      StepSimulates(a, l, clock, op);
      StepSimulates(b, l, clock, op);
      MonthsMeet(Apply(a, op).0, Apply(b, op).0, Step(l, op).0, op.at, ops[1..]);
    }
  }

  /** The reports of two daily resets at the same instant differ exactly in the stored monthly counter. */
  lemma ResetReportsCompare(a: Cell, b: Cell, l: Ledger, clock: Moment, reset: Op)
    requires Tracks(a, l, clock) && Tracks(b, l, clock) && Follows(clock, reset)
    ensures SameFigures(ResetStatusOf(a, reset), ResetStatusOf(b, reset)) <==> MonthOf(a) == MonthOf(b)
  {
    LoadedTracks(a, l, clock, reset.created);
    LoadedTracks(b, l, clock, reset.created);
  }

  /**
   A quiet call can be seen in the report of a later daily reset in exactly one case: it was a status read that
   found the month window expired with a counter above 0, and nothing in between rolled the windows again.
   */
  lemma QuietCallsInResetReports(start: Moment, before: seq<Op>, op: Op, after: seq<Op>, reset: Op)
    requires InOrder(start, before) && Follows(Clock(start, before), op) && Quiet(Run(NEW_TENANT, before).0, op)
    requires InOrder(op.at, after) && Follows(Clock(op.at, after), reset)
    ensures var c := Run(NEW_TENANT, before).0;
            var a, b := Run(Apply(c, op).0, after).0, Run(c, after).0;
            SameFigures(ResetStatusOf(a, reset), ResetStatusOf(b, reset)) <==>
            !(&& op.kind.Status? && op.fault == NoFault
              && MonthOf(c) > 0 && MonthNumber(c.row.value.monthStart) < MonthNumber(op.at)
              && !RollsAgain(c, after))
  {
    var c, l := Run(NEW_TENANT, before).0, RunLedger(NEW_LEDGER, before).0;
    CountersDecideByRecount(NEW_TENANT, NEW_LEDGER, start, before);
    QuietTracks(c, l, Clock(start, before), op);
    CountersDecideByRecount(Apply(c, op).0, l, op.at, after);
    CountersDecideByRecount(c, l, op.at, after);
    MonthsMeet(Apply(c, op).0, c, l, op.at, after);
    ResetReportsCompare(
      Run(Apply(c, op).0, after).0, Run(c, after).0, RunLedger(l, after).0, Clock(op.at, after), reset);
    QuietMonth(c, op);
  }

  lemma QuietMonth(c: Cell, op: Op)
    requires Quiet(c, op)
    ensures MonthOf(Apply(c, op).0) == MonthOf(c) <==>
            !(&& op.kind.Status? && op.fault == NoFault
              && MonthOf(c) > 0 && MonthNumber(c.row.value.monthStart) < MonthNumber(op.at))
  {
    if c.row.Some? {
      BeforeMonthStart(c.row.value.monthStart, op.at);
    }
  }
}
