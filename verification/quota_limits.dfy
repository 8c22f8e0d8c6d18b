/** What the quota limits guarantee over whole runs: bounds for each date and for each month. */
module QuotaLimits {
  import opened Wrappers
  import opened Enums
  import opened Calendar
  import opened Quota
  import opened QuotaLedger

  // ---- Dates ----

  /** Every admission on the date of `t` was made while fewer than `cap` had been made on it since its last reset. */
  predicate DisciplinedOn(log: seq<Entry>, t: Moment, cap: nat) {
    forall i :: 0 <= i < |log| && log[i].Admit? && SameDate(log[i].at, t) ==> SinceReset(log[..i], t) < cap
  }

  /** At each charge that the run makes on the date of `t`, the daily limit in force is at most `cap`. */
  predicate CappedOn(c: Cell, ops: seq<Op>, t: Moment, cap: nat)
    decreases |ops|
  {
    ops == [] ||
    ((ops[0].kind.Charge? && SameDate(ops[0].at, t) ==> LoadedRow(c, ops[0].created).dailyLimit <= cap)
     && CappedOn(Apply(c, ops[0]).0, ops[1..], t, cap))
  }

  lemma OneMoreEntry(log: seq<Entry>, e: Entry, t: Moment, cap: nat)
    requires DisciplinedOn(log, t, cap)
    requires e.Admit? && SameDate(e.at, t) ==> SinceReset(log, t) < cap
    ensures DisciplinedOn(log + [e], t, cap)
  {
    var more := log + [e];
    forall i | 0 <= i < |more| && more[i].Admit? && SameDate(more[i].at, t)
      ensures SinceReset(more[..i], t) < cap
    {
      assert more[..i] == if i < |log| then log[..i] else log;
    }
  }

  /** A charge that is admitted was below the limit of the row it loaded. */
  lemma AdmittedBelowLimit(c: Cell, l: Ledger, clock: Moment, op: Op)
    requires Tracks(c, l, clock) && !Before(op.created, clock) && !Before(op.at, op.created)
    requires op.kind.Charge? && Apply(c, op).1 == Admitted
    ensures SinceReset(c.log, op.at) < LoadedRow(c, op.created).dailyLimit
  {
    LoadedTracks(c, l, clock, op.created);
    RollingRecounts(LoadedRow(c, op.created), l, op.created, op.at);
  }

  /** A call leaves the history as it is, or appends one reset or one admission that it admitted. */
  lemma CallAppends(c: Cell, op: Op)
    ensures var (next, outcome) := Apply(c, op);
            || next.log == c.log
            || (op.kind.ResetDaily? && next.log == c.log + [Reset(op.at)])
            || (op.kind.Charge? && outcome == Admitted && next.log == c.log + [Admit(op.at)])
  {
  }

  lemma CallIsDisciplined(c: Cell, l: Ledger, clock: Moment, op: Op, t: Moment, cap: nat)
    requires Tracks(c, l, clock) && !Before(op.created, clock) && !Before(op.at, op.created)
    requires DisciplinedOn(c.log, t, cap)
    requires op.kind.Charge? && SameDate(op.at, t) ==> LoadedRow(c, op.created).dailyLimit <= cap
    ensures DisciplinedOn(Apply(c, op).0.log, t, cap)
  {
    CallAppends(c, op);
    OneMoreEntry(c.log, Reset(op.at), t, cap);
    if op.kind.Charge? && Apply(c, op).1 == Admitted {
      if SameDate(op.at, t) {
        AdmittedBelowLimit(c, l, clock, op);
        SameDateSameRecount(c.log, op.at, t);
      }
      OneMoreEntry(c.log, Admit(op.at), t, cap);
    }
  }

  lemma {:induction false} RunIsDisciplined(c: Cell, l: Ledger, clock: Moment, ops: seq<Op>, t: Moment, cap: nat)
    requires Tracks(c, l, clock) && InOrder(clock, ops)
    requires DisciplinedOn(c.log, t, cap) && CappedOn(c, ops, t, cap)
    ensures DisciplinedOn(Run(c, ops).0.log, t, cap)
    decreases |ops|
  {
    if ops != [] {
      CallIsDisciplined(c, l, clock, ops[0], t, cap);
      StepSimulates(c, l, clock, ops[0]);
      RunIsDisciplined(Apply(c, ops[0]).0, Step(l, ops[0]).0, ops[0].at, ops[1..], t, cap);
    }
  }

  lemma DisciplinedPrefix(log: seq<Entry>, t: Moment, cap: nat)
    requires log != [] && DisciplinedOn(log, t, cap)
    ensures DisciplinedOn(log[..|log| - 1], t, cap)
  {
    var init := log[..|log| - 1];
    assert forall i :: 0 <= i < |init| ==> init[..i] == log[..i];
  }

  lemma {:induction false} DateCap(log: seq<Entry>, t: Moment, cap: nat)
    requires DisciplinedOn(log, t, cap)
    ensures SinceReset(log, t) <= cap
    ensures Tally(log, AdmitsOn(t)) <= cap * Tally(log, ResetsOn(t)) + SinceReset(log, t)
  {
    if log != [] {
      var init := log[..|log| - 1];
      DisciplinedPrefix(log, t, cap);
      DateCap(init, t, cap);
      OneMore(cap, Tally(init, ResetsOn(t)));
    }
  }

  lemma OneMore(cap: nat, k: nat)
    ensures cap * (k + 1) == cap * k + cap
  {
  }

  lemma DateCapTotal(log: seq<Entry>, t: Moment, cap: nat)
    requires DisciplinedOn(log, t, cap)
    ensures Tally(log, AdmitsOn(t)) <= (1 + Tally(log, ResetsOn(t))) * cap
  {
    DateCap(log, t, cap);
    OneMore(cap, Tally(log, ResetsOn(t)));
  }

  /** On any date at most (1 + its resets) times the largest daily limit in force at that date's charges is admitted. */
  lemma DailyLimitHolds(start: Moment, ops: seq<Op>, t: Moment, cap: nat)
    requires InOrder(start, ops) && CappedOn(NEW_TENANT, ops, t, cap)
    ensures var log := Run(NEW_TENANT, ops).0.log;
            Tally(log, AdmitsOn(t)) <= (1 + Tally(log, ResetsOn(t))) * cap
  {
    RunIsDisciplined(NEW_TENANT, NEW_LEDGER, start, ops, t, cap);
    DateCapTotal(Run(NEW_TENANT, ops).0.log, t, cap);
  }

  // ---- The monthly limit ----

  /** At each charge that the run makes in the month of `t`, the monthly limit in force is at most `cap`. */
  predicate CappedInMonth(c: Cell, ops: seq<Op>, t: Moment, cap: nat)
    decreases |ops|
  {
    ops == [] ||
    ((ops[0].kind.Charge? && SameMonth(ops[0].at, t) ==> LoadedRow(c, ops[0].created).monthlyLimit <= cap)
     && CappedInMonth(Apply(c, ops[0]).0, ops[1..], t, cap))
  }

  lemma AdmittedBelowMonthlyLimit(c: Cell, l: Ledger, clock: Moment, op: Op)
    requires Tracks(c, l, clock) && !Before(op.created, clock) && !Before(op.at, op.created)
    requires op.kind.Charge? && Apply(c, op).1 == Admitted
    ensures InMonth(c.log, op.at) < LoadedRow(c, op.created).monthlyLimit
  {
    LoadedTracks(c, l, clock, op.created);
    RollingRecounts(LoadedRow(c, op.created), l, op.created, op.at);
  }

  lemma OneMoreInMonth(log: seq<Entry>, e: Entry, t: Moment)
    ensures InMonth(log + [e], t) == InMonth(log, t) + if e.Admit? && SameMonth(e.at, t) then 1 else 0
  {
    assert (log + [e])[..|log|] == log;
  }

  lemma CallStaysWithin(c: Cell, l: Ledger, clock: Moment, op: Op, t: Moment, cap: nat)
    requires Tracks(c, l, clock) && !Before(op.created, clock) && !Before(op.at, op.created)
    requires InMonth(c.log, t) <= cap
    requires op.kind.Charge? && SameMonth(op.at, t) ==> LoadedRow(c, op.created).monthlyLimit <= cap
    ensures InMonth(Apply(c, op).0.log, t) <= cap
  {
    CallAppends(c, op);
    OneMoreInMonth(c.log, Reset(op.at), t);
    OneMoreInMonth(c.log, Admit(op.at), t);
    if op.kind.Charge? && Apply(c, op).1 == Admitted && SameMonth(op.at, t) {
      AdmittedBelowMonthlyLimit(c, l, clock, op);
      TallyCongruent(c.log, AdmitsInMonth(op.at), AdmitsInMonth(t));
    }
  }

  lemma {:induction false} RunStaysWithin(c: Cell, l: Ledger, clock: Moment, ops: seq<Op>, t: Moment, cap: nat)
    requires Tracks(c, l, clock) && InOrder(clock, ops)
    requires InMonth(c.log, t) <= cap && CappedInMonth(c, ops, t, cap)
    ensures InMonth(Run(c, ops).0.log, t) <= cap
    decreases |ops|
  {
    if ops != [] {
      CallStaysWithin(c, l, clock, ops[0], t, cap);
      StepSimulates(c, l, clock, ops[0]);
      RunStaysWithin(Apply(c, ops[0]).0, Step(l, ops[0]).0, ops[0].at, ops[1..], t, cap);
    }
  }

  /** Whatever is reset, a month admits at most the largest monthly limit in force at that month's charges. */
  lemma MonthlyLimitHolds(start: Moment, ops: seq<Op>, t: Moment, cap: nat)
    requires InOrder(start, ops) && CappedInMonth(NEW_TENANT, ops, t, cap)
    ensures InMonth(Run(NEW_TENANT, ops).0.log, t) <= cap
  {
    RunStaysWithin(NEW_TENANT, NEW_LEDGER, start, ops, t, cap);
  }

  // ---- What the daily limits allow in a month ----

  const HIGHEST_DAILY := 100_000

  /** No tier allows more than `HIGHEST_DAILY` a day. */
  lemma {:induction false} AnyRunIsCapped(c: Cell, l: Ledger, clock: Moment, ops: seq<Op>, t: Moment)
    requires Tracks(c, l, clock) && InOrder(clock, ops)
    ensures CappedOn(c, ops, t, HIGHEST_DAILY)
    decreases |ops|
  {
    if ops != [] {
      LoadedTracks(c, l, clock, ops[0].created);
      StepSimulates(c, l, clock, ops[0]);
      AnyRunIsCapped(Apply(c, ops[0]).0, Step(l, ops[0]).0, ops[0].at, ops[1..], t);
    }
  }

  predicate Chronological(log: seq<Entry>) {
    forall i, j :: 0 <= i < j < |log| ==> DayNumber(log[i].at) <= DayNumber(log[j].at)
  }

  lemma AppendInTime(log: seq<Entry>, e: Entry)
    requires Chronological(log) && Past(log, e.at)
    ensures Chronological(log + [e]) && Past(log + [e], e.at)
  {
  }

  lemma PastLater(log: seq<Entry>, s: Moment, t: Moment)
    requires Past(log, s) && !Before(t, s)
    ensures Past(log, t)
  {
    DateOrder(s, t);
  }

  lemma {:induction false} RunIsChronological(c: Cell, clock: Moment, ops: seq<Op>)
    requires InOrder(clock, ops) && Chronological(c.log) && Past(c.log, clock)
    ensures var log := Run(c, ops).0.log; Chronological(log) && Past(log, Clock(clock, ops))
    decreases |ops|
  {
    if ops != [] {
      var op := ops[0];
      NotBeforeTransitive(clock, op.created, op.at);
      PastLater(c.log, clock, op.at);
      CallAppends(c, op);
      AppendInTime(c.log, Reset(op.at));
      AppendInTime(c.log, Admit(op.at));
      RunIsChronological(Apply(c, op).0, op.at, ops[1..]);
    }
  }

  ghost predicate Disciplined(log: seq<Entry>, cap: nat) {
    forall t :: DisciplinedOn(log, t, cap)
  }

  /** The days of the month before `t`, plus the resets of the month. */
  function Allowances(log: seq<Entry>, t: Moment): nat {
    t.day - 1 + Tally(log, ResetsInMonth(t))
  }

  /** `count` admissions fit into `k` full daily allowances and those counted since the last reset. */
  predicate FitsAllowances(count: nat, cap: nat, k: nat, since: nat) {
    count <= cap * k + since
  }

  /** The bound for the date of the last entry. */
  lemma {:induction false} MonthCapNow(log: seq<Entry>, cap: nat)
    requires log != [] && Disciplined(log, cap) && Chronological(log)
    ensures var t := log[|log| - 1].at; FitsAllowances(InMonth(log, t), cap, Allowances(log, t), SinceReset(log, t))
    decreases |log|, 0
  {
    var n := |log| - 1;
    var init, e := log[..n], log[n];
    DisciplinedInit(log, cap);
    MonthCap(init, e.at, cap);
    assert DisciplinedOn(init, e.at, cap);
    SinceCap(init, e.at, cap);
    OneMoreFits(InMonth(init, e.at), cap, Allowances(init, e.at), SinceReset(init, e.at));
  }

  lemma DisciplinedInit(log: seq<Entry>, cap: nat)
    requires log != [] && Disciplined(log, cap)
    ensures Disciplined(log[..|log| - 1], cap)
  {
    var init := log[..|log| - 1];
    forall t
      ensures DisciplinedOn(init, t, cap)
    {
      assert DisciplinedOn(log, t, cap);
      DisciplinedPrefix(log, t, cap);
    }
  }

  /** One more admission, or one more reset, still fits. */
  lemma OneMoreFits(count: nat, cap: nat, k: nat, since: nat)
    requires FitsAllowances(count, cap, k, since) && since <= cap
    ensures FitsAllowances(count + 1, cap, k, since + 1) && FitsAllowances(count, cap, k + 1, 0)
  {
    OneMore(cap, k);
  }

  lemma {:induction false} MonthCap(log: seq<Entry>, t: Moment, cap: nat)
    requires Disciplined(log, cap) && Chronological(log) && Past(log, t)
    ensures FitsAllowances(InMonth(log, t), cap, Allowances(log, t), SinceReset(log, t))
    decreases |log|, 1
  {
    if log != [] {
      var e := log[|log| - 1];
      DateOrder(e.at, t);
      forall x | x in log
        ensures DayNumber(x.at) <= DayNumber(e.at) && MonthNumber(x.at) <= MonthNumber(e.at)
      {
        DateOrder(x.at, e.at);
      }
      if SameMonth(e.at, t) {
        MonthCapNow(log, cap);
        assert DisciplinedOn(log, e.at, cap);
        MonthCapLater(log, e.at, t, cap);
      } else {
        TallyNone(log, AdmitsInMonth(t));
        Grow(cap, 0, Allowances(log, t));
      }
    }
  }

  lemma SinceCap(log: seq<Entry>, t: Moment, cap: nat)
    requires DisciplinedOn(log, t, cap)
    ensures SinceReset(log, t) <= cap
  {
    DateCap(log, t, cap);
  }

  lemma SameMonthCounts(log: seq<Entry>, s: Moment, t: Moment)
    requires SameMonth(s, t)
    ensures InMonth(log, s) == InMonth(log, t) && Tally(log, ResetsInMonth(s)) == Tally(log, ResetsInMonth(t))
  {
    TallyCongruent(log, AdmitsInMonth(s), AdmitsInMonth(t));
    TallyCongruent(log, ResetsInMonth(s), ResetsInMonth(t));
  }

  /** Later in the month each full day adds its own allowance. */
  lemma MonthCapLater(log: seq<Entry>, s: Moment, t: Moment, cap: nat)
    requires SameMonth(s, t) && s.day <= t.day && DisciplinedOn(log, s, cap)
    requires FitsAllowances(InMonth(log, s), cap, Allowances(log, s), SinceReset(log, s))
    ensures FitsAllowances(InMonth(log, t), cap, Allowances(log, t), SinceReset(log, t))
  {
    SameMonthCounts(log, s, t);
    SinceCap(log, s, cap);
    if s.day == t.day {
      SameDateSameRecount(log, s, t);
    }
    LaterFits(InMonth(log, s), InMonth(log, t), cap, Allowances(log, s), Allowances(log, t), SinceReset(log, s),
                SinceReset(log, t));
  }

  lemma LaterFits(month: nat, later: nat, cap: nat, a: nat, b: nat, since: nat, now: nat)
    requires FitsAllowances(month, cap, a, since) && since <= cap && month == later
    requires a < b || (a == b && since == now)
    ensures FitsAllowances(later, cap, b, now)
  {
    if a < b {
      FullDays(cap, a, b, month, since, now);
    }
  }

  lemma FullDays(cap: nat, a: nat, b: nat, month: nat, since: nat, now: nat)
    requires FitsAllowances(month, cap, a, since) && since <= cap && a < b
    ensures FitsAllowances(month, cap, b, now)
  {
    OneMore(cap, a);
    Grow(cap, a + 1, b);
  }

  lemma Grow(cap: nat, a: nat, b: nat)
    requires a <= b
    ensures cap * a <= cap * b
  {
  }

  /**
   Whatever the tier changes, a month never counts more than 100,000 for every day so far and every
   reset so far; without resets that is at most 3,100,000.
   */
  lemma MonthlyCountIsBounded(start: Moment, ops: seq<Op>, now: Moment)
    requires InOrder(start, ops) && !Before(now, Clock(start, ops))
    ensures var log := Run(NEW_TENANT, ops).0.log;
            && InMonth(log, now) <= HIGHEST_DAILY * Allowances(log, now) + SinceReset(log, now)
            && SinceReset(log, now) <= HIGHEST_DAILY
            && (Tally(log, ResetsInMonth(now)) == 0 ==> InMonth(log, now) <= now.day * HIGHEST_DAILY <= 3_100_000)
  {
    var log := Run(NEW_TENANT, ops).0.log;
    forall t
      ensures DisciplinedOn(log, t, HIGHEST_DAILY)
    {
      AnyRunIsCapped(NEW_TENANT, NEW_LEDGER, start, ops, t);
      RunIsDisciplined(NEW_TENANT, NEW_LEDGER, start, ops, t, HIGHEST_DAILY);
    }
    RunIsChronological(NEW_TENANT, start, ops);
    PastLater(log, Clock(start, ops), now);
    MonthCap(log, now, HIGHEST_DAILY);
    assert DisciplinedOn(log, now, HIGHEST_DAILY);
    DateCap(log, now, HIGHEST_DAILY);
  }

  /** With at most 19 resets in the month an enterprise tenant is never refused for its monthly limit. */
  lemma EnterpriseNeverMonthlyRefused(start: Moment, ops: seq<Op>, op: Op)
    requires InOrder(start, ops) && !Before(op.created, Clock(start, ops)) && !Before(op.at, op.created)
    requires var c := Run(NEW_TENANT, ops).0;
             && c.row.Some? && c.row.value.tier == Enterprise
             && Tally(c.log, ResetsInMonth(op.at)) <= 19
    ensures Apply(Run(NEW_TENANT, ops).0, op).1 != MonthlyRefused
  {
    var c, l := Run(NEW_TENANT, ops).0, RunLedger(NEW_LEDGER, ops).0;
    CountersDecideByRecount(NEW_TENANT, NEW_LEDGER, start, ops);
    StepSimulates(c, l, Clock(start, ops), op);
    NotBeforeTransitive(Clock(start, ops), op.created, op.at);
    MonthlyCountIsBounded(start, ops, op.at);
    EnterpriseDecision(l, op.at);
  }

  lemma EnterpriseDecision(l: Ledger, now: Moment)
    requires l.tier == Enterprise && Tally(l.log, ResetsInMonth(now)) <= 19
    requires InMonth(l.log, now) <= HIGHEST_DAILY * Allowances(l.log, now) + SinceReset(l.log, now)
    ensures Decide(l, now) != MonthlyRefused
  {
  }
}
