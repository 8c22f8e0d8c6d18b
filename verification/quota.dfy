/** services/quota/service.py: lazily rolled daily and monthly counters for each tenant. */
module Quota {
  import opened Wrappers
  import opened Enums
  import opened Calendar

  /** (daily, monthly); an unknown tier gets the starter limits. */
  function LimitsForTier(tier: Tier): (nat, nat) {
    match tier
    case Starter => (1_000, 20_000)
    case Professional => (10_000, 200_000)
    case Enterprise => (100_000, 5_000_000)
    case Other(_) => (1_000, 20_000)
  }

  /** A row of the quota table. */
  datatype Row = Row(
    tier: Tier, dailyLimit: nat, monthlyLimit: nat, today: nat, month: nat, dayStart: Moment, monthStart: Moment)

  function NewRow(tier: Tier, now: Moment): Row {
    var (daily, monthly) := LimitsForTier(tier);
    Row(tier, daily, monthly, 0, 0, now, now)
  }

  function Retiered(row: Row, tier: Tier): Row {
    var (daily, monthly) := LimitsForTier(tier);
    row.(tier := tier, dailyLimit := daily, monthlyLimit := monthly)
  }

  /** The row with every window that has expired by `now` restarted. */
  function Rolled(row: Row, now: Moment): Row {
    var r := if DateBefore(row.dayStart, now) then row.(today := 0, dayStart := now) else row;
    if Before(r.monthStart, MonthStart(now)) then r.(month := 0, monthStart := now) else r
  }

  /** What really happened to one tenant: the committed admissions and administrative resets, in order. */
  datatype Entry = Admit(at: Moment) | Reset(at: Moment)

  /** One tenant's row, if it has one, beside the history that the row is meant to summarise. */
  datatype Cell = Cell(row: Option<Row>, log: seq<Entry>)

  const NEW_TENANT := Cell(None, [])

  /** `LoadFails`: reading or first creating the row raises. `CommitFails`: the final commit raises. */
  datatype Fault = NoFault | LoadFails | CommitFails

  datatype Kind = Provision(tier: Tier) | Status | Charge | ResetDaily

  /** One call: `created` is the clock when a missing row would be created, `at` when the call does its work. */
  datatype Op = Op(kind: Kind, created: Moment, at: Moment, fault: Fault)

  datatype Outcome = Done | Admitted | DailyRefused | MonthlyRefused | Failed

  /** The row a call works on: the stored one, or a starter row which is committed at once. */
  function LoadedRow(c: Cell, created: Moment): Row {
    c.row.GetOr(NewRow(Starter, created))
  }

  /** The decision on one more event, from the rolled counters: the daily limit is checked first. */
  function Admission(row: Row): Outcome {
    if row.today >= row.dailyLimit then DailyRefused
    else if row.month >= row.monthlyLimit then MonthlyRefused
    else Admitted
  }

  /** The effect of one call on its tenant. */
  function Apply(c: Cell, op: Op): (Cell, Outcome) {
    var loaded := c.(row := Some(LoadedRow(c, op.created)));
    var row := Rolled(loaded.row.value, op.at);
    var commits := op.fault != CommitFails;
    if op.fault == LoadFails then (c, Failed)
    else
      match op.kind
      case Provision(tier) =>
        var row := if c.row.Some? then Retiered(c.row.value, tier) else NewRow(tier, op.at);
        if commits then (c.(row := Some(row)), Done) else (c, Failed)
      case Status =>
        if commits then (loaded.(row := Some(row)), Done) else (loaded, Failed)
      case Charge =>
        if Admission(row) != Admitted then (loaded, Admission(row))
        else if !commits then (loaded, Failed)
        else (Cell(Some(row.(today := row.today + 1, month := row.month + 1)), c.log + [Admit(op.at)]), Admitted)
      case ResetDaily =>
        if commits then (Cell(Some(loaded.row.value.(today := 0, dayStart := op.at)), c.log + [Reset(op.at)]), Done)
        else (loaded, Failed)
  }

  datatype StatusReport = StatusReport(
    tier: Tier, dailyLimit: nat, monthlyLimit: nat, today: nat, month: nat,
    dailyRemaining: nat, monthlyRemaining: nat, overDaily: bool, overMonthly: bool,
    dayStart: Moment, monthStart: Moment)

  function ToStatus(row: Row): StatusReport {
    StatusReport(row.tier, row.dailyLimit, row.monthlyLimit, row.today, row.month,
                 Remaining(row.dailyLimit, row.today), Remaining(row.monthlyLimit, row.month),
                 row.today >= row.dailyLimit, row.month >= row.monthlyLimit, row.dayStart, row.monthStart)
  }

  /** The tier of a row, with the limits that belong to it. */
  predicate HasTier(row: Row, tier: Tier) {
    && row.tier == tier
    && (tier == Starter || tier.Other? ==> row.dailyLimit == 1_000 && row.monthlyLimit == 20_000)
    && (tier == Professional ==> row.dailyLimit == 10_000 && row.monthlyLimit == 200_000)
    && (tier == Enterprise ==> row.dailyLimit == 100_000 && row.monthlyLimit == 5_000_000)
  }

  /** A report shows the row, what remains of each limit, and whether the limit has been reached. */
  predicate Shows(s: StatusReport, row: Row) {
    && s.tier == row.tier && s.dailyLimit == row.dailyLimit && s.monthlyLimit == row.monthlyLimit
    && s.today == row.today && s.month == row.month && s.dayStart == row.dayStart && s.monthStart == row.monthStart
    && (if row.today <= row.dailyLimit then row.today + s.dailyRemaining == row.dailyLimit else s.dailyRemaining == 0)
    && (if row.month <= row.monthlyLimit then row.month + s.monthlyRemaining == row.monthlyLimit
        else s.monthlyRemaining == 0)
    && (s.overDaily <==> row.today >= row.dailyLimit) && (s.overMonthly <==> row.month >= row.monthlyLimit)
  }

  /** What a status read that succeeds returns. */
  function StatusOf(c: Cell, op: Op): StatusReport {
    ToStatus(Rolled(LoadedRow(c, op.created), op.at))
  }

  /** What a daily reset that succeeds returns: the day restarted, the month not rolled. */
  function ResetStatusOf(c: Cell, op: Op): StatusReport {
    ToStatus(LoadedRow(c, op.created).(today := 0, dayStart := op.at))
  }

  function Remaining(limit: nat, used: nat): nat {
    if limit < used then 0 else limit - used
  }

  /** The whole table with every tenant's history. */
  datatype Quotas = Quotas(rows: map<string, Row>, logs: map<string, seq<Entry>>) {
    function Of(tenant: string): Cell {
      Cell(if tenant in rows then Some(rows[tenant]) else None, if tenant in logs then logs[tenant] else [])
    }

    function Put(tenant: string, c: Cell): Quotas {
      Quotas(if c.row.Some? then rows[tenant := c.row.value] else rows, logs[tenant := c.log])
    }

    /** One call on behalf of one tenant. */
    function Call(tenant: string, op: Op): (Quotas, Outcome) {
      var (c, outcome) := Apply(Of(tenant), op);
      (Put(tenant, c), outcome)
    }
  }

  /** A call for one tenant changes no other tenant's row or history. */
  lemma TenantsAreIndependent(q: Quotas, tenant: string, op: Op, other: string)
    ensures var after := q.Call(tenant, op).0;
            after.Of(other) == if other == tenant then Apply(q.Of(tenant), op).0 else q.Of(other)
  {
  }

  /** A loaded row: fields are assigned in place and reach the table only on commit. */
  class TenantQuota {
    var tier: Tier
    var dailyLimit: nat
    var monthlyLimit: nat
    var eventsToday: nat
    var eventsThisMonth: nat
    var dayWindowStart: Moment
    var monthWindowStart: Moment

    constructor (row: Row)
      ensures Snapshot() == row
    {
      tier, dailyLimit, monthlyLimit := row.tier, row.dailyLimit, row.monthlyLimit;
      eventsToday, eventsThisMonth := row.today, row.month;
      dayWindowStart, monthWindowStart := row.dayStart, row.monthStart;
    }

    function Snapshot(): Row
      reads this
    {
      Row(tier, dailyLimit, monthlyLimit, eventsToday, eventsThisMonth, dayWindowStart, monthWindowStart)
    }

    method MaybeResetWindows(now: Moment)
      modifies this
      ensures Snapshot() == Rolled(old(Snapshot()), now)
      ensures tier == old(tier) && dailyLimit == old(dailyLimit) && monthlyLimit == old(monthlyLimit)
      ensures if DayNumber(old(dayWindowStart)) < DayNumber(now) then eventsToday == 0 && dayWindowStart == now
              else eventsToday == old(eventsToday) && dayWindowStart == old(dayWindowStart)
      ensures if MonthNumber(old(monthWindowStart)) < MonthNumber(now) then
                eventsThisMonth == 0 && monthWindowStart == now
              else eventsThisMonth == old(eventsThisMonth) && monthWindowStart == old(monthWindowStart)
    {
      DateOrder(dayWindowStart, now);
      BeforeMonthStart(monthWindowStart, now);
      if DateBefore(dayWindowStart, now) {
        eventsToday := 0;
        dayWindowStart := now;
      }
      var monthStart := MonthStart(now);
      if Before(monthWindowStart, monthStart) {
        eventsThisMonth := 0;
        monthWindowStart := now;
      }
    }

    /** Rolls the windows, checks both limits and counts the event. The caller commits, or drops the object. */
    method CountEvent(now: Moment) returns (outcome: Outcome)
      modifies this
      ensures var row := Rolled(old(Snapshot()), now);
              && outcome == Admission(row)
              && Snapshot() == if outcome == Admitted then row.(today := row.today + 1, month := row.month + 1) else row
    {
      MaybeResetWindows(now);
      if eventsToday >= dailyLimit {
        return DailyRefused;
      }
      if eventsThisMonth >= monthlyLimit {
        return MonthlyRefused;
      }
      eventsToday := eventsToday + 1;
      eventsThisMonth := eventsThisMonth + 1;
      return Admitted;
    }
  }

  class QuotaService {
    var table: map<string, Row>
    ghost var logs: map<string, seq<Entry>>

    constructor ()
      ensures View() == Quotas(map[], map[])
    {
      table, logs := map[], map[];
    }

    ghost function View(): Quotas
      reads this
    {
      Quotas(table, logs)
    }

    method Provision(tenant: string, tier: Tier, now: Moment, fault: Fault) returns (outcome: Outcome)
      modifies this
      ensures (View(), outcome) == old(View()).Call(tenant, Op(Kind.Provision(tier), now, now, fault))
      ensures outcome == Done <==> fault == NoFault
      ensures outcome == Done ==> tenant in table && HasTier(table[tenant], tier)
      ensures outcome == Done ==>
        var row := table[tenant];
        if tenant in old(table) then
          var stored := old(table)[tenant];
          && row.today == stored.today && row.month == stored.month
          && row.dayStart == stored.dayStart && row.monthStart == stored.monthStart
        else row.today == row.month == 0 && row.dayStart == row.monthStart == now
    {
      ghost var before, c := View(), View().Of(tenant);
      if fault != NoFault {
        Settle(before, tenant, c);
        return Failed;
      }
      var (daily, monthly) := LimitsForTier(tier);
      var quota;
      if tenant !in table {
        quota := new TenantQuota(Row(tier, daily, monthly, 0, 0, now, now));
      } else {
        quota := new TenantQuota(table[tenant]);
        quota.tier := tier;
        quota.dailyLimit := daily;
        quota.monthlyLimit := monthly;
      }
      Commit(tenant, quota);
      Settle(before, tenant, Cell(Some(quota.Snapshot()), c.log));
      return Done;
    }

    method GetStatus(tenant: string, created: Moment, now: Moment, fault: Fault)
      returns (outcome: Outcome, status: Option<StatusReport>)
      modifies this
      ensures (View(), outcome) == old(View()).Call(tenant, Op(Kind.Status, created, now, fault))
      ensures outcome == Done ==>
        status == Some(StatusOf(old(View().Of(tenant)), Op(Kind.Status, created, now, fault)))
      ensures outcome == Done ==> status.Some? && tenant in table && Shows(status.value, table[tenant])
      ensures tenant !in old(table) && outcome == Done ==>
        HasTier(table[tenant], Starter) && table[tenant].today == table[tenant].month == 0
    {
      ghost var before, c := View(), View().Of(tenant);
      if fault == LoadFails {
        Settle(before, tenant, c);
        return Failed, None;
      }
      var quota := GetOrCreate(tenant, created);
      ghost var loaded := quota.Snapshot();
      quota.MaybeResetWindows(now);
      if fault == CommitFails {
        Settle(before, tenant, Cell(Some(loaded), c.log));
        return Failed, None;
      }
      Commit(tenant, quota);
      Settle(before, tenant, Cell(Some(quota.Snapshot()), c.log));
      return Done, Some(ToStatus(quota.Snapshot()));
    }

    method CheckAndIncrement(tenant: string, created: Moment, now: Moment, fault: Fault) returns (outcome: Outcome)
      modifies this
      ensures (View(), outcome) == old(View()).Call(tenant, Op(Kind.Charge, created, now, fault))
      ensures outcome != Admitted && tenant in old(table) ==> table == old(table)
      ensures fault != NoFault ==> outcome != Admitted
    {
      ghost var before, c := View(), View().Of(tenant);
      if fault == LoadFails {
        Settle(before, tenant, c);
        return Failed;
      }
      var quota := GetOrCreate(tenant, created);
      ghost var loaded := quota.Snapshot();
      outcome := quota.CountEvent(now);
      if outcome != Admitted || fault == CommitFails {
        Settle(before, tenant, Cell(Some(loaded), c.log));
        return if outcome != Admitted then outcome else Failed;
      }
      Commit(tenant, quota);
      Settle(before, tenant, Cell(Some(quota.Snapshot()), c.log + [Admit(now)]));
      return Admitted;
    }

    method ResetDaily(tenant: string, created: Moment, now: Moment, fault: Fault)
      returns (outcome: Outcome, status: Option<StatusReport>)
      modifies this
      ensures (View(), outcome) == old(View()).Call(tenant, Op(Kind.ResetDaily, created, now, fault))
      ensures outcome == Done ==>
        status == Some(ResetStatusOf(old(View().Of(tenant)), Op(Kind.ResetDaily, created, now, fault)))
      ensures outcome == Done <==> fault == NoFault
      ensures outcome == Done ==> tenant in table && table[tenant].today == 0 && table[tenant].dayStart == now
      ensures outcome == Done && tenant in old(table) ==>
        var row, stored := table[tenant], old(table)[tenant];
        && row.month == stored.month && row.monthStart == stored.monthStart
        && row.tier == stored.tier && row.dailyLimit == stored.dailyLimit && row.monthlyLimit == stored.monthlyLimit
      ensures outcome == Done ==> status.Some? && tenant in table && Shows(status.value, table[tenant])
    {
      ghost var before, c := View(), View().Of(tenant);
      if fault == LoadFails {
        Settle(before, tenant, c);
        return Failed, None;
      }
      var quota := GetOrCreate(tenant, created);
      ghost var loaded := quota.Snapshot();
      quota.eventsToday := 0;
      quota.dayWindowStart := now;
      if fault == CommitFails {
        Settle(before, tenant, Cell(Some(loaded), c.log));
        return Failed, None;
      }
      Commit(tenant, quota);
      Settle(before, tenant, Cell(Some(quota.Snapshot()), c.log + [Reset(now)]));
      return Done, Some(ToStatus(quota.Snapshot()));
    }

    method GetOrCreate(tenant: string, created: Moment) returns (quota: TenantQuota)
      modifies this`table
      ensures fresh(quota) && quota.Snapshot() == LoadedRow(old(View().Of(tenant)), created)
      ensures var row := quota.Snapshot();
              if tenant in old(table) then row == old(table)[tenant]
              else HasTier(row, Starter) && row.today == row.month == 0 && row.dayStart == row.monthStart == created
      ensures table == old(table)[tenant := quota.Snapshot()]
    {
      if tenant in table {
        quota := new TenantQuota(table[tenant]);
      } else {
        var (daily, monthly) := LimitsForTier(Starter);
        quota := new TenantQuota(Row(Starter, daily, monthly, 0, 0, created, created));
        Commit(tenant, quota);
      }
    }

    method Commit(tenant: string, quota: TenantQuota)
      modifies this`table
      ensures table == old(table)[tenant := quota.Snapshot()]
    {
      table := table[tenant := quota.Snapshot()];
    }

    /** Records the tenant's history once the table holds what `c` says; bookkeeping for the proofs only. */
    ghost method Settle(before: Quotas, tenant: string, c: Cell)
      requires View().Of(tenant).row == c.row && logs == before.logs
      requires table == before.rows || (c.row.Some? && table == before.rows[tenant := c.row.value])
      modifies this`logs
      ensures View() == before.Put(tenant, c)
    {
      logs := logs[tenant := c.log];
      assert table == before.Put(tenant, c).rows;
    }
  }
}
