/** services/drift/service.py: the baseline table and drift analysis. */
module DriftDetection {
  import opened Wrappers
  import opened Counting
  import opened Enums
  import opened Events
  import opened Sentinel
  import opened DriftScore

  const HOUR := 3_600_000_000

  /** The types of one agent's events from `since` on, in the order of the table. */
  function WindowTypes(events: seq<Event>, tenant: string, agent: string, since: int): seq<EventType> {
    if events == [] then []
    else
      var e := events[0];
      (if e.tenant == tenant && e.agent == agent && e.timestamp >= since then [e.eventType] else [])
      + WindowTypes(events[1..], tenant, agent, since)
  }

  function OfType(tenant: string, agent: string, since: int, k: EventType): Event -> bool {
    (e: Event) => e.tenant == tenant && e.agent == agent && e.timestamp >= since && e.eventType == k
  }

  lemma {:induction false} WindowWhere(events: seq<Event>, tenant: string, agent: string, since: int, k: EventType)
    ensures multiset(WindowTypes(events, tenant, agent, since))[k]
         == |Where(events, OfType(tenant, agent, since, k))|
  {
    if events != [] {
      WindowWhere(events[1..], tenant, agent, since, k);
      WherePrepend(events[0], events[1..], OfType(tenant, agent, since, k));
      assert events == [events[0]] + events[1..];
    }
  }

  /** How many events of each type a window holds: those of that tenant and agent since that instant, no other. */
  lemma WindowCounts(events: seq<Event>, tenant: string, agent: string, since: int, k: EventType)
    ensures multiset(WindowTypes(events, tenant, agent, since))[k] ==
            |set i | 0 <= i < |events| && events[i].tenant == tenant && events[i].agent == agent
                     && events[i].timestamp >= since && events[i].eventType == k|
  {
    WindowWhere(events, tenant, agent, since, k);
    assert Where(events, OfType(tenant, agent, since, k)) ==
           set i | 0 <= i < |events| && events[i].tenant == tenant && events[i].agent == agent
                   && events[i].timestamp >= since && events[i].eventType == k;
  }

  lemma {:induction false} WindowSize(events: seq<Event>, tenant: string, agent: string, since: int)
    ensures |WindowTypes(events, tenant, agent, since)| ==
            |set i | 0 <= i < |events| && events[i].tenant == tenant && events[i].agent == agent
                     && events[i].timestamp >= since|
  {
    var selected := (e: Event) => e.tenant == tenant && e.agent == agent && e.timestamp >= since;
    if events != [] {
      WindowSize(events[1..], tenant, agent, since);
      WherePrepend(events[0], events[1..], selected);
      assert events == [events[0]] + events[1..];
      assert Where(events[1..], selected) ==
             set i | 0 <= i < |events[1..]| && events[1..][i].tenant == tenant && events[1..][i].agent == agent
                     && events[1..][i].timestamp >= since;
    }
    assert Where(events, selected) ==
           set i | 0 <= i < |events| && events[i].tenant == tenant && events[i].agent == agent
                   && events[i].timestamp >= since;
  }

  /** A stored baseline. `counted` remembers, for the proofs, the events it was computed from. */
  class AgentBaseline {
    const id: nat
    const tenant: string
    const agent: string
    const lookbackHours: nat
    const counts: Histogram
    const total: nat
    const computedAt: int
    var isActive: bool
    ghost const counted: seq<EventType>

    constructor (id: nat, tenant: string, agent: string, lookbackHours: nat, counts: Histogram, computedAt: int,
                 total: nat, ghost counted: seq<EventType>)
      ensures this.id == id && this.tenant == tenant && this.agent == agent && this.lookbackHours == lookbackHours
      ensures this.counts == counts && this.total == total && this.computedAt == computedAt && this.counted == counted
      ensures isActive
    {
      this.id, this.tenant, this.agent, this.lookbackHours := id, tenant, agent, lookbackHours;
      this.counts, this.total, this.computedAt, this.counted := counts, total, computedAt, counted;
      isActive := true;
    }

    predicate For(tenant: string, agent: string) {
      this.tenant == tenant && this.agent == agent
    }
  }

  datatype DriftReport = DriftReport(
    baselineId: Option<nat>, score: real, severity: Label, recentCount: nat, baselineTotal: nat,
    deviations: seq<Deviation>)

  /** The alert that a drift label calls for, if any. */
  function DriftAlert(tenant: string, agent: string, severity: Label): Option<AlertCreate> {
    if severity == HighDrift then Some(AlertCreate(None, tenant, agent, SentinelType.Drift, High))
    else if severity == MediumDrift then Some(AlertCreate(None, tenant, agent, SentinelType.Drift, Medium))
    else None
  }

  /** `report` is what comparing baseline `b` with the window `recent` must give. */
  ghost predicate Compares(report: DriftReport, b: AgentBaseline, recent: seq<EventType>) {
    var score := Score(b.counts, b.total, CountOf(recent), |recent|);
    && report.baselineId == Some(b.id)
    && report.baselineTotal == b.total
    && report.recentCount == |recent|
    && report.score == Round4(score)
    && report.severity == LabelOf(score)
    && if b.total == 0 || |recent| == 0 then report.deviations == []
       else Reports(report.deviations, Freq(b.counts, b.total), Freq(CountOf(recent), |recent|),
                    b.counts.Keys + CountOf(recent).Keys)
  }

  /** What an analysis reports, given the set of active baselines of its pair. */
  ghost predicate Assesses(report: DriftReport, active: set<AgentBaseline>, recent: seq<EventType>) {
    && (active == {} ==> report == DriftReport(None, 0.0, NoDrift, |recent|, 0, []))
    && (forall b :: b in active ==> Compares(report, b, recent))
    && (forall b :: b in active && multiset(b.counted) == multiset(recent) ==>
          report.score == 0.0 && report.severity == NoDrift)
  }

  /** One open drift alert about the agent is new, high for high drift and medium for medium drift. */
  predicate DriftAlertAdded(before: seq<Alert>, after: seq<Alert>, tenant: string, agent: string, severity: Label) {
    && |after| == |before| + 1 && after[..|before|] == before
    && var a := after[|before|];
    && a.source.eventId == None && a.source.tenant == tenant && a.source.agent == agent
    && a.source.sentinelType == SentinelType.Drift
    && (severity == HighDrift ==> a.source.severity == High)
    && (severity == MediumDrift ==> a.source.severity == Medium)
    && !a.resolved && a.action == None && a.resolvedAt == None
  }

  /** Without recent events, or with nothing to compare them to, there is no drift to report. */
  lemma NothingToCompare(report: DriftReport, active: set<AgentBaseline>, recent: seq<EventType>)
    requires Assesses(report, active, recent)
    requires forall b, c :: b in active && c in active ==> b == c
    ensures recent == [] || (forall b :: b in active ==> b.total == 0) ==>
              report.score == 0.0 && report.severity == NoDrift && report.deviations == []
  {
    RoundZero();
    if active != {} {
      var b :| b in active;
      assert Compares(report, b, recent);
    }
  }

  class DriftDetectionService {
    const sentinel: SentinelService?
    var events: seq<Event>
    var baselines: seq<AgentBaseline>

    constructor (sentinel: SentinelService?, events: seq<Event>)
      ensures Valid() && baselines == [] && this.sentinel == sentinel && this.events == events
    {
      this.sentinel, this.events := sentinel, events;
      baselines := [];
    }

    /** Rows are distinct, each holds the histogram of what it counted, and no pair has two active rows. */
    ghost predicate Valid()
      reads this, baselines
    {
      && (forall i :: 0 <= i < |baselines| ==>
            var b := baselines[i];
            b.id == i && b.counts == CountOf(b.counted) && b.total == |b.counted|)
      && (forall b, c :: b in baselines && c in baselines && b != c && b.tenant == c.tenant && b.agent == c.agent ==>
            !(b.isActive && c.isActive))
    }

    ghost function Active(tenant: string, agent: string): set<AgentBaseline>
      reads this, baselines
    {
      set b | b in baselines && b.isActive && b.tenant == tenant && b.agent == agent
    }

    /** Every active row of the pair is switched off in place. */
    method SwitchOff(tenant: string, agent: string)
      requires Valid()
      modifies baselines
      ensures Valid()
      ensures forall b :: b in baselines ==>
        b.isActive == (old(b.isActive) && !(b.tenant == tenant && b.agent == agent))
    {
      for i := 0 to |baselines|
        invariant forall j :: 0 <= j < |baselines| ==>
          baselines[j].isActive == (old(baselines[j].isActive) && !(j < i && baselines[j].For(tenant, agent)))
      {
        if baselines[i].isActive && baselines[i].For(tenant, agent) {
          baselines[i].isActive := false;
        }
      }
    }

    lemma WindowIsExact(tenant: string, agent: string, since: int)
      ensures var window := WindowTypes(events, tenant, agent, since);
              && (forall k ::
                    multiset(window)[k] ==
                    |set i | 0 <= i < |events| && events[i].tenant == tenant && events[i].agent == agent
                             && events[i].timestamp >= since && events[i].eventType == k|)
              && |window| ==
                 |set i | 0 <= i < |events| && events[i].tenant == tenant && events[i].agent == agent
                          && events[i].timestamp >= since|
    {
      forall k {
        WindowCounts(events, tenant, agent, since, k);
      }
      WindowSize(events, tenant, agent, since);
    }

    /** The types of the agent's events of the last hours, in the order of the table. */
    method RecentTypes(tenant: string, agent: string, lookbackHours: nat, now: int) returns (window: seq<EventType>)
      ensures var since := now - lookbackHours * 3_600_000_000;
              && (forall k ::
                    multiset(window)[k] ==
                    |set i | 0 <= i < |events| && events[i].tenant == tenant && events[i].agent == agent
                             && events[i].timestamp >= since && events[i].eventType == k|)
              && |window| ==
                 |set i | 0 <= i < |events| && events[i].tenant == tenant && events[i].agent == agent
                          && events[i].timestamp >= since|
    {
      var since := now - lookbackHours * HOUR;
      window := WindowTypes(events, tenant, agent, since);
      WindowIsExact(tenant, agent, since);
    }

    /** Counts the window, and switches the old active rows of the pair off before the new row is added. */
    method ComputeBaseline(tenant: string, agent: string, lookbackHours: nat, now: int, computedAt: int)
      returns (baseline: AgentBaseline)
      requires Valid()
      modifies this`baselines, baselines
      ensures Valid() && fresh(baseline)
      ensures baselines == old(baselines) + [baseline]
      ensures baseline.tenant == tenant && baseline.agent == agent
      ensures baseline.lookbackHours == lookbackHours && baseline.computedAt == computedAt
      ensures var since := now - lookbackHours * 3_600_000_000;
              && (forall k ::
                    Count(baseline.counts, k) ==
                    |set i | 0 <= i < |events| && events[i].tenant == tenant && events[i].agent == agent
                             && events[i].timestamp >= since && events[i].eventType == k|)
              && baseline.total ==
                 |set i | 0 <= i < |events| && events[i].tenant == tenant && events[i].agent == agent
                          && events[i].timestamp >= since|
      ensures Active(tenant, agent) == {baseline}
      ensures forall b :: b in old(baselines) ==>
        b.isActive == (old(b.isActive) && !(b.tenant == tenant && b.agent == agent))
    {
      var window := RecentTypes(tenant, agent, lookbackHours, now);
      var counts := CountEvents(window);
      CountingConserves(window);
      SwitchOff(tenant, agent);
      baseline := new AgentBaseline(|baselines|, tenant, agent, lookbackHours, counts, computedAt, |window|, window);
      baselines := baselines + [baseline];
    }

    /** Switches one row off, whatever its pair. */
    method DeactivateBaseline(id: nat) returns (found: bool)
      requires Valid()
      modifies baselines
      ensures Valid()
      ensures found == (id < |baselines|)
      ensures forall b :: b in baselines ==> b.isActive == (old(b.isActive) && b.id != id)
    {
      if id >= |baselines| {
        return false;
      }
      baselines[id].isActive := false;
      return true;
    }

    /** The most recently computed active row of the pair, which is the only one. */
    method GetActiveBaseline(tenant: string, agent: string) returns (baseline: AgentBaseline?)
      requires Valid()
      ensures Active(tenant, agent) == if baseline == null then {} else {baseline}
      ensures baseline != null ==>
        baseline in baselines && baseline.isActive && baseline.tenant == tenant && baseline.agent == agent
      ensures forall b :: b in baselines && b != baseline ==>
        !(b.isActive && b.tenant == tenant && b.agent == agent)
    {
      baseline := null;
      for i := 0 to |baselines|
        invariant baseline != null ==> baseline in Active(tenant, agent)
        invariant forall j :: 0 <= j < i && baselines[j] in Active(tenant, agent) ==> baseline == baselines[j]
      {
        var b := baselines[i];
        if b.isActive && b.For(tenant, agent) && (baseline == null || b.computedAt > baseline.computedAt) {
          baseline := b;
        }
      }
    }

    /** The report of a baseline against the recent events. */
    method Compare(baseline: AgentBaseline, recent: seq<EventType>) returns (report: DriftReport)
      requires baseline.counts == CountOf(baseline.counted) && baseline.total == |baseline.counted|
      ensures Compares(report, baseline, recent)
      ensures multiset(baseline.counted) == multiset(recent) ==> report.score == 0.0 && report.severity == NoDrift
    {
      var counts := CountEvents(recent);
      var score, deviations := ComputeTvd(baseline.counts, baseline.total, counts, |recent|);
      var severity := ScoreToSeverity(score);
      report := DriftReport(Some(baseline.id), Round4(score), severity, |recent|, baseline.total, deviations);
      if multiset(baseline.counted) == multiset(recent) {
        SameEventsScoreZero(baseline.counted, recent);
        RoundZero();
      }
    }

    /** The report of the pair's active baseline; without one it is empty. */
    method Assess(tenant: string, agent: string, recent: seq<EventType>) returns (report: DriftReport)
      requires Valid()
      ensures Assesses(report, Active(tenant, agent), recent)
      ensures recent == [] || (forall b :: b in Active(tenant, agent) ==> b.total == 0) ==>
        report.score == 0.0 && report.severity == NoDrift && report.deviations == []
    {
      var baseline := GetActiveBaseline(tenant, agent);
      if baseline == null {
        return DriftReport(None, 0.0, NoDrift, |recent|, 0, []);
      }
      assert baseline in Active(tenant, agent);
      report := Compare(baseline, recent);
      NothingToCompare(report, Active(tenant, agent), recent);
    }

    /** Counts the recent window and reports on it. */
    method AssessWindow(tenant: string, agent: string, lookbackHours: nat, now: int)
      returns (report: DriftReport, ghost active: set<AgentBaseline>, ghost recent: seq<EventType>)
      requires Valid()
      ensures active == set b | b in baselines && b.isActive && b.tenant == tenant && b.agent == agent
      ensures var since := now - lookbackHours * 3_600_000_000;
              && (forall k ::
                    multiset(recent)[k] ==
                    |set i | 0 <= i < |events| && events[i].tenant == tenant && events[i].agent == agent
                             && events[i].timestamp >= since && events[i].eventType == k|)
              && |recent| ==
                 |set i | 0 <= i < |events| && events[i].tenant == tenant && events[i].agent == agent
                          && events[i].timestamp >= since|
      ensures Assesses(report, active, recent)
      ensures recent == [] || (forall b :: b in active ==> b.total == 0) ==>
        report.score == 0.0 && report.severity == NoDrift && report.deviations == []
    {
      var window := RecentTypes(tenant, agent, lookbackHours, now);
      active, recent := Active(tenant, agent), window;
      report := Assess(tenant, agent, window);
    }

    /**
     Assess the recent window, then open an alert from medium drift up. If `alerted` is an
     exception the caller gets that exception and no report.
     */
    method Analyze(tenant: string, agent: string, lookbackHours: nat, now: int, fault: Option<string>)
      returns (report: DriftReport, alerted: Result<bool>,
               ghost active: set<AgentBaseline>, ghost recent: seq<EventType>)
      requires Valid()
      modifies sentinel
      ensures active == old(set b | b in baselines && b.isActive && b.tenant == tenant && b.agent == agent)
      ensures var since := now - lookbackHours * 3_600_000_000;
              && (forall k ::
                    multiset(recent)[k] ==
                    |set i | 0 <= i < |events| && events[i].tenant == tenant && events[i].agent == agent
                             && events[i].timestamp >= since && events[i].eventType == k|)
              && |recent| ==
                 |set i | 0 <= i < |events| && events[i].tenant == tenant && events[i].agent == agent
                          && events[i].timestamp >= since|
      ensures Assesses(report, active, recent)
      ensures recent == [] || (forall b :: b in active ==> b.total == 0) ==>
        && report.score == 0.0 && report.severity == NoDrift && report.deviations == []
        && alerted == Ok(false) && (sentinel != null ==> sentinel.alerts == old(sentinel.alerts))
      ensures var due := sentinel != null && (report.severity == MediumDrift || report.severity == HighDrift);
              alerted == if due && fault.Some? then Raised(fault.value) else Ok(due)
      ensures sentinel != null ==> sentinel.policies == old(sentinel.policies)
      ensures sentinel != null ==>
        if alerted == Ok(true) then
          DriftAlertAdded(old(sentinel.alerts), sentinel.alerts, tenant, agent, report.severity)
        else sentinel.alerts == old(sentinel.alerts)
    {
      report, active, recent := AssessWindow(tenant, agent, lookbackHours, now);
      alerted := RaiseAlert(tenant, agent, report.severity, fault);
    }

    /** Opens the alert that is due, if there is a sentinel service to open it. */
    method RaiseAlert(tenant: string, agent: string, severity: Label, fault: Option<string>)
      returns (r: Result<bool>)
      modifies sentinel
      ensures var due := sentinel != null && (severity == MediumDrift || severity == HighDrift);
              r == if due && fault.Some? then Raised(fault.value) else Ok(due)
      ensures sentinel != null ==> sentinel.policies == old(sentinel.policies)
      ensures sentinel != null ==>
        if r == Ok(true) then DriftAlertAdded(old(sentinel.alerts), sentinel.alerts, tenant, agent, severity)
        else sentinel.alerts == old(sentinel.alerts)
    {
      var alert := DriftAlert(tenant, agent, severity);
      if sentinel == null || alert.None? {
        return Ok(false);
      }
      var created := sentinel.CreateAlert(alert.value, fault);
      if created.Raised? {
        return Raised(created.message);
      }
      return Ok(true);
    }
  }

  // ---- The printed score ----

  /**
   A report prints the rounded score beside the label of the exact one. The two disagree exactly when
   rounding lifts the score of its windows onto a threshold which that score does not reach.
   The closed ends of the intervals are ties, which exact rounding takes to the even digit.
   */
  lemma PrintedScoreMayDisagree(report: DriftReport, b: AgentBaseline, recent: seq<EventType>)
    requires Compares(report, b, recent)
    ensures var score := Score(b.counts, b.total, CountOf(recent), |recent|);
            report.severity != LabelOf(report.score) <==>
            0.19995 <= score < 0.2 || 0.39995 <= score < 0.4 || 0.59995 <= score < 0.6
  {
    RoundedLabelDiffers(Score(b.counts, b.total, CountOf(recent), |recent|));
  }

  /** The report of one baseline and its recent window prints 0.2, the threshold of low drift, and says no drift. */
  method MislabelledReport() returns (report: DriftReport, baseline: AgentBaseline)
    ensures fresh(baseline) && baseline.counts == CountOf(baseline.counted) && baseline.total == |baseline.counted|
    ensures Compares(report, baseline, TWO_TYPES)
    ensures report.score == 0.2 && LabelOf(report.score) == LowDrift && report.severity == NoDrift
  {
    var counts := CountEvents(ONE_TYPE);
    var service := new DriftDetectionService(null, []);
    baseline := new AgentBaseline(0, "tenant", "agent", 24, counts, 0, |ONE_TYPE|, ONE_TYPE);
    report := service.Compare(baseline, TWO_TYPES);
    JustBelowLow();
    RoundedUp(report, baseline, TWO_TYPES);
  }

  lemma RoundedUp(report: DriftReport, b: AgentBaseline, recent: seq<EventType>)
    requires Compares(report, b, recent) && Score(b.counts, b.total, CountOf(recent), |recent|) == 0.19997
    ensures report.score == 0.2 && report.severity == NoDrift
  {
  }

  lemma RoundZero()
    ensures Round4(0.0) == 0.0
  {
    assert 0.0 * 10000.0 == 0.0;
  }
}
