/** Events as the services see them. Identifiers stand for UUIDs; timestamps are microseconds. */
module Events {
  import opened Enums

  datatype Event = Event(id: nat, tenant: string, agent: string, eventType: EventType, timestamp: int)
}

/** services/sentinel/service.py: alerts, policies and the event trigger table. */
module Sentinel {
  import opened Wrappers
  import opened Enums
  import opened Events

  datatype AlertCreate = AlertCreate(
    eventId: Option<nat>, tenant: string, agent: string, sentinelType: SentinelType, severity: Severity)

  /** A row of the alert table. Its identifier is its position: rows are only ever appended. */
  datatype Alert = Alert(source: AlertCreate, resolved: bool, action: Option<Action>, resolvedAt: Option<int>)

  /** A row of the policy table, in creation order; `id` is its position. */
  datatype Policy = Policy(
    id: nat, tenant: string, name: string, sentinelType: SentinelType, severity: Severity, action: Action, active: bool)

  datatype PolicyUpdate = PolicyUpdate(
    name: Option<string>, severity: Option<Severity>, action: Option<Action>, active: Option<bool>)

  const ALERT_NOT_FOUND := "Alert not found"
  const POLICY_NOT_FOUND := "Policy not found"

  /** The sentinel type and severity that an event of this type triggers, if any. */
  function Trigger(e: EventType): Option<(SentinelType, Severity)> {
    match e
    case ToolCallBlocked => Some((ToolMisuse, High))
    case ToolCallFailed => Some((ToolMisuse, Medium))
    case PolicyFailed => Some((PolicyBreach, High))
    case MemoryWriteBlocked => Some((SentinelType.Memory, High))
    case MemoryRollback => Some((SentinelType.Memory, Medium))
    case AgentFailed => Some((Trajectory, High))
    case AgentTerminated => Some((Trajectory, Critical))
    case _ => None
  }

  function EvaluateEvent(e: Event): seq<AlertCreate> {
    match Trigger(e.eventType)
    case None => []
    case Some((kind, severity)) => [AlertCreate(Some(e.id), e.tenant, e.agent, kind, severity)]
  }

  function Opened(create: AlertCreate): Alert {
    Alert(create, false, None, None)
  }

  /**
   What an event does to the alert table: seven types of event open one alert, about the event's own tenant and
   agent, and every other type opens none.
   */
  predicate AlertedFor(e: Event, before: seq<Alert>, after: seq<Alert>) {
    if e.eventType in {ToolCallBlocked, ToolCallFailed, PolicyFailed, MemoryWriteBlocked, MemoryRollback, AgentFailed,
                       AgentTerminated}
    then
      && |after| == |before| + 1 && after[..|before|] == before
      && var a := after[|before|];
      && a.source.eventId == Some(e.id) && a.source.tenant == e.tenant && a.source.agent == e.agent
      && (a.source.severity == Critical <==> e.eventType == AgentTerminated)
      && (a.source.severity == Medium <==> e.eventType in {ToolCallFailed, MemoryRollback})
      && a.source.severity != Low
      && (a.source.sentinelType == ToolMisuse <==> e.eventType in {ToolCallBlocked, ToolCallFailed})
      && (a.source.sentinelType == PolicyBreach <==> e.eventType == PolicyFailed)
      && (a.source.sentinelType == SentinelType.Memory <==> e.eventType in {MemoryWriteBlocked, MemoryRollback})
      && (a.source.sentinelType == Trajectory <==> e.eventType in {AgentFailed, AgentTerminated})
      && !a.resolved && a.action == None && a.resolvedAt == None
    else after == before
  }

  /** The text of the exception that reading the alert raises, if it raises. */
  function LoadError(alerts: seq<Alert>, id: nat, fault: Option<string>): (e: Option<string>)
    ensures e.None? ==> id < |alerts|
  {
    if fault.Some? then fault else if id >= |alerts| then Some(ALERT_NOT_FOUND) else None
  }

  /** The text of the exception that resolving the alert raises, if it raises. */
  function ResolveError(alerts: seq<Alert>, id: nat, queryFault: Option<string>, commitFault: Option<string>)
    : (e: Option<string>)
    ensures e.None? ==> id < |alerts|
  {
    var e := LoadError(alerts, id, queryFault);
    if e.Some? then e else commitFault
  }

  /** The alert table after a successful resolution; a second resolution overwrites the first. */
  function Resolution(alerts: seq<Alert>, id: nat, action: Action, now: int): seq<Alert>
    requires id < |alerts|
  {
    alerts[id := Alert(alerts[id].source, true, Some(action), Some(now))]
  }

  /** From `before` to `after` the row `id` alone has changed: it is resolved with the action, at that instant. */
  predicate ResolvedOnly(before: seq<Alert>, after: seq<Alert>, id: nat, action: Action, now: int) {
    && id < |after| == |before|
    && (forall j :: 0 <= j < |after| && j != id ==> after[j] == before[j])
    && after[id].source == before[id].source && after[id].resolved
    && after[id].action == Some(action) && after[id].resolvedAt == Some(now)
  }

  /** Rows of one tenant, newest first. */
  function ListPolicies(policies: seq<Policy>, tenant: string, activeOnly: bool): (r: seq<Policy>)
    ensures forall p :: p in r <==> p in policies && p.tenant == tenant && (activeOnly ==> p.active)
  {
    if policies == [] then []
    else
      var last := policies[|policies| - 1];
      var older := ListPolicies(policies[..|policies| - 1], tenant, activeOnly);
      assert policies == policies[..|policies| - 1] + [last];
      if last.tenant == tenant && (activeOnly ==> last.active) then [last] + older else older
  }

  /** A policy after an update: every field given replaces the stored one, every other field stays. */
  function Patched(p: Policy, u: PolicyUpdate): Policy {
    p.(name := u.name.GetOr(p.name),
       severity := u.severity.GetOr(p.severity),
       action := u.action.GetOr(p.action),
       active := u.active.GetOr(p.active))
  }

  /** One entry of an update from which the absent fields have been dropped. */
  datatype Change =
    | SetName(name: string) | SetSeverity(severity: Severity) | SetAction(action: Action) | SetActive(active: bool)

  /** The fields present in an update; a field explicitly set to false is present. */
  function Changes(u: PolicyUpdate): seq<Change> {
    (if u.name.Some? then [SetName(u.name.value)] else []) +
    (if u.severity.Some? then [SetSeverity(u.severity.value)] else []) +
    (if u.action.Some? then [SetAction(u.action.value)] else []) +
    (if u.active.Some? then [SetActive(u.active.value)] else [])
  }

  function Changed(p: Policy, c: Change): Policy {
    match c
    case SetName(n) => p.(name := n)
    case SetSeverity(s) => p.(severity := s)
    case SetAction(a) => p.(action := a)
    case SetActive(b) => p.(active := b)
  }

  function ChangedAll(p: Policy, cs: seq<Change>): Policy
    decreases |cs|
  {
    if cs == [] then p else ChangedAll(Changed(p, cs[0]), cs[1..])
  }

  lemma {:induction false} ChangedAllAppend(p: Policy, a: seq<Change>, b: seq<Change>)
    ensures ChangedAll(p, a + b) == ChangedAll(ChangedAll(p, a), b)
    decreases |a|
  {
    if a == [] {
      assert a + b == b;
    } else {
      assert (a + b)[1..] == a[1..] + b;
      ChangedAllAppend(Changed(p, a[0]), a[1..], b);
    }
  }

  /** Applying the present fields one at a time is the field-by-field patch. */
  lemma ChangesArePatch(p: Policy, u: PolicyUpdate)
    ensures ChangedAll(p, Changes(u)) == Patched(p, u)
  {
    var n := if u.name.Some? then [SetName(u.name.value)] else [];
    var s := if u.severity.Some? then [SetSeverity(u.severity.value)] else [];
    var a := if u.action.Some? then [SetAction(u.action.value)] else [];
    var b := if u.active.Some? then [SetActive(u.active.value)] else [];
    ChangedAllAppend(p, n, s);
    ChangedAllAppend(p, n + s, a);
    ChangedAllAppend(p, n + s + a, b);
  }

  /** A loaded alert row: fields are assigned in place and reach the table only on commit. */
  class SentinelAlert {
    const source: AlertCreate
    var isResolved: bool
    var actionTaken: Option<Action>
    var resolvedAt: Option<int>

    constructor (row: Alert)
      ensures Row() == row
    {
      source := row.source;
      isResolved := row.resolved;
      actionTaken := row.action;
      resolvedAt := row.resolvedAt;
    }

    function Row(): Alert
      reads this
    {
      Alert(source, isResolved, actionTaken, resolvedAt)
    }
  }

  class SentinelService {
    var alerts: seq<Alert>
    var policies: seq<Policy>

    constructor ()
      ensures alerts == [] && policies == [] && Valid()
    {
      alerts, policies := [], [];
    }

    ghost predicate Valid()
      reads this
    {
      forall i :: 0 <= i < |policies| ==> policies[i].id == i
    }

    method CreateAlert(create: AlertCreate, fault: Option<string>) returns (r: Result<nat>)
      modifies this`alerts
      ensures fault.Some? ==> r == Raised(fault.value) && alerts == old(alerts)
      ensures fault.None? ==>
        r == Ok(old(|alerts|)) && alerts == old(alerts) + [Alert(create, false, None, None)]
    {
      if fault.Some? {
        return Raised(fault.value);
      }
      alerts := alerts + [Opened(create)];
      return Ok(|alerts| - 1);
    }

    method GetAlert(id: nat, fault: Option<string>) returns (r: Result<SentinelAlert>)
      ensures match LoadError(alerts, id, fault)
              case Some(m) => r == Raised(m)
              case None => r.Ok? && fresh(r.value) && r.value.Row() == alerts[id]
      ensures r.Ok? <==> fault.None? && id < |alerts|
      ensures fault.Some? ==> r == Raised(fault.value)
      ensures r.Raised? && fault.None? ==> r.message != ""
    {
      if fault.Some? {
        return Raised(fault.value);
      }
      if id >= |alerts| {
        return Raised(ALERT_NOT_FOUND);
      }
      var alert := new SentinelAlert(alerts[id]);
      return Ok(alert);
    }

    /** The loaded row is changed in place; it reaches the table only if the commit does not raise. */
    method ResolveAlert(id: nat, action: Action, now: int, queryFault: Option<string>, commitFault: Option<string>)
      returns (r: Result<SentinelAlert>)
      modifies this`alerts
      ensures match ResolveError(old(alerts), id, queryFault, commitFault)
              case Some(m) => r == Raised(m) && alerts == old(alerts)
              case None => r.Ok? && alerts == Resolution(old(alerts), id, action, now)
      ensures r.Ok? <==> queryFault.None? && id < old(|alerts|) && commitFault.None?
      ensures r.Ok? ==> ResolvedOnly(old(alerts), alerts, id, action, now)
      ensures r.Raised? ==> alerts == old(alerts)
    {
      var found := GetAlert(id, queryFault);
      if found.Raised? {
        return found;
      }
      var alert := found.value;
      alert.isResolved := true;
      alert.actionTaken := Some(action);
      alert.resolvedAt := Some(now);
      if commitFault.Some? {
        return Raised(commitFault.value);
      }
      alerts := alerts[id := alert.Row()];
      return Ok(alert);
    }

    method CreatePolicy(tenant: string, name: string, kind: SentinelType, severity: Severity, action: Action)
      returns (id: nat)
      requires Valid()
      modifies this`policies
      ensures Valid() && id == old(|policies|)
      ensures policies == old(policies) + [Policy(id, tenant, name, kind, severity, action, true)]
    {
      id := |policies|;
      policies := policies + [Policy(id, tenant, name, kind, severity, action, true)];
    }

    method DeactivatePolicy(id: nat) returns (r: Result<nat>)
      requires Valid()
      modifies this`policies
      ensures Valid()
      ensures r == if id < old(|policies|) then Ok(id) else Raised(POLICY_NOT_FOUND)
      ensures policies == if id < old(|policies|) then old(policies)[id := old(policies)[id].(active := false)]
                          else old(policies)
    {
      if id >= |policies| {
        return Raised(POLICY_NOT_FOUND);
      }
      policies := policies[id := policies[id].(active := false)];
      return Ok(id);
    }

    /** services/policy/service.py keeps the same table; absent fields are left as stored. */
    method UpdatePolicy(id: nat, update: PolicyUpdate) returns (r: Result<nat>)
      requires Valid()
      modifies this`policies
      ensures Valid()
      ensures r == if id < old(|policies|) then Ok(id) else Raised(POLICY_NOT_FOUND)
      ensures policies == if id < old(|policies|) then old(policies)[id := Patched(old(policies)[id], update)]
                          else old(policies)
      ensures |policies| == old(|policies|)
      ensures forall j :: 0 <= j < |policies| && j != id ==> policies[j] == old(policies)[j]
      ensures id < |policies| ==>
        var p, stored := policies[id], old(policies)[id];
        && p.name == (if update.name.Some? then update.name.value else stored.name)
        && p.severity == (if update.severity.Some? then update.severity.value else stored.severity)
        && p.action == (if update.action.Some? then update.action.value else stored.action)
        && p.active == (if update.active.Some? then update.active.value else stored.active)
        && p.id == stored.id && p.tenant == stored.tenant && p.sentinelType == stored.sentinelType
    {
      if id >= |policies| {
        return Raised(POLICY_NOT_FOUND);
      }
      var policy := policies[id];
      var patch := Changes(update);
      for i := 0 to |patch|
        invariant ChangedAll(policy, patch[i..]) == ChangedAll(policies[id], patch)
      {
        policy := Changed(policy, patch[i]);
      }
      ChangesArePatch(policies[id], update);
      policies := policies[id := policy];
      return Ok(id);
    }
  }
}
