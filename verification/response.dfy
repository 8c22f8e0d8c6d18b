/** The audit trail: append-only entries written by the two workflows. */
module Audit {
  import opened Wrappers
  import opened Enums

  datatype AuditEntry =
    | ResponseApplied(
        tenant: string, alertId: nat, severity: Option<Severity>, kind: Option<SentinelType>, policyId: Option<nat>,
        action: Option<Action>, resolved: bool)
    | ReviewRequested(
        tenant: string, alertId: nat, severity: Option<Severity>, kind: Option<SentinelType>, reviewer: Option<string>)
    | ReviewCompleted(
        tenant: string, actor: string, alertId: nat, decision: string, notes: Option<string>, decided: Action)

  /** A state field that Python would treat as true: present and not the empty string. */
  predicate Truthy(text: Option<string>) {
    text.Some? && text.value != ""
  }

  class AuditService {
    var entries: seq<AuditEntry>

    constructor ()
      ensures entries == []
    {
      entries := [];
    }

    method Record(entry: AuditEntry, fault: Option<string>) returns (r: Result<nat>)
      modifies this
      ensures match fault
              case Some(m) => r == Raised(m) && entries == old(entries)
              case None => r == Ok(old(|entries|)) && entries == old(entries) + [entry]
    {
      if fault.Some? {
        return Raised(fault.value);
      }
      entries := entries + [entry];
      return Ok(|entries| - 1);
    }
  }
}

/** langgraph_workflows/sentinels/graph.py: the automated response to one alert. */
module SentinelResponse {
  import opened Wrappers
  import opened Enums
  import opened Sentinel
  import opened PolicyEvaluation
  import opened Audit

  datatype State = State(
    alertId: nat, tenant: string, severity: Option<Severity>, kind: Option<SentinelType>, agent: Option<string>,
    matchedPolicy: Option<nat>, action: Option<Action>, auditId: Option<nat>, resolved: bool, error: Option<string>)

  /** The tables that the services read and write. */
  datatype Store = Store(alerts: seq<Alert>, policies: seq<Policy>, audits: seq<AuditEntry>)

  /** What each service call raises in a run, if anything. Every node is entered at most once. */
  datatype Faults = Faults(
    load: Option<string>, list: Option<string>, resolveQuery: Option<string>, resolveCommit: Option<string>,
    record: Option<string>)

  datatype Node = LoadAlert | FindPolicy | ExecuteAction | ResolveWithDefault | RecordOutcome | End

  // ---- The nodes: each returns the state with its partial update merged in ----

  function Loaded(s: State, st: Store, f: Faults): State {
    match LoadError(st.alerts, s.alertId, f.load)
    case Some(m) => s.(error := Some(m))
    case None =>
      var source := st.alerts[s.alertId].source;
      s.(severity := Some(source.severity), kind := Some(source.sentinelType), agent := Some(source.agent),
         error := None)
  }

  /** The tenant's active policies for a sentinel type, newest first. A missing type matches none. */
  function MatchingPolicies(policies: seq<Policy>, tenant: string, kind: Option<SentinelType>): seq<Policy> {
    Filter(ListPolicies(policies, tenant, true), (p: Policy) => kind == Some(p.sentinelType))
  }

  function Found(s: State, policies: seq<Policy>, f: Faults): State {
    if f.list.Some? then s.(error := f.list, matchedPolicy := None, action := None)
    else
      var matching := MatchingPolicies(policies, s.tenant, s.kind);
      if matching != [] then s.(matchedPolicy := Some(matching[0].id), action := Some(matching[0].action))
      else s.(matchedPolicy := None, action := None)
  }

  function Executed(s: State, st: Store, f: Faults, now: int): (State, Store) {
    match ResolveError(st.alerts, s.alertId, f.resolveQuery, f.resolveCommit)
    case Some(m) => (s.(resolved := false, error := Some(m)), st)
    case None =>
      (s.(resolved := true, error := None),
       st.(alerts := Resolution(st.alerts, s.alertId, s.action.GetOr(Warn), now)))
  }

  function Defaulted(s: State, st: Store, f: Faults, now: int): (State, Store) {
    match ResolveError(st.alerts, s.alertId, f.resolveQuery, f.resolveCommit)
    case Some(m) => (s.(resolved := false, error := Some(m)), st)
    case None =>
      (s.(resolved := true, action := Some(Warn)), st.(alerts := Resolution(st.alerts, s.alertId, Warn, now)))
  }

  function Outcome(s: State): AuditEntry {
    ResponseApplied(s.tenant, s.alertId, s.severity, s.kind, s.matchedPolicy, s.action, s.resolved)
  }

  function Recorded(s: State, st: Store, f: Faults): (State, Store) {
    match f.record
    case Some(m) => (s.(error := Some(m)), st)
    case None => (s.(auditId := Some(|st.audits|)), st.(audits := st.audits + [Outcome(s)]))
  }

  // ---- The graph ----

  function Step(node: Node, s: State, st: Store, f: Faults, now: int): (State, Store) {
    match node
    case LoadAlert => (Loaded(s, st, f), st)
    case FindPolicy => (Found(s, st.policies, f), st)
    case ExecuteAction => Executed(s, st, f, now)
    case ResolveWithDefault => Defaulted(s, st, f, now)
    case RecordOutcome => Recorded(s, st, f)
    case End => (s, st)
  }

  /** The edges; the two routers read the merged state. */
  function Next(node: Node, s: State): Node {
    match node
    case LoadAlert => if Truthy(s.error) then End else FindPolicy
    case FindPolicy => if s.matchedPolicy.Some? then ExecuteAction else ResolveWithDefault
    case ExecuteAction => RecordOutcome
    case ResolveWithDefault => RecordOutcome
    case RecordOutcome => End
    case End => End
  }

  function Height(node: Node): nat {
    match node
    case LoadAlert => 4
    case FindPolicy => 3
    case ExecuteAction => 2
    case ResolveWithDefault => 2
    case RecordOutcome => 1
    case End => 0
  }

  /** The rest of a run from a node, and the nodes it visits. */
  function Walk(node: Node, s: State, st: Store, f: Faults, now: int): (State, Store, seq<Node>)
    decreases Height(node)
  {
    if node == End then (s, st, [])
    else
      var (s1, st1) := Step(node, s, st, f, now);
      var (s2, st2, visited) := Walk(Next(node, s1), s1, st1, f, now);
      (s2, st2, [node] + visited)
  }

  /** The walk from a node, after the nodes in `before`. */
  lemma WalkFrom(node: Node, s: State, st: Store, f: Faults, now: int, before: seq<Node>)
    requires node != End
    ensures var (s1, st1) := Step(node, s, st, f, now);
            var whole, rest := Walk(node, s, st, f, now), Walk(Next(node, s1), s1, st1, f, now);
            (whole.0, whole.1, before + whole.2) == (rest.0, rest.1, before + [node] + rest.2)
  {
    var (s1, st1) := Step(node, s, st, f, now);
    var rest := Walk(Next(node, s1), s1, st1, f, now).2;
    assert before + ([node] + rest) == before + [node] + rest;
  }

  class Graph {
    const sentinel: SentinelService
    const audit: AuditService

    constructor (sentinel: SentinelService, audit: AuditService)
      ensures this.sentinel == sentinel && this.audit == audit
    {
      this.sentinel, this.audit := sentinel, audit;
    }

    ghost function View(): Store
      reads sentinel, audit
    {
      Store(sentinel.alerts, sentinel.policies, audit.entries)
    }

    method LoadAlertNode(s: State, f: Faults) returns (r: State)
      ensures r == Loaded(s, View(), f)
    {
      var got := sentinel.GetAlert(s.alertId, f.load);
      if got.Raised? {
        return s.(error := Some(got.message));
      }
      var source := got.value.source;
      assert got.value.Row() == sentinel.alerts[s.alertId];
      return s.(severity := Some(source.severity), kind := Some(source.sentinelType), agent := Some(source.agent),
                error := None);
    }

    method ExecuteActionNode(s: State, f: Faults, now: int) returns (r: State)
      modifies sentinel
      ensures (r, View()) == Executed(s, old(View()), f, now)
    {
      var done := sentinel.ResolveAlert(s.alertId, s.action.GetOr(Warn), now, f.resolveQuery, f.resolveCommit);
      if done.Raised? {
        return s.(resolved := false, error := Some(done.message));
      }
      return s.(resolved := true, error := None);
    }

    method ResolveWithDefaultNode(s: State, f: Faults, now: int) returns (r: State)
      modifies sentinel
      ensures (r, View()) == Defaulted(s, old(View()), f, now)
    {
      var done := sentinel.ResolveAlert(s.alertId, Warn, now, f.resolveQuery, f.resolveCommit);
      if done.Raised? {
        return s.(resolved := false, error := Some(done.message));
      }
      return s.(resolved := true, action := Some(Warn));
    }

    method RecordOutcomeNode(s: State, f: Faults) returns (r: State)
      modifies audit
      ensures (r, View()) == Recorded(s, old(View()), f)
    {
      var entry := audit.Record(Outcome(s), f.record);
      if entry.Raised? {
        return s.(error := Some(entry.message));
      }
      return s.(auditId := Some(entry.value));
    }

    method Enter(node: Node, s: State, f: Faults, now: int) returns (r: State)
      requires node != End
      modifies sentinel, audit
      ensures (r, View()) == Step(node, s, old(View()), f, now)
    {
      match node {
        case LoadAlert => r := LoadAlertNode(s, f);
        case FindPolicy => r := Found(s, sentinel.policies, f);
        case ExecuteAction => r := ExecuteActionNode(s, f, now);
        case ResolveWithDefault => r := ResolveWithDefaultNode(s, f, now);
        case RecordOutcome => r := RecordOutcomeNode(s, f);
      }
    }

    /** A run of the compiled graph from its start. */
    method Invoke(initial: State, f: Faults, now: int) returns (s: State, ghost visited: seq<Node>)
      modifies sentinel, audit
      ensures (s, View(), visited) == Walk(LoadAlert, initial, old(View()), f, now)
    {
      s, visited := initial, [];
      var node := LoadAlert;
      ghost var all := Walk(LoadAlert, initial, View(), f, now).2;
      assert [] + all == all;
      while node != End
        invariant var (last, store, rest) := Walk(node, s, View(), f, now);
                  (last, store, visited + rest) == Walk(LoadAlert, initial, old(View()), f, now)
        decreases Height(node)
      {
        WalkFrom(node, s, View(), f, now, visited);
        visited := visited + [node];
        s := Enter(node, s, f, now);
        node := Next(node, s);
      }
      assert visited + [] == visited;
    }
  }

  // ---- What every run does ----

  /** Whether the run gets past loading: the alert was read, or the exception had no text. */
  predicate Proceeds(initial: State, st: Store, f: Faults) {
    !Truthy(LoadError(st.alerts, initial.alertId, f.load))
  }

  /**
   A run stops after `LoadAlert`, having written nothing, or makes exactly one attempt to resolve the
   alert and then one to record an audit entry, which states truthfully whether it was resolved.
   */
  lemma EveryRun(initial: State, st: Store, f: Faults, now: int)
    ensures var (s, after, visited) := Walk(LoadAlert, initial, st, f, now);
            && |visited| <= 4
            && after.policies == st.policies
            && if !Proceeds(initial, st, f) then
                 && visited == [LoadAlert]
                 && after == st
                 && s == initial.(error := LoadError(st.alerts, initial.alertId, f.load))
               else
                 && visited == [LoadAlert, FindPolicy, Next(FindPolicy, s), RecordOutcome]
                 && (s.resolved <==>
                       initial.alertId < |st.alerts| && f.resolveQuery.None? && f.resolveCommit.None?)
                 && (if s.resolved then
                       s.action.Some? && ResolvedOnly(st.alerts, after.alerts, initial.alertId, s.action.value, now)
                     else after.alerts == st.alerts)
                 && (f.record.Some? ==> after.audits == st.audits)
                 && (f.record.None? ==>
                       after.audits == st.audits + [ResponseApplied(initial.tenant, initial.alertId, s.severity, s.kind,
                                                                    s.matchedPolicy, s.action, s.resolved)])
  {
    var (s, after, visited) := Walk(LoadAlert, initial, st, f, now);
    RunShape(initial, st, f, now);
    if Proceeds(initial, st, f) && s.resolved {
      ResolutionResolves(st.alerts, initial.alertId, s.action.value, now);
    }
  }

  lemma ResolutionResolves(alerts: seq<Alert>, id: nat, action: Action, now: int)
    requires id < |alerts|
    ensures ResolvedOnly(alerts, Resolution(alerts, id, action, now), id, action, now)
  {
  }

  lemma RunShape(initial: State, st: Store, f: Faults, now: int)
    ensures var (s, after, visited) := Walk(LoadAlert, initial, st, f, now);
            if !Proceeds(initial, st, f) then
              && visited == [LoadAlert] && after == st
              && s == initial.(error := LoadError(st.alerts, initial.alertId, f.load))
            else
              && visited == [LoadAlert, FindPolicy, Next(FindPolicy, s), RecordOutcome]
              && s.tenant == initial.tenant && s.alertId == initial.alertId && after.policies == st.policies
              && (s.resolved <==> ResolveError(st.alerts, initial.alertId, f.resolveQuery, f.resolveCommit).None?)
              && (if s.resolved then
                    s.action.Some? && after.alerts == Resolution(st.alerts, initial.alertId, s.action.value, now)
                  else after.alerts == st.alerts)
              && after.audits == (st.audits + if f.record.None? then [Outcome(s)] else [])
  {
    if Proceeds(initial, st, f) {
      FullWalk(initial, st, f, now);
    }
  }

  /** The resolution step that follows `FindPolicy`. */
  function Resolving(s: State, st: Store, f: Faults, now: int): (State, Store) {
    if s.matchedPolicy.Some? then Executed(s, st, f, now) else Defaulted(s, st, f, now)
  }

  lemma FullWalk(initial: State, st: Store, f: Faults, now: int)
    requires Proceeds(initial, st, f)
    ensures var s2 := Found(Loaded(initial, st, f), st.policies, f);
            var (s3, st3) := Resolving(s2, st, f, now);
            var (s4, st4) := Recorded(s3, st3, f);
            Walk(LoadAlert, initial, st, f, now) ==
              (s4, st4, [LoadAlert, FindPolicy, Next(FindPolicy, s2), RecordOutcome])
  {
    var s1 := Loaded(initial, st, f);
    var s2 := Found(s1, st.policies, f);
    var third := Next(FindPolicy, s2);
    var (s3, st3) := Resolving(s2, st, f, now);
    var (s4, st4) := Recorded(s3, st3, f);
    WalkOn(RecordOutcome, s3, st3, f, now, []);
    WalkOn(third, s2, st, f, now, [RecordOutcome]);
    WalkOn(FindPolicy, s1, st, f, now, [third, RecordOutcome]);
    WalkOn(LoadAlert, initial, st, f, now, [FindPolicy, third, RecordOutcome]);
    assert [LoadAlert] + [FindPolicy, third, RecordOutcome] == [LoadAlert, FindPolicy, third, RecordOutcome];
  }

  /** Unfolding a walk by one node. */
  lemma WalkOn(node: Node, s: State, st: Store, f: Faults, now: int, rest: seq<Node>)
    requires node != End
    requires var (s1, st1) := Step(node, s, st, f, now); Walk(Next(node, s1), s1, st1, f, now).2 == rest
    ensures var (s1, st1) := Step(node, s, st, f, now);
            var w := Walk(Next(node, s1), s1, st1, f, now);
            Walk(node, s, st, f, now) == (w.0, w.1, [node] + rest)
  {
  }

  /**
   The state that a completed run reports. The alert's own fields are those of the loaded row; a failed listing
   of the policies is still reported as the run's error when the alert is then resolved by default.
   */
  lemma FinalState(initial: State, st: Store, f: Faults, now: int)
    requires Proceeds(initial, st, f)
    ensures var s := Walk(LoadAlert, initial, st, f, now).0;
            var loadError := LoadError(st.alerts, initial.alertId, f.load);
            var resolveError := ResolveError(st.alerts, initial.alertId, f.resolveQuery, f.resolveCommit);
            && s.alertId == initial.alertId && s.tenant == initial.tenant
            && (loadError.None? ==>
                  var source := st.alerts[initial.alertId].source;
                  && s.severity == Some(source.severity) && s.kind == Some(source.sentinelType)
                  && s.agent == Some(source.agent))
            && s.auditId == (if f.record.None? then Some(|st.audits|) else initial.auditId)
            && s.error == (if f.record.Some? then f.record
                           else if resolveError.Some? then resolveError
                           else if s.matchedPolicy.Some? then None
                           else if f.list.Some? then f.list
                           else loadError)
  {
    FullWalk(initial, st, f, now);
  }

  /** Without a matching policy the run reports the warning it resolved with, or no action if it could not resolve. */
  lemma ActionWithoutPolicy(initial: State, st: Store, f: Faults, now: int)
    requires Proceeds(initial, st, f)
    ensures var s := Walk(LoadAlert, initial, st, f, now).0;
            s.matchedPolicy.None? ==> s.action == if s.resolved then Some(Warn) else None
  {
    FullWalk(initial, st, f, now);
  }

  /** An alert that does not exist stops the run before anything is written, with an error that has text. */
  lemma MissingAlertStops(initial: State, st: Store, f: Faults, now: int)
    requires initial.alertId >= |st.alerts| && f.load.None?
    ensures var (s, after, visited) := Walk(LoadAlert, initial, st, f, now);
            && visited == [LoadAlert] && after == st
            && s.error.Some? && s.error.value != "" && s.resolved == initial.resolved
  {
    EveryRun(initial, st, f, now);
  }

  /** Loading can fail and the alert still be resolved: an exception without text does not stop the run. */
  lemma BlankFailureDoesNotStop(initial: State, st: Store, now: int)
    requires initial.alertId < |st.alerts|
    ensures var f := Faults(Some(""), None, None, None, None);
            var (s, after, _) := Walk(LoadAlert, initial, st, f, now);
            && LoadError(st.alerts, initial.alertId, f.load).Some?
            && s.resolved && after.alerts[initial.alertId].resolved && |after.audits| == |st.audits| + 1
  {
  }

  /** The exact condition: a failed load leaves the run with no further call if and only if its exception has text. */
  lemma FailedLoadStopsExactly(initial: State, st: Store, f: Faults, now: int)
    requires LoadError(st.alerts, initial.alertId, f.load).Some?
    ensures Walk(LoadAlert, initial, st, f, now).2 == [LoadAlert] <==>
            LoadError(st.alerts, initial.alertId, f.load).value != ""
  {
  }

  // ---- The policy that is executed ----

  predicate NewestToOldest(list: seq<Policy>) {
    forall i, j :: 0 <= i < j < |list| ==> list[i].id > list[j].id
  }

  lemma {:induction false} NewestFirst(policies: seq<Policy>, tenant: string, activeOnly: bool)
    requires forall k :: 0 <= k < |policies| ==> policies[k].id == k
    ensures NewestToOldest(ListPolicies(policies, tenant, activeOnly))
  {
    if policies != [] {
      var n := |policies| - 1;
      NewestFirst(policies[..n], tenant, activeOnly);
      PrependNewest(policies[n], ListPolicies(policies[..n], tenant, activeOnly), policies[..n]);
    }
  }

  lemma PrependNewest(p: Policy, older: seq<Policy>, rows: seq<Policy>)
    requires NewestToOldest(older) && (forall q :: q in older ==> q in rows)
    requires p.id == |rows| && forall k :: 0 <= k < |rows| ==> rows[k].id == k
    ensures NewestToOldest([p] + older)
  {
    forall j | 0 <= j < |older|
      ensures older[j].id < p.id
    {
      assert older[j] in rows;
    }
  }

  /** The head of a filtered list comes before every other member of it. */
  lemma {:induction false} FilterHead(list: seq<Policy>, keep: Policy -> bool, p: Policy)
    requires NewestToOldest(list)
    requires p in list && keep(p)
    ensures Filter(list, keep) != [] && Filter(list, keep)[0].id >= p.id
  {
    if !keep(list[0]) {
      assert p in list[1..];
      FilterHead(list[1..], keep, p);
    }
  }

  lemma MatchingMembers(policies: seq<Policy>, tenant: string, kind: Option<SentinelType>)
    ensures forall p :: p in MatchingPolicies(policies, tenant, kind) <==>
              p in policies && p.tenant == tenant && p.active && kind == Some(p.sentinelType)
  {
    FilterMembers(ListPolicies(policies, tenant, true), (p: Policy) => kind == Some(p.sentinelType));
  }

  /**
   When a run executes a policy, it is the tenant's newest active policy for the alert's sentinel type, the
   run's action is that policy's, and evaluating the same policies at critical severity is at least as strict.
   */
  lemma ExecutedPolicy(initial: State, st: Store, f: Faults, now: int)
    requires forall i :: 0 <= i < |st.policies| ==> st.policies[i].id == i
    requires ExecuteAction in Walk(LoadAlert, initial, st, f, now).2
    ensures var (s, after, _) := Walk(LoadAlert, initial, st, f, now);
            && s.kind.Some? && s.matchedPolicy.Some? && s.matchedPolicy.value < |st.policies|
            && var p := st.policies[s.matchedPolicy.value];
            && s.action == Some(p.action)
            && Applies(p, initial.tenant, s.kind.value, Critical)
            && (forall q ::
                  q in st.policies && q.tenant == initial.tenant && q.active && s.kind == Some(q.sentinelType) ==>
                    q.id <= p.id)
            && ActionRank(p.action) <= ActionRank(Evaluate(st.policies, initial.tenant, s.kind.value, Critical).action)
  {
    EveryRun(initial, st, f, now);
    FoundPolicy(Loaded(initial, st, f), st.policies, f);
    KeptToTheEnd(initial, st, f, now);
  }

  /** What `FindPolicy` finds. */
  lemma FoundPolicy(s: State, policies: seq<Policy>, f: Faults)
    requires forall i :: 0 <= i < |policies| ==> policies[i].id == i
    requires Found(s, policies, f).matchedPolicy.Some?
    ensures var found := Found(s, policies, f);
            && found.matchedPolicy.value < |policies|
            && var p := policies[found.matchedPolicy.value];
            && found.kind == Some(p.sentinelType) && found.action == Some(p.action)
            && Applies(p, s.tenant, p.sentinelType, Critical)
            && (forall q :: q in policies && q.tenant == s.tenant && q.active && s.kind == Some(q.sentinelType) ==>
                              q.id <= p.id)
            && ActionRank(p.action) <= ActionRank(Evaluate(policies, s.tenant, p.sentinelType, Critical).action)
  {
    var m := MatchingPolicies(policies, s.tenant, s.kind);
    MatchingMembers(policies, s.tenant, s.kind);
    assert m[0] in m;
    NewestMatch(policies, s.tenant, s.kind);
    EvaluationExact(policies, s.tenant, m[0].sentinelType, Critical);
  }

  /** The default response is taken exactly when the policies could not be listed or none matches, and it warns. */
  lemma DefaultResponse(initial: State, st: Store, f: Faults, now: int)
    requires Proceeds(initial, st, f)
    ensures var (s, after, visited) := Walk(LoadAlert, initial, st, f, now);
            && (ResolveWithDefault in visited <==>
                  f.list.Some? || forall p :: p in st.policies && p.tenant == initial.tenant && p.active ==>
                                    Loaded(initial, st, f).kind != Some(p.sentinelType))
            && (ResolveWithDefault in visited && s.resolved ==> after.alerts[initial.alertId].action == Some(Warn))
  {
    EveryRun(initial, st, f, now);
    FullWalk(initial, st, f, now);
    var s1 := Loaded(initial, st, f);
    var m := MatchingPolicies(st.policies, s1.tenant, s1.kind);
    MatchingMembers(st.policies, s1.tenant, s1.kind);
    assert m != [] ==> m[0] in m;
  }

  lemma NewestMatch(policies: seq<Policy>, tenant: string, kind: Option<SentinelType>)
    requires forall k :: 0 <= k < |policies| ==> policies[k].id == k
    ensures var m := MatchingPolicies(policies, tenant, kind);
            forall q :: q in m ==> q.id <= m[0].id
  {
    var list := ListPolicies(policies, tenant, true);
    var m := MatchingPolicies(policies, tenant, kind);
    MatchingMembers(policies, tenant, kind);
    NewestFirst(policies, tenant, true);
    forall q | q in m
      ensures q.id <= m[0].id
    {
      FilterHead(list, (p: Policy) => kind == Some(p.sentinelType), q);
    }
  }

  /** After `FindPolicy` a run that executes a policy changes neither the type, the policy nor the action. */
  lemma KeptToTheEnd(initial: State, st: Store, f: Faults, now: int)
    requires Proceeds(initial, st, f)
    requires Found(Loaded(initial, st, f), st.policies, f).matchedPolicy.Some?
    ensures var s := Walk(LoadAlert, initial, st, f, now).0;
            var s2 := Found(Loaded(initial, st, f), st.policies, f);
            s.kind == s2.kind && s.matchedPolicy == s2.matchedPolicy && s.action == s2.action
  {
    FullWalk(initial, st, f, now);
  }
}
