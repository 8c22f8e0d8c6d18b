/** langgraph_workflows/human_review/graph.py: escalation of one alert to a human reviewer. */
module HumanReview {
  import opened Wrappers
  import opened Enums
  import opened Sentinel
  import opened Audit
  import opened PolicyEvaluation

  datatype State = State(
    alertId: nat, tenant: string, severity: Option<Severity>, kind: Option<SentinelType>, reviewer: Option<string>,
    decision: Option<string>, notes: Option<string>, auditId: Option<nat>, resolved: bool, error: Option<string>)

  /** One committed write, in the order the writes were made. */
  datatype Write = Requested(alertId: nat) | Resolved(alertId: nat, action: Action) | Completed(alertId: nat)

  /** The tables, and for the proofs the journal of the writes made to them. */
  datatype Store = Store(alerts: seq<Alert>, audits: seq<AuditEntry>, journal: seq<Write>)

  datatype Faults = Faults(
    load: Option<string>, request: Option<string>, resolveQuery: Option<string>, resolveCommit: Option<string>,
    complete: Option<string>)

  datatype Node = LoadAlert | RequestReview | RecordDecision | End

  function ActionFor(decision: string): Action {
    if decision == "approve" then Allow
    else if decision == "reject" then BlockToolCall
    else if decision == "escalate" then RequestHumanReview
    else Warn
  }

  /** Approving permits, rejecting is the mildest blocking action, escalating and anything else do not block. */
  lemma DecisionsAndRanks(decision: string)
    ensures ActionFor("approve") == Allow && ActionRank(ActionFor("reject")) == BLOCK_THRESHOLD
    ensures ActionRank(ActionFor(decision)) >= BLOCK_THRESHOLD <==> decision == "reject"
    ensures ActionRank(ActionFor("escalate")) == BLOCK_THRESHOLD - 1
    ensures decision !in {"approve", "reject", "escalate"} <==> ActionFor(decision) == Warn
  {
    assert "approve"[0] == 'a' && "reject"[0] == 'r' && "escalate"[0] == 'e';
  }

  /** The decision recorded: the one given, or a rejection if there is none. */
  function DecisionOf(s: State): string {
    if Truthy(s.decision) then s.decision.value else "reject"
  }

  // ---- The nodes ----

  function Loaded(s: State, st: Store, f: Faults): State {
    match LoadError(st.alerts, s.alertId, f.load)
    case Some(m) => s.(error := Some(m))
    case None =>
      var source := st.alerts[s.alertId].source;
      s.(severity := Some(source.severity), kind := Some(source.sentinelType), error := None)
  }

  function Request(s: State): AuditEntry {
    ReviewRequested(s.tenant, s.alertId, s.severity, s.kind, s.reviewer)
  }

  function RequestedBy(s: State, st: Store, f: Faults): (State, Store) {
    match f.request
    case Some(m) => (s.(error := Some(m)), st)
    case None =>
      (s.(auditId := Some(|st.audits|)),
       st.(audits := st.audits + [Request(s)], journal := st.journal + [Requested(s.alertId)]))
  }

  function Completion(s: State): AuditEntry {
    var actor := if Truthy(s.reviewer) then s.reviewer.value else "system";
    ReviewCompleted(s.tenant, actor, s.alertId, DecisionOf(s), s.notes, ActionFor(DecisionOf(s)))
  }

  function Decided(s: State, st: Store, f: Faults, now: int): (State, Store) {
    var action := ActionFor(DecisionOf(s));
    match ResolveError(st.alerts, s.alertId, f.resolveQuery, f.resolveCommit)
    case Some(m) => (s.(resolved := false, error := Some(m)), st)
    case None =>
      var st1 := st.(alerts := Resolution(st.alerts, s.alertId, action, now),
                     journal := st.journal + [Resolved(s.alertId, action)]);
      match f.complete
      case Some(m) => (s.(resolved := false, error := Some(m)), st1)
      case None =>
        (s.(resolved := true, error := None),
         st1.(audits := st1.audits + [Completion(s)], journal := st1.journal + [Completed(s.alertId)]))
  }

  // ---- The graph ----

  function Step(node: Node, s: State, st: Store, f: Faults, now: int): (State, Store) {
    match node
    case LoadAlert => (Loaded(s, st, f), st)
    case RequestReview => RequestedBy(s, st, f)
    case RecordDecision => Decided(s, st, f, now)
    case End => (s, st)
  }

  function Next(node: Node, s: State): Node {
    match node
    case LoadAlert => if Truthy(s.error) then End else RequestReview
    case RequestReview => if Truthy(s.error) then End else if Truthy(s.decision) then RecordDecision else End
    case RecordDecision => End
    case End => End
  }

  function Height(node: Node): nat {
    match node
    case LoadAlert => 3
    case RequestReview => 2
    case RecordDecision => 1
    case End => 0
  }

  /** The rest of a run from a node, and each node visited with the state it was entered in. */
  function Walk(node: Node, s: State, st: Store, f: Faults, now: int): (State, Store, seq<(Node, State)>)
    decreases Height(node)
  {
    if node == End then (s, st, [])
    else
      var (s1, st1) := Step(node, s, st, f, now);
      var (s2, st2, visited) := Walk(Next(node, s1), s1, st1, f, now);
      (s2, st2, [(node, s)] + visited)
  }

  /** The walk from a node, after the nodes in `before`. */
  lemma WalkFrom(node: Node, s: State, st: Store, f: Faults, now: int, before: seq<(Node, State)>)
    requires node != End
    ensures var (s1, st1) := Step(node, s, st, f, now);
            var whole, rest := Walk(node, s, st, f, now), Walk(Next(node, s1), s1, st1, f, now);
            (whole.0, whole.1, before + whole.2) == (rest.0, rest.1, before + [(node, s)] + rest.2)
  {
    var (s1, st1) := Step(node, s, st, f, now);
    var rest := Walk(Next(node, s1), s1, st1, f, now).2;
    assert before + ([(node, s)] + rest) == before + [(node, s)] + rest;
  }

  class Graph {
    const sentinel: SentinelService
    const audit: AuditService
    ghost var journal: seq<Write>

    constructor (sentinel: SentinelService, audit: AuditService)
      ensures this.sentinel == sentinel && this.audit == audit && journal == []
    {
      this.sentinel, this.audit, journal := sentinel, audit, [];
    }

    ghost function View(): Store
      reads this, sentinel, audit
    {
      Store(sentinel.alerts, audit.entries, journal)
    }

    method LoadAlertNode(s: State, f: Faults) returns (r: State)
      ensures r == Loaded(s, View(), f)
    {
      var got := sentinel.GetAlert(s.alertId, f.load);
      if got.Raised? {
        return s.(error := Some(got.message));
      }
      var source := got.value.source;
      assert got.value.Row() == sentinel.alerts[s.alertId];
      return s.(severity := Some(source.severity), kind := Some(source.sentinelType), error := None);
    }

    method RequestReviewNode(s: State, f: Faults) returns (r: State)
      modifies this, audit
      ensures (r, View()) == RequestedBy(s, old(View()), f)
    {
      var entry := audit.Record(Request(s), f.request);
      if entry.Raised? {
        return s.(error := Some(entry.message));
      }
      journal := journal + [Requested(s.alertId)];
      return s.(auditId := Some(entry.value));
    }

    method RecordDecisionNode(s: State, f: Faults, now: int) returns (r: State)
      modifies this, sentinel, audit
      ensures (r, View()) == Decided(s, old(View()), f, now)
      ensures sentinel.policies == old(sentinel.policies)
    {
      var action := ActionFor(DecisionOf(s));
      var done := sentinel.ResolveAlert(s.alertId, action, now, f.resolveQuery, f.resolveCommit);
      if done.Raised? {
        return s.(resolved := false, error := Some(done.message));
      }
      journal := journal + [Resolved(s.alertId, action)];
      var entry := audit.Record(Completion(s), f.complete);
      if entry.Raised? {
        return s.(resolved := false, error := Some(entry.message));
      }
      journal := journal + [Completed(s.alertId)];
      return s.(resolved := true, error := None);
    }

    method Enter(node: Node, s: State, f: Faults, now: int) returns (r: State)
      requires node != End
      modifies this, sentinel, audit
      ensures (r, View()) == Step(node, s, old(View()), f, now)
      ensures sentinel.policies == old(sentinel.policies)
    {
      match node {
        case LoadAlert => r := LoadAlertNode(s, f);
        case RequestReview => r := RequestReviewNode(s, f);
        case RecordDecision => r := RecordDecisionNode(s, f, now);
      }
    }

    method Invoke(initial: State, f: Faults, now: int) returns (s: State, ghost visited: seq<(Node, State)>)
      modifies this, sentinel, audit
      ensures (s, View(), visited) == Walk(LoadAlert, initial, old(View()), f, now)
      ensures sentinel.policies == old(sentinel.policies)
    {
      s, visited := initial, [];
      var node := LoadAlert;
      ghost var all := Walk(LoadAlert, initial, View(), f, now).2;
      assert [] + all == all;
      while node != End
        invariant var (last, store, rest) := Walk(node, s, View(), f, now);
                  (last, store, visited + rest) == Walk(LoadAlert, initial, old(View()), f, now)
        invariant sentinel.policies == old(sentinel.policies)
        decreases Height(node)
      {
        WalkFrom(node, s, View(), f, now, visited);
        visited := visited + [(node, s)];
        s := Enter(node, s, f, now);
        node := Next(node, s);
      }
      assert visited + [] == visited;
    }
  }

  // ---- One run ----

  predicate Proceeds(initial: State, st: Store, f: Faults) {
    !Truthy(LoadError(st.alerts, initial.alertId, f.load))
  }

  /** Whether the run gets as far as recording a decision. */
  predicate Decides(initial: State, st: Store, f: Faults) {
    Proceeds(initial, st, f) && !Truthy(f.request) && Truthy(initial.decision)
  }

  /** Whether the run resolves the alert. */
  predicate Resolves(initial: State, st: Store, f: Faults) {
    Decides(initial, st, f) && ResolveError(st.alerts, initial.alertId, f.resolveQuery, f.resolveCommit).None?
  }

  function Logged(journal: seq<Write>, write: Write, happens: bool): seq<Write> {
    if happens then journal + [write] else journal
  }

  /** The journal after a run: a request, then a resolution, then a completion, each if it happens. */
  function JournalAfter(journal: seq<Write>, initial: State, st: Store, f: Faults): seq<Write> {
    var a := initial.alertId;
    var asked := Logged(journal, Requested(a), Proceeds(initial, st, f) && f.request.None?);
    var done := Logged(asked, Resolved(a, ActionFor(DecisionOf(initial))), Resolves(initial, st, f));
    Logged(done, Completed(a), Resolves(initial, st, f) && f.complete.None?)
  }

  /** The name under which a completion is recorded. */
  function ActorOf(reviewer: Option<string>): string {
    match reviewer
    case Some(name) => if name == "" then "system" else name
    case None => "system"
  }

  /** When a run goes on after loading, decides, and resolves its alert: an error stops it only if it has text. */
  lemma HowFarExactly(initial: State, st: Store, f: Faults)
    ensures Proceeds(initial, st, f) <==>
            f.load == Some("") || (f.load == None && initial.alertId < |st.alerts|)
    ensures Decides(initial, st, f) <==>
            && Proceeds(initial, st, f) && (f.request == None || f.request == Some(""))
            && initial.decision != None && initial.decision != Some("")
    ensures Resolves(initial, st, f) <==>
            && Decides(initial, st, f) && initial.alertId < |st.alerts|
            && f.resolveQuery == None && f.resolveCommit == None
  {
  }

  /**
   What one run does, in terms of its inputs alone. `resolved` is set only when the completion was recorded
   too: an alert whose completion could not be recorded stays resolved although the run reports it is not.
   */
  lemma EveryRun(initial: State, st: Store, f: Faults, now: int)
    ensures var (s, after, visited) := Walk(LoadAlert, initial, st, f, now);
            && after.journal == JournalAfter(st.journal, initial, st, f)
            && (if Resolves(initial, st, f) then
                  ResolvedOnly(st.alerts, after.alerts, initial.alertId, ActionFor(initial.decision.value), now)
                else after.alerts == st.alerts)
            && (Decides(initial, st, f) ==> (s.resolved <==> Resolves(initial, st, f) && f.complete.None?))
            && (!Decides(initial, st, f) ==> s.resolved == initial.resolved)
            && after.audits == st.audits
                 + (if Proceeds(initial, st, f) && f.request.None?
                    then [ReviewRequested(initial.tenant, initial.alertId, s.severity, s.kind, initial.reviewer)]
                    else [])
                 + (if Resolves(initial, st, f) && f.complete.None?
                    then [ReviewCompleted(initial.tenant, ActorOf(initial.reviewer), initial.alertId,
                                          initial.decision.value, initial.notes, ActionFor(initial.decision.value))]
                    else [])
            && s == initial.(severity := s.severity, kind := s.kind, auditId := s.auditId, resolved := s.resolved,
                             error := s.error)
            && (LoadError(st.alerts, initial.alertId, f.load).None? ==>
                  s.severity == Some(st.alerts[initial.alertId].source.severity)
                  && s.kind == Some(st.alerts[initial.alertId].source.sentinelType))
  {
    RunShape(initial, st, f, now);
  }

  lemma RunShape(initial: State, st: Store, f: Faults, now: int)
    ensures var (s, after, visited) := Walk(LoadAlert, initial, st, f, now);
            && after.journal == JournalAfter(st.journal, initial, st, f)
            && after.alerts == (if Resolves(initial, st, f)
                                then Resolution(st.alerts, initial.alertId, ActionFor(initial.decision.value), now)
                                else st.alerts)
            && (Decides(initial, st, f) ==> (s.resolved <==> Resolves(initial, st, f) && f.complete.None?))
            && (!Decides(initial, st, f) ==> s.resolved == initial.resolved)
            && after.audits == st.audits
                 + (if Proceeds(initial, st, f) && f.request.None? then [Request(s)] else [])
                 + (if Resolves(initial, st, f) && f.complete.None? then [Completion(s)] else [])
            && s == initial.(severity := s.severity, kind := s.kind, auditId := s.auditId, resolved := s.resolved,
                             error := s.error)
            && (LoadError(st.alerts, initial.alertId, f.load).None? ==>
                  s.severity == Some(st.alerts[initial.alertId].source.severity)
                  && s.kind == Some(st.alerts[initial.alertId].source.sentinelType))
  {
  }

  /**
   What a run reports beside `resolved`: the entry of its request, and the error that was written last. A failed
   request without text hides behind the outcome of the decision that follows it.
   */
  lemma FinalState(initial: State, st: Store, f: Faults, now: int)
    ensures var s := Walk(LoadAlert, initial, st, f, now).0;
            var loadError := LoadError(st.alerts, initial.alertId, f.load);
            var resolveError := ResolveError(st.alerts, initial.alertId, f.resolveQuery, f.resolveCommit);
            && (loadError.Some? ==> s.severity == initial.severity && s.kind == initial.kind)
            && s.auditId == (if Proceeds(initial, st, f) && f.request.None? then Some(|st.audits|)
                             else initial.auditId)
            && s.error == (if Decides(initial, st, f) then if resolveError.Some? then resolveError else f.complete
                           else if Proceeds(initial, st, f) && f.request.Some? then f.request
                           else loadError)
  {
  }

  /** `resolved` means that the alert carries the image of the decision that was given. */
  lemma ResolvedMeansDecided(initial: State, st: Store, f: Faults, now: int)
    requires !initial.resolved
    ensures var (s, after, _) := Walk(LoadAlert, initial, st, f, now);
            s.resolved ==>
              && Truthy(initial.decision) && initial.alertId < |after.alerts|
              && after.alerts[initial.alertId].resolved
              && after.alerts[initial.alertId].action == Some(ActionFor(initial.decision.value))
  {
  }

  /** The fallback decision is never used: `RecordDecision` is entered only with a decision in the state. */
  lemma FallbackUnreachable(initial: State, st: Store, f: Faults, now: int)
    ensures forall v :: v in Walk(LoadAlert, initial, st, f, now).2 && v.0 == RecordDecision ==>
              Truthy(v.1.decision) && v.1.decision == initial.decision
  {
  }

  // ---- Requests before resolutions ----

  function Count(journal: seq<Write>, p: Write -> bool): nat {
    if journal == [] then 0 else Count(journal[..|journal| - 1], p) + if p(journal[|journal| - 1]) then 1 else 0
  }

  function Requests(a: nat): Write -> bool {
    (w: Write) => w == Requested(a)
  }

  function Resolutions(a: nat): Write -> bool {
    (w: Write) => w.Resolved? && w.alertId == a
  }

  function Completions(a: nat): Write -> bool {
    (w: Write) => w == Completed(a)
  }

  /** Completions of an alert are at most its resolutions, and these at most its requests and `unasked` more. */
  predicate Settled(journal: seq<Write>, a: nat, unasked: nat) {
    && Count(journal, Completions(a)) <= Count(journal, Resolutions(a))
    && Count(journal, Resolutions(a)) <= Count(journal, Requests(a)) + unasked
  }

  /** Settled at every moment of its past. */
  predicate Balanced(journal: seq<Write>, a: nat, unasked: nat) {
    Settled(journal, a, unasked) && (journal != [] ==> Balanced(journal[..|journal| - 1], a, unasked))
  }

  lemma {:induction false} BalancedAtEveryMoment(journal: seq<Write>, a: nat, unasked: nat, k: nat)
    requires Balanced(journal, a, unasked) && k <= |journal|
    ensures Settled(journal[..k], a, unasked)
  {
    if k == |journal| {
      assert journal[..k] == journal;
    } else {
      BalancedAtEveryMoment(journal[..|journal| - 1], a, unasked, k);
      assert journal[..|journal| - 1][..k] == journal[..k];
    }
  }

  lemma {:induction false} MoreUnasked(journal: seq<Write>, a: nat, unasked: nat, more: nat)
    requires Balanced(journal, a, unasked) && unasked <= more
    ensures Balanced(journal, a, more)
  {
    if journal != [] {
      MoreUnasked(journal[..|journal| - 1], a, unasked, more);
    }
  }

  lemma Extend(journal: seq<Write>, w: Write, a: nat, unasked: nat)
    requires Balanced(journal, a, unasked)
    requires w.Resolved? && w.alertId == a ==>
               Count(journal, Resolutions(a)) < Count(journal, Requests(a)) + unasked
    requires w == Completed(a) ==> Count(journal, Completions(a)) < Count(journal, Resolutions(a))
    ensures Balanced(journal + [w], a, unasked)
  {
    CountAll(journal, w, a);
    assert (journal + [w])[..|journal|] == journal;
  }

  /** Whether a run on `alertId` may resolve alert `a` without having requested it. */
  function Unasked(alertId: nat, request: Option<string>, a: nat): nat {
    if alertId == a && request == Some("") then 1 else 0
  }

  /** A run resolves after it has requested, unless that failed without text, and completes after it has resolved. */
  lemma RunKeepsBalance(j: seq<Write>, initial: State, st: Store, f: Faults, a: nat, unasked: nat)
    requires Balanced(j, a, unasked)
    ensures Balanced(JournalAfter(j, initial, st, f), a, unasked + Unasked(initial.alertId, f.request, a))
  {
    var requested := Proceeds(initial, st, f) && f.request.None?;
    var allowed := unasked + Unasked(initial.alertId, f.request, a);
    MoreUnasked(j, a, unasked, allowed);
    ThreeWrites(j, initial.alertId, ActionFor(DecisionOf(initial)), requested, Resolves(initial, st, f),
                Resolves(initial, st, f) && f.complete.None?, a, allowed);
  }

  lemma ThreeWrites(
    j: seq<Write>, alertId: nat, action: Action, requested: bool, resolves: bool, completes: bool, a: nat, unasked: nat)
    requires Balanced(j, a, unasked) && (completes ==> resolves)
    requires resolves && alertId == a && !requested ==>
               Count(j, Resolutions(a)) < Count(j, Requests(a)) + unasked
    ensures var j1 := Logged(j, Requested(alertId), requested);
            Balanced(Logged(Logged(j1, Resolved(alertId, action), resolves), Completed(alertId), completes), a, unasked)
  {
    var j1 := Logged(j, Requested(alertId), requested);
    var j2 := Logged(j1, Resolved(alertId, action), resolves);
    CountAll(j, Requested(alertId), a);
    CountAll(j1, Resolved(alertId, action), a);
    if requested {
      Extend(j, Requested(alertId), a, unasked);
    }
    if resolves {
      Extend(j1, Resolved(alertId, action), a, unasked);
    }
    if completes {
      Extend(j2, Completed(alertId), a, unasked);
    }
  }

  lemma CountAll(journal: seq<Write>, w: Write, a: nat)
    ensures Count(journal + [w], Completions(a)) == Count(journal, Completions(a)) + if w == Completed(a) then 1 else 0
    ensures Count(journal + [w], Resolutions(a))
         == Count(journal, Resolutions(a)) + if w.Resolved? && w.alertId == a then 1 else 0
    ensures Count(journal + [w], Requests(a)) == Count(journal, Requests(a)) + if w == Requested(a) then 1 else 0
  {
  }

  /** One invocation of the graph. */
  datatype Invocation = Invocation(initial: State, faults: Faults, now: int)

  function RunAll(st: Store, runs: seq<Invocation>): Store
    decreases |runs|
  {
    if runs == [] then st else RunAll(Walk(LoadAlert, runs[0].initial, st, runs[0].faults, runs[0].now).1, runs[1..])
  }

  /** The runs on alert `a` whose request failed without text. */
  function BlankRequests(runs: seq<Invocation>, a: nat): nat
    decreases |runs|
  {
    if runs == [] then 0
    else Unasked(runs[0].initial.alertId, runs[0].faults.request, a) + BlankRequests(runs[1..], a)
  }

  lemma JournalOfRun(initial: State, st: Store, f: Faults, now: int)
    ensures Walk(LoadAlert, initial, st, f, now).1.journal == JournalAfter(st.journal, initial, st, f)
  {
    RunShape(initial, st, f, now);
  }

  lemma OneRunKeepsBalance(st: Store, r: Invocation, a: nat, unasked: nat)
    requires Balanced(st.journal, a, unasked)
    ensures Balanced(Walk(LoadAlert, r.initial, st, r.faults, r.now).1.journal, a,
                     unasked + Unasked(r.initial.alertId, r.faults.request, a))
  {
    JournalOfRun(r.initial, st, r.faults, r.now);
    RunKeepsBalance(st.journal, r.initial, st, r.faults, a, unasked);
  }

  lemma {:induction false} RunsKeepBalance(st: Store, runs: seq<Invocation>, a: nat, unasked: nat)
    requires Balanced(st.journal, a, unasked)
    ensures Balanced(RunAll(st, runs).journal, a, unasked + BlankRequests(runs, a))
    decreases |runs|
  {
    if runs != [] {
      var r := runs[0];
      OneRunKeepsBalance(st, r, a, unasked);
      RunsKeepBalance(Walk(LoadAlert, r.initial, st, r.faults, r.now).1, runs[1..], a,
                      unasked + Unasked(r.initial.alertId, r.faults.request, a));
    }
  }

  /**
   Over any sequence of runs and failures, at every moment and for every alert, completions never exceed
   resolutions, and resolutions exceed requests by at most the alert's runs whose request failed without text.
   */
  lemma EveryHistoryIsBalanced(alerts: seq<Alert>, runs: seq<Invocation>, a: nat, k: nat)
    requires k <= |RunAll(Store(alerts, [], []), runs).journal|
    ensures Settled(RunAll(Store(alerts, [], []), runs).journal[..k], a, BlankRequests(runs, a))
  {
    RunsKeepBalance(Store(alerts, [], []), runs, a, 0);
    BalancedAtEveryMoment(RunAll(Store(alerts, [], []), runs).journal, a, BlankRequests(runs, a), k);
  }

  /**
   The exact condition: a run that resolves its alert wrote the request first, unless the request failed
   without text; then its first write is the resolution.
   */
  lemma ResolutionIsRequestedExactly(initial: State, st: Store, f: Faults, now: int)
    requires Resolves(initial, st, f)
    ensures var journal, n := Walk(LoadAlert, initial, st, f, now).1.journal, |st.journal|;
            && n < |journal| && journal[..n] == st.journal
            && (journal[n] == Requested(initial.alertId) <==> f.request != Some(""))
            && (journal[n] == Resolved(initial.alertId, ActionFor(initial.decision.value)) <==> f.request == Some(""))
  {
    EveryRun(initial, st, f, now);
  }

  /** A request that fails without text is followed by a resolution nobody was asked for. */
  lemma UnrequestedResolution(initial: State, st: Store, now: int)
    requires initial.alertId < |st.alerts| && Truthy(initial.decision)
    ensures var f := Faults(None, Some(""), None, None, None);
            var (s, after, _) := Walk(LoadAlert, initial, st, f, now);
            && s.resolved && s.error == None && after.alerts[initial.alertId].resolved
            && after.audits == st.audits + [Completion(s)]
            && after.journal == st.journal
                 + [Resolved(initial.alertId, ActionFor(initial.decision.value)), Completed(initial.alertId)]
  {
    EveryRun(initial, st, Faults(None, Some(""), None, None, None), now);
  }
}
