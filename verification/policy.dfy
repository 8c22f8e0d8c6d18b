/** services/policy/service.py: severity-filtered evaluation of a tenant's policies. */
module PolicyEvaluation {
  import opened Counting
  import opened Enums
  import opened Sentinel

  function ActionRank(a: Action): nat {
    match a
    case Allow => 0
    case Warn => 1
    case Redact => 2
    case RequestHumanReview => 3
    case BlockToolCall => 4
    case PauseAgent => 5
    case RollbackMemoryWrite => 6
    case ForceSafeResponse => 7
    case IsolateAgent => 8
    case TerminateExecution => 9
  }

  function SeverityRank(s: Severity): nat {
    match s
    case Low => 0
    case Medium => 1
    case High => 2
    case Critical => 3
  }

  /** Actions of this rank and above are blocking. */
  const BLOCK_THRESHOLD := ActionRank(BlockToolCall)

  predicate Matches(p: Policy, severity: Severity) {
    SeverityRank(severity) >= SeverityRank(p.severity)
  }

  function Candidates(policies: seq<Policy>, tenant: string, kind: SentinelType): seq<Policy> {
    Filter(policies, (p: Policy) => p.tenant == tenant && p.sentinelType == kind && p.active)
  }

  function Filter(policies: seq<Policy>, keep: Policy -> bool): seq<Policy> {
    if policies == [] then []
    else (if keep(policies[0]) then [policies[0]] else []) + Filter(policies[1..], keep)
  }

  function Matched(policies: seq<Policy>, tenant: string, kind: SentinelType, severity: Severity): seq<Policy> {
    Filter(Candidates(policies, tenant, kind), (p: Policy) => Matches(p, severity))
  }

  /** The first policy of the highest action rank. */
  function FirstMax(policies: seq<Policy>): Policy
    requires policies != []
  {
    if |policies| == 1 then policies[0]
    else
      var best := FirstMax(policies[..|policies| - 1]);
      var last := policies[|policies| - 1];
      if ActionRank(last.action) > ActionRank(best.action) then last else best
  }

  function WinningAction(policies: seq<Policy>): Action {
    if policies == [] then Allow else FirstMax(policies).action
  }

  datatype Evaluation = Evaluation(matchedCount: nat, action: Action, isBlocked: bool)

  function Evaluate(policies: seq<Policy>, tenant: string, kind: SentinelType, severity: Severity): Evaluation {
    var matched := Matched(policies, tenant, kind, severity);
    var action := WinningAction(matched);
    Evaluation(|matched|, action, ActionRank(action) >= BLOCK_THRESHOLD)
  }

  /** What it means for a policy to take part in an evaluation. */
  predicate Applies(p: Policy, tenant: string, kind: SentinelType, severity: Severity) {
    p.tenant == tenant && p.sentinelType == kind && p.active && Matches(p, severity)
  }

  lemma RankInjective(a: Action, b: Action)
    ensures ActionRank(a) == ActionRank(b) <==> a == b
  {
  }

  /** Filtering keeps every occurrence of the rows it keeps, and no other row. */
  lemma {:induction false} FilterMembers(policies: seq<Policy>, keep: Policy -> bool)
    ensures forall p :: multiset(Filter(policies, keep))[p] == if keep(p) then multiset(policies)[p] else 0
    ensures forall p :: p in Filter(policies, keep) <==> p in policies && keep(p)
  {
    if policies != [] {
      FilterMembers(policies[1..], keep);
      assert policies == [policies[0]] + policies[1..];
    }
  }

  lemma {:induction false} FilterCounts(policies: seq<Policy>, keep: Policy -> bool)
    ensures |Filter(policies, keep)| == |Where(policies, keep)|
  {
    if policies != [] {
      FilterCounts(policies[1..], keep);
      WherePrepend(policies[0], policies[1..], keep);
      assert policies == [policies[0]] + policies[1..];
    }
  }

  /** Filtering twice is filtering once for both conditions. */
  lemma {:induction false} FilterTwice(policies: seq<Policy>, a: Policy -> bool, b: Policy -> bool, c: Policy -> bool)
    requires forall p :: c(p) <==> a(p) && b(p)
    ensures Filter(Filter(policies, a), b) == Filter(policies, c)
  {
    if policies != [] {
      var rest := Filter(policies[1..], a);
      FilterTwice(policies[1..], a, b, c);
      assert a(policies[0]) ==> ([policies[0]] + rest)[1..] == rest;
      assert [] + rest == rest;
    }
  }

  lemma MatchedMembers(policies: seq<Policy>, tenant: string, kind: SentinelType, severity: Severity)
    ensures forall p :: multiset(Matched(policies, tenant, kind, severity))[p] ==
                        if Applies(p, tenant, kind, severity) then multiset(policies)[p] else 0
    ensures forall p :: p in Matched(policies, tenant, kind, severity) <==>
                        p in policies && Applies(p, tenant, kind, severity)
  {
    FilterMembers(policies, (p: Policy) => p.tenant == tenant && p.sentinelType == kind && p.active);
    FilterMembers(Candidates(policies, tenant, kind), (p: Policy) => Matches(p, severity));
  }

  /** The winner is the least upper bound of the ranks, with `Allow` (rank 0) as its floor. */
  lemma {:induction false} WinnerIsMaximum(policies: seq<Policy>)
    ensures forall p :: p in policies ==> ActionRank(p.action) <= ActionRank(WinningAction(policies))
    ensures if policies == [] then WinningAction(policies) == Allow
            else exists p :: p in policies && p.action == WinningAction(policies)
  {
    if |policies| == 1 {
      assert policies[0] in policies;
    } else if |policies| > 1 {
      var init := policies[..|policies| - 1];
      WinnerIsMaximum(init);
      assert policies == init + [policies[|policies| - 1]];
      var p :| p in init && p.action == WinningAction(init);
      assert p in policies && policies[|policies| - 1] in policies;
    }
  }

  /** A list whose members are all members of another never wins a higher rank. */
  lemma WinnerMonotone(a: seq<Policy>, b: seq<Policy>)
    requires forall p :: p in a ==> p in b
    ensures ActionRank(WinningAction(a)) <= ActionRank(WinningAction(b))
  {
    WinnerIsMaximum(a);
    WinnerIsMaximum(b);
  }

  /** Order and repetition of the policies do not matter: only which ones there are. */
  lemma WinnerIgnoresOrder(a: seq<Policy>, b: seq<Policy>)
    requires forall p :: p in a <==> p in b
    ensures WinningAction(a) == WinningAction(b)
  {
    WinnerMonotone(a, b);
    WinnerMonotone(b, a);
    RankInjective(WinningAction(a), WinningAction(b));
  }

  /** Winning is a join: two lists together win the higher-ranked of their two winners. */
  lemma WinnerIsJoin(a: seq<Policy>, b: seq<Policy>)
    ensures var wa, wb := WinningAction(a), WinningAction(b);
            WinningAction(a + b) == if ActionRank(wa) < ActionRank(wb) then wb else wa
  {
    WinnerIsMaximum(a);
    WinnerIsMaximum(b);
    WinnerIsMaximum(a + b);
    WinnerMonotone(a, a + b);
    WinnerMonotone(b, a + b);
    if a + b != [] {
      var p :| p in a + b && p.action == WinningAction(a + b);
      RankInjective(WinningAction(a + b), WinningAction(a));
      RankInjective(WinningAction(a + b), WinningAction(b));
    }
  }

  /** Raising the severity of a request never lowers the action, and never unblocks. */
  lemma EvaluationMonotone(policies: seq<Policy>, tenant: string, kind: SentinelType, lo: Severity, hi: Severity)
    requires SeverityRank(lo) <= SeverityRank(hi)
    ensures var l, h := Evaluate(policies, tenant, kind, lo), Evaluate(policies, tenant, kind, hi);
            ActionRank(l.action) <= ActionRank(h.action) && (l.isBlocked ==> h.isBlocked)
  {
    MatchedMembers(policies, tenant, kind, lo);
    MatchedMembers(policies, tenant, kind, hi);
    WinnerMonotone(Matched(policies, tenant, kind, lo), Matched(policies, tenant, kind, hi));
  }

  /** The exact meaning of an evaluation, in terms of the stored policies alone. */
  lemma EvaluationExact(policies: seq<Policy>, tenant: string, kind: SentinelType, severity: Severity)
    ensures var r := Evaluate(policies, tenant, kind, severity);
            && (r.isBlocked <==> exists p :: p in policies && Applies(p, tenant, kind, severity)
                                             && ActionRank(p.action) >= ActionRank(BlockToolCall))
            && (forall p :: p in policies && Applies(p, tenant, kind, severity) ==>
                  ActionRank(p.action) <= ActionRank(r.action))
            && (r.matchedCount == 0 <==> forall p :: p in policies ==> !Applies(p, tenant, kind, severity))
            && (if r.matchedCount == 0 then r.action == Allow
                else exists p :: p in policies && Applies(p, tenant, kind, severity) && p.action == r.action)
  {
    var matched := Matched(policies, tenant, kind, severity);
    MatchedMembers(policies, tenant, kind, severity);
    WinnerIsMaximum(matched);
    if matched != [] {
      assert matched[0] in matched;
      var p :| p in matched && p.action == WinningAction(matched);
      assert p in policies && Applies(p, tenant, kind, severity);
    }
  }

  /** An active policy of the tenant and the sentinel type whose own severity is not above that of the request. */
  predicate TakesPart(p: Policy, tenant: string, kind: SentinelType, severity: Severity) {
    && p.active && p.tenant == tenant && p.sentinelType == kind
    && match severity
       case Critical => true
       case High => p.severity != Critical
       case Medium => p.severity == Low || p.severity == Medium
       case Low => p.severity == Low
  }

  /** The actions from the mildest to the strictest. */
  const STRICTNESS: seq<Action> := [
    Allow, Warn, Redact, RequestHumanReview, BlockToolCall, PauseAgent, RollbackMemoryWrite, ForceSafeResponse,
    IsolateAgent, TerminateExecution]

  lemma StrictnessIsRank(i: nat)
    requires i < |STRICTNESS|
    ensures ActionRank(STRICTNESS[i]) == i
  {
  }

  /**
   An evaluation without any ranks. It counts the policies that take part; its action is the strictest one that
   such a policy demands, or `Allow`; it blocks from `BlockToolCall` on.
   */
  lemma EvaluationInWords(policies: seq<Policy>, tenant: string, kind: SentinelType, severity: Severity)
    ensures var r := Evaluate(policies, tenant, kind, severity);
            && r.matchedCount ==
               |set i | 0 <= i < |policies| && TakesPart(policies[i], tenant, kind, severity)|
            && (forall i :: 1 <= i < |STRICTNESS| ==>
                  (r.action == STRICTNESS[i] <==>
                   && (exists p :: p in policies && TakesPart(p, tenant, kind, severity) && p.action == STRICTNESS[i])
                   && forall p :: p in policies && TakesPart(p, tenant, kind, severity) ==>
                        p.action in STRICTNESS[..i + 1]))
            && (r.isBlocked <==> r.action !in {Allow, Warn, Redact, RequestHumanReview})
  {
    MatchedCounted(policies, tenant, kind, severity);
    forall i | 1 <= i < |STRICTNESS|
      ensures Evaluate(policies, tenant, kind, severity).action == STRICTNESS[i] <==>
              && (exists p :: p in policies && TakesPart(p, tenant, kind, severity) && p.action == STRICTNESS[i])
              && forall p :: p in policies && TakesPart(p, tenant, kind, severity) ==>
                   p.action in STRICTNESS[..i + 1]
    {
      StrictestWins(policies, tenant, kind, severity, i);
    }
  }

  lemma TakesPartIsApplies(tenant: string, kind: SentinelType, severity: Severity)
    ensures forall p :: TakesPart(p, tenant, kind, severity) <==> Applies(p, tenant, kind, severity)
  {
  }

  lemma MatchedCounted(policies: seq<Policy>, tenant: string, kind: SentinelType, severity: Severity)
    ensures |Matched(policies, tenant, kind, severity)| ==
            |set i | 0 <= i < |policies| && TakesPart(policies[i], tenant, kind, severity)|
  {
    MatchedOnce(policies, tenant, kind, severity);
    FilterCounts(policies, Applying(tenant, kind, severity));
    TakesPartIsApplies(tenant, kind, severity);
    assert Where(policies, Applying(tenant, kind, severity)) ==
           set i | 0 <= i < |policies| && TakesPart(policies[i], tenant, kind, severity);
  }

  function Applying(tenant: string, kind: SentinelType, severity: Severity): Policy -> bool {
    (p: Policy) => Applies(p, tenant, kind, severity)
  }

  lemma MatchedOnce(policies: seq<Policy>, tenant: string, kind: SentinelType, severity: Severity)
    ensures Matched(policies, tenant, kind, severity) == Filter(policies, Applying(tenant, kind, severity))
  {
    FilterTwice(policies, (p: Policy) => p.tenant == tenant && p.sentinelType == kind && p.active,
                (p: Policy) => Matches(p, severity), Applying(tenant, kind, severity));
  }

  lemma InStrictness(a: Action, i: nat)
    requires i < |STRICTNESS|
    ensures a in STRICTNESS[..i + 1] <==> ActionRank(a) <= i
    ensures a == STRICTNESS[i] <==> ActionRank(a) == i
  {
    StrictnessIsRank(i);
    RankInjective(a, STRICTNESS[i]);
    if ActionRank(a) <= i {
      StrictnessIsRank(ActionRank(a));
      RankInjective(a, STRICTNESS[ActionRank(a)]);
      assert STRICTNESS[..i + 1][ActionRank(a)] == a;
    } else if a in STRICTNESS[..i + 1] {
      var j :| 0 <= j <= i && STRICTNESS[j] == a;
      StrictnessIsRank(j);
    }
  }

  lemma StrictestWins(policies: seq<Policy>, tenant: string, kind: SentinelType, severity: Severity, i: nat)
    requires 1 <= i < |STRICTNESS|
    ensures Evaluate(policies, tenant, kind, severity).action == STRICTNESS[i] <==>
            && (exists p :: p in policies && TakesPart(p, tenant, kind, severity) && p.action == STRICTNESS[i])
            && forall p :: p in policies && TakesPart(p, tenant, kind, severity) ==> p.action in STRICTNESS[..i + 1]
  {
    var r := Evaluate(policies, tenant, kind, severity);
    TakesPartIsApplies(tenant, kind, severity);
    EvaluationExact(policies, tenant, kind, severity);
    InStrictness(r.action, i);
    forall p | p in policies
      ensures p.action in STRICTNESS[..i + 1] <==> ActionRank(p.action) <= i
      ensures p.action == STRICTNESS[i] <==> ActionRank(p.action) == i
    {
      InStrictness(p.action, i);
    }
    assert ActionRank(Allow) == 0;
  }

  /** Deactivating any policy never raises the evaluated action of any request. */
  lemma DeactivationNeverRaises(policies: seq<Policy>, id: nat, tenant: string, kind: SentinelType, severity: Severity)
    requires id < |policies|
    ensures var after := policies[id := policies[id].(active := false)];
            ActionRank(Evaluate(after, tenant, kind, severity).action) <=
              ActionRank(Evaluate(policies, tenant, kind, severity).action)
  {
    var after := policies[id := policies[id].(active := false)];
    MatchedMembers(policies, tenant, kind, severity);
    MatchedMembers(after, tenant, kind, severity);
    forall p | p in Matched(after, tenant, kind, severity)
      ensures p in Matched(policies, tenant, kind, severity)
    {
      var i :| 0 <= i < |after| && after[i] == p;
      assert i != id && p == policies[i];
    }
    WinnerMonotone(Matched(after, tenant, kind, severity), Matched(policies, tenant, kind, severity));
  }
}
