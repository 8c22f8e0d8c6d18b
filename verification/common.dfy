/** Values shared by every service: optional values, call results and the closed vocabularies. */
module Wrappers {
  datatype Option<+T> = None | Some(value: T) {
    function GetOr(default: T): T {
      match this
      case Some(v) => v
      case None => default
    }
  }

  /** A service call either returns or raises; `message` is the text of the exception. */
  datatype Result<+T> = Ok(value: T) | Raised(message: string)
}

/** Counting the positions of a list. */
module Counting {
  ghost function Where<T>(s: seq<T>, p: T -> bool): set<int> {
    set i | 0 <= i < |s| && p(s[i])
  }

  lemma WhereAppend<T>(s: seq<T>, x: T, p: T -> bool)
    ensures |Where(s + [x], p)| == |Where(s, p)| + if p(x) then 1 else 0
  {
    if p(x) {
      assert Where(s + [x], p) == Where(s, p) + {|s|};
    } else {
      assert Where(s + [x], p) == Where(s, p);
    }
  }

  lemma {:induction false} WherePrepend<T>(x: T, s: seq<T>, p: T -> bool)
    ensures |Where([x] + s, p)| == (if p(x) then 1 else 0) + |Where(s, p)|
  {
    if s == [] {
      WhereAppend([], x, p);
      assert [x] + s == s + [x];
    } else {
      var init, last := s[..|s| - 1], s[|s| - 1];
      WherePrepend(x, init, p);
      WhereAppend(init, last, p);
      WhereAppend([x] + init, last, p);
      assert init + [last] == s && [x] + init + [last] == [x] + s;
    }
  }
}

module Enums {
  datatype EventType =
    | UserInputReceived | AgentStarted | AgentStepStarted | AgentStepCompleted
    | ModelCalled | ModelResponseReceived | ReasoningCaptured | ToolSelected
    | ToolCallStarted | ToolCallCompleted | ToolCallFailed | ToolCallBlocked
    | MemoryRead | MemoryWriteRequested | MemoryWriteApproved | MemoryWriteBlocked
    | MemoryRollback | RagQuery | RagChunkRetrieved | PolicyEvaluated | PolicyFailed
    | SentinelAlertCreated | InterventionRequested | InterventionApplied
    | DelegationStarted | DelegationCompleted | ConsentChecked | AgentCompleted
    | AgentFailed | AgentPaused | AgentResumed | AgentTerminated
    | ReplayStarted | ReplayCompleted

  datatype Severity = Low | Medium | High | Critical

  datatype SentinelType =
    | Trajectory | ToolMisuse | PolicyBreach | Memory | Drift | Injection
    | CostLoop | Delegation | Bias | Hallucination | Regulatory

  datatype Action =
    | Allow | Warn | Redact | BlockToolCall | PauseAgent | RequestHumanReview
    | ForceSafeResponse | RollbackMemoryWrite | IsolateAgent | TerminateExecution

  /** `Other` stands for any tier name outside the enumeration. */
  datatype Tier = Starter | Professional | Enterprise | Other(name: string)

  /** How many event types there are. */
  const TYPES := 34

  /** The i-th event type in the alphabetical order of the names. */
  function TypeAt(i: nat): EventType
    requires i < TYPES
  {
    match i
    case 0 => AgentCompleted
    case 1 => AgentFailed
    case 2 => AgentPaused
    case 3 => AgentResumed
    case 4 => AgentStarted
    case 5 => AgentStepCompleted
    case 6 => AgentStepStarted
    case 7 => AgentTerminated
    case 8 => ConsentChecked
    case 9 => DelegationCompleted
    case 10 => DelegationStarted
    case 11 => InterventionApplied
    case 12 => InterventionRequested
    case 13 => MemoryRead
    case 14 => MemoryRollback
    case 15 => MemoryWriteApproved
    case 16 => MemoryWriteBlocked
    case 17 => MemoryWriteRequested
    case 18 => ModelCalled
    case 19 => ModelResponseReceived
    case 20 => PolicyEvaluated
    case 21 => PolicyFailed
    case 22 => RagChunkRetrieved
    case 23 => RagQuery
    case 24 => ReasoningCaptured
    case 25 => ReplayCompleted
    case 26 => ReplayStarted
    case 27 => SentinelAlertCreated
    case 28 => ToolCallBlocked
    case 29 => ToolCallCompleted
    case 30 => ToolCallFailed
    case 31 => ToolCallStarted
    case 32 => ToolSelected
    case _ => UserInputReceived
  }

  /** The alphabetical position of an event type. */
  function Position(e: EventType): (i: nat)
    ensures i < TYPES && TypeAt(i) == e
  {
    match e
    case AgentCompleted => 0
    case AgentFailed => 1
    case AgentPaused => 2
    case AgentResumed => 3
    case AgentStarted => 4
    case AgentStepCompleted => 5
    case AgentStepStarted => 6
    case AgentTerminated => 7
    case ConsentChecked => 8
    case DelegationCompleted => 9
    case DelegationStarted => 10
    case InterventionApplied => 11
    case InterventionRequested => 12
    case MemoryRead => 13
    case MemoryRollback => 14
    case MemoryWriteApproved => 15
    case MemoryWriteBlocked => 16
    case MemoryWriteRequested => 17
    case ModelCalled => 18
    case ModelResponseReceived => 19
    case PolicyEvaluated => 20
    case PolicyFailed => 21
    case RagChunkRetrieved => 22
    case RagQuery => 23
    case ReasoningCaptured => 24
    case ReplayCompleted => 25
    case ReplayStarted => 26
    case SentinelAlertCreated => 27
    case ToolCallBlocked => 28
    case ToolCallCompleted => 29
    case ToolCallFailed => 30
    case ToolCallStarted => 31
    case ToolSelected => 32
    case UserInputReceived => 33
  }

  lemma PositionOfTypeAt(i: nat)
    requires i < TYPES
    ensures Position(TypeAt(i)) == i
  {
  }

  /** The members of `s` from position `i` on, in alphabetical order: `sorted(s)` is `SortedFrom(s, 0)`. */
  function SortedFrom(s: set<EventType>, i: nat): (ts: seq<EventType>)
    requires i <= TYPES
    ensures |ts| <= TYPES - i
    ensures forall e :: e in ts <==> e in s && i <= Position(e)
    ensures forall a, b :: 0 <= a < b < |ts| ==> Position(ts[a]) < Position(ts[b])
    decreases TYPES - i
  {
    if i == TYPES then []
    else
      PositionOfTypeAt(i);
      var rest := SortedFrom(s, i + 1);
      if TypeAt(i) in s then [TypeAt(i)] + rest else rest
  }

  lemma {:induction false} CardinalityOfSorted(s: set<EventType>, ts: seq<EventType>)
    requires forall e :: e in ts <==> e in s
    requires forall a, b :: 0 <= a < b < |ts| ==> ts[a] != ts[b]
    ensures |s| == |ts|
  {
    if ts != [] {
      CardinalityOfSorted(s - {ts[0]}, ts[1..]);
    }
  }

  /** No set of event types has more members than there are event types. */
  lemma AtMostAllTypes(s: set<EventType>)
    ensures |s| <= TYPES
  {
    CardinalityOfSorted(s, SortedFrom(s, 0));
  }
}
