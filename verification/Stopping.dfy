/** When the agent stops, and how lack of progress is counted. */
module Stopping {
  import opened Wrappers

  datatype StopReason =
    | InvalidOrOutOfScope
    | AwaitingApproval
    | Completed
    | Blocked
    | FailedStop
    | Cancelled
    | BudgetExhausted
    | NoProgress
    | Continue

  datatype StopLimits = StopLimits(maxRounds: nat, maxToolCalls: nat, noProgressLimit: nat)

  predicate ValidLimits(l: StopLimits) {
    0 < l.maxRounds && 0 < l.maxToolCalls && 0 < l.noProgressLimit
  }

  datatype StopInputs = StopInputs(invalid: bool, awaitingApproval: bool, completed: bool,
                                   rounds: nat, toolCalls: nat, noProgressCount: nat)

  function Evaluate(s: StopInputs, l: StopLimits): StopReason {
    if s.invalid then InvalidOrOutOfScope
    else if s.awaitingApproval then AwaitingApproval
    else if s.completed then Completed
    else if s.rounds >= l.maxRounds || s.toolCalls >= l.maxToolCalls then BudgetExhausted
    else if s.noProgressCount >= l.noProgressLimit then NoProgress
    else Continue
  }

  datatype ProgressState = ProgressState(acceptance: nat, budget: nat, approval: nat)

  datatype ProgressRecord = ProgressRecord(signature: string, state: ProgressState, count: nat)

  function AdvanceNoProgress(previous: Option<ProgressRecord>, signature: string,
                             state: ProgressState): ProgressRecord {
    if previous.Some? && previous.value.signature == signature && previous.value.state == state
    then ProgressRecord(signature, state, previous.value.count + 1)
    else ProgressRecord(signature, state, 1)
  }

  /** The counter after a history of observations. */
  function ProgressAfter(signatures: seq<string>, state: ProgressState): Option<ProgressRecord> {
    if signatures == [] then None
    else
      var n := |signatures| - 1;
      Some(AdvanceNoProgress(ProgressAfter(signatures[..n], state), signatures[n], state))
  }

  /** The last `k` observations are equal and no more than that. */
  ghost predicate TrailingRun(signatures: seq<string>, k: nat) {
    && 1 <= k <= |signatures|
    && (forall i :: |signatures| - k <= i < |signatures| ==> signatures[i] == signatures[|signatures| - 1])
    && (k < |signatures| ==> signatures[|signatures| - k - 1] != signatures[|signatures| - 1])
  }

  lemma {:induction false} CountIsTrailingRun(signatures: seq<string>, state: ProgressState)
    requires signatures != []
    ensures ProgressAfter(signatures, state).Some?
    ensures TrailingRun(signatures, ProgressAfter(signatures, state).value.count)
    ensures ProgressAfter(signatures, state).value.signature == signatures[|signatures| - 1]
    ensures ProgressAfter(signatures, state).value.state == state
  {
    var n := |signatures| - 1;
    if n > 0 {
      CountIsTrailingRun(signatures[..n], state);
    }
  }

  /** What one round showed, and how far the task had come. */
  datatype Observation = Observation(signature: string, state: ProgressState)

  /** The counter after observations in changing states. */
  function RecordAfter(observations: seq<Observation>): Option<ProgressRecord> {
    if observations == [] then None
    else
      var last := observations[|observations| - 1];
      Some(AdvanceNoProgress(RecordAfter(observations[..|observations| - 1]), last.signature, last.state))
  }

  /** A new signature or a new state starts the count again: it is the length of the longest run of equal
      observations at the end. */
  lemma {:induction false} CountRestarts(observations: seq<Observation>)
    requires observations != []
    ensures RecordAfter(observations).Some?
    ensures var n, r := |observations|, RecordAfter(observations).value;
            && 1 <= r.count <= n && Observation(r.signature, r.state) == observations[n - 1]
            && (forall i :: n - r.count <= i < n ==> observations[i] == observations[n - 1])
            && (r.count < n ==> observations[n - r.count - 1] != observations[n - 1])
  {
    var n := |observations| - 1;
    if n > 0 {
      CountRestarts(observations[..n]);
    }
  }

  /** The last `k` observations exist and are one and the same. */
  ghost predicate Stuck(signatures: seq<string>, k: nat) {
    && k <= |signatures|
    && forall i, j :: |signatures| - k <= i < |signatures| && |signatures| - k <= j < |signatures| ==> signatures[i] == signatures[j]
  }

  /** An agent without other reasons to stop goes on until its latest observations, as many as the limit
      says, are all the same; then it has made no progress. */
  lemma StopsWhenStuck(signatures: seq<string>, state: ProgressState, s: StopInputs, l: StopLimits)
    requires ValidLimits(l) && signatures != []
    requires s.noProgressCount == (if ProgressAfter(signatures, state).Some? then ProgressAfter(signatures, state).value.count else 0)
    ensures Evaluate(s.(noProgressCount := 0), l) == Continue ==>
              Evaluate(s, l) == if Stuck(signatures, l.noProgressLimit) then NoProgress else Continue
    ensures Evaluate(s.(noProgressCount := 0), l) != Continue ==>
              Evaluate(s, l) == Evaluate(s.(noProgressCount := 0), l)
  {
    var n, k := |signatures|, l.noProgressLimit;
    CountIsTrailingRun(signatures, state);
    if s.noProgressCount < k <= n {
      assert signatures[n - s.noProgressCount - 1] != signatures[n - 1];
    }
  }
}
