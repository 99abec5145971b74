/**
 * A session of calls on one `Calculator`: what a sequence of `calculate`
 * and `reset` calls does to the state, and the invariant it keeps — the
 * result is the value of the latest record, or zero when there is none.
 */
module CalcSession {
  import opened Wrappers
  import opened Calc

  /** A call that changes the calculator's state. */
  datatype Call = CalculateCall(operation: string, num1: real, num2: Option<real>) | ResetCall

  function Perform(s: State, c: Call): State {
    match c
    case CalculateCall(operation, num1, num2) => Step(s, operation, num1, num2).1
    case ResetCall => Initial
  }

  /** The state after performing `calls` in order, starting from `s`. */
  function Run(s: State, calls: seq<Call>): State
    decreases |calls|
  {
    if calls == [] then s else Run(Perform(s, calls[0]), calls[1..])
  }

  /** The number of `calculate` calls of a reset-free run that succeed. */
  function Successes(s: State, calls: seq<Call>): nat
    decreases |calls|
  {
    if calls == [] then 0
    else
      var c := calls[0];
      var ok := c.CalculateCall? && Step(s, c.operation, c.num1, c.num2).0.Ok?;
      (if ok then 1 else 0) + Successes(Perform(s, c), calls[1..])
  }

  /** The result equals the value of the most recent record, or zero when the
      history is empty. */
  predicate Consistent(s: State) {
    s.result == if s.history == [] then 0.0 else s.history[|s.history| - 1].value
  }

  lemma InitialConsistent()
    ensures Consistent(Initial)
  {
  }

  /** One call keeps the invariant. */
  lemma PerformKeepsConsistent(s: State, c: Call)
    requires Consistent(s)
    ensures Consistent(Perform(s, c))
  {
  }

  /** A whole run keeps the invariant. */
  lemma {:induction false} RunKeepsConsistent(s: State, calls: seq<Call>)
    requires Consistent(s)
    ensures Consistent(Run(s, calls))
    decreases |calls|
  {
    if calls != [] {
      PerformKeepsConsistent(s, calls[0]);
      RunKeepsConsistent(Perform(s, calls[0]), calls[1..]);
    }
  }

  /** Every state a fresh calculator can reach is consistent. */
  lemma ReachableConsistent(calls: seq<Call>)
    ensures Consistent(Run(Initial, calls))
  {
    RunKeepsConsistent(Initial, calls);
  }

  /** Without a reset, history only grows: the old records stay in place as a
      prefix, and exactly one record is added per successful call. */
  lemma {:induction false} HistoryAppendOnly(s: State, calls: seq<Call>)
    requires forall k :: 0 <= k < |calls| ==> calls[k].CalculateCall?
    ensures s.history <= Run(s, calls).history
    ensures |Run(s, calls).history| == |s.history| + Successes(s, calls)
    decreases |calls|
  {
    if calls != [] {
      var next := Perform(s, calls[0]);
      assert s.history <= next.history;
      HistoryAppendOnly(next, calls[1..]);
    }
  }

  /** A reset forgets everything, whatever came before it. */
  lemma {:induction false} ResetForgets(s: State, calls: seq<Call>)
    ensures Run(s, calls + [ResetCall]) == Initial
    decreases |calls|
  {
    if calls != [] {
      assert (calls + [ResetCall])[1..] == calls[1..] + [ResetCall];
      ResetForgets(Perform(s, calls[0]), calls[1..]);
    }
  }
}
