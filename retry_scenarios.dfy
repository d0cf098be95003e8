/**
 * Concrete uses of RetryContext: the four scenarios of the repository's
 * test suite, and three that pin down the quirks of the code (a falsy result
 * under retryNullResults, a zero budget, and a callback that throws).
 */
module RetryScenarios {
  import opened JsValues
  import opened RetryLoop
  import opened RetryProperties
  import opened RetryContext

  /** A completion callback that always returns normally. */
  const Quiet: Callback := (e: Value, r: Value) => Returned(Undefined)

  /** A function that returns "Good" is called once and its result is passed on. */
  method PassSuccessThrough() returns (effects: seq<Effect>)
    ensures effects == [Call([]), Notify(Null, Str("Good"))]
  {
    var retry := new RetryContext(Props("Test Passing Fn", 3, None, None, None));
    var good: Operation := (args: seq<Value>, k: nat) => Returned(Str("Good"));
    var rejected;
    effects, rejected := retry.Invoke(good, Quiet, []);
    FirstAcceptedResultEnds(retry.Settings(), good, [], 0, 0, Str("Good"));
  }

  /** A function that always throws is called three times, then its error is passed on. */
  method RetryFailingFn() returns (effects: seq<Effect>)
    ensures Calls(effects) == 3
    ensures effects[|effects| - 1] == Notify(ErrorObject("Simulated Error"), Undefined)
  {
    var retry := new RetryContext(Props("Test Failing Fn", 3, None, None, None));
    var failing: Operation := (args: seq<Value>, k: nat) => Threw(ErrorObject("Simulated Error"));
    var rejected;
    effects, rejected := retry.Invoke(failing, Quiet, []);
    var run := RunFrom(retry.Settings(), failing, [], 0);
    PersistentFailureExhausts(retry.Settings(), failing, [], 0);
    CallsDistribute(run.effects, [Notify(ErrorObject("Simulated Error"), Undefined)]);
    CountsOfSingleton(Notify(ErrorObject("Simulated Error"), Undefined));
  }

  /** The arguments given to `invoke` reach the function unchanged and in order. */
  method ForwardArgs() returns (effects: seq<Effect>)
    ensures effects == [Call([Str("a1"), Str("a2"), Str("a3")]), Notify(Null, Str("a3"))]
  {
    var retry := new RetryContext(Props("Test Fn Args", 3, None, None, None));
    var check: Operation := (args: seq<Value>, k: nat) =>
      if args == [Str("a1"), Str("a2"), Str("a3")] then Returned(args[2]) else Threw(ErrorObject("Invalid args given"));
    var rejected;
    var args := [Str("a1"), Str("a2"), Str("a3")];
    effects, rejected := retry.Invoke(check, Quiet, args);
    FirstAcceptedResultEnds(retry.Settings(), check, args, 0, 0, Str("a3"));
  }

  /** A filter answering `false` stops after the first failure, with budget left. */
  method ObeyContinuationFilter() returns (effects: seq<Effect>)
    ensures effects == [Call([]), Consult(ErrorObject("Simulation")), Notify(ErrorObject("Simulation"), Undefined)]
  {
    var stop: Filter := (e: Value) => Returned(Bool(false));
    var retry := new RetryContext(Props("Test Short Circuit", 3, None, None, Some(stop)));
    var check: Operation := (args: seq<Value>, k: nat) => Threw(ErrorObject("Simulation"));
    var rejected;
    effects, rejected := retry.Invoke(check, Quiet, []);
    FilterVetoEnds(retry.Settings(), check, [], 0, 0, ErrorObject("Simulation"));
  }

  /**
   * Only null results under retryNullResults: every attempt is spent, each
   * followed by a pause of 500 ms (an explicit 0 is replaced by 500), and the
   * generic error reaches the callback.
   */
  method NullResultsReachGenericError() returns (effects: seq<Effect>)
    ensures var log := Log(Debug, NoResultMessage, [Str("Nulls"), Str(PausingMessage)]);
            effects == [Call([]), log, Pause(500), Call([]), log, Pause(500), Notify(CouldNotComplete, Undefined)]
  {
    var retry := new RetryContext(Props("Nulls", 2, Some(true), Some(0), None));
    var empty: Operation := (args: seq<Value>, k: nat) => Returned(Null);
    var rejected;
    effects, rejected := retry.Invoke(empty, Quiet, []);
    var c := retry.Settings();
    RetryingPass(c, empty, [], 0);
    RetryingPass(c, empty, [], 1);
  }

  /** With no budget the function is never called and the generic error is reported. */
  method NoBudgetNoCall() returns (effects: seq<Effect>)
    ensures effects == [Notify(CouldNotComplete, Undefined)]
  {
    var retry := new RetryContext(Props("Empty", 0, None, None, None));
    var good: Operation := (args: seq<Value>, k: nat) => Returned(Str("Good"));
    var rejected;
    effects, rejected := retry.Invoke(good, Quiet, []);
  }

  /** A callback that throws on success is called a second time with its own error. */
  method ThrowingCallbackCalledTwice() returns (effects: seq<Effect>, rejected: Option<Value>)
    ensures effects == [Call([]), Notify(Null, Str("Good")), Notify(ErrorObject("cb failed"), Undefined)]
    ensures rejected == None
  {
    var retry := new RetryContext(Props("Callback", 3, None, None, None));
    var good: Operation := (args: seq<Value>, k: nat) => Returned(Str("Good"));
    var fussy: Callback := (e: Value, r: Value) => if e == Null then Threw(ErrorObject("cb failed")) else Returned(Undefined);
    effects, rejected := retry.Invoke(good, fussy, []);
    FirstAcceptedResultEnds(retry.Settings(), good, [], 0, 0, Str("Good"));
  }
}
