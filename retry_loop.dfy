/**
 * The retry loop of `RetryContext._invokeWithRetries` and the callback
 * dispatch of `RetryContext.invoke`, as pure reference functions. The class
 * in module RetryContext runs the loop step by step and is proved equal to
 * `RunFrom`; module RetryProperties proves what the loop promises.
 */
module RetryLoop {
  import opened JsValues

  /**
   * The wrapped function: `fn(args, k)` is how its call with arguments
   * `args` settles when `k` calls were made before it in this invocation.
   */
  type Operation = (seq<Value>, nat) -> Outcome

  /** The continuation filter, called with the error an attempt threw. */
  type Filter = Value -> Outcome

  /** The error-first completion callback, `cb(error, result)`. */
  type Callback = (Value, Value) -> Outcome

  /** The configuration a RetryContext holds after construction. */
  datatype Config = Config(
    name: string,
    maxRetries: int,
    retryNullResults: bool,
    pauseBetweenTries: int,
    continuationFilter: Option<Filter>)

  datatype Level = Debug | Error

  /** What the loop and the dispatch do that the outside world can see, in order. */
  datatype Effect =
    | Call(args: seq<Value>)                               // fn(...args)
    | Consult(error: Value)                                // continuationFilter(e)
    | Pause(ms: int)                                       // sleep(ms)
    | Log(level: Level, message: string, details: seq<Value>)
    | Notify(error: Value, result: Value)                  // cb(error, result)

  /** How the loop's promise settles: `done(r)` or `err(e)`. */
  datatype Settled = Done(result: Value) | Failed(error: Value)

  /** Which exit of the loop was taken. */
  datatype Exit =
    | Succeeded          // return done(r)
    | AbortedByFilter    // the filter answered a defined falsy value
    | ExhaustedRetries   // the failed attempt was the last one allowed
    | FellThrough        // the loop condition failed: the generic error

  const NoResultMessage := "No result in retry context"
  const PausingMessage := "Pausing and trying again..."
  const FilterProblemMessage := "Problem querying continuation filter fn"
  const AttemptErrorMessage := "Getting error in retry context"
  const GiveUpMessage := "Giving up invoking fn in retry context"

  /** The error after the loop; the extra arguments given to `Error` are dropped by JavaScript. */
  const CouldNotComplete := ErrorObject("Could not complete retry context")

  function Max(a: int, b: int): int {
    if a < b then b else a
  }

  /** A filter answer stops the retries when it is defined and falsy. */
  predicate Vetoes(answer: Outcome) {
    answer.Returned? && answer.value != Undefined && !Truthy(answer.value)
  }

  /**
   * The answers that stop the retries are exactly `null`, `false`, `0` and
   * `""`: an `undefined` answer, any truthy one and a throw do not.
   */
  lemma VetoingAnswers(answer: Outcome)
    ensures Vetoes(answer) <==> answer in {Returned(Null), Returned(Bool(false)), Returned(Num(0)), Returned(Str(""))}
  {
    if answer.Returned? {
      FalsyValues(answer.value);
    }
  }

  /** The configured filter, if any, vetoes retrying after error `e`. */
  predicate FilterAborts(c: Config, e: Value) {
    c.continuationFilter.Some? && Vetoes(c.continuationFilter.value(e))
  }

  /** A returned value ends the loop unless it is falsy and null results are retried. */
  predicate Accepts(c: Config, r: Value) {
    Truthy(r) || !c.retryNullResults
  }

  /** The attempt's outcome lets the loop go on while budget remains. */
  predicate Retries(c: Config, o: Outcome) {
    match o
    case Returned(r) => !Accepts(c, r)
    case Threw(e) => !FilterAborts(c, e)
  }

  datatype Step = Retry(effects: seq<Effect>) | Finish(exit: Exit, settled: Settled, effects: seq<Effect>)

  /** The effects of consulting the filter about error `e`, when it does not veto. */
  function FilterEffects(c: Config, e: Value): seq<Effect> {
    match c.continuationFilter
    case None => []
    case Some(f) =>
      [Consult(e)] + (if f(e).Threw? then [Log(Error, FilterProblemMessage, [f(e).error])] else [])
  }

  /**
   * One pass of the loop body, made when `calls` calls came before it. It
   * starts with the call; it retries exactly when the outcome lets the loop
   * go on and, for an error, budget is left, and then it ends in the pause; a
   * pass that finishes settles with the value returned or the error thrown.
   */
  function Attempt(c: Config, fn: Operation, args: seq<Value>, calls: nat): (s: Step)
    ensures s.effects != [] && s.effects[0] == Call(args)
    ensures s.Retry? <==> Retries(c, fn(args, calls)) && (fn(args, calls).Threw? ==> calls + 1 < c.maxRetries)
    ensures s.Retry? ==> s.effects[|s.effects| - 1] == Pause(c.pauseBetweenTries)
    ensures s.Finish? ==> s.exit != FellThrough && (s.exit == Succeeded <==> fn(args, calls).Returned?)
    ensures s.Finish? ==>
              s.settled == if fn(args, calls).Returned? then Done(fn(args, calls).value) else Failed(fn(args, calls).error)
    ensures s.Finish? && fn(args, calls).Threw? ==> (s.exit == AbortedByFilter <==> FilterAborts(c, fn(args, calls).error))
  {
    match fn(args, calls)
    case Returned(r) =>
      if !Truthy(r) && c.retryNullResults then
        Retry([Call(args), Log(Debug, NoResultMessage, [Str(c.name), Str(PausingMessage)]), Pause(c.pauseBetweenTries)])
      else
        Finish(Succeeded, Done(r), [Call(args)])
    case Threw(e) =>
      if FilterAborts(c, e) then
        Finish(AbortedByFilter, Failed(e), [Call(args), Consult(e)])
      else
        var handled := [Call(args)] + FilterEffects(c, e) + [Log(Debug, AttemptErrorMessage, [Str(c.name), e])];
        if calls + 1 >= c.maxRetries then
          Finish(ExhaustedRetries, Failed(e), handled + [Log(Error, GiveUpMessage, [Str(c.name), e])])
        else
          Retry(handled + [Pause(c.pauseBetweenTries)])
  }

  /** A finished loop: its exit, its settlement, the final counter and its effects. */
  datatype Run = Run(exit: Exit, settled: Settled, tries: nat, effects: seq<Effect>)

  function Prepend(pre: seq<Effect>, r: Run): Run {
    r.(effects := pre + r.effects)
  }

  /**
   * The loop run from counter value `tries` to its end. The counter only
   * grows, and never beyond `maxRetries` unless it started there.
   */
  function RunFrom(c: Config, fn: Operation, args: seq<Value>, tries: nat): (r: Run)
    ensures tries <= r.tries <= Max(tries, c.maxRetries)
    ensures r.exit == FellThrough ==> r.tries == Max(tries, c.maxRetries)
    ensures r.exit != FellThrough ==> tries < r.tries
    decreases c.maxRetries - tries
  {
    if tries < c.maxRetries then
      match Attempt(c, fn, args, tries)
      case Finish(exit, settled, effects) => Run(exit, settled, tries + 1, effects)
      case Retry(effects) => Prepend(effects, RunFrom(c, fn, args, tries + 1))
    else
      Run(FellThrough, Failed(CouldNotComplete), tries, [])
  }

  /** A pass that ends the loop is the whole rest of the run. */
  lemma FinishingPass(c: Config, fn: Operation, args: seq<Value>, calls: nat)
    requires calls < c.maxRetries && Attempt(c, fn, args, calls).Finish?
    ensures var s := Attempt(c, fn, args, calls);
            RunFrom(c, fn, args, calls) == Run(s.exit, s.settled, calls + 1, s.effects)
  {
  }

  /** A pass that retries puts its effects in front of the run from the next counter value. */
  lemma RetryingPass(c: Config, fn: Operation, args: seq<Value>, calls: nat)
    requires calls < c.maxRetries && Attempt(c, fn, args, calls).Retry?
    ensures RunFrom(c, fn, args, calls) == Prepend(Attempt(c, fn, args, calls).effects, RunFrom(c, fn, args, calls + 1))
  {
  }

  /** The effects of the passes from counter `from` up to `to`, all of which retry. */
  function RetriedEffects(c: Config, fn: Operation, args: seq<Value>, from: nat, to: nat): seq<Effect>
    decreases to - from
  {
    if from < to then Attempt(c, fn, args, from).effects + RetriedEffects(c, fn, args, from + 1, to) else []
  }

  /** Every attempt made with a counter in [lo, hi) lets the loop go on. */
  predicate RetriedBetween(c: Config, fn: Operation, args: seq<Value>, lo: nat, hi: nat) {
    forall k: nat :: lo <= k < hi ==> Retries(c, fn(args, k))
  }

  /** How `invoke` hands the loop's outcome to the callback, and how its own promise ends. */
  datatype Delivery = Delivery(notes: seq<Effect>, rejected: Option<Value>)

  function Rejection(o: Outcome): Option<Value> {
    if o.Threw? then Some(o.error) else None
  }

  /**
   * `invoke`'s dispatch: `cb(null, r)` on success, `cb(e)` on failure, and a
   * second call `cb(e2)` only when the success call throws `e2`. Whatever
   * the last callback call throws rejects `invoke`'s own promise.
   */
  function Dispatch(s: Settled, cb: Callback): (d: Delivery)
    ensures 1 <= |d.notes| <= 2
    ensures s.Done? ==> d.notes[0] == Notify(Null, s.result)
    ensures s.Failed? ==> d.notes == [Notify(s.error, Undefined)]
    ensures |d.notes| == 2 <==> s.Done? && cb(Null, s.result).Threw?
    ensures |d.notes| == 2 ==> d.notes[1] == Notify(cb(Null, s.result).error, Undefined)
    ensures var last := d.notes[|d.notes| - 1]; d.rejected == Rejection(cb(last.error, last.result))
  {
    match s
    case Done(r) =>
      (match cb(Null, r)
       case Returned(_) => Delivery([Notify(Null, r)], None)
       case Threw(e2) => Delivery([Notify(Null, r), Notify(e2, Undefined)], Rejection(cb(e2, Undefined))))
    case Failed(e) =>
      Delivery([Notify(e, Undefined)], Rejection(cb(e, Undefined)))
  }
}
