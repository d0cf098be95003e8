/**
 * The `RetryContext` class: configuration fixed at construction, `invoke`
 * building a fresh attempt record per call, and the retry loop that advances
 * the record's counter. Each method is proved equal to the reference
 * functions of module RetryLoop.
 */
module RetryContext {
  import opened JsValues
  import opened RetryLoop

  /**
   * The options object given to the constructor. An option left out is
   * `None`; `continuationFilter` is `None` also when the value given is not a
   * function, since only a function is ever called.
   */
  datatype Props = Props(
    name: string,
    maxRetries: int,
    retryNullResults: Option<bool>,
    pauseBetweenTries: Option<int>,
    continuationFilter: Option<Filter>)

  /** The per-call record `ctx`: the attempt counter, the function and its arguments. */
  class Attempts {
    var tries: nat
    const fn: Operation
    const args: seq<Value>

    constructor (fn: Operation, args: seq<Value>)
      ensures tries == 0 && this.fn == fn && this.args == args
    {
      tries := 0;
      this.fn := fn;
      this.args := args;
    }
  }

  class RetryContext {
    const name: string
    const maxRetries: int
    const retryNullResults: bool
    const pauseBetweenTries: int
    const continuationFilter: Option<Filter>

    /**
     * The schema demands a non-empty `name` and a `maxRetries`. An absent
     * or `false` retryNullResults becomes false, and an absent or zero
     * pauseBetweenTries becomes 500, since both go through `||`.
     */
    constructor (props: Props)
      requires props.name != ""
      ensures name == props.name && maxRetries == props.maxRetries
      ensures retryNullResults <==> props.retryNullResults == Some(true)
      ensures pauseBetweenTries != 0
      ensures props.pauseBetweenTries.Some? && props.pauseBetweenTries.value != 0 ==>
                pauseBetweenTries == props.pauseBetweenTries.value
      ensures props.pauseBetweenTries == None || props.pauseBetweenTries == Some(0) ==>
                pauseBetweenTries == 500
      ensures continuationFilter == props.continuationFilter
    {
      name := props.name;
      maxRetries := props.maxRetries;
      retryNullResults := if props.retryNullResults.Some? && props.retryNullResults.value then true else false;
      pauseBetweenTries :=
        if props.pauseBetweenTries.Some? && props.pauseBetweenTries.value != 0 then props.pauseBetweenTries.value else 500;
      continuationFilter := props.continuationFilter;
    }

    /** The configuration as a value, for the reference functions. */
    function Settings(): Config {
      Config(name, maxRetries, retryNullResults, pauseBetweenTries, continuationFilter)
    }

    /**
     * `invoke(fn, cb, ...args)`: the whole retry loop with a fresh counter,
     * then the callback dispatch. Returns every effect in order and the error,
     * if any, that rejects `invoke`'s own promise.
     */
    method Invoke(fn: Operation, cb: Callback, args: seq<Value>) returns (effects: seq<Effect>, rejected: Option<Value>)
      ensures var run := RunFrom(Settings(), fn, args, 0);
              var d := Dispatch(run.settled, cb);
              effects == run.effects + d.notes && rejected == d.rejected
    {
      var ctx := new Attempts(fn, args);
      var settled, loopEffects := InvokeWithRetries(ctx);
      match settled
      case Done(r) =>
        effects := loopEffects + [Notify(Null, r)];
        rejected := None;
        var reply := cb(Null, r);
        if reply.Threw? {
          effects := effects + [Notify(reply.error, Undefined)];
          var last := cb(reply.error, Undefined);
          rejected := if last.Threw? then Some(last.error) else None;
        }
      case Failed(e) =>
        effects := loopEffects + [Notify(e, Undefined)];
        var last := cb(e, Undefined);
        rejected := if last.Threw? then Some(last.error) else None;
    }

    /**
     * The `try` around the continuation filter after an attempt threw `e`:
     * whether it vetoes further retries, and the effects of asking it. A
     * filter that throws is logged and does not veto.
     */
    method ConsultFilter(e: Value) returns (vetoed: bool, effects: seq<Effect>)
      ensures vetoed == FilterAborts(Settings(), e)
      ensures effects == if vetoed then [Consult(e)] else FilterEffects(Settings(), e)
    {
      vetoed, effects := false, [];
      if continuationFilter.Some? {
        effects := [Consult(e)];
        var check := continuationFilter.value(e);
        match check
        case Returned(answer) =>
          vetoed := answer != Undefined && !Truthy(answer);
        case Threw(e2) =>
          effects := effects + [Log(Error, FilterProblemMessage, [e2])];
      }
    }

    /**
     * `_invokeWithRetries(ctx)`: the `while` loop over `ctx.tries`, leaving
     * through `done(r)` or `err(e)`. Its settlement, effects and final
     * counter are those of the reference run from the counter's old value.
     */
    method InvokeWithRetries(ctx: Attempts) returns (settled: Settled, effects: seq<Effect>)
      modifies ctx
      ensures var run := RunFrom(Settings(), ctx.fn, ctx.args, old(ctx.tries));
              settled == run.settled && effects == run.effects && ctx.tries == run.tries
    {
      ghost var c := Config(name, maxRetries, retryNullResults, pauseBetweenTries, continuationFilter);
      ghost var start := ctx.tries;
      effects := [];
      while ctx.tries < maxRetries
        invariant start <= ctx.tries <= Max(start, maxRetries)
        invariant RunFrom(c, ctx.fn, ctx.args, start) == Prepend(effects, RunFrom(c, ctx.fn, ctx.args, ctx.tries))
        decreases maxRetries - ctx.tries
      {
        ghost var calls := ctx.tries;
        ctx.tries := ctx.tries + 1;
        var pass := [Call(ctx.args)];
        var outcome := ctx.fn(ctx.args, ctx.tries - 1);
        match outcome {
          case Returned(r) =>
            if !Truthy(r) && retryNullResults {
              pass := pass + [Log(Debug, NoResultMessage, [Str(name), Str(PausingMessage)]), Pause(pauseBetweenTries)];
              assert Attempt(c, ctx.fn, ctx.args, calls) == Retry(pass);
              RetryingPass(c, ctx.fn, ctx.args, calls);
            } else {
              assert Attempt(c, ctx.fn, ctx.args, calls) == Finish(Succeeded, Done(r), pass);
              FinishingPass(c, ctx.fn, ctx.args, calls);
              settled, effects := Done(r), effects + pass;
              return;
            }
          case Threw(e) =>
            var vetoed, consulted := ConsultFilter(e);
            pass := pass + consulted;
            if vetoed {
              assert Attempt(c, ctx.fn, ctx.args, calls) == Finish(AbortedByFilter, Failed(e), pass);
              FinishingPass(c, ctx.fn, ctx.args, calls);
              settled, effects := Failed(e), effects + pass;
              return;
            }
            pass := pass + [Log(Debug, AttemptErrorMessage, [Str(name), e])];
            if ctx.tries >= maxRetries {
              pass := pass + [Log(Error, GiveUpMessage, [Str(name), e])];
              assert Attempt(c, ctx.fn, ctx.args, calls) == Finish(ExhaustedRetries, Failed(e), pass);
              FinishingPass(c, ctx.fn, ctx.args, calls);
              settled, effects := Failed(e), effects + pass;
              return;
            }
            pass := pass + [Pause(pauseBetweenTries)];
            assert Attempt(c, ctx.fn, ctx.args, calls) == Retry(pass);
            RetryingPass(c, ctx.fn, ctx.args, calls);
        }
        assert (effects + pass) + RunFrom(c, ctx.fn, ctx.args, ctx.tries).effects
            == effects + (pass + RunFrom(c, ctx.fn, ctx.args, ctx.tries).effects);
        effects := effects + pass;
      }
      settled := Failed(CouldNotComplete);
    }
  }
}
