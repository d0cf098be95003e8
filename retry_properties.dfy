/**
 * What the retry loop promises, proved about the reference run `RunFrom`
 * (which the loop method of class RetryContext is proved equal to): how many
 * calls and pauses happen, with which arguments, which exit is taken and
 * which value or error comes out of it.
 */
module RetryProperties {
  import opened JsValues
  import opened RetryLoop

  /** The number of calls of the wrapped function among `ev`. */
  function Calls(ev: seq<Effect>): nat {
    if ev == [] then 0 else (if ev[0].Call? then 1 else 0) + Calls(ev[1..])
  }

  /** The number of pauses among `ev`. */
  function Pauses(ev: seq<Effect>): nat {
    if ev == [] then 0 else (if ev[0].Pause? then 1 else 0) + Pauses(ev[1..])
  }

  /** Every call in `ev` gets `args`, and every pause lasts `ms`. */
  predicate Uniform(ev: seq<Effect>, args: seq<Value>, ms: int) {
    forall i :: 0 <= i < |ev| ==> (ev[i].Call? ==> ev[i].args == args) && (ev[i].Pause? ==> ev[i].ms == ms)
  }

  /** The effects that exist only because a continuation filter is configured. */
  predicate FromFilter(e: Effect) {
    e.Consult? || (e.Log? && e.level == Error && e.message == FilterProblemMessage)
  }

  function WithoutFilterEffects(ev: seq<Effect>): seq<Effect> {
    if ev == [] then [] else (if FromFilter(ev[0]) then [] else [ev[0]]) + WithoutFilterEffects(ev[1..])
  }

  lemma {:induction false} CallsDistribute(a: seq<Effect>, b: seq<Effect>)
    ensures Calls(a + b) == Calls(a) + Calls(b)
  {
    if a == [] {
      assert a + b == b;
    } else {
      assert (a + b)[1..] == a[1..] + b;
      CallsDistribute(a[1..], b);
    }
  }

  lemma {:induction false} PausesDistribute(a: seq<Effect>, b: seq<Effect>)
    ensures Pauses(a + b) == Pauses(a) + Pauses(b)
  {
    if a == [] {
      assert a + b == b;
    } else {
      assert (a + b)[1..] == a[1..] + b;
      PausesDistribute(a[1..], b);
    }
  }

  lemma {:induction false} WithoutFilterDistribute(a: seq<Effect>, b: seq<Effect>)
    ensures WithoutFilterEffects(a + b) == WithoutFilterEffects(a) + WithoutFilterEffects(b)
  {
    if a == [] {
      assert a + b == b;
    } else {
      assert (a + b)[1..] == a[1..] + b;
      WithoutFilterDistribute(a[1..], b);
    }
  }

  lemma CountsDistribute(a: seq<Effect>, b: seq<Effect>)
    ensures Calls(a + b) == Calls(a) + Calls(b)
    ensures Pauses(a + b) == Pauses(a) + Pauses(b)
    ensures WithoutFilterEffects(a + b) == WithoutFilterEffects(a) + WithoutFilterEffects(b)
  {
    CallsDistribute(a, b);
    PausesDistribute(a, b);
    WithoutFilterDistribute(a, b);
  }

  lemma {:induction false} CountsOfSingleton(e: Effect)
    ensures Calls([e]) == (if e.Call? then 1 else 0)
    ensures Pauses([e]) == (if e.Pause? then 1 else 0)
    ensures WithoutFilterEffects([e]) == (if FromFilter(e) then [] else [e])
  {
    assert [e][1..] == [];
  }

  lemma FilterEffectsCounts(c: Config, e: Value)
    ensures Calls(FilterEffects(c, e)) == 0 && Pauses(FilterEffects(c, e)) == 0
    ensures WithoutFilterEffects(FilterEffects(c, e)) == []
  {
    match c.continuationFilter
    case None =>
    case Some(f) =>
      CountsOfSingleton(Consult(e));
      if f(e).Threw? {
        CountsOfSingleton(Log(Error, FilterProblemMessage, [f(e).error]));
        CountsDistribute([Consult(e)], [Log(Error, FilterProblemMessage, [f(e).error])]);
      } else {
        assert FilterEffects(c, e) == [Consult(e)];
      }
  }

  lemma {:induction false} UniformDistribute(a: seq<Effect>, b: seq<Effect>, args: seq<Value>, ms: int)
    ensures Uniform(a + b, args, ms) <==> Uniform(a, args, ms) && Uniform(b, args, ms)
  {
    if Uniform(a, args, ms) && Uniform(b, args, ms) {
      forall i | 0 <= i < |a + b|
        ensures ((a + b)[i].Call? ==> (a + b)[i].args == args) && ((a + b)[i].Pause? ==> (a + b)[i].ms == ms)
      {
        if i >= |a| {
          assert (a + b)[i] == b[i - |a|];
        }
      }
    }
    if Uniform(a + b, args, ms) {
      forall i | 0 <= i < |a|
        ensures (a[i].Call? ==> a[i].args == args) && (a[i].Pause? ==> a[i].ms == ms)
      {
        assert (a + b)[i] == a[i];
      }
      forall i | 0 <= i < |b|
        ensures (b[i].Call? ==> b[i].args == args) && (b[i].Pause? ==> b[i].ms == ms)
      {
        assert (a + b)[|a| + i] == b[i];
      }
    }
  }

  /** A pass that got a falsy result under `retryNullResults`. */
  lemma NullPassCounts(c: Config, args: seq<Value>)
    ensures var ev := [Call(args), Log(Debug, NoResultMessage, [Str(c.name), Str(PausingMessage)]), Pause(c.pauseBetweenTries)];
            Calls(ev) == 1 && Pauses(ev) == 1 && Uniform(ev, args, c.pauseBetweenTries)
  {
    var call, log, pause := Call(args), Log(Debug, NoResultMessage, [Str(c.name), Str(PausingMessage)]), Pause(c.pauseBetweenTries);
    CountsOfSingleton(call);
    CountsOfSingleton(log);
    CountsOfSingleton(pause);
    CountsDistribute([call], [log]);
    CountsDistribute([call, log], [pause]);
    assert [call, log] == [call] + [log];
    assert [call, log, pause] == [call, log] + [pause];
  }

  /** A pass whose error the filter vetoed. */
  lemma VetoPassCounts(args: seq<Value>, e: Value, ms: int)
    ensures Calls([Call(args), Consult(e)]) == 1 && Pauses([Call(args), Consult(e)]) == 0
    ensures Uniform([Call(args), Consult(e)], args, ms)
  {
    CountsOfSingleton(Call(args));
    CountsOfSingleton(Consult(e));
    CountsDistribute([Call(args)], [Consult(e)]);
    assert [Call(args), Consult(e)] == [Call(args)] + [Consult(e)];
  }

  /** The start of a pass whose error was not vetoed: the call, the filter, the debug log. */
  lemma HandledPrefixCounts(c: Config, args: seq<Value>, e: Value)
    ensures var ev := [Call(args)] + FilterEffects(c, e) + [Log(Debug, AttemptErrorMessage, [Str(c.name), e])];
            Calls(ev) == 1 && Pauses(ev) == 0 && Uniform(ev, args, c.pauseBetweenTries)
  {
    var call, debug := Call(args), Log(Debug, AttemptErrorMessage, [Str(c.name), e]);
    FilterEffectsCounts(c, e);
    CountsOfSingleton(call);
    CountsOfSingleton(debug);
    CallsDistribute([call], FilterEffects(c, e));
    PausesDistribute([call], FilterEffects(c, e));
    CallsDistribute([call] + FilterEffects(c, e), [debug]);
    PausesDistribute([call] + FilterEffects(c, e), [debug]);
    UniformDistribute([call], FilterEffects(c, e), args, c.pauseBetweenTries);
    UniformDistribute([call] + FilterEffects(c, e), [debug], args, c.pauseBetweenTries);
  }

  /** A pass whose error was handled without a veto and ended in `last`. */
  lemma FailedPassCounts(c: Config, args: seq<Value>, e: Value, last: Effect)
    requires last.Pause? ==> last.ms == c.pauseBetweenTries
    requires !last.Call?
    ensures var ev := [Call(args)] + FilterEffects(c, e) + [Log(Debug, AttemptErrorMessage, [Str(c.name), e])] + [last];
            Calls(ev) == 1 && Pauses(ev) == (if last.Pause? then 1 else 0) && Uniform(ev, args, c.pauseBetweenTries)
  {
    var handled := [Call(args)] + FilterEffects(c, e) + [Log(Debug, AttemptErrorMessage, [Str(c.name), e])];
    HandledPrefixCounts(c, args, e);
    CountsOfSingleton(last);
    CallsDistribute(handled, [last]);
    PausesDistribute(handled, [last]);
    UniformDistribute(handled, [last], args, c.pauseBetweenTries);
  }

  /**
   * One pass of the loop body calls the function once, with `args`, and
   * pauses once, for `pauseBetweenTries`, exactly when it retries.
   */
  lemma AttemptAccounting(c: Config, fn: Operation, args: seq<Value>, calls: nat)
    ensures var s := Attempt(c, fn, args, calls);
            Calls(s.effects) == 1 && Pauses(s.effects) == (if s.Retry? then 1 else 0) &&
            Uniform(s.effects, args, c.pauseBetweenTries)
  {
    match fn(args, calls)
    case Returned(r) =>
      NullPassCounts(c, args);
      CountsOfSingleton(Call(args));
    case Threw(e) =>
      VetoPassCounts(args, e, c.pauseBetweenTries);
      FailedPassCounts(c, args, e, Log(Error, GiveUpMessage, [Str(c.name), e]));
      FailedPassCounts(c, args, e, Pause(c.pauseBetweenTries));
  }

  /**
   * Counting over a whole run: the function is called once per increment of
   * the counter (so at most `maxRetries` times from zero), always with the
   * arguments `invoke` got, and every pause lasts `pauseBetweenTries`. Pauses
   * come only between calls, except that a run that falls through the loop
   * also paused after its last call.
   */
  lemma {:induction false} Accounting(c: Config, fn: Operation, args: seq<Value>, t: nat)
    ensures var r := RunFrom(c, fn, args, t);
            Calls(r.effects) == r.tries - t &&
            Uniform(r.effects, args, c.pauseBetweenTries) &&
            Pauses(r.effects) + (if r.exit == FellThrough then 0 else 1) == Calls(r.effects)
    decreases c.maxRetries - t
  {
    if t < c.maxRetries {
      AttemptAccounting(c, fn, args, t);
      var s := Attempt(c, fn, args, t);
      if s.Retry? {
        Accounting(c, fn, args, t + 1);
        var rest := RunFrom(c, fn, args, t + 1).effects;
        CallsDistribute(s.effects, rest);
        PausesDistribute(s.effects, rest);
        UniformDistribute(s.effects, rest, args, c.pauseBetweenTries);
      }
    }
  }

  /**
   * Every call of a run before its last one let the loop go on; when the
   * loop fell through, its last call did too.
   */
  lemma {:induction false} EarlierAttemptsRetried(c: Config, fn: Operation, args: seq<Value>, t: nat)
    ensures var r := RunFrom(c, fn, args, t);
            RetriedBetween(c, fn, args, t, if r.exit == FellThrough then r.tries else r.tries - 1)
    decreases c.maxRetries - t
  {
    if t < c.maxRetries && Attempt(c, fn, args, t).Retry? {
      EarlierAttemptsRetried(c, fn, args, t + 1);
      assert Retries(c, fn(args, t));
    }
  }

  /**
   * How a run ended tells what its last attempt did: success carries the
   * value the last call returned, which the loop accepts; every failure
   * carries the error the last call threw, except the generic error after
   * the loop, so the filter's own errors never become the outcome.
   */
  lemma {:induction false} ExitCharacterization(c: Config, fn: Operation, args: seq<Value>, t: nat)
    ensures var r := RunFrom(c, fn, args, t);
            (r.exit == FellThrough ==> r.settled == Failed(CouldNotComplete)) &&
            (r.settled.Done? <==> r.exit == Succeeded) &&
            (r.exit == Succeeded ==>
               fn(args, r.tries - 1) == Returned(r.settled.result) && Accepts(c, r.settled.result)) &&
            (r.exit == AbortedByFilter ==>
               r.settled.Failed? && fn(args, r.tries - 1) == Threw(r.settled.error) && FilterAborts(c, r.settled.error)) &&
            (r.exit == ExhaustedRetries ==>
               r.tries == c.maxRetries && r.settled.Failed? &&
               fn(args, r.tries - 1) == Threw(r.settled.error) && !FilterAborts(c, r.settled.error))
    decreases c.maxRetries - t
  {
    if t < c.maxRetries && Attempt(c, fn, args, t).Retry? {
      ExitCharacterization(c, fn, args, t + 1);
    }
  }

  /**
   * Attempts that let the loop go on, while budget remains after them, only
   * add their effects in front of the rest of the run.
   */
  lemma {:induction false} SkipRetried(c: Config, fn: Operation, args: seq<Value>, t: nat, k: nat)
    requires t <= k < c.maxRetries
    requires RetriedBetween(c, fn, args, t, k)
    ensures RunFrom(c, fn, args, t) == Prepend(RetriedEffects(c, fn, args, t, k), RunFrom(c, fn, args, k))
    decreases k - t
  {
    if t < k {
      assert Retries(c, fn(args, t));
      assert Attempt(c, fn, args, t).Retry?;
      SkipRetried(c, fn, args, t + 1, k);
      var pre := Attempt(c, fn, args, t).effects;
      assert pre + (RetriedEffects(c, fn, args, t + 1, k) + RunFrom(c, fn, args, k).effects)
          == (pre + RetriedEffects(c, fn, args, t + 1, k)) + RunFrom(c, fn, args, k).effects;
    }
  }

  /**
   * The first returned value the loop accepts ends it at once with that
   * value, whatever budget is left: after `k` attempts that were retried, the
   * function was called `k + 1` times. With `k == 0` this is the first call
   * succeeding and the function being called exactly once.
   */
  lemma FirstAcceptedResultEnds(c: Config, fn: Operation, args: seq<Value>, t: nat, k: nat, v: Value)
    requires t <= k < c.maxRetries
    requires RetriedBetween(c, fn, args, t, k)
    requires fn(args, k) == Returned(v) && Accepts(c, v)
    ensures RunFrom(c, fn, args, t) == Run(Succeeded, Done(v), k + 1, RetriedEffects(c, fn, args, t, k) + [Call(args)])
  {
    SkipRetried(c, fn, args, t, k);
  }

  /**
   * A filter that answers a defined falsy value stops the loop at once with
   * the error of that attempt: no further call, no pause, whatever budget
   * is left.
   */
  lemma FilterVetoEnds(c: Config, fn: Operation, args: seq<Value>, t: nat, k: nat, e: Value)
    requires t <= k < c.maxRetries
    requires RetriedBetween(c, fn, args, t, k)
    requires fn(args, k) == Threw(e) && FilterAborts(c, e)
    ensures RunFrom(c, fn, args, t) ==
            Run(AbortedByFilter, Failed(e), k + 1, RetriedEffects(c, fn, args, t, k) + [Call(args), Consult(e)])
  {
    SkipRetried(c, fn, args, t, k);
  }

  /** The last pass allowed, when its error is not vetoed, gives up with that error. */
  lemma FinalFailedPass(c: Config, fn: Operation, args: seq<Value>, k: nat)
    requires k + 1 == c.maxRetries
    requires fn(args, k).Threw? && !FilterAborts(c, fn(args, k).error)
    ensures var r := RunFrom(c, fn, args, k);
            var e := fn(args, k).error;
            r.exit == ExhaustedRetries && r.settled == Failed(e) && r.tries == c.maxRetries &&
            |r.effects| > 0 && r.effects[|r.effects| - 1] == Log(Error, GiveUpMessage, [Str(c.name), e])
  {
    var e := fn(args, k).error;
    var pass := [Call(args)] + FilterEffects(c, e) + [Log(Debug, AttemptErrorMessage, [Str(c.name), e])] +
                [Log(Error, GiveUpMessage, [Str(c.name), e])];
    assert Attempt(c, fn, args, k) == Finish(ExhaustedRetries, Failed(e), pass);
  }

  /**
   * A function that throws on every attempt, with no filter veto, is called
   * until the budget is spent; the terminal error is the one the last
   * attempt threw, and the last thing done is the give-up log, not a pause.
   */
  lemma PersistentFailureExhausts(c: Config, fn: Operation, args: seq<Value>, t: nat)
    requires t < c.maxRetries
    requires forall k: nat :: t <= k < c.maxRetries ==> fn(args, k).Threw? && !FilterAborts(c, fn(args, k).error)
    ensures var r := RunFrom(c, fn, args, t);
            var e := fn(args, c.maxRetries - 1).error;
            r.exit == ExhaustedRetries && r.settled == Failed(e) && r.tries == c.maxRetries &&
            Calls(r.effects) == c.maxRetries - t && Pauses(r.effects) == c.maxRetries - t - 1 &&
            r.effects[|r.effects| - 1] == Log(Error, GiveUpMessage, [Str(c.name), e])
  {
    var last: nat := c.maxRetries - 1;
    var e := fn(args, last).error;
    assert RetriedBetween(c, fn, args, t, last) by {
      forall k: nat | t <= k < last ensures Retries(c, fn(args, k)) {
        assert fn(args, k).Threw?;
      }
    }
    SkipRetried(c, fn, args, t, last);
    FinalFailedPass(c, fn, args, last);
    var tail := RunFrom(c, fn, args, last).effects;
    var pre := RetriedEffects(c, fn, args, t, last);
    assert (pre + tail)[|pre + tail| - 1] == tail[|tail| - 1];
    Accounting(c, fn, args, t);
  }

  /**
   * With `retryNullResults` set and only falsy results, every attempt is
   * used, each followed by a pause, and the loop falls through to the
   * generic error; when `maxRetries <= 0` no call is made at all.
   */
  lemma {:induction false} NullResultsFallThrough(c: Config, fn: Operation, args: seq<Value>, t: nat)
    requires c.retryNullResults
    requires forall k: nat :: t <= k < c.maxRetries ==> fn(args, k).Returned? && !Truthy(fn(args, k).value)
    ensures var r := RunFrom(c, fn, args, t);
            r.exit == FellThrough && r.settled == Failed(CouldNotComplete) && r.tries == Max(t, c.maxRetries) &&
            Calls(r.effects) == Pauses(r.effects) == Max(t, c.maxRetries) - t
    decreases c.maxRetries - t
  {
    if t < c.maxRetries {
      assert Attempt(c, fn, args, t).Retry?;
      NullResultsFallThrough(c, fn, args, t + 1);
    }
    Accounting(c, fn, args, t);
  }

  lemma {:induction false} KeepsOtherEffects(ev: seq<Effect>)
    requires forall i :: 0 <= i < |ev| ==> !FromFilter(ev[i])
    ensures WithoutFilterEffects(ev) == ev
  {
    if ev != [] {
      KeepsOtherEffects(ev[1..]);
    }
  }

  /** The effects of a pass whose error the filter did not veto, with and without the filter. */
  lemma ThrownPassWithoutFilter(c: Config, args: seq<Value>, e: Value, last: Effect)
    requires !FromFilter(last)
    ensures var debug := Log(Debug, AttemptErrorMessage, [Str(c.name), e]);
            WithoutFilterEffects([Call(args)] + FilterEffects(c, e) + [debug] + [last]) ==
            [Call(args)] + FilterEffects(c.(continuationFilter := None), e) + [debug] + [last]
  {
    var call, debug := Call(args), Log(Debug, AttemptErrorMessage, [Str(c.name), e]);
    FilterEffectsCounts(c, e);
    CountsOfSingleton(call);
    CountsOfSingleton(debug);
    CountsOfSingleton(last);
    WithoutFilterDistribute([call], FilterEffects(c, e));
    WithoutFilterDistribute([call] + FilterEffects(c, e), [debug]);
    WithoutFilterDistribute([call] + FilterEffects(c, e) + [debug], [last]);
    assert FilterEffects(c.(continuationFilter := None), e) == [];
  }

  /** A pass without a veto does what it would do without a filter, plus the filter's own effects. */
  lemma AttemptWithoutFilter(c: Config, fn: Operation, args: seq<Value>, calls: nat)
    requires fn(args, calls).Threw? ==> !FilterAborts(c, fn(args, calls).error)
    ensures var s := Attempt(c, fn, args, calls);
            var s0 := Attempt(c.(continuationFilter := None), fn, args, calls);
            s.Retry? == s0.Retry? &&
            (s.Finish? ==> s.exit == s0.exit && s.settled == s0.settled) &&
            s0.effects == WithoutFilterEffects(s.effects)
  {
    match fn(args, calls)
    case Returned(r) =>
      KeepsOtherEffects(Attempt(c, fn, args, calls).effects);
    case Threw(e) =>
      ThrownPassWithoutFilter(c, args, e, Log(Error, GiveUpMessage, [Str(c.name), e]));
      ThrownPassWithoutFilter(c, args, e, Pause(c.pauseBetweenTries));
  }

  /**
   * A filter that never vetoes is the same as no filter at all: the same
   * calls, pauses, counter and outcome; only its own consultation and the
   * log of its failures are added. In particular the filter's errors never
   * become the terminal error.
   */
  lemma {:induction false} NonVetoingFilterIsTransparent(c: Config, fn: Operation, args: seq<Value>, t: nat)
    requires forall k: nat :: t <= k < c.maxRetries && fn(args, k).Threw? ==> !FilterAborts(c, fn(args, k).error)
    ensures var r := RunFrom(c, fn, args, t);
            var r0 := RunFrom(c.(continuationFilter := None), fn, args, t);
            r.exit == r0.exit && r.settled == r0.settled && r.tries == r0.tries &&
            WithoutFilterEffects(r.effects) == r0.effects
    decreases c.maxRetries - t
  {
    var c0 := c.(continuationFilter := None);
    if t < c.maxRetries {
      AttemptWithoutFilter(c, fn, args, t);
      var s := Attempt(c, fn, args, t);
      if s.Retry? {
        NonVetoingFilterIsTransparent(c, fn, args, t + 1);
        CountsDistribute(s.effects, RunFrom(c, fn, args, t + 1).effects);
      }
    } else {
      assert WithoutFilterEffects([]) == [];
    }
  }
}
