// gui/decorators.py: the four wrappers the application stacks on its methods.
// A wrapped Python callable is a function from a call (positional and keyword
// arguments) to a Run: what it returned or raised, and the lines it printed.
// Printing is kept as LogLine events (without the clock readings) so that the
// order in which decorators are stacked can be observed.

module Decorators {
  import opened Python

  datatype Call = Call(args: seq<Value>, kwargs: map<string, Value>)

  datatype LogLine =
    | Starting(fn: string)                     // "[LOG] Starting <fn> at <time>"
    | Completed(fn: string)                    // "[LOG] <fn> completed in <secs>s"
    | Failed(fn: string, reason: string)       // "[LOG] <fn> failed: <str(e)>"
    | ErrorReport(context: string, reason: string)  // "[ERROR] <context>: <str(e)>"
    | CacheHit(fn: string)                     // "[CACHE] Returning cached result for <fn>"
    | CacheStore(fn: string)                   // "[CACHE] Cached result for <fn>"

  datatype Run = Run(out: Outcome<Value>, log: seq<LogLine>)

  type Callable = Call -> Run

  const EmptyInput: Exception := Exception(ValueError, "Input cannot be empty")

  /** The first argument after `self` is falsy or a whitespace-only string. */
  predicate IsEmptyInput(v: Value) {
    !Truthy(v) || (v.StrValue? && IsBlank(v.s))
  }

  /** The test `validate_input` performs, as written with `strip()`. */
  predicate RejectsArgs(args: seq<Value>) {
    |args| > 1 && (!Truthy(args[1]) || (args[1].StrValue? && Strip(args[1].s) == ""))
  }

  /** The `strip()` test refuses exactly the falsy values and the strings made
      only of whitespace. */
  lemma RejectsExactlyEmptyInput(args: seq<Value>)
    ensures RejectsArgs(args) <==> |args| > 1 && IsEmptyInput(args[1])
  {
    if |args| > 1 && args[1].StrValue? {
      StripEmptyIffBlank(args[1].s);
    }
  }

  /** `validate_input`: refuse an empty first user argument, otherwise delegate.
      Fewer than two positional arguments are never checked, nor are keyword arguments. */
  function ValidateInput(f: Callable, c: Call): (r: Run)
    ensures |c.args| > 1 && IsEmptyInput(c.args[1]) ==> r == Run(Err(EmptyInput), [])
    ensures !(|c.args| > 1 && IsEmptyInput(c.args[1])) ==> r == f(c)
  {
    RejectsExactlyEmptyInput(c.args);
    if RejectsArgs(c.args) then Run(Err(EmptyInput), []) else f(c)
  }

  /** `log_operation`: the wrapped result or exception passes through unchanged;
      one line before the call and one after it. */
  function LogOperation(name: string, f: Callable, c: Call): (r: Run)
    ensures r.out == f(c).out
    ensures |r.log| == |f(c).log| + 2
    ensures r.log[0] == Starting(name) && r.log[1..|r.log| - 1] == f(c).log
    ensures f(c).out.Ok? ==> r.log[|r.log| - 1] == Completed(name)
    ensures f(c).out.Err? ==> r.log[|r.log| - 1] == Failed(name, f(c).out.exc.msg)
  {
    var inner := f(c);
    var last := match inner.out
      case Ok(_) => Completed(name)
      case Err(e) => Failed(name, e.msg);
    Run(inner.out, [Starting(name)] + inner.log + [last])
  }

  /** `error_handler(message)`: any exception becomes a `None` return and one error line. */
  function ErrorHandler(message: string, f: Callable, c: Call): (r: Run)
    ensures r.out.Ok?
    ensures f(c).out.Ok? ==> r == f(c)
    ensures f(c).out.Err? ==> r.out == Ok(NoneValue)
    ensures f(c).out.Err? ==> r.log == f(c).log + [ErrorReport(message, f(c).out.exc.msg)]
  {
    var inner := f(c);
    match inner.out
    case Ok(_) => inner
    case Err(e) => Run(Ok(NoneValue), inner.log + [ErrorReport(message, e.msg)])
  }

  /** The stack used on the models' and the window's `process` methods:
      `@validate_input @log_operation @error_handler(message)`. */
  function ValidatedLoggedGuarded(name: string, message: string, body: Callable, c: Call): (r: Run)
    ensures |c.args| > 1 && IsEmptyInput(c.args[1]) ==> r == Run(Err(EmptyInput), [])
    ensures !(|c.args| > 1 && IsEmptyInput(c.args[1])) ==>
              && r.out.Ok?
              && |r.log| >= 2 && r.log[0] == Starting(name) && r.log[|r.log| - 1] == Completed(name)
  {
    var inner := (c2: Call) => ErrorHandler(message, body, c2);
    var outer := (c1: Call) => LogOperation(name, inner, c1);
    assert inner(c).out.Ok?;
    ValidateInput(outer, c)
  }

  /** The same three wrappers with the error handler outermost. */
  function GuardedValidatedLogged(name: string, message: string, body: Callable, c: Call): (r: Run)
    ensures r.out.Ok?
  {
    ErrorHandler(message, c1 => ValidateInput(c2 => LogOperation(name, body, c2), c1), c)
  }

  /** With the validator outermost an empty argument escapes as ValueError while
      every failure of the body is swallowed; with the error handler outermost
      nothing escapes. The two stacks differ exactly on empty arguments. */
  lemma StackingOrderObservable(name: string, message: string, body: Callable, c: Call)
    ensures |c.args| > 1 && IsEmptyInput(c.args[1]) ==>
      ValidatedLoggedGuarded(name, message, body, c) == Run(Err(EmptyInput), []) &&
      GuardedValidatedLogged(name, message, body, c) ==
        Run(Ok(NoneValue), [ErrorReport(message, EmptyInput.msg)])
    ensures !(|c.args| > 1 && IsEmptyInput(c.args[1])) ==>
      ValidatedLoggedGuarded(name, message, body, c).out.Ok? &&
      (body(c).out.Ok? ==> ValidatedLoggedGuarded(name, message, body, c).out ==
                           GuardedValidatedLogged(name, message, body, c).out)
  {
    var inner := (c2: Call) => ErrorHandler(message, body, c2);
    var outer := (c1: Call) => LogOperation(name, inner, c1);
    var logged := (c2: Call) => LogOperation(name, body, c2);
    var validated := (c1: Call) => ValidateInput(logged, c1);
    assert ValidatedLoggedGuarded(name, message, body, c) == ValidateInput(outer, c);
    assert GuardedValidatedLogged(name, message, body, c) == ErrorHandler(message, validated, c);
    if |c.args| > 1 && IsEmptyInput(c.args[1]) {
      assert validated(c) == Run(Err(EmptyInput), []);
    } else {
      assert ValidateInput(outer, c) == outer(c);
      assert outer(c).out == inner(c).out;
      assert validated(c) == logged(c);
      assert logged(c).out == body(c).out;
    }
  }

  /** The validator-outermost stack around a body that prints nothing, on an
      argument the validator lets through: a result is returned between the two
      log lines; an exception becomes `None`, with its error line between them. */
  lemma ValidatedLoggedGuardedRun(name: string, message: string, out: Outcome<Value>, c: Call)
    requires !(|c.args| > 1 && IsEmptyInput(c.args[1]))
    ensures out.Ok? ==>
              ValidatedLoggedGuarded(name, message, _ => Run(out, []), c) ==
              Run(out, [Starting(name), Completed(name)])
    ensures out.Err? ==>
              ValidatedLoggedGuarded(name, message, _ => Run(out, []), c) ==
              Run(Ok(NoneValue), [Starting(name), ErrorReport(message, out.exc.msg), Completed(name)])
  {
    var body: Callable := _ => Run(out, []);
    var inner := (c2: Call) => ErrorHandler(message, body, c2);
    assert ValidatedLoggedGuarded(name, message, body, c) == LogOperation(name, inner, c);
  }

  // ---------------------------------------------------------------------------
  // cache_result

  /** The key `f"{func.__name__}_{hash(str(args) + str(kwargs))}"`; the hash is an
      opaque function of the call, so two calls whose hashes collide share a key.
      The decimal rendering of an int has no underscore, so the string is a
      one-to-one image of this pair. */
  datatype CacheKey = CacheKey(fn: string, argsHash: int)

  datatype CacheStep = CacheStep(run: Run, cache: map<CacheKey, Value>, invoked: bool)

  /** One call of a `cache_result`-wrapped function on its cache dictionary. */
  function CacheCall(cache: map<CacheKey, Value>, name: string, f: Callable, hash: Call -> int, c: Call)
    : (r: CacheStep)
    ensures var key := CacheKey(name, hash(c));
      && (r.invoked <==> key !in cache)
      && (key in cache ==> r.run == Run(Ok(cache[key]), [CacheHit(name)]) && r.cache == cache)
      && (key !in cache && f(c).out.Ok? ==>
            r.run == Run(f(c).out, f(c).log + [CacheStore(name)]) &&
            r.cache == cache[key := f(c).out.value])
      && (key !in cache && f(c).out.Err? ==> r.run == f(c) && r.cache == cache)
  {
    var key := CacheKey(name, hash(c));
    if key in cache then CacheStep(Run(Ok(cache[key]), [CacheHit(name)]), cache, false)
    else
      var inner := f(c);
      match inner.out
      case Ok(v) => CacheStep(Run(inner.out, inner.log + [CacheStore(name)]), cache[key := v], true)
      case Err(_) => CacheStep(inner, cache, true)
  }

  /** Once a call has been stored, any later call with the same key returns the
      stored value without calling the function again, whatever it would return now. */
  lemma CachedCallNotRepeated(cache: map<CacheKey, Value>, name: string, f: Callable, g: Callable,
                              hash: Call -> int, c1: Call, c2: Call)
    requires hash(c1) == hash(c2)
    requires f(c1).out.Ok?
    ensures var first := CacheCall(cache, name, f, hash, c1);
            var second := CacheCall(first.cache, name, g, hash, c2);
            && !second.invoked && second.cache == first.cache
            && second.run.out == first.run.out
  {
  }

  /** The cache after a sequence of calls, and how many of them stored a result. */
  function CacheCalls(cache: map<CacheKey, Value>, name: string, f: Callable, hash: Call -> int,
                      calls: seq<Call>): (map<CacheKey, Value>, nat)
    decreases |calls|
  {
    if calls == [] then (cache, 0)
    else
      var step := CacheCall(cache, name, f, hash, calls[0]);
      var (rest, stores) := CacheCalls(step.cache, name, f, hash, calls[1..]);
      (rest, stores + if step.invoked && step.run.out.Ok? then 1 else 0)
  }

  /** The cache is never invalidated: every entry survives unchanged, and each
      successful call of the function adds exactly one new entry. */
  lemma {:induction false} CacheOnlyGrows(cache: map<CacheKey, Value>, name: string, f: Callable,
                                          hash: Call -> int, calls: seq<Call>)
    ensures var (final, stores) := CacheCalls(cache, name, f, hash, calls);
            && (forall k :: k in cache ==> k in final && final[k] == cache[k])
            && |final| == |cache| + stores
    decreases |calls|
  {
    if calls != [] {
      var step := CacheCall(cache, name, f, hash, calls[0]);
      CacheOnlyGrows(step.cache, name, f, hash, calls[1..]);
      if step.invoked && step.run.out.Ok? {
        var key := CacheKey(name, hash(calls[0]));
        assert key !in cache;
        assert step.cache.Keys == cache.Keys + {key};
      }
    }
  }

  /** The state of one `cache_result` wrapper: the closure's dictionary. Each
      decorated function gets its own instance, so its own cache. */
  class CachedFunction {
    const name: string
    const body: Callable
    const hash: Call -> int
    var cache: map<CacheKey, Value>

    constructor (name: string, body: Callable, hash: Call -> int)
      ensures this.name == name && this.body == body && this.hash == hash
      ensures cache == map[]
    {
      this.name, this.body, this.hash := name, body, hash;
      cache := map[];
    }

    /** Calling the wrapper: look the key up, otherwise call and store. */
    method Invoke(c: Call) returns (r: Run, invoked: bool)
      modifies this
      ensures var step := CacheCall(old(cache), name, body, hash, c);
              r == step.run && cache == step.cache && invoked == step.invoked
    {
      var key := CacheKey(name, hash(c));
      if key in cache {
        r, invoked := Run(Ok(cache[key]), [CacheHit(name)]), false;
        return;
      }
      invoked := true;
      r := body(c);
      if r.out.Ok? {
        cache := cache[key := r.out.value];
        r := Run(r.out, r.log + [CacheStore(name)]);
      }
    }
  }
}
