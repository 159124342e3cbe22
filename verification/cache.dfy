/** decorators.py: `timed_cache(seconds)`, which keeps one dictionary per decorated function,
    keyed by the class name of the call's first positional argument, of `(result, timestamp)`
    pairs that stay valid for `seconds`. */
module Cache {
  import opened Wrappers

  /** The closure's `cache` dictionary: key to (stored result, time it was stored). */
  type Entries<T> = map<string, (T, real)>

  /** `key = args[0].__class__.__name__`: the class names of the positional arguments stand
      for the arguments; a call without one raises IndexError. */
  function CacheKey(argClasses: seq<string>): (r: Result<string>)
    ensures r.Ok? <==> |argClasses| > 0
    ensures r.Ok? ==> r.value == argClasses[0]
  {
    if |argClasses| == 0 then Raised(IndexError) else Ok(argClasses[0])
  }

  /** The stored result for `key` if it is still fresh at `now`. */
  function Fresh<T>(entries: Entries<T>, key: string, now: real, seconds: real): (r: Option<T>)
    ensures r.Some? <==> key in entries && now - entries[key].1 < seconds
    ensures r.Some? ==> r.value == entries[key].0
  {
    if key in entries && now - entries[key].1 < seconds then Some(entries[key].0) else None
  }

  /** One call of the wrapped function: what it returns, the dictionary afterwards, and whether
      the decorated function ran. `outcome` is what the decorated function returns or raises
      when it runs. */
  datatype Step<T> = Step(result: Result<T>, entries: Entries<T>, called: bool)

  function CallStep<T>(entries: Entries<T>, argClasses: seq<string>, now: real, seconds: real, outcome: Result<T>): (s: Step<T>)
    ensures CacheKey(argClasses).Raised? ==> s == Step(Raised(IndexError), entries, false)
    ensures CacheKey(argClasses).Ok? && Fresh(entries, argClasses[0], now, seconds).Some? ==>
      s == Step(Ok(entries[argClasses[0]].0), entries, false)
    ensures CacheKey(argClasses).Ok? && Fresh(entries, argClasses[0], now, seconds).None? ==>
      s.called && s.result == outcome &&
      s.entries == (if outcome.Ok? then entries[argClasses[0] := (outcome.value, now)] else entries)
  {
    match CacheKey(argClasses)
    case Raised(e) => Step(Raised(e), entries, false)
    case Ok(key) =>
      match Fresh(entries, key, now, seconds)
      case Some(v) => Step(Ok(v), entries, false)
      case None =>
        match outcome
        case Ok(v) => Step(Ok(v), entries[key := (v, now)], true)
        case Raised(e) => Step(Raised(e), entries, true)
  }

  /** An entry stored exactly `seconds` ago is stale: the next call runs the function again. */
  lemma StaleAtExpiry<T>(entries: Entries<T>, argClasses: seq<string>, now: real, seconds: real, outcome: Result<T>)
    requires |argClasses| > 0 && argClasses[0] in entries
    requires entries[argClasses[0]].1 == now - seconds
    ensures CallStep(entries, argClasses, now, seconds, outcome).called
    ensures CallStep(entries, argClasses, now, seconds, outcome).result == outcome
  {
  }

  /** A result just stored is served, without running the function, to every call with a
      first argument of the same class made less than `seconds` later, whatever the other
      arguments are. */
  lemma StoredThenServed<T>(entries: Entries<T>, first: seq<string>, second: seq<string>, t0: real, t1: real,
                            seconds: real, outcome: Result<T>, later: Result<T>)
    requires |first| > 0 && |second| > 0 && first[0] == second[0]
    requires CacheKey(first).Ok? && Fresh(entries, first[0], t0, seconds).None?
    requires outcome.Ok? && t0 <= t1 && t1 - t0 < seconds
    ensures var s := CallStep(entries, first, t0, seconds, outcome);
      CallStep(s.entries, second, t1, seconds, later) == Step(outcome, s.entries, false)
  {
  }

  /** A raising call leaves the dictionary as it was. */
  lemma RaisingLeavesCache<T>(entries: Entries<T>, argClasses: seq<string>, now: real, seconds: real, e: PyError)
    ensures CallStep(entries, argClasses, now, seconds, Raised(e)).entries == entries
  {
  }

  /** The decorated function with its own cache, as `timed_cache(seconds)(func)` builds it. */
  class TimedCache<T> {
    const seconds: real
    var entries: Entries<T>
    /** How many times the decorated function has run. */
    var calls: nat

    constructor(seconds: real)
      ensures this.seconds == seconds && entries == map[] && calls == 0
    {
      this.seconds := seconds;
      entries := map[];
      calls := 0;
    }

    /** `wrapped(*args)` (decorators.py:8-22), at time `now`; `outcome` is what the decorated
        function gives if it runs. Only this instance's dictionary changes. */
    method Call(argClasses: seq<string>, now: real, outcome: Result<T>) returns (r: Result<T>)
      modifies this
      ensures var s := CallStep(old(entries), argClasses, now, seconds, outcome);
        r == s.result && entries == s.entries && calls == old(calls) + (if s.called then 1 else 0)
    {
      if |argClasses| == 0 {
        return Raised(IndexError);
      }
      var key := argClasses[0];
      var currentTime := now;
      if key in entries {
        var (value, timestamp) := entries[key];
        if currentTime - timestamp < seconds {
          return Ok(value);
        }
      }
      calls := calls + 1;
      match outcome {
        case Raised(e) =>
          return Raised(e);
        case Ok(result) =>
          entries := entries[key := (result, currentTime)];
          return Ok(result);
      }
    }
  }
}
