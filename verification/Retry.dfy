/** utils/retry.go: call again until success, or until both the count and the time are used up. */
module Retry {
  import opened GoRuntime

  datatype RetryOption = RetryOption(minRetryCount: int, maximumRetryDuration: Duration)

  const DEFAULT_RETRY_OPTION := RetryOption(3, 5 * SECOND)
  const PAUSE: Duration := 100 * MILLISECOND

  /** What one call gave. Go returns a value even beside an error. */
  datatype Outcome<T, E> = Outcome(res: T, err: Option<E>, endedAt: Time)

  /** The retried function: each call takes some time and gives whatever it gives. */
  class Callee<T(0), E(0)> {
    var log: seq<Outcome<T, E>>

    constructor ()
      ensures log == []
    {
      log := [];
    }

    method Call(clock: Clock) returns (res: T, err: Option<E>)
      modifies this, clock
      ensures old(clock.now) <= clock.now
      ensures log == old(log) + [Outcome(res, err, clock.now)]
    {
      res, err := *, *;
      var t := clock.Now();
      log := log + [Outcome(res, err, t)];
    }
  }

  /** Without options, what bounds the calls of `Retry` is 51: three retries are too few to fill
      five seconds. */
  lemma DefaultCalls(n: int)
    ensures n <= 1 || n - 1 <= DEFAULT_RETRY_OPTION.minRetryCount || (n - 2) * 100_000_000 < DEFAULT_RETRY_OPTION.maximumRetryDuration
       <==> n <= 51
  {
  }

  /** Each of the calls failed, and then there was reason to go on: too few retries yet, or time left. */
  ghost predicate GoesOn<T, E>(calls: seq<Outcome<T, E>>, option: RetryOption, startTime: Time) {
    forall k :: 0 <= k < |calls| ==>
      && calls[k].err.Some?
      && (k < option.minRetryCount || calls[k].endedAt - startTime < option.maximumRetryDuration)
  }

  /** Between the ends of two calls there are at least 100 ms. */
  ghost predicate Spaced<T, E>(calls: seq<Outcome<T, E>>) {
    forall k :: 0 < k < |calls| ==> calls[k].endedAt - calls[k - 1].endedAt >= 100_000_000
  }

  lemma SpacedOneMore<T, E>(calls: seq<Outcome<T, E>>, call: Outcome<T, E>)
    requires Spaced(calls) && (calls != [] ==> call.endedAt - calls[|calls| - 1].endedAt >= 100_000_000)
    ensures Spaced(calls + [call])
  {
  }

  lemma GoesOnOneMore<T, E>(calls: seq<Outcome<T, E>>, call: Outcome<T, E>, option: RetryOption, startTime: Time)
    requires GoesOn(calls, option, startTime) && call.err.Some?
    requires |calls| < option.minRetryCount || call.endedAt - startTime < option.maximumRetryDuration
    ensures GoesOn(calls + [call], option, startTime)
  {
  }

  lemma SplitLog<T>(before: seq<T>, earlier: seq<T>, last: T)
    ensures (before + earlier) + [last] == before + (earlier + [last])
    ensures (before + (earlier + [last]))[|before|..] == earlier + [last]
    ensures (earlier + [last])[..|earlier + [last]| - 1] == earlier
  {
  }

  /** One turn of the loop, up to the answer of the call. */
  method PauseAndCall<T(0), E(0)>(f: Callee<T, E>, clock: Clock, pause: bool) returns (res: T, err: Option<E>)
    modifies f, clock
    ensures f.log == old(f.log) + [Outcome(res, err, clock.now)]
    ensures clock.now >= old(clock.now) + if pause then PAUSE else 0
  {
    if pause {
      clock.Sleep(PAUSE);
    }
    res, err := f.Call(clock);
  }

  /** MAIN. However long calls and pauses take, the number of calls is bounded; the first
      success is returned; and a failure is the first error, after the promised number of
      calls and the promised time since `startTime`; and no call is repeated once both are over. */
  method Retry<T(0), E(0)>(f: Callee<T, E>, clock: Clock, option: RetryOption := DEFAULT_RETRY_OPTION)
    returns (res: T, err: Option<E>, ghost startTime: Time)
    modifies f, clock
    ensures old(f.log) <= f.log
    ensures old(clock.now) <= startTime <= clock.now
    ensures var calls := f.log[|old(f.log)|..];
            && calls != []
            && (|calls| <= 1 || |calls| - 1 <= option.minRetryCount || (|calls| - 2) * 100_000_000 < option.maximumRetryDuration)
            && res == calls[|calls| - 1].res
            && (err.None? <==> calls[|calls| - 1].err.None?)
            && (err.Some? ==> err == calls[0].err)
            && (err.Some? ==> |calls| > option.minRetryCount)
            && (err.Some? ==> clock.now - startTime >= option.maximumRetryDuration)
            && GoesOn(calls[..|calls| - 1], option, startTime)
            && Spaced(calls)
  {
    var start := clock.Now();
    startTime := start;
    var tryCount := -1;
    var firstErr: Option<E> := None;
    ghost var calls: seq<Outcome<T, E>> := [];
    while true
      invariant -1 <= tryCount
      invariant tryCount < 0 || tryCount < option.minRetryCount || tryCount * 100_000_000 < option.maximumRetryDuration
      invariant f.log == old(f.log) + calls && |calls| == tryCount + 1
      invariant firstErr == if calls == [] then None else calls[0].err
      invariant old(clock.now) <= startTime == start <= clock.now
      invariant GoesOn(calls, option, startTime)
      invariant tryCount >= 0 ==> clock.now - startTime >= tryCount * 100_000_000
      invariant Spaced(calls) && (calls != [] ==> calls[|calls| - 1].endedAt <= clock.now)
      decreases if tryCount < option.minRetryCount then option.minRetryCount - tryCount else 0,
                option.maximumRetryDuration - tryCount * 100_000_000
    {
      tryCount := tryCount + 1;
      res, err := PauseAndCall(f, clock, tryCount > 0);
      ghost var call := Outcome(res, err, clock.now);
      SpacedOneMore(calls, call);
      ghost var earlier := calls;
      calls := calls + [call];
      SplitLog(old(f.log), earlier, call);
      if err.None? {
        return;
      }
      if firstErr.None? {
        firstErr := err;
      }
      if tryCount < option.minRetryCount {
        GoesOnOneMore(earlier, call, option, startTime);
        continue;
      }
      var t := clock.Now();
      if t - start < option.maximumRetryDuration {
        GoesOnOneMore(earlier, call, option, startTime);
        continue;
      }
      break;
    }
    err := firstErr;
  }
}
