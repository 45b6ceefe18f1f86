/**
 * The retry policy of `ConfigurationApi.retry_on_connection_error`: each
 * remote call of the local-point manager is meant to go through a bounded
 * loop of at most 5 attempts that backs off exponentially while the gRPC
 * channel reports UNAVAILABLE.  `Retry` is that intended policy;
 * `RetryFromAsWritten` and `DirectCall` are what the code as written does
 * instead (its status test never holds, and the generated stub's own
 * methods may bypass the wrapper).
 *
 * The wrapped call is abstracted to a script: one outcome per attempt, in
 * the order the attempts would be made.  Real sleeps become a trace of the
 * delays slept, and the console lines printed per attempt are left out.
 */
module ConfigurationApi {
  import opened Wrappers

  const RetryLimit: nat := 5
  const InitialDelay: nat := 1
  const BackoffFactor: nat := 2

  /** How one invocation of the wrapped stub method ended. */
  datatype Attempt<T> =
    | Returned(value: T)          // the call returned normally
    | Unavailable                 // a gRPC error whose code is UNAVAILABLE
    | OtherGrpcError(code: nat)   // a gRPC error with any other status code
    | Unexpected                  // any other exception

  /** The gRPC error the wrapper re-raises. */
  datatype GrpcError = UnavailableError | StatusError(code: nat)

  /** What the wrapper hands back: the call's value, `None`, or a raise. */
  datatype CallResult<T> = Value(value: T) | NoValue | Raised(error: GrpcError)

  /** The attempts made, the delays slept, and the final result. */
  datatype Trace<T> = Trace(attempts: nat, sleeps: seq<nat>, result: CallResult<T>)

  /** An attempt after which the wrapper stops whatever the attempt count. */
  predicate Final<T>(a: Attempt<T>) {
    a.Returned? || a.OtherGrpcError?
  }

  function Pow2(n: nat): (r: nat)
    ensures r >= 1
  {
    if n == 0 then 1 else 2 * Pow2(n - 1)
  }

  /** The number of UNAVAILABLE outcomes in a stretch of attempts. */
  function CountUnavailable<T>(s: seq<Attempt<T>>): (r: nat)
    ensures r <= |s|
  {
    if s == [] then 0 else (if s[0].Unavailable? then 1 else 0) + CountUnavailable(s[1..])
  }

  function Prepend<T>(sleeps: seq<nat>, t: Trace<T>): Trace<T> {
    Trace(t.attempts, sleeps + t.sleeps, t.result)
  }

  /**
   * The policy from attempt index `n` on, with `delay` the current backoff:
   * the specification the loop of `RetryOnConnectionError` is proved against.
   */
  function RetryFrom<T>(script: seq<Attempt<T>>, n: nat, delay: nat): Trace<T>
    requires RetryLimit <= |script| && n <= RetryLimit
    decreases RetryLimit - n
  {
    if n == RetryLimit then Trace(n, [], NoValue)
    else match script[n]
      case Returned(v) => Trace(n + 1, [], Value(v))
      case Unavailable =>
        if n >= RetryLimit - 1 then Trace(n + 1, [delay], Raised(UnavailableError))
        else Prepend([delay], RetryFrom(script, n + 1, delay * BackoffFactor))
      case OtherGrpcError(c) => Trace(n + 1, [], Raised(StatusError(c)))
      case Unexpected => RetryFrom(script, n + 1, delay)
  }

  function Retry<T>(script: seq<Attempt<T>>): Trace<T>
    requires RetryLimit <= |script|
  {
    RetryFrom(script, 0, InitialDelay)
  }

  /**
   * The wrapper itself: a `for` loop over at most RetryLimit attempts with a
   * mutable delay, returning as soon as one attempt returns or raises.
   */
  method RetryOnConnectionError<T>(script: seq<Attempt<T>>)
    returns (attempts: nat, sleeps: seq<nat>, result: CallResult<T>)
    requires RetryLimit <= |script|
    ensures Trace(attempts, sleeps, result) == Retry(script)
  {
    var delay := InitialDelay;
    sleeps := [];
    for n := 0 to RetryLimit
      invariant Retry(script) == Prepend(sleeps, RetryFrom(script, n, delay))
    {
      attempts := n + 1;
      match script[n]
      case Returned(v) =>
        result := Value(v);
        return;
      case Unavailable =>
        sleeps := sleeps + [delay];
        if n >= RetryLimit - 1 {
          result := Raised(UnavailableError);
          return;
        }
        delay := delay * BackoffFactor;
      case OtherGrpcError(c) =>
        result := Raised(StatusError(c));
        return;
      case Unexpected =>
    }
    attempts, result := RetryLimit, NoValue;
  }

  /**
   * Where every run from attempt `n` on stops: attempts are bounded by the
   * limit, no attempt before the last one was final, and the result is the
   * one the last attempt dictates.
   */
  lemma {:induction false} RetryFromStops<T>(script: seq<Attempt<T>>, n: nat, delay: nat)
    requires RetryLimit <= |script| && n <= RetryLimit
    ensures var t := RetryFrom(script, n, delay);
      && (if n == RetryLimit then t.attempts == n else n < t.attempts <= RetryLimit)
      && (forall i :: n <= i < t.attempts - 1 ==> !Final(script[i]))
      && (t.result.Value? ==> script[t.attempts - 1] == Returned(t.result.value))
      && (t.result == Raised(UnavailableError) ==> t.attempts == RetryLimit && script[t.attempts - 1].Unavailable?)
      && (t.result.Raised? && t.result.error.StatusError? ==> script[t.attempts - 1] == OtherGrpcError(t.result.error.code))
      && (t.result == NoValue ==> t.attempts == RetryLimit && (n < RetryLimit ==> script[RetryLimit - 1].Unexpected?))
    decreases RetryLimit - n
  {
    if n < RetryLimit {
      match script[n]
      case Returned(v) =>
      case OtherGrpcError(c) =>
      case Unavailable =>
        if n < RetryLimit - 1 {
          RetryFromStops(script, n + 1, delay * BackoffFactor);
        }
      case Unexpected =>
        RetryFromStops(script, n + 1, delay);
    }
  }

  /** One sleep per UNAVAILABLE attempt made from attempt `n` on, and none for any other outcome. */
  lemma {:induction false} RetryFromSleepCount<T>(script: seq<Attempt<T>>, n: nat, delay: nat)
    requires RetryLimit <= |script| && n <= RetryLimit
    ensures var t := RetryFrom(script, n, delay);
      n <= t.attempts <= |script| && |t.sleeps| == CountUnavailable(script[n..t.attempts])
    decreases RetryLimit - n
  {
    RetryFromStops(script, n, delay);
    if n < RetryLimit {
      var t := RetryFrom(script, n, delay);
      var s := script[n..t.attempts];
      assert s[0] == script[n];
      match script[n]
      case Returned(v) =>
        assert s == [script[n]];
      case OtherGrpcError(c) =>
        assert s == [script[n]];
      case Unavailable =>
        if n < RetryLimit - 1 {
          RetryFromSleepCount(script, n + 1, delay * BackoffFactor);
          assert s[1..] == script[n + 1..t.attempts];
        } else {
          assert s == [script[n]];
        }
      case Unexpected =>
        RetryFromSleepCount(script, n + 1, delay);
        assert s[1..] == script[n + 1..t.attempts];
    }
  }

  /** Delays 2^(e+1), 2^(e+2), ... with 2^e slept before them are 2^e, 2^(e+1), ... */
  lemma PrependPowers<T>(e: nat, rest: Trace<T>)
    requires forall i :: 0 <= i < |rest.sleeps| ==> rest.sleeps[i] == Pow2(e + 1 + i)
    ensures forall i :: 0 <= i < |Prepend([Pow2(e)], rest).sleeps| ==> Prepend([Pow2(e)], rest).sleeps[i] == Pow2(e + i)
  {
    var sleeps := Prepend([Pow2(e)], rest).sleeps;
    forall i | 0 < i < |sleeps| ensures sleeps[i] == Pow2(e + i) {
      assert sleeps[i] == rest.sleeps[i - 1];
    }
  }

  /** Starting from delay 2^e, the i-th sleep from attempt `n` on is 2^(e+i). */
  lemma {:induction false} RetryFromDelays<T>(script: seq<Attempt<T>>, n: nat, e: nat)
    requires RetryLimit <= |script| && n <= RetryLimit
    ensures forall i :: 0 <= i < |RetryFrom(script, n, Pow2(e)).sleeps| ==>
      RetryFrom(script, n, Pow2(e)).sleeps[i] == Pow2(e + i)
    decreases RetryLimit - n
  {
    if n < RetryLimit {
      if script[n].Unavailable? && n < RetryLimit - 1 {
        RetryFromDelays(script, n + 1, e + 1);
        assert Pow2(e) * BackoffFactor == Pow2(e + 1);
        PrependPowers(e, RetryFrom(script, n + 1, Pow2(e + 1)));
      } else if script[n].Unexpected? {
        RetryFromDelays(script, n + 1, e);
      }
    }
  }

  /**
   * At most RetryLimit attempts; one sleep per UNAVAILABLE attempt and none
   * for any other outcome; the delays slept are 1, 2, 4, ... in order, since
   * an unexpected exception leaves the delay unchanged.
   */
  lemma RetryBounds<T>(script: seq<Attempt<T>>)
    requires RetryLimit <= |script|
    ensures var t := Retry(script);
      && 1 <= t.attempts <= RetryLimit
      && |t.sleeps| == CountUnavailable(script[..t.attempts])
      && forall i :: 0 <= i < |t.sleeps| ==> t.sleeps[i] == Pow2(i)
  {
    RetryFromStops(script, 0, InitialDelay);
    RetryFromSleepCount(script, 0, InitialDelay);
    RetryFromDelays(script, 0, 0);
    assert script[0..Retry(script).attempts] == script[..Retry(script).attempts];
  }

  /**
   * The first attempt that returns ends the loop with that value, provided
   * every earlier attempt was UNAVAILABLE or an unexpected exception; and
   * conversely a returned value always comes from the last attempt made,
   * all earlier ones having been non-final.
   */
  lemma FirstSuccessReturned<T>(script: seq<Attempt<T>>, k: nat)
    requires RetryLimit <= |script| && k < RetryLimit
    requires forall i :: 0 <= i < k ==> !Final(script[i])
    requires script[k].Returned?
    ensures Retry(script).attempts == k + 1
    ensures Retry(script).result == Value(script[k].value)
  {
    RetryFromStops(script, 0, InitialDelay);
  }

  lemma ValueComesFromLastAttempt<T>(script: seq<Attempt<T>>)
    requires RetryLimit <= |script|
    requires Retry(script).result.Value?
    ensures var t := Retry(script);
      && script[t.attempts - 1] == Returned(t.result.value)
      && forall i :: 0 <= i < t.attempts - 1 ==> !Final(script[i])
  {
    RetryFromStops(script, 0, InitialDelay);
  }

  /**
   * A gRPC error with a code other than UNAVAILABLE is re-raised on the
   * attempt that produced it, with no sleep for that attempt.
   */
  lemma OtherErrorRaisedAtOnce<T>(script: seq<Attempt<T>>, k: nat)
    requires RetryLimit <= |script| && k < RetryLimit
    requires forall i :: 0 <= i < k ==> !Final(script[i])
    requires script[k].OtherGrpcError?
    ensures Retry(script).attempts == k + 1
    ensures Retry(script).result == Raised(StatusError(script[k].code))
    ensures |Retry(script).sleeps| == CountUnavailable(script[..k])
  {
    RetryFromStops(script, 0, InitialDelay);
    RetryFromSleepCount(script, 0, InitialDelay);
    assert script[0..k + 1] == script[..k + 1];
    CountUnavailableSnoc(script[..k + 1]);
    assert script[..k + 1][..k] == script[..k];
  }

  lemma {:induction false} CountUnavailableSnoc<T>(s: seq<Attempt<T>>)
    requires s != []
    ensures CountUnavailable(s) == CountUnavailable(s[..|s| - 1]) + (if s[|s| - 1].Unavailable? then 1 else 0)
  {
    if |s| > 1 {
      CountUnavailableSnoc(s[1..]);
      assert s[1..][..|s[1..]| - 1] == s[..|s| - 1][1..];
    }
  }

  /**
   * The wrapper returns `None` exactly when no attempt returned or raised a
   * final error and the fifth attempt ended in an unexpected exception.
   */
  lemma NoValueExactly<T>(script: seq<Attempt<T>>)
    requires RetryLimit <= |script|
    ensures Retry(script).result == NoValue <==>
      (forall i :: 0 <= i < RetryLimit ==> !Final(script[i])) && script[RetryLimit - 1].Unexpected?
  {
    RetryFromStops(script, 0, InitialDelay);
  }

  /** Four UNAVAILABLEs and then success: five attempts, sleeps 1, 2, 4, 8. */
  lemma SuccessOnFifthAttempt<T>(v: T)
    ensures Retry([Unavailable, Unavailable, Unavailable, Unavailable, Returned(v)])
         == Trace(5, [1, 2, 4, 8], Value(v))
  {
    var s: seq<Attempt<T>> := [Unavailable, Unavailable, Unavailable, Unavailable, Returned(v)];
    assert RetryFrom(s, 3, 8) == Trace(5, [8], Value(v));
  }

  /** Five UNAVAILABLEs: sleeps 1, 2, 4, 8, 16 and then the error is raised. */
  lemma FiveUnavailableRaise<T>()
    ensures Retry<T>([Unavailable, Unavailable, Unavailable, Unavailable, Unavailable])
         == Trace(5, [1, 2, 4, 8, 16], Raised(UnavailableError))
  {
    var s: seq<Attempt<T>> := [Unavailable, Unavailable, Unavailable, Unavailable, Unavailable];
    assert RetryFrom(s, 3, 8) == Trace(5, [8, 16], Raised(UnavailableError));
  }

  // ---------------------------------------------------------------------
  // The status test as written
  // ---------------------------------------------------------------------

  /**
   * The wrapper as written.  Its test `e.code == grpc.StatusCode.UNAVAILABLE`
   * compares the bound method `code` of gRPC's error object, not the status
   * `e.code()`, with a status code; the two are never equal, so every gRPC
   * error takes the `else` branch and is re-raised on the attempt that
   * produced it, with no sleep.
   */
  function RetryFromAsWritten<T>(script: seq<Attempt<T>>, n: nat): Trace<T>
    requires RetryLimit <= |script| && n <= RetryLimit
    decreases RetryLimit - n
  {
    if n == RetryLimit then Trace(n, [], NoValue)
    else match script[n]
      case Returned(v) => Trace(n + 1, [], Value(v))
      case Unavailable => Trace(n + 1, [], Raised(UnavailableError))
      case OtherGrpcError(c) => Trace(n + 1, [], Raised(StatusError(c)))
      case Unexpected => RetryFromAsWritten(script, n + 1)
  }

  /**
   * As written, the wrapper never sleeps and never retries a gRPC error: it
   * stops at the first attempt that did not end in an unexpected exception,
   * and an UNAVAILABLE error is raised from that attempt.
   */
  lemma {:induction false} AsWrittenNeverRetries<T>(script: seq<Attempt<T>>, n: nat)
    requires RetryLimit <= |script| && n <= RetryLimit
    ensures var t := RetryFromAsWritten(script, n);
      && t.sleeps == []
      && (if n == RetryLimit then t.attempts == n else n < t.attempts <= RetryLimit)
      && (forall i :: n <= i < t.attempts - 1 ==> script[i].Unexpected?)
      && (t.result == Raised(UnavailableError) ==> script[t.attempts - 1].Unavailable?)
    decreases RetryLimit - n
  {
    if n < RetryLimit && script[n].Unexpected? {
      AsWrittenNeverRetries(script, n + 1);
    }
  }

  /**
   * The input that shows it: UNAVAILABLE once and then success.  As written
   * the first error is raised after one attempt; as intended the wrapper
   * sleeps 1 and returns the second attempt's value.
   */
  lemma UnavailableNotRetriedAsWritten<T>(v: T)
    ensures var script := [Unavailable, Returned(v), Returned(v), Returned(v), Returned(v)];
      && RetryFromAsWritten(script, 0) == Trace(1, [], Raised(UnavailableError))
      && Retry(script) == Trace(2, [1], Value(v))
  {
  }

  // ---------------------------------------------------------------------
  // Calls that bypass the wrapper
  // ---------------------------------------------------------------------

  /**
   * One call made straight to the generated gRPC stub, with no wrapper: a
   * single attempt and no sleep, whatever the outcome.  An exception that
   * is not a gRPC error propagates out of the call, which is `None` here.
   */
  function DirectCall<T>(script: seq<Attempt<T>>): Option<Trace<T>>
    requires 1 <= |script|
  {
    match script[0]
    case Returned(v) => Some(Trace(1, [], Value(v)))
    case Unavailable => Some(Trace(1, [], Raised(UnavailableError)))
    case OtherGrpcError(c) => Some(Trace(1, [], Raised(StatusError(c))))
    case Unexpected => None
  }

  /**
   * The input that shows it: UNAVAILABLE once and then success.  Straight to
   * the stub, the first error is raised after one attempt; through the
   * wrapper as intended, it sleeps 1 and returns the second attempt's value.
   */
  lemma StubCallNotRetried<T>(v: T)
    ensures var script := [Unavailable, Returned(v), Returned(v), Returned(v), Returned(v)];
      && DirectCall(script) == Some(Trace(1, [], Raised(UnavailableError)))
      && Retry(script) == Trace(2, [1], Value(v))
  {
  }
}
