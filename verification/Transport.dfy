/**
  The platform client: bounded retries with exponential backoff and jitter, and
  the health record every send call updates exactly once.

  Durations are in nanoseconds.  Jitter is computed over the reals; the rounding of
  binary floating point is not modelled.
 */
module Transport {
  import opened Resources

  const MAX_RETRIES: nat := 5
  const SECOND: nat := 1_000_000_000
  const INITIAL_BACKOFF: nat := SECOND
  const MAX_BACKOFF: nat := 60 * SECOND
  const JITTER_FACTOR: real := 0.1

  // How one request may end: no token, no response, or a status code.
  datatype Response = NoToken | NoResponse | Status(code: int)

  datatype SendError =
    | TokenUnavailable | RequestFailed
    | AuthError(code: int) | ServerError(code: int) | ClientError(code: int) | UnexpectedStatus(code: int)
    | ContextDone
    | MaxRetriesExceeded(last: SendError)

  function Classify(r: Response): Option<SendError> {
    match r
    case NoToken => Some(TokenUnavailable)
    case NoResponse => Some(RequestFailed)
    case Status(code) =>
      if 200 <= code < 300 then None
      else if code == 401 then Some(AuthError(code))
      else if code >= 500 then Some(ServerError(code))
      else if code >= 400 then Some(ClientError(code))
      else Some(UnexpectedStatus(code))
  }

  predicate IsRetryable(e: SendError) {
    e.ServerError?
  }

  // A response leads to another attempt exactly when it is a server error (section
  // 15.6 of RFC 9110); in particular an authentication error does not.  It succeeds
  // exactly when its status is 2xx.
  lemma RetriesOnlyServerErrors(r: Response)
    ensures (Classify(r).Some? && IsRetryable(Classify(r).value)) <==> (r.Status? && r.code >= 500)
    ensures Classify(r).None? <==> r.Status? && r.code / 100 == 2
    ensures Classify(r).Some? && Classify(r).value.AuthError? <==> r == Status(401)
    ensures Classify(r).Some? && Classify(r).value.ClientError? <==> r.Status? && r.code / 100 == 4 && r.code != 401
  {
  }

  /* ---- Backoff ---- */

  function Pow2(n: nat): nat {
    if n == 0 then 1 else 2 * Pow2(n - 1)
  }

  function Capped(attempt: nat): nat {
    if INITIAL_BACKOFF * Pow2(attempt) > MAX_BACKOFF then MAX_BACKOFF else INITIAL_BACKOFF * Pow2(attempt)
  }

  function Jittered(backoff: real, spread: real): real {
    backoff + backoff * JITTER_FACTOR * spread
  }

  // `r` is what the random source returned, between 0 and 1.
  function Backoff(attempt: nat, r: real): int {
    Jittered(Capped(attempt) as real, 2.0 * r - 1.0).Floor
  }

  lemma CappedIsWhole(attempt: nat)
    ensures Capped(attempt) % 10 == 0
  {
    assert INITIAL_BACKOFF * Pow2(attempt) == 10 * (100_000_000 * Pow2(attempt));
  }

  lemma ScaledBetween(b: real, x: real)
    requires b >= 0.0 && -1.0 <= x <= 1.0
    ensures -b <= b * x <= b
  {
    assert b * (1.0 - x) >= 0.0 && b * (1.0 + x) >= 0.0;
  }

  lemma JitterWithinTenth(b: real, x: real)
    requires b >= 0.0 && -1.0 <= x <= 1.0
    ensures 9.0 * b <= 10.0 * Jittered(b, x) <= 11.0 * b
  {
    ScaledBetween(b, x);
    assert 10.0 * (b * JITTER_FACTOR * x) == b * x;
  }

  lemma FloorWithinTenth(c: nat, y: real)
    requires c % 10 == 0 && 9.0 * c as real <= 10.0 * y <= 11.0 * c as real
    ensures 9 * c <= 10 * y.Floor <= 11 * c
  {
    var low := 9 * (c / 10);
    assert low as real <= y;
  }

  // min(2^attempt, 60): 2, 4, 8, 16, 32 seconds for the attempts 1 to 5, then sixty.
  function WholeSeconds(attempt: nat): nat {
    if attempt == 0 then 1 else if attempt == 1 then 2 else if attempt == 2 then 4 else if attempt == 3 then 8
    else if attempt == 4 then 16 else if attempt == 5 then 32 else 60
  }

  lemma {:induction false} PowersGrow(n: nat)
    ensures n >= 6 ==> Pow2(n) >= 64
  {
    if n <= 6 {
      SmallPowers();
      assert Pow2(6) == 2 * Pow2(5);
    } else {
      PowersGrow(n - 1);
    }
  }

  lemma CappedSeconds(attempt: nat)
    ensures Capped(attempt) == WholeSeconds(attempt) * 1_000_000_000
  {
    SmallPowers();
    PowersGrow(attempt);
  }

  // Every wait lies within a tenth of min(2^attempt, 60) seconds.
  lemma BackoffWithinTenth(attempt: nat, r: real)
    requires 0.0 <= r < 1.0
    ensures 900_000_000 * WholeSeconds(attempt) <= Backoff(attempt, r) <= 1_100_000_000 * WholeSeconds(attempt)
  {
    CappedSeconds(attempt);
    CappedIsWhole(attempt);
    JitterWithinTenth(Capped(attempt) as real, 2.0 * r - 1.0);
    FloorWithinTenth(Capped(attempt), Jittered(Capped(attempt) as real, 2.0 * r - 1.0));
  }

  // The jitter uses all of that range: it moves the wait by up to a tenth of a second for
  // each second, in proportion to the random number.
  lemma BackoffExactly(attempt: nat, r: real)
    ensures Backoff(attempt, r) ==
      1_000_000_000 * WholeSeconds(attempt)
      + (WholeSeconds(attempt) as real * 100_000_000.0 * (2.0 * r - 1.0)).Floor
  {
    var s := WholeSeconds(attempt);
    CappedSeconds(attempt);
    JitterSplits(s, 2.0 * r - 1.0);
    FloorShift(1_000_000_000 * s, s as real * 100_000_000.0 * (2.0 * r - 1.0));
  }

  lemma JitterSplits(s: nat, x: real)
    ensures Jittered((s * 1_000_000_000) as real, x) == (1_000_000_000 * s) as real + s as real * 100_000_000.0 * x
  {
    assert (s * 1_000_000_000) as real == s as real * 1_000_000_000.0;
  }

  datatype Attempt = Attempt(cancelled: bool, jitter: real, response: Response)

  // The environment of one send call: before attempt i > 0 the context may be found
  // cancelled; otherwise the wait passes and the request is made.
  type Environment = nat -> Attempt

  ghost predicate RandomInRange(env: Environment) {
    forall i :: 0.0 <= env(i).jitter < 1.0
  }

  function TotalWait(env: Environment, tries: nat): int {
    if tries <= 1 then 0 else TotalWait(env, tries - 1) + Backoff(tries - 1, env(tries - 1).jitter)
  }

  // The waits before `tries` attempts add up to within a tenth of 2^tries - 2 seconds.
  lemma {:induction false} TotalWaitBounds(env: Environment, tries: nat)
    requires 1 <= tries <= MAX_RETRIES && RandomInRange(env)
    ensures 9 * SECOND * (Pow2(tries) - 2) <= 10 * TotalWait(env, tries) <= 11 * SECOND * (Pow2(tries) - 2)
  {
    if tries == 1 {
    } else {
      TotalWaitBounds(env, tries - 1);
      BackoffWithinTenth(tries - 1, env(tries - 1).jitter);
      SmallPowers();
    }
  }

  lemma SmallPowers()
    ensures Pow2(1) == 2 && Pow2(2) == 4 && Pow2(3) == 8 && Pow2(4) == 16 && Pow2(5) == 32
  {
    assert Pow2(2) == 2 * Pow2(1) && Pow2(3) == 2 * Pow2(2) && Pow2(4) == 2 * Pow2(3) && Pow2(5) == 2 * Pow2(4);
  }

  // Under the event timeout the waits before four attempts always fit, those before
  // the fifth may or may not.
  lemma FifthAttemptMayNotFit()
    ensures forall env: Environment, tries: nat | RandomInRange(env) && 1 <= tries <= 4 ::
      TotalWait(env, tries) <= 15_400_000_000
    ensures forall env: Environment | RandomInRange(env) :: 27_000_000_000 <= TotalWait(env, 5) <= 33_000_000_000
    ensures exists env: Environment :: RandomInRange(env) && TotalWait(env, 5) < 30_000_000_000
    ensures exists env: Environment :: RandomInRange(env) && TotalWait(env, 5) > 30_000_000_000
  {
    SmallPowers();
    forall env: Environment, tries: nat | RandomInRange(env) && 1 <= tries <= 4
      ensures TotalWait(env, tries) <= 15_400_000_000
    {
      TotalWaitBounds(env, tries);
    }
    forall env: Environment | RandomInRange(env)
      ensures 27 * SECOND <= TotalWait(env, 5) <= 33 * SECOND
    {
      TotalWaitBounds(env, 5);
    }
    var short: Environment := i => Attempt(false, 0.25, NoToken);
    var long: Environment := i => Attempt(false, 0.75, NoToken);
    SteadyWait(short, 0.25);
    SteadyWait(long, 0.75);
    assert RandomInRange(short) && TotalWait(short, 5) == 28_500_000_000;
    assert RandomInRange(long) && TotalWait(long, 5) == 31_500_000_000;
  }

  // The part of a wait that the jitter adds or takes away, rounded down.
  function Extra(attempt: nat, r: real): int {
    (Pow2(attempt) as real * 100_000_000.0 * (2.0 * r - 1.0)).Floor
  }

  lemma FloorShift(n: int, x: real)
    ensures (n as real + x).Floor == n + x.Floor
  {
  }

  lemma BackoffIsPowerAndExtra(attempt: nat, r: real)
    requires 1 <= attempt <= 4
    ensures Backoff(attempt, r) == SECOND * Pow2(attempt) + Extra(attempt, r)
  {
    SmallPowers();
    assert Pow2(attempt) == WholeSeconds(attempt);
    BackoffExactly(attempt, r);
  }

  // How far the jitter takes the four waits before the fifth attempt.
  function Excess(env: Environment): int {
    Extra(1, env(1).jitter) + Extra(2, env(2).jitter) + Extra(3, env(3).jitter) + Extra(4, env(4).jitter)
  }

  // The waits before the fifth attempt fit the event timeout exactly when the jitters,
  // weighted 2, 4, 8 and 16 and rounded to nanoseconds, come out negative.
  lemma FifthAttemptFitsExactly(env: Environment)
    ensures TotalWait(env, 5) < 30_000_000_000 <==> Excess(env) < 0
  {
    SmallPowers();
    assert TotalWait(env, 1) == 0;
    BackoffIsPowerAndExtra(1, env(1).jitter);
    BackoffIsPowerAndExtra(2, env(2).jitter);
    assert TotalWait(env, 3) == 6 * SECOND + Extra(1, env(1).jitter) + Extra(2, env(2).jitter);
    BackoffIsPowerAndExtra(3, env(3).jitter);
    BackoffIsPowerAndExtra(4, env(4).jitter);
    assert TotalWait(env, 5) == TotalWait(env, 3) + 24 * SECOND + Extra(3, env(3).jitter) + Extra(4, env(4).jitter);
  }

  lemma SteadyWait(env: Environment, r: real)
    requires forall i :: env(i).jitter == r
    requires r == 0.25 || r == 0.75
    ensures TotalWait(env, 5) == if r == 0.25 then 28_500_000_000 else 31_500_000_000
  {
    SmallPowers();
    assert TotalWait(env, 1) == 0;
    assert TotalWait(env, 2) == Backoff(1, r);
    assert TotalWait(env, 3) == Backoff(1, r) + Backoff(2, r);
    assert TotalWait(env, 4) == Backoff(1, r) + Backoff(2, r) + Backoff(3, r);
  }

  /* ---- Health ---- */

  datatype Health = Health(healthy: bool, lastHealthyTime: int, consecutiveErrors: int, lastError: Option<SendError>)

  const UNKNOWN: Health := Health(false, 0, 0, None)

  // One send call and when it ended.
  datatype Call = Call(error: Option<SendError>, at: int)

  function Recorded(h: Health, c: Call): Health {
    match c.error
    case None => Health(true, c.at, 0, None)
    case Some(e) => Health(false, h.lastHealthyTime, h.consecutiveErrors + 1, Some(e))
  }

  function HealthAfter(calls: seq<Call>): Health {
    if calls == [] then UNKNOWN else Recorded(HealthAfter(calls[..|calls| - 1]), calls[|calls| - 1])
  }

  // Health equals history: the error count is the length of the trailing run of
  // failures, the client is healthy when its last call succeeded, and the last error
  // and last healthy time are those of the last failure since, and last success before.
  lemma {:induction false} HealthEqualsHistory(calls: seq<Call>)
    ensures var h, n := HealthAfter(calls), |calls|;
      && 0 <= h.consecutiveErrors <= n
      && (forall i | n - h.consecutiveErrors <= i < n :: calls[i].error.Some?)
      && (h.consecutiveErrors < n ==>
            calls[n - h.consecutiveErrors - 1].error.None?
            && h.lastHealthyTime == calls[n - h.consecutiveErrors - 1].at)
      && (h.consecutiveErrors == n ==> h.lastHealthyTime == 0)
      && (h.healthy <==> n > 0 && calls[n - 1].error.None?)
      && h.lastError == if n > 0 then calls[n - 1].error else None
  {
    if calls == [] {
    } else {
      HealthEqualsHistory(calls[..|calls| - 1]);
    }
  }

  class Client {
    var healthy: bool
    var lastHealthyTime: int
    var consecutiveErrors: int
    var lastError: Option<SendError>
    ghost var calls: seq<Call>

    ghost function View(): Health
      reads this
    {
      Health(healthy, lastHealthyTime, consecutiveErrors, lastError)
    }

    ghost predicate Valid()
      reads this
    {
      View() == HealthAfter(calls)
    }

    constructor ()
      ensures Valid() && calls == []
    {
      healthy, lastHealthyTime, consecutiveErrors, lastError, calls := false, 0, 0, None, [];
    }

    method RecordHealthy(now: int)
      requires Valid()
      modifies this
      ensures Valid() && calls == old(calls) + [Call(None, now)]
    {
      healthy := true;
      lastHealthyTime := now;
      consecutiveErrors := 0;
      lastError := None;
      calls := calls + [Call(None, now)];
    }

    method RecordUnhealthy(e: SendError, now: int)
      requires Valid()
      modifies this
      ensures Valid() && calls == old(calls) + [Call(Some(e), now)]
    {
      healthy := false;
      consecutiveErrors := consecutiveErrors + 1;
      lastError := Some(e);
      calls := calls + [Call(Some(e), now)];
    }

    // Attempts go on while each ends in a server error, up to five; each call leaves
    // exactly one record, of the error it returns.
    method SendWithRetry(env: Environment, now: int) returns (error: Option<SendError>, tries: nat, waited: int)
      requires Valid() && RandomInRange(env)
      modifies this
      ensures Valid() && calls == old(calls) + [Call(error, now)]
      ensures GivesUpAfterFive(env, tries, error)
      ensures error ==
        if !ServerFailure(env(tries - 1)) then Classify(env(tries - 1).response)
        else if tries == 5 then Some(MaxRetriesExceeded(Classify(env(tries - 1).response).value))
        else Some(ContextDone)
      ensures ServerFailure(env(tries - 1)) && tries < 5 ==> env(tries).cancelled
      ensures waited == TotalWait(env, tries)
    {
      var lastErr: Option<SendError> := None;
      tries, waited := 0, 0;
      while tries < MAX_RETRIES
        invariant tries <= MAX_RETRIES && Valid() && calls == old(calls)
        invariant tries > 0 ==> Reaches(env, tries - 1) && ServerFailure(env(tries - 1))
        invariant tries > 0 ==> lastErr == Classify(env(tries - 1).response)
        invariant waited == TotalWait(env, tries)
      {
        if tries > 0 {
          if env(tries).cancelled {
            LastAttemptDecides(env, tries, Some(ContextDone));
            RecordUnhealthy(ContextDone, now);
            return Some(ContextDone), tries, waited;
          }
          waited := waited + Backoff(tries, env(tries).jitter);
        }
        assert Reaches(env, tries);
        var err := Classify(env(tries).response);
        tries := tries + 1;
        if err.None? {
          LastAttemptDecides(env, tries, None);
          RecordHealthy(now);
          return None, tries, waited;
        }
        lastErr := err;
        if !IsRetryable(err.value) {
          LastAttemptDecides(env, tries, err);
          RecordUnhealthy(err.value, now);
          return err, tries, waited;
        }
      }
      error := Some(MaxRetriesExceeded(lastErr.value));
      LastAttemptDecides(env, tries, error);
      RecordUnhealthy(error.value, now);
    }
  }

  predicate ServerFailure(a: Attempt) {
    a.response.Status? && a.response.code >= 500
  }

  predicate Success(a: Attempt) {
    a.response.Status? && 200 <= a.response.code < 300
  }

  // Attempts 0 to i are all reached: those before i failed at the server, and no wait was
  // cancelled.
  ghost predicate Reaches(env: Environment, i: nat) {
    (forall j | 0 <= j < i :: ServerFailure(env(j))) && (forall j | 0 < j <= i :: !env(j).cancelled)
  }

  // What a call promises, by status codes and numbers: it makes at most five attempts, all
  // of which are reached; it gives up after five server errors; and it succeeds exactly if
  // one of the first five attempts is reached and answered with 2xx.
  ghost predicate GivesUpAfterFive(env: Environment, tries: nat, error: Option<SendError>) {
    && 1 <= tries <= 5 && Reaches(env, tries - 1)
    && (Reaches(env, 4) && ServerFailure(env(4)) ==> tries == 5 && error.Some? && error.value.MaxRetriesExceeded?)
    && (error.None? <==> exists i: nat :: i < 5 && Reaches(env, i) && Success(env(i)))
  }

  // An attempt that is reached is made, unless an earlier one ended the call.
  lemma LastAttemptDecides(env: Environment, tries: nat, error: Option<SendError>)
    requires 1 <= tries <= 5 && Reaches(env, tries - 1)
    requires error.None? <==> Success(env(tries - 1))
    requires !ServerFailure(env(tries - 1)) || (tries == 5 && error.Some? && error.value.MaxRetriesExceeded?)
             || (tries < 5 && env(tries).cancelled)
    ensures GivesUpAfterFive(env, tries, error)
  {
    forall i: nat | tries <= i < 5 ensures !Reaches(env, i) {
      assert !ServerFailure(env(tries - 1)) || env(tries).cancelled;
    }
    forall i: nat | i < tries - 1 ensures !Success(env(i)) {
      assert ServerFailure(env(i));
    }
  }
}
