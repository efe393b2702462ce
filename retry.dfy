/**
 * `fetchWithRetry` of frontend/voice-interviewer/app/page.tsx: up to
 * `maxRetries` fetches, no retry on a 4xx status, a 1.5x growing pause
 * between failed attempts. The fetch outcomes are given in order as a
 * parameter; the pauses are recorded instead of awaited.
 */
module Retry {
  import opened Wrappers
  import opened Text

  /** What one `fetch(url, options)` produced: an exception or a response with its status. */
  datatype Attempt = Threw(message: string) | Responded(status: nat)

  /** `response.ok`. */
  predicate Ok(status: nat)
  {
    200 <= status < 300
  }

  predicate ClientError(status: nat)
  {
    400 <= status < 500
  }

  /**
   * One run of the loop: the response status returned or the error thrown,
   * how many fetches were made, and the pauses (ms) taken in order.
   */
  datatype Run = Run(outcome: Result<nat, string>, fetches: nat, delays: seq<real>)

  function Pow(b: real, n: nat): real
  {
    if n == 0 then 1.0 else b * Pow(b, n - 1)
  }

  /** The pause after failed attempt `attempt` (counted from 1): 1000 * 1.5^(attempt - 1). */
  function BackoffDelay(attempt: nat): real
    requires attempt >= 1
  {
    1000.0 * Pow(1.5, attempt - 1)
  }

  /** The first pause is one second and each further pause is 1.5 times the one before. */
  lemma BackoffGrows(attempt: nat)
    requires attempt >= 1
    ensures BackoffDelay(1) == 1000.0
    ensures BackoffDelay(attempt + 1) == 1.5 * BackoffDelay(attempt)
  {
  }

  /** The message of the error thrown for a retried non-ok status. */
  function HttpError(status: nat): string
  {
    "HTTP " + NatToDecimal(status)
  }

  /**
   * The error the `catch` block receives for an attempt, if any: the
   * exception thrown by the fetch, or the one thrown for a non-ok, non-4xx
   * status while attempts remain (`more`).
   */
  function Caught(a: Attempt, more: bool): (e: Option<string>)
    ensures a.Threw? ==> e == Some(a.message)
    ensures a.Responded? ==> (e.Some? <==> !ClientError(a.status) && !Ok(a.status) && more)
  {
    match a
    case Threw(m) => Some(m)
    case Responded(status) =>
      if !ClientError(status) && !Ok(status) && more then Some(HttpError(status)) else None
  }

  /** `run` with `fetches` more fetches and the pauses `delays` in front of it. */
  function After(fetches: nat, delays: seq<real>, run: Run): Run
  {
    Run(run.outcome, fetches + run.fetches, delays + run.delays)
  }

  /**
   * The loop from attempt number `attempt` on, `lastError` being the error
   * caught so far.
   */
  function RetryFrom(outcomes: seq<Attempt>, maxRetries: int, attempt: nat, lastError: Option<string>): Run
    requires 1 <= attempt
    requires maxRetries <= |outcomes|
    decreases maxRetries - attempt + 1
  {
    if attempt > maxRetries then Run(Failure(lastError.GetOr("Max retries exceeded")), 0, [])
    else
      var caught := Caught(outcomes[attempt - 1], attempt < maxRetries);
      if caught.None? then Run(Success(outcomes[attempt - 1].status), 1, [])
      else
        After(1, if attempt < maxRetries then [BackoffDelay(attempt)] else [],
          RetryFrom(outcomes, maxRetries, attempt + 1, caught))
  }

  lemma AfterAfter(f: nat, d: seq<real>, g: nat, e: seq<real>, run: Run)
    ensures After(f, d, After(g, e, run)) == After(f + g, d + e, run)
  {
    assert d + (e + run.delays) == (d + e) + run.delays;
  }

  /** What `fetchWithRetry(url, options, maxRetries)` does when the fetches produce `outcomes`. */
  function FetchRun(outcomes: seq<Attempt>, maxRetries: int): Run
    requires maxRetries <= |outcomes|
  {
    RetryFrom(outcomes, maxRetries, 1, None)
  }

  /** The loop itself, with `lastError` and the attempt counter. */
  method FetchWithRetry(outcomes: seq<Attempt>, maxRetries: int) returns (run: Run)
    requires maxRetries <= |outcomes|
    ensures run == FetchRun(outcomes, maxRetries)
  {
    var lastError: Option<string> := None;
    var fetches: nat := 0;
    var delays: seq<real> := [];
    var attempt: nat := 1;
    while attempt <= maxRetries
      invariant 1 <= attempt
      invariant After(fetches, delays, RetryFrom(outcomes, maxRetries, attempt, lastError)) == FetchRun(outcomes, maxRetries)
      decreases maxRetries - attempt + 1
    {
      var outcome := outcomes[attempt - 1];
      ghost var caught := Caught(outcome, attempt < maxRetries);
      ghost var pause := if attempt < maxRetries then [BackoffDelay(attempt)] else [];
      ghost var rest := RetryFrom(outcomes, maxRetries, attempt + 1, caught);
      ghost var before := delays;
      fetches := fetches + 1;
      match outcome {
        case Responded(status) =>
          if ClientError(status) {
            return Run(Success(status), fetches, delays);
          }
          if !Ok(status) && attempt < maxRetries {
            lastError := Some(HttpError(status));
          } else {
            return Run(Success(status), fetches, delays);
          }
        case Threw(m) =>
          lastError := Some(m);
      }
      if attempt < maxRetries {
        delays := delays + [BackoffDelay(attempt)];
      }
      assert delays == before + pause;
      AfterAfter(fetches - 1, before, 1, pause, rest);
      attempt := attempt + 1;
    }
    run := Run(Failure(lastError.GetOr("Max retries exceeded")), fetches, delays);
  }

  /** A 4xx response is returned at once, at whichever attempt it comes. */
  lemma ClientErrorNotRetried(outcomes: seq<Attempt>, maxRetries: int, attempt: nat, lastError: Option<string>, status: nat)
    requires 1 <= attempt <= maxRetries <= |outcomes|
    requires outcomes[attempt - 1] == Responded(status) && ClientError(status)
    ensures RetryFrom(outcomes, maxRetries, attempt, lastError) == Run(Success(status), 1, [])
  {
  }

  /** An attempt that is retried when attempts remain: a throw, or a status neither ok nor 4xx. */
  predicate Retried(a: Attempt)
  {
    a.Threw? || (!Ok(a.status) && !ClientError(a.status))
  }

  /** The pauses taken after attempts `first` up to `last - 1`. */
  function Backoffs(first: nat, last: nat): (d: seq<real>)
    requires 1 <= first
    ensures |d| == (if first < last then last - first else 0)
    decreases last - first
  {
    if first < last then [BackoffDelay(first)] + Backoffs(first + 1, last) else []
  }

  /**
   * Attempts `attempt` to `k - 1` are retried and attempt `k` is a 4xx:
   * that response is returned after `k - attempt + 1` fetches, with the
   * pause of every retried attempt in between.
   */
  lemma {:induction false} ClientErrorAfterRetries(outcomes: seq<Attempt>, maxRetries: int, attempt: nat, k: nat,
                                                   lastError: Option<string>, status: nat)
    requires 1 <= attempt <= k <= maxRetries <= |outcomes|
    requires outcomes[k - 1] == Responded(status) && ClientError(status)
    requires forall j :: attempt - 1 <= j < k - 1 ==> Retried(outcomes[j])
    ensures RetryFrom(outcomes, maxRetries, attempt, lastError) == Run(Success(status), k - attempt + 1, Backoffs(attempt, k))
    decreases k - attempt
  {
    if attempt < k {
      var caught := Caught(outcomes[attempt - 1], true);
      assert Retried(outcomes[attempt - 1]);
      assert caught.Some?;
      ClientErrorAfterRetries(outcomes, maxRetries, attempt + 1, k, caught, status);
      assert RetryFrom(outcomes, maxRetries, attempt, lastError)
        == After(1, [BackoffDelay(attempt)], RetryFrom(outcomes, maxRetries, attempt + 1, caught));
    }
  }

  /**
   * The whole call: when the first attempts throw or answer with a status
   * that is neither ok nor 4xx and attempt `k` answers with a 4xx, that
   * 4xx is returned after exactly `k` fetches and the pauses 1000 ms,
   * 1500 ms, ... of the `k - 1` attempts before it.
   */
  lemma FirstClientErrorReturned(outcomes: seq<Attempt>, maxRetries: int, k: nat, status: nat)
    requires 1 <= k <= maxRetries <= |outcomes|
    requires outcomes[k - 1] == Responded(status) && ClientError(status)
    requires forall j :: 0 <= j < k - 1 ==> Retried(outcomes[j])
    ensures FetchRun(outcomes, maxRetries) == Run(Success(status), k, Backoffs(1, k))
  {
    ClientErrorAfterRetries(outcomes, maxRetries, 1, k, None, status);
  }

  /** A response on the last attempt is returned as it is, whatever its status. */
  lemma LastResponseReturned(outcomes: seq<Attempt>, maxRetries: int, lastError: Option<string>, status: nat)
    requires 1 <= maxRetries <= |outcomes|
    requires outcomes[maxRetries - 1] == Responded(status)
    ensures RetryFrom(outcomes, maxRetries, maxRetries, lastError) == Run(Success(status), 1, [])
  {
  }

  /**
   * From attempt `attempt` on, at most `maxRetries - attempt + 1` fetches
   * are made, at least one when any attempt is left, and there is one pause
   * fewer than fetches. Pause j is the backoff of attempt `attempt + j`.
   */
  lemma {:induction false} RetryShape(outcomes: seq<Attempt>, maxRetries: int, attempt: nat, lastError: Option<string>)
    requires 1 <= attempt
    requires maxRetries <= |outcomes|
    ensures var r := RetryFrom(outcomes, maxRetries, attempt, lastError);
      (attempt > maxRetries ==> r.fetches == 0 && r.delays == [])
      && (attempt <= maxRetries ==> 1 <= r.fetches <= maxRetries - attempt + 1 && |r.delays| == r.fetches - 1)
      && forall j :: 0 <= j < |r.delays| ==> r.delays[j] == BackoffDelay(attempt + j)
    decreases maxRetries - attempt + 1
  {
    if attempt <= maxRetries {
      var r := RetryFrom(outcomes, maxRetries, attempt, lastError);
      if r.fetches != 1 || r.delays != [] {
        var caught := Caught(outcomes[attempt - 1], attempt < maxRetries);
        assert caught.Some?;
        RetryShape(outcomes, maxRetries, attempt + 1, caught);
        var rest := RetryFrom(outcomes, maxRetries, attempt + 1, caught);
        assert r == After(1, if attempt < maxRetries then [BackoffDelay(attempt)] else [], rest);
        forall j | 0 <= j < |r.delays|
          ensures r.delays[j] == BackoffDelay(attempt + j)
        {
          if j > 0 {
            assert r.delays[j] == rest.delays[j - 1];
          }
        }
      }
    }
  }

  /** The whole call makes at most `maxRetries` fetches, and none when `maxRetries < 1`. */
  lemma FetchesBounded(outcomes: seq<Attempt>, maxRetries: int)
    requires maxRetries <= |outcomes|
    ensures var r := FetchRun(outcomes, maxRetries);
      r.fetches <= (if maxRetries < 0 then 0 else maxRetries)
      && (maxRetries >= 1 ==> r.fetches >= 1 && |r.delays| == r.fetches - 1)
      && forall j :: 0 <= j < |r.delays| ==> r.delays[j] == BackoffDelay(j + 1)
  {
    RetryShape(outcomes, maxRetries, 1, None);
  }

  /** With no attempt allowed the call throws 'Max retries exceeded' without fetching. */
  lemma NoAttempts(outcomes: seq<Attempt>, maxRetries: int)
    requires maxRetries < 1 && maxRetries <= |outcomes|
    ensures FetchRun(outcomes, maxRetries) == Run(Failure("Max retries exceeded"), 0, [])
  {
  }

  /** When every attempt from `attempt` on throws, the error of the last one is rethrown. */
  lemma {:induction false} AllThrownFrom(outcomes: seq<Attempt>, maxRetries: int, attempt: nat, lastError: Option<string>)
    requires 1 <= attempt <= maxRetries <= |outcomes|
    requires forall k :: attempt - 1 <= k < maxRetries ==> outcomes[k].Threw?
    ensures RetryFrom(outcomes, maxRetries, attempt, lastError).outcome == Failure(outcomes[maxRetries - 1].message)
    decreases maxRetries - attempt
  {
    if attempt < maxRetries {
      AllThrownFrom(outcomes, maxRetries, attempt + 1, Some(outcomes[attempt - 1].message));
    }
  }

  lemma AllThrownRethrowsLast(outcomes: seq<Attempt>, maxRetries: int)
    requires 1 <= maxRetries <= |outcomes|
    requires forall k :: 0 <= k < maxRetries ==> outcomes[k].Threw?
    ensures FetchRun(outcomes, maxRetries).outcome == Failure(outcomes[maxRetries - 1].message)
  {
    AllThrownFrom(outcomes, maxRetries, 1, None);
  }

  /** With the default of three attempts, two server errors and then a success pause 1000 and 1500 ms. */
  lemma DefaultBackoff(outcomes: seq<Attempt>)
    requires outcomes == [Responded(500), Responded(500), Responded(200)]
    ensures FetchRun(outcomes, 3) == Run(Success(200), 3, [1000.0, 1500.0])
  {
    assert RetryFrom(outcomes, 3, 3, Some(HttpError(500))) == Run(Success(200), 1, []);
    assert BackoffDelay(2) == 1500.0;
  }

  /** A returned response is a 4xx, an ok one, or the response of the last attempt. */
  lemma {:induction false} ReturnedStatus(outcomes: seq<Attempt>, maxRetries: int, attempt: nat, lastError: Option<string>)
    requires 1 <= attempt
    requires maxRetries <= |outcomes|
    ensures var r := RetryFrom(outcomes, maxRetries, attempt, lastError);
      r.outcome.Success? ==>
        ClientError(r.outcome.value) || Ok(r.outcome.value)
        || (r.fetches == maxRetries - attempt + 1 && outcomes[maxRetries - 1] == Responded(r.outcome.value))
    decreases maxRetries - attempt + 1
  {
    if attempt <= maxRetries {
      var caught := Caught(outcomes[attempt - 1], attempt < maxRetries);
      if caught.Some? {
        ReturnedStatus(outcomes, maxRetries, attempt + 1, caught);
      }
    }
  }
}
