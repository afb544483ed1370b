/** The Gemini call wrapper `_generate_with_log`: up to `MaxRetries + 1`
    attempts, where only rate-limit errors are retried, after an exponential
    backoff plus a random jitter; any other error, or a rate-limit error on the
    last attempt, is re-raised.

    The service is an oracle: `outcomes[k]` is what attempt `k` would do and
    `jitters[k]` is the value `random.uniform(0, 1)` draws after attempt `k`. */
module GeminiRetry {
  import opened Common

  const MaxRetries: nat := 3
  const BaseDelay: nat := 2

  /** One `generate_content` call: a response with its text ("" when the
      response carries none), or an exception whose `str()` is `error`. */
  datatype Outcome = Ok(text: string) | Failure(error: string)

  /** How the wrapper ends: it returns the response text or re-raises. */
  datatype Result = Returned(text: string) | Raised(error: string)

  /** The error classification of the `except` branch. */
  predicate IsRateLimit(error: string) {
    Contains(error, "429") || Contains(error, "RESOURCE_EXHAUSTED")
  }

  /** An attempt whose outcome the wrapper would retry, given attempts remain. */
  predicate Retryable(o: Outcome) {
    o.Failure? && IsRateLimit(o.error)
  }

  function Pow2(k: nat): nat {
    if k == 0 then 1 else 2 * Pow2(k - 1)
  }

  /** `base_delay * 2 ** attempt + jitter`. */
  function Backoff(attempt: nat, jitter: real): real {
    (BaseDelay * Pow2(attempt)) as real + jitter
  }

  function Final(o: Outcome): Result {
    match o
    case Ok(text) => Returned(text)
    case Failure(e) => Raised(e)
  }

  /** What a run does: how many calls it makes, the sleeps between them, and
      how it ends. */
  datatype Trace = Trace(calls: nat, sleeps: seq<real>, result: Result)

  predicate WellFormedOracle(outcomes: seq<Outcome>, jitters: seq<real>) {
    |outcomes| == MaxRetries + 1 && |jitters| == MaxRetries
  }

  /** The run from attempt `attempt` on: it retries while the outcome is a
      rate-limit error and attempts remain, sleeping a backoff each time. */
  function Attempts(outcomes: seq<Outcome>, jitters: seq<real>, attempt: nat): (t: Trace)
    requires WellFormedOracle(outcomes, jitters) && attempt <= MaxRetries
    ensures attempt < t.calls <= MaxRetries + 1
    ensures |t.sleeps| == t.calls - 1 - attempt
    decreases MaxRetries - attempt
  {
    if Retryable(outcomes[attempt]) && attempt < MaxRetries then
      var rest := Attempts(outcomes, jitters, attempt + 1);
      Trace(rest.calls, [Backoff(attempt, jitters[attempt])] + rest.sleeps, rest.result)
    else
      Trace(attempt + 1, [], Final(outcomes[attempt]))
  }

  /** The shape of a run: it stops at the first outcome that is not a
      retryable error, or at the last permitted attempt; every earlier attempt
      was a rate-limit error followed by its backoff sleep; the run ends as
      its last call did, and no sleep follows that call. */
  lemma AttemptsShape(outcomes: seq<Outcome>, jitters: seq<real>, attempt: nat)
    requires WellFormedOracle(outcomes, jitters) && attempt <= MaxRetries
    ensures var t := Attempts(outcomes, jitters, attempt);
      (forall k :: attempt <= k < t.calls - 1 ==> Retryable(outcomes[k]))
      && (t.calls <= MaxRetries ==> !Retryable(outcomes[t.calls - 1]))
      && t.result == Final(outcomes[t.calls - 1])
      && (forall k :: 0 <= k < |t.sleeps| ==> t.sleeps[k] == Backoff(attempt + k, jitters[attempt + k]))
  {
    AttemptsStop(outcomes, jitters, attempt);
    AttemptsSleeps(outcomes, jitters, attempt);
  }

  /** Where a run stops, and how it ends. */
  lemma {:induction false} AttemptsStop(outcomes: seq<Outcome>, jitters: seq<real>, attempt: nat)
    requires WellFormedOracle(outcomes, jitters) && attempt <= MaxRetries
    ensures var t := Attempts(outcomes, jitters, attempt);
      (forall k :: attempt <= k < t.calls - 1 ==> Retryable(outcomes[k]))
      && (t.calls <= MaxRetries ==> !Retryable(outcomes[t.calls - 1]))
      && t.result == Final(outcomes[t.calls - 1])
    decreases MaxRetries - attempt
  {
    if Retryable(outcomes[attempt]) && attempt < MaxRetries {
      AttemptsStop(outcomes, jitters, attempt + 1);
      RetryStep(outcomes, jitters, attempt);
    } else {
      StopStep(outcomes, jitters, attempt);
    }
  }

  /** The sleeps of a run: one backoff per retried attempt. */
  lemma {:induction false} AttemptsSleeps(outcomes: seq<Outcome>, jitters: seq<real>, attempt: nat)
    requires WellFormedOracle(outcomes, jitters) && attempt <= MaxRetries
    ensures var t := Attempts(outcomes, jitters, attempt);
      forall k :: 0 <= k < |t.sleeps| ==> t.sleeps[k] == Backoff(attempt + k, jitters[attempt + k])
    decreases MaxRetries - attempt
  {
    if Retryable(outcomes[attempt]) && attempt < MaxRetries {
      AttemptsSleeps(outcomes, jitters, attempt + 1);
      RetryStep(outcomes, jitters, attempt);
      var t := Attempts(outcomes, jitters, attempt);
      var rest := Attempts(outcomes, jitters, attempt + 1);
      forall k | 1 <= k < |t.sleeps|
        ensures t.sleeps[k] == Backoff(attempt + k, jitters[attempt + k])
      {
        assert t.sleeps[k] == rest.sleeps[k - 1];
      }
    }
  }

  /** One retry: the backoff sleep, then the run from the next attempt. */
  lemma RetryStep(outcomes: seq<Outcome>, jitters: seq<real>, attempt: nat)
    requires WellFormedOracle(outcomes, jitters) && attempt < MaxRetries
    requires Retryable(outcomes[attempt])
    ensures var rest := Attempts(outcomes, jitters, attempt + 1);
      Attempts(outcomes, jitters, attempt)
        == Trace(rest.calls, [Backoff(attempt, jitters[attempt])] + rest.sleeps, rest.result)
  {}

  /** The whole run of `_generate_with_log`. */
  function Run(outcomes: seq<Outcome>, jitters: seq<real>): (t: Trace)
    requires WellFormedOracle(outcomes, jitters)
    ensures 0 < t.calls <= MaxRetries + 1
    ensures |t.sleeps| == t.calls - 1
  {
    Attempts(outcomes, jitters, 0)
  }

  /** The log record's `request.contents`: long prompts are cut to 500
      characters and marked with "...". */
  function RequestDigest(contents: string): (d: string)
    ensures |d| <= 503
    ensures |contents| <= 500 ==> d == contents
    ensures |contents| > 500 ==> |d| == 503 && d[..500] == contents[..500] && d[500..] == "..."
  {
    if |contents| > 500 then contents[..500] + "..." else contents
  }

  /** The log record's `response.text`: the first 200 characters plus "...",
      or "No Text" for an empty response. */
  function ResponseDigest(text: string): (d: string)
    ensures text == [] <==> d == "No Text"
    ensures text != [] ==> d == text[..if |text| < 200 then |text| else 200] + "..."
  {
    if text == [] then "No Text"
    else
      var d := text[..if |text| < 200 then |text| else 200] + "...";
      assert d[|d| - 1] == '.';
      d
  }

  /** The `log_entry` dict as it is printed at the end of a run. */
  datatype LogEntry = LogEntry(model: string, request: string, status: string,
                               response: Option<string>, error: Option<string>)

  /** The last attempt of a run: no sleep follows it. */
  lemma StopStep(outcomes: seq<Outcome>, jitters: seq<real>, attempt: nat)
    requires WellFormedOracle(outcomes, jitters) && attempt <= MaxRetries
    requires !(Retryable(outcomes[attempt]) && attempt < MaxRetries)
    ensures Attempts(outcomes, jitters, attempt) == Trace(attempt + 1, [], Final(outcomes[attempt]))
  {}

  /** `_generate_with_log(client, model, contents)`. */
  method GenerateWithLog(model: string, contents: string, outcomes: seq<Outcome>, jitters: seq<real>)
    returns (result: Result, calls: nat, sleeps: seq<real>, log: LogEntry)
    requires WellFormedOracle(outcomes, jitters)
    ensures Trace(calls, sleeps, result) == Run(outcomes, jitters)
    ensures log.model == model && log.request == RequestDigest(contents)
    ensures result.Returned? ==>
      log.status == "200 OK" && log.response == Some(ResponseDigest(result.text)) && log.error == None
    ensures result.Raised? ==>
      log.status == "ERROR" && log.error == Some(result.error) && log.response == None
  {
    log := LogEntry(model, RequestDigest(contents), "PENDING", None, None);
    sleeps := [];
    calls := 0;
    ghost var run := Run(outcomes, jitters);
    for attempt := 0 to MaxRetries + 1
      invariant attempt <= MaxRetries
      invariant calls == attempt
      invariant log == LogEntry(model, RequestDigest(contents), "PENDING", None, None)
      invariant RunFrom(run, outcomes, jitters, attempt, sleeps)
    {
      calls := calls + 1;
      match outcomes[attempt]
      case Ok(text) =>
        StopHere(run, outcomes, jitters, attempt, sleeps);
        log := log.(status := "200 OK", response := Some(ResponseDigest(text)));
        result := Returned(text);
        return;
      case Failure(e) =>
        if IsRateLimit(e) && attempt < MaxRetries {
          RetryHere(run, outcomes, jitters, attempt, sleeps);
          var delay := Backoff(attempt, jitters[attempt]);
          sleeps := sleeps + [delay];
        } else {
          StopHere(run, outcomes, jitters, attempt, sleeps);
          log := log.(status := "ERROR", error := Some(e));
          result := Raised(e);
          return;
        }
    }
    assert false;
    result := Returned("");
  }

  /** The loop's invariant: the run so far slept `sleeps`, and the rest of it
      is the run from `attempt` on. */
  ghost predicate RunFrom(run: Trace, outcomes: seq<Outcome>, jitters: seq<real>, attempt: nat, sleeps: seq<real>)
    requires WellFormedOracle(outcomes, jitters) && attempt <= MaxRetries
  {
    var rest := Attempts(outcomes, jitters, attempt);
    run.calls == rest.calls && run.result == rest.result && run.sleeps == sleeps + rest.sleeps
  }

  lemma StopHere(run: Trace, outcomes: seq<Outcome>, jitters: seq<real>, attempt: nat, sleeps: seq<real>)
    requires WellFormedOracle(outcomes, jitters) && attempt <= MaxRetries
    requires RunFrom(run, outcomes, jitters, attempt, sleeps)
    requires !(Retryable(outcomes[attempt]) && attempt < MaxRetries)
    ensures run == Trace(attempt + 1, sleeps, Final(outcomes[attempt]))
  {
    StopStep(outcomes, jitters, attempt);
    assert sleeps + [] == sleeps;
  }

  lemma RetryHere(run: Trace, outcomes: seq<Outcome>, jitters: seq<real>, attempt: nat, sleeps: seq<real>)
    requires WellFormedOracle(outcomes, jitters) && attempt < MaxRetries
    requires RunFrom(run, outcomes, jitters, attempt, sleeps)
    requires Retryable(outcomes[attempt])
    ensures RunFrom(run, outcomes, jitters, attempt + 1, sleeps + [Backoff(attempt, jitters[attempt])])
  {
    RetryStep(outcomes, jitters, attempt);
    var delay := Backoff(attempt, jitters[attempt]);
    var rest := Attempts(outcomes, jitters, attempt + 1);
    assert sleeps + ([delay] + rest.sleeps) == (sleeps + [delay]) + rest.sleeps;
  }

  /** Sum of a sequence of durations. */
  function Total(s: seq<real>): real {
    if s == [] then 0.0 else s[0] + Total(s[1..])
  }

  /** With jitters drawn from [0, 1], the k-th sleep lies in [2·2^k, 2·2^k + 1],
      and the sleeps add up to at most 2 + 4 + 8 + 3 = 17 seconds. */
  lemma {:induction false} SleepBounds(outcomes: seq<Outcome>, jitters: seq<real>)
    requires WellFormedOracle(outcomes, jitters)
    requires forall k :: 0 <= k < |jitters| ==> 0.0 <= jitters[k] <= 1.0
    ensures var s := Run(outcomes, jitters).sleeps;
      (forall k :: 0 <= k < |s| ==>
         (BaseDelay * Pow2(k)) as real <= s[k] <= (BaseDelay * Pow2(k)) as real + 1.0)
      && Total(s) <= 17.0
  {
    var s := Run(outcomes, jitters).sleeps;
    AttemptsShape(outcomes, jitters, 0);
    assert Pow2(0) == 1 && Pow2(1) == 2 && Pow2(2) == 4;
    if |s| == 3 {
      assert s == [s[0]] + [s[1]] + [s[2]];
      assert Total(s) == s[0] + Total(s[1..]);
      assert Total(s[1..]) == s[1] + Total(s[2..]);
      assert Total(s[2..]) == s[2] + Total(s[3..]);
    } else if |s| == 2 {
      assert Total(s) == s[0] + Total(s[1..]);
      assert Total(s[1..]) == s[1] + Total(s[2..]);
    } else if |s| == 1 {
      assert Total(s) == s[0] + Total(s[1..]);
    }
  }

  /** An error that is not a rate limit ends the run at once: the first such
      error, after any rate-limit retries, is re-raised. */
  lemma {:induction false} OtherErrorRaisedAtOnce(outcomes: seq<Outcome>, jitters: seq<real>, k: nat)
    requires WellFormedOracle(outcomes, jitters) && k <= MaxRetries
    requires forall i :: 0 <= i < k ==> Retryable(outcomes[i])
    requires outcomes[k].Failure? && !IsRateLimit(outcomes[k].error)
    ensures Run(outcomes, jitters).calls == k + 1
    ensures Run(outcomes, jitters).result == Raised(outcomes[k].error)
  {
    AttemptsShape(outcomes, jitters, 0);
  }

  /** Four rate-limit errors in a row: four calls, three sleeps, and the last
      error is re-raised. */
  lemma AllRateLimited(outcomes: seq<Outcome>, jitters: seq<real>)
    requires WellFormedOracle(outcomes, jitters)
    requires forall i :: 0 <= i < |outcomes| ==> Retryable(outcomes[i])
    ensures Run(outcomes, jitters).calls == MaxRetries + 1
    ensures Run(outcomes, jitters).result == Raised(outcomes[MaxRetries].error)
    ensures |Run(outcomes, jitters).sleeps| == MaxRetries
  {
    AttemptsShape(outcomes, jitters, 0);
  }

  /** A response on the first attempt: one call, no sleep. */
  lemma FirstAttemptSucceeds(outcomes: seq<Outcome>, jitters: seq<real>)
    requires WellFormedOracle(outcomes, jitters) && outcomes[0].Ok?
    ensures Run(outcomes, jitters) == Trace(1, [], Returned(outcomes[0].text))
  {}
}
