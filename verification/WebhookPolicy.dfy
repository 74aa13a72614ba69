/** Whether and when a failed webhook delivery is tried again. */
module WebhookPolicy {
  import opened Common
  import opened Backoff

  const MAX_WEBHOOK_ATTEMPTS := 5
  const INITIAL_RETRY_DELAY_MS := 1000
  const MAX_RETRY_DELAY_MS := 15 * 60 * 1000
  const RETRYABLE_CODES := {408, 425, 429, 500, 502, 503, 504}

  /** A Retry-After value: a number, a string of digits, a date that parses (in ms), or anything else. */
  datatype RetryAfter = Seconds(s: real) | Digits(n: nat) | HttpDate(at: int) | Unreadable

  datatype Context = Context(
    attempt: int,
    maxAttempts: Option<int>,
    statusCode: Option<int>,
    networkError: bool,
    timeout: bool,
    retryAfter: Option<RetryAfter>,
    now: int,
    jitter: real)

  datatype Outcome = SUCCESS | RETRY | TERMINAL_FAILURE

  datatype Decision = Decision(outcome: Outcome, retryable: bool, nextDelay: Option<int>, attempt: int,
                               maxAttempts: int)

  predicate ValidContext(c: Context) {
    && c.attempt >= 1
    && (c.maxAttempts.Some? ==> c.maxAttempts.value >= 1)
    && 0.0 <= c.jitter <= 1.0
    && (c.statusCode.Some? ==> 100 <= c.statusCode.value <= 599)
  }

  predicate Successful(code: Option<int>) {
    code.Some? && 200 <= code.value < 300
  }

  /** `calculateExponentialBackoff`. */
  function ExponentialBackoff(attempt: int, jitter: real): int {
    var base := INITIAL_RETRY_DELAY_MS * Pow2(Max(1, attempt) - 1);
    Min(if jitter > 0.0 then Round(base as real * (1.0 + if jitter < 1.0 then jitter else 1.0)) else base,
        MAX_RETRY_DELAY_MS)
  }

  /** `parseRetryAfter`. */
  function ParseRetryAfter(r: Option<RetryAfter>, now: int): Option<int> {
    match r
    case None => None
    case Some(Seconds(s)) => if s < 0.0 then None else Some(Min(Round(s * 1000.0), MAX_RETRY_DELAY_MS))
    case Some(Digits(n)) => Some(Min(n * 1000, MAX_RETRY_DELAY_MS))
    case Some(HttpDate(at)) => Some(if at <= now then 0 else Min(at - now, MAX_RETRY_DELAY_MS))
    case Some(Unreadable) => None
  }

  /** The decision; nothing for a context that is refused. */
  function Evaluate(c: Context): Option<Decision> {
    if !ValidContext(c) then None
    else
      var maxAttempts := if c.maxAttempts.Some? then Min(c.maxAttempts.value, MAX_WEBHOOK_ATTEMPTS)
                         else MAX_WEBHOOK_ATTEMPTS;
      var retryableError := c.timeout || c.networkError
                            || (c.statusCode.Some? && c.statusCode.value in RETRYABLE_CODES);
      if Successful(c.statusCode) then Some(Decision(SUCCESS, false, None, c.attempt, maxAttempts))
      else if !retryableError || c.attempt >= maxAttempts then
        Some(Decision(TERMINAL_FAILURE, false, None, c.attempt, maxAttempts))
      else
        var asked := ParseRetryAfter(c.retryAfter, c.now);
        var delay := if asked.Some? && asked.value >= 0 then Min(asked.value, MAX_RETRY_DELAY_MS)
                     else ExponentialBackoff(c.attempt, c.jitter);
        Some(Decision(RETRY, true, Some(delay), c.attempt, maxAttempts))
  }

  /** Twice the delay for every attempt, in numbers: one second after the first, fifteen minutes from the eleventh. */
  function Doubling(attempt: int): int
    requires attempt >= 1
  {
    if attempt <= 10 then 1_000 * Pow2(attempt - 1) else 900_000
  }

  lemma DoublingMeans(attempt: int)
    requires attempt >= 1
    ensures ExponentialBackoff(attempt, 0.0) == Doubling(attempt)
  {
    if attempt <= 10 {
      Pow2Grows(attempt - 1, 9);
      assert Pow2(9) == 512;
    } else {
      Pow2Grows(10, attempt - 1);
      assert Pow2(10) == 1024;
    }
  }

  /** Jitter lengthens a delay by its share, rounded to milliseconds, up to the same limit. */
  lemma JitterMeans(attempt: int, jitter: real)
    requires attempt >= 1 && 0.0 <= jitter <= 1.0
    ensures ExponentialBackoff(attempt, jitter) ==
              if attempt > 10 then 900_000
              else
                var delay := (Doubling(attempt) as real * (1.0 + jitter) + 0.5).Floor;
                if delay < 900_000 then delay else 900_000
  {
    if attempt <= 10 {
      Pow2Grows(attempt - 1, 9);
      assert Pow2(9) == 512;
    } else {
      Pow2Grows(10, attempt - 1);
      assert Pow2(10) == 1024;
      LongerIsLonger((INITIAL_RETRY_DELAY_MS * Pow2(attempt - 1)) as real, jitter);
    }
  }

  lemma LongerIsLonger(base: real, jitter: real)
    requires base >= 1_024_000.0 && jitter >= 0.0
    ensures base * (1.0 + jitter) >= 1_024_000.0
  {
    assert base * jitter >= 0.0;
    assert base * (1.0 + jitter) == base + base * jitter;
  }

  /** A failure worth another attempt: no code from 200 to 299, and a timeout, a network error or one of seven codes. */
  predicate Transient(code: Option<int>, networkError: bool, timeout: bool) {
    && (code.None? || code.value < 200 || code.value > 299)
    && (timeout || networkError
        || (code.Some? && (code.value == 408 || code.value == 425 || code.value == 429 || code.value == 500
                           || code.value == 502 || code.value == 503 || code.value == 504)))
  }

  /** What a Retry-After asks for, in milliseconds: its seconds, or the time to its date, up to fifteen minutes. */
  function Asked(r: Option<RetryAfter>, now: int): Option<int> {
    match r
    case Some(Digits(n)) => Some(if n <= 900 then 1_000 * n else 900_000)
    case Some(HttpDate(at)) => Some(if at <= now then 0 else if at - now <= 900_000 then at - now else 900_000)
    case Some(Seconds(s)) =>
      if s < 0.0 then None else Some(if s * 1000.0 < 900_000.0 then (s * 1000.0 + 0.5).Floor else 900_000)
    case _ => None
  }

  /** The context is refused exactly if a field is out of range; else a code from 200 to 299 is a success, a transient
      failure below five attempts, or fewer if so configured, is retried, and everything else is over. A retry waits
      as Retry-After asks, or else, without jitter, twice as long as before. */
  lemma OutcomesMean(c: Context)
    ensures Evaluate(c).Some? <==>
              && c.attempt >= 1 && 0.0 <= c.jitter <= 1.0
              && (c.maxAttempts.Some? ==> c.maxAttempts.value >= 1)
              && (c.statusCode.Some? ==> 100 <= c.statusCode.value <= 599)
    ensures Evaluate(c).Some? ==>
              var d := Evaluate(c).value;
              var open := c.attempt < 5 && (c.maxAttempts.Some? ==> c.attempt < c.maxAttempts.value);
              && (d.outcome == SUCCESS <==> c.statusCode.Some? && 200 <= c.statusCode.value <= 299)
              && (d.outcome == RETRY <==> Transient(c.statusCode, c.networkError, c.timeout) && open)
              && (d.retryable <==> d.outcome == RETRY) && (d.nextDelay.Some? <==> d.outcome == RETRY)
              && (d.outcome == RETRY && Asked(c.retryAfter, c.now).Some? ==> d.nextDelay == Asked(c.retryAfter, c.now))
              && (d.outcome == RETRY && Asked(c.retryAfter, c.now).None? && c.jitter == 0.0 ==>
                    d.nextDelay == Some(Doubling(c.attempt)))
              && d.attempt == c.attempt
              && d.maxAttempts == if c.maxAttempts.Some? && c.maxAttempts.value < 5 then c.maxAttempts.value else 5
  {
    if c.attempt >= 1 { DoublingMeans(c.attempt); }
  }

  /** Without jitter the delays double from one second up to fifteen minutes. */
  lemma BackoffDoubles(attempt: int)
    requires attempt >= 1
    ensures ExponentialBackoff(attempt + 1, 0.0) == Min(2 * ExponentialBackoff(attempt, 0.0), 900_000)
    ensures 1_000 <= ExponentialBackoff(attempt, 0.0) <= 900_000
  {
  }

  // ----- The deliveries of one dispatch -------------------------------------------------------

  datatype Failure = NoError | NetworkError | Timeout | OtherError

  datatype Delivery = Delivery(success: bool, statusCode: Option<int>, error: Failure, retryAfter: Option<RetryAfter>)

  /** A failure that is worth another attempt. */
  predicate RetryableFailure(d: Delivery) {
    && !d.success && !Successful(d.statusCode)
    && (d.error == NetworkError || d.error == Timeout || (d.statusCode.Some? && d.statusCode.value in RETRYABLE_CODES))
  }

  lemma RetryableMeans(d: Delivery)
    ensures RetryableFailure(d) <==> !d.success && Transient(d.statusCode, d.error == NetworkError, d.error == Timeout)
  {
  }

  predicate AllSucceeded(ds: seq<Delivery>) {
    forall i :: 0 <= i < |ds| ==> ds[i].success
  }

  /** No delivery failed in a way worth another attempt. */
  predicate Hopeless(ds: seq<Delivery>) {
    forall i :: 0 <= i < |ds| ==> !RetryableFailure(ds[i])
  }

  predicate WithoutRetryAfter(ds: seq<Delivery>) {
    forall i :: 0 <= i < |ds| ==> ds[i].retryAfter.None?
  }

  function ContextOf(d: Delivery, attempt: int, maxAttempts: int, now: int): Context {
    Context(attempt, Some(maxAttempts), d.statusCode, d.error == NetworkError, d.error == Timeout,
            d.retryAfter, now, 0.0)
  }

  /** The decisions on the failed deliveries; nothing if the policy refuses one. */
  function Decisions(ds: seq<Delivery>, attempt: int, maxAttempts: int, now: int): Option<seq<Decision>> {
    if ds == [] then Some([])
    else
      var others := Decisions(ds[1..], attempt, maxAttempts, now);
      if ds[0].success then others
      else
        var d := Evaluate(ContextOf(ds[0], attempt, maxAttempts, now));
        if d.None? || others.None? then None else Some([d.value] + others.value)
  }

  predicate SomeRetryable(decisions: seq<Decision>) {
    exists i :: 0 <= i < |decisions| && decisions[i].retryable
  }

  function LongestDelay(decisions: seq<Decision>): int {
    if decisions == [] then 0
    else Max(LongestDelay(decisions[1..]), if decisions[0].nextDelay.Some? then decisions[0].nextDelay.value else 0)
  }

  /** Retryable or not, and the delay the policy asks for, if any. */
  datatype Verdict = Verdict(retryable: bool, delay: Option<int>)

  function Judge(ds: seq<Delivery>, attempt: int, maxAttempts: int, now: int): Option<Verdict> {
    var decisions := Decisions(ds, attempt, maxAttempts, now);
    if decisions.None? then None
    else
      var delay := LongestDelay(decisions.value);
      Some(Verdict(decisions.value == [] || SomeRetryable(decisions.value), if delay == 0 then None else Some(delay)))
  }

  lemma {:induction false} DecisionsMean(ds: seq<Delivery>, attempt: int, maxAttempts: int, now: int)
    requires Decisions(ds, attempt, maxAttempts, now).Some?
    ensures var decisions := Decisions(ds, attempt, maxAttempts, now).value;
            && (decisions == [] <==> AllSucceeded(ds))
            && (SomeRetryable(decisions) <==> !Hopeless(ds) && attempt < Min(maxAttempts, MAX_WEBHOOK_ATTEMPTS))
            && 0 <= LongestDelay(decisions) <= MAX_RETRY_DELAY_MS
            && (WithoutRetryAfter(ds) ==>
                  LongestDelay(decisions) == if SomeRetryable(decisions) then ExponentialBackoff(attempt, 0.0) else 0)
  {
    if ds != [] {
      DecisionsMean(ds[1..], attempt, maxAttempts, now);
      FirstDecision(ds, attempt, maxAttempts, now);
      assert AllSucceeded(ds) <==> ds[0].success && AllSucceeded(ds[1..]);
      assert Hopeless(ds) <==> !RetryableFailure(ds[0]) && Hopeless(ds[1..]);
      assert WithoutRetryAfter(ds) ==> ds[0].retryAfter.None? && WithoutRetryAfter(ds[1..]);
      if attempt >= 1 { BackoffDoubles(attempt); }
    }
  }

  lemma FirstDecision(ds: seq<Delivery>, attempt: int, maxAttempts: int, now: int)
    requires ds != [] && Decisions(ds, attempt, maxAttempts, now).Some?
    ensures var all, others := Decisions(ds, attempt, maxAttempts, now), Decisions(ds[1..], attempt, maxAttempts, now);
            && others.Some?
            && (ds[0].success ==> all == others)
            && (!ds[0].success ==>
                  var d := Evaluate(ContextOf(ds[0], attempt, maxAttempts, now));
                  && d.Some? && all.value == [d.value] + others.value && all.value[1..] == others.value
                  && (SomeRetryable(all.value) <==> d.value.retryable || SomeRetryable(others.value)))
  {
    if !ds[0].success {
      var d := Evaluate(ContextOf(ds[0], attempt, maxAttempts, now)).value;
      var others := Decisions(ds[1..], attempt, maxAttempts, now).value;
      var all := [d] + others;
      assert all[1..] == others;
      if SomeRetryable(others) {
        var i :| 0 <= i < |others| && others[i].retryable;
        assert all[i + 1].retryable;
      }
      if d.retryable { assert all[0].retryable; }
    }
  }

  /** A dispatch with failures is retried exactly if one of them is worth it and attempts are left below
      both limits; without Retry-After the delay is then the doubling one. */
  lemma JudgeMeans(ds: seq<Delivery>, attempt: int, maxAttempts: int, now: int)
    requires !AllSucceeded(ds) && Judge(ds, attempt, maxAttempts, now).Some?
    ensures var v := Judge(ds, attempt, maxAttempts, now).value;
            && (v.retryable <==> !Hopeless(ds) && attempt < Min(maxAttempts, MAX_WEBHOOK_ATTEMPTS))
            && (v.delay.Some? ==> 0 < v.delay.value <= MAX_RETRY_DELAY_MS)
            && (WithoutRetryAfter(ds) && v.retryable ==> v.delay == Some(ExponentialBackoff(attempt, 0.0)))
  {
    DecisionsMean(ds, attempt, maxAttempts, now);
    if attempt >= 1 { BackoffDoubles(attempt); }
    AttemptIsValid(ds, attempt, maxAttempts, now);
  }

  lemma {:induction false} AttemptIsValid(ds: seq<Delivery>, attempt: int, maxAttempts: int, now: int)
    requires Decisions(ds, attempt, maxAttempts, now).Some? && !AllSucceeded(ds)
    ensures attempt >= 1
  {
    if ds[0].success { AttemptIsValid(ds[1..], attempt, maxAttempts, now); }
  }
}
