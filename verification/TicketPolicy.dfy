/** When to ask SUNAT again about a ticket, and when to give up. */
module TicketPolicy {
  import opened Common
  import opened Backoff

  const MAX_ATTEMPTS := 20
  const MAX_TOTAL_MS := 30 * 60 * 1000
  const MIN_DELAY_MS := 2000
  const MAX_DELAY_MS := 120000

  /** `code` is the status code without surrounding blanks. */
  datatype Context = Context(
    attempt: int,
    maxAttempts: Option<int>,
    code: string,
    elapsed: int,
    maxTotal: Option<int>,
    retryAfter: Option<real>,
    jitter: Option<real>)

  datatype Outcome = PENDING | PROCESS_CDR | EXHAUSTED | TERMINAL_FAILURE

  datatype Decision = Decision(outcome: Outcome, retryable: bool, nextDelay: Option<int>, attempt: int,
                               maxAttempts: int)

  predicate ValidContext(c: Context) {
    && c.attempt >= 1
    && (c.maxAttempts.Some? ==> c.maxAttempts.value >= 1)
    && c.elapsed >= 0
    && (c.maxTotal.Some? ==> c.maxTotal.value > 0)
    && (c.jitter.Some? ==> 0.0 <= c.jitter.value <= 1.0)
    && c.code != ""
  }

  function Clamp(delay: int): int {
    Min(Max(delay, MIN_DELAY_MS), MAX_DELAY_MS)
  }

  function BaseDelay(attempt: int): int {
    Clamp(MIN_DELAY_MS * Pow2(Max(1, attempt) - 1))
  }

  function Stretch(base: int, jitter: real): int {
    if jitter > 0.0 then Round(base as real * (1.0 + if jitter < 1.0 then jitter else 1.0)) else base
  }

  /** `calculateTicketBackoffDelay`. */
  function Delay(attempt: int, jitter: real): int {
    Clamp(Stretch(BaseDelay(attempt), jitter))
  }

  /** `sanitizeRetryAfterMs`. */
  function SanitizeRetryAfter(suggested: Option<real>): Option<int> {
    if suggested.None? || suggested.value <= 0.0 then None else Some(Clamp(Round(suggested.value)))
  }

  /** The decision; nothing for a context that is refused. */
  function Evaluate(c: Context): Option<Decision> {
    if !ValidContext(c) then None
    else
      var maxAttempts := if c.maxAttempts.Some? then Min(c.maxAttempts.value, MAX_ATTEMPTS) else MAX_ATTEMPTS;
      var maxTotal := if c.maxTotal.Some? then Min(c.maxTotal.value, MAX_TOTAL_MS) else MAX_TOTAL_MS;
      if c.code in {"0", "00", "99"} then Some(Decision(PROCESS_CDR, false, None, c.attempt, maxAttempts))
      else if c.code != "98" then Some(Decision(TERMINAL_FAILURE, false, None, c.attempt, maxAttempts))
      else if c.attempt >= maxAttempts || c.elapsed >= maxTotal then
        Some(Decision(EXHAUSTED, false, None, c.attempt, maxAttempts))
      else
        var suggested := SanitizeRetryAfter(c.retryAfter);
        var delay := if suggested.Some? then suggested.value
                     else Delay(c.attempt, if c.jitter.Some? then c.jitter.value else 0.0);
        Some(Decision(PENDING, true, Some(delay), c.attempt, maxAttempts))
  }

  /** The context is refused exactly if a field is out of range; else every code leads to its outcome: 0, 00 and 99
      to the CDR, 98 to another poll below 20 attempts and 30 minutes, or less if so configured, and to exhaustion
      from there on, any other code to failure. */
  lemma OutcomesMean(c: Context)
    ensures Evaluate(c).Some? <==>
              && c.attempt >= 1 && c.elapsed >= 0 && c.code != ""
              && (c.maxAttempts.Some? ==> c.maxAttempts.value >= 1)
              && (c.maxTotal.Some? ==> c.maxTotal.value >= 1)
              && (c.jitter.Some? ==> 0.0 <= c.jitter.value <= 1.0)
    ensures Evaluate(c).Some? ==>
              var outcome := Evaluate(c).value.outcome;
              var open := && c.attempt < 20 && (c.maxAttempts.Some? ==> c.attempt < c.maxAttempts.value)
                          && c.elapsed < 1_800_000 && (c.maxTotal.Some? ==> c.elapsed < c.maxTotal.value);
              && (outcome == PROCESS_CDR <==> c.code == "0" || c.code == "00" || c.code == "99")
              && (outcome == PENDING <==> c.code == "98" && open)
              && (outcome == EXHAUSTED <==> c.code == "98" && !open)
              && (outcome == TERMINAL_FAILURE <==> c.code !in {"0", "00", "99", "98"})
  {
  }

  lemma LongerIsLonger(base: int, jitter: real)
    requires base >= 0 && jitter >= 0.0
    ensures (base as real * (1.0 + jitter) + 0.5).Floor >= base
    ensures jitter == 0.0 ==> (base as real * (1.0 + jitter) + 0.5).Floor == base
  {
    assert base as real * jitter >= 0.0;
    assert base as real * (1.0 + jitter) == base as real + base as real * jitter;
  }

  /** Two seconds after the first attempt, twice as long after each, up to two minutes. */
  function Doubling(attempt: int): int
    requires attempt >= 1
  {
    if attempt <= 6 then 2_000 * Pow2(attempt - 1) else 120_000
  }

  lemma DoublingMeans(attempt: int)
    requires attempt >= 1
    ensures BaseDelay(attempt) == Doubling(attempt) && 2_000 <= Doubling(attempt) <= 120_000
  {
    if attempt <= 6 {
      Pow2Grows(attempt - 1, 5);
      assert Pow2(5) == 32;
    } else {
      Pow2Grows(6, attempt - 1);
      assert Pow2(6) == 64;
    }
  }

  lemma JitterMeans(attempt: int, jitter: real)
    requires attempt >= 1 && 0.0 <= jitter <= 1.0
    ensures var longer := (Doubling(attempt) as real * (1.0 + jitter) + 0.5).Floor;
            Delay(attempt, jitter) == if longer < 120_000 then longer else 120_000
    ensures 2_000 <= Delay(attempt, jitter) <= 120_000
    ensures jitter == 0.0 ==> Delay(attempt, jitter) == Doubling(attempt)
  {
    DoublingMeans(attempt);
    LongerIsLonger(Doubling(attempt), jitter);
  }

  lemma SuggestionMeans(suggested: Option<real>)
    ensures SanitizeRetryAfter(suggested).Some? <==> suggested.Some? && suggested.value > 0.0
    ensures SanitizeRetryAfter(suggested).Some? ==>
              var asked := (suggested.value + 0.5).Floor;
              SanitizeRetryAfter(suggested).value
              == if asked < 2_000 then 2_000 else if asked > 120_000 then 120_000 else asked
  {
  }

  /** The delay of a ticket that is asked again: the suggestion, rounded, or doubling from two seconds, longer by the
      jitter, and never less than two seconds nor more than two minutes. */
  lemma DelaysMean(c: Context)
    requires Evaluate(c).Some? && Evaluate(c).value.outcome == PENDING
    ensures Evaluate(c).value.nextDelay.Some? && c.attempt >= 1
    ensures var d := Evaluate(c).value.nextDelay.value;
            && 2_000 <= d <= 120_000
            && (c.retryAfter.Some? && c.retryAfter.value > 0.0 ==>
                  var asked := (c.retryAfter.value + 0.5).Floor;
                  d == if asked < 2_000 then 2_000 else if asked > 120_000 then 120_000 else asked)
            && (c.retryAfter.None? || c.retryAfter.value <= 0.0 ==>
                  var jitter := if c.jitter.Some? then c.jitter.value else 0.0;
                  var longer := (Doubling(c.attempt) as real * (1.0 + jitter) + 0.5).Floor;
                  && d == (if longer < 120_000 then longer else 120_000)
                  && (jitter == 0.0 ==> d == Doubling(c.attempt)))
  {
    SuggestionMeans(c.retryAfter);
    JitterMeans(c.attempt, if c.jitter.Some? then c.jitter.value else 0.0);
  }

  /** Whatever limits, suggestion and jitter are configured: only a ticket in process below the absolute
      limits is asked again, after 2 to 120 seconds. */
  lemma PendingIsBounded(c: Context)
    ensures Evaluate(c).Some? ==>
              var d := Evaluate(c).value;
              && (d.retryable <==> d.outcome == PENDING)
              && (d.nextDelay.Some? <==> d.outcome == PENDING)
              && (d.outcome == PENDING ==>
                    && c.code == "98" && c.attempt < d.maxAttempts <= 20 && c.elapsed < 1_800_000
                    && 2_000 <= d.nextDelay.value <= 120_000)
  {
  }

  lemma StretchGrows(a: int, b: int, x: real, y: real)
    requires 0 <= a <= b && x <= y
    ensures Stretch(a, x) <= Stretch(b, y)
  {
    var u := 1.0 + if x <= 0.0 then 0.0 else if x < 1.0 then x else 1.0;
    var v := 1.0 + if y <= 0.0 then 0.0 else if y < 1.0 then y else 1.0;
    ScaleGrows(a, b, u, v);
    RoundGrows(a as real * u, b as real * v);
    assert Stretch(a, x) == Round(a as real * u);
    assert Stretch(b, y) == Round(b as real * v);
  }

  /** A later attempt or a larger jitter never shortens the delay. */
  lemma DelayGrows(a: int, b: int, x: real, y: real)
    requires a <= b && x <= y
    ensures 2_000 <= Delay(a, x) <= Delay(b, y) <= 120_000
  {
    Pow2Grows(Max(1, a) - 1, Max(1, b) - 1);
    StretchGrows(BaseDelay(a), BaseDelay(b), x, y);
  }

  /** The sum of the first k delays without jitter. */
  function TotalDelay(k: nat): int {
    if k == 0 then 0 else TotalDelay(k - 1) + Delay(k, 0.0)
  }

  lemma {:induction false} EarlyDelays(k: nat)
    requires k <= 6
    ensures TotalDelay(k) == 2000 * (Pow2(k) - 1)
  {
    if k > 0 {
      EarlyDelays(k - 1);
      Pow2Grows(k - 1, 5);
      assert Pow2(5) == 32;
    }
  }

  lemma {:induction false} TotalDelayClosedForm(k: nat)
    ensures TotalDelay(k) == if k <= 6 then 2000 * (Pow2(k) - 1) else 126000 + 120000 * (k - 6)
  {
    if k <= 6 {
      EarlyDelays(k);
      assert Pow2(6) == 64;
    } else {
      TotalDelayClosedForm(k - 1);
      assert Pow2(6) == 64;
      Pow2Grows(6, k - 1);
    }
  }
}
