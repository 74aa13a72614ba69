/** What a dispatch with failures leaves in the row of its event, by codes, errors and Retry-After. */
module WebhookOutcomes {
  import opened Common
  import opened Backoff
  import opened WebhookPolicy
  import opened Outbox
  import opened OutboxOutcomes

  /** A delivery that failed in a way worth another attempt. */
  predicate Worthwhile(d: Delivery) {
    !d.success && Transient(d.statusCode, d.error == NetworkError, d.error == Timeout)
  }

  predicate SomeWorthwhile(ds: seq<Delivery>) {
    exists i :: 0 <= i < |ds| && Worthwhile(ds[i])
  }

  predicate SomeFailed(ds: seq<Delivery>) {
    exists i :: 0 <= i < |ds| && !ds[i].success
  }

  /** Codes that a response can have. */
  predicate ProperCodes(ds: seq<Delivery>) {
    forall i :: 0 <= i < |ds| && !ds[i].success && ds[i].statusCode.Some? ==> 100 <= ds[i].statusCode.value <= 599
  }

  /** How long a failed delivery asks to wait. */
  function WaitOf(d: Delivery, attempt: int, now: int): int
    requires attempt >= 1
  {
    if Asked(d.retryAfter, now).Some? then Asked(d.retryAfter, now).value else Doubling(attempt)
  }

  /** The longest wait of the worthwhile failures; 0 without any. */
  ghost predicate IsLongest(longest: int, ds: seq<Delivery>, attempt: int, now: int)
    requires attempt >= 1
  {
    && (forall i :: 0 <= i < |ds| && Worthwhile(ds[i]) ==> WaitOf(ds[i], attempt, now) <= longest)
    && if SomeWorthwhile(ds)
       then exists i :: 0 <= i < |ds| && Worthwhile(ds[i]) && WaitOf(ds[i], attempt, now) == longest
       else longest == 0
  }

  lemma DecisionOf(d: Delivery, attempt: int, maxAttempts: int, now: int)
    requires !d.success && attempt >= 1 && maxAttempts >= 1
    requires d.statusCode.Some? ==> 100 <= d.statusCode.value <= 599
    ensures Evaluate(ContextOf(d, attempt, maxAttempts, now)).Some?
    ensures var decision := Evaluate(ContextOf(d, attempt, maxAttempts, now)).value;
            && (decision.retryable <==> Worthwhile(d) && attempt < 5 && attempt < maxAttempts)
            && decision.nextDelay == if decision.retryable then Some(WaitOf(d, attempt, now)) else None
  {
    OutcomesMean(ContextOf(d, attempt, maxAttempts, now));
  }

  lemma WaitIsNatural(d: Delivery, attempt: int, now: int)
    requires attempt >= 1
    ensures 0 <= WaitOf(d, attempt, now) <= 900_000
  {
    DoublingMeans(attempt);
    BackoffDoubles(attempt);
  }

  /** The decisions on the failed deliveries, and the longest of their delays. */
  lemma {:induction false} DecisionsAre(ds: seq<Delivery>, attempt: int, maxAttempts: int, now: int)
    requires ProperCodes(ds) && attempt >= 1 && maxAttempts >= 1
    ensures Decisions(ds, attempt, maxAttempts, now).Some?
    ensures var decisions := Decisions(ds, attempt, maxAttempts, now).value;
            if attempt < 5 && attempt < maxAttempts
            then IsLongest(LongestDelay(decisions), ds, attempt, now) else LongestDelay(decisions) == 0
  {
    if ds != [] {
      forall i | 0 <= i < |ds[1..]| && !ds[1..][i].success && ds[1..][i].statusCode.Some?
        ensures 100 <= ds[1..][i].statusCode.value <= 599
      {
        assert ds[1..][i] == ds[i + 1];
      }
      DecisionsAre(ds[1..], attempt, maxAttempts, now);
      var others := Decisions(ds[1..], attempt, maxAttempts, now).value;
      if !ds[0].success {
        DecisionOf(ds[0], attempt, maxAttempts, now);
        var d := Evaluate(ContextOf(ds[0], attempt, maxAttempts, now)).value;
        assert ([d] + others)[1..] == others;
      }
      WaitIsNatural(ds[0], attempt, now);
      if attempt < 5 && attempt < maxAttempts { LongestOf(ds, LongestDelay(others), attempt, now); }
    }
  }

  /** The longest wait with one more delivery in front. */
  lemma LongestOf(ds: seq<Delivery>, longest: int, attempt: int, now: int)
    requires ds != [] && attempt >= 1 && IsLongest(longest, ds[1..], attempt, now)
    ensures IsLongest(if Worthwhile(ds[0]) then Max(longest, WaitOf(ds[0], attempt, now)) else longest,
                      ds, attempt, now)
  {
    var all := if Worthwhile(ds[0]) then Max(longest, WaitOf(ds[0], attempt, now)) else longest;
    WaitIsNatural(ds[0], attempt, now);
    forall i | 0 <= i < |ds| && Worthwhile(ds[i])
      ensures WaitOf(ds[i], attempt, now) <= all
    {
      if i > 0 { assert ds[1..][i - 1] == ds[i]; }
    }
    if SomeWorthwhile(ds[1..]) {
      var i :| 0 <= i < |ds[1..]| && Worthwhile(ds[1..][i]) && WaitOf(ds[1..][i], attempt, now) == longest;
      assert Worthwhile(ds[i + 1]) && WaitOf(ds[i + 1], attempt, now) == longest;
    } else if SomeWorthwhile(ds) {
      var i :| 0 <= i < |ds| && Worthwhile(ds[i]);
      if i > 0 { assert ds[1..][i - 1] == ds[i]; }
    }
  }

  /** The row that a failure leaves: PENDING if the attempts are not used up, at its time, or DEAD. */
  predicate Rests(row: Row, row': Row, again: bool, at: Time) {
    row' == row.(status := if again then PENDING else DEAD, nextAttemptAt := row'.nextAttemptAt, lockedAt := None)
    && (again ==> row'.nextAttemptAt == at)
  }

  /** After a dispatch with failures the event is PENDING again if and only if one failure was a timeout, a network
      error or one of the codes 408, 425, 429, 500, 502, 503 and 504, and fewer than five attempts, and than the
      event allows, are used; else it is DEAD. It then waits as long as the most patient of these failures asks. */
  lemma FailuresLeave(row: Row, ds: seq<Delivery>, attempt: nat, maxAttempts: int, stamp: Time) returns (longest: int)
    requires SomeFailed(ds) && ProperCodes(ds) && attempt >= 1 && maxAttempts >= 1
    ensures Judge(ds, attempt, maxAttempts, stamp).Some?
    ensures attempt < 5 && attempt < maxAttempts ==> IsLongest(longest, ds, attempt, stamp)
    ensures Rests(row, Rescheduled(row, attempt, maxAttempts, stamp, Judge(ds, attempt, maxAttempts, stamp).value),
                  SomeWorthwhile(ds) && attempt < 5 && attempt < maxAttempts,
                  stamp + if longest == 0 then Doubling(attempt) else longest)
  {
    DecisionsAre(ds, attempt, maxAttempts, stamp);
    longest := LongestDelay(Decisions(ds, attempt, maxAttempts, stamp).value);
    DecisionsMean(ds, attempt, maxAttempts, stamp);
    assert !AllSucceeded(ds);
    JudgeMeans(ds, attempt, maxAttempts, stamp);
    WorthMeans(ds);
    DoublingMeans(attempt);
  }

  lemma WorthMeans(ds: seq<Delivery>)
    ensures SomeWorthwhile(ds) <==> !Hopeless(ds)
  {
    forall i | 0 <= i < |ds|
      ensures RetryableFailure(ds[i]) == Worthwhile(ds[i])
    {
      RetryableMeans(ds[i]);
    }
  }

  /** After a dispatch that threw, or a write that failed, the event is PENDING again while attempts are left, and
      waits twice as long as before. */
  lemma ThrowsLeave(row: Row, attempt: nat, maxAttempts: int, stamp: Time)
    requires attempt >= 1
    ensures Rests(row, Rescheduled(row, attempt, maxAttempts, stamp, CAUGHT), attempt < maxAttempts,
                  stamp + Doubling(attempt))
  {
    DoublingMeans(attempt);
  }

  /** The row that an undisturbed batch leaves behind, in these terms. */
  lemma SettledRowMeans(row: Row, now: Time, clock: Time, reply: Option<seq<Delivery>>) returns (longest: int)
    requires row.maxAttempts >= 1 && (reply.Some? ==> ProperCodes(reply.value))
    ensures var n := row.attempt + 1;
            var counted := row.(attempt := n);
            var row' := SettledRow(row, now, clock, reply);
            if reply.None? then Rests(counted, row', n < row.maxAttempts, clock + Doubling(n))
            else if SomeFailed(reply.value) then
              && (n < 5 && n < row.maxAttempts ==> IsLongest(longest, reply.value, n, clock))
              && Rests(counted, row', SomeWorthwhile(reply.value) && n < 5 && n < row.maxAttempts,
                       clock + if longest == 0 then Doubling(n) else longest)
            else row' == counted.(status := COMPLETED, lockedAt := None)
  {
    longest := 0;
    var n, locked := row.attempt + 1, Locked(row, now);
    if reply.None? {
      ThrowsLeave(locked, n, row.maxAttempts, clock);
    } else if SomeFailed(reply.value) {
      longest := FailuresLeave(locked, reply.value, n, row.maxAttempts, clock);
      assert !AllSucceeded(reply.value);
    } else {
      assert AllSucceeded(reply.value);
    }
  }
}
