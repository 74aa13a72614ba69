/** The throttle against a reference that never deletes, and what every run keeps even under eviction. */
module AuthThrottleTheorems {
  import opened Common
  import opened AuthThrottle
  import opened Runs

  // ----- Reference ----------------------------------------------------------------------------

  /** The times of the failures of a key since its last success. */
  function FailTimes(events: seq<Event>, key: Key): seq<Time> {
    if events == [] then []
    else
      var before := FailTimes(events[..|events| - 1], key);
      var e := events[|events| - 1];
      if e.op == Fail(key) then before + [e.now] else if e.op == Succeed(key) then [] else before
  }

  /** The record of a key that is only ever deleted by a success. */
  function Reference(limits: Limits, times: seq<Time>): Option<Record> {
    if times == [] then None
    else Some(Failed(Reference(limits, times[..|times| - 1]), limits, times[|times| - 1]))
  }

  function ReferenceOf(events: seq<Event>, key: Key): Option<Record> {
    Reference(LimitsOf(key.action), FailTimes(events, key))
  }

  /** A record that no answer and no later failure can tell from an absent one. */
  predicate Invisible(r: Record, limits: Limits, now: Time) {
    if r.blockedUntil > 0 then now >= r.blockedUntil else now - r.firstFailureAt >= limits.window
  }

  lemma InvisibleMeans(r: Record, limits: Limits, now: Time, later: Time)
    requires Invisible(r, limits, now) && now <= later
    ensures Invisible(r, limits, later) && RetryAfter(Some(r), later) == RetryAfter(None, later)
    ensures Failed(Some(r), limits, later) == Failed(None, limits, later)
  {
  }

  lemma DeletedIsInvisible(r: Record, action: Action, now: Time)
    ensures Lapsed(r, LimitsOf(action), now) ==> Invisible(r, LimitsOf(action), now)
    ensures Expired(r, now) ==> Invisible(r, LimitsOf(action), now)
  {
  }

  /** What the table shows of a key: the reference record, or nothing when that is invisible. */
  predicate Shows(found: Option<Record>, reference: Option<Record>, limits: Limits, now: Time) {
    found == reference || (found.None? && reference.Some? && Invisible(reference.value, limits, now))
  }

  /** The step makes room for another key by dropping this key's record, which still counts. */
  predicate Loses(t: Table, e: Event, maxEntries: nat, key: Key) {
    && e.op.Fail? && e.op.key !in t.records
    && key in t.records && key !in Room(t, e.now, maxEntries).records
    && !Invisible(t.records[key], LimitsOf(key.action), e.now)
  }

  /** No step loses this key; others may be evicted at will. */
  predicate NeverLost(events: seq<Event>, maxEntries: nat, key: Key) {
    events != [] ==>
      && !Loses(Run(events[..|events| - 1], maxEntries), events[|events| - 1], maxEntries, key)
      && NeverLost(events[..|events| - 1], maxEntries, key)
  }

  lemma KeptOrInvisible(t: Table, e: Event, maxEntries: nat, key: Key)
    requires ValidTable(t) && !Loses(t, e, maxEntries, key) && key in t.records && e.op != Succeed(key)
             && e.op != Fail(key)
    ensures var found' := Find(Apply(t, e, maxEntries).records, key);
            found' == Some(t.records[key]) || (found' == None && Invisible(t.records[key], LimitsOf(key.action), e.now))
  {
    DeletedIsInvisible(t.records[key], key.action, e.now);
    if e.op.Fail? && key in Room(t, e.now, maxEntries).records { RoomOnlyDeletes(t, e.now, maxEntries, key); }
  }

  lemma NotFoundStays(t: Table, e: Event, maxEntries: nat, key: Key)
    requires ValidTable(t) && key !in t.records && e.op != Fail(key)
    ensures key !in Apply(t, e, maxEntries).records
  {
    if e.op.Fail? && key in Room(t, e.now, maxEntries).records { RoomOnlyDeletes(t, e.now, maxEntries, key); }
  }

  function Reference'(reference: Option<Record>, e: Event, key: Key): Option<Record> {
    if e.op == Fail(key) then Some(Failed(reference, LimitsOf(key.action), e.now))
    else if e.op == Succeed(key) then None
    else reference
  }

  /** One step for one key, whichever key the step is about. */
  lemma StepShows(t: Table, e: Event, maxEntries: nat, key: Key, reference: Option<Record>, before: Time)
    requires ValidTable(t) && !Loses(t, e, maxEntries, key) && before <= e.now
    requires Shows(Find(t.records, key), reference, LimitsOf(key.action), before)
    ensures Shows(Find(Apply(t, e, maxEntries).records, key), Reference'(reference, e, key), LimitsOf(key.action),
                  e.now)
  {
    if e.op != Fail(key) && e.op != Succeed(key) {
      if key in t.records { KeptOrInvisible(t, e, maxEntries, key); } else { NotFoundStays(t, e, maxEntries, key); }
    }
    if key !in t.records && reference.Some? { InvisibleMeans(reference.value, LimitsOf(key.action), before, e.now); }
  }

  lemma {:induction false} RunShows(events: seq<Event>, maxEntries: nat, key: Key, now: Time)
    requires ClockMonotone(events) && NeverLost(events, maxEntries, key) && NotBefore(now, events)
    ensures Shows(Find(Run(events, maxEntries).records, key), ReferenceOf(events, key), LimitsOf(key.action), now)
  {
    if events != [] {
      var earlier, e := events[..|events| - 1], events[|events| - 1];
      var before := if earlier == [] then 0 else earlier[|earlier| - 1].now;
      RunShows(earlier, maxEntries, key, before);
      RunIsTable(earlier, maxEntries);
      StepShows(Run(earlier, maxEntries), e, maxEntries, key, ReferenceOf(earlier, key), before);
      ReferenceStep(events, key);
      var reference := ReferenceOf(events, key);
      if reference.Some? && Invisible(reference.value, LimitsOf(key.action), e.now) {
        InvisibleMeans(reference.value, LimitsOf(key.action), e.now, now);
      }
    }
  }

  lemma ReferenceStep(events: seq<Event>, key: Key)
    requires events != []
    ensures var e := events[|events| - 1];
            ReferenceOf(events, key) == Reference'(ReferenceOf(events[..|events| - 1], key), e, key)
  {
    var e := events[|events| - 1];
    var before := FailTimes(events[..|events| - 1], key);
    if e.op == Fail(key) { assert (before + [e.now])[..|before|] == before; }
  }

  lemma ShownAnswersAgree(found: Option<Record>, reference: Option<Record>, limits: Limits, now: Time)
    requires Shows(found, reference, limits, now)
    ensures RetryAfter(found, now) == RetryAfter(reference, now)
  {
    if reference.Some? && Invisible(reference.value, limits, now) { InvisibleMeans(reference.value, limits, now, now); }
  }

  /** After any operations under a clock that never runs backwards, whatever other keys were evicted, a key
      that was not lost gets at every later time the answer of the reference, to the second. */
  lemma ThrottleRefinesReference(events: seq<Event>, maxEntries: nat, key: Key, now: Time)
    requires ClockMonotone(events) && NeverLost(events, maxEntries, key) && NotBefore(now, events)
    ensures RetryAfter(Find(Run(events, maxEntries).records, key), now) == RetryAfter(ReferenceOf(events, key), now)
  {
    RunShows(events, maxEntries, key, now);
    ShownAnswersAgree(Find(Run(events, maxEntries).records, key), ReferenceOf(events, key), LimitsOf(key.action), now);
  }

  // ----- What eviction changes ----------------------------------------------------------------

  /** Making room drops a record that has not expired exactly if the table is full without the expired ones
      too and the record's last attempt is the oldest. */
  lemma RoomDropsOldest(t: Table, now: Time, maxEntries: nat, key: Key)
    requires ValidTable(t) && key in t.records && !Expired(t.records[key], now)
    ensures var p := Pruned(t, now);
            key !in Room(t, now, maxEntries).records <==>
              |t.records| >= maxEntries && |p.records| >= maxEntries && p.order != []
              && key == Oldest(p.order, p.records)
  {
    CutKeepsTable(t, Pruned(t, now).records);
  }

  /** Another key's failure changes this key's answer at that moment exactly if it drops a blocked record. */
  lemma EvictionLiftsBlockIff(t: Table, other: Key, now: Time, maxEntries: nat, key: Key)
    requires ValidTable(t) && other != key
    ensures var t' := Apply(t, Event(Fail(other), now), maxEntries);
            RetryAfter(Find(t'.records, key), now) == RetryAfter(Find(t.records, key), now)
            <==> !(&& other !in t.records && key in t.records && key !in Room(t, now, maxEntries).records
                   && t.records[key].blockedUntil > now)
  {
    if key in Room(t, now, maxEntries).records { RoomOnlyDeletes(t, now, maxEntries, key); }
  }

  /** The record after n more failures at one moment. */
  function FailAgain(record: Option<Record>, limits: Limits, now: Time, n: nat): Option<Record> {
    if n == 0 then record else Some(Failed(FailAgain(record, limits, now, n - 1), limits, now))
  }

  /** Two records that no number of further failures at this moment tells apart. */
  ghost predicate Alike(a: Option<Record>, b: Option<Record>, limits: Limits, now: Time) {
    forall n: nat :: RetryAfter(FailAgain(a, limits, now, n), now) == RetryAfter(FailAgain(b, limits, now, n), now)
  }

  lemma {:induction false} InvisibleIsAlike(r: Record, limits: Limits, now: Time, n: nat)
    requires Invisible(r, limits, now)
    ensures n > 0 ==> FailAgain(Some(r), limits, now, n) == FailAgain(None, limits, now, n)
    ensures RetryAfter(FailAgain(Some(r), limits, now, n), now) == RetryAfter(FailAgain(None, limits, now, n), now)
  {
    InvisibleMeans(r, limits, now, now);
    if n > 1 { InvisibleIsAlike(r, limits, now, n - 1); }
    if n == 1 {
      assert FailAgain(Some(r), limits, now, 0) == Some(r) && FailAgain(None, limits, now, 0) == None;
    }
  }

  lemma {:induction false} FailAgainCounts(r: Record, action: Action, now: Time, n: nat)
    requires r.blockedUntil == 0 && !Invisible(r, LimitsOf(action), now)
             && r.failureCount + n < LimitsOf(action).maxFailures
    ensures FailAgain(Some(r), LimitsOf(action), now, n).Some?
    ensures var f := FailAgain(Some(r), LimitsOf(action), now, n).value;
            && f.blockedUntil == 0 && f.firstFailureAt == r.firstFailureAt && f.failureCount == r.failureCount + n
  {
    if n > 0 { FailAgainCounts(r, action, now, n - 1); }
  }

  /** A record that still counts shows sooner or later: at once if it blocks, else after the failures that are
      missing to a block. */
  lemma LossShows(r: Record, action: Action, times: seq<Time>, now: Time)
    requires Earned(r, LimitsOf(action), times) && !Invisible(r, LimitsOf(action), now)
    ensures !Alike(Some(r), None, LimitsOf(action), now)
  {
    var limits := LimitsOf(action);
    if r.blockedUntil > 0 {
      assert RetryAfter(FailAgain(Some(r), limits, now, 0), now) != RetryAfter(FailAgain(None, limits, now, 0), now);
    } else {
      var n := limits.maxFailures - r.failureCount;
      FailAgainCounts(r, action, now, n - 1);
      assert RetryAfter(FailAgain(Some(r), limits, now, n), now).Some?;
      assert FailAgain(None, limits, now, 1) == Some(FirstFailure(now)) by {
        assert FailAgain(None, limits, now, 0) == None;
      }
      FreshCounts(action, now, n);
      assert RetryAfter(FailAgain(None, limits, now, n), now).None?;
    }
  }

  lemma {:induction false} FreshCounts(action: Action, now: Time, n: nat)
    requires 1 <= n < LimitsOf(action).maxFailures
    ensures FailAgain(None, LimitsOf(action), now, n) == Some(Record(n, now, 0, now))
  {
    if n > 1 { FreshCounts(action, now, n - 1); }
    if n == 1 { assert FailAgain(None, LimitsOf(action), now, 0) == None; }
  }

  /** As long as a key was never lost, one more operation keeps it like the reference, now and after any
      further failures, if and only if that operation does not lose it. */
  lemma RefinesIffNotLost(events: seq<Event>, e: Event, maxEntries: nat, key: Key)
    requires ClockMonotone(events) && NeverLost(events, maxEntries, key) && NotBefore(e.now, events)
    ensures Alike(Find(Apply(Run(events, maxEntries), e, maxEntries).records, key),
                  Reference'(ReferenceOf(events, key), e, key), LimitsOf(key.action), e.now)
            <==> !Loses(Run(events, maxEntries), e, maxEntries, key)
  {
    var t, limits, reference := Run(events, maxEntries), LimitsOf(key.action), ReferenceOf(events, key);
    RunShows(events, maxEntries, key, e.now);
    RunIsTable(events, maxEntries);
    RecordsAreEarned(events, maxEntries, key);
    if Loses(t, e, maxEntries, key) {
      LossShows(t.records[key], key.action, FailTimes(events, key), e.now);
      AlikeSwaps(Some(t.records[key]), None, limits, e.now);
    } else {
      StepShows(t, e, maxEntries, key, reference, e.now);
      ShownIsAlike(Find(Apply(t, e, maxEntries).records, key), Reference'(reference, e, key), limits, e.now);
    }
  }

  lemma AlikeSwaps(a: Option<Record>, b: Option<Record>, limits: Limits, now: Time)
    ensures Alike(a, b, limits, now) <==> Alike(b, a, limits, now)
  {
  }

  lemma ShownIsAlike(found: Option<Record>, reference: Option<Record>, limits: Limits, now: Time)
    requires Shows(found, reference, limits, now)
    ensures Alike(found, reference, limits, now)
  {
    if found != reference {
      forall n: nat
        ensures RetryAfter(FailAgain(found, limits, now, n), now)
                == RetryAfter(FailAgain(reference, limits, now, n), now)
      {
        InvisibleIsAlike(reference.value, limits, now, n);
      }
    }
  }

  // ----- Size ---------------------------------------------------------------------------------

  lemma SubmapSize(small: map<Key, Record>, large: map<Key, Record>)
    requires small.Keys <= large.Keys
    ensures |small| <= |large|
  {
    SubsetSize(small.Keys, large.Keys);
    assert |small| == |small.Keys| && |large| == |large.Keys|;
  }

  lemma {:induction false} SubsetSize(a: set<Key>, b: set<Key>)
    requires a <= b
    ensures |a| <= |b|
  {
    if a != {} {
      var k :| k in a;
      SubsetSize(a - {k}, b - {k});
    }
  }

  lemma RoomMakesRoom(t: Table, now: Time, maxEntries: nat)
    requires ValidTable(t) && |t.records| <= maxEntries && maxEntries >= 1
    ensures |Room(t, now, maxEntries).records| < maxEntries
  {
    var p := Pruned(t, now);
    CutKeepsTable(t, p.records);
    SubmapSize(p.records, t.records);
    if p.order != [] {
      var k := Oldest(p.order, p.records);
      assert (p.records - {k}).Keys == p.records.Keys - {k};
      assert |(p.records - {k})| == |(p.records - {k}).Keys| && |p.records| == |p.records.Keys|;
    } else {
      assert p.records.Keys == {};
    }
  }

  lemma InsertSize(records: map<Key, Record>, key: Key, r: Record)
    ensures |records[key := r]| <= |records| + 1
    ensures key in records ==> |records[key := r]| == |records|
  {
    assert records[key := r].Keys == records.Keys + {key};
    assert |records[key := r]| == |records[key := r].Keys| && |records| == |records.Keys|;
    if key in records { assert records.Keys + {key} == records.Keys; }
  }

  lemma FailureFits(t: Table, key: Key, now: Time, maxEntries: nat)
    requires ValidTable(t) && |t.records| <= maxEntries && maxEntries >= 1
    ensures |Apply(t, Event(Fail(key), now), maxEntries).records| <= maxEntries
  {
    if key in t.records {
      InsertSize(t.records, key, Failed(Some(t.records[key]), LimitsOf(key.action), now));
    } else {
      RoomMakesRoom(t, now, maxEntries);
      InsertSize(Room(t, now, maxEntries).records, key, FirstFailure(now));
    }
  }

  lemma OthersOnlyDelete(t: Table, e: Event, maxEntries: nat)
    requires !e.op.Fail?
    ensures Apply(t, e, maxEntries).records.Keys <= t.records.Keys
  {
  }

  lemma StepFits(t: Table, e: Event, maxEntries: nat)
    requires ValidTable(t) && |t.records| <= maxEntries && maxEntries >= 1
    ensures |Apply(t, e, maxEntries).records| <= maxEntries
  {
    if e.op.Fail? {
      FailureFits(t, e.op.key, e.now, maxEntries);
      assert e == Event(Fail(e.op.key), e.now);
    } else {
      OthersOnlyDelete(t, e, maxEntries);
      SubmapSize(Apply(t, e, maxEntries).records, t.records);
    }
  }

  /** The table never holds more than `maxEntries` records, whatever happens. */
  lemma {:induction false} SizeIsBounded(events: seq<Event>, maxEntries: nat)
    requires maxEntries >= 1
    ensures |Run(events, maxEntries).records| <= maxEntries
  {
    if events != [] {
      SizeIsBounded(events[..|events| - 1], maxEntries);
      RunIsTable(events[..|events| - 1], maxEntries);
      StepFits(Run(events[..|events| - 1], maxEntries), events[|events| - 1], maxEntries);
    }
  }

  // ----- Blocks are earned --------------------------------------------------------------------

  /** The failures from position s on are what a record counts: they start its window; a block needs
      maxFailures of them within the window, every further one during the block, and ends a block
      duration after the last. */
  predicate Counted(r: Record, limits: Limits, times: seq<Time>, s: nat) {
    && s < |times| && r.failureCount == |times| - s && limits.maxFailures >= 1
    && r.firstFailureAt == times[s] && r.lastAttemptAt == times[|times| - 1]
    && if r.blockedUntil == 0
       then r.failureCount < limits.maxFailures && times[|times| - 1] - times[s] < limits.window
       else
         && r.failureCount >= limits.maxFailures
         && times[s + limits.maxFailures - 1] - times[s] < limits.window
         && r.blockedUntil == times[|times| - 1] + limits.blockDuration
         && forall i :: s + limits.maxFailures <= i < |times| ==> DuringBlock(limits, times, i)
  }

  /** The i-th failure came before the block that the one before it set was over. */
  predicate DuringBlock(limits: Limits, times: seq<Time>, i: nat)
    requires 1 <= i < |times|
  {
    times[i] < times[i - 1] + limits.blockDuration
  }

  predicate Earned(r: Record, limits: Limits, times: seq<Time>) {
    r.failureCount <= |times| && Counted(r, limits, times, |times| - r.failureCount)
  }

  lemma FailedIsEarned(r: Record, action: Action, times: seq<Time>, now: Time)
    requires Earned(r, LimitsOf(action), times)
    ensures Earned(Failed(Some(r), LimitsOf(action), now), LimitsOf(action), times + [now])
  {
    assert forall i :: 1 <= i < |times| && DuringBlock(LimitsOf(action), times, i) ==>
        DuringBlock(LimitsOf(action), times + [now], i);
  }

  lemma StepEarns(t: Table, e: Event, maxEntries: nat, key: Key, times: seq<Time>)
    requires ValidTable(t)
    requires key in t.records ==> Earned(t.records[key], LimitsOf(key.action), times)
    ensures key in Apply(t, e, maxEntries).records ==>
              Earned(Apply(t, e, maxEntries).records[key], LimitsOf(key.action),
                     if e.op == Fail(key) then times + [e.now] else if e.op == Succeed(key) then [] else times)
  {
    if e.op.Fail? && key in Room(t, e.now, maxEntries).records { RoomOnlyDeletes(t, e.now, maxEntries, key); }
    if e.op == Fail(key) && key in t.records { FailedIsEarned(t.records[key], key.action, times, e.now); }
  }

  lemma {:induction false} RecordsAreEarned(events: seq<Event>, maxEntries: nat, key: Key)
    ensures var t := Run(events, maxEntries);
            key in t.records ==> Earned(t.records[key], LimitsOf(key.action), FailTimes(events, key))
  {
    if events != [] {
      var earlier := events[..|events| - 1];
      RecordsAreEarned(earlier, maxEntries, key);
      RunIsTable(earlier, maxEntries);
      StepEarns(Run(earlier, maxEntries), events[|events| - 1], maxEntries, key, FailTimes(earlier, key));
    }
  }

  /** Blocked until a block duration after the last failure, after enough failures in one window. */
  predicate RightlyBlocked(r: Record, limits: Limits, times: seq<Time>) {
    && times != [] && r.blockedUntil == times[|times| - 1] + limits.blockDuration
    && exists s :: 0 <= s < |times| && Counted(r, limits, times, s) && InOneWindow(limits, times, s)
  }

  predicate InOneWindow(limits: Limits, times: seq<Time>, s: nat) {
    && limits.maxFailures >= 1 && s + limits.maxFailures <= |times|
    && times[s + limits.maxFailures - 1] - times[s] < limits.window
  }

  /** A key is blocked only if, since its last success, maxFailures consecutive failures fell within one
      window and any later ones within the block; the block ends blockDuration after the last. */
  lemma BlocksAreEarned(events: seq<Event>, maxEntries: nat, key: Key, now: Time)
    ensures var found := Find(Run(events, maxEntries).records, key);
            RetryAfter(found, now).Some? ==> RightlyBlocked(found.value, LimitsOf(key.action), FailTimes(events, key))
  {
    RecordsAreEarned(events, maxEntries, key);
    var found := Find(Run(events, maxEntries).records, key);
    if RetryAfter(found, now).Some? {
      EarnedBlock(found.value, key.action, FailTimes(events, key));
    }
  }

  lemma EarnedBlock(r: Record, action: Action, times: seq<Time>)
    requires Earned(r, LimitsOf(action), times) && r.blockedUntil > 0
    ensures RightlyBlocked(r, LimitsOf(action), times)
  {
    var s := |times| - r.failureCount;
    assert Counted(r, LimitsOf(action), times, s) && InOneWindow(LimitsOf(action), times, s);
  }

  // ----- Exactly when a key is blocked --------------------------------------------------------

  predicate TimesMonotone(times: seq<Time>) {
    forall i, j :: 0 <= i < j < |times| ==> times[i] <= times[j]
  }

  /** The failures from s up to n belong together: within one window of the first while fewer than
      maxFailures, and after that each within the block that the one before it set. */
  predicate StaysOpen(limits: Limits, times: seq<Time>, s: nat, n: nat) {
    && s < n <= |times| && limits.maxFailures >= 1
    && if n - s < limits.maxFailures
       then times[n - 1] - times[s] < limits.window
       else
         && times[s + limits.maxFailures - 1] - times[s] < limits.window
         && forall i :: s + limits.maxFailures <= i < n ==> DuringBlock(limits, times, i)
  }

  /** ... and the failure at n no longer does. */
  predicate Closes(limits: Limits, times: seq<Time>, s: nat, n: nat) {
    && n < |times| && StaysOpen(limits, times, s, n)
    && if n - s < limits.maxFailures
       then times[n] - times[s] >= limits.window
       else times[n] >= times[n - 1] + limits.blockDuration
  }

  /** The failure at s opens a window: it is the first, or the one that the window before it no longer holds. */
  predicate Opens(limits: Limits, times: seq<Time>, s: nat) {
    s == 0 || exists p :: 0 <= p < s && Opens(limits, times, p) && Closes(limits, times, p, s)
  }

  /** Nothing before the failure at s counts any more. */
  predicate StartsWindow(limits: Limits, times: seq<Time>, s: nat)
    requires s < |times|
  {
    var earlier := Reference(limits, times[..s]);
    earlier.None? || Invisible(earlier.value, limits, times[s])
  }

  lemma ReferenceOfPrefix(limits: Limits, times: seq<Time>, n: nat)
    requires 1 <= n <= |times|
    ensures Reference(limits, times[..n]) == Some(Failed(Reference(limits, times[..n - 1]), limits, times[n - 1]))
  {
    assert times[..n][..n - 1] == times[..n - 1];
  }

  /** What the record of the first n failures says when they belong together from s on. */
  predicate CountsFrom(r: Record, limits: Limits, times: seq<Time>, s: nat, n: nat) {
    && s < n <= |times| && r.failureCount == n - s && r.firstFailureAt == times[s]
    && r.blockedUntil == if n - s < limits.maxFailures then 0 else times[n - 1] + limits.blockDuration
  }

  lemma {:induction false} OpenCounts(action: Action, times: seq<Time>, s: nat, n: nat)
    requires TimesMonotone(times) && StaysOpen(LimitsOf(action), times, s, n)
             && StartsWindow(LimitsOf(action), times, s)
    ensures Reference(LimitsOf(action), times[..n]).Some?
    ensures CountsFrom(Reference(LimitsOf(action), times[..n]).value, LimitsOf(action), times, s, n)
  {
    var limits := LimitsOf(action);
    ReferenceOfPrefix(limits, times, n);
    if n > s + 1 {
      OpenCounts(action, times, s, n - 1);
      assert n - s > limits.maxFailures ==> DuringBlock(limits, times, n - 1);
    }
  }

  lemma {:induction false} OpensStarts(action: Action, times: seq<Time>, s: nat)
    requires TimesMonotone(times) && s < |times| && Opens(LimitsOf(action), times, s)
    ensures StartsWindow(LimitsOf(action), times, s)
  {
    var limits := LimitsOf(action);
    if s == 0 {
      assert times[..0] == [];
    } else {
      var p :| 0 <= p < s && Opens(limits, times, p) && Closes(limits, times, p, s);
      OpensStarts(action, times, p);
      OpenCounts(action, times, p, s);
    }
  }

  /** The last n failures always belong to some window that is still open. */
  lemma {:induction false} SomeWindow(action: Action, times: seq<Time>, n: nat) returns (s: nat)
    requires TimesMonotone(times) && 1 <= n <= |times|
    ensures Opens(LimitsOf(action), times, s) && StaysOpen(LimitsOf(action), times, s, n)
  {
    var limits := LimitsOf(action);
    if n == 1 {
      s := 0;
    } else {
      s := SomeWindow(action, times, n - 1);
      if Closes(limits, times, s, n - 1) {
        assert Opens(limits, times, n - 1);
        s := n - 1;
      } else if n - s > limits.maxFailures {
        assert DuringBlock(limits, times, n - 1);
      }
    }
  }

  /** Enough failures from the opening of a window on, and now in the block after the last. */
  predicate Blocks(limits: Limits, times: seq<Time>, now: Time) {
    && times != [] && now < times[|times| - 1] + limits.blockDuration
    && exists s :: 0 <= s && s + limits.maxFailures <= |times|
         && Opens(limits, times, s) && StaysOpen(limits, times, s, |times|)
  }

  /** The reference blocks at `now` if and only if the failure times say so, told without any record. */
  lemma BlockedIff(action: Action, times: seq<Time>, now: Time)
    requires TimesMonotone(times)
    ensures RetryAfter(Reference(LimitsOf(action), times), now).Some? <==>
              Blocks(if action.LOGIN? then Limits(5, 900_000, 900_000) else Limits(3, 1_800_000, 1_800_000), times, now)
  {
    var limits := LimitsOf(action);
    assert times[..|times|] == times;
    if times != [] {
      var s := SomeWindow(action, times, |times|);
      OpensStarts(action, times, s);
      OpenCounts(action, times, s, |times|);
      if Blocks(limits, times, now) {
        var p :| 0 <= p && p + limits.maxFailures <= |times|
                 && Opens(limits, times, p) && StaysOpen(limits, times, p, |times|);
        OpensStarts(action, times, p);
        OpenCounts(action, times, p, |times|);
      }
    }
  }

  lemma {:induction false} FailTimesMonotone(events: seq<Event>, key: Key)
    requires ClockMonotone(events)
    ensures TimesMonotone(FailTimes(events, key))
  {
    if events != [] {
      FailTimesMonotone(events[..|events| - 1], key);
      FailTimesAreEvents(events[..|events| - 1], key, events[|events| - 1].now);
    }
  }

  /** The service blocks a key that was never lost at `now` if and only if its failures since the last success
      fill a window from its opening on and `now` is in the block after the last of them. */
  lemma ServiceBlocksIff(events: seq<Event>, maxEntries: nat, key: Key, now: Time)
    requires ClockMonotone(events) && NeverLost(events, maxEntries, key) && NotBefore(now, events)
    ensures RetryAfter(Find(Run(events, maxEntries).records, key), now).Some?
            <==> Blocks(if key.action.LOGIN? then Limits(5, 900_000, 900_000) else Limits(3, 1_800_000, 1_800_000),
                        FailTimes(events, key), now)
  {
    ThrottleRefinesReference(events, maxEntries, key, now);
    FailTimesMonotone(events, key);
    BlockedIff(key.action, FailTimes(events, key), now);
  }

  /** maxFailures failures within one window, counted from its opening, always block. */
  lemma FullWindowBlocks(action: Action, times: seq<Time>, s: nat, now: Time)
    requires TimesMonotone(times) && Opens(LimitsOf(action), times, s)
    requires |times| == s + LimitsOf(action).maxFailures && times[|times| - 1] - times[s] < LimitsOf(action).window
    ensures RetryAfter(Reference(LimitsOf(action), times), now).Some?
            <==> now < times[|times| - 1] + LimitsOf(action).blockDuration
  {
    BlockedIff(action, times, now);
    assert StaysOpen(LimitsOf(action), times, s, |times|);
  }

  /** A sliding window would be stricter: three bootstrap failures within two minutes need not block, if the
      first of them still belongs to an earlier window. */
  lemma SlidingWindowMayNotBlock() returns (times: seq<Time>)
    ensures |times| == 4 && TimesMonotone(times) && times[3] - times[1] <= 120_000
    ensures RetryAfter(Reference(LimitsOf(BOOTSTRAP), times), times[3]) == None
  {
    var limits := LimitsOf(BOOTSTRAP);
    times := [0, 1_740_000, 1_800_000, 1_860_000];
    BlockedIff(BOOTSTRAP, times, times[3]);
    assert !Closes(limits, times, 0, 1);
    assert !Opens(limits, times, 1);
    assert !StaysOpen(limits, times, 0, 4);
  }

  // ----- Waiting helps ------------------------------------------------------------------------

  predicate NoFailure(events: seq<Event>, key: Key) {
    forall i :: 0 <= i < |events| ==> events[i].op != Fail(key)
  }

  lemma StepOnlyDeletes(t: Table, e: Event, maxEntries: nat, key: Key)
    requires ValidTable(t) && e.op != Fail(key)
    ensures var found' := Find(Apply(t, e, maxEntries).records, key);
            found' == Find(t.records, key) || found' == None
  {
    if e.op.Fail? && key in Room(t, e.now, maxEntries).records { RoomOnlyDeletes(t, e.now, maxEntries, key); }
  }

  /** Operations without a failure of the key leave its record alone or delete it. */
  lemma {:induction false} RecordsOnlyGo(t: Table, more: seq<Event>, maxEntries: nat, key: Key)
    requires ValidTable(t) && NoFailure(more, key)
    ensures var t' := Iterate(Step(maxEntries), t, more);
            ValidTable(t') && (Find(t'.records, key) == Find(t.records, key) || Find(t'.records, key) == None)
  {
    if more != [] {
      var init := Iterate(Step(maxEntries), t, more[..|more| - 1]);
      RecordsOnlyGo(t, more[..|more| - 1], maxEntries, key);
      StepOnlyDeletes(init, more[|more| - 1], maxEntries, key);
      ApplyKeepsTable(init, more[|more| - 1], maxEntries);
    }
  }

  /** `found` is answered now with a number of seconds that is within the block duration and not one too
      many; whoever comes after them and finds `found'` is allowed. */
  predicate ExactAnswer(found: Option<Record>, found': Option<Record>, action: Action, now: Time, later: Time) {
    var answer := RetryAfter(found, now);
    answer.Some? ==>
      && 1 <= answer.value <= (if action.LOGIN? then 900 else 1800)
      && (later >= now + 1000 * answer.value ==> RetryAfter(found', later) == None)
      && RetryAfter(found, now + 1000 * (answer.value - 1)).Some?
  }

  lemma AnswerIsExact(found: Option<Record>, found': Option<Record>, action: Action, now: Time, later: Time)
    requires found' == found || found' == None
    requires Short(found, action, now)
    ensures ExactAnswer(found, found', action, now, later)
  {
  }

  predicate LastBefore(times: seq<Time>, now: Time) {
    times != [] ==> times[|times| - 1] <= now
  }

  predicate Short(found: Option<Record>, action: Action, now: Time) {
    RetryAfter(found, now).Some? ==> found.value.blockedUntil - now <= LimitsOf(action).blockDuration
  }

  lemma BlockIsShort(found: Option<Record>, action: Action, times: seq<Time>, now: Time)
    requires RetryAfter(found, now).Some? ==> RightlyBlocked(found.value, LimitsOf(action), times)
    requires LastBefore(times, now)
    ensures Short(found, action, now)
  {
  }

  /** No block lasts longer than its duration from now. */
  lemma BlocksAreShort(events: seq<Event>, maxEntries: nat, key: Key, now: Time)
    requires ClockMonotone(events) && NotBefore(now, events)
    ensures Short(Find(Run(events, maxEntries).records, key), key.action, now)
  {
    BlocksAreEarned(events, maxEntries, key, now);
    FailTimesAreEvents(events, key, now);
    BlockIsShort(Find(Run(events, maxEntries).records, key), key.action, FailTimes(events, key), now);
  }

  /** Who waits the reported seconds without another failure is allowed; one second less may not be enough,
      and no answer exceeds the block duration. */
  lemma WaitingUnblocks(events: seq<Event>, more: seq<Event>, maxEntries: nat, key: Key, now: Time, later: Time)
    requires ClockMonotone(events) && NotBefore(now, events) && NoFailure(more, key)
    ensures ExactAnswer(Find(Run(events, maxEntries).records, key), Find(Run(events + more, maxEntries).records, key),
                        key.action, now, later)
  {
    RunIsTable(events, maxEntries);
    RecordsOnlyGo(Run(events, maxEntries), more, maxEntries, key);
    IterateConcat(Step(maxEntries), EMPTY, events, more);
    BlocksAreShort(events, maxEntries, key, now);
    AnswerIsExact(Find(Run(events, maxEntries).records, key), Find(Run(events + more, maxEntries).records, key),
                  key.action, now, later);
  }

  lemma {:induction false} FailTimesAreEvents(events: seq<Event>, key: Key, now: Time)
    requires ClockMonotone(events) && NotBefore(now, events)
    ensures LastBefore(FailTimes(events, key), now)
  {
    if events != [] { FailTimesAreEvents(events[..|events| - 1], key, now); }
  }
}
