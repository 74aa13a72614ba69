/** The throttle service as code over its mutable map, against the functions of module AuthThrottle. */
module AuthThrottleService {
  import opened Common
  import opened AuthThrottle

  lemma {:induction false} FilterIdentity(order: seq<Key>, records: map<Key, Record>)
    requires forall k :: k in order ==> k in records
    ensures Filter(order, records) == order
  {
    if order != [] {
      FilterIdentity(order[..|order| - 1], records);
      assert order == order[..|order| - 1] + [order[|order| - 1]];
    }
  }

  lemma {:induction false} FilterTwice(order: seq<Key>, large: map<Key, Record>, small: map<Key, Record>)
    requires small.Keys <= large.Keys
    ensures Filter(Filter(order, large), small) == Filter(order, small)
  {
    if order != [] {
      var init, last := order[..|order| - 1], order[|order| - 1];
      FilterTwice(init, large, small);
      var f := Filter(init, large);
      assert f + [] == f && Filter(init, small) + [] == Filter(init, small);
      assert (f + [last])[..|f|] == f && (f + [last])[|f|] == last;
    }
  }

  /** `after` is what is left of `before` when the first i keys have been looked at. */
  predicate Judged(before: map<Key, Record>, after: map<Key, Record>, keys: seq<Key>, i: nat, now: Time) {
    && (forall k :: k in after ==> k in before && after[k] == before[k])
    && (forall j :: 0 <= j < |keys| ==>
          keys[j] in before && (keys[j] in after <==> !(j < i && Expired(before[keys[j]], now))))
  }

  lemma JudgeStep(before: map<Key, Record>, after: map<Key, Record>, keys: seq<Key>, i: nat, now: Time)
    requires Judged(before, after, keys, i, now) && i < |keys| && Distinct(keys)
    ensures keys[i] in after && after[keys[i]] == before[keys[i]]
    ensures Judged(before, if Expired(after[keys[i]], now) then after - {keys[i]} else after, keys, i + 1, now)
  {
  }

  lemma AllJudged(before: map<Key, Record>, after: map<Key, Record>, keys: seq<Key>, now: Time)
    requires forall k :: k in before ==> k in keys
    requires Judged(before, after, keys, |keys|, now)
    ensures after == Unexpired(before, now)
  {
    forall k | k in before
      ensures k in after <==> !Expired(before[k], now)
    {
      var j :| 0 <= j < |keys| && keys[j] == k;
    }
  }

  lemma DeleteFilters(keys: seq<Key>, order: seq<Key>, records: map<Key, Record>, key: Key)
    requires order == Filter(keys, records) && ValidTable(Table(records, order)) && key in records
    ensures Filter(order, records - {key}) == Filter(keys, records - {key})
    ensures |Filter(order, records - {key})| == |order| - 1
  {
    FilterTwice(keys, records, records - {key});
    DeleteShortens(order, key, records);
  }

  /** No attempt on any record is earlier, and on those inserted before it every one is later. */
  predicate EarliestFirst(order: seq<Key>, records: map<Key, Record>, key: Key)
    requires key in records && forall i :: 0 <= i < |order| ==> order[i] in records
  {
    exists i :: 0 <= i < |order| && IsEarliest(order, records, i) && order[i] == key
  }

  predicate IsEarliest(order: seq<Key>, records: map<Key, Record>, i: int)
    requires 0 <= i < |order| && forall j :: 0 <= j < |order| ==> order[j] in records
  {
    && (forall j :: 0 <= j < i ==> records[order[j]].lastAttemptAt > records[order[i]].lastAttemptAt)
    && (forall j :: i <= j < |order| ==> records[order[j]].lastAttemptAt >= records[order[i]].lastAttemptAt)
  }

  lemma {:induction false} OldestMeans(order: seq<Key>, records: map<Key, Record>) returns (i: int)
    requires order != [] && forall j :: 0 <= j < |order| ==> order[j] in records
    ensures 0 <= i < |order| && order[i] == Oldest(order, records) && IsEarliest(order, records, i)
  {
    var n := |order| - 1;
    if n == 0 {
      i := 0;
    } else {
      i := OldestMeans(order[..n], records);
      assert forall j :: 0 <= j < n ==> order[..n][j] == order[j];
      if records[order[n]].lastAttemptAt < records[order[i]].lastAttemptAt { i := n; }
    }
  }

  class ThrottleService {
    var records: map<Key, Record>
    /** The keys of `records` in insertion order. */
    var order: seq<Key>
    const maxEntries: nat

    constructor (maxEntries: nat)
      ensures State() == EMPTY && this.maxEntries == maxEntries
    {
      records, order, this.maxEntries := map[], [], maxEntries;
    }

    function State(): Table
      reads this
    {
      Table(records, order)
    }

    ghost predicate Valid()
      reads this
    {
      ValidTable(State())
    }

    method Delete(key: Key)
      requires Valid()
      modifies this
      ensures Valid() && State() == Without(old(State()), key)
    {
      CutKeepsTable(State(), records - {key});
      records := records - {key};
      order := Filter(order, records);
    }

    /** Nothing if the attempt is allowed, the seconds to wait otherwise; lapsed records go. */
    method AssertAllowed(key: Key, now: Time) returns (retryAfter: Option<nat>)
      requires Valid()
      modifies this
      ensures Valid() && State() == Apply(old(State()), Event(Check(key), now), maxEntries)
      ensures retryAfter == RetryAfter(Find(old(records), key), now)
      ensures retryAfter.Some? <==> key in old(records) && now < old(records)[key].blockedUntil
      ensures retryAfter.Some? ==>
                1000 * (retryAfter.value - 1) < old(records)[key].blockedUntil - now <= 1000 * retryAfter.value
    {
      if key !in records { return None; }
      var record := records[key];
      if record.blockedUntil > now {
        var seconds := (record.blockedUntil - now + 999) / 1000;
        return Some(if seconds > 1 then seconds else 1);
      }
      if now - record.firstFailureAt >= LimitsOf(key.action).window && record.blockedUntil <= now { Delete(key); }
      retryAfter := None;
    }

    /** Deletes while iterating over the keys that were there. */
    method PruneExpired(now: Time) returns (deleted: nat)
      requires Valid()
      modifies this
      ensures Valid() && State() == Pruned(old(State()), now)
      ensures |old(order)| == |order| + deleted
      ensures forall k :: k in records <==>
                && k in old(records)
                && var r := old(records)[k];
                   if r.blockedUntil > 0 then now < r.blockedUntil else now - r.firstFailureAt < 1_800_000
    {
      var keys := order;
      var before := records;
      FilterIdentity(keys, before);
      var i := 0;
      deleted := 0;
      while i < |keys|
        invariant 0 <= i <= |keys| && Valid()
        invariant Judged(before, records, keys, i, now)
        invariant order == Filter(keys, records)
        invariant |keys| == |order| + deleted
      {
        JudgeStep(before, records, keys, i, now);
        if Expired(records[keys[i]], now) {
          DeleteFilters(keys, order, records, keys[i]);
          Delete(keys[i]);
          deleted := deleted + 1;
        }
        i := i + 1;
      }
      AllJudged(before, records, keys, now);
    }

    /** The key with the oldest last attempt, scanning in insertion order. */
    method FindOldest() returns (oldest: Option<Key>)
      requires Valid()
      ensures oldest == if order == [] then None else Some(Oldest(order, records))
      ensures oldest.Some? ==> oldest.value in records && EarliestFirst(order, records, oldest.value)
    {
      oldest := None;
      var i := 0;
      while i < |order|
        invariant 0 <= i <= |order|
        invariant oldest == if i == 0 then None else Some(Oldest(order[..i], records))
      {
        assert order[..i + 1][..i] == order[..i];
        if oldest.None? || records[order[i]].lastAttemptAt < records[oldest.value].lastAttemptAt {
          oldest := Some(order[i]);
        }
        i := i + 1;
      }
      assert order[..i] == order;
      if order != [] { var k := OldestMeans(order, records); }
    }

    method EnsureCapacity(now: Time)
      requires Valid()
      modifies this
      ensures Valid() && State() == Room(old(State()), now, maxEntries)
    {
      if |records| < maxEntries { return; }
      var _ := PruneExpired(now);
      if |records| < maxEntries { return; }
      var oldest := FindOldest();
      if oldest.Some? { Delete(oldest.value); }
    }

    method RecordFailure(key: Key, now: Time)
      requires Valid()
      modifies this
      ensures Valid() && State() == Apply(old(State()), Event(Fail(key), now), maxEntries)
    {
      var limits := LimitsOf(key.action);
      ApplyKeepsTable(State(), Event(Fail(key), now), maxEntries);
      if key !in records {
        RoomKeepsTable(State(), now, maxEntries);
        EnsureCapacity(now);
        records, order := records[key := FirstFailure(now)], order + [key];
        return;
      }
      var record := records[key];
      if record.blockedUntil > 0 && now >= record.blockedUntil {
        records := records[key := FirstFailure(now)];
        return;
      }
      if record.blockedUntil == 0 && now - record.firstFailureAt >= limits.window {
        records := records[key := FirstFailure(now)];
        return;
      }
      record := record.(failureCount := record.failureCount + 1, lastAttemptAt := now);
      if record.failureCount >= limits.maxFailures {
        record := record.(blockedUntil := now + limits.blockDuration);
      }
      records := records[key := record];
    }

    method RecordSuccess(key: Key, now: Time)
      requires Valid()
      modifies this
      ensures Valid() && State() == Apply(old(State()), Event(Succeed(key), now), maxEntries)
    {
      Delete(key);
    }
  }

  lemma {:induction false} DeleteShortens(order: seq<Key>, key: Key, records: map<Key, Record>)
    requires Distinct(order) && key in order && forall k :: k in order ==> k in records
    ensures |Filter(order, records - {key})| == |order| - 1
  {
    var init, last := order[..|order| - 1], order[|order| - 1];
    assert order == init + [last];
    if last == key {
      assert forall k :: k in init ==> k in records - {key};
      FilterIdentity(init, records - {key});
    } else {
      DeleteShortens(init, key, records);
    }
  }
}
