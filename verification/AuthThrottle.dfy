/** The throttle on failed logins and bootstraps: a map of failure records with lazy deletion, pruning and
    eviction. Entries keep their order of insertion. */
module AuthThrottle {
  import opened Common
  import Runs

  type Time = nat

  datatype Action = LOGIN | BOOTSTRAP

  /** The keyed hash of action and normalized identifier; equal hashes mean equal pairs. */
  datatype Key = Key(action: Action, identifier: nat)

  datatype Limits = Limits(maxFailures: nat, window: Time, blockDuration: Time)

  function LimitsOf(action: Action): Limits {
    match action
    case LOGIN => Limits(5, 15 * 60 * 1000, 15 * 60 * 1000)
    case BOOTSTRAP => Limits(3, 30 * 60 * 1000, 30 * 60 * 1000)
  }

  const MAX_WINDOW: Time := 30 * 60 * 1000

  /** `blockedUntil` is 0 for a record that is not blocked. */
  datatype Record = Record(failureCount: nat, firstFailureAt: Time, blockedUntil: Time, lastAttemptAt: Time)

  /** `records` as a map, with its keys in insertion order. */
  datatype Table = Table(records: map<Key, Record>, order: seq<Key>)

  const EMPTY := Table(map[], [])

  predicate Distinct(order: seq<Key>) {
    forall i, j :: 0 <= i < j < |order| ==> order[i] != order[j]
  }

  ghost predicate ValidTable(t: Table) {
    Distinct(t.order) && forall k :: k in t.order <==> k in t.records
  }

  function Find(records: map<Key, Record>, key: Key): Option<Record> {
    if key in records then Some(records[key]) else None
  }

  // ----- One record ---------------------------------------------------------------------------

  /** The seconds to wait that a blocked attempt is told; nothing if the attempt is allowed. */
  function RetryAfter(record: Option<Record>, now: Time): Option<nat> {
    if record.None? || record.value.blockedUntil <= now then None
    else Some((record.value.blockedUntil - now + 999) / 1000)
  }

  function FirstFailure(now: Time): Record {
    Record(1, now, 0, now)
  }

  /** The record after one more failure. */
  function Failed(record: Option<Record>, limits: Limits, now: Time): Record {
    match record
    case None => FirstFailure(now)
    case Some(r) =>
      if r.blockedUntil > 0 && now >= r.blockedUntil then FirstFailure(now)
      else if r.blockedUntil == 0 && now - r.firstFailureAt >= limits.window then FirstFailure(now)
      else
        Record(r.failureCount + 1, r.firstFailureAt,
               if r.failureCount + 1 >= limits.maxFailures then now + limits.blockDuration else r.blockedUntil, now)
  }

  /** What `assertAllowed` deletes. */
  predicate Lapsed(r: Record, limits: Limits, now: Time) {
    now - r.firstFailureAt >= limits.window && r.blockedUntil <= now
  }

  /** What `pruneExpired` deletes. */
  predicate Expired(r: Record, now: Time) {
    if r.blockedUntil > 0 then now >= r.blockedUntil else now - r.firstFailureAt >= MAX_WINDOW
  }

  // ----- The table ----------------------------------------------------------------------------

  /** The table cut down to a smaller map. */
  function Cut(t: Table, records: map<Key, Record>): Table {
    Table(records, Filter(t.order, records))
  }

  function Without(t: Table, key: Key): Table {
    Cut(t, t.records - {key})
  }

  /** The keys that are still in the map, in their order. */
  function Filter(order: seq<Key>, records: map<Key, Record>): seq<Key> {
    if order == [] then []
    else Filter(order[..|order| - 1], records) + if order[|order| - 1] in records then [order[|order| - 1]] else []
  }

  function Unexpired(records: map<Key, Record>, now: Time): map<Key, Record> {
    map k | k in records && !Expired(records[k], now) :: records[k]
  }

  function Pruned(t: Table, now: Time): Table {
    Cut(t, Unexpired(t.records, now))
  }

  function LastAttempt(records: map<Key, Record>, key: Key): Time {
    if key in records then records[key].lastAttemptAt else 0
  }

  /** The key with the earliest last attempt, the first inserted among equals. */
  function Oldest(order: seq<Key>, records: map<Key, Record>): (k: Key)
    requires order != []
    ensures k in order
  {
    var last := order[|order| - 1];
    if |order| == 1 then last
    else
      var best := Oldest(order[..|order| - 1], records);
      if LastAttempt(records, last) < LastAttempt(records, best) then last else best
  }

  /** Room for one more entry: prune when full, then evict when still full. */
  function Room(t: Table, now: Time, maxEntries: nat): Table {
    if |t.records| < maxEntries then t
    else
      var p := Pruned(t, now);
      if |p.records| < maxEntries || p.order == [] then p else Without(p, Oldest(p.order, p.records))
  }

  datatype Op = Check(key: Key) | Fail(key: Key) | Succeed(key: Key) | Prune

  datatype Event = Event(op: Op, now: Time)

  function Apply(t: Table, e: Event, maxEntries: nat): Table {
    match e.op
    case Check(key) =>
      if key in t.records && Lapsed(t.records[key], LimitsOf(key.action), e.now) then Without(t, key) else t
    case Fail(key) =>
      if key in t.records then
        t.(records := t.records[key := Failed(Some(t.records[key]), LimitsOf(key.action), e.now)])
      else
        var room := Room(t, e.now, maxEntries);
        Table(room.records[key := FirstFailure(e.now)], room.order + [key])
    case Succeed(key) => Without(t, key)
    case Prune => Pruned(t, e.now)
  }

  // ----- Tables stay tables -------------------------------------------------------------------

  lemma {:induction false} FilterKeeps(order: seq<Key>, records: map<Key, Record>)
    requires Distinct(order)
    ensures Distinct(Filter(order, records))
    ensures forall k :: k in Filter(order, records) <==> k in order && k in records
  {
    if order != [] {
      var init, last := order[..|order| - 1], order[|order| - 1];
      FilterKeeps(init, records);
      assert order == init + [last];
      assert last !in init;
    }
  }

  lemma CutKeepsTable(t: Table, records: map<Key, Record>)
    requires ValidTable(t) && records.Keys <= t.records.Keys
    ensures ValidTable(Cut(t, records))
  {
    FilterKeeps(t.order, records);
  }

  lemma RoomKeepsTable(t: Table, now: Time, maxEntries: nat)
    requires ValidTable(t)
    ensures ValidTable(Room(t, now, maxEntries))
  {
    var p := Pruned(t, now);
    CutKeepsTable(t, p.records);
    if p.order != [] { CutKeepsTable(p, p.records - {Oldest(p.order, p.records)}); }
  }

  lemma RoomOnlyDeletes(t: Table, now: Time, maxEntries: nat, k: Key)
    requires ValidTable(t) && k in Room(t, now, maxEntries).records
    ensures k in t.records && Room(t, now, maxEntries).records[k] == t.records[k]
  {
  }

  lemma InsertKeepsTable(t: Table, key: Key, r: Record)
    requires ValidTable(t) && key !in t.records
    ensures ValidTable(Table(t.records[key := r], t.order + [key]))
  {
  }

  lemma UpdateKeepsTable(t: Table, key: Key, r: Record)
    requires ValidTable(t) && key in t.records
    ensures ValidTable(t.(records := t.records[key := r]))
  {
  }

  lemma FailKeepsTable(t: Table, key: Key, now: Time, maxEntries: nat)
    requires ValidTable(t)
    ensures ValidTable(Apply(t, Event(Fail(key), now), maxEntries))
  {
    if key in t.records {
      UpdateKeepsTable(t, key, Failed(Some(t.records[key]), LimitsOf(key.action), now));
    } else {
      RoomKeepsTable(t, now, maxEntries);
      InsertKeepsTable(Room(t, now, maxEntries), key, FirstFailure(now));
    }
  }

  lemma ApplyKeepsTable(t: Table, e: Event, maxEntries: nat)
    requires ValidTable(t)
    ensures ValidTable(Apply(t, e, maxEntries))
  {
    match e.op {
      case Check(key) => CutKeepsTable(t, t.records - {key});
      case Fail(key) => FailKeepsTable(t, key, e.now, maxEntries);
      case Succeed(key) => CutKeepsTable(t, t.records - {key});
      case Prune => CutKeepsTable(t, Unexpired(t.records, e.now));
    }
  }

  // ----- Runs ---------------------------------------------------------------------------------

  function Step(maxEntries: nat): (Table, Event) -> Table {
    (t, e) => Apply(t, e, maxEntries)
  }

  function Run(events: seq<Event>, maxEntries: nat): Table {
    Runs.Iterate(Step(maxEntries), EMPTY, events)
  }

  lemma {:induction false} RunIsTable(events: seq<Event>, maxEntries: nat)
    ensures ValidTable(Run(events, maxEntries))
  {
    if events != [] {
      RunIsTable(events[..|events| - 1], maxEntries);
      ApplyKeepsTable(Run(events[..|events| - 1], maxEntries), events[|events| - 1], maxEntries);
    }
  }

  predicate ClockMonotone(events: seq<Event>) {
    forall i, j :: 0 <= i < j < |events| ==> events[i].now <= events[j].now
  }

  predicate NotBefore(now: Time, events: seq<Event>) {
    events != [] ==> events[|events| - 1].now <= now
  }
}
