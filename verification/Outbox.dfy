/** The webhook outbox: event rows, and any number of batches that reclaim stale rows, select due ones
    and claim, dispatch and settle them one by one. Batches interleave between any two statements,
    statements may fail, and batches may crash. */
module Outbox {
  import opened Common
  import opened Backoff
  import opened WebhookPolicy
  import Runs

  type Time = int
  type EventId = nat
  type BatchId = nat

  const STALE: Time := 5 * 60_000
  const MAX_BACKOFF: int := 15 * 60_000

  datatype Status = PENDING | PROCESSING | COMPLETED | DEAD

  predicate Final(s: Status) {
    s == COMPLETED || s == DEAD
  }

  datatype Row = Row(
    status: Status, attempt: nat, maxAttempts: int, nextAttemptAt: Time, lockedAt: Option<Time>, createdAt: Time)

  /** What became of a dispatch: still open, lost with its batch, or settled after a reply (or without
      one, where something threw). */
  datatype Fate = Open | Lost | Settled(reply: Option<seq<Delivery>>)

  datatype Dispatch = Dispatch(at: Time, fate: Fate)

  /** An event as selected: its attempt count may be out of date by the time it is claimed. */
  datatype Candidate = Candidate(id: EventId, attempt: nat, maxAttempts: int)

  /** Program points of `processBatch`. `number` is the count a claim produced, which the code never
      sees; `stamp` is the time read for the reschedule write. */
  datatype Stage =
    | Reclaiming
    | Selecting
    | Claiming
    | Dispatching(number: nat)
    | Completing(number: nat, reply: seq<Delivery>)
    | Rescheduling(number: nat, stamp: Time, reply: seq<Delivery>)
    | Catching(number: nat, stamp: Time)

  /** `todo` starts with the event being worked on. */
  datatype Batch = Batch(now: Time, limit: nat, todo: seq<Candidate>, stage: Stage)
  {
    predicate Holds() {
      todo != [] && !stage.Reclaiming? && !stage.Selecting? && !stage.Claiming?
    }

    function Number(): nat
      requires Holds()
    {
      stage.number
    }

    /** The attempt number the code works with. */
    function Local(): nat
      requires todo != []
    {
      todo[0].attempt + 1
    }
  }

  /** `dispatches` records every claim of an event, in order. */
  datatype World = World(
    clock: Time, rows: map<EventId, Row>, batches: map<BatchId, Batch>, next: nat,
    dispatches: map<EventId, seq<Dispatch>>)
  {
    function End(b: BatchId): World {
      this.(batches := batches - {b})
    }

    function Goto(b: BatchId, batch: Batch, stage: Stage): World {
      this.(batches := batches[b := batch.(stage := stage)])
    }

    /** On to the next candidate, or done. */
    function Continue(b: BatchId, batch: Batch): World {
      if |batch.todo| <= 1 then End(b)
      else this.(batches := batches[b := batch.(todo := batch.todo[1..], stage := Claiming)])
    }

    /** The last dispatch of an event gets its fate. */
    function Mark(id: EventId, number: nat, fate: Fate): World {
      if id in dispatches && 1 <= number <= |dispatches[id]| then
        this.(dispatches := dispatches[id := dispatches[id][number - 1 := dispatches[id][number - 1].(fate := fate)]])
      else this
    }

    function Put(id: EventId, row: Row): World {
      this.(rows := rows[id := row])
    }
  }

  datatype Action =
    | Tick(time: Time)
    | Enqueue(maxAttempts: int)
    | Begin(limit: int)
    | Advance(b: BatchId, ok: bool, chosen: seq<EventId>, reply: Option<seq<Delivery>>)
    | Crash(b: BatchId)

  function Empty(clock: Time): World {
    World(clock, map[], map[], 0, map[])
  }

  predicate Due(row: Row, now: Time) {
    row.status == PENDING && row.nextAttemptAt <= now
  }

  predicate Stale(row: Row, now: Time) {
    row.status == PROCESSING && row.lockedAt.Some? && row.lockedAt.value < now - STALE
  }

  function Reclaimed(rows: map<EventId, Row>, now: Time): map<EventId, Row> {
    map i | i in rows :: if Stale(rows[i], now) then rows[i].(status := PENDING, lockedAt := None) else rows[i]
  }

  /** `findMany` of due rows, oldest first, at most `limit`; rows created together in any order. */
  predicate Selection(rows: map<EventId, Row>, chosen: seq<EventId>, now: Time, limit: nat) {
    && |chosen| <= limit
    && (forall i :: 0 <= i < |chosen| ==> chosen[i] in rows && Due(rows[chosen[i]], now))
    && (forall i, j :: 0 <= i < j < |chosen| ==>
          chosen[i] != chosen[j] && rows[chosen[i]].createdAt <= rows[chosen[j]].createdAt)
    && (forall id :: id in rows && Due(rows[id], now) && id !in chosen ==>
          |chosen| == limit && forall i :: 0 <= i < |chosen| ==> rows[chosen[i]].createdAt <= rows[id].createdAt)
  }

  function Candidates(rows: map<EventId, Row>, chosen: seq<EventId>): (c: seq<Candidate>)
    requires forall i :: 0 <= i < |chosen| ==> chosen[i] in rows
  {
    seq(|chosen|, i requires 0 <= i < |chosen| =>
      Candidate(chosen[i], rows[chosen[i]].attempt, rows[chosen[i]].maxAttempts))
  }

  /** The row after `reschedule`. */
  function Rescheduled(row: Row, attempt: nat, maxAttempts: int, stamp: Time, v: Verdict): Row {
    var exhausted := !v.retryable || attempt >= maxAttempts;
    var delay := if v.delay.Some? then v.delay.value
                 else Min(MAX_BACKOFF, 1000 * Pow2(Max(0, attempt - 1)));
    row.(status := if exhausted then DEAD else PENDING, nextAttemptAt := stamp + delay, lockedAt := None)
  }

  /** In the catch clause: retryable, with the default delay. */
  const CAUGHT := Verdict(true, None)

  function SafeLimit(limit: int): (safe: nat)
    ensures 1 <= safe <= 100 && (1 <= limit <= 100 ==> safe == limit)
    ensures (limit < 1 ==> safe == 1) && (limit > 100 ==> safe == 100)
  {
    Max(1, Min(100, limit))
  }

  /** Reclaim, select and claim. */
  function NextClaim(w: World, b: BatchId, batch: Batch, ok: bool, chosen: seq<EventId>): World
    requires !batch.Holds()
  {
    if !ok then w.End(b)
    else match batch.stage
      case Reclaiming => w.(rows := Reclaimed(w.rows, batch.now)).Goto(b, batch, Selecting)
      case Selecting =>
        if !Selection(w.rows, chosen, batch.now, batch.limit) then w
        else if chosen == [] then w.End(b)
        else w.Goto(b, batch.(todo := Candidates(w.rows, chosen)), Claiming)
      case _ =>
        if batch.todo == [] then w.End(b)
        else
          var id := batch.todo[0].id;
          if id !in w.rows || w.rows[id].status != PENDING then w.Continue(b, batch)
          else
            var row := w.rows[id];
            w.Put(id, row.(status := PROCESSING, lockedAt := Some(batch.now), attempt := row.attempt + 1))
             .(dispatches := w.dispatches[id :=
                 (if id in w.dispatches then w.dispatches[id] else []) + [Dispatch(w.clock, Open)]])
             .Goto(b, batch, Dispatching(row.attempt + 1))
  }

  /** What follows a dispatch: success, a reschedule, or the catch clause. */
  function AfterDispatch(batch: Batch, number: nat, reply: Option<seq<Delivery>>, clock: Time): Stage
    requires batch.todo != []
  {
    if reply.None? then Catching(number, clock)
    else if AllSucceeded(reply.value) then Completing(number, reply.value)
    else if Judge(reply.value, batch.Local(), batch.todo[0].maxAttempts, clock).None? then Catching(number, clock)
    else Rescheduling(number, clock, reply.value)
  }

  /** Dispatch and the writes that settle an event. A failed write leads to the catch clause; if that
      fails too, the batch is over and the row stays PROCESSING. */
  function NextHolding(w: World, b: BatchId, batch: Batch, ok: bool, reply: Option<seq<Delivery>>): World
    requires batch.Holds()
  {
    var c := batch.todo[0];
    if c.id !in w.rows then w.End(b)
    else
      var row := w.rows[c.id];
      match batch.stage
      case Dispatching(number) => w.Goto(b, batch, AfterDispatch(batch, number, reply, w.clock))
      case Completing(number, ds) =>
        if !ok then w.Goto(b, batch, Catching(number, w.clock))
        else
          w.Put(c.id, row.(status := COMPLETED, lockedAt := None)).Mark(c.id, number, Settled(Some(ds)))
           .Continue(b, batch)
      case Rescheduling(number, stamp, ds) =>
        var v := Judge(ds, batch.Local(), c.maxAttempts, stamp);
        if !ok || v.None? then w.Goto(b, batch, Catching(number, w.clock))
        else
          w.Put(c.id, Rescheduled(row, batch.Local(), c.maxAttempts, stamp, v.value))
           .Mark(c.id, number, Settled(Some(ds))).Continue(b, batch)
      case Catching(number, stamp) =>
        if !ok then w.Mark(c.id, number, Lost).End(b)
        else
          w.Put(c.id, Rescheduled(row, batch.Local(), c.maxAttempts, stamp, CAUGHT))
           .Mark(c.id, number, Settled(None)).Continue(b, batch)
  }

  function NextCrash(w: World, b: BatchId): World {
    if b !in w.batches then w
    else
      var batch := w.batches[b];
      if batch.Holds() then w.Mark(batch.todo[0].id, batch.Number(), Lost).End(b) else w.End(b)
  }

  function Next(w: World, action: Action): World {
    match action
    case Tick(t) => w.(clock := Max(w.clock, t))
    case Enqueue(maxAttempts) =>
      w.Put(w.next, Row(PENDING, 0, maxAttempts, w.clock, None, w.clock))
       .(dispatches := w.dispatches[w.next := []], next := w.next + 1)
    case Begin(limit) =>
      w.(batches := w.batches[w.next := Batch(w.clock, SafeLimit(limit), [], Reclaiming)], next := w.next + 1)
    case Advance(b, ok, chosen, reply) =>
      if b !in w.batches then w
      else if w.batches[b].Holds() then NextHolding(w, b, w.batches[b], ok, reply)
      else NextClaim(w, b, w.batches[b], ok, chosen)
    case Crash(b) => NextCrash(w, b)
  }

  function Run(w: World, actions: seq<Action>): World {
    Runs.Iterate(Next, w, actions)
  }

  /** Every batch ends within `bound` milliseconds of the time it read. */
  predicate Prompt(w: World, bound: Time) {
    forall b :: b in w.batches ==> w.clock <= w.batches[b].now + bound
  }

  predicate PromptRun(w: World, actions: seq<Action>, bound: Time) {
    Prompt(Run(w, actions), bound) && (actions != [] ==> PromptRun(w, actions[..|actions| - 1], bound))
  }
}
