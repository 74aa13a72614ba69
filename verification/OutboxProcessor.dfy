/** One outbox instance: a timer starts batches, and the `running` flag skips a tick while one runs. */
module OutboxProcessor {
  import opened Common
  import opened Backoff
  import opened WebhookPolicy
  import opened Outbox
  import opened OutboxInvariant
  import Runs

  /** `current` is the batch of the last tick that was not skipped. */
  datatype Processor = Processor(world: World, running: bool, current: BatchId)
  {
    predicate Busy() {
      running && current in world.batches
    }

    predicate Holding(id: EventId) {
      Busy() && world.batches[current].Holds() && world.batches[current].todo[0].id == id
    }
  }

  datatype Event =
    | Clock(time: Time)
    | Publish(maxAttempts: int)
    | Timer(limit: int)
    | Go(ok: bool, chosen: seq<EventId>, reply: Option<seq<Delivery>>)
    | Restart

  function Idle(clock: Time): Processor {
    Processor(Empty(clock), false, 0)
  }

  /** `tick`: the flag is set before the batch and cleared after it, however it ends. */
  function NextProcessor(p: Processor, e: Event): Processor {
    match e
    case Clock(t) => p.(world := Next(p.world, Tick(t)))
    case Publish(maxAttempts) => p.(world := Next(p.world, Enqueue(maxAttempts)))
    case Timer(limit) =>
      if p.running then p else Processor(Next(p.world, Begin(limit)), true, p.world.next)
    case Go(ok, chosen, reply) =>
      if !p.running then p
      else
        var w' := Next(p.world, Advance(p.current, ok, chosen, reply));
        p.(world := w', running := p.current in w'.batches)
    case Restart => p.(world := Next(p.world, Crash(p.current)), running := false)
  }

  function Process(p: Processor, events: seq<Event>): Processor {
    Runs.Iterate(NextProcessor, p, events)
  }

  // ----- The ledger of one event --------------------------------------------------------------

  function Losses(ds: seq<Dispatch>): nat {
    if ds == [] then 0 else Losses(ds[..|ds| - 1]) + if ds[|ds| - 1].fate.Lost? then 1 else 0
  }

  /** Settled without any Retry-After. */
  predicate Plain(d: Dispatch) {
    d.fate.Settled? && (d.fate.reply.Some? ==> WithoutRetryAfter(d.fate.reply.value))
  }

  /** After the k-th dispatch. */
  function Gap(k: nat): int {
    Min(900_000, 1000 * Pow2(Max(0, k - 1)))
  }

  predicate Spaced(ds: seq<Dispatch>) {
    forall k :: 1 <= k < |ds| && Plain(ds[k - 1]) ==> ds[k].at - ds[k - 1].at >= Gap(k)
  }

  function Budget(row: Row): int {
    Max(1, row.maxAttempts)
  }

  predicate LedgerOk(row: Row, ds: seq<Dispatch>, held: bool, clock: Time) {
    && |ds| == row.attempt
    && Spaced(ds)
    && (ds != [] ==> ds[|ds| - 1].at <= clock)
    && row.attempt <= Budget(row) + Losses(ds)
    && (held ==> row.status == PROCESSING && ds != [] && ds[|ds| - 1].fate.Open?)
    && (!held && row.status == PROCESSING ==> ds != [] && ds[|ds| - 1].fate.Lost?)
    && (!held && !Final(row.status) ==> row.attempt < Budget(row) + Losses(ds))
    && (row.status == PENDING && ds != [] && Plain(ds[|ds| - 1]) ==>
          row.nextAttemptAt >= ds[|ds| - 1].at + Gap(|ds|))
  }

  lemma LossesOfLast(ds: seq<Dispatch>, fate: Fate)
    requires ds != []
    ensures Losses(ds[|ds| - 1 := ds[|ds| - 1].(fate := fate)]) == Losses(ds[..|ds| - 1]) + if fate.Lost? then 1 else 0
  {
    assert ds[|ds| - 1 := ds[|ds| - 1].(fate := fate)][..|ds| - 1] == ds[..|ds| - 1];
  }

  lemma LedgerClaim(row: Row, ds: seq<Dispatch>, now: Time, clock: Time)
    requires LedgerOk(row, ds, false, clock) && Due(row, now) && now <= clock
    ensures LedgerOk(row.(status := PROCESSING, lockedAt := Some(now), attempt := row.attempt + 1),
                     ds + [Dispatch(clock, Open)], true, clock)
  {
    assert (ds + [Dispatch(clock, Open)])[..|ds|] == ds;
  }

  lemma LedgerSettle(row: Row, row': Row, ds: seq<Dispatch>, fate: Fate, clock: Time)
    requires LedgerOk(row, ds, true, clock) && fate.Settled?
    requires row'.attempt == row.attempt && row'.maxAttempts == row.maxAttempts && row'.status != PROCESSING
    requires row'.status == PENDING ==>
               row.attempt < row.maxAttempts
               && (Plain(Dispatch(0, fate)) ==> row'.nextAttemptAt >= ds[|ds| - 1].at + Gap(|ds|))
    ensures LedgerOk(row', ds[|ds| - 1 := ds[|ds| - 1].(fate := fate)], false, clock)
  {
    LossesOfLast(ds, fate);
  }

  lemma LedgerLose(row: Row, ds: seq<Dispatch>, clock: Time)
    requires LedgerOk(row, ds, true, clock)
    ensures LedgerOk(row, ds[|ds| - 1 := ds[|ds| - 1].(fate := Lost)], false, clock)
  {
    LossesOfLast(ds, Lost);
  }

  lemma LedgerReclaim(row: Row, ds: seq<Dispatch>, clock: Time, now: Time)
    requires LedgerOk(row, ds, false, clock)
    ensures LedgerOk(if Stale(row, now) then row.(status := PENDING, lockedAt := None) else row, ds, false, clock)
  {
  }

  // ----- Invariant ----------------------------------------------------------------------------

  /** At most one batch, the current one, while the flag is set. */
  predicate Alone(p: Processor) {
    && (forall b :: b in p.world.batches ==> p.running && b == p.current)
    && (p.running ==> p.current in p.world.batches)
  }

  predicate LedgersOk(p: Processor) {
    && p.world.dispatches.Keys == p.world.rows.Keys
    && forall id :: id in p.world.rows ==>
         LedgerOk(p.world.rows[id], p.world.dispatches[id], p.Holding(id), p.world.clock)
  }

  /** A candidate not worked on yet is as it was selected. */
  predicate Untouched(w: World, now: Time, c: Candidate) {
    && c.id in w.rows && Due(w.rows[c.id], now) && c.attempt == w.rows[c.id].attempt
    && c.maxAttempts == w.rows[c.id].maxAttempts
  }

  predicate Distinct(todo: seq<Candidate>) {
    forall i, j :: 0 <= i < j < |todo| ==> todo[i].id != todo[j].id
  }

  predicate StampOk(batch: Batch, last: Dispatch) {
    match batch.stage
    case Rescheduling(_, stamp, _) => stamp >= last.at
    case Catching(_, stamp) => stamp >= last.at
    case _ => true
  }

  predicate CurrentOk(w: World, batch: Batch) {
    && Distinct(batch.todo)
    && (batch.stage.Reclaiming? || batch.stage.Selecting? ==> batch.todo == [])
    && (batch.stage.Claiming? ==> batch.todo != [] && Untouched(w, batch.now, batch.todo[0]))
    && (forall i :: 1 <= i < |batch.todo| ==> Untouched(w, batch.now, batch.todo[i]))
    && (batch.Holds() ==>
          var c := batch.todo[0];
          && c.id in w.rows && c.id in w.dispatches && w.dispatches[c.id] != []
          && batch.Local() == w.rows[c.id].attempt
          && c.maxAttempts == w.rows[c.id].maxAttempts
          && StampOk(batch, w.dispatches[c.id][|w.dispatches[c.id]| - 1]))
  }

  predicate ProcessorInv(p: Processor) {
    && Inv(p.world) && Alone(p) && LedgersOk(p)
    && (p.Busy() ==> CurrentOk(p.world, p.world.batches[p.current]))
  }

  lemma AloneIsSafe(p: Processor)
    requires Alone(p)
    ensures SafeReclaim(p.world)
  {
  }
}
