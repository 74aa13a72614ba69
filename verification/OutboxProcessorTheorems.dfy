/** One outbox instance, over every run with restarts and failing statements: ticks never overlap, counts
    are exact, dispatches are bounded and spaced. No premise on time is needed. */
module OutboxProcessorTheorems {
  import opened Common
  import opened Backoff
  import opened WebhookPolicy
  import opened Outbox
  import opened OutboxInvariant
  import opened OutboxProcessor

  // ----- Steps without a claim or a settling write --------------------------------------------

  lemma ClockKeeps(p: Processor, t: Time)
    requires ProcessorInv(p)
    ensures ProcessorInv(NextProcessor(p, Clock(t)))
  {
    NextKeeps(p.world, Tick(t));
    var p' := NextProcessor(p, Clock(t));
    assert forall c, now :: Untouched(p.world, now, c) ==> Untouched(p'.world, now, c);
    assert forall id :: p'.Holding(id) == p.Holding(id);
  }

  lemma PublishKeeps(p: Processor, maxAttempts: int)
    requires ProcessorInv(p) && SafeReclaim(p.world)
    ensures ProcessorInv(NextProcessor(p, Publish(maxAttempts)))
  {
    NextKeeps(p.world, Enqueue(maxAttempts));
    var p' := NextProcessor(p, Publish(maxAttempts));
    assert p.world.next !in p.world.rows;
    SameHolding(p, p');
    if p.Busy() { OldRowsAreEnough(p.world, p'.world, p.world.batches[p.current]); }
    forall id | id in p'.world.rows
      ensures LedgerOk(p'.world.rows[id], p'.world.dispatches[id], p'.Holding(id), p'.world.clock)
    {
      if id in p.world.rows {
        assert LedgerOk(p.world.rows[id], p.world.dispatches[id], p.Holding(id), p.world.clock);
      } else {
        if p.Busy() { assert BatchOk(p.world, p.world.batches[p.current]); }
        assert !p'.Holding(id);
      }
    }
  }

  lemma SameHolding(p: Processor, p': Processor)
    requires p'.world.batches == p.world.batches && p'.running == p.running && p'.current == p.current
    ensures forall id :: p'.Holding(id) == p.Holding(id)
  {
  }

  lemma OldRowsAreEnough(w: World, w': World, batch: Batch)
    requires CurrentOk(w, batch)
    requires forall id :: id in w.rows ==> id in w'.rows && w'.rows[id] == w.rows[id]
    requires forall id :: id in w.dispatches ==> id in w'.dispatches && w'.dispatches[id] == w.dispatches[id]
    ensures CurrentOk(w', batch)
  {
    assert forall c :: Untouched(w, batch.now, c) ==> Untouched(w', batch.now, c);
  }

  lemma TimerKeeps(p: Processor, limit: int)
    requires ProcessorInv(p) && SafeReclaim(p.world)
    ensures ProcessorInv(NextProcessor(p, Timer(limit)))
  {
    NextKeeps(p.world, Begin(limit));
    var p' := NextProcessor(p, Timer(limit));
    if !p.running {
      assert p.world.batches == map[];
      assert forall id :: !p'.Holding(id) && !p.Holding(id);
    }
  }

  /** A step of the current batch that leaves rows and holding as they are. */
  lemma StageKeeps(p: Processor, p': Processor)
    requires ProcessorInv(p) && p.Busy() && Inv(p'.world) && Alone(p')
    requires p'.world.rows == p.world.rows && p'.world.dispatches == p.world.dispatches
             && p'.world.clock == p.world.clock
    requires forall id :: p'.Holding(id) == p.Holding(id)
    requires p'.Busy() ==> CurrentOk(p'.world, p'.world.batches[p'.current])
    ensures ProcessorInv(p')
  {
  }

  lemma ReclaimKeepsAll(p: Processor, chosen: seq<EventId>, reply: Option<seq<Delivery>>)
    requires ProcessorInv(p) && p.Busy() && p.world.batches[p.current].stage.Reclaiming?
    ensures ProcessorInv(NextProcessor(p, Go(true, chosen, reply)))
  {
    AloneIsSafe(p);
    NextKeeps(p.world, Advance(p.current, true, chosen, reply));
    var p' := NextProcessor(p, Go(true, chosen, reply));
    var now := p.world.batches[p.current].now;
    forall id | id in p'.world.rows
      ensures LedgerOk(p'.world.rows[id], p'.world.dispatches[id], p'.Holding(id), p'.world.clock)
    {
      assert !p.Holding(id) && !p'.Holding(id);
      LedgerReclaim(p.world.rows[id], p.world.dispatches[id], p.world.clock, now);
    }
  }

  lemma SelectionUntouched(w: World, chosen: seq<EventId>, now: Time, limit: nat)
    requires Selection(w.rows, chosen, now, limit)
    ensures Distinct(Candidates(w.rows, chosen))
    ensures forall i :: 0 <= i < |chosen| ==> Untouched(w, now, Candidates(w.rows, chosen)[i])
  {
  }

  lemma SelectKeepsAll(p: Processor, chosen: seq<EventId>, reply: Option<seq<Delivery>>)
    requires ProcessorInv(p) && p.Busy() && p.world.batches[p.current].stage.Selecting?
    ensures ProcessorInv(NextProcessor(p, Go(true, chosen, reply)))
  {
    AloneIsSafe(p);
    NextKeeps(p.world, Advance(p.current, true, chosen, reply));
    var p' := NextProcessor(p, Go(true, chosen, reply));
    var batch := p.world.batches[p.current];
    if Selection(p.world.rows, chosen, batch.now, batch.limit) {
      SelectionUntouched(p.world, chosen, batch.now, batch.limit);
      assert forall c :: Untouched(p.world, batch.now, c) ==> Untouched(p'.world, batch.now, c);
    }
    StageKeeps(p, p');
  }

  lemma ExitKeeps(p: Processor, chosen: seq<EventId>, reply: Option<seq<Delivery>>)
    requires ProcessorInv(p) && p.Busy() && !p.world.batches[p.current].Holds()
    ensures ProcessorInv(NextProcessor(p, Go(false, chosen, reply)))
  {
    AloneIsSafe(p);
    NextKeeps(p.world, Advance(p.current, false, chosen, reply));
    StageKeeps(p, NextProcessor(p, Go(false, chosen, reply)));
  }

  /** The next stage of a held event: its stamp, if any, is the clock. */
  lemma NewStageOk(w: World, batch: Batch, stage: Stage)
    requires CurrentOk(w, batch) && batch.Holds()
    requires var ds := w.dispatches[batch.todo[0].id]; ds[|ds| - 1].at <= w.clock
    requires stage.Completing? || (stage.Rescheduling? && stage.stamp == w.clock)
             || (stage.Catching? && stage.stamp == w.clock)
    ensures CurrentOk(w, batch.(stage := stage))
  {
  }

  lemma DispatchKeepsAll(p: Processor, ok: bool, chosen: seq<EventId>, reply: Option<seq<Delivery>>)
    requires ProcessorInv(p) && p.Busy() && p.world.batches[p.current].Holds()
    requires var stage := p.world.batches[p.current].stage; stage.Dispatching? || (!ok && !stage.Catching?)
    ensures ProcessorInv(NextProcessor(p, Go(ok, chosen, reply)))
  {
    AloneIsSafe(p);
    NextKeeps(p.world, Advance(p.current, ok, chosen, reply));
    var p' := NextProcessor(p, Go(ok, chosen, reply));
    var batch := p.world.batches[p.current];
    assert p.Holding(batch.todo[0].id);
    NewStageOk(p.world, batch, p'.world.batches[p.current].stage);
    OldRowsAreEnough(p.world, p'.world, p'.world.batches[p.current]);
    StageKeeps(p, p');
  }

  // ----- Claims and settling writes -----------------------------------------------------------

  /** Only the event worked on changes; the candidates after it do not. */
  lemma OneRowKeeps(p: Processor, p': Processor)
    requires ProcessorInv(p) && p.Busy() && p.world.batches[p.current].todo != []
    requires Inv(p'.world) && Alone(p') && p'.world.clock == p.world.clock
    requires p'.world.rows.Keys == p.world.rows.Keys == p'.world.dispatches.Keys
    requires var id := p.world.batches[p.current].todo[0].id;
             && id in p.world.rows
             && LedgerOk(p'.world.rows[id], p'.world.dispatches[id], p'.Holding(id), p'.world.clock)
             && forall i :: i in p.world.rows && i != id ==>
                  p'.world.rows[i] == p.world.rows[i] && p'.world.dispatches[i] == p.world.dispatches[i]
                      && !p'.Holding(i)
    requires p'.Busy() ==> CurrentOk(p'.world, p'.world.batches[p'.current])
    ensures ProcessorInv(p')
  {
    forall i | i in p'.world.rows
      ensures LedgerOk(p'.world.rows[i], p'.world.dispatches[i], p'.Holding(i), p'.world.clock)
    {
      if i != p.world.batches[p.current].todo[0].id {
        assert !p.Holding(i);
        assert LedgerOk(p.world.rows[i], p.world.dispatches[i], false, p.world.clock);
      }
    }
  }

  /** Candidates after the first are untouched by a write to the first. */
  lemma TailUntouched(w: World, w': World, batch: Batch)
    requires batch.todo != [] && CurrentOk(w, batch)
    requires forall i :: i in w.rows && i != batch.todo[0].id ==> i in w'.rows && w'.rows[i] == w.rows[i]
    ensures forall i :: 1 <= i < |batch.todo| ==> Untouched(w', batch.now, batch.todo[i])
    ensures |batch.todo| > 1 ==> CurrentOk(w', batch.(todo := batch.todo[1..], stage := Claiming))
  {
    forall i | 1 <= i < |batch.todo|
      ensures Untouched(w', batch.now, batch.todo[i])
    {
      assert Untouched(w, batch.now, batch.todo[i]) && batch.todo[i].id != batch.todo[0].id;
    }
  }

  /** The first candidate is still as selected, so the claim succeeds. */
  lemma ClaimSucceeds(p: Processor, w': World)
    requires ProcessorInv(p) && p.Busy() && p.world.batches[p.current].stage.Claiming?
    requires w' == NextClaim(p.world, p.current, p.world.batches[p.current], true, [])
    ensures var batch := p.world.batches[p.current];
            var id := batch.todo[0].id;
            && w'.rows.Keys == p.world.rows.Keys == w'.dispatches.Keys && id in p.world.rows
            && w'.clock == p.world.clock
            && LedgerOk(w'.rows[id], w'.dispatches[id], true, w'.clock)
            && w'.rows[id].attempt == batch.Local()
            && w'.rows[id].maxAttempts == p.world.rows[id].maxAttempts
            && (forall i :: i in p.world.rows && i != id ==>
                  w'.rows[i] == p.world.rows[i] && w'.dispatches[i] == p.world.dispatches[i])
            && w'.batches == p.world.batches[p.current := batch.(stage := Dispatching(batch.Local()))]
  {
    var batch := p.world.batches[p.current];
    var id := batch.todo[0].id;
    assert BatchOk(p.world, batch) && Untouched(p.world, batch.now, batch.todo[0]);
    assert !p.Holding(id);
    LedgerClaim(p.world.rows[id], p.world.dispatches[id], batch.now, p.world.clock);
  }

  lemma ClaimKeepsAll(p: Processor, chosen: seq<EventId>, reply: Option<seq<Delivery>>)
    requires ProcessorInv(p) && p.Busy() && p.world.batches[p.current].stage.Claiming?
    ensures ProcessorInv(NextProcessor(p, Go(true, chosen, reply)))
  {
    AloneIsSafe(p);
    NextKeeps(p.world, Advance(p.current, true, chosen, reply));
    var p' := NextProcessor(p, Go(true, chosen, reply));
    ClaimSucceeds(p, p'.world);
    TailUntouched(p.world, p'.world, p.world.batches[p.current]);
    assert p'.Holding(p.world.batches[p.current].todo[0].id);
    OneRowKeeps(p, p');
  }

  lemma RescheduleLedger(row: Row, ds: seq<Dispatch>, stamp: Time, v: Verdict, fate: Fate, clock: Time)
    requires LedgerOk(row, ds, true, clock) && fate.Settled? && stamp >= ds[|ds| - 1].at
    requires v.retryable && Plain(Dispatch(0, fate)) ==>
             v.delay.None? || v.delay.value == ExponentialBackoff(row.attempt, 0.0)
    ensures LedgerOk(Rescheduled(row, row.attempt, row.maxAttempts, stamp, v),
                     ds[|ds| - 1 := ds[|ds| - 1].(fate := fate)], false, clock)
  {
    LedgerSettle(row, Rescheduled(row, row.attempt, row.maxAttempts, stamp, v), ds, fate, clock);
  }

  predicate WriteOk(w: World, w': World, b: BatchId, batch: Batch)
    requires batch.todo != [] && w.rows.Keys == w.dispatches.Keys
  {
    var id := batch.todo[0].id;
    && w'.rows.Keys == w.rows.Keys == w'.dispatches.Keys && id in w.rows
    && w'.clock == w.clock
    && LedgerOk(w'.rows[id], w'.dispatches[id], false, w'.clock)
    && (forall i :: i in w.rows && i != id ==> w'.rows[i] == w.rows[i] && w'.dispatches[i] == w.dispatches[i])
    && w'.batches == w.Continue(b, batch).batches
  }

  lemma PutAndMark(w: World, b: BatchId, batch: Batch, row': Row, number: nat, fate: Fate)
    requires batch.todo != [] && w.rows.Keys == w.dispatches.Keys && batch.todo[0].id in w.rows
    requires number == |w.dispatches[batch.todo[0].id]| >= 1
    requires var ds := w.dispatches[batch.todo[0].id];
             LedgerOk(row', ds[number - 1 := ds[number - 1].(fate := fate)], false, w.clock)
    ensures WriteOk(w, w.Put(batch.todo[0].id, row').Mark(batch.todo[0].id, number, fate).Continue(b, batch), b, batch)
  {
  }

  /** The row and the fate that a settling write leaves. */
  lemma WriteLedger(p: Processor)
    requires ProcessorInv(p) && p.Busy() && p.world.batches[p.current].Holds()
             && !p.world.batches[p.current].stage.Dispatching?
    ensures var batch := p.world.batches[p.current];
            WriteOk(p.world, NextHolding(p.world, p.current, batch, true, None), p.current, batch)
  {
    var w, batch := p.world, p.world.batches[p.current];
    var c := batch.todo[0];
    assert BatchOk(w, batch);
    assert p.Holding(c.id);
    var row, ds := w.rows[c.id], w.dispatches[c.id];
    match batch.stage {
      case Completing(number, reply) =>
        var row' := row.(status := COMPLETED, lockedAt := None);
        LedgerSettle(row, row', ds, Settled(Some(reply)), w.clock);
        PutAndMark(w, p.current, batch, row', number, Settled(Some(reply)));
      case Rescheduling(number, stamp, reply) =>
        JudgeMeans(reply, batch.Local(), c.maxAttempts, stamp);
        var v := Judge(reply, batch.Local(), c.maxAttempts, stamp).value;
        RescheduleLedger(row, ds, stamp, v, Settled(Some(reply)), w.clock);
        PutAndMark(w, p.current, batch, Rescheduled(row, batch.Local(), c.maxAttempts, stamp, v), number,
                   Settled(Some(reply)));
      case Catching(number, stamp) =>
        RescheduleLedger(row, ds, stamp, CAUGHT, Settled(None), w.clock);
        PutAndMark(w, p.current, batch, Rescheduled(row, batch.Local(), c.maxAttempts, stamp, CAUGHT), number,
                   Settled(None));
    }
  }

  lemma WriteKeepsAll(p: Processor, chosen: seq<EventId>, reply: Option<seq<Delivery>>)
    requires ProcessorInv(p) && p.Busy() && p.world.batches[p.current].Holds()
             && !p.world.batches[p.current].stage.Dispatching?
    ensures ProcessorInv(NextProcessor(p, Go(true, chosen, reply)))
  {
    AloneIsSafe(p);
    NextKeeps(p.world, Advance(p.current, true, chosen, reply));
    var p' := NextProcessor(p, Go(true, chosen, reply));
    var batch := p.world.batches[p.current];
    assert p'.world == NextHolding(p.world, p.current, batch, true, None);
    WriteLedger(p);
    TailUntouched(p.world, p'.world, batch);
    assert forall id :: !p'.Holding(id);
    OneRowKeeps(p, p');
  }

  function Lose(w: World, b: BatchId): World
    requires b in w.batches && w.batches[b].Holds()
  {
    w.Mark(w.batches[b].todo[0].id, w.batches[b].Number(), Lost).End(b)
  }

  lemma LoseIs(w: World, b: BatchId)
    requires b in w.batches && w.batches[b].Holds() && BatchOk(w, w.batches[b])
    requires var id := w.batches[b].todo[0].id;
             && w.dispatches.Keys == w.rows.Keys && RowOk(w.rows[id], w.dispatches[id])
             && LedgerOk(w.rows[id], w.dispatches[id], true, w.clock)
    ensures var id := w.batches[b].todo[0].id;
            var w' := Lose(w, b);
            && w'.rows == w.rows && w'.clock == w.clock && w'.batches == w.batches - {b}
            && w'.dispatches.Keys == w.dispatches.Keys
            && LedgerOk(w'.rows[id], w'.dispatches[id], false, w'.clock)
            && forall i :: i in w.rows && i != id ==> w'.dispatches[i] == w.dispatches[i]
  {
    var id := w.batches[b].todo[0].id;
    LedgerLose(w.rows[id], w.dispatches[id], w.clock);
  }

  lemma OnlyBatch(p: Processor)
    requires Alone(p)
    ensures p.world.batches - {p.current} == map[]
  {
  }

  lemma HeldRow(p: Processor)
    requires ProcessorInv(p) && p.Busy() && p.world.batches[p.current].Holds()
    ensures var batch := p.world.batches[p.current];
            var id := batch.todo[0].id;
            && BatchOk(p.world, batch) && id in p.world.rows && p.world.dispatches.Keys == p.world.rows.Keys
            && RowOk(p.world.rows[id], p.world.dispatches[id])
            && LedgerOk(p.world.rows[id], p.world.dispatches[id], true, p.world.clock)
  {
    assert BatchOk(p.world, p.world.batches[p.current]);
    assert p.Holding(p.world.batches[p.current].todo[0].id);
  }

  /** The batch is gone before its event was settled. */
  lemma LoseKeepsAll(p: Processor)
    requires ProcessorInv(p) && p.Busy() && p.world.batches[p.current].Holds()
    ensures ProcessorInv(Processor(Lose(p.world, p.current), false, p.current))
  {
    HeldRow(p);
    OnlyBatch(p);
    LoseKeeps(p.world, p.current);
    LoseIs(p.world, p.current);
    OneRowKeeps(p, Processor(Lose(p.world, p.current), false, p.current));
  }

  lemma RestartKeeps(p: Processor)
    requires ProcessorInv(p)
    ensures ProcessorInv(NextProcessor(p, Restart))
  {
    AloneIsSafe(p);
    if p.running {
      if p.world.batches[p.current].Holds() {
        LoseKeepsAll(p);
      } else {
        NextKeeps(p.world, Crash(p.current));
        StageKeeps(p, NextProcessor(p, Restart));
      }
    }
  }

  // ----- Every run ----------------------------------------------------------------------------

  lemma FreeKeeps(p: Processor, ok: bool, chosen: seq<EventId>, reply: Option<seq<Delivery>>)
    requires ProcessorInv(p) && p.Busy() && !p.world.batches[p.current].Holds()
    ensures ProcessorInv(NextProcessor(p, Go(ok, chosen, reply)))
  {
    assert BatchOk(p.world, p.world.batches[p.current]);
    if !ok {
      ExitKeeps(p, chosen, reply);
    } else {
      match p.world.batches[p.current].stage {
        case Reclaiming => ReclaimKeepsAll(p, chosen, reply);
        case Selecting => SelectKeepsAll(p, chosen, reply);
        case _ => ClaimKeepsAll(p, chosen, reply);
      }
    }
  }

  lemma FailingCatchLoses(p: Processor, chosen: seq<EventId>, reply: Option<seq<Delivery>>)
    requires p.Busy() && p.world.batches[p.current].Holds() && p.world.batches[p.current].stage.Catching?
    requires p.world.batches[p.current].todo[0].id in p.world.rows
    ensures NextProcessor(p, Go(false, chosen, reply)) == Processor(Lose(p.world, p.current), false, p.current)
  {
    assert p.current !in Lose(p.world, p.current).batches;
  }

  lemma FailingCatchKeeps(p: Processor, chosen: seq<EventId>, reply: Option<seq<Delivery>>)
    requires ProcessorInv(p) && p.Busy() && p.world.batches[p.current].Holds()
             && p.world.batches[p.current].stage.Catching?
    ensures ProcessorInv(NextProcessor(p, Go(false, chosen, reply)))
  {
    HeldRow(p);
    LoseKeepsAll(p);
    FailingCatchLoses(p, chosen, reply);
  }

  lemma HeldKeeps(p: Processor, ok: bool, chosen: seq<EventId>, reply: Option<seq<Delivery>>)
    requires ProcessorInv(p) && p.Busy() && p.world.batches[p.current].Holds()
    ensures ProcessorInv(NextProcessor(p, Go(ok, chosen, reply)))
  {
    var stage := p.world.batches[p.current].stage;
    if stage.Dispatching? {
      DispatchKeepsAll(p, ok, chosen, reply);
    } else if ok {
      WriteKeepsAll(p, chosen, reply);
    } else if stage.Catching? {
      FailingCatchKeeps(p, chosen, reply);
    } else {
      DispatchKeepsAll(p, ok, chosen, reply);
    }
  }

  lemma GoKeeps(p: Processor, ok: bool, chosen: seq<EventId>, reply: Option<seq<Delivery>>)
    requires ProcessorInv(p)
    ensures ProcessorInv(NextProcessor(p, Go(ok, chosen, reply)))
  {
    if p.running {
      if p.world.batches[p.current].Holds() {
        HeldKeeps(p, ok, chosen, reply);
      } else {
        FreeKeeps(p, ok, chosen, reply);
      }
    }
  }

  lemma {:induction false} ProcessKeeps(clock: Time, events: seq<Event>)
    ensures ProcessorInv(Process(Idle(clock), events))
  {
    if events != [] {
      var p := Process(Idle(clock), events[..|events| - 1]);
      ProcessKeeps(clock, events[..|events| - 1]);
      AloneIsSafe(p);
      match events[|events| - 1] {
        case Clock(t) => ClockKeeps(p, t);
        case Publish(maxAttempts) => PublishKeeps(p, maxAttempts);
        case Timer(limit) => TimerKeeps(p, limit);
        case Go(ok, chosen, reply) => GoKeeps(p, ok, chosen, reply);
        case Restart => RestartKeeps(p);
      }
    }
  }

  /** Ticks never overlap: there is a batch exactly while the flag is set, and never more than one. */
  lemma {:induction false} TicksNeverOverlap(clock: Time, events: seq<Event>)
    ensures var p := Process(Idle(clock), events);
            p.world.batches.Keys == if p.running then {p.current} else {}
  {
    ProcessKeeps(clock, events);
  }

  /** The attempt number of a delivery is the row's, and the row's is the number of dispatches started. */
  lemma AttemptsCountDispatches(clock: Time, events: seq<Event>, id: EventId)
    ensures var p := Process(Idle(clock), events);
            && (id in p.world.rows ==> id in p.world.dispatches && p.world.rows[id].attempt == |p.world.dispatches[id]|)
            && (p.Holding(id) ==> id in p.world.rows && p.world.batches[p.current].Local() == p.world.rows[id].attempt)
  {
    ProcessKeeps(clock, events);
  }

  /** No event is dispatched more than max(1, maxAttempts) times plus the number of dispatches lost to a
      crash or to a failing catch clause; while it waits for another dispatch it has used up fewer. */
  lemma DispatchesAreBounded(clock: Time, events: seq<Event>, id: EventId)
    ensures var p := Process(Idle(clock), events);
            id in p.world.rows && id in p.world.dispatches ==>
              var row, ds := p.world.rows[id], p.world.dispatches[id];
              && |ds| <= Max(1, row.maxAttempts) + Losses(ds)
              && (!Final(row.status) && !p.Holding(id) ==> |ds| < Max(1, row.maxAttempts) + Losses(ds))
  {
    ProcessKeeps(clock, events);
  }

  /** Dispatch k+1 starts at least min(900000, 1000 * 2^(k-1)) ms after dispatch k, unless dispatch k was
      lost or answered with a Retry-After. */
  lemma DispatchesAreSpaced(clock: Time, events: seq<Event>, id: EventId, k: nat)
    requires k >= 1
    ensures var p := Process(Idle(clock), events);
            id in p.world.rows && id in p.world.dispatches ==>
              var ds := p.world.dispatches[id];
              k < |ds| && Plain(ds[k - 1]) ==> ds[k].at - ds[k - 1].at >= Min(900_000, 1000 * Pow2(k - 1))
  {
    ProcessKeeps(clock, events);
    var p := Process(Idle(clock), events);
    if id in p.world.rows && id in p.world.dispatches {
      assert LedgerOk(p.world.rows[id], p.world.dispatches[id], p.Holding(id), p.world.clock);
    }
  }
}
