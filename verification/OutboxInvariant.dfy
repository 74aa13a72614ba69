/** What holds of rows, claims and batches as long as no held row is reclaimed. */
module OutboxInvariant {
  import opened Common
  import opened Backoff
  import opened WebhookPolicy
  import opened Outbox

  predicate CandidateOk(w: World, c: Candidate) {
    && c.id in w.rows
    && c.maxAttempts == w.rows[c.id].maxAttempts
    && c.attempt <= w.rows[c.id].attempt
  }

  /** A reply as each stage carries it. */
  predicate ReplyOk(batch: Batch)
    requires batch.todo != []
  {
    match batch.stage
    case Completing(_, ds) => AllSucceeded(ds)
    case Rescheduling(_, stamp, ds) =>
      !AllSucceeded(ds) && Judge(ds, batch.Local(), batch.todo[0].maxAttempts, stamp).Some?
    case _ => true
  }

  /** A held row is PROCESSING, locked by its holder's time, and counts this very claim. */
  predicate HolderOk(w: World, batch: Batch)
    requires batch.Holds()
  {
    var c := batch.todo[0];
    && c.id in w.rows
    && w.rows[c.id].status == PROCESSING
    && w.rows[c.id].lockedAt == Some(batch.now)
    && batch.Local() <= batch.Number() == w.rows[c.id].attempt
    && ReplyOk(batch)
  }

  predicate BatchOk(w: World, batch: Batch) {
    && batch.now <= w.clock
    && (batch.todo == [] ==>
          && !batch.stage.Dispatching? && !batch.stage.Completing?
          && !batch.stage.Rescheduling? && !batch.stage.Catching?)
    && (forall i :: 0 <= i < |batch.todo| ==> CandidateOk(w, batch.todo[i]))
    && (batch.Holds() ==> HolderOk(w, batch))
  }

  /** Used up, or answered by failures of which none is worth another attempt. */
  predicate RightlyDead(row: Row, last: Dispatch) {
    || row.attempt >= Min(row.maxAttempts, MAX_WEBHOOK_ATTEMPTS)
    || (last.fate.Settled? && last.fate.reply.Some? && !AllSucceeded(last.fate.reply.value)
        && Hopeless(last.fate.reply.value))
  }

  predicate Delivered(last: Dispatch) {
    last.fate.Settled? && last.fate.reply.Some? && AllSucceeded(last.fate.reply.value)
  }

  predicate RowOk(row: Row, ds: seq<Dispatch>) {
    && |ds| == row.attempt
    && (Final(row.status) ==> ds != [])
    && (row.status == COMPLETED ==> Delivered(ds[|ds| - 1]))
    && (row.status == DEAD ==> RightlyDead(row, ds[|ds| - 1]))
  }

  predicate RowsOk(w: World) {
    && w.dispatches.Keys == w.rows.Keys
    && (forall id :: id in w.rows ==> id < w.next && RowOk(w.rows[id], w.dispatches[id]))
  }

  predicate BatchesOk(w: World) {
    forall b :: b in w.batches ==> b < w.next && BatchOk(w, w.batches[b])
  }

  /** No event is held twice. */
  predicate OneHolder(w: World) {
    forall a, b ::
      (a in w.batches && b in w.batches && w.batches[a].Holds() && w.batches[b].Holds()
       && w.batches[a].todo[0].id == w.batches[b].todo[0].id) ==> a == b
  }

  predicate Inv(w: World) {
    RowsOk(w) && BatchesOk(w) && OneHolder(w)
  }

  /** No batch is about to reclaim a row that another batch holds. */
  predicate SafeReclaim(w: World) {
    forall b, h :: b in w.batches && h in w.batches && w.batches[b].stage.Reclaiming? && w.batches[h].Holds() ==>
      w.batches[h].todo[0].id in w.rows ==> !Stale(w.rows[w.batches[h].todo[0].id], w.batches[b].now)
  }

  // ----- Steps that leave rows alone ----------------------------------------------------------

  lemma EndKeeps(w: World, b: BatchId)
    requires Inv(w)
    ensures Inv(w.End(b))
  {
  }

  lemma BatchKeeps(w: World, b: BatchId, batch: Batch)
    requires Inv(w) && b in w.batches && BatchOk(w, batch)
    requires batch.Holds() ==> w.batches[b].Holds() && w.batches[b].todo[0].id == batch.todo[0].id
    ensures Inv(w.(batches := w.batches[b := batch]))
  {
    var w' := w.(batches := w.batches[b := batch]);
    forall a | a in w'.batches
      ensures a < w'.next && BatchOk(w', w'.batches[a])
    {
      if a != b { assert BatchOk(w, w.batches[a]); }
      assert forall c :: CandidateOk(w, c) ==> CandidateOk(w', c);
    }
  }

  lemma TickKeeps(w: World, t: Time)
    requires Inv(w)
    ensures Inv(Next(w, Tick(t)))
  {
    var w' := Next(w, Tick(t));
    forall a | a in w'.batches
      ensures BatchOk(w', w'.batches[a])
    {
      assert BatchOk(w, w.batches[a]);
      assert forall c :: CandidateOk(w, c) ==> CandidateOk(w', c);
    }
  }

  lemma BeginKeeps(w: World, limit: int)
    requires Inv(w)
    ensures Inv(Next(w, Begin(limit)))
  {
    var w' := Next(w, Begin(limit));
    forall a | a in w'.batches
      ensures BatchOk(w', w'.batches[a])
    {
      if a in w.batches { assert BatchOk(w, w.batches[a]); }
      assert forall c :: CandidateOk(w, c) ==> CandidateOk(w', c);
    }
  }

  lemma SelectKeeps(w: World, b: BatchId, chosen: seq<EventId>)
    requires Inv(w) && b in w.batches && w.batches[b].stage.Selecting?
    ensures Inv(NextClaim(w, b, w.batches[b], true, chosen))
  {
    var batch := w.batches[b];
    assert BatchOk(w, batch);
    EndKeeps(w, b);
    if Selection(w.rows, chosen, batch.now, batch.limit) {
      BatchKeeps(w, b, batch.(todo := Candidates(w.rows, chosen), stage := Claiming));
    }
  }

  lemma ContinueKeeps(w: World, b: BatchId)
    requires Inv(w) && b in w.batches
    ensures Inv(w.Continue(b, w.batches[b]))
  {
    var batch := w.batches[b];
    assert BatchOk(w, batch);
    EndKeeps(w, b);
    if |batch.todo| > 1 {
      BatchKeeps(w, b, batch.(todo := batch.todo[1..], stage := Claiming));
    }
  }

  lemma DispatchKeeps(w: World, b: BatchId, reply: Option<seq<Delivery>>)
    requires Inv(w) && b in w.batches && w.batches[b].Holds() && w.batches[b].stage.Dispatching?
    ensures Inv(NextHolding(w, b, w.batches[b], true, reply))
  {
    var batch := w.batches[b];
    assert BatchOk(w, batch);
    BatchKeeps(w, b, batch.(stage := AfterDispatch(batch, batch.Number(), reply, w.clock)));
  }

  lemma CatchKeeps(w: World, b: BatchId)
    requires Inv(w) && b in w.batches && w.batches[b].Holds()
    ensures Inv(w.Goto(b, w.batches[b], Catching(w.batches[b].Number(), w.clock)))
  {
    var batch := w.batches[b];
    assert BatchOk(w, batch);
    BatchKeeps(w, b, batch.(stage := Catching(batch.Number(), w.clock)));
  }

  // ----- Steps that write rows ----------------------------------------------------------------

  /** `rows'` differs from the rows only where no batch holds, and no count goes down. */
  lemma RowsKeep(w: World, rows': map<EventId, Row>, dispatches': map<EventId, seq<Dispatch>>)
    requires Inv(w) && rows'.Keys >= w.rows.Keys == w.dispatches.Keys && dispatches'.Keys == rows'.Keys
    requires forall id :: id in rows' ==> id < w.next && RowOk(rows'[id], dispatches'[id])
    requires forall id :: id in w.rows ==>
               rows'[id].maxAttempts == w.rows[id].maxAttempts && rows'[id].attempt >= w.rows[id].attempt
    requires forall b :: b in w.batches && w.batches[b].Holds() ==>
               w.batches[b].todo[0].id in w.rows && rows'[w.batches[b].todo[0].id] == w.rows[w.batches[b].todo[0].id]
    ensures Inv(w.(rows := rows', dispatches := dispatches'))
  {
    var w' := w.(rows := rows', dispatches := dispatches');
    forall a | a in w'.batches
      ensures BatchOk(w', w'.batches[a])
    {
      assert BatchOk(w, w.batches[a]);
      assert forall c :: CandidateOk(w, c) ==> CandidateOk(w', c);
    }
  }

  lemma HeldRows(w: World)
    requires Inv(w)
    ensures forall b :: b in w.batches && w.batches[b].Holds() ==>
              w.batches[b].todo[0].id in w.rows && w.rows[w.batches[b].todo[0].id].status == PROCESSING
  {
    forall b | b in w.batches && w.batches[b].Holds()
      ensures w.batches[b].todo[0].id in w.rows && w.rows[w.batches[b].todo[0].id].status == PROCESSING
    {
      assert BatchOk(w, w.batches[b]);
    }
  }

  lemma ReclaimKeeps(w: World, b: BatchId)
    requires Inv(w) && SafeReclaim(w) && b in w.batches && w.batches[b].stage.Reclaiming?
    ensures Inv(NextClaim(w, b, w.batches[b], true, []))
  {
    var batch := w.batches[b];
    HeldRows(w);
    RowsKeep(w, Reclaimed(w.rows, batch.now), w.dispatches);
    var w1 := w.(rows := Reclaimed(w.rows, batch.now));
    assert w1 == w.(rows := Reclaimed(w.rows, batch.now), dispatches := w.dispatches);
    assert BatchOk(w1, batch);
    BatchKeeps(w1, b, batch.(stage := Selecting));
  }

  lemma EnqueueKeeps(w: World, maxAttempts: int)
    requires Inv(w)
    ensures Inv(Next(w, Enqueue(maxAttempts)))
  {
    HeldRows(w);
    var w1 := w.(next := w.next + 1);
    assert Inv(w1) by {
      forall a | a in w1.batches
        ensures BatchOk(w1, w1.batches[a])
      {
        assert BatchOk(w, w.batches[a]);
        assert forall c :: CandidateOk(w, c) ==> CandidateOk(w1, c);
      }
    }
    RowsKeep(w1, w.rows[w.next := Row(PENDING, 0, maxAttempts, w.clock, None, w.clock)], w.dispatches[w.next := []]);
  }

  lemma ClaimKeeps(w: World, b: BatchId)
    requires Inv(w) && b in w.batches && w.batches[b].stage.Claiming?
    ensures Inv(NextClaim(w, b, w.batches[b], true, []))
  {
    var batch := w.batches[b];
    assert BatchOk(w, batch);
    EndKeeps(w, b);
    if batch.todo != [] {
      ContinueKeeps(w, b);
      var id := batch.todo[0].id;
      assert CandidateOk(w, batch.todo[0]);
      if w.rows[id].status == PENDING {
        var row := w.rows[id];
        var rows' := w.rows[id := row.(status := PROCESSING, lockedAt := Some(batch.now), attempt := row.attempt + 1)];
        var dispatches' := w.dispatches[id := w.dispatches[id] + [Dispatch(w.clock, Open)]];
        HeldRows(w);
        assert RowOk(rows'[id], dispatches'[id]);
        RowsKeep(w, rows', dispatches');
        TakeHold(w, w.(rows := rows', dispatches := dispatches'), b);
      }
    }
  }

  /** The claiming batch becomes the holder of a row that nobody held. */
  lemma TakeHold(w: World, w1: World, b: BatchId)
    requires Inv(w) && Inv(w1) && b in w.batches && w1.batches == w.batches
    requires w.batches[b].stage.Claiming? && w.batches[b].todo != []
    requires var c := w.batches[b].todo[0];
             && c.id in w.rows && w.rows[c.id].status == PENDING && c.attempt <= w.rows[c.id].attempt
             && c.id in w1.rows && w1.rows[c.id].status == PROCESSING
             && w1.rows[c.id].lockedAt == Some(w.batches[b].now) && w1.rows[c.id].attempt == w.rows[c.id].attempt + 1
    ensures Inv(w1.Goto(b, w.batches[b], Dispatching(w.rows[w.batches[b].todo[0].id].attempt + 1)))
  {
    var batch := w.batches[b].(stage := Dispatching(w.rows[w.batches[b].todo[0].id].attempt + 1));
    var w' := w1.(batches := w1.batches[b := batch]);
    HeldRows(w);
    assert BatchOk(w1, w1.batches[b]);
    forall a | a in w'.batches
      ensures BatchOk(w', w'.batches[a])
    {
      if a != b { assert BatchOk(w1, w1.batches[a]); }
      assert forall c :: CandidateOk(w1, c) ==> CandidateOk(w', c);
    }
  }

  function Freed(w: World, b: BatchId): World
    requires b in w.batches
  {
    w.(batches := w.batches[b := w.batches[b].(stage := Claiming)])
  }

  lemma LetGo(w: World, b: BatchId)
    requires Inv(w) && b in w.batches && w.batches[b].Holds()
    ensures Inv(Freed(w, b))
    ensures forall a :: a in w.batches && a != b && w.batches[a].Holds() ==>
              w.batches[a].todo[0].id in w.rows && w.batches[a].todo[0].id != w.batches[b].todo[0].id
  {
    assert BatchOk(w, w.batches[b]);
    BatchKeeps(w, b, w.batches[b].(stage := Claiming));
    HeldRows(w);
  }

  /** The holder lets go: its row and the fate of its dispatch may change together. */
  lemma SettleKeeps(w: World, b: BatchId, row': Row, fate: Fate)
    requires Inv(w) && b in w.batches && w.batches[b].Holds()
    requires var id := w.batches[b].todo[0].id;
             && id in w.rows && row'.attempt == w.rows[id].attempt && row'.maxAttempts == w.rows[id].maxAttempts
             && RowOk(row', w.Mark(id, w.batches[b].Number(), fate).dispatches[id])
    ensures var w1 := w.Put(w.batches[b].todo[0].id, row').Mark(w.batches[b].todo[0].id, w.batches[b].Number(), fate);
            Inv(w1.Continue(b, w.batches[b])) && Inv(w1.End(b))
  {
    var batch := w.batches[b];
    var id := batch.todo[0].id;
    LetGo(w, b);
    var w1 := w.Put(id, row').Mark(id, batch.Number(), fate);
    RowsKeep(Freed(w, b), w1.rows, w1.dispatches);
    var free := Freed(w, b).(rows := w1.rows, dispatches := w1.dispatches);
    ContinueKeeps(free, b);
    EndKeeps(free, b);
    SameFromFreed(w1, b);
    assert free == Freed(w1, b);
  }

  lemma SameFromFreed(w: World, b: BatchId)
    requires b in w.batches
    ensures Freed(w, b).Continue(b, Freed(w, b).batches[b]) == w.Continue(b, w.batches[b])
    ensures Freed(w, b).End(b) == w.End(b)
  {
    assert Freed(w, b).batches - {b} == w.batches - {b};
  }

  lemma RescheduleRowOk(row: Row, ds: seq<Dispatch>, number: nat, local: nat, stamp: Time, reply: seq<Delivery>)
    requires |ds| == row.attempt == number && 1 <= local <= number && !AllSucceeded(reply)
    requires Judge(reply, local, row.maxAttempts, stamp).Some?
    ensures var v := Judge(reply, local, row.maxAttempts, stamp).value;
            RowOk(Rescheduled(row, local, row.maxAttempts, stamp, v),
                  ds[number - 1 := ds[number - 1].(fate := Settled(Some(reply)))])
  {
    JudgeMeans(reply, local, row.maxAttempts, stamp);
  }

  lemma WriteKeeps(w: World, b: BatchId)
    requires Inv(w) && b in w.batches && w.batches[b].Holds() && !w.batches[b].stage.Dispatching?
    ensures Inv(NextHolding(w, b, w.batches[b], true, None))
  {
    var batch := w.batches[b];
    var c := batch.todo[0];
    assert BatchOk(w, batch);
    assert CandidateOk(w, c);
    var row, ds := w.rows[c.id], w.dispatches[c.id];
    match batch.stage {
      case Completing(number, reply) =>
        SettleKeeps(w, b, row.(status := COMPLETED, lockedAt := None), Settled(Some(reply)));
      case Rescheduling(number, stamp, reply) =>
        RescheduleRowOk(row, ds, number, batch.Local(), stamp, reply);
        var v := Judge(reply, batch.Local(), c.maxAttempts, stamp).value;
        SettleKeeps(w, b, Rescheduled(row, batch.Local(), c.maxAttempts, stamp, v), Settled(Some(reply)));
      case Catching(number, stamp) =>
        SettleKeeps(w, b, Rescheduled(row, batch.Local(), c.maxAttempts, stamp, CAUGHT), Settled(None));
    }
  }

  lemma LoseKeeps(w: World, b: BatchId)
    requires Inv(w) && b in w.batches && w.batches[b].Holds()
    ensures Inv(w.Mark(w.batches[b].todo[0].id, w.batches[b].Number(), Lost).End(b))
  {
    var batch := w.batches[b];
    var id := batch.todo[0].id;
    assert BatchOk(w, batch);
    SettleKeeps(w, b, w.rows[id], Lost);
    assert w.Put(id, w.rows[id]) == w;
  }

  // ----- Every step ---------------------------------------------------------------------------

  lemma HoldingKeeps(w: World, b: BatchId, ok: bool, reply: Option<seq<Delivery>>)
    requires Inv(w) && b in w.batches && w.batches[b].Holds()
    ensures Inv(NextHolding(w, b, w.batches[b], ok, reply))
  {
    assert BatchOk(w, w.batches[b]);
    if w.batches[b].stage.Dispatching? {
      DispatchKeeps(w, b, reply);
    } else if ok {
      WriteKeeps(w, b);
    } else if w.batches[b].stage.Catching? {
      LoseKeeps(w, b);
    } else {
      CatchKeeps(w, b);
    }
  }

  lemma NextKeeps(w: World, action: Action)
    requires Inv(w) && SafeReclaim(w)
    ensures Inv(Next(w, action))
  {
    match action {
      case Tick(t) => TickKeeps(w, t);
      case Enqueue(maxAttempts) => EnqueueKeeps(w, maxAttempts);
      case Begin(limit) => BeginKeeps(w, limit);
      case Crash(b) =>
        if b in w.batches {
          EndKeeps(w, b);
          if w.batches[b].Holds() { LoseKeeps(w, b); }
        }
      case Advance(b, ok, chosen, reply) =>
        if b in w.batches {
          EndKeeps(w, b);
          if w.batches[b].Holds() { HoldingKeeps(w, b, ok, reply); }
          else if ok { NotHoldingKeeps(w, b, chosen); }
        }
    }
  }

  lemma NotHoldingKeeps(w: World, b: BatchId, chosen: seq<EventId>)
    requires Inv(w) && SafeReclaim(w) && b in w.batches && !w.batches[b].Holds()
    ensures Inv(NextClaim(w, b, w.batches[b], true, chosen))
  {
    assert BatchOk(w, w.batches[b]);
    match w.batches[b].stage {
      case Reclaiming => ReclaimKeeps(w, b);
      case Selecting => SelectKeeps(w, b, chosen);
      case _ => ClaimKeeps(w, b);
    }
  }
}
