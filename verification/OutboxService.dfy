/** `processBatch` as code over the shared event table. Between two statements other batches may run and
    the clock may move. Every batch is proved to take exactly its course of module OutboxCalls, in the state
    and with the number in which that ends. */
module OutboxService {
  import opened Common
  import opened Backoff
  import opened WebhookPolicy
  import opened Outbox
  import opened OutboxCalls
  import opened Runs

  class Queue {
    var rows: map<EventId, Row>
    var clock: Time
    /** The program points of the batches in flight. */
    var batches: map<BatchId, Batch>
    var next: nat
    var dispatches: map<EventId, seq<Dispatch>>

    constructor (now: Time)
      ensures State() == Empty(now)
    {
      rows, clock, batches, next, dispatches := map[], now, map[], 0, map[];
    }

    function State(): World
      reads this
    {
      World(clock, rows, batches, next, dispatches)
    }

    /** What is left of batch b, for n more statements. */
    ghost function Rest(b: BatchId, env: nat -> Moment, i: nat, n: nat): Remainder
      reads this
    {
      Remaining(b, env, State(), i, n)
    }

    /** What other batches do before a statement. */
    method Others(b: BatchId, batch: Batch, m: Moment)
      requires Stands(State(), b, batch)
      modifies this
      ensures State() == Before(b, old(State()), m) && Stands(State(), b, batch)
    {
      ghost var start := State();
      ForeignLeavesBatch(start, b, batch, m.others);
      var i := 0;
      while i < |m.others|
        invariant 0 <= i <= |m.others|
        invariant State() == Iterate(Next, start, Foreign(b, m.others[..i]))
      {
        assert m.others[..i + 1] == m.others[..i] + [m.others[i]];
        ForeignGrows(start, b, m.others[..i], m.others[i]);
        if !BelongsTo(m.others[i], b) { Take(m.others[i]); }
        i := i + 1;
      }
      assert m.others[..i] == m.others;
    }

    method Take(action: Action)
      modifies this
      ensures State() == Next(old(State()), action)
    {
      var w := Next(State(), action);
      clock, rows, batches, next, dispatches := w.clock, w.rows, w.batches, w.next, w.dispatches;
    }

    // ----- Statements ---------------------------------------------------------------------------

    /** `updateMany` of stale PROCESSING rows. */
    method Reclaim(b: BatchId, batch: Batch, m: Moment)
      requires Stands(State(), b, batch) && batch.stage == Reclaiming
      modifies this
      ensures State() == Own(b, old(State()), m)
      ensures if m.ok then Stands(State(), b, batch.(stage := Selecting)) else b !in batches
      ensures rows == if m.ok then Reclaimed(old(rows), batch.now) else old(rows)
    {
      if m.ok {
        rows := map i | i in rows ::
                  if rows[i].status == PROCESSING && rows[i].lockedAt.Some?
                      && rows[i].lockedAt.value < batch.now - STALE
                  then rows[i].(status := PENDING, lockedAt := None) else rows[i];
        batches := batches[b := batch.(stage := Selecting)];
      } else {
        batches := batches - {b};
      }
    }

    /** `findMany` of due rows. The order among rows created together is the environment's choice; a choice
        that is no selection stands for a failed query. */
    method FindMany(b: BatchId, batch: Batch, m: Moment) returns (candidates: Option<seq<Candidate>>)
      requires Stands(State(), b, batch) && batch.stage == Selecting
      modifies this
      ensures State() == Own(b, old(State()), m) && rows == old(rows)
      ensures candidates.Some? <==> m.ok && Selection(rows, m.chosen, batch.now, batch.limit)
      ensures candidates.Some? ==>
                && |candidates.value| == |m.chosen| <= batch.limit
                && forall i :: 0 <= i < |m.chosen| ==>
                     && m.chosen[i] in rows
                     && candidates.value[i]
                        == Candidate(m.chosen[i], rows[m.chosen[i]].attempt, rows[m.chosen[i]].maxAttempts)
      ensures candidates.Some? ==>
                && (forall i :: 0 <= i < |m.chosen| ==>
                      rows[m.chosen[i]].status == PENDING && rows[m.chosen[i]].nextAttemptAt <= batch.now)
                && forall id :: id in rows && rows[id].status == PENDING && rows[id].nextAttemptAt <= batch.now
                                && id !in m.chosen ==>
                     |m.chosen| == batch.limit
                     && forall i :: 0 <= i < |m.chosen| ==> rows[m.chosen[i]].createdAt <= rows[id].createdAt
      ensures if candidates.Some? && candidates.value != []
              then Stands(State(), b, batch.(todo := candidates.value, stage := Claiming)) else b !in batches
    {
      if !m.ok || !Selection(rows, m.chosen, batch.now, batch.limit) {
        candidates, batches := None, batches - {b};
        return;
      }
      candidates := Some(Candidates(rows, m.chosen));
      batches := if m.chosen == [] then batches - {b}
                 else batches[b := batch.(todo := candidates.value, stage := Claiming)];
    }

    /** The batch moves on to its next candidate, if any. */
    method MoveOn(b: BatchId, batch: Batch)
      requires b in batches
      modifies this`batches
      ensures State() == old(State()).Continue(b, batch)
    {
      if |batch.todo| <= 1 {
        batches := batches - {b};
      } else {
        batches := batches[b := batch.(todo := batch.todo[1..], stage := Claiming)];
      }
    }

    predicate MovedOn(b: BatchId, batch: Batch)
      reads this
    {
      if |batch.todo| <= 1 then b !in batches
      else Stands(State(), b, batch.(todo := batch.todo[1..], stage := Claiming))
    }

    /** `updateMany where id and PENDING`: the claim. */
    method Claim(b: BatchId, batch: Batch, m: Moment) returns (number: Option<nat>)
      requires Stands(State(), b, batch) && batch.stage == Claiming && batch.todo != []
      modifies this
      ensures State() == Own(b, old(State()), m)
      ensures var id := batch.todo[0].id;
              && (number.Some? <==> m.ok && old(rows)[id].status == PENDING)
              && rows == if number.Some?
                         then old(rows)[id := old(rows)[id].(status := PROCESSING, lockedAt := Some(batch.now),
                                                             attempt := old(rows)[id].attempt + 1)]
                         else old(rows)
      ensures if number.Some? then Stands(State(), b, batch.(stage := Dispatching(number.value)))
              else if m.ok then MovedOn(b, batch) else b !in batches
    {
      var id := batch.todo[0].id;
      if !m.ok {
        number, batches := None, batches - {b};
        return;
      }
      if rows[id].status != PENDING {
        MoveOn(b, batch);
        return None;
      }
      number := Some(rows[id].attempt + 1);
      rows := rows[id := rows[id].(status := PROCESSING, lockedAt := Some(batch.now), attempt := number.value)];
      dispatches := dispatches[id := (if id in dispatches then dispatches[id] else []) + [Dispatch(clock, Open)]];
      batches := batches[b := batch.(stage := Dispatching(number.value))];
    }

    /** Notes what became of a dispatch. */
    method Note(id: EventId, number: nat, fate: Fate)
      modifies this`dispatches
      ensures State() == old(State()).Mark(id, number, fate)
    {
      if id in dispatches && 1 <= number <= |dispatches[id]| {
        dispatches := dispatches[id := dispatches[id][number - 1 := dispatches[id][number - 1].(fate := fate)]];
      }
    }

    /** `dispatch`, and what the reply leads to. */
    method Send(b: BatchId, batch: Batch, m: Moment) returns (sent: Batch)
      requires Stands(State(), b, batch) && batch.todo != [] && batch.stage.Dispatching?
      modifies this
      ensures State() == Own(b, old(State()), m) && Stands(State(), b, sent) && rows == old(rows)
      ensures sent == batch.(stage := AfterDispatch(batch, batch.Number(), m.reply, clock))
    {
      sent := batch.(stage := AfterDispatch(batch, batch.Number(), m.reply, clock));
      batches := batches[b := sent];
    }

    /** The COMPLETED write; if it fails, the catch clause is next. */
    method Complete(b: BatchId, batch: Batch, m: Moment)
      requires Stands(State(), b, batch) && batch.todo != [] && batch.stage.Completing?
      modifies this
      ensures State() == Own(b, old(State()), m)
      ensures var id := batch.todo[0].id;
              rows == if m.ok then old(rows)[id := old(rows)[id].(status := COMPLETED, lockedAt := None)] else old(rows)
      ensures if m.ok then MovedOn(b, batch) else Stands(State(), b, batch.(stage := Catching(batch.Number(), clock)))
    {
      var id, number := batch.todo[0].id, batch.Number();
      if m.ok {
        rows := rows[id := rows[id].(status := COMPLETED, lockedAt := None)];
        Note(id, number, Settled(Some(batch.stage.reply)));
        MoveOn(b, batch);
      } else {
        batches := batches[b := batch.(stage := Catching(number, clock))];
      }
    }

    /** `reschedule` with a verdict, in the try block or in the catch clause. */
    method Reschedule(b: BatchId, batch: Batch, stamp: Time, v: Verdict, m: Moment)
      requires Stands(State(), b, batch) && batch.todo != []
      requires if batch.stage.Rescheduling?
               then stamp == batch.stage.stamp
                    && Judge(batch.stage.reply, batch.Local(), batch.todo[0].maxAttempts, stamp) == Some(v)
               else batch.stage.Catching? && batch.stage.stamp == stamp && v == CAUGHT
      modifies this
      ensures State() == Own(b, old(State()), m)
      ensures var c := batch.todo[0];
              rows == if m.ok
                      then old(rows)[c.id := Rescheduled(old(rows)[c.id], c.attempt + 1, c.maxAttempts, stamp, v)]
                      else old(rows)
      ensures if m.ok then MovedOn(b, batch)
              else if batch.stage.Catching? then b !in batches
              else Stands(State(), b, batch.(stage := Catching(batch.Number(), clock)))
    {
      var c, number, attempt := batch.todo[0], batch.Number(), batch.todo[0].attempt + 1;
      if m.ok {
        var exhausted := !v.retryable || attempt >= c.maxAttempts;
        var delay := if v.delay.Some? then v.delay.value else Min(MAX_BACKOFF, 1000 * Pow2(Max(0, attempt - 1)));
        rows := rows[c.id := rows[c.id].(status := if exhausted then DEAD else PENDING,
                                         nextAttemptAt := stamp + delay, lockedAt := None)];
        Note(c.id, number, Settled(if batch.stage.Rescheduling? then Some(batch.stage.reply) else None));
        MoveOn(b, batch);
      } else if batch.stage.Catching? {
        Note(c.id, number, Lost);
        batches := batches - {b};
      } else {
        batches := batches[b := batch.(stage := Catching(number, clock))];
      }
    }

    // ----- Statements as the next of the course -------------------------------------------------

    method ReclaimNext(ghost r: Remainder, b: BatchId, batch: Batch, env: nat -> Moment, i: nat, n: nat)
        returns (reclaimed: bool)
      requires r == Rest(b, env, i, n)
      requires Stands(State(), b, batch) && batch.stage == Reclaiming && n > 0
      modifies this
      ensures if reclaimed
              then Stands(State(), b, batch.(stage := Selecting)) && r == Rest(b, env, i + 1, n - 1)
              else Ends(r, State(), None)
    {
      Found(b, env, State(), batch, i, n);
      Others(b, batch, env(i));
      Reclaim(b, batch, env(i));
      reclaimed := env(i).ok;
    }

    method FindManyNext(ghost r: Remainder, b: BatchId, batch: Batch, env: nat -> Moment, i: nat, n: nat)
        returns (candidates: Option<seq<Candidate>>)
      requires r == Rest(b, env, i, n)
      requires Stands(State(), b, batch) && batch.stage == Selecting && n > 0
      modifies this
      ensures if candidates.None? then Ends(r, State(), None)
              else if candidates.value == [] then Ends(r, State(), Some(0))
              else && |candidates.value| <= batch.limit
                   && Stands(State(), b, batch.(todo := candidates.value, stage := Claiming))
                   && r == Rest(b, env, i + 1, n - 1)
    {
      Found(b, env, State(), batch, i, n);
      Others(b, batch, env(i));
      candidates := FindMany(b, batch, env(i));
    }

    method ClaimNext(ghost r: Remainder, b: BatchId, batch: Batch, env: nat -> Moment, i: nat, n: nat)
        returns (won: bool, claimed: Batch)
      requires r == Rest(b, env, i, n)
      requires Stands(State(), b, batch) && batch.stage == Claiming && batch.todo != [] && n > 0
      modifies this
      ensures won ==>
                && Stands(State(), b, claimed) && claimed.stage.Dispatching?
                && claimed == batch.(stage := claimed.stage)
                && r == Rest(b, env, i + 1, n - 1)
      ensures !won ==> if env(i).ok then MovesOn(b, batch, r, env, State(), i + 1, n - 1, 0)
                       else Ends(r, State(), None)
    {
      Found(b, env, State(), batch, i, n);
      Others(b, batch, env(i));
      var number := Claim(b, batch, env(i));
      won := number.Some?;
      claimed := if won then batch.(stage := Dispatching(number.value)) else batch;
    }

    method SendNext(ghost r: Remainder, b: BatchId, batch: Batch, env: nat -> Moment, i: nat, n: nat)
        returns (sent: Batch)
      requires r == Rest(b, env, i, n)
      requires Stands(State(), b, batch) && batch.todo != [] && batch.stage.Dispatching? && n > 0
      modifies this
      ensures Stands(State(), b, sent) && r == Rest(b, env, i + 1, n - 1)
      ensures sent == batch.(stage := AfterDispatch(batch, batch.Number(), env(i).reply, clock))
    {
      Found(b, env, State(), batch, i, n);
      Others(b, batch, env(i));
      sent := Send(b, batch, env(i));
    }

    /** The rest of the try block: COMPLETED or a reschedule by the policy. */
    method WriteNext(ghost r: Remainder, b: BatchId, batch: Batch, env: nat -> Moment, i: nat, n: nat)
        returns (stamp: Time)
      requires r == Rest(b, env, i, n)
      requires Stands(State(), b, batch) && batch.todo != [] && n > 0
      requires batch.stage.Completing? || (batch.stage.Rescheduling? &&
                 Judge(batch.stage.reply, batch.Local(), batch.todo[0].maxAttempts, batch.stage.stamp).Some?)
      modifies this
      ensures if env(i).ok then MovesOn(b, batch, r, env, State(), i + 1, n - 1, 1)
              else && Stands(State(), b, batch.(stage := Catching(batch.Number(), stamp)))
                   && r == Rest(b, env, i + 1, n - 1)
    {
      Found(b, env, State(), batch, i, n);
      Others(b, batch, env(i));
      if batch.stage.Completing? {
        Complete(b, batch, env(i));
      } else {
        var verdict := Judge(batch.stage.reply, batch.Local(), batch.todo[0].maxAttempts, batch.stage.stamp);
        Reschedule(b, batch, batch.stage.stamp, verdict.value, env(i));
      }
      stamp := clock;
    }

    /** The catch clause. */
    method CatchNext(ghost r: Remainder, b: BatchId, batch: Batch, number: nat, stamp: Time, env: nat -> Moment, i: nat,
                     n: nat)
      requires r == Rest(b, env, i, n)
      requires Stands(State(), b, batch.(stage := Catching(number, stamp))) && batch.todo != [] && n > 0
      modifies this
      ensures if env(i).ok then MovesOn(b, batch, r, env, State(), i + 1, n - 1, 1)
              else Ends(r, State(), None)
    {
      var caught := batch.(stage := Catching(number, stamp));
      Found(b, env, State(), caught, i, n);
      Others(b, caught, env(i));
      Reschedule(b, caught, stamp, CAUGHT, env(i));
    }

    // ----- Operations ---------------------------------------------------------------------------

    /** The write, and the catch clause if it fails. */
    method Settle(ghost r: Remainder, b: BatchId, sent: Batch, env: nat -> Moment, i: nat, n: nat)
        returns (settled: bool, j: nat, k: nat)
      requires r == Rest(b, env, i, n)
      requires Stands(State(), b, sent) && sent.todo != [] && n >= 2
      requires sent.stage.Completing? || (sent.stage.Rescheduling? &&
                 Judge(sent.stage.reply, sent.Local(), sent.todo[0].maxAttempts, sent.stage.stamp).Some?)
      modifies this
      ensures if settled then MovesOn(b, sent, r, env, State(), j, k, 1) && k >= n - 2
              else Ends(r, State(), None)
    {
      var stamp := WriteNext(r, b, sent, env, i, n);
      if env(i).ok {
        settled, j, k := true, i + 1, n - 1;
      } else {
        CatchNext(r, b, sent, sent.Number(), stamp, env, i + 1, n - 1);
        settled, j, k := env(i + 1).ok, i + 2, n - 2;
      }
    }

    /** Dispatch and settle one claimed event; false if the catch clause failed and the batch is over. */
    method Deliver(ghost r: Remainder, b: BatchId, claimed: Batch, env: nat -> Moment, i: nat, n: nat)
        returns (settled: bool, j: nat, k: nat)
      requires r == Rest(b, env, i, n)
      requires Stands(State(), b, claimed) && claimed.todo != [] && claimed.stage.Dispatching? && n >= 3
      modifies this
      ensures if settled then MovesOn(b, claimed, r, env, State(), j, k, 1) && k >= n - 3
              else Ends(r, State(), None)
    {
      var sent := SendNext(r, b, claimed, env, i, n);
      if sent.stage.Catching? {
        CatchNext(r, b, claimed, sent.stage.number, sent.stage.stamp, env, i + 1, n - 1);
        settled, j, k := env(i + 1).ok, i + 2, n - 2;
      } else {
        settled, j, k := Settle(r, b, sent, env, i + 1, n - 1);
      }
    }

    /** One candidate: claim it, deliver it if the claim succeeds; false if the batch is over. */
    method ProcessOne(ghost r: Remainder, b: BatchId, batch: Batch, env: nat -> Moment, i: nat, n: nat)
        returns (done: bool, settled: nat, j: nat, k: nat)
      requires r == Rest(b, env, i, n)
      requires Stands(State(), b, batch) && batch.stage == Claiming && batch.todo != [] && n >= 4
      modifies this
      ensures settled <= 1
      ensures if done then MovesOn(b, batch, r, env, State(), j, k, settled) && k >= n - 4
              else Ends(r, State(), None)
    {
      var won, claimed := ClaimNext(r, b, batch, env, i, n);
      if !won { return env(i).ok, 0, i + 1, n - 1; }
      done, j, k := Deliver(r, b, claimed, env, i + 1, n - 1);
      settled := 1;
    }

    method Start(limit: int) returns (b: BatchId, batch: Batch)
      modifies this
      ensures State() == Next(old(State()), Begin(limit)) && b == old(next) && Stands(State(), b, batch)
      ensures batch == Batch(clock, SafeLimit(limit), [], Reclaiming)
    {
      b, batch := next, Batch(clock, SafeLimit(limit), [], Reclaiming);
      batches, next := batches[b := batch], next + 1;
    }

    /** Reclaim and select. */
    method Prepare(ghost r: Remainder, b: BatchId, batch: Batch, env: nat -> Moment, i: nat, n: nat)
        returns (candidates: Option<seq<Candidate>>)
      requires r == Rest(b, env, i, n)
      requires Stands(State(), b, batch) && batch.stage == Reclaiming && n >= 2
      modifies this
      ensures if candidates.None? then Ends(r, State(), None)
              else if candidates.value == [] then Ends(r, State(), Some(0))
              else && |candidates.value| <= batch.limit
                   && Stands(State(), b, batch.(todo := candidates.value, stage := Claiming))
                   && r == Rest(b, env, i + 2, n - 2)
    {
      var reclaimed := ReclaimNext(r, b, batch, env, i, n);
      if !reclaimed { return None; }
      candidates := FindManyNext(r, b, batch.(stage := Selecting), env, i + 1, n - 1);
    }

    /** The loop over the candidates; it returns the number of events settled, or throws. */
    method ProcessAll(ghost r: Remainder, b: BatchId, batch: Batch, env: nat -> Moment, at: nat, n: nat)
        returns (processed: Option<nat>)
      requires r == Rest(b, env, at, n)
      requires Stands(State(), b, batch) && batch.stage == Claiming && batch.todo != [] && n >= 4 * |batch.todo|
      modifies this
      ensures Ends(r, State(), processed) && (processed.Some? ==> processed.value <= |batch.todo|)
    {
      var todo, count, i, k := batch.todo, 0, at, n;
      while todo != []
        invariant |todo| + count <= |batch.todo| && 4 * |todo| <= k
        invariant if todo == [] then Ends(r, State(), Some(count))
                  else && Stands(State(), b, batch.(todo := todo, stage := Claiming))
                       && r == Rest(b, env, i, k).Plus(count)
        decreases |todo|
      {
        var done, settled;
        done, settled, i, k := ProcessOne(Rest(b, env, i, k), b, batch.(todo := todo, stage := Claiming), env, i, k);
        if !done { return None; }
        todo, count := todo[1..], count + settled;
      }
      processed := Some(count);
    }

    /** Reclaim, select and settle. */
    method RunBatch(ghost r: Remainder, b: BatchId, batch: Batch, env: nat -> Moment, n: nat)
        returns (processed: Option<nat>)
      requires r == Rest(b, env, 0, n) && n >= StepsFor(batch.limit)
      requires Stands(State(), b, batch) && batch.stage == Reclaiming
      modifies this
      ensures Ends(r, State(), processed) && (processed.Some? ==> processed.value <= batch.limit)
    {
      var candidates := Prepare(r, b, batch, env, 0, n);
      if candidates.None? { return None; }
      if candidates.value == [] { return Some(0); }
      processed := ProcessAll(r, b, batch.(todo := candidates.value, stage := Claiming), env, 2, n - 2);
    }

    /** One batch; it returns the number of events that were claimed and settled, or throws. */
    method ProcessBatch(limit: int, env: nat -> Moment) returns (processed: Option<nat>)
      modifies this
      ensures var begun := Next(old(State()), Begin(limit));
              Ends(Remaining(old(next), env, begun, 0, StepsFor(SafeLimit(limit))), State(), processed)
      ensures processed.Some? ==> processed.value <= 100 && (limit >= 1 ==> processed.value <= limit)
    {
      var b, batch := Start(limit);
      var n := StepsFor(SafeLimit(limit));
      processed := RunBatch(Rest(b, env, 0, n), b, batch, env, n);
    }
  }
}
