/** What a batch settles: exactly when the event in hand is settled, the number it reports, and what an
    undisturbed batch leaves behind. */
module OutboxOutcomes {
  import opened Common
  import opened Backoff
  import opened WebhookPolicy
  import opened Outbox
  import opened Runs
  import opened OutboxCalls

  // ----- One event ----------------------------------------------------------------------------

  /** Dispatching leads straight to the catch clause: the dispatch threw, or the policy did. */
  predicate Throws(batch: Batch, reply: Option<seq<Delivery>>, clock: Time)
    requires batch.todo != []
  {
    || reply.None?
    || (!AllSucceeded(reply.value)
        && Judge(reply.value, batch.Local(), batch.todo[0].maxAttempts, clock).None?)
  }

  lemma CatchOutcome(b: BatchId, env: nat -> Moment, w: World, batch: Batch, stage: Stage, i: nat, n: nat)
      returns (w': World)
    requires Stands(w, b, batch.(stage := stage)) && batch.todo != [] && stage.Catching? && n > 0
    ensures if env(i).ok then MovesOn(b, batch, Remaining(b, env, w, i, n), env, w', i + 1, n - 1, 1)
            else Ends(Remaining(b, env, w, i, n), w', None)
  {
    Found(b, env, w, batch.(stage := stage), i, n);
    w' := Own(b, Before(b, w, env(i)), env(i));
  }

  lemma WriteOutcome(b: BatchId, env: nat -> Moment, w: World, batch: Batch, i: nat, n: nat) returns (w': World)
    requires Stands(w, b, batch) && batch.todo != [] && n > 0
    requires batch.stage.Completing? || (batch.stage.Rescheduling? &&
               Judge(batch.stage.reply, batch.Local(), batch.todo[0].maxAttempts, batch.stage.stamp).Some?)
    ensures if env(i).ok then MovesOn(b, batch, Remaining(b, env, w, i, n), env, w', i + 1, n - 1, 1)
            else && Stands(w', b, batch.(stage := Catching(batch.Number(), Before(b, w, env(i)).clock)))
                 && Remaining(b, env, w, i, n) == Remaining(b, env, w', i + 1, n - 1)
  {
    Found(b, env, w, batch, i, n);
    w' := Own(b, Before(b, w, env(i)), env(i));
  }

  lemma DispatchOutcome(b: BatchId, env: nat -> Moment, w: World, batch: Batch, i: nat, n: nat) returns (w': World)
    requires Stands(w, b, batch) && batch.todo != [] && batch.stage.Dispatching? && n > 0
    ensures var clock := Before(b, w, env(i)).clock;
            && Stands(w', b, batch.(stage := AfterDispatch(batch, batch.Number(), env(i).reply, clock)))
            && Remaining(b, env, w, i, n) == Remaining(b, env, w', i + 1, n - 1)
  {
    Found(b, env, w, batch, i, n);
    w' := Own(b, Before(b, w, env(i)), env(i));
  }

  lemma ClaimOutcome(b: BatchId, env: nat -> Moment, w: World, batch: Batch, i: nat, n: nat) returns (w': World)
    requires Stands(w, b, batch) && batch.todo != [] && batch.stage == Claiming && n > 0
    ensures var u, id := Before(b, w, env(i)), batch.todo[0].id;
            && w' == Own(b, u, env(i)) && id in u.rows
            && if !env(i).ok then Ends(Remaining(b, env, w, i, n), w', None)
               else if u.rows[id].status != PENDING
               then MovesOn(b, batch, Remaining(b, env, w, i, n), env, w', i + 1, n - 1, 0)
               else && Stands(w', b, batch.(stage := Dispatching(u.rows[id].attempt + 1)))
                    && Remaining(b, env, w, i, n) == Remaining(b, env, w', i + 1, n - 1)
  {
    Found(b, env, w, batch, i, n);
    w' := Own(b, Before(b, w, env(i)), env(i));
  }

  /** A failed write leads to the catch clause. */
  lemma RescuedOutcome(b: BatchId, env: nat -> Moment, w: World, batch: Batch, i: nat, n: nat) returns (w': World)
    requires Stands(w, b, batch) && batch.todo != [] && n >= 2 && !env(i).ok
    requires batch.stage.Completing? || (batch.stage.Rescheduling? &&
               Judge(batch.stage.reply, batch.Local(), batch.todo[0].maxAttempts, batch.stage.stamp).Some?)
    ensures if env(i + 1).ok then MovesOn(b, batch, Remaining(b, env, w, i, n), env, w', i + 2, n - 2, 1)
            else Ends(Remaining(b, env, w, i, n), w', None)
  {
    var w1 := WriteOutcome(b, env, w, batch, i, n);
    w' := CatchOutcome(b, env, w1, batch, Catching(batch.Number(), Before(b, w, env(i)).clock), i + 1, n - 1);
  }

  /** A claimed event is settled if and only if its write or the catch clause after it succeeds; else the batch
      throws. */
  lemma DeliveryOutcome(b: BatchId, env: nat -> Moment, w: World, batch: Batch, i: nat, n: nat)
      returns (w': World, j: nat, k: nat)
    requires Stands(w, b, batch) && batch.todo != [] && batch.stage.Dispatching? && n >= 3
    ensures var thrown := Throws(batch, env(i).reply, Before(b, w, env(i)).clock);
            if env(i + 1).ok || (!thrown && env(i + 2).ok)
            then MovesOn(b, batch, Remaining(b, env, w, i, n), env, w', j, k, 1) && k >= n - 3
            else Ends(Remaining(b, env, w, i, n), w', None)
  {
    var w1 := DispatchOutcome(b, env, w, batch, i, n);
    var sent := batch.(stage := AfterDispatch(batch, batch.Number(), env(i).reply, Before(b, w, env(i)).clock));
    j, k := i + 2, n - 2;
    if sent.stage.Catching? {
      w' := CatchOutcome(b, env, w1, batch, sent.stage, i + 1, n - 1);
    } else if env(i + 1).ok {
      w' := WriteOutcome(b, env, w1, sent, i + 1, n - 1);
    } else {
      j, k := i + 3, n - 3;
      w' := RescuedOutcome(b, env, w1, sent, i + 1, n - 1);
    }
  }

  /** The event in hand is settled if and only if it is PENDING when the claim finds it, the claim succeeds,
      and so does its write or the catch clause after it; it is passed over if it is not PENDING, and the
      batch throws in all other cases. */
  lemma EventOutcome(b: BatchId, env: nat -> Moment, w: World, batch: Batch, i: nat, n: nat)
      returns (w': World, j: nat, k: nat)
    requires Stands(w, b, batch) && batch.todo != [] && batch.stage == Claiming && n >= 4
    ensures var u, id, r := Before(b, w, env(i)), batch.todo[0].id, Remaining(b, env, w, i, n);
            var thrown := Throws(batch, env(i + 1).reply, Before(b, Own(b, u, env(i)), env(i + 1)).clock);
            && id in u.rows
            && if env(i).ok && u.rows[id].status != PENDING then MovesOn(b, batch, r, env, w', j, k, 0) && k >= n - 4
               else if env(i).ok && (env(i + 2).ok || (!thrown && env(i + 3).ok))
               then MovesOn(b, batch, r, env, w', j, k, 1) && k >= n - 4
               else Ends(r, w', None)
  {
    w' := ClaimOutcome(b, env, w, batch, i, n);
    j, k := i + 1, n - 1;
    if env(i).ok && Before(b, w, env(i)).rows[batch.todo[0].id].status == PENDING {
      w', j, k := DeliveryOutcome(b, env, w', w'.batches[b], i + 1, n - 1);
    }
  }

  // ----- What is reported ---------------------------------------------------------------------

  /** The statement claims the event in hand. */
  predicate Claims(b: BatchId, u: World, last: Action) {
    && last.Advance? && last.ok && b in u.batches && u.batches[b].stage.Claiming? && u.batches[b].todo != []
    && var id := u.batches[b].todo[0].id; id in u.rows && u.rows[id].status == PENDING
  }

  function Claimed(b: BatchId, env: nat -> Moment, w: World, i: nat, n: nat): nat {
    Count(BatchThread(b), env, w, i, n, (u: World, last: Action) => Claims(b, u, last))
  }

  lemma StepClaimed(b: BatchId, env: nat -> Moment, w: World, i: nat, n: nat)
    requires n > 0 && b in w.batches
    ensures var u := Before(b, w, env(i));
            Claimed(b, env, w, i, n) == (if Claims(b, u, OwnAction(b, u, env(i))) then 1 else 0)
                                        + Claimed(b, env, Own(b, u, env(i)), i + 1, n - 1)
  {
    CountUnfolds(BatchThread(b), env, w, i, n, (u: World, last: Action) => Claims(b, u, last));
  }

  function Held(w: World, b: BatchId): nat {
    if b in w.batches && w.batches[b].Holds() then 1 else 0
  }

  lemma ClaimerKeeps(b: BatchId, u: World, batch: Batch, last: Action)
    requires Stands(u, b, batch) && !batch.Holds() && last.Advance?
    ensures var w' := NextClaim(u, b, batch, last.ok, last.chosen);
            && (b in w'.batches ==> Stands(w', b, w'.batches[b]))
            && Held(w', b) == if Claims(b, u, last) then 1 else 0
  {
  }

  lemma HolderKeeps(b: BatchId, u: World, batch: Batch, last: Action)
    requires Stands(u, b, batch) && batch.Holds() && last.Advance?
    ensures var w' := NextHolding(u, b, batch, last.ok, last.reply);
            && (b in w'.batches ==> Stands(w', b, w'.batches[b]))
            && (b in w'.batches || last.ok ==> Held(w', b) + (if Settles(b, u, last) then 1 else 0) == 1)
            && (!last.ok ==> !Settles(b, u, last))
            && (b !in w'.batches && !last.ok ==> batch.stage.Catching?)
  {
  }

  /** A batch that returns reports exactly the events it claimed; one that throws left at most one of them
      open. */
  lemma {:induction false} ReportsItsClaims(b: BatchId, env: nat -> Moment, w: World, i: nat, n: nat)
    requires b in w.batches && Stands(w, b, w.batches[b])
    ensures var r := Remaining(b, env, w, i, n);
            && (Reported(r).Some? ==> r.tally == Held(w, b) + Claimed(b, env, w, i, n))
            && r.tally <= Held(w, b) + Claimed(b, env, w, i, n) <= r.tally + 1
    decreases n
  {
    if n > 0 {
      var u := Before(b, w, env(i));
      var last, w' := OwnAction(b, u, env(i)), Own(b, u, env(i));
      Found(b, env, w, w.batches[b], i, n);
      StepClaimed(b, env, w, i, n);
      if w.batches[b].Holds() {
        HolderKeeps(b, u, w.batches[b], last);
      } else {
        ClaimerKeeps(b, u, w.batches[b], last);
      }
      if b in w'.batches { ReportsItsClaims(b, env, w', i + 1, n - 1); }
    }
  }

  // ----- An undisturbed batch -----------------------------------------------------------------

  function Locked(row: Row, now: Time): Row {
    row.(status := PROCESSING, lockedAt := Some(now), attempt := row.attempt + 1)
  }

  /** The row after its event is claimed and its dispatch settled, all at one time. */
  function SettledRow(row: Row, now: Time, clock: Time, reply: Option<seq<Delivery>>): Row {
    var locked := Locked(row, now);
    if reply.Some? && AllSucceeded(reply.value) then locked.(status := COMPLETED, lockedAt := None)
    else
      var v := if reply.None? then None else Judge(reply.value, row.attempt + 1, row.maxAttempts, clock);
      Rescheduled(locked, row.attempt + 1, row.maxAttempts, clock, if v.None? then CAUGHT else v.value)
  }

  ghost predicate Quiet(env: nat -> Moment) {
    forall j: nat :: env(j).ok && env(j).others == []
  }

  /** The candidates are as selected, each once. */
  predicate Fresh(w: World, todo: seq<Candidate>) {
    && (forall i :: 0 <= i < |todo| ==>
          && todo[i].id in w.rows && w.rows[todo[i].id].status == PENDING
          && todo[i].attempt == w.rows[todo[i].id].attempt && todo[i].maxAttempts == w.rows[todo[i].id].maxAttempts)
    && forall i, j :: 0 <= i < j < |todo| ==> todo[i].id != todo[j].id
  }

  /** All rows after the candidates are settled one by one, each with the reply to its own dispatch. */
  function SettledRows(rows: map<EventId, Row>, todo: seq<Candidate>, now: Time, clock: Time, env: nat -> Moment,
                       i: nat)
    : map<EventId, Row>
  {
    if todo == [] || todo[0].id !in rows then rows
    else
      SettledRows(rows[todo[0].id := SettledRow(rows[todo[0].id], now, clock, env(i + 1).reply)],
                  todo[1..], now, clock, env, i + 3)
  }

  /** In w' the first candidate has this row, and all others are as in rows. */
  ghost predicate FirstSettled(
    b: BatchId, env: nat -> Moment, batch: Batch, r: Remainder, clock: Time, rows: map<EventId, Row>, row: Row,
    w': World, j: nat, k: nat)
    requires batch.todo != []
  {
    w'.clock == clock && w'.rows == rows[batch.todo[0].id := row] && MovesOn(b, batch, r, env, w', j, k, 1)
  }

  lemma QuietClaim(b: BatchId, env: nat -> Moment, w: World, batch: Batch, i: nat, n: nat) returns (w1: World)
    requires Quiet(env) && Stands(w, b, batch) && batch.stage == Claiming && batch.todo != [] && n >= 1
    requires w.rows[batch.todo[0].id].status == PENDING
    ensures var id, row := batch.todo[0].id, w.rows[batch.todo[0].id];
            && w1.clock == w.clock && Stands(w1, b, batch.(stage := Dispatching(row.attempt + 1)))
            && w1.rows == w.rows[id := Locked(row, batch.now)]
            && Remaining(b, env, w, i, n) == Remaining(b, env, w1, i + 1, n - 1)
  {
    w1 := ClaimOutcome(b, env, w, batch, i, n);
    assert w1 == NextClaim(w, b, batch, true, env(i).chosen);
  }

  lemma QuietDispatch(b: BatchId, env: nat -> Moment, w: World, batch: Batch, i: nat, n: nat) returns (w1: World)
    requires Quiet(env) && Stands(w, b, batch) && batch.todo != [] && batch.stage.Dispatching? && n >= 1
    ensures && w1.clock == w.clock && w1.rows == w.rows
            && Stands(w1, b, batch.(stage := AfterDispatch(batch, batch.Number(), env(i).reply, w.clock)))
            && Remaining(b, env, w, i, n) == Remaining(b, env, w1, i + 1, n - 1)
  {
    Found(b, env, w, batch, i, n);
    w1 := Own(b, w, env(i));
  }

  lemma QuietWrite(b: BatchId, env: nat -> Moment, w: World, batch: Batch, i: nat, n: nat, rows: map<EventId, Row>,
                   reply: Option<seq<Delivery>>) returns (w1: World)
    requires Quiet(env) && Stands(w, b, batch) && batch.Holds() && n >= 1
    requires var c := batch.todo[0];
             && c.id in rows && c.attempt == rows[c.id].attempt && c.maxAttempts == rows[c.id].maxAttempts
             && w.rows == rows[c.id := Locked(rows[c.id], batch.now)]
             && batch.stage == AfterDispatch(batch, batch.Number(), reply, w.clock)
    ensures FirstSettled(b, env, batch, Remaining(b, env, w, i, n), w.clock, rows,
                         SettledRow(rows[batch.todo[0].id], batch.now, w.clock, reply), w1, i + 1, n - 1)
  {
    Found(b, env, w, batch, i, n);
    w1 := Own(b, w, env(i));
  }

  lemma QuietAttempt(b: BatchId, env: nat -> Moment, w: World, batch: Batch, i: nat, n: nat)
      returns (w2: World, sent: Batch)
    requires Quiet(env) && Stands(w, b, batch) && batch.stage == Claiming && batch.todo != [] && n >= 2
    requires w.rows[batch.todo[0].id].status == PENDING
    ensures var id, row := batch.todo[0].id, w.rows[batch.todo[0].id];
            && w2.clock == w.clock && w2.rows == w.rows[id := Locked(row, batch.now)] && Stands(w2, b, sent)
            && sent == batch.(stage := AfterDispatch(batch, row.attempt + 1, env(i + 1).reply, w.clock))
            && Remaining(b, env, w, i, n) == Remaining(b, env, w2, i + 2, n - 2)
  {
    var w1 := QuietClaim(b, env, w, batch, i, n);
    w2 := QuietDispatch(b, env, w1, w1.batches[b], i + 1, n - 1);
    sent := w2.batches[b];
  }

  /** Claim, dispatch and write of the first candidate. */
  lemma QuietEvent(b: BatchId, env: nat -> Moment, w: World, batch: Batch, i: nat, n: nat) returns (w': World)
    requires Quiet(env) && Stands(w, b, batch) && batch.stage == Claiming && batch.todo != [] && n >= 3
    requires var c, row := batch.todo[0], w.rows[batch.todo[0].id];
             row.status == PENDING && c.attempt == row.attempt && c.maxAttempts == row.maxAttempts
    ensures FirstSettled(b, env, batch, Remaining(b, env, w, i, n), w.clock, w.rows,
                         SettledRow(w.rows[batch.todo[0].id], batch.now, w.clock, env(i + 1).reply), w', i + 3, n - 3)
  {
    var w2, sent := QuietAttempt(b, env, w, batch, i, n);
    w' := QuietWrite(b, env, w2, sent, i + 2, n - 2, w.rows, env(i + 1).reply);
    assert sent.(stage := Claiming) == batch;
  }

  /** An undisturbed batch settles every candidate: each row as its own dispatch demands, each counted. */
  lemma {:induction false} QuietEvents(b: BatchId, env: nat -> Moment, w: World, batch: Batch, i: nat, n: nat)
    requires Quiet(env) && Stands(w, b, batch) && batch.stage == Claiming && batch.todo != []
    requires Fresh(w, batch.todo) && n >= 3 * |batch.todo|
    ensures var r := Remaining(b, env, w, i, n);
            && Ends(r, r.course.State(), Some(|batch.todo|)) && b !in r.course.State().batches
            && r.course.State().rows == SettledRows(w.rows, batch.todo, batch.now, w.clock, env, i)
    decreases |batch.todo|
  {
    var w' := QuietEvent(b, env, w, batch, i, n);
    if |batch.todo| > 1 {
      QuietEvents(b, env, w', w'.batches[b], i + 3, n - 3);
    }
  }

  /** Settling row by row leaves the rows of other events alone ... */
  lemma {:induction false} OtherRowsStay(
    rows: map<EventId, Row>, todo: seq<Candidate>, now: Time, clock: Time, env: nat -> Moment, i: nat)
    ensures var settled := SettledRows(rows, todo, now, clock, env, i);
            && settled.Keys == rows.Keys
            && forall id :: id in rows && (forall c :: c in todo ==> c.id != id) ==> settled[id] == rows[id]
  {
    if todo != [] && todo[0].id in rows {
      var rest := rows[todo[0].id := SettledRow(rows[todo[0].id], now, clock, env(i + 1).reply)];
      OtherRowsStay(rest, todo[1..], now, clock, env, i + 3);
      assert forall c :: c in todo[1..] ==> c in todo;
    }
  }

  /** ... and gives each candidate the row that the reply to its own dispatch demands. */
  lemma {:induction false} SettledRowAt(
    rows: map<EventId, Row>, todo: seq<Candidate>, now: Time, clock: Time, env: nat -> Moment, i: nat, j: nat)
    requires j < |todo| && forall k :: 0 <= k < |todo| ==> todo[k].id in rows
    requires forall k, l :: 0 <= k < l < |todo| ==> todo[k].id != todo[l].id
    ensures todo[j].id in SettledRows(rows, todo, now, clock, env, i)
    ensures SettledRows(rows, todo, now, clock, env, i)[todo[j].id]
            == SettledRow(rows[todo[j].id], now, clock, env(i + 3 * j + 1).reply)
  {
    var rest := rows[todo[0].id := SettledRow(rows[todo[0].id], now, clock, env(i + 1).reply)];
    if j == 0 {
      OtherRowsStay(rest, todo[1..], now, clock, env, i + 3);
    } else {
      SettledRowAt(rest, todo[1..], now, clock, env, i + 3, j - 1);
    }
  }

  lemma QuietStart(b: BatchId, env: nat -> Moment, w: World, batch: Batch, i: nat, n: nat) returns (w2: World)
    requires Quiet(env) && Stands(w, b, batch) && batch.stage == Reclaiming && batch.todo == [] && n >= 2
    requires Selection(Reclaimed(w.rows, batch.now), env(i + 1).chosen, batch.now, batch.limit)
    ensures var chosen, rows := env(i + 1).chosen, Reclaimed(w.rows, batch.now);
            && w2.clock == w.clock && w2.rows == rows
            && if chosen == [] then Ends(Remaining(b, env, w, i, n), w2, Some(0))
               else && Stands(w2, b, batch.(todo := Candidates(rows, chosen), stage := Claiming))
                    && Remaining(b, env, w, i, n) == Remaining(b, env, w2, i + 2, n - 2)
  {
    Found(b, env, w, batch, i, n);
    var w1 := Own(b, w, env(i));
    Found(b, env, w1, batch.(stage := Selecting), i + 1, n - 1);
    w2 := Own(b, w1, env(i + 1));
  }

  lemma SelectedAreFresh(w: World, chosen: seq<EventId>, now: Time, limit: nat)
    requires Selection(w.rows, chosen, now, limit)
    ensures Fresh(w, Candidates(w.rows, chosen))
  {
  }

  lemma QuietRun(b: BatchId, env: nat -> Moment, w: World, batch: Batch, i: nat, n: nat) returns (r: Remainder)
    requires Quiet(env) && Stands(w, b, batch) && batch.stage == Reclaiming && batch.todo == [] && batch.now == w.clock
    requires Selection(Reclaimed(w.rows, w.clock), env(i + 1).chosen, w.clock, batch.limit)
    requires n >= StepsFor(batch.limit)
    ensures var chosen, rows := env(i + 1).chosen, Reclaimed(w.rows, w.clock);
            && r == Remaining(b, env, w, i, n) && Reported(r) == Some(|chosen|)
            && r.course.State().rows == SettledRows(rows, Candidates(rows, chosen), w.clock, w.clock, env, i + 2)
  {
    r := Remaining(b, env, w, i, n);
    var w2 := QuietStart(b, env, w, batch, i, n);
    var todo := Candidates(w2.rows, env(i + 1).chosen);
    if todo != [] {
      SelectedAreFresh(w2, env(i + 1).chosen, w.clock, batch.limit);
      QuietEvents(b, env, w2, batch.(todo := todo, stage := Claiming), i + 2, n - 2);
    }
  }

  /** Every row after the undisturbed batch: selected rows by the replies to their own dispatches. */
  ghost predicate AllSettled(
    rows: map<EventId, Row>, chosen: seq<EventId>, clock: Time, env: nat -> Moment, i: nat, rows': map<EventId, Row>)
    requires forall j :: 0 <= j < |chosen| ==> chosen[j] in rows
  {
    && rows'.Keys == rows.Keys
    && (forall j :: 0 <= j < |chosen| ==>
          rows'[chosen[j]] == SettledRow(rows[chosen[j]], clock, clock, env(i + 3 * j + 1).reply))
    && forall id :: id in rows && id !in chosen ==> rows'[id] == rows[id]
  }

  lemma CandidatesAreSettled(rows: map<EventId, Row>, chosen: seq<EventId>, clock: Time, env: nat -> Moment, i: nat)
    requires forall j :: 0 <= j < |chosen| ==> chosen[j] in rows
    requires forall j, k :: 0 <= j < k < |chosen| ==> chosen[j] != chosen[k]
    ensures AllSettled(rows, chosen, clock, env, i, SettledRows(rows, Candidates(rows, chosen), clock, clock, env, i))
  {
    var todo := Candidates(rows, chosen);
    OtherRowsStay(rows, todo, clock, clock, env, i);
    forall j | 0 <= j < |chosen|
      ensures SettledRows(rows, todo, clock, clock, env, i)[chosen[j]]
              == SettledRow(rows[chosen[j]], clock, clock, env(i + 3 * j + 1).reply)
    {
      SettledRowAt(rows, todo, clock, clock, env, i, j);
    }
  }

  /** An undisturbed batch whose selection succeeds reports every event selected; each is settled by the reply
      to its own dispatch, and other rows are only reclaimed. */
  lemma QuietBatch(env: nat -> Moment, w: World, limit: int, i: nat, n: nat)
    requires Quiet(env) && Selection(Reclaimed(w.rows, w.clock), env(i + 1).chosen, w.clock, SafeLimit(limit))
    requires n >= StepsFor(SafeLimit(limit))
    ensures var r := Remaining(w.next, env, Next(w, Begin(limit)), i, n);
            && Reported(r) == Some(|env(i + 1).chosen|)
            && AllSettled(Reclaimed(w.rows, w.clock), env(i + 1).chosen, w.clock, env, i + 2, r.course.State().rows)
  {
    var batch := Batch(w.clock, SafeLimit(limit), [], Reclaiming);
    var r := QuietRun(w.next, env, Next(w, Begin(limit)), batch, i, n);
    CandidatesAreSettled(Reclaimed(w.rows, w.clock), env(i + 1).chosen, w.clock, env, i + 2);
  }
}
