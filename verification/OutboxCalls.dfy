/** One batch among all others: its course, how many events it settles, and what becomes of them. */
module OutboxCalls {
  import opened Common
  import opened Backoff
  import opened WebhookPolicy
  import opened Outbox
  import opened Runs

  /** What the environment decides for one statement: what others do first, whether the statement succeeds,
      which rows a selection returns, and what a dispatch brings back. */
  datatype Moment = Moment(others: seq<Action>, ok: bool, chosen: seq<EventId>, reply: Option<seq<Delivery>>)

  predicate BelongsTo(action: Action, b: BatchId) {
    (action.Advance? || action.Crash?) && action.b == b
  }

  /** The actions that are not of batch b. */
  function Foreign(b: BatchId, actions: seq<Action>): seq<Action> {
    if actions == [] then []
    else
      var last := actions[|actions| - 1];
      Foreign(b, actions[..|actions| - 1]) + if BelongsTo(last, b) then [] else [last]
  }

  lemma ForeignGrows(w: World, b: BatchId, init: seq<Action>, last: Action)
    ensures Iterate(Next, w, Foreign(b, init + [last]))
            == if BelongsTo(last, b) then Iterate(Next, w, Foreign(b, init))
               else Next(Iterate(Next, w, Foreign(b, init)), last)
  {
    assert (init + [last])[..|init|] == init;
    var f := Foreign(b, init);
    assert f + [] == f;
    assert (f + [last])[..|f|] == f;
  }

  /** A choice of rows that is no selection stands for a failed query; the order among rows created together
      is the environment's choice. */
  function OwnAction(b: BatchId, u: World, m: Moment): Action {
    var refused := b in u.batches && u.batches[b].stage.Selecting?
                   && !Selection(u.rows, m.chosen, u.batches[b].now, u.batches[b].limit);
    Advance(b, m.ok && !refused, m.chosen, m.reply)
  }

  function BatchThread(b: BatchId): Thread<World, Action, Moment> {
    Thread(Next, (w: World) => b in w.batches, (w: World, m: Moment) => OwnAction(b, w, m),
           (m: Moment) => Foreign(b, m.others))
  }

  function Before(b: BatchId, w: World, m: Moment): World {
    Iterate(Next, w, Foreign(b, m.others))
  }

  function Own(b: BatchId, w: World, m: Moment): World {
    Next(w, OwnAction(b, w, m))
  }

  /** The statement settles the event in hand: completed, or rescheduled in the try block or the catch
      clause. */
  predicate Settles(b: BatchId, u: World, last: Action) {
    && last.Advance? && last.ok && b in u.batches && u.batches[b].Holds()
    && match u.batches[b].stage
       case Completing(_, _) => true
       case Rescheduling(_, stamp, ds) => Judge(ds, u.batches[b].Local(), u.batches[b].todo[0].maxAttempts, stamp).Some?
       case Catching(_, _) => true
       case _ => false
  }

  /** What is left of a batch: its course, and the events it still settles. */
  datatype Remainder = Remainder(course: Ending<World, Action>, tally: nat)
  {
    function Plus(settled: nat): Remainder {
      this.(tally := tally + settled)
    }
  }

  function Remaining(b: BatchId, env: nat -> Moment, w: World, i: nat, n: nat): Remainder {
    Remainder(Follow(BatchThread(b), env, w, i, n),
              Count(BatchThread(b), env, w, i, n, (u: World, last: Action) => Settles(b, u, last)))
  }

  /** What `processBatch` returns: the number of events settled, or nothing because a statement threw. */
  function Reported(r: Remainder): Option<nat> {
    if r.course.Finished? && r.course.last.Advance? && r.course.last.ok then Some(r.tally) else None
  }

  /** The batch is over in world w, having returned so much. */
  predicate Ends(r: Remainder, w: World, reported: Option<nat>) {
    r.course.Finished? && r.course.after == w && Reported(r) == reported
  }

  /** Reclaim and select, then at most claim, dispatch, write and catch for every event. */
  function StepsFor(limit: nat): nat {
    2 + 4 * limit
  }

  lemma StepRemaining(b: BatchId, env: nat -> Moment, w: World, i: nat, n: nat)
    requires n > 0 && b in w.batches
    ensures var u := Before(b, w, env(i));
            var last, w' := OwnAction(b, u, env(i)), Own(b, u, env(i));
            Remaining(b, env, w, i, n)
            == (if b in w'.batches then Remaining(b, env, w', i + 1, n - 1)
                else Remainder(Finished(u, last, w'), 0)).Plus(if Settles(b, u, last) then 1 else 0)
  {
    FollowUnfolds(BatchThread(b), env, w, i, n);
    CountUnfolds(BatchThread(b), env, w, i, n, (u: World, last: Action) => Settles(b, u, last));
    var u := Before(b, w, env(i));
    var w' := Own(b, u, env(i));
    if b !in w'.batches {
      assert Count(BatchThread(b), env, w', i + 1, n - 1, (v: World, last: Action) => Settles(b, v, last)) == 0;
    }
  }

  /** A course is a run of the machine, so everything proved of all runs holds of it. */
  lemma CourseIsRun(b: BatchId, env: nat -> Moment, w: World, i: nat, n: nat)
    ensures Reaches(Next, w, Remaining(b, env, w, i, n).course.State())
  {
    FollowIsRun(BatchThread(b), env, w, i, n);
    assert Remaining(b, env, w, i, n).course.State() == Iterate(Next, w, Trace(BatchThread(b), env, w, i, n));
  }

  // ----- Others leave the batch alone ---------------------------------------------------------

  /** Batch b stands at its program point, and its candidates exist. */
  predicate Stands(w: World, b: BatchId, batch: Batch) {
    b < w.next && b in w.batches && w.batches[b] == batch && Exist(w.rows, batch.todo)
  }

  predicate Exist(rows: map<EventId, Row>, todo: seq<Candidate>) {
    forall i :: 0 <= i < |todo| ==> todo[i].id in rows
  }

  lemma OtherHolderMoves(w: World, c: BatchId, b: BatchId, batch: Batch, ok: bool, reply: Option<seq<Delivery>>)
    requires c != b && c in w.batches && w.batches[c].Holds() && Stands(w, b, batch)
    ensures Stands(NextHolding(w, c, w.batches[c], ok, reply), b, batch)
  {
    assert NextHolding(w, c, w.batches[c], ok, reply).rows.Keys == w.rows.Keys;
  }

  lemma OtherClaimerMoves(w: World, c: BatchId, b: BatchId, batch: Batch, ok: bool, chosen: seq<EventId>)
    requires c != b && c in w.batches && !w.batches[c].Holds() && Stands(w, b, batch)
    ensures Stands(NextClaim(w, c, w.batches[c], ok, chosen), b, batch)
  {
    assert NextClaim(w, c, w.batches[c], ok, chosen).rows.Keys == w.rows.Keys;
  }

  lemma OthersLeaveBatch(w: World, action: Action, b: BatchId, batch: Batch)
    requires !BelongsTo(action, b) && Stands(w, b, batch)
    ensures Stands(Next(w, action), b, batch)
  {
    if action.Advance? && action.b in w.batches {
      if w.batches[action.b].Holds() {
        OtherHolderMoves(w, action.b, b, batch, action.ok, action.reply);
      } else {
        OtherClaimerMoves(w, action.b, b, batch, action.ok, action.chosen);
      }
    }
  }

  lemma {:induction false} ForeignLeavesBatch(w: World, b: BatchId, batch: Batch, actions: seq<Action>)
    requires Stands(w, b, batch)
    ensures Stands(Iterate(Next, w, Foreign(b, actions)), b, batch)
  {
    if actions != [] {
      var init, last := actions[..|actions| - 1], actions[|actions| - 1];
      ForeignLeavesBatch(w, b, batch, init);
      assert actions == init + [last];
      ForeignGrows(w, b, init, last);
      if !BelongsTo(last, b) { OthersLeaveBatch(Iterate(Next, w, Foreign(b, init)), last, b, batch); }
    }
  }

  // ----- Events -------------------------------------------------------------------------------

  /** The batch is done with the event in hand, having settled so many: on to the next one, or over. */
  ghost predicate MovesOn(b: BatchId, batch: Batch, r: Remainder, env: nat -> Moment, w: World, j: nat, k: nat,
                          settled: nat)
  {
    if |batch.todo| <= 1 then Ends(r, w, Some(settled)) && b !in w.batches
    else
      && Stands(w, b, batch.(todo := batch.todo[1..], stage := Claiming))
      && r == Remaining(b, env, w, j, k).Plus(settled)
  }

  /** What the next statement of the batch finds and does. */
  lemma Found(b: BatchId, env: nat -> Moment, w: World, batch: Batch, i: nat, n: nat)
    requires Stands(w, b, batch) && n > 0
    ensures var u := Before(b, w, env(i));
            var last, w' := OwnAction(b, u, env(i)), Own(b, u, env(i));
            && Stands(u, b, batch)
            && w' == (if batch.Holds() then NextHolding(u, b, batch, last.ok, last.reply)
                      else NextClaim(u, b, batch, last.ok, last.chosen))
            && Remaining(b, env, w, i, n)
               == (if b in w'.batches then Remaining(b, env, w', i + 1, n - 1)
                   else Remainder(Finished(u, last, w'), 0)).Plus(if Settles(b, u, last) then 1 else 0)
  {
    StepRemaining(b, env, w, i, n);
    ForeignLeavesBatch(w, b, batch, env(i).others);
  }
}
