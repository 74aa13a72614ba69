/** Any number of outbox instances: what holds in every run whose batches each end within five minutes of
    the time they read. */
module OutboxTheorems {
  import opened Common
  import opened Backoff
  import opened WebhookPolicy
  import opened Outbox
  import opened OutboxInvariant
  import opened Runs

  lemma PromptIsSafe(w: World)
    requires Inv(w) && Prompt(w, STALE)
    ensures SafeReclaim(w)
  {
    forall b, h | b in w.batches && h in w.batches && w.batches[b].stage.Reclaiming? && w.batches[h].Holds()
      ensures w.batches[h].todo[0].id in w.rows && !Stale(w.rows[w.batches[h].todo[0].id], w.batches[b].now)
    {
      assert BatchOk(w, w.batches[b]) && BatchOk(w, w.batches[h]);
    }
  }

  lemma {:induction false} RunKeeps(clock: Time, actions: seq<Action>)
    requires PromptRun(Empty(clock), actions, STALE)
    ensures Inv(Run(Empty(clock), actions))
  {
    if actions != [] {
      RunKeeps(clock, actions[..|actions| - 1]);
      PromptIsSafe(Run(Empty(clock), actions[..|actions| - 1]));
      NextKeeps(Run(Empty(clock), actions[..|actions| - 1]), actions[|actions| - 1]);
    }
  }

  /** An event between claim and settling write has one holder; its row is PROCESSING under that holder's
      lock and has counted exactly the claims made, of which the holder's own count may lag behind. */
  lemma OneHolderPerEvent(clock: Time, actions: seq<Action>, b: BatchId, b': BatchId)
    requires PromptRun(Empty(clock), actions, STALE)
    ensures var w := Run(Empty(clock), actions);
            b in w.batches && w.batches[b].Holds() ==>
              var id := w.batches[b].todo[0].id;
              && id in w.rows && id in w.dispatches
              && w.rows[id].status == PROCESSING && w.rows[id].lockedAt == Some(w.batches[b].now)
              && w.batches[b].Local() <= w.rows[id].attempt == |w.dispatches[id]|
              && (b' in w.batches && w.batches[b'].Holds() && w.batches[b'].todo[0].id == id ==> b == b')
  {
    RunKeeps(clock, actions);
    var w := Run(Empty(clock), actions);
    if b in w.batches && w.batches[b].Holds() {
      assert BatchOk(w, w.batches[b]);
      assert RowOk(w.rows[w.batches[b].todo[0].id], w.dispatches[w.batches[b].todo[0].id]);
    }
  }

  lemma ClaimLeavesFinal(w: World, b: BatchId, ok: bool, chosen: seq<EventId>, id: EventId)
    requires b in w.batches && !w.batches[b].Holds() && id in w.rows && Final(w.rows[id].status)
    ensures var w' := NextClaim(w, b, w.batches[b], ok, chosen);
            id in w'.rows && w'.rows[id] == w.rows[id]
  {
  }

  lemma HoldingLeavesFinal(w: World, b: BatchId, ok: bool, reply: Option<seq<Delivery>>, id: EventId)
    requires b in w.batches && w.batches[b].Holds() && id in w.rows && w.batches[b].todo[0].id != id
    ensures var w' := NextHolding(w, b, w.batches[b], ok, reply);
            id in w'.rows && w'.rows[id] == w.rows[id]
  {
  }

  lemma StepLeavesFinal(w: World, action: Action, id: EventId)
    requires Inv(w) && id in w.rows && Final(w.rows[id].status)
    ensures id in Next(w, action).rows && Next(w, action).rows[id] == w.rows[id]
  {
    assert RowOk(w.rows[id], w.dispatches[id]) && id < w.next;
    if action.Advance? && action.b in w.batches {
      if w.batches[action.b].Holds() {
        HeldRows(w);
        HoldingLeavesFinal(w, action.b, action.ok, action.reply, id);
      } else {
        ClaimLeavesFinal(w, action.b, action.ok, action.chosen, id);
      }
    }
  }

  predicate FinalStays(w: World, action: Action, id: EventId) {
    id in w.rows && Final(w.rows[id].status) ==> id in Next(w, action).rows && Next(w, action).rows[id] == w.rows[id]
  }

  /** COMPLETED and DEAD are for good: no step of any batch changes such a row. */
  lemma FinalRowsStay(clock: Time, actions: seq<Action>, action: Action, id: EventId)
    requires PromptRun(Empty(clock), actions, STALE)
    ensures FinalStays(Run(Empty(clock), actions), action, id)
  {
    RunKeeps(clock, actions);
    var w := Run(Empty(clock), actions);
    if id in w.rows && Final(w.rows[id].status) { StepLeavesFinal(w, action, id); }
  }

  /** A COMPLETED event was last dispatched with every delivery successful; a DEAD one was claimed at least
      min(maxAttempts, 5) times, or no failure of its last dispatch was worth another attempt. */
  lemma FinalRowsAreEarned(clock: Time, actions: seq<Action>, id: EventId)
    requires PromptRun(Empty(clock), actions, STALE)
    ensures var w := Run(Empty(clock), actions);
            id in w.rows ==>
              && id in w.dispatches && |w.dispatches[id]| == w.rows[id].attempt
              && (Final(w.rows[id].status) ==> w.dispatches[id] != [])
              && (w.rows[id].status == COMPLETED ==> Delivered(w.dispatches[id][|w.dispatches[id]| - 1]))
              && (w.rows[id].status == DEAD ==> RightlyDead(w.rows[id], w.dispatches[id][|w.dispatches[id]| - 1]))
  {
    RunKeeps(clock, actions);
    var w := Run(Empty(clock), actions);
    if id in w.rows { assert RowOk(w.rows[id], w.dispatches[id]); }
  }

  // ----- The premise is exact -----------------------------------------------------------------

  lemma {:induction false} TighterIsPrompt(clock: Time, actions: seq<Action>, bound: Time, wider: Time)
    requires PromptRun(Empty(clock), actions, bound) && bound <= wider
    ensures PromptRun(Empty(clock), actions, wider)
  {
    if actions != [] { TighterIsPrompt(clock, actions[..|actions| - 1], bound, wider); }
  }

  /** One more action in a run whose batches all end within the bound. */
  lemma Move(actions: seq<Action>, w: World, action: Action, bound: Time) returns (longer: seq<Action>, w': World)
    requires w == Run(Empty(0), actions) && PromptRun(Empty(0), actions, bound) && Prompt(Next(w, action), bound)
    ensures longer == actions + [action] && w' == Run(Empty(0), longer) == Next(w, action)
    ensures PromptRun(Empty(0), longer, bound)
  {
    longer, w' := Extend(Next, Empty(0), actions, w, action);
    assert longer[..|longer| - 1] == actions;
  }

  function Go(b: BatchId): Action {
    Advance(b, true, [0], Some([]))
  }

  lemma ReclaimOne(w: World, b: BatchId, row: Row)
    requires b in w.batches && w.batches[b].stage.Reclaiming? && w.rows == map[0 := row]
    ensures Next(w, Go(b)) ==
            w.(rows := map[0 :=
                 if Stale(row, w.batches[b].now) then row.(status := PENDING, lockedAt := None) else row],
               batches := w.batches[b := w.batches[b].(stage := Selecting)])
  {
    assert Reclaimed(w.rows, w.batches[b].now)
        == map[0 := if Stale(row, w.batches[b].now) then row.(status := PENDING, lockedAt := None) else row];
  }

  lemma SelectOne(w: World, b: BatchId, row: Row)
    requires b in w.batches && w.batches[b].stage.Selecting? && w.rows == map[0 := row]
    requires Due(row, w.batches[b].now) && w.batches[b].limit >= 1
    ensures Next(w, Go(b)) ==
            w.(batches := w.batches[b :=
                 w.batches[b].(todo := [Candidate(0, row.attempt, row.maxAttempts)], stage := Claiming)])
  {
    assert Selection(w.rows, [0], w.batches[b].now, w.batches[b].limit);
    assert Candidates(w.rows, [0]) == [Candidate(0, row.attempt, row.maxAttempts)];
  }

  lemma ClaimOne(w: World, b: BatchId, row: Row, ds: seq<Dispatch>)
    requires b in w.batches && w.batches[b].stage.Claiming? && w.rows == map[0 := row] && w.dispatches == map[0 := ds]
    requires w.batches[b].todo == [Candidate(0, row.attempt, row.maxAttempts)] && row.status == PENDING
    ensures Next(w, Go(b)) ==
            w.(rows := map[0 := row.(status := PROCESSING, lockedAt := Some(w.batches[b].now),
                                     attempt := row.attempt + 1)],
               dispatches := map[0 := ds + [Dispatch(w.clock, Open)]],
               batches := w.batches[b := w.batches[b].(stage := Dispatching(row.attempt + 1))])
  {
    assert w.rows[0 := row] == map[0 := row];
  }

  const NEW := Row(PENDING, 0, 5, 0, None, 0)
  const LOCKED := Row(PROCESSING, 1, 5, 0, Some(0), 0)
  const SLOW := Batch(0, 20, [Candidate(0, 0, 5)], Dispatching(1))

  lemma SlowBatchStarts(bound: Time) returns (actions: seq<Action>, w: World)
    requires bound > STALE
    ensures w == Run(Empty(0), actions) && PromptRun(Empty(0), actions, bound)
    ensures w == World(0, map[0 := NEW], map[1 := Batch(0, 20, [], Reclaiming)], 2, map[0 := []])
  {
    actions, w := Move([], Empty(0), Enqueue(5), bound);
    actions, w := Move(actions, w, Begin(20), bound);
  }

  /** One batch claims the only event. */
  lemma SlowBatchClaims(bound: Time) returns (actions: seq<Action>, w: World)
    requires bound > STALE
    ensures w == Run(Empty(0), actions) && PromptRun(Empty(0), actions, bound)
    ensures w == World(0, map[0 := LOCKED], map[1 := SLOW], 2, map[0 := [Dispatch(0, Open)]])
  {
    actions, w := SlowBatchStarts(bound);
    ReclaimOne(w, 1, NEW);
    actions, w := Move(actions, w, Go(1), bound);
    SelectOne(w, 1, NEW);
    actions, w := Move(actions, w, Go(1), bound);
    ClaimOne(w, 1, NEW, []);
    actions, w := Move(actions, w, Go(1), bound);
    assert w.batches == map[1 := SLOW] && [] + [Dispatch(0, Open)] == [Dispatch(0, Open)];
  }

  /** More than five minutes later a second batch finds the event stale ... */
  lemma SecondBatchReclaims(bound: Time) returns (actions: seq<Action>, w: World)
    requires bound > STALE
    ensures w == Run(Empty(0), actions) && PromptRun(Empty(0), actions, bound)
    ensures w == World(300_001, map[0 := LOCKED.(status := PENDING, lockedAt := None)],
                       map[1 := SLOW, 2 := Batch(300_001, 20, [], Selecting)], 3, map[0 := [Dispatch(0, Open)]])
  {
    actions, w := SlowBatchClaims(bound);
    actions, w := Move(actions, w, Tick(300_001), bound);
    actions, w := Move(actions, w, Begin(20), bound);
    ReclaimOne(w, 2, LOCKED);
    actions, w := Move(actions, w, Go(2), bound);
  }

  /** ... and takes it over. */
  lemma SecondBatchClaims(bound: Time) returns (actions: seq<Action>, w: World)
    requires bound > STALE
    ensures w == Run(Empty(0), actions) && PromptRun(Empty(0), actions, bound)
    ensures w.rows == map[0 := Row(PROCESSING, 2, 5, 0, Some(300_001), 0)]
    ensures w.batches == map[1 := SLOW, 2 := Batch(300_001, 20, [Candidate(0, 1, 5)], Dispatching(2))]
  {
    actions, w := SecondBatchReclaims(bound);
    var row := LOCKED.(status := PENDING, lockedAt := None);
    SelectOne(w, 2, row);
    actions, w := Move(actions, w, Go(2), bound);
    ClaimOne(w, 2, row, [Dispatch(0, Open)]);
    actions, w := Move(actions, w, Go(2), bound);
  }

  /** A batch that may run a moment longer than five minutes reopens an event that another completed. */
  lemma SlowBatchReopensCompleted(bound: Time) returns (actions: seq<Action>, last: Action)
    requires bound > STALE
    ensures PromptRun(Empty(0), actions, bound)
    ensures var w := Run(Empty(0), actions);
            && 0 in w.rows && w.rows[0].status == COMPLETED
            && 0 in Next(w, last).rows && Next(w, last).rows[0].status == PENDING
  {
    var w;
    actions, w := SecondBatchClaims(bound);
    actions, w := Move(actions, w, Advance(1, true, [], None), bound);
    actions, w := Move(actions, w, Go(2), bound);
    actions, w := Move(actions, w, Go(2), bound);
    last := Advance(1, true, [], None);
  }

  /** Final rows stay in every run whose batches end within the bound. */
  ghost predicate FinalRowsSafe(bound: Time) {
    forall clock, actions, action, id ::
      PromptRun(Empty(clock), actions, bound) ==> FinalStays(Run(Empty(clock), actions), action, id)
  }

  /** Final rows are safe in all runs if and only if batches end within the stale limit. */
  lemma SafeIffWithinStale(bound: Time)
    ensures FinalRowsSafe(bound) <==> bound <= 300_000
  {
    if bound <= STALE {
      forall clock, actions, action, id | PromptRun(Empty(clock), actions, bound)
        ensures FinalStays(Run(Empty(clock), actions), action, id)
      {
        TighterIsPrompt(clock, actions, bound, STALE);
        FinalRowsStay(clock, actions, action, id);
      }
    } else {
      var actions, last := SlowBatchReopensCompleted(bound);
      assert !FinalStays(Run(Empty(0), actions), last, 0);
    }
  }
}
