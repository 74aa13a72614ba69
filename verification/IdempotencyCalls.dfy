/** One idempotent request among all others: its course, what it answers, and exactly when. */
module IdempotencyCalls {
  import opened Common
  import opened Idempotency
  import opened Runs

  /** What the environment decides for one statement: what other requests do first, whether the statement
      (or the handler) succeeds, and the handler's response. */
  datatype Moment = Moment(others: seq<Action>, ok: bool, response: Response)

  /** Answered, by the handler or by replay; refused with an error; or not over yet. */
  datatype Outcome = Replied(response: Response) | Refused | InFlight

  predicate BelongsTo(action: Action, r: RequestId) {
    (action.Advance? || action.Crash?) && action.r == r
  }

  /** The actions that are not of request r. */
  function Foreign(r: RequestId, actions: seq<Action>): seq<Action> {
    if actions == [] then []
    else
      var last := actions[|actions| - 1];
      Foreign(r, actions[..|actions| - 1]) + if BelongsTo(last, r) then [] else [last]
  }

  lemma ForeignGrows(w: World, r: RequestId, init: seq<Action>, last: Action)
    ensures Iterate(Next, w, Foreign(r, init + [last]))
            == if BelongsTo(last, r) then Iterate(Next, w, Foreign(r, init))
               else Next(Iterate(Next, w, Foreign(r, init)), last)
  {
    assert (init + [last])[..|init|] == init;
    var f := Foreign(r, init);
    assert f + [] == f;
    assert (f + [last])[..|f|] == f;
  }

  function RequestThread(r: RequestId): Thread<World, Action, Moment> {
    Thread(Next, (w: World) => r in w.requests, (w: World, m: Moment) => Advance(r, m.ok, m.response),
           (m: Moment) => Foreign(r, m.others))
  }

  function Before(r: RequestId, w: World, m: Moment): World {
    Iterate(Next, w, Foreign(r, m.others))
  }

  function Own(r: RequestId, w: World, m: Moment): World {
    Next(w, Advance(r, m.ok, m.response))
  }

  /** The course of a request from its i-th statement on, for n statements at most: `begin` may start over. */
  function Course(r: RequestId, env: nat -> Moment, w: World, i: nat, n: nat): Ending<World, Action> {
    Follow(RequestThread(r), env, w, i, n)
  }

  lemma StepCourse(r: RequestId, env: nat -> Moment, w: World, i: nat, n: nat)
    requires n > 0 && r in w.requests
    ensures var u := Before(r, w, env(i));
            var w' := Own(r, u, env(i));
            Course(r, env, w, i, n) == if r in w'.requests then Course(r, env, w', i + 1, n - 1)
                                       else Finished(u, Advance(r, env(i).ok, env(i).response), w')
  {
    FollowUnfolds(RequestThread(r), env, w, i, n);
  }

  /** A course is a run of the machine, so everything proved of all runs holds of it. */
  lemma CourseIsRun(r: RequestId, env: nat -> Moment, w: World, i: nat, n: nat)
    ensures Reaches(Next, w, Course(r, env, w, i, n).State())
  {
    FollowIsRun(RequestThread(r), env, w, i, n);
    assert Course(r, env, w, i, n).State() == Iterate(Next, w, Trace(RequestThread(r), env, w, i, n));
  }

  lemma OtherRequestsStay(w: World, action: Action, r: RequestId)
    requires !BelongsTo(action, r) && r in w.requests && r < w.next
    ensures r in Next(w, action).requests && Next(w, action).requests[r] == w.requests[r] && r < Next(w, action).next
  {
    if action.Advance? && action.r in w.requests {
      var q := w.requests[action.r];
      if q.pc.Handling? || q.pc.Completing? || q.pc.Aborting? {
        assert r in NextHandle(w, action.r, q, action.ok, action.response).requests;
      } else {
        assert r in NextBegin(w, action.r, q, action.ok).requests;
      }
    }
  }

  lemma {:induction false} ForeignLeavesRequest(w: World, r: RequestId, actions: seq<Action>)
    requires r in w.requests && r < w.next
    ensures var u := Iterate(Next, w, Foreign(r, actions));
            r in u.requests && u.requests[r] == w.requests[r] && r < u.next
  {
    if actions != [] {
      var init, last := actions[..|actions| - 1], actions[|actions| - 1];
      ForeignLeavesRequest(w, r, init);
      assert actions == init + [last];
      ForeignGrows(w, r, init, last);
      if !BelongsTo(last, r) { OtherRequestsStay(Iterate(Next, w, Foreign(r, init)), last, r); }
    }
  }

  // ----- What a request answers ---------------------------------------------------------------

  /** The answer of a request by the point it ended at: a judged row is replayed if it matches, the handler's
      response is sent once it is completed, anything else is an error. */
  function Answer(e: Ending<World, Action>, r: RequestId): Outcome {
    if e.Unfinished? then InFlight
    else if r !in e.before.requests then Refused
    else
      var q := e.before.requests[r];
      match q.pc
      case Judging(x) =>
        if x.fingerprint == q.fingerprint && x.response.Some? then Replied(x.response.value) else Refused
      case Completing(_, response) => Replied(response)
      case _ => Refused
  }

  lemma OwnIs(r: RequestId, u: World, m: Moment)
    requires r in u.requests
    ensures var q := u.requests[r];
            Own(r, u, m) == if q.pc.Handling? || q.pc.Completing? || q.pc.Aborting?
                            then NextHandle(u, r, q, m.ok, m.response) else NextBegin(u, r, q, m.ok)
    ensures u.next <= Own(r, u, m).next
  {
  }

  /** What the i-th statement of the request finds and does. */
  lemma Found(r: RequestId, env: nat -> Moment, w: World, i: nat, n: nat)
    requires r in w.requests && r < w.next && n > 0
    ensures var u, q := Before(r, w, env(i)), w.requests[r];
            var w' := Own(r, u, env(i));
            && r in u.requests && u.requests[r] == q && r < u.next && r < w'.next
            && w' == (if q.pc.Handling? || q.pc.Completing? || q.pc.Aborting?
                      then NextHandle(u, r, q, env(i).ok, env(i).response) else NextBegin(u, r, q, env(i).ok))
            && Course(r, env, w, i, n) == if r in w'.requests then Course(r, env, w', i + 1, n - 1)
                                          else Finished(u, Advance(r, env(i).ok, env(i).response), w')
  {
    StepCourse(r, env, w, i, n);
    ForeignLeavesRequest(w, r, env(i).others);
    OwnIs(r, Before(r, w, env(i)), env(i));
  }

  lemma AbortOutcome(r: RequestId, env: nat -> Moment, w: World, i: nat, n: nat)
    requires r in w.requests && r < w.next && w.requests[r].pc.Aborting? && n > 0
    ensures Answer(Course(r, env, w, i, n), r) == Refused
  {
    Found(r, env, w, i, n);
  }

  lemma CompleteOutcome(r: RequestId, env: nat -> Moment, w: World, i: nat, n: nat)
    requires r in w.requests && r < w.next && w.requests[r].pc.Completing? && n > 1
    ensures var pc := w.requests[r].pc;
            Answer(Course(r, env, w, i, n), r)
            == if env(i).ok && Before(r, w, env(i)).Has(pc.record) then Replied(pc.response) else Refused
  {
    Found(r, env, w, i, n);
    var w' := Own(r, Before(r, w, env(i)), env(i));
    if r in w'.requests { AbortOutcome(r, env, w', i + 1, n - 1); }
  }

  /** The world that the completing write finds. */
  function AtComplete(r: RequestId, env: nat -> Moment, w: World, i: nat): World {
    Before(r, Own(r, Before(r, w, env(i)), env(i)), env(i + 1))
  }

  /** Once the record is its own, a request answers with its handler's response if and only if the handler and
      the completing write succeed and the record is still there; otherwise it ends with an error. */
  lemma NewAnswersIff(r: RequestId, env: nat -> Moment, w: World, i: nat, n: nat)
    requires r in w.requests && r < w.next && w.requests[r].pc.Handling? && n >= 3
    ensures Answer(Course(r, env, w, i, n), r)
            == if env(i).ok && env(i + 1).ok && AtComplete(r, env, w, i).Has(w.requests[r].pc.record)
               then Replied(env(i).response) else Refused
  {
    Found(r, env, w, i, n);
    var w' := Own(r, Before(r, w, env(i)), env(i));
    if env(i).ok { CompleteOutcome(r, env, w', i + 1, n - 1); } else { AbortOutcome(r, env, w', i + 1, n - 1); }
  }

  /** A row found that has not expired decides at once: replay if it matches, error if not. */
  lemma JudgedAnswersIff(r: RequestId, env: nat -> Moment, w: World, i: nat, n: nat)
    requires r in w.requests && r < w.next && w.requests[r].pc.Judging? && n > 0
    requires w.requests[r].pc.found.expiresAt > Before(r, w, env(i)).clock
    ensures var q := w.requests[r];
            var x := q.pc.found;
            Answer(Course(r, env, w, i, n), r)
            == if x.fingerprint == q.fingerprint && x.response.Some? then Replied(x.response.value) else Refused
  {
    Found(r, env, w, i, n);
  }

  /** The worlds that the insert, the lookup and the judging of a request find. */
  function AtInsert(r: RequestId, env: nat -> Moment, w: World): World {
    Before(r, Own(r, Before(r, w, env(0)), env(0)), env(1))
  }

  function AtLookup(r: RequestId, env: nat -> Moment, w: World): World {
    Before(r, Own(r, AtInsert(r, env, w), env(1)), env(2))
  }

  function AtJudge(r: RequestId, env: nat -> Moment, w: World): World {
    Before(r, Own(r, AtLookup(r, env, w), env(2)), env(3))
  }

  lemma InsertOutcome(r: RequestId, env: nat -> Moment, w: World, n: nat)
    requires r in w.requests && r < w.next && w.requests[r].pc.Starting? && n >= 2
    ensures var q, u := w.requests[r], AtInsert(r, env, w);
            var w' := Own(r, u, env(1));
            && r < w'.next
            && if !env(1).ok then Answer(Course(r, env, w, 0, n), r) == Refused
               else && Course(r, env, w, 0, n) == Course(r, env, w', 2, n - 2) && r in w'.requests
                    && w'.requests[r] == q.(pc := if q.key in u.rows then Looking else Handling(u.next))
  {
    Found(r, env, w, 0, n);
    var w1 := Own(r, Before(r, w, env(0)), env(0));
    Found(r, env, w1, 1, n - 1);
  }

  lemma LookupOutcome(r: RequestId, env: nat -> Moment, w: World, n: nat)
    requires r in w.requests && r < w.next && w.requests[r].pc.Looking? && n >= 1
    ensures var q, u := w.requests[r], Before(r, w, env(2));
            var w' := Own(r, u, env(2));
            && r < w'.next
            && if !(env(2).ok && q.key in u.rows) then Answer(Course(r, env, w, 2, n), r) == Refused
               else && Course(r, env, w, 2, n) == Course(r, env, w', 3, n - 1) && r in w'.requests
                    && w'.requests[r] == q.(pc := Judging(u.rows[q.key]))
  {
    Found(r, env, w, 2, n);
  }

  /** A request that finds its key taken by a row that has not expired answers by replay if and only if the
      row is completed for the same fingerprint; it ends with an error otherwise. */
  lemma TakenKeyAnswersIff(r: RequestId, env: nat -> Moment, w: World, n: nat)
    requires r in w.requests && r < w.next && w.requests[r].pc.Starting? && n >= 4
    requires env(1).ok && w.requests[r].key in AtInsert(r, env, w).rows
    requires env(2).ok && w.requests[r].key in AtLookup(r, env, w).rows
    requires AtLookup(r, env, w).rows[w.requests[r].key].expiresAt > AtJudge(r, env, w).clock
    ensures var q := w.requests[r];
            var x := AtLookup(r, env, w).rows[q.key];
            Answer(Course(r, env, w, 0, n), r)
            == if x.fingerprint == q.fingerprint && x.response.Some? then Replied(x.response.value) else Refused
  {
    InsertOutcome(r, env, w, n);
    var w2 := Own(r, AtInsert(r, env, w), env(1));
    LookupOutcome(r, env, w2, n - 2);
    JudgedAnswersIff(r, env, Own(r, AtLookup(r, env, w), env(2)), 3, n - 3);
  }

  /** A request that finds its key free runs the handler and answers with its response if and only if handler
      and completing write succeed and its record is still there then. */
  lemma FreeKeyAnswersIff(r: RequestId, env: nat -> Moment, w: World, n: nat)
    requires r in w.requests && r < w.next && w.requests[r].pc.Starting? && n >= 5
    requires env(1).ok && w.requests[r].key !in AtInsert(r, env, w).rows
    ensures var u := AtInsert(r, env, w);
            Answer(Course(r, env, w, 0, n), r)
            == if env(2).ok && env(3).ok && AtComplete(r, env, Own(r, u, env(1)), 2).Has(u.next)
               then Replied(env(2).response) else Refused
  {
    InsertOutcome(r, env, w, n);
    NewAnswersIff(r, env, Own(r, AtInsert(r, env, w), env(1)), 2, n - 2);
  }

  /** In particular, undisturbed and with everything going well: a free key gets the handler's response, which
      is stored in the row until a day after the request began ... */
  lemma UndisturbedNew(r: RequestId, env: nat -> Moment, w: World, n: nat)
    requires r in w.requests && r < w.next && w.requests[r].pc.Starting? && n >= 5
    requires w.requests[r].key !in w.rows && forall j: nat :: env(j).ok && env(j).others == []
    requires forall k :: k in w.rows ==> w.rows[k].id < w.next
    ensures var e := Course(r, env, w, 0, n);
            && Answer(e, r) == Replied(env(2).response)
            && e.State().rows == w.rows[w.requests[r].key :=
                 Record(w.next, w.requests[r].fingerprint, w.clock + 86_400_000, Some(env(2).response))]
  {
    var q := w.requests[r];
    var w1 := w.Goto(r, q, Creating(w.clock));
    var w2 := NextBegin(w1, r, q.(pc := Creating(w.clock)), true);
    var w3 := w2.Goto(r, q, Completing(w.next, env(2).response));
    Found(r, env, w, 0, n);
    assert Own(r, w, env(0)) == w1;
    Found(r, env, w1, 1, n - 1);
    assert Own(r, w1, env(1)) == w2;
    QuietHandling(r, env, w2, n - 2, q.key, w.next);
    assert w2.rows == w.rows[q.key := Record(w.next, q.fingerprint, w.clock + DAY, None)];
  }

  lemma QuietHandling(r: RequestId, env: nat -> Moment, w: World, n: nat, key: Key, id: RecordId)
    requires r in w.requests && r < w.next && w.requests[r].pc == Handling(id) && n >= 3
    requires forall j: nat :: env(j).ok && env(j).others == []
    requires key in w.rows && w.rows[key].id == id && forall k :: k in w.rows && k != key ==> w.rows[k].id != id
    ensures var e := Course(r, env, w, 2, n);
            && Answer(e, r) == Replied(env(2).response)
            && e.State().rows == w.rows[key := w.rows[key].(response := Some(env(2).response))]
  {
    var q := w.requests[r];
    var w3 := w.Goto(r, q, Completing(id, env(2).response));
    Found(r, env, w, 2, n);
    assert Own(r, w, env(2)) == w3;
    Found(r, env, w3, 3, n - 1);
    assert w3.Has(id);
    assert w3.Respond(id, env(2).response).rows == w.rows[key := w.rows[key].(response := Some(env(2).response))];
  }

  /** ... and until then a repeated request is answered with it. */
  lemma UndisturbedRepeat(r: RequestId, env: nat -> Moment, w: World, n: nat)
    requires r in w.requests && r < w.next && w.requests[r].pc.Starting? && n >= 4
    requires forall j: nat :: env(j).ok && env(j).others == []
    requires var q := w.requests[r];
             && q.key in w.rows && w.rows[q.key].fingerprint == q.fingerprint && w.rows[q.key].response.Some?
             && w.rows[q.key].expiresAt > w.clock
    ensures Answer(Course(r, env, w, 0, n), r) == Replied(w.rows[w.requests[r].key].response.value)
  {
    var q := w.requests[r];
    assert AtInsert(r, env, w) == w.Goto(r, q, Creating(w.clock)) by { OwnIs(r, w, env(0)); }
    assert AtLookup(r, env, w) == w.Goto(r, q, Looking) by { OwnIs(r, AtInsert(r, env, w), env(1)); }
    assert AtJudge(r, env, w).clock == w.clock by { OwnIs(r, AtLookup(r, env, w), env(2)); }
    TakenKeyAnswersIff(r, env, w, n);
  }
}
