/** `begin`, `complete`, `abort` and the interceptor as code over the shared table. Between two
    statements other requests may run and the clock may move. Every request is proved to take exactly its
    course of module IdempotencyCalls, in the state and with the answer in which that ends; since `begin`
    may start over without bound, it is followed for a given number of statements. */
module IdempotencyService {
  import opened Common
  import opened Idempotency
  import opened IdempotencyCalls
  import opened Runs

  datatype Begun = NewRecord(id: RecordId) | Replay(response: Response) | Failed | Waiting

  class Table {
    var rows: map<Key, Record>
    var next: nat
    var clock: Time
    /** The program point of every request in flight. */
    var requests: map<RequestId, Request>
    var log: seq<Entry>

    constructor ()
      ensures State() == EMPTY
    {
      rows, next, clock, requests, log := map[], 0, 0, map[], [];
    }

    function State(): World
      reads this
    {
      World(rows, next, clock, requests, log)
    }

    predicate At(r: RequestId, q: Request)
      reads this
    {
      r in requests && requests[r] == q && r < next
    }

    /** What is left of the course of request r, for n more statements. */
    ghost function Rest(r: RequestId, env: nat -> Moment, i: nat, n: nat): Ending<World, Action>
      reads this
    {
      Course(r, env, State(), i, n)
    }

    ghost predicate Over(e: Ending<World, Action>)
      reads this
    {
      e.Finished? && e.after == State()
    }

    /** What other requests do before a statement. */
    method Others(r: RequestId, m: Moment)
      requires r in requests && r < next
      modifies this
      ensures State() == Before(r, old(State()), m) && At(r, old(requests)[r])
    {
      ghost var start := State();
      ForeignLeavesRequest(start, r, m.others);
      var i := 0;
      while i < |m.others|
        invariant 0 <= i <= |m.others|
        invariant State() == Iterate(Next, start, Foreign(r, m.others[..i]))
      {
        assert m.others[..i + 1] == m.others[..i] + [m.others[i]];
        ForeignGrows(start, r, m.others[..i], m.others[i]);
        if !BelongsTo(m.others[i], r) { Take(m.others[i]); }
        i := i + 1;
      }
      assert m.others[..i] == m.others;
    }

    method Take(action: Action)
      modifies this
      ensures State() == Next(old(State()), action)
    {
      var w := Next(State(), action);
      rows, next, clock, requests, log := w.rows, w.next, w.clock, w.requests, w.log;
    }

    // ----- Statements ---------------------------------------------------------------------------

    /** The time from which the record is to expire. */
    method ReadClock(r: RequestId, key: Key, fingerprint: Fingerprint, m: Moment) returns (begunAt: Time)
      requires At(r, Request(key, fingerprint, Starting))
      modifies this
      ensures State() == Own(r, old(State()), m)
      ensures begunAt == clock && At(r, Request(key, fingerprint, Creating(begunAt)))
    {
      begunAt := clock;
      requests := requests[r := Request(key, fingerprint, Creating(begunAt))];
    }

    /** The unique-constrained insert: the new record's id, or nothing and whether the key was taken. */
    method Create(r: RequestId, key: Key, fingerprint: Fingerprint, begunAt: Time, m: Moment)
        returns (created: Option<RecordId>, conflict: bool)
      requires At(r, Request(key, fingerprint, Creating(begunAt)))
      modifies this
      ensures State() == Own(r, old(State()), m)
      ensures conflict <==> m.ok && key in old(rows)
      ensures created == if m.ok && key !in old(rows) then Some(old(next)) else None
      ensures rows == if created.None? then old(rows)
                      else old(rows)[key := Record(created.value, fingerprint, begunAt + 86_400_000, None)]
      ensures created.Some? ==> At(r, Request(key, fingerprint, Handling(created.value)))
      ensures created.None? ==> if conflict then At(r, Request(key, fingerprint, Looking)) else r !in requests
    {
      created, conflict := None, m.ok && key in rows;
      if !m.ok {
        requests := requests - {r};
      } else if conflict {
        requests := requests[r := Request(key, fingerprint, Looking)];
      } else {
        created := Some(next);
        log := log + [New(r, key, fingerprint, next, begunAt, clock)];
        rows := rows[key := Record(next, fingerprint, begunAt + DAY, None)];
        requests := requests[r := Request(key, fingerprint, Handling(next))];
        next := next + 1;
      }
    }

    method FindUnique(r: RequestId, key: Key, fingerprint: Fingerprint, m: Moment) returns (existing: Option<Record>)
      requires At(r, Request(key, fingerprint, Looking))
      modifies this
      ensures State() == Own(r, old(State()), m)
      ensures existing == if m.ok && key in rows then Some(rows[key]) else None
      ensures if existing.Some? then At(r, Request(key, fingerprint, Judging(existing.value))) else r !in requests
    {
      existing := if m.ok && key in rows then Some(rows[key]) else None;
      requests := if existing.Some? then requests[r := Request(key, fingerprint, Judging(existing.value))]
                  else requests - {r};
    }

    /** The branches on the row found: expired, different request, in progress, replay. */
    method Judge(r: RequestId, key: Key, fingerprint: Fingerprint, existing: Record, m: Moment)
        returns (expired: bool, result: Begun)
      requires At(r, Request(key, fingerprint, Judging(existing)))
      modifies this
      ensures State() == Own(r, old(State()), m)
      ensures expired <==> existing.expiresAt <= old(clock)
      ensures if expired then At(r, Request(key, fingerprint, Deleting(existing.id))) else r !in requests
      ensures result == if !expired && existing.fingerprint == fingerprint && existing.response.Some?
                        then Begun.Replay(existing.response.value) else Failed
    {
      expired, result := existing.expiresAt <= clock, Failed;
      if expired {
        requests := requests[r := Request(key, fingerprint, Deleting(existing.id))];
        return;
      }
      if existing.fingerprint == fingerprint && existing.response.Some? {
        result := Begun.Replay(existing.response.value);
        log := log + [Entry.Replay(key, fingerprint, existing.id, existing.response.value)];
      }
      requests := requests - {r};
    }

    /** `delete where id`: exactly that record, which must still be there. */
    method DeleteExpired(r: RequestId, key: Key, fingerprint: Fingerprint, id: RecordId, m: Moment)
        returns (deleted: bool)
      requires At(r, Request(key, fingerprint, Deleting(id)))
      modifies this
      ensures State() == Own(r, old(State()), m)
      ensures deleted <==> m.ok && old(State()).Has(id)
      ensures rows == if deleted then old(State()).Without(id).rows else old(rows)
      ensures if deleted then At(r, Request(key, fingerprint, Starting)) else r !in requests
    {
      deleted := m.ok && State().Has(id);
      if deleted {
        rows := map k | k in rows && rows[k].id != id :: rows[k];
        log := log + [Expired(id, clock)];
        requests := requests[r := Request(key, fingerprint, Starting)];
      } else {
        requests := requests - {r};
      }
    }

    /** The handler of the request. */
    method Handle(r: RequestId, key: Key, fingerprint: Fingerprint, id: RecordId, m: Moment)
      requires At(r, Request(key, fingerprint, Handling(id)))
      modifies this
      ensures State() == Own(r, old(State()), m)
      ensures At(r, Request(key, fingerprint, if m.ok then Completing(id, m.response) else Aborting(id)))
    {
      requests := requests[r := Request(key, fingerprint, if m.ok then Completing(id, m.response) else Aborting(id))];
    }

    /** `update where id`: the response goes into that record and no other, which must still be there. */
    method Complete(r: RequestId, key: Key, fingerprint: Fingerprint, id: RecordId, response: Response, m: Moment)
        returns (completed: bool)
      requires At(r, Request(key, fingerprint, Completing(id, response)))
      modifies this
      ensures State() == Own(r, old(State()), m)
      ensures completed <==> m.ok && old(State()).Has(id)
      ensures rows == if completed then old(State()).Respond(id, response).rows else old(rows)
      ensures if completed then r !in requests else At(r, Request(key, fingerprint, Aborting(id)))
    {
      completed := m.ok && State().Has(id);
      if completed {
        rows := map k | k in rows :: if rows[k].id == id then rows[k].(response := Some(response)) else rows[k];
        log := log + [Completed(r, id, response)];
        requests := requests - {r};
      } else {
        requests := requests[r := Request(key, fingerprint, Aborting(id))];
      }
    }

    /** `deleteMany where id and IN_PROGRESS`: that record, if it has no response; no other. */
    method Abort(r: RequestId, key: Key, fingerprint: Fingerprint, id: RecordId, m: Moment)
      requires At(r, Request(key, fingerprint, Aborting(id)))
      modifies this
      ensures State() == Own(r, old(State()), m) && r !in requests
      ensures rows == if m.ok && (exists k :: k in old(rows) && old(rows)[k].id == id && old(rows)[k].response.None?)
                      then old(State()).Without(id).rows else old(rows)
    {
      if m.ok && exists k :: k in rows && rows[k].id == id && rows[k].response.None? {
        rows := map k | k in rows && rows[k].id != id :: rows[k];
        log := log + [Aborted(id)];
      }
      requests := requests - {r};
    }

    // ----- Operations ---------------------------------------------------------------------------

    /** What `begin` leaves: the record its own and the rest of the course to come, or the course over, or
        the statements used up. */
    ghost predicate Begins(r: RequestId, key: Key, fingerprint: Fingerprint, env: nat -> Moment,
                           course: Ending<World, Action>, result: Begun, i: nat, n: nat)
      reads this
    {
      match result
      case NewRecord(id) => At(r, Request(key, fingerprint, Handling(id))) && Rest(r, env, i, n) == course
      case Replay(response) => Over(course) && Answer(course, r) == Replied(response)
      case Failed => Over(course) && Answer(course, r) == Refused
      case Waiting => course == Unfinished(State())
    }

    /** `begin`, which starts over after deleting an expired row. */
    method Begin(r: RequestId, key: Key, fingerprint: Fingerprint, env: nat -> Moment, i: nat, n: nat)
        returns (result: Begun, j: nat, k: nat)
      requires At(r, Request(key, fingerprint, Starting))
      modifies this
      ensures Begins(r, key, fingerprint, env, old(Rest(r, env, i, n)), result, j, k)
      decreases n
    {
      result, j, k := Waiting, i, n;
      if n == 0 { return; }
      StepCourse(r, env, State(), i, n);
      Others(r, env(i));
      var begunAt := ReadClock(r, key, fingerprint, env(i));
      assert Rest(r, env, i + 1, n - 1) == old(Rest(r, env, i, n));
      result, j, k := Insert(r, key, fingerprint, begunAt, env, i + 1, n - 1);
    }

    method Insert(r: RequestId, key: Key, fingerprint: Fingerprint, begunAt: Time, env: nat -> Moment, i: nat, n: nat)
        returns (result: Begun, j: nat, k: nat)
      requires At(r, Request(key, fingerprint, Creating(begunAt)))
      modifies this
      ensures Begins(r, key, fingerprint, env, old(Rest(r, env, i, n)), result, j, k)
      decreases n
    {
      result, j, k := Waiting, i, n;
      if n == 0 { return; }
      var created, conflict := CreateNext(r, key, fingerprint, begunAt, env, i, n);
      if created.Some? { return NewRecord(created.value), i + 1, n - 1; }
      if !conflict { return Failed, i, n; }
      result, j, k := Resolve(r, key, fingerprint, env, i + 1, n - 1);
    }

    /** The insert as the next statement of the course. */
    method CreateNext(r: RequestId, key: Key, fingerprint: Fingerprint, begunAt: Time, env: nat -> Moment, i: nat,
                      n: nat)
        returns (created: Option<RecordId>, conflict: bool)
      requires At(r, Request(key, fingerprint, Creating(begunAt))) && n > 0
      modifies this
      ensures created.Some? ==> At(r, Request(key, fingerprint, Handling(created.value)))
      ensures created.None? && conflict ==> At(r, Request(key, fingerprint, Looking))
      ensures created.Some? || conflict ==> Rest(r, env, i + 1, n - 1) == old(Rest(r, env, i, n))
      ensures created.None? && !conflict ==>
                Over(old(Rest(r, env, i, n))) && Answer(old(Rest(r, env, i, n)), r) == Refused
    {
      StepCourse(r, env, State(), i, n);
      Others(r, env(i));
      created, conflict := Create(r, key, fingerprint, begunAt, env(i));
    }

    /** The key was taken: look the row up and judge it, or delete it and start over. */
    method Resolve(r: RequestId, key: Key, fingerprint: Fingerprint, env: nat -> Moment, i: nat, n: nat)
        returns (result: Begun, j: nat, k: nat)
      requires At(r, Request(key, fingerprint, Looking))
      modifies this
      ensures Begins(r, key, fingerprint, env, old(Rest(r, env, i, n)), result, j, k)
      decreases n
    {
      result, j, k := Waiting, i, n;
      if n == 0 { return; }
      var existing := FindNext(r, key, fingerprint, env, i, n);
      if existing.None? { return Failed, i, n; }
      result, j, k := JudgeOrRestart(r, key, fingerprint, existing.value, env, i + 1, n - 1);
    }

    /** The lookup as the next statement of the course. */
    method FindNext(r: RequestId, key: Key, fingerprint: Fingerprint, env: nat -> Moment, i: nat, n: nat)
        returns (existing: Option<Record>)
      requires At(r, Request(key, fingerprint, Looking)) && n > 0
      modifies this
      ensures existing.Some? ==>
                && At(r, Request(key, fingerprint, Judging(existing.value)))
                && Rest(r, env, i + 1, n - 1) == old(Rest(r, env, i, n))
      ensures existing.None? ==> Over(old(Rest(r, env, i, n))) && Answer(old(Rest(r, env, i, n)), r) == Refused
    {
      StepCourse(r, env, State(), i, n);
      Others(r, env(i));
      existing := FindUnique(r, key, fingerprint, env(i));
    }

    method JudgeOrRestart(r: RequestId, key: Key, fingerprint: Fingerprint, existing: Record, env: nat -> Moment,
                          i: nat, n: nat) returns (result: Begun, j: nat, k: nat)
      requires At(r, Request(key, fingerprint, Judging(existing)))
      modifies this
      ensures Begins(r, key, fingerprint, env, old(Rest(r, env, i, n)), result, j, k)
      decreases n
    {
      result, j, k := Waiting, i, n;
      if n == 0 { return; }
      var expired;
      expired, result := JudgeNext(r, key, fingerprint, existing, env, i, n);
      if !expired { return; }
      result, j, k := Restart(r, key, fingerprint, existing.id, env, i + 1, n - 1);
    }

    /** The judging as the next statement of the course. */
    method JudgeNext(r: RequestId, key: Key, fingerprint: Fingerprint, existing: Record, env: nat -> Moment,
                     i: nat, n: nat) returns (expired: bool, result: Begun)
      requires At(r, Request(key, fingerprint, Judging(existing))) && n > 0
      modifies this
      ensures expired ==>
                && At(r, Request(key, fingerprint, Deleting(existing.id)))
                && Rest(r, env, i + 1, n - 1) == old(Rest(r, env, i, n))
      ensures !expired ==>
                && (result.Replay? || result.Failed?) && Over(old(Rest(r, env, i, n)))
                && Answer(old(Rest(r, env, i, n)), r) == if result.Replay? then Replied(result.response) else Refused
    {
      StepCourse(r, env, State(), i, n);
      Others(r, env(i));
      expired, result := Judge(r, key, fingerprint, existing, env(i));
    }

    method Restart(r: RequestId, key: Key, fingerprint: Fingerprint, id: RecordId, env: nat -> Moment, i: nat, n: nat)
        returns (result: Begun, j: nat, k: nat)
      requires At(r, Request(key, fingerprint, Deleting(id)))
      modifies this
      ensures Begins(r, key, fingerprint, env, old(Rest(r, env, i, n)), result, j, k)
      decreases n
    {
      result, j, k := Waiting, i, n;
      if n == 0 { return; }
      var deleted := DeleteNext(r, key, fingerprint, id, env, i, n);
      if !deleted { return Failed, i, n; }
      result, j, k := Begin(r, key, fingerprint, env, i + 1, n - 1);
    }

    /** The delete as the next statement of the course. */
    method DeleteNext(r: RequestId, key: Key, fingerprint: Fingerprint, id: RecordId, env: nat -> Moment, i: nat,
                      n: nat)
        returns (deleted: bool)
      requires At(r, Request(key, fingerprint, Deleting(id))) && n > 0
      modifies this
      ensures deleted ==>
                At(r, Request(key, fingerprint, Starting)) && Rest(r, env, i + 1, n - 1) == old(Rest(r, env, i, n))
      ensures !deleted ==> Over(old(Rest(r, env, i, n))) && Answer(old(Rest(r, env, i, n)), r) == Refused
    {
      StepCourse(r, env, State(), i, n);
      Others(r, env(i));
      deleted := DeleteExpired(r, key, fingerprint, id, env(i));
    }

    /** The handler, `complete`, and `abort` when either fails. */
    method Execute(ghost course: Ending<World, Action>, r: RequestId, key: Key, fingerprint: Fingerprint, id: RecordId,
                   env: nat -> Moment, i: nat, n: nat) returns (outcome: Outcome)
      requires course == Rest(r, env, i, n)
      requires At(r, Request(key, fingerprint, Handling(id)))
      modifies this
      ensures course.State() == State() && outcome == Answer(course, r)
    {
      if n == 0 { return InFlight; }
      StepCourse(r, env, State(), i, n);
      Others(r, env(i));
      Handle(r, key, fingerprint, id, env(i));
      if env(i).ok {
        outcome := Finish(course, r, key, fingerprint, id, env(i).response, env, i + 1, n - 1);
      } else {
        outcome := GiveUp(course, r, key, fingerprint, id, env, i + 1, n - 1);
      }
    }

    method Finish(ghost course: Ending<World, Action>, r: RequestId, key: Key, fingerprint: Fingerprint, id: RecordId,
                  response: Response, env: nat -> Moment, i: nat, n: nat) returns (outcome: Outcome)
      requires course == Rest(r, env, i, n)
      requires At(r, Request(key, fingerprint, Completing(id, response)))
      modifies this
      ensures course.State() == State() && outcome == Answer(course, r)
    {
      if n == 0 { return InFlight; }
      StepCourse(r, env, State(), i, n);
      Others(r, env(i));
      var completed := Complete(r, key, fingerprint, id, response, env(i));
      if completed { return Replied(response); }
      outcome := GiveUp(course, r, key, fingerprint, id, env, i + 1, n - 1);
    }

    method GiveUp(ghost course: Ending<World, Action>, r: RequestId, key: Key, fingerprint: Fingerprint, id: RecordId,
                  env: nat -> Moment, i: nat, n: nat) returns (outcome: Outcome)
      requires course == Rest(r, env, i, n)
      requires At(r, Request(key, fingerprint, Aborting(id)))
      modifies this
      ensures course.State() == State() && outcome == Answer(course, r)
    {
      if n == 0 { return InFlight; }
      StepCourse(r, env, State(), i, n);
      Others(r, env(i));
      Abort(r, key, fingerprint, id, env(i));
      outcome := Refused;
    }

    /** The interceptor: begin; replay, or run the handler and complete; abort when either fails. */
    method Intercept(key: Key, fingerprint: Fingerprint, env: nat -> Moment, n: nat) returns (outcome: Outcome)
      modifies this
      ensures var course := Course(old(next), env, Next(old(State()), Arrive(key, fingerprint)), 0, n);
              course.State() == State() && outcome == Answer(course, old(next))
    {
      var r := Register(key, fingerprint);
      var begun, i, k := Begin(r, key, fingerprint, env, 0, n);
      match begun {
        case Replay(response) => outcome := Replied(response);
        case Failed => outcome := Refused;
        case Waiting => outcome := InFlight;
        case NewRecord(id) => outcome := Execute(Rest(r, env, i, k), r, key, fingerprint, id, env, i, k);
      }
    }

    method Register(key: Key, fingerprint: Fingerprint) returns (r: RequestId)
      modifies this
      ensures State() == Next(old(State()), Arrive(key, fingerprint))
      ensures r == old(next) && At(r, Request(key, fingerprint, Starting))
    {
      r := next;
      requests, next := requests[r := Request(key, fingerprint, Starting)], next + 1;
    }
  }
}
