/** `createAndSend` and `refreshStatus` as code over the shared row of one ticket. Between two statements
    other calls may run and the clock may move. Every operation is proved to take exactly its course of
    module TicketCalls, in the state and with the result in which that ends. */
module TicketService {
  import opened Common
  import opened TicketPolicy
  import opened TicketLease
  import opened TicketCalls
  import opened Runs

  class Ticket {
    var row: Row
    var clock: Time
    /** The program points of the calls in flight. */
    var sender: Sender
    var polls: map<PollId, Poll>
    var next: PollId
    var claims: seq<Time>
    var answers: seq<Answer>

    constructor (now: Time)
      ensures State() == Created(now)
    {
      row, clock, sender, polls, next := Row(CREATED, 0, None, None, now), now, Preparing, map[], 0;
      claims, answers := [], [];
    }

    function State(): World
      reads this
    {
      World(clock, row, sender, polls, next, claims, answers)
    }

    predicate At(p: PollId, q: Poll)
      reads this
    {
      p in polls && polls[p] == q && p < next
    }

    /** What is left of the course of poll p. */
    ghost function Rest(p: PollId, env: nat -> Moment, i: nat): Ending<World, Action>
      reads this
      requires i <= POLL_STEPS
    {
      Course(p, env, State(), i, POLL_STEPS - i)
    }

    ghost predicate Over(e: Ending<World, Action>)
      reads this
    {
      e.Finished? && e.after == State()
    }

    method Take(action: Action)
      modifies this
      ensures State() == Next(old(State()), action)
    {
      var w := Next(State(), action);
      clock, row, sender, polls, next := w.clock, w.row, w.sender, w.polls, w.next;
      claims, answers := w.claims, w.answers;
    }

    /** The given actions, without those of one call. */
    method Interfere(ghost mine: Action -> bool, actions: seq<Action>, skip: seq<bool>)
      requires |skip| == |actions| && forall i :: 0 <= i < |actions| ==> skip[i] == mine(actions[i])
      modifies this
      ensures State() == Iterate(Next, old(State()), Without(mine, actions))
    {
      ghost var start := State();
      var i := 0;
      while i < |actions|
        invariant 0 <= i <= |actions|
        invariant State() == Iterate(Next, start, Without(mine, actions[..i]))
      {
        assert actions[..i + 1] == actions[..i] + [actions[i]];
        WithoutGrows(start, mine, actions[..i], actions[i]);
        if !skip[i] { Take(actions[i]); }
        i := i + 1;
      }
      assert actions[..i] == actions;
    }

    /** What others do before a statement of poll p. */
    method Others(p: PollId, m: Moment)
      requires p in polls && p < next
      modifies this
      ensures State() == Before(p, old(State()), m) && At(p, old(polls)[p])
    {
      ForeignLeavesPoll(State(), p, m.others);
      Interfere((a: Action) => OfPoll(a, p), m.others,
                seq(|m.others|, i requires 0 <= i < |m.others| => OfPoll(m.others[i], p)));
    }

    method OthersThanSender(m: Moment)
      modifies this
      ensures State() == BeforeSender(old(State()), m) && sender == old(sender)
    {
      ForeignLeavesSender(State(), m.others);
      Interfere((a: Action) => OfSender(a), m.others,
                seq(|m.others|, i requires 0 <= i < |m.others| => OfSender(m.others[i])));
    }

    // ----- createAndSend ------------------------------------------------------------------------

    /** Building, packing and sending, and the time read for the SENT write. */
    method Deliver(m: Moment) returns (submittedAt: Option<Time>)
      requires sender == Preparing
      modifies this
      ensures State() == NextSubmit(old(State()), m.ok)
      ensures submittedAt == if m.ok then Some(clock) else None
      ensures sender == if m.ok then Stamped(clock) else Failing
    {
      submittedAt := if m.ok then Some(clock) else None;
      sender := if m.ok then Stamped(clock) else Failing;
    }

    method RecordSent(submittedAt: Time, m: Moment)
      requires sender == Stamped(submittedAt)
      modifies this
      ensures State() == NextSubmit(old(State()), m.ok)
      ensures m.ok ==> row == Row(SENT, 0, None, Some(submittedAt), clock)
      ensures sender == if m.ok then Done else Failing
    {
      if m.ok { row := Row(SENT, 0, None, Some(submittedAt), clock); }
      sender := if m.ok then Done else Failing;
    }

    method RecordError(m: Moment)
      requires sender == Failing
      modifies this
      ensures State() == NextSubmit(old(State()), m.ok) && sender == Done
    {
      if m.ok { row := row.(status := ERROR, updatedAt := clock); }
      sender := Done;
    }

    /** Building, packing and sending; then the SENT write; the ERROR write when either fails. */
    method CreateAndSend(env: nat -> Moment) returns (sent: bool)
      requires sender == Preparing
      modifies this
      ensures var e := SenderCourse(env, old(State()), 0, SEND_STEPS);
              Over(e) && sender == Done && sent == SenderResult(e)
      ensures sent ==> row == Row(SENT, 0, None, row.submittedAt, clock) && row.submittedAt.Some?
    {
      StepSender(env, State(), 0, SEND_STEPS);
      OthersThanSender(env(0));
      var submittedAt := Deliver(env(0));
      var failedAt := 1;
      if submittedAt.Some? {
        StepSender(env, State(), 1, SEND_STEPS - 1);
        OthersThanSender(env(1));
        RecordSent(submittedAt.value, env(1));
        if env(1).ok { return true; }
        failedAt := 2;
      }
      StepSender(env, State(), failedAt, SEND_STEPS - failedAt);
      OthersThanSender(env(failedAt));
      RecordError(env(failedAt));
      sent := false;
    }

    // ----- refreshStatus ------------------------------------------------------------------------

    /** The time, if the row as found is due by then. */
    method ReadClock(p: PollId, nextPollAt: Option<Time>, m: Moment) returns (now: Option<Time>)
      requires At(p, Looked(nextPollAt))
      modifies this
      ensures State() == Own(p, old(State()), m)
      ensures now == if Due(nextPollAt, clock) then Some(clock) else None
      ensures if now.Some? then At(p, Ready(now.value)) else p !in polls
    {
      now := if nextPollAt.Some? && nextPollAt.value > clock then None else Some(clock);
      polls := if now.Some? then polls[p := Ready(clock)] else polls - {p};
    }

    /** `updateMany where id, SENT, nextPollAt null or due`: the claim. */
    method Claim(p: PollId, now: Time, m: Moment) returns (number: Option<nat>)
      requires At(p, Ready(now))
      modifies this
      ensures State() == Own(p, old(State()), m)
      ensures number.Some? <==> m.ok && Claimable(old(row), now)
      ensures if number.Some? then At(p, Claimed(now, number.value)) else p !in polls
      ensures row == if number.Some?
                     then old(row).(pollAttempt := old(row).pollAttempt + 1, nextPollAt := Some(now + LEASE),
                                    updatedAt := clock)
                     else old(row)
    {
      if m.ok && Claimable(row, now) {
        number := Some(row.pollAttempt + 1);
        row := row.(pollAttempt := row.pollAttempt + 1, nextPollAt := Some(now + LEASE), updatedAt := clock);
        claims := claims + [now];
        polls := polls[p := Claimed(now, number.value)];
      } else {
        number, polls := None, polls - {p};
      }
    }

    /** `findUnique` after the claim: attempt and submission time. */
    method ReadBack(p: PollId, now: Time, number: nat, m: Moment) returns (found: Option<(nat, Time)>)
      requires At(p, Claimed(now, number))
      modifies this
      ensures State() == Own(p, old(State()), m)
      ensures found == if m.ok then Some((row.pollAttempt, row.Since())) else None
      ensures if found.Some? then At(p, Reread(now, number, found.value.0, found.value.1)) else p !in polls
    {
      found := if m.ok then Some((row.pollAttempt, row.Since())) else None;
      polls := if m.ok then polls[p := Reread(now, number, row.pollAttempt, row.Since())] else polls - {p};
    }

    /** SUNAT's reply and what the policy makes of it. */
    method Judge(p: PollId, now: Time, number: nat, attempt: nat, since: Time, m: Moment)
        returns (verdict: Option<Verdict>)
      requires At(p, Reread(now, number, attempt, since))
      modifies this
      ensures State() == Own(p, old(State()), m)
      ensures verdict == if m.ok then Decide(now, attempt, since, m.reply) else None
      ensures verdict == Some(Failed) <==>
                && m.ok && attempt >= 1 && m.reply.code !in {"", "0", "00", "99"}
                && (m.reply.code == "98" ==> attempt >= 20 || now - since >= 1_800_000)
      ensures verdict.Some? && verdict.value.Later? <==>
                m.ok && 1 <= attempt < 20 && m.reply.code == "98" && now - since < 1_800_000
      ensures forall accepted :: verdict == Some(Applied(accepted)) <==>
                m.ok && attempt >= 1 && m.reply.code in {"0", "00", "99"} && m.reply.cdr == Read(accepted)
      ensures if verdict.Some? then At(p, Writing(now, number, verdict.value)) else p !in polls
    {
      DecideMeans(now, attempt, since, m.reply);
      verdict := if m.ok then Decide(now, attempt, since, m.reply) else None;
      polls := if verdict.Some? then polls[p := Writing(now, number, verdict.value)] else polls - {p};
    }

    /** The final `update where id`. */
    method Write(p: PollId, now: Time, number: nat, verdict: Verdict, m: Moment)
      requires At(p, Writing(now, number, verdict))
      modifies this
      ensures State() == Own(p, old(State()), m) && p !in polls
      ensures row == if m.ok then Written(old(row), now, clock, verdict) else old(row)
    {
      if m.ok {
        match verdict {
          case Later(delay, elapsed) =>
            row := row.(nextPollAt := Some(now + delay), updatedAt := clock);
            answers := answers + [Answer(number, elapsed)];
          case Failed => row := row.(status := ERROR, updatedAt := clock);
          case Applied(accepted) => row := row.(status := if accepted then ACCEPTED else REJECTED, updatedAt := clock);
        }
      }
      polls := polls - {p};
    }

    /** From the claim on. */
    method PollOnce(p: PollId, now: Time, env: nat -> Moment) returns (result: Refreshed)
      requires At(p, Ready(now))
      modifies this
      ensures Over(old(Rest(p, env, 1))) && result == PollResult(old(Rest(p, env, 1)), p)
    {
      StepCourse(p, env, State(), 1, POLL_STEPS - 1);
      Others(p, env(1));
      var number := Claim(p, now, env(1));
      if number.None? { return Thrown; }
      assert Rest(p, env, 2) == old(Rest(p, env, 1));

      StepCourse(p, env, State(), 2, POLL_STEPS - 2);
      Others(p, env(2));
      var found := ReadBack(p, now, number.value, env(2));
      if found.None? { return Thrown; }
      assert Rest(p, env, 3) == old(Rest(p, env, 1));

      result := AskAndWrite(p, now, number.value, found.value.0, found.value.1, env);
    }

    /** The write of a verdict ends the call. */
    method WriteNext(p: PollId, now: Time, number: nat, verdict: Verdict, env: nat -> Moment)
        returns (result: Refreshed)
      requires At(p, Writing(now, number, verdict))
      modifies this
      ensures Over(old(Rest(p, env, 4))) && result == PollResult(old(Rest(p, env, 4)), p)
    {
      StepCourse(p, env, State(), 4, POLL_STEPS - 4);
      Others(p, env(4));
      Write(p, now, number, verdict, env(4));
      result := if !env(4).ok || verdict.Failed? then Thrown
                else if verdict.Later? then StillPending else Closed(verdict.accepted);
    }

    /** From the status query on. */
    method AskAndWrite(p: PollId, now: Time, number: nat, attempt: nat, since: Time, env: nat -> Moment)
        returns (result: Refreshed)
      requires At(p, Reread(now, number, attempt, since))
      modifies this
      ensures Over(old(Rest(p, env, 3))) && result == PollResult(old(Rest(p, env, 3)), p)
    {
      StepCourse(p, env, State(), 3, POLL_STEPS - 3);
      Others(p, env(3));
      var verdict := Judge(p, now, number, attempt, since, env(3));
      if verdict.None? { return Thrown; }
      assert Rest(p, env, 4) == old(Rest(p, env, 3));

      result := WriteNext(p, now, number, verdict.value, env);
    }

    /** From the time reading on. */
    method RefreshFound(p: PollId, nextPollAt: Option<Time>, env: nat -> Moment) returns (result: Refreshed)
      requires At(p, Looked(nextPollAt))
      modifies this
      ensures Over(old(Rest(p, env, 0))) && result == PollResult(old(Rest(p, env, 0)), p)
    {
      StepCourse(p, env, State(), 0, POLL_STEPS);
      Others(p, env(0));
      var now := ReadClock(p, nextPollAt, env(0));
      if now.None? { return Thrown; }
      assert Rest(p, env, 1) == old(Rest(p, env, 0));
      result := PollOnce(p, now.value, env);
    }

    /** `findFirst` of a SENT row. */
    method Find() returns (p: PollId, nextPollAt: Option<Time>)
      requires row.status == SENT
      modifies this
      ensures State() == Next(old(State()), Look) && p == old(next) && At(p, Looked(nextPollAt))
    {
      p, nextPollAt := next, row.nextPollAt;
      polls, next := polls[p := Looked(nextPollAt)], next + 1;
    }

    method RefreshStatus(env: nat -> Moment) returns (result: Refreshed)
      modifies this
      ensures old(row).status != SENT ==> result == Thrown && State() == old(State())
      ensures old(row).status == SENT ==>
                var e := Course(old(next), env, Next(old(State()), Look), 0, POLL_STEPS);
                Over(e) && result == PollResult(e, old(next))
    {
      if row.status != SENT { return Thrown; }
      var p, nextPollAt := Find();
      result := RefreshFound(p, nextPollAt, env);
    }
  }
}
