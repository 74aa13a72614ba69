/** What one `refreshStatus` leaves in the row of its ticket, by the code that SUNAT answers. */
module TicketOutcomes {
  import opened Common
  import opened Backoff
  import opened TicketPolicy
  import opened TicketLease
  import opened TicketCalls
  import opened Runs

  /** The statements that a call still takes at most. */
  function Left(q: Poll): nat {
    match q
    case Looked(_) => 5
    case Ready(_) => 4
    case Claimed(_, _) => 3
    case Reread(_, _, _, _) => 2
    case Writing(_, _, _) => 1
  }

  lemma {:induction false} RefreshEnds(p: PollId, env: nat -> Moment, w: World, i: nat, n: nat)
    requires p in w.polls && p < w.next && n >= Left(w.polls[p])
    ensures Course(p, env, w, i, n).Finished?
    decreases n
  {
    Found(p, env, w, i, n);
    var w' := Own(p, Before(p, w, env(i)), env(i));
    if p in w'.polls { RefreshEnds(p, env, w', i + 1, n - 1); }
  }

  /** SUNAT's reply comes in: the ticket is due at the time read, the row still SENT and due when claimed, and no
      statement up to the status query fails. */
  predicate Heard(p: PollId, env: nat -> Moment, w: World)
    requires p in w.polls && w.polls[p].Looked?
  {
    var now, next, row := AtClock(p, env, w).clock, w.polls[p].nextPollAt, AtClaim(p, env, w).row;
    && (next.None? || next.value <= now)
    && env(1).ok && row.status == SENT && (row.nextPollAt.None? || row.nextPollAt.value <= now)
    && env(2).ok && env(3).ok
  }

  /** How long the ticket has been out, by the row as re-read. */
  function Elapsed(row: Row, now: Time): int {
    var since := if row.submittedAt.Some? then row.submittedAt.value else row.updatedAt;
    if now < since then 0 else now - since
  }

  /** The wait before the next poll: doubling from two seconds, two minutes from the seventh attempt on. */
  function Wait(attempt: nat): int
    requires attempt >= 1
  {
    if attempt <= 6 then 2_000 * Pow2(attempt - 1) else 120_000
  }

  /** What the reply makes of a row, and what the caller is told. */
  ghost predicate Answered(
    before: Row, after: Row, result: Refreshed, reread: Row, now: Time, clock: Time, reply: Reply)
  {
    if reread.pollAttempt == 0 || reply.code == "" then after == before && result == Thrown
    else if reply.code == "0" || reply.code == "00" || reply.code == "99" then
      match reply.cdr
      case Read(true) => after == before.(status := ACCEPTED, updatedAt := clock) && result == Closed(true)
      case Read(false) => after == before.(status := REJECTED, updatedAt := clock) && result == Closed(false)
      case _ => after == before && result == Thrown
    else if reply.code == "98" && reread.pollAttempt < 20 && Elapsed(reread, now) < 1_800_000 then
      && after == before.(nextPollAt := Some(now + Wait(reread.pollAttempt)), updatedAt := clock)
      && result == StillPending
    else after == before.(status := ERROR, updatedAt := clock) && result == Thrown
  }

  lemma VerdictMeans(p: PollId, env: nat -> Moment, w: World)
    requires p in w.polls && w.polls[p].Looked?
    ensures var row := AtReread(p, env, w).row;
            VerdictOf(p, env, w) == if Heard(p, env, w) && env(4).ok
                                    then Decide(AtClock(p, env, w).clock, row.pollAttempt, row.Since(), env(3).reply)
                                    else None
  {
  }

  lemma WrittenAnswers(before: Row, reread: Row, now: Time, clock: Time, reply: Reply)
    ensures var v := Decide(now, reread.pollAttempt, reread.Since(), reply);
            Answered(before, if v.None? then before else Written(before, now, clock, v.value),
                     if v.None? then Thrown else VerdictResult(v.value), reread, now, clock, reply)
  {
    DecideMeans(now, reread.pollAttempt, reread.Since(), reply);
  }

  /** Whatever other calls do in between: a refresh that hears a reply and whose final write succeeds leaves the row
      closed by the CDR for the codes 0, 00 and 99, with a new poll time for 98 below 20 attempts and 30 minutes, and
      ERROR for every other code; one that does not leaves the row as it finds it in the end, and throws. */
  lemma RefreshLeaves(p: PollId, env: nat -> Moment, w: World, n: nat)
    requires p in w.polls && w.polls[p].Looked? && p < w.next && n >= 5
    ensures var e := Course(p, env, w, 0, n);
            && e.Finished?
            && if Heard(p, env, w) && env(4).ok
               then Answered(e.before.row, e.after.row, PollResult(e, p), AtReread(p, env, w).row,
                             AtClock(p, env, w).clock, e.before.clock, env(3).reply)
               else e.after.row == e.before.row && PollResult(e, p) == Thrown
  {
    RefreshEnds(p, env, w, 0, n);
    RefreshWrites(p, env, w, n);
    PollLeaves(p, env, w, 0, n);
    VerdictMeans(p, env, w);
    var e := Course(p, env, w, 0, n);
    WrittenAnswers(e.before.row, AtReread(p, env, w).row, AtClock(p, env, w).clock, e.before.clock, env(3).reply);
  }

  // ----- An undisturbed refresh ---------------------------------------------------------------

  predicate Quiet(env: nat -> Moment) {
    forall k :: 0 <= k <= 4 ==> env(k).ok && env(k).others == []
  }

  lemma QuietStep(p: PollId, env: nat -> Moment, w: World, i: nat, n: nat)
    requires p in w.polls && p < w.next && n > 0 && Quiet(env) && i <= 4
    ensures var w' := NextPoll(w, p, w.polls[p], true, env(i).reply);
            && Before(p, w, env(i)) == w && Own(p, w, env(i)) == w'
            && Course(p, env, w, i, n) == if p in w'.polls then Course(p, env, w', i + 1, n - 1)
                                          else Finished(w, Advance(p, true, env(i).reply), w')
  {
    Found(p, env, w, i, n);
    assert Foreign(p, []) == [];
  }

  /** The row as the claim of a poll leaves it. */
  function Leased(w: World): Row {
    w.row.(pollAttempt := w.row.pollAttempt + 1, nextPollAt := Some(w.clock + 120_000), updatedAt := w.clock)
  }

  /** An undisturbed refresh of a due ticket, statement by statement. */
  lemma QuietWorlds(p: PollId, env: nat -> Moment, w: World)
    requires p in w.polls && w.polls[p].Looked? && p < w.next && Quiet(env)
    requires w.row.status == SENT && w.row.nextPollAt == w.polls[p].nextPollAt
    requires w.row.nextPollAt.None? || w.row.nextPollAt.value <= w.clock
    ensures AtClock(p, env, w) == w && AtClaim(p, env, w) == w.Goto(p, Ready(w.clock))
    ensures AtReread(p, env, w).row == Leased(w) && AtReread(p, env, w).clock == w.clock
    ensures p in AtReread(p, env, w).polls && p < AtReread(p, env, w).next
    ensures AtReread(p, env, w).polls[p] == Claimed(w.clock, w.row.pollAttempt + 1)
  {
    QuietStep(p, env, w, 0, 5);
    var w1 := w.Goto(p, Ready(w.clock));
    QuietClaim(p, env, w1, 5);
  }

  lemma QuietClaim(p: PollId, env: nat -> Moment, w: World, n: nat)
    requires p in w.polls && p < w.next && Quiet(env) && w.polls[p] == Ready(w.clock) && n >= 2
    requires w.row.status == SENT && (w.row.nextPollAt.None? || w.row.nextPollAt.value <= w.clock)
    ensures Before(p, w, env(1)) == w
    ensures var w' := Before(p, Own(p, w, env(1)), env(2));
            && w'.row == Leased(w) && w'.clock == w.clock && p in w'.polls && p < w'.next
            && w'.polls[p] == Claimed(w.clock, w.row.pollAttempt + 1)
  {
    QuietStep(p, env, w, 1, n);
    QuietStep(p, env, Own(p, w, env(1)), 2, n);
  }

  /** Once claimed, an undisturbed poll changes nothing before its final write. */
  lemma {:induction false} QuietRow(p: PollId, env: nat -> Moment, w: World, i: nat, n: nat)
    requires p in w.polls && p < w.next && Quiet(env) && w.polls[p].Holds()
    requires i + Left(w.polls[p]) == 5 && n >= Left(w.polls[p])
    ensures var e := Course(p, env, w, i, n); e.Finished? && e.before.row == w.row && e.before.clock == w.clock
    decreases n
  {
    QuietStep(p, env, w, i, n);
    var w' := NextPoll(w, p, w.polls[p], true, env(i).reply);
    if p in w'.polls { QuietRow(p, env, w', i + 1, n - 1); }
  }

  lemma QuietBefore(p: PollId, env: nat -> Moment, w: World, n: nat)
    requires p in w.polls && w.polls[p].Looked? && p < w.next && Quiet(env) && n >= 5
    requires w.row.status == SENT && w.row.nextPollAt == w.polls[p].nextPollAt
    requires w.row.nextPollAt.None? || w.row.nextPollAt.value <= w.clock
    ensures var e := Course(p, env, w, 0, n); e.Finished? && e.before.row == Leased(w) && e.before.clock == w.clock
  {
    QuietStep(p, env, w, 0, n);
    var w1 := w.Goto(p, Ready(w.clock));
    QuietStep(p, env, w1, 1, n - 1);
    QuietRow(p, env, NextPoll(w1, p, w1.polls[p], true, env(1).reply), 2, n - 2);
  }

  /** An undisturbed refresh of a due ticket counts one attempt and leaves the row as the reply demands: still SENT
      with its new poll time, closed, or ERROR. */
  lemma UndisturbedRefresh(p: PollId, env: nat -> Moment, w: World, n: nat)
    requires p in w.polls && w.polls[p].Looked? && p < w.next && Quiet(env) && n >= 5
    requires w.row.status == SENT && w.row.nextPollAt == w.polls[p].nextPollAt
    requires w.row.nextPollAt.None? || w.row.nextPollAt.value <= w.clock
    ensures var e := Course(p, env, w, 0, n);
            && e.Finished?
            && Answered(Leased(w), e.after.row, PollResult(e, p), Leased(w), w.clock, w.clock, env(3).reply)
  {
    RefreshLeaves(p, env, w, n);
    QuietWorlds(p, env, w);
    QuietBefore(p, env, w, n);
  }
}
