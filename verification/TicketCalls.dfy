/** One call of `refreshStatus` or `createAndSend` among all others: its course, what it reports, and
    exactly when. */
module TicketCalls {
  import opened Common
  import opened Backoff
  import opened TicketPolicy
  import opened TicketLease
  import opened Runs

  /** What the environment decides for one statement: what other calls do first, whether the statement
      succeeds, and what SUNAT replies. */
  datatype Moment = Moment(others: seq<Action>, ok: bool, reply: Reply)

  datatype Refreshed = StillPending | Closed(accepted: bool) | Thrown

  predicate OfPoll(action: Action, p: PollId) {
    (action.Advance? || action.Crash?) && action.p == p
  }

  predicate OfSender(action: Action) {
    action.Submit? || action.CrashSender?
  }

  /** The actions that do not satisfy the predicate. */
  function Without(mine: Action -> bool, actions: seq<Action>): seq<Action> {
    if actions == [] then []
    else
      var last := actions[|actions| - 1];
      Without(mine, actions[..|actions| - 1]) + if mine(last) then [] else [last]
  }

  function Foreign(p: PollId, actions: seq<Action>): seq<Action> {
    Without((a: Action) => OfPoll(a, p), actions)
  }

  function ForeignToSender(actions: seq<Action>): seq<Action> {
    Without((a: Action) => OfSender(a), actions)
  }

  lemma WithoutGrows(w: World, mine: Action -> bool, init: seq<Action>, last: Action)
    ensures Iterate(Next, w, Without(mine, init + [last]))
            == if mine(last) then Iterate(Next, w, Without(mine, init))
               else Next(Iterate(Next, w, Without(mine, init)), last)
  {
    assert (init + [last])[..|init|] == init;
    var f := Without(mine, init);
    assert f + [] == f;
    assert (f + [last])[..|f|] == f;
  }

  // ----- refreshStatus ------------------------------------------------------------------------

  const POLL_STEPS := 5

  function PollThread(p: PollId): Thread<World, Action, Moment> {
    Thread(Next, (w: World) => p in w.polls, (w: World, m: Moment) => Advance(p, m.ok, m.reply),
           (m: Moment) => Foreign(p, m.others))
  }

  function Before(p: PollId, w: World, m: Moment): World {
    Iterate(Next, w, Foreign(p, m.others))
  }

  function Own(p: PollId, w: World, m: Moment): World {
    Next(w, Advance(p, m.ok, m.reply))
  }

  function Course(p: PollId, env: nat -> Moment, w: World, i: nat, n: nat): Ending<World, Action> {
    Follow(PollThread(p), env, w, i, n)
  }

  lemma StepCourse(p: PollId, env: nat -> Moment, w: World, i: nat, n: nat)
    requires n > 0 && p in w.polls
    ensures var u := Before(p, w, env(i));
            var w' := Own(p, u, env(i));
            Course(p, env, w, i, n) == if p in w'.polls then Course(p, env, w', i + 1, n - 1)
                                       else Finished(u, Advance(p, env(i).ok, env(i).reply), w')
  {
    FollowUnfolds(PollThread(p), env, w, i, n);
  }

  /** A course is a run of the machine, so everything proved of all runs holds of it. */
  lemma CourseIsRun(p: PollId, env: nat -> Moment, w: World, i: nat, n: nat)
    ensures Reaches(Next, w, Course(p, env, w, i, n).State())
  {
    FollowIsRun(PollThread(p), env, w, i, n);
    assert Course(p, env, w, i, n).State() == Iterate(Next, w, Trace(PollThread(p), env, w, i, n));
  }

  lemma {:induction false} ForeignLeavesPoll(w: World, p: PollId, actions: seq<Action>)
    requires p in w.polls && p < w.next
    ensures var u := Iterate(Next, w, Foreign(p, actions));
            p in u.polls && u.polls[p] == w.polls[p] && p < u.next
  {
    if actions != [] {
      var init, last := actions[..|actions| - 1], actions[|actions| - 1];
      ForeignLeavesPoll(w, p, init);
      assert actions == init + [last];
      WithoutGrows(w, (a: Action) => OfPoll(a, p), init, last);
      if !OfPoll(last, p) { OthersLeavePoll(Iterate(Next, w, Foreign(p, init)), last, p); }
    }
  }

  lemma OthersLeavePoll(w: World, action: Action, p: PollId)
    requires p in w.polls && p < w.next && !OfPoll(action, p)
    ensures p in Next(w, action).polls && Next(w, action).polls[p] == w.polls[p] && p < Next(w, action).next
  {
  }

  function VerdictResult(v: Verdict): Refreshed {
    match v
    case Later(_, _) => StillPending
    case Failed => Thrown
    case Applied(accepted) => Closed(accepted)
  }

  /** The verdict that a call ended by writing, and the time it had read. */
  function PollWrite(e: Ending<World, Action>, p: PollId): Option<(Time, Verdict)> {
    if e.Finished? && p in e.before.polls && e.before.polls[p].Writing? && e.last.Advance? && e.last.ok
    then Some((e.before.polls[p].now, e.before.polls[p].verdict)) else None
  }

  /** What `refreshStatus` reports: its verdict if it ended by writing it, else it throws. */
  function PollResult(e: Ending<World, Action>, p: PollId): Refreshed {
    if PollWrite(e, p).Some? then VerdictResult(PollWrite(e, p).value.1) else Thrown
  }

  /** The worlds that the clock reading, the claim and the re-read find. */
  function AtClock(p: PollId, env: nat -> Moment, w: World): World {
    Before(p, w, env(0))
  }

  function AtClaim(p: PollId, env: nat -> Moment, w: World): World {
    Before(p, Own(p, AtClock(p, env, w), env(0)), env(1))
  }

  function AtReread(p: PollId, env: nat -> Moment, w: World): World {
    Before(p, Own(p, AtClaim(p, env, w), env(1)), env(2))
  }

  predicate Due(nextPollAt: Option<Time>, now: Time) {
    nextPollAt.None? || nextPollAt.value <= now
  }

  /** The verdict that a call writes, if any, told by what it finds: the ticket is due at the time it reads,
      claimable by that time when claimed, and the reply is judged by the row as re-read. */
  function VerdictOf(p: PollId, env: nat -> Moment, w: World): Option<Verdict>
    requires p in w.polls && w.polls[p].Looked?
  {
    var now, row := AtClock(p, env, w).clock, AtReread(p, env, w).row;
    if !Due(w.polls[p].nextPollAt, now) || !env(1).ok || !Claimable(AtClaim(p, env, w).row, now) then None
    else if !env(2).ok || !env(3).ok || !env(4).ok then None
    else Decide(now, row.pollAttempt, row.Since(), env(3).reply)
  }

  lemma Found(p: PollId, env: nat -> Moment, w: World, i: nat, n: nat)
    requires p in w.polls && p < w.next && n > 0
    ensures var u := Before(p, w, env(i));
            var w' := Own(p, u, env(i));
            && p in u.polls && u.polls[p] == w.polls[p] && p < u.next
            && w' == NextPoll(u, p, w.polls[p], env(i).ok, env(i).reply) && p < w'.next
            && Course(p, env, w, i, n) == if p in w'.polls then Course(p, env, w', i + 1, n - 1)
                                          else Finished(u, Advance(p, env(i).ok, env(i).reply), w')
  {
    StepCourse(p, env, w, i, n);
    ForeignLeavesPoll(w, p, env(i).others);
  }

  lemma WriteOutcome(p: PollId, env: nat -> Moment, w: World, n: nat)
    requires p in w.polls && w.polls[p].Writing? && p < w.next && n > 0
    ensures PollWrite(Course(p, env, w, 4, n), p)
            == if env(4).ok then Some((w.polls[p].now, w.polls[p].verdict)) else None
  {
    Found(p, env, w, 4, n);
  }

  lemma JudgeOutcome(p: PollId, env: nat -> Moment, w: World, n: nat)
    requires p in w.polls && w.polls[p].Reread? && p < w.next && n > 1
    ensures var q := w.polls[p];
            var v := Decide(q.now, q.attempt, q.since, env(3).reply);
            PollWrite(Course(p, env, w, 3, n), p)
            == if env(3).ok && v.Some? && env(4).ok then Some((q.now, v.value)) else None
  {
    Found(p, env, w, 3, n);
    var w' := Own(p, Before(p, w, env(3)), env(3));
    if p in w'.polls { WriteOutcome(p, env, w', n - 1); }
  }

  lemma RereadOutcome(p: PollId, env: nat -> Moment, w: World, n: nat)
    requires p in w.polls && w.polls[p].Claimed? && p < w.next && n > 2
    ensures var row := Before(p, w, env(2)).row;
            var v := Decide(w.polls[p].now, row.pollAttempt, row.Since(), env(3).reply);
            PollWrite(Course(p, env, w, 2, n), p)
            == if env(2).ok && env(3).ok && v.Some? && env(4).ok then Some((w.polls[p].now, v.value)) else None
  {
    Found(p, env, w, 2, n);
    var w' := Own(p, Before(p, w, env(2)), env(2));
    if p in w'.polls { JudgeOutcome(p, env, w', n - 1); }
  }

  lemma ClaimOutcome(p: PollId, env: nat -> Moment, w: World, n: nat)
    requires p in w.polls && w.polls[p].Ready? && p < w.next && n > 3
    ensures var now, row := w.polls[p].now, Before(p, Own(p, Before(p, w, env(1)), env(1)), env(2)).row;
            var v := Decide(now, row.pollAttempt, row.Since(), env(3).reply);
            PollWrite(Course(p, env, w, 1, n), p)
            == if && env(1).ok && Claimable(Before(p, w, env(1)).row, now)
                  && env(2).ok && env(3).ok && v.Some? && env(4).ok
               then Some((now, v.value)) else None
  {
    Found(p, env, w, 1, n);
    var w' := Own(p, Before(p, w, env(1)), env(1));
    if p in w'.polls { RereadOutcome(p, env, w', n - 1); }
  }

  /** `refreshStatus` reports "pending" or a final status exactly when that is the verdict it comes to, judged
      by what it finds at each statement, and every statement succeeds; otherwise it throws. */
  lemma RefreshReports(p: PollId, env: nat -> Moment, w: World, n: nat)
    requires p in w.polls && w.polls[p].Looked? && p < w.next && n >= 5
    ensures PollResult(Course(p, env, w, 0, n), p)
            == if VerdictOf(p, env, w).Some? then VerdictResult(VerdictOf(p, env, w).value) else Thrown
  {
    RefreshWrites(p, env, w, n);
  }

  lemma RefreshWrites(p: PollId, env: nat -> Moment, w: World, n: nat)
    requires p in w.polls && w.polls[p].Looked? && p < w.next && n >= 5
    ensures PollWrite(Course(p, env, w, 0, n), p)
            == if VerdictOf(p, env, w).Some? then Some((AtClock(p, env, w).clock, VerdictOf(p, env, w).value)) else None
  {
    Found(p, env, w, 0, n);
    var w' := Own(p, AtClock(p, env, w), env(0));
    if p in w'.polls { ClaimOutcome(p, env, w', n - 1); }
  }

  // ----- The row after a refresh --------------------------------------------------------------

  ghost predicate PollsSince(w: World, p: PollId, i: nat, j: nat) {
    i <= j && p in w.polls && p < w.next
  }

  /** The last statement of a poll changes the row only if it is the final write. */
  lemma PollLeaves(p: PollId, env: nat -> Moment, w: World, i: nat, n: nat)
    requires p in w.polls && p < w.next
    ensures var e := Course(p, env, w, i, n);
            var write := PollWrite(e, p);
            e.Finished? ==>
              e.after.row == if write.None? then e.before.row
                             else Written(e.before.row, write.value.0, e.before.clock, write.value.1)
  {
    forall v, j: nat | PollsSince(v, p, i, j)
      ensures KeepsInvariant(PollThread(p), env, (u: World, k: nat) => PollsSince(u, p, i, k), v, j)
    {
      Found(p, env, v, j, 1);
    }
    var v, j := LastStep(PollThread(p), env, (u: World, k: nat) => PollsSince(u, p, i, k), w, i, n);
    if Course(p, env, w, i, n).Finished? { Found(p, env, v, j, 1); }
  }

  // ----- createAndSend ------------------------------------------------------------------------

  const SEND_STEPS := 3

  function SenderThread(): Thread<World, Action, Moment> {
    Thread(Next, (w: World) => w.sender != Done, (w: World, m: Moment) => Submit(m.ok),
           (m: Moment) => ForeignToSender(m.others))
  }

  function BeforeSender(w: World, m: Moment): World {
    Iterate(Next, w, ForeignToSender(m.others))
  }

  function SenderCourse(env: nat -> Moment, w: World, i: nat, n: nat): Ending<World, Action> {
    Follow(SenderThread(), env, w, i, n)
  }

  lemma StepSender(env: nat -> Moment, w: World, i: nat, n: nat)
    requires n > 0 && w.sender != Done
    ensures var u := BeforeSender(w, env(i));
            var w' := NextSubmit(u, env(i).ok);
            SenderCourse(env, w, i, n) == if w'.sender != Done then SenderCourse(env, w', i + 1, n - 1)
                                          else Finished(u, Submit(env(i).ok), w')
  {
    FollowUnfolds(SenderThread(), env, w, i, n);
  }

  lemma {:induction false} ForeignLeavesSender(w: World, actions: seq<Action>)
    ensures Iterate(Next, w, ForeignToSender(actions)).sender == w.sender
  {
    if actions != [] {
      var init, last := actions[..|actions| - 1], actions[|actions| - 1];
      ForeignLeavesSender(w, init);
      assert actions == init + [last];
      WithoutGrows(w, (a: Action) => OfSender(a), init, last);
      if !OfSender(last) { OthersLeaveSender(Iterate(Next, w, ForeignToSender(init)), last); }
    }
  }

  lemma OthersLeaveSender(w: World, action: Action)
    requires !OfSender(action)
    ensures Next(w, action).sender == w.sender
  {
  }

  /** The ticket is sent exactly if the call ended by its SENT write. */
  predicate SenderResult(e: Ending<World, Action>) {
    e.Finished? && e.before.sender.Stamped? && e.last == Submit(true)
  }

  /** `createAndSend` leaves a SENT row exactly if sending and the SENT write succeed, whatever others do. */
  lemma SendingSucceedsIff(env: nat -> Moment, w: World)
    requires w.sender == Preparing
    ensures SenderResult(SenderCourse(env, w, 0, SEND_STEPS)) <==> env(0).ok && env(1).ok
  {
    StepSender(env, w, 0, SEND_STEPS);
    ForeignLeavesSender(w, env(0).others);
    var w1 := NextSubmit(BeforeSender(w, env(0)), env(0).ok);
    StepSender(env, w1, 1, SEND_STEPS - 1);
    ForeignLeavesSender(w1, env(1).others);
    if !(env(0).ok && env(1).ok) {
      var w2 := NextSubmit(BeforeSender(w1, env(1)), env(1).ok);
      if w2.sender != Done {
        StepSender(env, w2, 2, SEND_STEPS - 2);
        ForeignLeavesSender(w2, env(2).others);
      }
    }
  }
}
