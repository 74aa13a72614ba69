/** What the 120-second lease gives when every poll is over 120 seconds after the time it read: one
    holder at a time, final statuses for good, and polls that keep their distance. */
module TicketLeaseTheorems {
  import opened Common
  import opened Backoff
  import opened TicketPolicy
  import opened TicketLease
  import opened Runs

  // ----- Invariant ----------------------------------------------------------------------------

  /** Before the SENT write nobody polls; after it the submission time is known. */
  predicate RowOk(w: World) {
    && (w.sender != Done ==> w.row.status == CREATED)
    && (w.sender.Stamped? ==> w.sender.at <= w.clock)
    && (w.row.status == CREATED ==> w.polls == map[] && w.row.pollAttempt == 0)
    && (w.row.status == SENT || w.polls != map[] || w.answers != [] ==>
        w.row.submittedAt.Some? && w.row.submittedAt.value <= w.clock)
    && |w.claims| == w.row.pollAttempt
  }

  /** A poll that holds the ticket: the row is still as its claim left it. */
  predicate HolderOk(w: World, q: Poll)
    requires q.Holds()
  {
    && w.row.submittedAt.Some?
    && w.row.status == SENT
    && w.row.nextPollAt == Some(q.now + LEASE)
    && q.number == w.row.pollAttempt
    && w.claims != [] && w.claims[|w.claims| - 1] == q.now
    && (w.answers != [] ==> w.answers[|w.answers| - 1].number < q.number)
    && (q.Reread? ==> q.attempt == q.number && q.since == w.row.submittedAt.value)
    && (q.Writing? && q.verdict.Later? ==>
          && q.verdict.delay == Delay(q.number, 0.0) && q.number < MAX_ATTEMPTS
          && q.verdict.elapsed == q.now - w.row.submittedAt.value < MAX_TOTAL_MS)
  }

  predicate PollOk(w: World, p: PollId)
    requires p in w.polls
  {
    && p < w.next
    && (!w.polls[p].Looked? ==> w.row.submittedAt.Some? && w.row.submittedAt.value <= w.polls[p].now <= w.clock)
    && (w.polls[p].Holds() ==> HolderOk(w, w.polls[p]))
  }

  predicate OneHolder(w: World) {
    forall p, q :: p in w.polls && q in w.polls && w.polls[p].Holds() && w.polls[q].Holds() ==> p == q
  }

  /** After n claims, the last of which read `last`, the row is not claimable before the n-th delay. */
  predicate Spaced(row: Row, claims: seq<Time>) {
    && (claims != [] ==>
          row.nextPollAt.Some? && row.nextPollAt.value >= claims[|claims| - 1] + Delay(|claims|, 0.0))
    && forall i :: 1 <= i < |claims| ==> claims[i] - claims[i - 1] >= Delay(i, 0.0)
  }

  predicate AnswerOk(w: World, a: Answer) {
    && w.row.submittedAt.Some?
    && 1 <= a.number < MAX_ATTEMPTS && a.number <= |w.claims|
    && a.elapsed == w.claims[a.number - 1] - w.row.submittedAt.value < MAX_TOTAL_MS
  }

  predicate AnswersOk(w: World) {
    && (forall i :: 0 <= i < |w.answers| ==> AnswerOk(w, w.answers[i]))
    && (forall i :: 1 <= i < |w.answers| ==> w.answers[i - 1].number < w.answers[i].number)
    && (w.answers != [] ==> w.answers[|w.answers| - 1].number <= w.row.pollAttempt)
  }

  predicate Inv(w: World) {
    && RowOk(w) && Spaced(w.row, w.claims) && AnswersOk(w) && OneHolder(w)
    && forall p :: p in w.polls ==> PollOk(w, p)
  }

  // ----- Preservation -------------------------------------------------------------------------

  /** While a poll holds the ticket, no other can claim it. */
  lemma HeldIsNotClaimable(w: World, p: PollId, now: Time)
    requires Prompt(w, LEASE) && p in w.polls && w.polls[p].Holds() && HolderOk(w, w.polls[p]) && now <= w.clock
    ensures !Claimable(w.row, now)
  {
  }

  lemma ClaimKeeps(w: World, p: PollId)
    requires Inv(w) && Prompt(w, LEASE) && p in w.polls && w.polls[p].Ready? && Claimable(w.row, w.polls[p].now)
    ensures Inv(NextPoll(w, p, w.polls[p], true, SILENT))
  {
    var now := w.polls[p].now;
    forall q | q in w.polls
      ensures !w.polls[q].Holds()
    {
      assert PollOk(w, p) && PollOk(w, q);
      if w.polls[q].Holds() { HeldIsNotClaimable(w, q, now); }
    }
    DelayGrows(|w.claims| + 1, |w.claims| + 1, 0.0, 0.0);
    var w' := NextPoll(w, p, w.polls[p], true, SILENT);
    assert w'.claims == w.claims + [now];
    forall q | q in w'.polls
      ensures PollOk(w', q)
    {
      assert PollOk(w, q);
    }
  }

  lemma DecideLater(now: Time, attempt: nat, since: Time, reply: Reply)
    requires since <= now
    ensures var v := Decide(now, attempt, since, reply);
            v.Some? && v.value.Later? ==>
              && v.value.delay == Delay(attempt, 0.0) && attempt < MAX_ATTEMPTS
              && v.value.elapsed == now - since < MAX_TOTAL_MS
  {
  }

  lemma OthersDoNotHold(w: World, p: PollId)
    requires Inv(w) && p in w.polls && w.polls[p].Writing?
    ensures forall q :: q in w.polls && q != p ==> PollOk(w, q) && !w.polls[q].Holds()
  {
  }

  /** Another pending answer: its number is above all before. */
  lemma AnswersExtend(w: World, w': World, a: Answer)
    requires AnswersOk(w) && AnswerOk(w', a) && w'.answers == w.answers + [a]
    requires w'.row.submittedAt == w.row.submittedAt && w'.claims == w.claims
    requires w'.row.pollAttempt == a.number && (w.answers != [] ==> w.answers[|w.answers| - 1].number < a.number)
    ensures AnswersOk(w')
  {
    forall i | 0 <= i < |w'.answers|
      ensures AnswerOk(w', w'.answers[i])
    {
      if i < |w.answers| { assert AnswerOk(w, w.answers[i]); }
    }
  }

  /** After the write nobody holds the ticket. */
  lemma FinishedPolls(w: World, p: PollId)
    requires Inv(w) && p in w.polls && w.polls[p].Writing?
    ensures var w' := NextPoll(w, p, w.polls[p], true, SILENT);
            forall r :: r in w'.polls ==> PollOk(w', r) && !w'.polls[r].Holds()
  {
    assert PollOk(w, p);
    OthersDoNotHold(w, p);
  }

  lemma FinishKeeps(w: World, p: PollId)
    requires Inv(w) && p in w.polls && w.polls[p].Writing?
    ensures Inv(NextPoll(w, p, w.polls[p], true, SILENT))
  {
    var q := w.polls[p];
    var w' := NextPoll(w, p, q, true, SILENT);
    assert PollOk(w, p);
    FinishedPolls(w, p);
    if q.verdict.Later? { AnswersExtend(w, w', Answer(q.number, q.verdict.elapsed)); }
  }

  lemma EndKeeps(w: World, p: PollId)
    requires Inv(w)
    ensures Inv(w.End(p))
  {
    forall r | r in w.End(p).polls
      ensures PollOk(w.End(p), r)
    {
      assert PollOk(w, r);
    }
  }

  lemma GotoKeeps(w: World, p: PollId, q: Poll)
    requires Inv(w) && p in w.polls && PollOk(w.Goto(p, q), p) && q.Holds() == w.polls[p].Holds()
    ensures Inv(w.Goto(p, q))
  {
    var w' := w.Goto(p, q);
    forall r | r in w'.polls
      ensures PollOk(w', r)
    {
      if r != p { assert PollOk(w, r); }
    }
  }

  lemma DecideKeeps(w: World, p: PollId, reply: Reply)
    requires Inv(w) && p in w.polls && w.polls[p].Reread?
    ensures Inv(NextPoll(w, p, w.polls[p], true, reply))
  {
    var q := w.polls[p];
    assert PollOk(w, p);
    DecideLater(q.now, q.attempt, q.since, reply);
    EndKeeps(w, p);
    var verdict := Decide(q.now, q.attempt, q.since, reply);
    if verdict.Some? { GotoKeeps(w, p, Writing(q.now, q.number, verdict.value)); }
  }

  lemma AdvanceKeeps(w: World, p: PollId, ok: bool, reply: Reply)
    requires Inv(w) && Prompt(w, LEASE) && p in w.polls
    ensures Inv(NextPoll(w, p, w.polls[p], ok, reply))
  {
    assert PollOk(w, p);
    EndKeeps(w, p);
    match w.polls[p] {
      case Looked(_) => GotoKeeps(w, p, Ready(w.clock));
      case Ready(now) => if ok && Claimable(w.row, now) { ClaimKeeps(w, p); }
      case Claimed(now, number) => GotoKeeps(w, p, Reread(now, number, w.row.pollAttempt, w.row.Since()));
      case Reread(_, _, _, _) => DecideKeeps(w, p, reply);
      case Writing(_, _, _) => if ok { FinishKeeps(w, p); }
    }
  }

  lemma SubmitKeeps(w: World, ok: bool)
    requires Inv(w)
    ensures Inv(NextSubmit(w, ok))
  {
  }

  lemma LookKeeps(w: World)
    requires Inv(w)
    ensures Inv(Next(w, Look))
  {
    var w' := Next(w, Look);
    forall r | r in w'.polls
      ensures PollOk(w', r)
    {
      if r in w.polls { assert PollOk(w, r); }
    }
  }

  lemma TickKeeps(w: World, t: Time)
    requires Inv(w)
    ensures Inv(Next(w, Tick(t)))
  {
    var w' := Next(w, Tick(t));
    forall r | r in w'.polls
      ensures PollOk(w', r)
    {
      assert PollOk(w, r);
    }
  }

  lemma NextKeeps(w: World, action: Action)
    requires Inv(w) && Prompt(w, LEASE)
    ensures Inv(Next(w, action))
  {
    match action {
      case Tick(t) => TickKeeps(w, t);
      case Submit(ok) => SubmitKeeps(w, ok);
      case CrashSender =>
      case Look => LookKeeps(w);
      case Advance(p, ok, reply) => if p in w.polls { AdvanceKeeps(w, p, ok, reply); }
      case Crash(p) => EndKeeps(w, p);
    }
  }

  lemma {:induction false} RunKeeps(clock: Time, actions: seq<Action>)
    requires PromptRun(Created(clock), actions, LEASE)
    ensures Inv(Run(Created(clock), actions))
  {
    if actions != [] {
      RunKeeps(clock, actions[..|actions| - 1]);
      NextKeeps(Run(Created(clock), actions[..|actions| - 1]), actions[|actions| - 1]);
    }
  }

  // ----- Main results -------------------------------------------------------------------------

  /** At most one poll is between its claim and its final write, the row is then still SENT and leased
      by it, and the attempt it read back is the number of its own claim. */
  lemma LeaseExclusion(clock: Time, actions: seq<Action>, p: PollId, q: PollId)
    requires PromptRun(Created(clock), actions, LEASE)
    ensures var w := Run(Created(clock), actions);
            p in w.polls && w.polls[p].Holds() ==>
              && w.row.status == SENT && w.row.nextPollAt == Some(w.polls[p].now + LEASE)
              && w.row.pollAttempt == w.polls[p].number == |w.claims|
              && (w.polls[p].Reread? ==> w.polls[p].attempt == w.polls[p].number)
              && (q in w.polls && w.polls[q].Holds() ==> p == q)
  {
    RunKeeps(clock, actions);
    var w := Run(Created(clock), actions);
    if p in w.polls { assert PollOk(w, p); }
  }

  predicate FinalStays(w: World, action: Action) {
    Final(w.row.status) ==> Next(w, action).row == w.row
  }

  /** A final row never changes again, not even its counters. */
  lemma FinalIsForever(clock: Time, actions: seq<Action>, action: Action)
    requires PromptRun(Created(clock), actions, LEASE)
    ensures FinalStays(Run(Created(clock), actions), action)
  {
    RunKeeps(clock, actions);
    var w := Run(Created(clock), actions);
    if action.Advance? && action.p in w.polls { assert PollOk(w, action.p); }
  }

  lemma {:induction false} GapsAdd(row: Row, claims: seq<Time>, k: nat)
    requires Spaced(row, claims) && k < |claims|
    ensures claims[k] - claims[0] >= TotalDelay(k)
  {
    if k > 0 { GapsAdd(row, claims, k - 1); }
  }

  /** Claim k+1 reads a time at least 2000(2^k - 1) ms after claim 1, from the seventh on
      126000 + 120000(k - 6) ms, whatever happened to the polls before it. */
  lemma ClaimsKeepTheirDistance(clock: Time, actions: seq<Action>, k: nat)
    requires PromptRun(Created(clock), actions, LEASE)
    ensures var claims := Run(Created(clock), actions).claims;
            k < |claims| ==>
              claims[k] - claims[0] >= if k <= 6 then 2000 * (Pow2(k) - 1) else 126000 + 120000 * (k - 6)
  {
    RunKeeps(clock, actions);
    var w := Run(Created(clock), actions);
    if k < |w.claims| { GapsAdd(w.row, w.claims, k); }
    TotalDelayClosedForm(k);
  }

  lemma {:induction false} NumbersClimb(answers: seq<Answer>, k: nat)
    requires k < |answers| && answers[0].number >= 1
    requires forall i :: 1 <= i < |answers| ==> answers[i - 1].number < answers[i].number
    ensures answers[k].number >= k + 1
  {
    if k > 0 { NumbersClimb(answers, k - 1); }
  }

  /** At most 19 polls answer "pending", each for a different claim below the twentieth that read a time
      less than 30 minutes after the submission. */
  lemma PendingAnswersAreBounded(clock: Time, actions: seq<Action>, i: nat)
    requires PromptRun(Created(clock), actions, LEASE)
    ensures var answers := Run(Created(clock), actions).answers;
            && |answers| <= 19
            && (i < |answers| ==> i < answers[i].number <= 19 && AnswerOk(Run(Created(clock), actions), answers[i]))
  {
    RunKeeps(clock, actions);
    var answers := Run(Created(clock), actions).answers;
    assert answers != [] ==> AnswerOk(Run(Created(clock), actions), answers[0]);
    if i < |answers| { NumbersClimb(answers, i); }
    if answers != [] { NumbersClimb(answers, |answers| - 1); }
  }

  // ----- The premise is exact -----------------------------------------------------------------

  lemma {:induction false} TighterIsPrompt(clock: Time, actions: seq<Action>, bound: Time, wider: Time)
    requires PromptRun(Created(clock), actions, bound) && bound <= wider
    ensures PromptRun(Created(clock), actions, wider)
  {
    if actions != [] { TighterIsPrompt(clock, actions[..|actions| - 1], bound, wider); }
  }

  /** One more action in a run whose polls all end within the bound. */
  lemma Go(actions: seq<Action>, w: World, action: Action, bound: Time) returns (longer: seq<Action>, w': World)
    requires w == Run(Created(0), actions) && PromptRun(Created(0), actions, bound) && Prompt(Next(w, action), bound)
    ensures longer == actions + [action] && w' == Run(Created(0), longer) == Next(w, action)
    ensures PromptRun(Created(0), longer, bound)
  {
    longer, w' := Extend(Next, Created(0), actions, w, action);
    assert longer[..|longer| - 1] == actions;
  }

  lemma OneHolds(bound: Time) returns (actions: seq<Action>, w: World)
    requires bound > LEASE
    ensures w == Run(Created(0), actions) && PromptRun(Created(0), actions, bound)
    ensures w == World(0, Row(SENT, 1, Some(LEASE), Some(0), 0), Done, map[0 := Reread(0, 1, 1, 0)], 1, [0], [])
  {
    actions, w := Go([], Created(0), Submit(true), bound);
    actions, w := Go(actions, w, Submit(true), bound);
    actions, w := Go(actions, w, Look, bound);
    actions, w := Go(actions, w, Advance(0, true, SILENT), bound);
    actions, w := Go(actions, w, Advance(0, true, SILENT), bound);
    actions, w := Go(actions, w, Advance(0, true, SILENT), bound);
  }

  /** Two polls hold the ticket: the first is as old as its lease. */
  lemma TwoHold(bound: Time) returns (actions: seq<Action>, w: World)
    requires bound > LEASE
    ensures w == Run(Created(0), actions) && PromptRun(Created(0), actions, bound)
    ensures w == World(LEASE, Row(SENT, 2, Some(2 * LEASE), Some(0), LEASE), Done,
                       map[0 := Reread(0, 1, 1, 0), 1 := Reread(LEASE, 2, 2, 0)], 2, [0, LEASE], [])
  {
    actions, w := OneHolds(bound);
    actions, w := Go(actions, w, Tick(LEASE), bound);
    actions, w := Go(actions, w, Look, bound);
    actions, w := Go(actions, w, Advance(1, true, SILENT), bound);
    actions, w := Go(actions, w, Advance(1, true, SILENT), bound);
    actions, w := Go(actions, w, Advance(1, true, SILENT), bound);
  }

  /** A poll that may live a moment longer than its lease turns an accepted ticket into an error. */
  lemma LatePollOverwritesAccepted(bound: Time) returns (actions: seq<Action>, last: Action)
    requires bound > LEASE
    ensures PromptRun(Created(0), actions, bound)
    ensures Run(Created(0), actions).row.status == ACCEPTED
    ensures Next(Run(Created(0), actions), last).row.status == ERROR
  {
    var w;
    actions, w := TwoHold(bound);
    actions, w := Go(actions, w, Advance(1, true, Reply("0", Read(true))), bound);
    actions, w := Go(actions, w, Advance(0, true, Reply("127", Missing)), bound);
    actions, w := Go(actions, w, Advance(1, true, SILENT), bound);
    last := Advance(0, true, SILENT);
  }

  /** Final rows stay in every run whose polls end within the bound. */
  ghost predicate FinalRowsSafe(bound: Time) {
    forall clock, actions, action ::
      PromptRun(Created(clock), actions, bound) ==> FinalStays(Run(Created(clock), actions), action)
  }

  /** Final rows are safe in all runs if and only if polls end within the lease. */
  lemma SafeIffWithinLease(bound: Time)
    ensures FinalRowsSafe(bound) <==> bound <= 120_000
  {
    if bound <= LEASE {
      forall clock, actions, action | PromptRun(Created(clock), actions, bound)
        ensures FinalStays(Run(Created(clock), actions), action)
      {
        TighterIsPrompt(clock, actions, bound, LEASE);
        FinalIsForever(clock, actions, action);
      }
    } else {
      var actions, last := LatePollOverwritesAccepted(bound);
      assert !FinalStays(Run(Created(0), actions), last);
    }
  }
}
