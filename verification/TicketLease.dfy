/** One SUNAT ticket: the row of a daily summary or of a void communication (both are polled by the
    same statements), the call that submits it, and any number of calls of `refreshStatus`. Calls
    interleave between any two statements, statements may fail, and calls may crash. */
module TicketLease {
  import opened Common
  import opened Backoff
  import opened TicketPolicy
  import Runs

  type Time = int
  type PollId = nat

  const LEASE: Time := 120_000

  datatype Status = CREATED | SENT | ACCEPTED | REJECTED | ERROR

  predicate Final(s: Status) {
    s == ACCEPTED || s == REJECTED || s == ERROR
  }

  datatype Row = Row(status: Status, pollAttempt: nat, nextPollAt: Option<Time>, submittedAt: Option<Time>,
                     updatedAt: Time)
  {
    /** Where the elapsed time is counted from. */
    function Since(): Time {
      if submittedAt.Some? then submittedAt.value else updatedAt
    }
  }

  /** The submitting call: building and sending the summary, then the SENT write with the time it read,
      or the ERROR write. */
  datatype Sender = Preparing | Stamped(at: Time) | Failing | Done

  /** The write that ends a poll. */
  datatype Verdict = Later(delay: int, elapsed: int) | Failed | Applied(accepted: bool)

  /** Program points of `refreshStatus`. `now` is the time the call read; `number` is the count its claim
      produced, which the code itself never sees. */
  datatype Poll =
    | Looked(nextPollAt: Option<Time>)
    | Ready(now: Time)
    | Claimed(now: Time, number: nat)
    | Reread(now: Time, number: nat, attempt: nat, since: Time)
    | Writing(now: Time, number: nat, verdict: Verdict)
  {
    predicate Holds() {
      Claimed? || Reread? || Writing?
    }
  }

  /** What came with a status answer: no CDR, one that was refused (unreadable, not stored, or documents
      that may not be voided), or one that was read. */
  datatype Cdr = Missing | Refused | Read(accepted: bool)

  datatype Reply = Reply(code: string, cdr: Cdr)

  const SILENT := Reply("", Missing)

  /** A poll that answered "pending": its claim number and the elapsed time it judged by. */
  datatype Answer = Answer(number: nat, elapsed: int)

  /** `claims` holds the `now` of every successful claim, `answers` the pending answers, in order. */
  datatype World = World(
    clock: Time, row: Row, sender: Sender, polls: map<PollId, Poll>, next: PollId, claims: seq<Time>,
    answers: seq<Answer>)
  {
    function End(p: PollId): World {
      this.(polls := polls - {p})
    }

    function Goto(p: PollId, q: Poll): World {
      this.(polls := polls[p := q])
    }
  }

  datatype Action =
    | Tick(time: Time)
    | Submit(ok: bool)
    | CrashSender
    | Look
    | Advance(p: PollId, ok: bool, reply: Reply)
    | Crash(p: PollId)

  function Created(clock: Time): World {
    World(clock, Row(CREATED, 0, None, None, clock), Preparing, map[], 0, [], [])
  }

  /** `createAndSend` after the row is created. */
  function NextSubmit(w: World, ok: bool): World {
    match w.sender
    case Preparing => w.(sender := if ok then Stamped(w.clock) else Failing)
    case Stamped(at) =>
      if ok then w.(row := Row(SENT, 0, None, Some(at), w.clock), sender := Done) else w.(sender := Failing)
    case Failing =>
      if ok then w.(row := w.row.(status := ERROR, updatedAt := w.clock), sender := Done) else w.(sender := Done)
    case Done => w
  }

  predicate Claimable(row: Row, now: Time) {
    row.status == SENT && (row.nextPollAt.None? || row.nextPollAt.value <= now)
  }

  /** The decision on an answer: nothing where the call throws without a further write. */
  function Decide(now: Time, attempt: nat, since: Time, reply: Reply): Option<Verdict> {
    var elapsed := Max(0, now - since);
    var decision := Evaluate(Context(attempt, None, reply.code, elapsed, None, None, Some(0.0)));
    if decision.None? then None
    else match decision.value.outcome
      case PENDING =>
        if decision.value.nextDelay.Some? then Some(Later(decision.value.nextDelay.value, elapsed)) else None
      case PROCESS_CDR => if reply.cdr.Read? then Some(Applied(reply.cdr.accepted)) else None
      case _ => Some(Failed)
  }

  /** The decision in terms of code, attempt and elapsed time alone: a CDR that was read is applied, a ticket in
      process is asked again later below 20 attempts and 30 minutes, everything else fails; a missing code, a claim
      that left no trace, and a CDR that cannot be used throw. */
  lemma DecideMeans(now: Time, attempt: nat, since: Time, reply: Reply)
    ensures var v, elapsed := Decide(now, attempt, since, reply), if now < since then 0 else now - since;
            if attempt == 0 || reply.code == "" then v == None
            else if reply.code == "0" || reply.code == "00" || reply.code == "99" then
              v == if reply.cdr.Read? then Some(Applied(reply.cdr.accepted)) else None
            else if reply.code == "98" && attempt < 20 && elapsed < 1_800_000 then
              v == Some(Later(if attempt <= 6 then 2_000 * Pow2(attempt - 1) else 120_000, elapsed))
            else v == Some(Failed)
  {
    var c := Context(attempt, None, reply.code, Max(0, now - since), None, None, Some(0.0));
    OutcomesMean(c);
    if Evaluate(c).Some? && Evaluate(c).value.outcome == PENDING { DelaysMean(c); }
  }

  /** The row after the final write. */
  function Written(row: Row, now: Time, clock: Time, verdict: Verdict): Row {
    match verdict
    case Later(delay, _) => row.(nextPollAt := Some(now + delay), updatedAt := clock)
    case Failed => row.(status := ERROR, updatedAt := clock)
    case Applied(accepted) => row.(status := if accepted then ACCEPTED else REJECTED, updatedAt := clock)
  }

  function NextPoll(w: World, p: PollId, q: Poll, ok: bool, reply: Reply): World {
    match q
    case Looked(next) =>
      if next.Some? && next.value > w.clock then w.End(p) else w.Goto(p, Ready(w.clock))
    case Ready(now) =>
      if !ok || !Claimable(w.row, now) then w.End(p)
      else
        w.(row := w.row.(pollAttempt := w.row.pollAttempt + 1, nextPollAt := Some(now + LEASE), updatedAt := w.clock),
           claims := w.claims + [now])
         .Goto(p, Claimed(now, w.row.pollAttempt + 1))
    case Claimed(now, number) =>
      if !ok then w.End(p) else w.Goto(p, Reread(now, number, w.row.pollAttempt, w.row.Since()))
    case Reread(now, number, attempt, since) =>
      var verdict := Decide(now, attempt, since, reply);
      if !ok || verdict.None? then w.End(p) else w.Goto(p, Writing(now, number, verdict.value))
    case Writing(now, number, verdict) =>
      if !ok then w.End(p)
      else
        w.(row := Written(w.row, now, w.clock, verdict),
           answers := if verdict.Later? then w.answers + [Answer(number, verdict.elapsed)] else w.answers)
         .End(p)
  }

  function Next(w: World, action: Action): World {
    match action
    case Tick(t) => w.(clock := Max(w.clock, t))
    case Submit(ok) => NextSubmit(w, ok)
    case CrashSender => w.(sender := Done)
    case Look =>
      if w.row.status == SENT then w.(polls := w.polls[w.next := Looked(w.row.nextPollAt)], next := w.next + 1) else w
    case Advance(p, ok, reply) => if p in w.polls then NextPoll(w, p, w.polls[p], ok, reply) else w
    case Crash(p) => w.End(p)
  }

  function Run(w: World, actions: seq<Action>): World {
    Runs.Iterate(Next, w, actions)
  }

  /** No poll is alive `bound` milliseconds after the time it read. */
  predicate Prompt(w: World, bound: Time) {
    forall p :: p in w.polls && !w.polls[p].Looked? ==> w.clock < w.polls[p].now + bound
  }

  predicate PromptRun(w: World, actions: seq<Action>, bound: Time) {
    Prompt(Run(w, actions), bound) && (actions != [] ==> PromptRun(w, actions[..|actions| - 1], bound))
  }
}
