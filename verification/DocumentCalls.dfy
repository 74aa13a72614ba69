/** One call of the processing services among all others: what the environment decides at each of its
    steps, the course it takes, and when it succeeds. */
module DocumentCalls {
  import opened Common
  import opened Lifecycle
  import opened Documents
  import opened DocumentsInvariant
  import opened DocumentsTheorems
  import opened Runs

  /** What the environment decides for one statement: the actions of other calls that come first,
      whether the statement (and what is awaited with it) succeeds, and what SUNAT answers. */
  datatype Moment = Moment(others: seq<Action>, ok: bool, answer: Answer)

  predicate BelongsTo(action: Action, c: CallId) {
    !action.CreateDocument? && action.c == c
  }

  /** The actions that are not of call c. */
  function Foreign(c: CallId, actions: seq<Action>): seq<Action> {
    if actions == [] then []
    else
      var last := actions[|actions| - 1];
      Foreign(c, actions[..|actions| - 1]) + if BelongsTo(last, c) then [] else [last]
  }

  function CallThread(c: CallId): Thread<World, Action, Moment> {
    Thread(Next, (w: World) => c in w.calls, (w: World, m: Moment) => Advance(c, m.ok, m.answer),
           (m: Moment) => Foreign(c, m.others))
  }

  /** No call takes more statements. */
  const STEPS := 12

  type CallCourse = Ending<World, Action>

  function Course(c: CallId, env: nat -> Moment, w: World, i: nat, n: nat): CallCourse {
    Follow(CallThread(c), env, w, i, n)
  }

  /** The world that the i-th statement of the call finds. */
  function Before(c: CallId, w: World, m: Moment): World {
    Iterate(Next, w, Foreign(c, m.others))
  }

  function Own(c: CallId, w: World, m: Moment): World {
    Next(w, Advance(c, m.ok, m.answer))
  }

  lemma StepCourse(c: CallId, env: nat -> Moment, w: World, i: nat, n: nat)
    requires n > 0 && c in w.calls
    ensures var u := Before(c, w, env(i));
            var w' := Own(c, u, env(i));
            Course(c, env, w, i, n) == if c in w'.calls then Course(c, env, w', i + 1, n - 1)
                                       else Finished(u, Advance(c, env(i).ok, env(i).answer), w')
  {
    FollowUnfolds(CallThread(c), env, w, i, n);
  }

  /** A course is a run of the machine, so everything proved of all runs holds of it. */
  lemma CourseIsRun(c: CallId, env: nat -> Moment, w: World, i: nat, n: nat)
    ensures Reaches(Next, w, Course(c, env, w, i, n).State())
  {
    FollowIsRun(CallThread(c), env, w, i, n);
    assert Course(c, env, w, i, n).State() == Iterate(Next, w, Trace(CallThread(c), env, w, i, n));
  }

  // ----- Others leave the call alone ----------------------------------------------------------

  predicate OnlyMoves(w: World, w': World, c: CallId) {
    w'.calls == w.calls - {c} || (c in w'.calls && w'.calls == w.calls[c := w'.calls[c]])
  }

  lemma IssueOnlyMoves(w: World, c: CallId, call: Call, ok: bool, answer: Answer)
    requires call.Issue?
    ensures OnlyMoves(w, NextIssue(w, c, call, ok, answer), c)
  {
    if InPrepare(call.ipc) {
      assert OnlyMoves(w, NextPrepare(w, c, call, ok), c);
    } else {
      assert OnlyMoves(w, NextSubmit(w, c, call, ok, answer), c);
    }
  }

  lemma SendOnlyMoves(w: World, c: CallId, call: Call, ok: bool)
    requires call.Send?
    ensures OnlyMoves(w, NextSend(w, c, call, ok), c)
  {
  }

  lemma RefreshOnlyMoves(w: World, c: CallId, call: Call, ok: bool, answer: Answer)
    requires call.Refresh?
    ensures OnlyMoves(w, NextRefresh(w, c, call, ok, answer), c)
  {
  }

  lemma OtherCallsStay(w: World, action: Action, c: CallId)
    requires !BelongsTo(action, c)
    ensures c in Next(w, action).calls <==> c in w.calls
    ensures c in w.calls ==> Next(w, action).calls[c] == w.calls[c]
  {
    if action.Advance? && action.c in w.calls {
      var call := w.calls[action.c];
      match call {
        case Issue(_, _, _) => IssueOnlyMoves(w, action.c, call, action.ok, action.answer);
        case Send(_, _, _, _) => SendOnlyMoves(w, action.c, call, action.ok);
        case Refresh(_, _, _) => RefreshOnlyMoves(w, action.c, call, action.ok, action.answer);
      }
    }
  }

  lemma {:induction false} ForeignLeavesCall(w: World, c: CallId, actions: seq<Action>)
    requires c in w.calls
    ensures c in Iterate(Next, w, Foreign(c, actions)).calls
    ensures Iterate(Next, w, Foreign(c, actions)).calls[c] == w.calls[c]
  {
    if actions != [] {
      var init, last := actions[..|actions| - 1], actions[|actions| - 1];
      ForeignLeavesCall(w, c, init);
      if BelongsTo(last, c) {
        assert Foreign(c, actions) == Foreign(c, init);
      } else {
        ForeignGrows(w, c, init, last);
        OtherCallsStay(Iterate(Next, w, Foreign(c, init)), last, c);
        assert Foreign(c, actions) == Foreign(c, init) + [last];
      }
    }
  }

  lemma ForeignGrows(w: World, c: CallId, init: seq<Action>, last: Action)
    ensures Iterate(Next, w, Foreign(c, init) + [last]) == Next(Iterate(Next, w, Foreign(c, init)), last)
  {
    var f := Foreign(c, init);
    assert (f + [last])[..|f|] == f;
  }

  lemma StepKeeps<R>(c: CallId, env: nat -> Moment, inv: (World, nat, nat) -> bool, expected: (World, nat) -> R,
                     result: Ending<World, Action> -> R, w: World, i: nat, n: nat)
    requires n > 0 && c in w.calls
    requires var u := Before(c, w, env(i));
             var w' := Own(c, u, env(i));
             if c in w'.calls then inv(w', i + 1, n - 1) && expected(w', i + 1) == expected(w, i)
             else result(Finished(u, Advance(c, env(i).ok, env(i).answer), w')) == expected(w, i)
    ensures KeepsExpectation(CallThread(c), env, inv, expected, result, w, i, n)
  {
  }

  // ----- What a finished call reports ---------------------------------------------------------

  /** `issue` returns a result exactly if it ended by recording one. */
  function IssueResult(e: Ending<World, Action>, c: CallId): Option<CdrStatus> {
    if e.Finished? && c in e.before.calls && e.before.calls[c].Issue? && e.before.calls[c].ipc.Recording?
    then Some(e.before.calls[c].ipc.result) else None
  }

  /** `createAndSend` returns the communication exactly if it ended by recording its ticket. */
  function SendResult(e: Ending<World, Action>, c: CallId): Option<CommId> {
    if e.Finished? && c in e.before.calls && e.before.calls[c].Send? && e.before.calls[c].spc.Delivering?
    then Some(e.before.calls[c].spc.comm) else None
  }

  /** `refreshStatus` closes the communication with its CDR exactly if it ended in its transaction. */
  predicate RefreshResult(e: Ending<World, Action>, c: CallId) {
    e.Finished? && c in e.before.calls && e.before.calls[c].Refresh? && e.before.calls[c].rpc.Committing?
  }

  /** What a finished course did last: a call ends at the state that its last statement leaves. */
  lemma {:induction false} CourseEnds(c: CallId, env: nat -> Moment, w: World, i: nat, n: nat)
    ensures var e := Course(c, env, w, i, n);
            e.Finished? ==>
              && c in e.before.calls && c !in e.after.calls
              && e.last.Advance? && e.last.c == c && e.after == Next(e.before, e.last)
    decreases n
  {
    if n > 0 && c in w.calls {
      StepCourse(c, env, w, i, n);
      var u := Before(c, w, env(i));
      ForeignLeavesCall(w, c, env(i).others);
      CourseEnds(c, env, Own(c, u, env(i)), i + 1, n - 1);
    }
  }

  lemma FinishedSend(c: CallId, env: nat -> Moment, w: World, n: nat)
    ensures var e := Course(c, env, w, 0, n);
            SendResult(e, c).Some? ==>
              var m := SendResult(e, c).value;
              m in e.after.comms && e.after.comms[m].status == TicketSent && e.after.comms[m].ticket
  {
    CourseEnds(c, env, w, 0, n);
    var e := Course(c, env, w, 0, n);
    if SendResult(e, c).Some? {
      assert e.after == NextSend(e.before, c, e.before.calls[c], e.last.ok);
    }
  }

  lemma VoidableGrows(w: World, company: CompanyId, ids: seq<DocId>, i: nat)
    requires i < |ids|
    ensures AllVoidable(w, company, ids[..i + 1])
            <==> && AllVoidable(w, company, ids[..i]) && w.Owns(company, ids[i])
                 && CanTransition(w.docs[ids[i]].status, VOIDED, VOID_CONFIRMED)
    ensures AllVoidable(w, company, ids) ==> AllVoidable(w, company, ids[..i + 1])
  {
    assert ids[..i + 1] == ids[..i] + [ids[i]];
  }

  // ----- What the rows show -------------------------------------------------------------------

  /** The row has the status and has announced it last. */
  predicate Announced(d: Document, s: Status, e: EventType) {
    && d.status == s && d.writes != [] && d.writes[|d.writes| - 1] == s
    && d.outbox != [] && d.outbox[|d.outbox| - 1] == e
  }

  /** What SUNAT answered, as the row shows it. */
  predicate Shows(d: Document, r: CdrStatus) {
    match r
    case CdrAccepted => Announced(d, ACCEPTED, Accepted)
    case CdrObserved => Announced(d, OBSERVED, Observed)
    case CdrRejected => Announced(d, REJECTED, Rejected)
  }

  lemma PublishedShows(d: Document, r: CdrStatus)
    ensures Shows(d.Publish(ResultStatus(r), ResultEvent(ResultStatus(r))), r)
  {
    var s := ResultStatus(r);
    var d' := d.Publish(s, ResultEvent(s));
    assert d'.writes[|d'.writes| - 1] == s && d'.outbox[|d'.outbox| - 1] == ResultEvent(s);
  }

  /** Every linked document, by kind of communication and answer; no other document changes. */
  predicate Closed(docs: map<DocId, Document>, docs': map<DocId, Document>, kind: TicketKind, ids: seq<DocId>,
                   r: CdrStatus)
  {
    && (forall id :: id in ids ==>
          && id in docs && id in docs'
          && match kind
             case DailySummary => Shows(docs'[id], r)
             case VoidCommunication =>
               if r == CdrRejected then docs'[id] == docs[id] else Announced(docs'[id], VOIDED, Voided))
    && forall id :: id in docs && id !in ids ==> id in docs' && docs'[id] == docs[id]
  }

  lemma {:induction false} PublishAllAnnounced(
    docs: map<DocId, Document>, ids: seq<DocId>, s: Status, e: EventType, id: DocId)
    requires id in docs
    ensures id in PublishAll(docs, ids, s, e)
    ensures id !in ids ==> PublishAll(docs, ids, s, e)[id] == docs[id]
    ensures id in ids || Announced(docs[id], s, e) ==> Announced(PublishAll(docs, ids, s, e)[id], s, e)
    decreases |ids|
  {
    if ids != [] {
      var d := docs[id].Publish(s, e);
      assert d.writes[|d.writes| - 1] == s && d.outbox[|d.outbox| - 1] == e;
      PublishAllAnnounced(if ids[0] in docs then docs[ids[0] := docs[ids[0]].Publish(s, e)] else docs,
                          ids[1..], s, e, id);
    }
  }

  lemma ClosingWrites(docs: map<DocId, Document>, kind: TicketKind, ids: seq<DocId>, r: CdrStatus)
    requires forall id :: id in ids ==> id in docs
    ensures var s := ClosingStatus(kind, r);
            Closed(docs, if s.None? then docs else PublishAll(docs, ids, s.value, ClosingEvent(s.value)), kind, ids, r)
  {
    var s := ClosingStatus(kind, r);
    if s.Some? {
      var docs' := PublishAll(docs, ids, s.value, ClosingEvent(s.value));
      forall id | id in docs
        ensures id in docs' && (id !in ids ==> docs'[id] == docs[id])
        ensures id in ids ==> Announced(docs'[id], s.value, ClosingEvent(s.value))
      {
        PublishAllAnnounced(docs, ids, s.value, ClosingEvent(s.value), id);
      }
    }
  }
}
