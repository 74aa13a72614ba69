/** What the operations of module DocumentServices leave in the rows: the status, the event and the CDR that each
    answer of SUNAT comes to, whatever other calls do in between. */
module DocumentResults {
  import opened Common
  import opened Lifecycle
  import opened Documents
  import opened DocumentsInvariant
  import opened DocumentsTheorems
  import opened DocumentCalls
  import opened DocumentOutcomes
  import opened Runs

  // ----- issue --------------------------------------------------------------------------------

  ghost predicate Issues(w: World, c: CallId, id: DocId) {
    Reachable(w) && c in w.calls && w.calls[c].Issue? && w.calls[c].doc == id
  }

  ghost predicate IssuesSince(w: World, c: CallId, id: DocId, i: nat, j: nat) {
    i <= j && Issues(w, c, id)
  }

  lemma IssueGoesOn(c: CallId, id: DocId, env: nat -> Moment, w: World, i: nat, j: nat)
    requires IssuesSince(w, c, id, i, j)
    ensures KeepsInvariant(CallThread(c), env, (v: World, k: nat) => IssuesSince(v, c, id, i, k), w, j)
  {
    Visit(c, env(j), w);
    IssueStaysIssue(Before(c, w, env(j)), c, env(j));
  }

  /** The state before the last statement of an issue, and what the environment decided for it. */
  lemma IssueEnds(c: CallId, id: DocId, env: nat -> Moment, w: World, i: nat, n: nat) returns (m: Moment)
    requires Issues(w, c, id) && Course(c, env, w, i, n).Finished?
    ensures var e := Course(c, env, w, i, n);
            && Issues(e.before, c, id) && CallOk(e.before, e.before.calls[c])
            && e.last == Advance(c, m.ok, m.answer) && e.after == Own(c, e.before, m) && c !in e.after.calls
            && Reachable(e.after)
  {
    forall v, j: nat | IssuesSince(v, c, id, i, j)
      ensures KeepsInvariant(CallThread(c), env, (u: World, k: nat) => IssuesSince(u, c, id, i, k), v, j)
    {
      IssueGoesOn(c, id, env, v, i, j);
    }
    var v, j := LastStep(CallThread(c), env, (u: World, k: nat) => IssuesSince(u, c, id, i, k), w, i, n);
    m := env(j);
    Visit(c, m, v);
  }

  lemma RecordedRow(u: World, c: CallId, m: Moment)
    requires c in u.calls && u.calls[c].Issue? && u.calls[c].ipc.Recording? && c !in Own(c, u, m).calls
    ensures var id, r, w' := u.calls[c].doc, u.calls[c].ipc.result, Own(c, u, m);
            && m.ok && id in u.docs && id in w'.docs
            && Shows(w'.docs[id], r) && w'.docs[id].cdr == Some(u.calls[c].ipc.a)
            && forall k :: k in u.docs && k != id ==> k in w'.docs && w'.docs[k] == u.docs[k]
  {
    assert Own(c, u, m) == NextSubmit(u, c, u.calls[c], m.ok, m.answer);
    if u.calls[c].doc in u.docs { PublishedShows(u.docs[u.calls[c].doc], u.calls[c].ipc.result); }
  }

  /** An issue that reports a result leaves it in the row: ACCEPTED, OBSERVED or REJECTED as SUNAT answered, with the
      event of that name last in the log and the CDR linked and stored. */
  lemma ReportedIsWritten(c: CallId, id: DocId, env: nat -> Moment, w: World, i: nat, n: nat)
    requires Issues(w, c, id)
    ensures var e := Course(c, env, w, i, n);
            IssueResult(e, c).Some? ==>
              && id in e.after.docs && Shows(e.after.docs[id], IssueResult(e, c).value)
              && e.after.docs[id].cdr.Some? && e.after.docs[id].cdr.value in e.after.stored
  {
    var e := Course(c, env, w, i, n);
    if IssueResult(e, c).Some? {
      var m := IssueEnds(c, id, env, w, i, n);
      RecordedRow(e.before, c, m);
      NoDanglingArtifacts(e.after);
      assert e.after.docs[id].cdr.value in e.after.docs[id].Artifacts();
    }
  }

  /** In particular, a PENDING or ERROR document that no other call touches before the lock ends as SUNAT answers. */
  lemma UndisturbedIssueShows(c: CallId, company: CompanyId, id: DocId, env: nat -> Moment, w: World, n: nat)
    requires Reachable(w) && c !in w.calls && n >= 10
    requires id in w.docs && w.docs[id].company == company
    requires w.docs[id].status == PENDING || w.docs[id].status == ERROR
    requires w.docs[id].kind == INVOICE || (w.docs[id].kind != RECEIPT && w.docs[id].reference)
    requires env(0).others == [] && env(1).others == [] && env(7).answer.Cdr?
    requires forall k :: 0 <= k <= 9 ==> env(k).ok
    ensures var e := Course(c, env, Next(w, BeginIssue(c, company, id)), 0, n);
            && IssueResult(e, c) == Some(env(7).answer.result)
            && id in e.after.docs && Shows(e.after.docs[id], env(7).answer.result)
  {
    UndisturbedIssueSucceeds(c, company, id, env, w, n);
    ReachableAfter(w, BeginIssue(c, company, id));
    ReportedIsWritten(c, id, env, Next(w, BeginIssue(c, company, id)), 0, n);
  }

  // ----- An issue without result --------------------------------------------------------------

  ghost predicate Holds(w: World, c: CallId, id: DocId) {
    Reachable(w) && c in w.calls && HoldsLock(w.calls[c], id) && id in w.docs && w.docs[id].kind != RECEIPT
  }

  ghost predicate HoldsSince(w: World, c: CallId, id: DocId, i: nat, j: nat) {
    i <= j && Holds(w, c, id)
  }

  /** One statement of a holder: it holds on; or it ends, and the row says how. */
  lemma HolderEnds(u: World, c: CallId, id: DocId, m: Moment)
    requires c in u.calls && HoldsLock(u.calls[c], id) && IssueOk(u, u.calls[c]) && u.docs[id].kind != RECEIPT
    ensures var w' := Own(c, u, m);
            && id in w'.docs && w'.docs[id].kind != RECEIPT
            && if c in w'.calls then HoldsLock(w'.calls[c], id)
               else if !m.ok then w'.docs[id] == u.docs[id] && u.docs[id].status in {PROCESSING, SENT}
               else u.calls[c].ipc.Recording? || Announced(w'.docs[id], ERROR, Error)
  {
    if InPrepare(u.calls[c].ipc) {
      PrepareHolderEnds(u, c, id, m);
    } else {
      SubmitHolderEnds(u, c, id, m);
    }
  }

  lemma PublishedError(d: Document)
    ensures Announced(d.Publish(ERROR, Error), ERROR, Error)
  {
    var d' := d.Publish(ERROR, Error);
    assert d'.writes[|d'.writes| - 1] == ERROR && d'.outbox[|d'.outbox| - 1] == Error;
  }

  lemma PrepareHolderEnds(u: World, c: CallId, id: DocId, m: Moment)
    requires c in u.calls && HoldsLock(u.calls[c], id) && IssueOk(u, u.calls[c]) && InPrepare(u.calls[c].ipc)
    requires u.docs[id].kind != RECEIPT
    ensures var w' := NextPrepare(u, c, u.calls[c], m.ok);
            && id in w'.docs && w'.docs[id].kind != RECEIPT
            && if c in w'.calls then HoldsLock(w'.calls[c], id)
               else if !m.ok then w'.docs[id] == u.docs[id] && u.docs[id].status in {PROCESSING, SENT}
               else Announced(w'.docs[id], ERROR, Error)
  {
    PublishedError(u.docs[id]);
  }

  lemma SubmitHolderEnds(u: World, c: CallId, id: DocId, m: Moment)
    requires c in u.calls && HoldsLock(u.calls[c], id) && IssueOk(u, u.calls[c]) && !InPrepare(u.calls[c].ipc)
    requires u.docs[id].kind != RECEIPT
    ensures var w' := NextSubmit(u, c, u.calls[c], m.ok, m.answer);
            && id in w'.docs && w'.docs[id].kind != RECEIPT
            && if c in w'.calls then HoldsLock(w'.calls[c], id)
               else if !m.ok then w'.docs[id] == u.docs[id] && u.docs[id].status in {PROCESSING, SENT}
               else u.calls[c].ipc.Recording? || Announced(w'.docs[id], ERROR, Error)
  {
    PublishedError(u.docs[id]);
  }

  lemma HolderGoesOn(c: CallId, id: DocId, env: nat -> Moment, w: World, i: nat, j: nat)
    requires HoldsSince(w, c, id, i, j)
    ensures KeepsInvariant(CallThread(c), env, (v: World, k: nat) => HoldsSince(v, c, id, i, k), w, j)
  {
    HeldStays(w, c, id, env(j).others);
    IssueFacts(Before(c, w, env(j)), c);
    HolderEnds(Before(c, w, env(j)), c, id, env(j));
    ReachableAfter(Before(c, w, env(j)), Advance(c, env(j).ok, env(j).answer));
  }

  /** An issue that holds a document ends in one of three ways, whatever others do: with a result; without one, the
      row ERROR and the event announced last; or with its last statement failing, the row left PROCESSING or SENT as
      it was. */
  lemma HeldIssueLeaves(c: CallId, id: DocId, env: nat -> Moment, w: World, i: nat, n: nat)
    requires Holds(w, c, id) && Course(c, env, w, i, n).Finished?
    ensures var e := Course(c, env, w, i, n);
            && e.last.Advance? && id in e.after.docs && id in e.before.docs
            && if IssueResult(e, c).Some? then Shows(e.after.docs[id], IssueResult(e, c).value)
               else if e.last.ok then Announced(e.after.docs[id], ERROR, Error)
               else e.after.docs[id] == e.before.docs[id] && e.after.docs[id].status in {PROCESSING, SENT}
  {
    forall v, j: nat | HoldsSince(v, c, id, i, j)
      ensures KeepsInvariant(CallThread(c), env, (u: World, k: nat) => HoldsSince(u, c, id, i, k), v, j)
    {
      HolderGoesOn(c, id, env, v, i, j);
    }
    var v, j := LastStep(CallThread(c), env, (u: World, k: nat) => HoldsSince(u, c, id, i, k), w, i, n);
    var u := Before(c, v, env(j));
    HeldStays(v, c, id, env(j).others);
    IssueFacts(u, c);
    HolderEnds(u, c, id, env(j));
    if u.calls[c].ipc.Recording? { RecordedRow(u, c, env(j)); }
  }

  // ----- refreshStatus ------------------------------------------------------------------------

  /** A refresh that began at moment i carries the answer it got at moment i + 1. */
  ghost predicate Carries(w: World, c: CallId, comm: CommId, env: nat -> Moment, i: nat, j: nat) {
    && Reachable(w) && c in w.calls && w.calls[c].Refresh? && w.calls[c].comm == comm
    && match w.calls[c].rpc
       case ReadingTicket => j == i
       case Polling(_) => j == i + 1
       case SavingCdr(_, r) => env(i + 1).answer == Cdr(r)
       case Checking(_, r, _) => env(i + 1).answer == Cdr(r)
       case Committing(_, r, _) => env(i + 1).answer == Cdr(r)
       case DroppingAnswer(_) => true
  }

  lemma RefreshAsksNext(u: World, c: CallId, m: Moment)
    requires c in u.calls && u.calls[c].Refresh?
    ensures var pc, w' := u.calls[c].rpc, Own(c, u, m);
            c in w'.calls ==>
              && w'.calls[c].Refresh? && w'.calls[c].comm == u.calls[c].comm
              && match w'.calls[c].rpc
                 case ReadingTicket => false
                 case Polling(_) => pc.ReadingTicket?
                 case SavingCdr(_, r) => pc.Polling? && m.answer == Cdr(r)
                 case Checking(_, r, _) => pc.SavingCdr? && r == pc.result
                 case Committing(_, r, _) => (pc.SavingCdr? || pc.Checking?) && r == pc.result
                 case DroppingAnswer(_) => pc.Committing?
  {
    assert Own(c, u, m) == NextRefresh(u, c, u.calls[c], m.ok, m.answer);
  }

  lemma RefreshGoesOn(c: CallId, comm: CommId, env: nat -> Moment, w: World, i: nat, j: nat)
    requires Carries(w, c, comm, env, i, j)
    ensures KeepsInvariant(CallThread(c), env, (v: World, k: nat) => Carries(v, c, comm, env, i, k), w, j)
  {
    Visit(c, env(j), w);
    RefreshAsksNext(Before(c, w, env(j)), c, env(j));
  }

  lemma CommittedRows(u: World, c: CallId, m: Moment)
    requires Reachable(u) && c in u.calls && u.calls[c].Refresh? && u.calls[c].rpc.Committing?
    requires c !in Own(c, u, m).calls
    ensures var comm, pc, w' := u.calls[c].comm, u.calls[c].rpc, Own(c, u, m);
            && comm in u.comms && comm in w'.comms && w'.comms[comm].cdr == Some(pc.a)
            && w'.comms[comm].docs == u.comms[comm].docs && w'.comms[comm].kind == u.comms[comm].kind
            && w'.comms[comm].status == (match pc.result
                                         case CdrRejected => TicketRejected
                                         case _ => TicketAccepted)
            && Closed(u.docs, w'.docs, u.comms[comm].kind, u.comms[comm].docs, pc.result)
  {
    CallIsOk(u, c);
    CommCovers(u, u.calls[c].comm);
    var pc, comm := u.calls[c].rpc, u.comms[u.calls[c].comm];
    assert Own(c, u, m) == NextRefresh(u, c, u.calls[c], m.ok, m.answer);
    ClosingWrites(u.docs, comm.kind, pc.docs, pc.result);
  }

  /** A refresh that closes has written the answer it got: the communication accepted or rejected, its CDR linked and
      stored; every receipt of a summary ACCEPTED, OBSERVED or REJECTED, every document of a void VOIDED, or as it
      was if the void was rejected; and nothing else. */
  lemma ClosedIsWritten(c: CallId, comm: CommId, env: nat -> Moment, w: World, i: nat, n: nat)
    requires Carries(w, c, comm, env, i, i) && RefreshResult(Course(c, env, w, i, n), c)
    ensures var e := Course(c, env, w, i, n);
            && env(i + 1).answer.Cdr? && comm in e.after.comms
            && var r, row := env(i + 1).answer.result, e.after.comms[comm];
            && row.cdr.Some? && row.cdr.value in e.after.stored
            && row.status == (match r
                              case CdrRejected => TicketRejected
                              case _ => TicketAccepted)
            && Closed(e.before.docs, e.after.docs, row.kind, row.docs, r)
  {
    forall v, j: nat | Carries(v, c, comm, env, i, j)
      ensures KeepsInvariant(CallThread(c), env, (u: World, k: nat) => Carries(u, c, comm, env, i, k), v, j)
    {
      RefreshGoesOn(c, comm, env, v, i, j);
    }
    var v, j := LastStep(CallThread(c), env, (u: World, k: nat) => Carries(u, c, comm, env, i, k), w, i, n);
    Visit(c, env(j), v);
    CommittedRows(Before(c, v, env(j)), c, env(j));
    NoDanglingArtifacts(Own(c, Before(c, v, env(j)), env(j)));
    var after := Own(c, Before(c, v, env(j)), env(j));
    assert after.comms[comm].cdr.value in after.comms[comm].Artifacts();
  }

  /** A refresh that does not close leaves every row as it was, but for the communication whose ticket SUNAT ended
      without a CDR, which is in error then. */
  lemma OpenRefreshLeaves(c: CallId, comm: CommId, env: nat -> Moment, w: World, i: nat, n: nat)
    requires Carries(w, c, comm, env, i, i)
    requires Course(c, env, w, i, n).Finished? && !RefreshResult(Course(c, env, w, i, n), c)
    ensures var e := Course(c, env, w, i, n);
            && c in e.before.calls && e.before.calls[c].Refresh? && e.last.Advance?
            && e.after.docs == e.before.docs
            && if e.before.calls[c].rpc.Polling? && e.last.ok && env(i + 1).answer == Ended
               then && comm in e.before.comms
                    && e.after.comms == e.before.comms[comm := e.before.comms[comm].(status := TicketError)]
               else e.after.comms == e.before.comms
  {
    forall v, j: nat | Carries(v, c, comm, env, i, j)
      ensures KeepsInvariant(CallThread(c), env, (u: World, k: nat) => Carries(u, c, comm, env, i, k), v, j)
    {
      RefreshGoesOn(c, comm, env, v, i, j);
    }
    var v, j := LastStep(CallThread(c), env, (u: World, k: nat) => Carries(u, c, comm, env, i, k), w, i, n);
    Visit(c, env(j), v);
    OpenRefreshEnds(Before(c, v, env(j)), c, env(j));
  }

  lemma OpenRefreshEnds(u: World, c: CallId, m: Moment)
    requires c in u.calls && u.calls[c].Refresh? && RefreshOk(u, u.calls[c]) && !u.calls[c].rpc.Committing?
    requires c !in Own(c, u, m).calls
    ensures var comm, w' := u.calls[c].comm, Own(c, u, m);
            && w'.docs == u.docs
            && if u.calls[c].rpc.Polling? && m.ok && m.answer == Ended
               then comm in u.comms && w'.comms == u.comms[comm := u.comms[comm].(status := TicketError)]
               else w'.comms == u.comms
  {
    assert Own(c, u, m) == NextRefresh(u, c, u.calls[c], m.ok, m.answer);
  }

  // ----- createAndSend ------------------------------------------------------------------------

  function RowOf(pc: SendPc): Option<CommId> {
    match pc
    case Selecting => None
    case Inserting => None
    case Packing(m) => Some(m)
    case Delivering(m, _) => Some(m)
    case DroppingPack(m, _) => Some(m)
    case MarkingSendError(m) => Some(m)
  }

  /** The row that a sending call has made is about the documents it was asked for. */
  predicate MadeFor(w: World, call: Call)
    requires call.Send?
  {
    RowOf(call.spc).Some? ==>
      var m := RowOf(call.spc).value;
      m in w.comms && w.comms[m].company == call.company && w.comms[m].kind == call.kind && w.comms[m].docs == call.ids
  }

  ghost predicate Sends(w: World, c: CallId, call: Call) {
    && Reachable(w) && c in w.calls && w.calls[c].Send? && MadeFor(w, w.calls[c])
    && w.calls[c].(spc := Selecting) == call
  }

  ghost predicate SendsSince(w: World, c: CallId, call: Call, i: nat, j: nat) {
    i <= j && Sends(w, c, call)
  }

  lemma RowsKeepPurpose(w: World, action: Action, m: CommId)
    requires Reachable(w) && m in w.comms
    ensures var w' := Next(w, action);
            && m in w'.comms && w'.comms[m].company == w.comms[m].company && w'.comms[m].kind == w.comms[m].kind
            && w'.comms[m].docs == w.comms[m].docs
  {
    ReachableInvariants(w);
    assert m < w.nextComm;
    if action.Advance? && action.c in w.calls {
      var call := w.calls[action.c];
      match call {
        case Issue(_, _, _) => IssueLeavesComms(w, action.c, call, action.ok, action.answer);
        case Send(_, _, _, _) => SendKeepsPurpose(w, action.c, call, action.ok, m);
        case Refresh(_, _, _) => RefreshKeepsPurpose(w, action.c, call, action.ok, action.answer, m);
      }
    }
  }

  lemma IssueLeavesComms(w: World, c: CallId, call: Call, ok: bool, answer: Answer)
    requires call.Issue?
    ensures NextIssue(w, c, call, ok, answer).comms == w.comms
  {
    if InPrepare(call.ipc) {
      assert NextPrepare(w, c, call, ok).comms == w.comms;
    } else {
      assert NextSubmit(w, c, call, ok, answer).comms == w.comms;
    }
  }

  lemma SendKeepsPurpose(w: World, c: CallId, call: Call, ok: bool, m: CommId)
    requires call.Send? && m in w.comms && m < w.nextComm
    ensures var w' := NextSend(w, c, call, ok);
            && m in w'.comms && w'.comms[m].company == w.comms[m].company && w'.comms[m].kind == w.comms[m].kind
            && w'.comms[m].docs == w.comms[m].docs
  {
  }

  lemma RefreshKeepsPurpose(w: World, c: CallId, call: Call, ok: bool, answer: Answer, m: CommId)
    requires call.Refresh? && m in w.comms
    ensures var w' := NextRefresh(w, c, call, ok, answer);
            && m in w'.comms && w'.comms[m].company == w.comms[m].company && w'.comms[m].kind == w.comms[m].kind
            && w'.comms[m].docs == w.comms[m].docs
  {
  }

  lemma {:induction false} PurposeStays(w: World, c: CallId, actions: seq<Action>, m: CommId)
    requires Reachable(w) && m in w.comms
    ensures var u := Iterate(Next, w, Foreign(c, actions));
            && m in u.comms && u.comms[m].company == w.comms[m].company && u.comms[m].kind == w.comms[m].kind
            && u.comms[m].docs == w.comms[m].docs
  {
    if actions != [] {
      var init, last := actions[..|actions| - 1], actions[|actions| - 1];
      PurposeStays(w, c, init, m);
      if BelongsTo(last, c) {
        assert Foreign(c, actions) == Foreign(c, init);
      } else {
        assert Foreign(c, actions) == Foreign(c, init) + [last];
        ForeignGrows(w, c, init, last);
        ReachableBefore(w, c, init);
        RowsKeepPurpose(Iterate(Next, w, Foreign(c, init)), last, m);
      }
    }
  }

  /** One statement of a sending call. */
  lemma SendTakesStep(u: World, c: CallId, m: Moment)
    requires c in u.calls && u.calls[c].Send? && MadeFor(u, u.calls[c])
    ensures var call, w' := u.calls[c], Own(c, u, m);
            && w'.docs == u.docs
            && if c in w'.calls
               then && w'.calls[c].Send? && MadeFor(w', w'.calls[c])
                    && w'.calls[c].(spc := Selecting) == call.(spc := Selecting)
               else SentRow(u, w', call, m.ok)
  {
    assert Own(c, u, m) == NextSend(u, c, u.calls[c], m.ok);
  }

  /** The last statement: the ticket recorded in the row, the row marked as failed, or nothing. */
  predicate SentRow(u: World, w': World, call: Call, ok: bool)
    requires call.Send?
  {
    match call.spc
    case Delivering(m, z) =>
      m in u.comms
      && w'.comms == u.comms[m := u.comms[m].(status := TicketSent, ticket := true, zip := Some(z))]
    case MarkingSendError(m) =>
      m in u.comms && w'.comms == if ok then u.comms[m := u.comms[m].(status := TicketError)] else u.comms
    case _ => w'.comms == u.comms
  }

  lemma SendGoesOn(c: CallId, call: Call, env: nat -> Moment, w: World, i: nat, j: nat)
    requires SendsSince(w, c, call, i, j)
    ensures KeepsInvariant(CallThread(c), env, (v: World, k: nat) => SendsSince(v, c, call, i, k), w, j)
  {
    Visit(c, env(j), w);
    if RowOf(w.calls[c].spc).Some? { PurposeStays(w, c, env(j).others, RowOf(w.calls[c].spc).value); }
    SendTakesStep(Before(c, w, env(j)), c, env(j));
  }

  /** What a sending call leaves: no document is touched; if it reports a communication, the row is SENT, is about the
      documents asked for, and its archive is stored; if it has made a row and failed, the row is in error, unless
      that last write failed as well. */
  lemma SendLeaves(c: CallId, company: CompanyId, kind: TicketKind, ids: seq<DocId>, env: nat -> Moment, w: World,
                   n: nat)
    requires Reachable(w) && c !in w.calls
    requires Course(c, env, Next(w, BeginSend(c, company, kind, ids)), 0, n).Finished?
    ensures var e := Course(c, env, Next(w, BeginSend(c, company, kind, ids)), 0, n);
            && e.after.docs == e.before.docs && e.last.Advance?
            && c in e.before.calls && e.before.calls[c].Send?
            && match SendResult(e, c)
               case Some(m) =>
                 && m in e.after.comms
                 && var row := e.after.comms[m];
                 && row.company == company && row.kind == kind && row.docs == ids
                 && row.status == TicketSent && row.ticket && row.zip.Some? && row.zip.value in e.after.stored
               case None =>
                 match RowOf(e.before.calls[c].spc)
                 case None => e.after.comms == e.before.comms
                 case Some(m) =>
                   && m in e.before.comms && e.before.comms[m].docs == ids
                   && if e.last.ok then e.after.comms == e.before.comms[m := e.before.comms[m].(status := TicketError)]
                      else e.after.comms == e.before.comms
  {
    var begun := Next(w, BeginSend(c, company, kind, ids));
    var call := Send(company, kind, ids, Selecting);
    ReachableAfter(w, BeginSend(c, company, kind, ids));
    assert Sends(begun, c, call);
    var u, j := SendEnds(c, call, env, begun, 0, n);
    SendTakesStep(u, c, env(j));
    if u.calls[c].spc.Delivering? { ZipIsStored(Own(c, u, env(j)), u.calls[c].spc.comm); }
  }

  lemma ZipIsStored(w: World, m: CommId)
    requires Reachable(w) && m in w.comms && w.comms[m].zip.Some?
    ensures w.comms[m].zip.value in w.stored
  {
    NoDanglingArtifacts(w);
    assert w.comms[m].zip.value in w.comms[m].Artifacts();
  }

  /** The state before the last statement of a sending call. */
  lemma SendEnds(c: CallId, call: Call, env: nat -> Moment, w: World, i: nat, n: nat) returns (u: World, j: nat)
    requires Sends(w, c, call) && Course(c, env, w, i, n).Finished?
    ensures var e := Course(c, env, w, i, n);
            && e.before == u && e.after == Own(c, u, env(j)) && e.last == Advance(c, env(j).ok, env(j).answer)
            && c !in e.after.calls && Reachable(e.after)
    ensures Sends(u, c, call)
  {
    forall v, k: nat | SendsSince(v, c, call, i, k)
      ensures KeepsInvariant(CallThread(c), env, (x: World, l: nat) => SendsSince(x, c, call, i, l), v, k)
    {
      SendGoesOn(c, call, env, v, i, k);
    }
    var v, k := LastStep(CallThread(c), env, (x: World, l: nat) => SendsSince(x, c, call, i, l), w, i, n);
    Visit(c, env(k), v);
    if RowOf(v.calls[c].spc).Some? { PurposeStays(v, c, env(k).others, RowOf(v.calls[c].spc).value); }
    u, j := Before(c, v, env(k)), k;
  }
}
