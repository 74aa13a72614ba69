/** What holds in every interleaving of document creation, issuance, voiding and summaries. */
module DocumentsTheorems {
  import opened Common
  import opened Lifecycle
  import opened Documents
  import opened Runs
  import opened DocumentsInvariant
  import opened DocumentsArtifacts

  /** A world reached from the empty one by some sequence of actions. */
  ghost predicate Reachable(w: World) {
    Reaches(Next, EMPTY_WORLD, w)
  }

  lemma ReachableInvariants(w: World)
    requires Reachable(w)
    ensures StatusInv(w) && ArtifactInv(w)
  {
    var actions :| w == Iterate(Next, EMPTY_WORLD, actions);
    assert w == Run(EMPTY_WORLD, actions);
    RunKeepsStatus(EMPTY_WORLD, actions);
    RunKeepsArtifacts(EMPTY_WORLD, actions);
  }

  // ----- Ownership ----------------------------------------------------------------------------

  /** At most one call is past the prepare lock of a non-receipt document and unfinished, and the
      row's status is the one that call's program point relies on. */
  lemma IssuanceOwnership(w: World, id: DocId, c1: CallId, c2: CallId)
    requires Reachable(w) && id in w.docs && w.docs[id].kind != RECEIPT
    requires c1 in w.calls && HoldsLock(w.calls[c1], id)
    requires c2 in w.calls && HoldsLock(w.calls[c2], id)
    ensures c1 == c2
    ensures Some(w.docs[id].status) == OwnedStatus(w.calls[c1].ipc)
  {
    ReachableInvariants(w);
    assert CallOk(w, w.calls[c1]);
  }

  predicate Unlocked(w: World, id: DocId) {
    forall c :: c in w.calls ==> !HoldsLock(w.calls[c], id)
  }

  /** Who changed a row: the call that holds it, a call that locks a preparable row, or a void. */
  predicate RightfulChange(w: World, d: Document, d': Document, action: Action, id: DocId) {
    || d' == d
    || (action.Advance? && action.c in w.calls && HoldsLock(w.calls[action.c], id))
    || d.status in PREPARABLE
    || (d.status in {ACCEPTED, OBSERVED, VOIDED} && d'.status == VOIDED)
  }

  lemma IssueChanges(w: World, action: Action, id: DocId)
    requires action.Advance? && action.c in w.calls && w.calls[action.c].Issue? && IssueOk(w, w.calls[action.c])
    requires id in w.docs && w.docs[id].kind != RECEIPT
    ensures id in Next(w, action).docs && Extends(w.docs[id], Next(w, action).docs[id])
    ensures RightfulChange(w, w.docs[id], Next(w, action).docs[id], action, id)
  {
    if InPrepare(w.calls[action.c].ipc) {
      PrepareMoves(w, action.c, action.ok);
      PrepareHistory(w, action.c, action.ok, id);
    } else {
      SubmitMoves(w, action.c, action.ok, action.answer);
      SubmitHistory(w, action.c, action.ok, action.answer, id);
    }
  }

  /** A row changes only by the call that holds it, by a call that locks it, or by a void. */
  lemma RowChangesOnlyBy(w: World, action: Action, id: DocId)
    requires StatusInv(w) && id in w.docs && w.docs[id].kind != RECEIPT
    ensures id in Next(w, action).docs && Extends(w.docs[id], Next(w, action).docs[id])
    ensures RightfulChange(w, w.docs[id], Next(w, action).docs[id], action, id)
  {
    if action.Advance? && action.c in w.calls {
      var c := action.c;
      assert CallOk(w, w.calls[c]);
      match w.calls[c] {
        case Issue(_, _, _) => IssueChanges(w, action, id);
        case Send(_, _, _, _) =>
        case Refresh(_, m, pc) =>
          if pc.Committing? { assert Covers(w, w.comms[m].company, w.comms[m].kind, w.comms[m].docs); }
          RefreshHistory(w, c, action.ok, action.answer, id);
      }
    }
  }

  /** The row's history only grows, by commits the lifecycle allows. */
  predicate Extends(d: Document, d': Document) {
    && d'.kind == d.kind
    && d.writes <= d'.writes && d.outbox <= d'.outbox
    && (d'.status == d.status || Committed(d.status, d'.status))
  }

  lemma PrepareHistory(w: World, c: CallId, ok: bool, id: DocId)
    requires c in w.calls && w.calls[c].Issue? && InPrepare(w.calls[c].ipc) && IssueOk(w, w.calls[c])
    requires id in w.docs && w.docs[id].kind != RECEIPT
    ensures id in NextPrepare(w, c, w.calls[c], ok).docs
    ensures Extends(w.docs[id], NextPrepare(w, c, w.calls[c], ok).docs[id])
  {
  }

  lemma SubmitHistory(w: World, c: CallId, ok: bool, answer: Answer, id: DocId)
    requires c in w.calls && w.calls[c].Issue? && !InPrepare(w.calls[c].ipc) && IssueOk(w, w.calls[c])
    requires id in w.docs && w.docs[id].kind != RECEIPT
    ensures id in NextSubmit(w, c, w.calls[c], ok, answer).docs
    ensures Extends(w.docs[id], NextSubmit(w, c, w.calls[c], ok, answer).docs[id])
  {
  }

  lemma RefreshHistory(w: World, c: CallId, ok: bool, answer: Answer, id: DocId)
    requires c in w.calls && w.calls[c].Refresh? && id in w.docs && w.docs[id].kind != RECEIPT
    requires RefreshOk(w, w.calls[c])
    requires w.calls[c].rpc.Committing? ==>
               var m := w.comms[w.calls[c].comm]; Covers(w, m.company, m.kind, m.docs)
    ensures id in NextRefresh(w, c, w.calls[c], ok, answer).docs
    ensures var d' := NextRefresh(w, c, w.calls[c], ok, answer).docs[id];
            && Extends(w.docs[id], d')
            && (d' == w.docs[id] || (w.docs[id].status in {ACCEPTED, OBSERVED, VOIDED} && d'.status == VOIDED))
  {
    var pc, m := w.calls[c].rpc, w.calls[c].comm;
    if pc.Committing? {
      var s := ClosingStatus(w.comms[m].kind, pc.result);
      if s.Some? { PublishAllRow(w.docs, pc.docs, s.value, id); }
    }
  }

  lemma {:induction false} PublishAllRow(docs: map<DocId, Document>, ids: seq<DocId>, s: Status, id: DocId)
    requires id in docs
    ensures var docs' := PublishAll(docs, ids, s, ClosingEvent(s));
            && id in docs' && docs'[id].kind == docs[id].kind
            && (if id in ids then docs'[id].status == s else docs'[id] == docs[id])
            && docs[id].writes <= docs'[id].writes
            && docs[id].outbox <= docs'[id].outbox
    decreases |ids|
  {
    if ids != [] {
      var k := ids[0];
      PublishAllRow(if k in docs then docs[k := docs[k].Publish(s, ClosingEvent(s))] else docs, ids[1..], s, id);
    }
  }

  /** While a call holds a document, no step of any other call, of a void or of a summary changes the row. */
  lemma OnlyTheOwnerWrites(w: World, action: Action, id: DocId, owner: CallId)
    requires Reachable(w) && id in w.docs && w.docs[id].kind != RECEIPT
    requires owner in w.calls && HoldsLock(w.calls[owner], id)
    requires !(action.Advance? && action.c == owner)
    ensures id in Next(w, action).docs && Next(w, action).docs[id] == w.docs[id]
  {
    ReachableInvariants(w);
    RowChangesOnlyBy(w, action, id);
    IssuanceOwnership(w, id, owner, owner);
    if action.Advance? && action.c in w.calls && HoldsLock(w.calls[action.c], id) {
      IssuanceOwnership(w, id, owner, action.c);
    }
  }

  /** What the next step of a call that holds a non-receipt document finds and does when I/O succeeds. */
  predicate LandsAsIntended(w: World, w': World, c: CallId)
    requires c in w.calls && w.calls[c].Issue?
  {
    var pc, id := w.calls[c].ipc, w.calls[c].doc;
    && id in w.docs && id in w'.docs
    && (pc.Linking? || pc.MarkingPrepareError? ==> w.docs[id].status == PROCESSING)
    && (pc.Recording? || pc.MarkingSubmitError? ==> w.docs[id].status == SENT)
    && (pc.Prepared? ==> w.docs[id].zip.Some? && c in w'.calls
                         && w'.calls[c] == w.calls[c].(ipc := Submitting(w.docs[id].zip.value)))
    && (pc.Submitting? ==>
          w'.docs[id].status == SENT && c in w'.calls && w'.calls[c] == w.calls[c].(ipc := Sending(pc.z)))
    && (pc.Sending? ==> w.docs[id].zip == Some(pc.z) && pc.z in w.stored)
    && (pc.MarkingPrepareError? || pc.MarkingSubmitError? ==> w'.docs[id].status == ERROR)
  }

  /** The writes by id alone find the row as `prepare` and `submit` left it, and the guards and the
      compare-and-set at the start of `submit` never fail on a non-receipt: only I/O can stop it. */
  lemma WritesLandAsIntended(w: World, c: CallId, answer: Answer)
    requires Reachable(w) && c in w.calls && w.calls[c].Issue? && OwnedStatus(w.calls[c].ipc).Some?
    requires w.calls[c].doc in w.docs ==> w.docs[w.calls[c].doc].kind != RECEIPT
    ensures LandsAsIntended(w, Next(w, Advance(c, true, answer)), c)
  {
    IssueFacts(w, c);
    StepLands(w, c, answer);
  }

  lemma IssueFacts(w: World, c: CallId)
    requires Reachable(w) && c in w.calls && w.calls[c].Issue? && OwnedStatus(w.calls[c].ipc).Some?
    ensures IssueOk(w, w.calls[c]) && w.calls[c].doc in w.docs && w.docs[w.calls[c].doc].Artifacts() <= w.stored
  {
    ReachableInvariants(w);
    NoDanglingArtifacts(w);
    assert CallOk(w, w.calls[c]);
  }

  lemma StepLands(w: World, c: CallId, answer: Answer)
    requires c in w.calls && w.calls[c].Issue? && OwnedStatus(w.calls[c].ipc).Some? && IssueOk(w, w.calls[c])
    requires w.docs[w.calls[c].doc].kind != RECEIPT && w.docs[w.calls[c].doc].Artifacts() <= w.stored
    ensures LandsAsIntended(w, NextIssue(w, c, w.calls[c], true, answer), c)
  {
    if InPrepare(w.calls[c].ipc) {
      assert LandsAsIntended(w, NextPrepare(w, c, w.calls[c], true), c);
    } else {
      if w.calls[c].ipc.Sending? { assert w.calls[c].ipc.z in Elements(w.docs[w.calls[c].doc].zip); }
      assert LandsAsIntended(w, NextSubmit(w, c, w.calls[c], true, answer), c);
    }
  }

  /** There is no recovery: a row left in PROCESSING or SENT by a crashed call never changes again. */
  lemma {:induction false} OrphansStay(w: World, actions: seq<Action>, id: DocId)
    requires Reachable(w) && id in w.docs && w.docs[id].kind != RECEIPT
    requires w.docs[id].status in {PROCESSING, SENT} && Unlocked(w, id)
    ensures id in Run(w, actions).docs && Run(w, actions).docs[id] == w.docs[id]
    ensures Unlocked(Run(w, actions), id)
  {
    ReachableInvariants(w);
    if actions != [] {
      var before := Run(w, actions[..|actions| - 1]);
      var action := actions[|actions| - 1];
      OrphansStay(w, actions[..|actions| - 1], id);
      RunKeepsStatus(w, actions[..|actions| - 1]);
      RowChangesOnlyBy(before, action, id);
      StaysUnlocked(before, action, id);
    }
  }

  lemma StaysUnlocked(w: World, action: Action, id: DocId)
    requires StatusInv(w) && id in w.docs && w.docs[id].kind != RECEIPT
    requires w.docs[id].status !in PREPARABLE && Unlocked(w, id)
    ensures Unlocked(Next(w, action), id)
  {
    if action.Advance? && action.c in w.calls {
      var c := action.c;
      assert CallOk(w, w.calls[c]);
      match w.calls[c] {
        case Issue(_, _, _) => IssueStaysUnlocked(w, c, action.ok, action.answer, id);
        case Send(_, _, _, _) => SendStaysUnlocked(w, c, action.ok, id);
        case Refresh(_, _, _) => RefreshStaysUnlocked(w, c, action.ok, action.answer, id);
      }
    }
  }

  lemma OthersUnlocked(w: World, w': World, c: CallId, id: DocId)
    requires Unlocked(w, id)
    requires w'.calls == w.calls - {c}
             || (c in w'.calls && w'.calls == w.calls[c := w'.calls[c]] && !HoldsLock(w'.calls[c], id))
    ensures Unlocked(w', id)
  {
  }

  lemma SendStaysUnlocked(w: World, c: CallId, ok: bool, id: DocId)
    requires c in w.calls && w.calls[c].Send? && Unlocked(w, id)
    ensures Unlocked(NextSend(w, c, w.calls[c], ok), id)
  {
    OthersUnlocked(w, NextSend(w, c, w.calls[c], ok), c, id);
  }

  lemma RefreshStaysUnlocked(w: World, c: CallId, ok: bool, answer: Answer, id: DocId)
    requires c in w.calls && w.calls[c].Refresh? && Unlocked(w, id)
    ensures Unlocked(NextRefresh(w, c, w.calls[c], ok, answer), id)
  {
    OthersUnlocked(w, NextRefresh(w, c, w.calls[c], ok, answer), c, id);
  }

  lemma IssueStaysUnlocked(w: World, c: CallId, ok: bool, answer: Answer, id: DocId)
    requires c in w.calls && w.calls[c].Issue? && IssueOk(w, w.calls[c]) && id in w.docs && w.docs[id].kind != RECEIPT
    requires w.docs[id].status !in PREPARABLE && Unlocked(w, id)
    ensures Unlocked(NextIssue(w, c, w.calls[c], ok, answer), id)
  {
    if InPrepare(w.calls[c].ipc) {
      OthersUnlocked(w, NextPrepare(w, c, w.calls[c], ok), c, id);
    } else {
      OthersUnlocked(w, NextSubmit(w, c, w.calls[c], ok, answer), c, id);
    }
  }

  /** A crash is how a row gets there: it frees the row and leaves it in PROCESSING or SENT. */
  lemma CrashOrphans(w: World, c: CallId, id: DocId)
    requires Reachable(w) && id in w.docs && w.docs[id].kind != RECEIPT
    requires c in w.calls && HoldsLock(w.calls[c], id)
    ensures Next(w, Crash(c)).docs == w.docs && Unlocked(Next(w, Crash(c)), id)
    ensures w.docs[id].status in {PROCESSING, SENT}
  {
    forall o | o in w.calls && HoldsLock(w.calls[o], id)
      ensures o == c
    {
      IssuanceOwnership(w, id, c, o);
    }
    IssuanceOwnership(w, id, c, c);
  }

  /** Steps a holder is from its next write to the row. */
  function Distance(pc: IssuePc): nat {
    match pc
    case Generating => 3
    case XmlSaved(_) => 3
    case DroppingZip(_, _) => 2
    case Sending(_) => 2
    case Answered(_) => 2
    case DroppingXml(_) => 1
    case Prepared => 1
    case DroppingCdr(_) => 1
    case _ => 0
  }

  /** The step that brings a holder closer: failing what comes before an error mark, else succeeding. */
  function Closer(c: CallId, pc: IssuePc): Action {
    Advance(c, !(pc.Generating? || pc.XmlSaved? || pc.Sending? || pc.Answered?), NoAnswer)
  }

  lemma CloserStep(w: World, c: CallId, id: DocId)
    requires c in w.calls && HoldsLock(w.calls[c], id) && IssueOk(w, w.calls[c]) && w.docs[id].kind != RECEIPT
    ensures var pc := w.calls[c].ipc;
            var w' := Next(w, Closer(c, pc));
            && id in w'.docs
            && if Distance(pc) == 0 then w'.docs[id] != w.docs[id]
               else && w'.docs == w.docs && c in w'.calls && HoldsLock(w'.calls[c], id)
                    && Distance(w'.calls[c].ipc) < Distance(pc)
  {
    var pc := w.calls[c].ipc;
    if InPrepare(pc) {
      assert Next(w, Closer(c, pc)) == NextPrepare(w, c, w.calls[c], Closer(c, pc).ok);
    } else {
      assert Next(w, Closer(c, pc)) == NextSubmit(w, c, w.calls[c], Closer(c, pc).ok, NoAnswer);
    }
  }

  lemma {:induction false} HolderCanWrite(w: World, c: CallId, id: DocId) returns (actions: seq<Action>)
    requires Reachable(w) && id in w.docs && w.docs[id].kind != RECEIPT
    requires c in w.calls && HoldsLock(w.calls[c], id)
    ensures id in Run(w, actions).docs && Run(w, actions).docs[id] != w.docs[id]
    decreases Distance(w.calls[c].ipc)
  {
    ReachableInvariants(w);
    assert CallOk(w, w.calls[c]);
    var step := Closer(c, w.calls[c].ipc);
    var w' := Next(w, step);
    CloserStep(w, c, id);
    ReachesNext(Next, EMPTY_WORLD, w, step);
    actions := [];
    if Distance(w.calls[c].ipc) > 0 { actions := HolderCanWrite(w', c, id); }
    IterateConcat(Next, w, [step], actions);
    assert Iterate(Next, w, [step]) == w' by { assert [step][..0] == []; }
    actions := [step] + actions;
  }

  ghost predicate CanChange(w: World, id: DocId)
    requires id in w.docs
  {
    exists actions :: id in Run(w, actions).docs && Run(w, actions).docs[id] != w.docs[id]
  }

  /** A PROCESSING or SENT row can ever change again if and only if a live call holds it. */
  lemma ChangesIffHeld(w: World, id: DocId)
    requires Reachable(w) && id in w.docs && w.docs[id].kind != RECEIPT && w.docs[id].status in {PROCESSING, SENT}
    ensures CanChange(w, id) <==> !Unlocked(w, id)
  {
    if Unlocked(w, id) {
      forall actions
        ensures id in Run(w, actions).docs && Run(w, actions).docs[id] == w.docs[id]
      {
        OrphansStay(w, actions, id);
      }
    } else {
      var c :| c in w.calls && HoldsLock(w.calls[c], id);
      var actions := HolderCanWrite(w, c, id);
      assert Run(w, actions).docs[id] != w.docs[id];
    }
  }

  // ----- Lifecycle ----------------------------------------------------------------------------

  /** Every committed status write of a non-receipt document is an edge of the table, or the relink
      self-loop, or a repeated void; so the history is a path of the lifecycle. */
  lemma LifecycleRefinement(w: World, id: DocId)
    requires Reachable(w) && id in w.docs && w.docs[id].kind != RECEIPT
    ensures var p := w.docs[id].writes;
            && p != [] && p[0] == PENDING && p[|p| - 1] == w.docs[id].status
            && Committable(p) && Path(p)
  {
    ReachableInvariants(w);
    assert DocumentOk(w.docs[id]);
  }

  predicate StepAllowed(d: Document, d': Document) {
    && d.writes <= d'.writes && d.outbox <= d'.outbox
    && (d'.status == d.status || CanTransition(d.status, d'.status, VOID_CONFIRMED))
    && (d.status in TERMINAL_STATES ==> d'.status == d.status)
    && (d'.status == VOIDED ==> d.status in VOIDABLE_STATES + {VOIDED})
  }

  lemma ExtensionsAreAllowed(d: Document, d': Document)
    requires Extends(d, d')
    ensures StepAllowed(d, d')
  {
  }

  /** One action only extends the history, and moves the status as the lifecycle service allows:
      although the check and the write of a void are separate steps, VOIDED is entered only from
      ACCEPTED or OBSERVED (or repeated), and REJECTED and VOIDED are never left. */
  lemma StatusStepsAreAllowed(w: World, action: Action, id: DocId)
    requires Reachable(w) && id in w.docs && w.docs[id].kind != RECEIPT
    ensures id in Next(w, action).docs && StepAllowed(w.docs[id], Next(w, action).docs[id])
  {
    ReachableInvariants(w);
    RowChangesOnlyBy(w, action, id);
    ExtensionsAreAllowed(w.docs[id], Next(w, action).docs[id]);
  }

  /** The steps that take a receipt off the table, told before the step: a relink over a result, an error
      mark over a result or a void, and a summary that closes with a status the table does not lead to. */
  predicate Leaves(w: World, action: Action, id: DocId)
    requires id in w.docs
  {
    var s := w.docs[id].status;
    && action.Advance? && action.ok && action.c in w.calls
    && match w.calls[action.c]
       case Issue(_, doc, pc) =>
         doc == id && ((pc.Linking? && s !in {PROCESSING, PENDING, ERROR})
                       || (pc.MarkingPrepareError? && s !in {PROCESSING, SENT, ERROR}))
       case Send(_, _, _, _) => false
       case Refresh(_, m, pc) =>
         && pc.Committing? && m in w.comms && id in pc.docs && (forall d :: d in pc.docs ==> d in w.docs)
         && ClosingStatus(w.comms[m].kind, pc.result).Some?
         && !Step(s, ClosingStatus(w.comms[m].kind, pc.result).value)
  }

  lemma IssueLeaves(w: World, action: Action, id: DocId)
    requires action.Advance? && action.c in w.calls && w.calls[action.c].Issue? && IssueOk(w, w.calls[action.c])
    requires id in w.docs && w.docs[id].kind == RECEIPT
    ensures id in Next(w, action).docs
    ensures Step(w.docs[id].status, Next(w, action).docs[id].status) <==> !Leaves(w, action, id)
  {
    var call := w.calls[action.c];
    if InPrepare(call.ipc) {
      assert Next(w, action) == NextPrepare(w, action.c, call, action.ok);
    } else {
      assert Next(w, action) == NextSubmit(w, action.c, call, action.ok, action.answer);
    }
  }

  lemma RefreshLeaves(w: World, action: Action, id: DocId)
    requires action.Advance? && action.c in w.calls && w.calls[action.c].Refresh? && id in w.docs
    ensures id in Next(w, action).docs
    ensures Step(w.docs[id].status, Next(w, action).docs[id].status) <==> !Leaves(w, action, id)
  {
    var pc, m := w.calls[action.c].rpc, w.calls[action.c].comm;
    if pc.Committing? && m in w.comms {
      var s := ClosingStatus(w.comms[m].kind, pc.result);
      if s.Some? { PublishAllRow(w.docs, pc.docs, s.value, id); }
    }
  }

  /** For receipts the table is kept by exactly the other steps. */
  lemma ReceiptStepsFollowTable(w: World, action: Action, id: DocId)
    requires StatusInv(w) && id in w.docs && w.docs[id].kind == RECEIPT
    ensures id in Next(w, action).docs
    ensures Step(w.docs[id].status, Next(w, action).docs[id].status) <==> !Leaves(w, action, id)
  {
    if action.Advance? && action.c in w.calls {
      assert CallOk(w, w.calls[action.c]);
      if w.calls[action.c].Issue? { IssueLeaves(w, action, id); }
      if w.calls[action.c].Refresh? { RefreshLeaves(w, action, id); }
    }
  }

  /** In particular the ordinary close of a daily summary, PENDING to its result, always leaves the table. */
  lemma OrdinaryCloseLeaves(w: World, c: CallId, answer: Answer, id: DocId)
    requires StatusInv(w) && id in w.docs && w.docs[id].kind == RECEIPT && w.docs[id].status == PENDING
    requires c in w.calls && w.calls[c].Refresh? && w.calls[c].rpc.Committing? && id in w.calls[c].rpc.docs
    ensures id in Next(w, Advance(c, true, answer)).docs
    ensures !Step(w.docs[id].status, Next(w, Advance(c, true, answer)).docs[id].status)
  {
    var call := w.calls[c];
    assert CallOk(w, call);
    assert Covers(w, w.comms[call.comm].company, w.comms[call.comm].kind, w.comms[call.comm].docs);
    ReceiptStepsFollowTable(w, Advance(c, true, answer), id);
  }

  /** A run with a rarer such step: the relink of a receipt being prepared overwrites the
      result its daily summary recorded meanwhile, moving it from ACCEPTED back to PROCESSING. */
  lemma ReceiptsLeaveTheTable() returns (actions: seq<Action>, last: Action)
    ensures var w := Run(EMPTY_WORLD, actions);
            var w' := Run(EMPTY_WORLD, actions + [last]);
            && 0 in w.docs && w.docs[0].kind == RECEIPT && w.docs[0].status == ACCEPTED
            && 0 in w'.docs && w'.docs[0].status == PROCESSING
            && !CanTransition(ACCEPTED, PROCESSING, VOID_CONFIRMED)
  {
    var w;
    actions, w := SummaryAccepted();
    last := Succeed(2);
    assert (actions + [last])[..|actions|] == actions;
  }

  function Succeed(c: CallId): Action {
    Advance(c, true, Cdr(CdrAccepted))
  }

  const SUMMARY := Communication(7, DailySummary, [0], TicketPending, false, None, None)
  const RACED_RECEIPT :=
    Document(7, RECEIPT, false, PROCESSING, None, None, None, [PENDING, PROCESSING], [Created, Processing])

  /** A summary has selected a PENDING receipt and inserted its own row. */
  lemma SummarySelects() returns (actions: seq<Action>, w: World)
    ensures w == Run(EMPTY_WORLD, actions)
    ensures w == World(map[0 := NewDocument(7, RECEIPT, false)], map[0 := SUMMARY], 1, {}, 0,
                       map[1 := Send(7, DailySummary, [0], Packing(0))])
  {
    actions, w := Extend(Next, EMPTY_WORLD, [], EMPTY_WORLD, CreateDocument(0, 7, RECEIPT, false));
    actions, w := Extend(Next, EMPTY_WORLD, actions, w, BeginSend(1, 7, DailySummary, [0]));
    assert Selectable(w, 7, DailySummary, [0]);
    actions, w := Extend(Next, EMPTY_WORLD, actions, w, Succeed(1));
    actions, w := Extend(Next, EMPTY_WORLD, actions, w, Succeed(1));
  }

  /** Before the summary is delivered, issuance locks the receipt ... */
  lemma IssueLocks() returns (actions: seq<Action>, w: World)
    ensures w == Run(EMPTY_WORLD, actions)
    ensures w == World(map[0 := RACED_RECEIPT], map[0 := SUMMARY], 1, {}, 0,
                       map[1 := Send(7, DailySummary, [0], Packing(0)), 2 := Issue(7, 0, Generating)])
  {
    actions, w := SummarySelects();
    actions, w := Extend(Next, EMPTY_WORLD, actions, w, BeginIssue(2, 7, 0));
    actions, w := Extend(Next, EMPTY_WORLD, actions, w, Succeed(2));
    actions, w := Extend(Next, EMPTY_WORLD, actions, w, Succeed(2));
    assert w.docs[0] == NewDocument(7, RECEIPT, false).Publish(PROCESSING, Processing) == RACED_RECEIPT;
  }

  /** ... and saves its two artifacts. Then the summary is delivered. */
  lemma SummaryDelivered() returns (actions: seq<Action>, w: World)
    ensures w == Run(EMPTY_WORLD, actions)
    ensures w == World(map[0 := RACED_RECEIPT],
                       map[0 := SUMMARY.(status := TicketSent, ticket := true, zip := Some(2))], 1,
                       {0, 1, 2}, 3, map[2 := Issue(7, 0, Linking(0, 1))])
  {
    actions, w := IssueLocks();
    actions, w := Extend(Next, EMPTY_WORLD, actions, w, Succeed(2));
    actions, w := Extend(Next, EMPTY_WORLD, actions, w, Succeed(2));
    actions, w := Extend(Next, EMPTY_WORLD, actions, w, Succeed(1));
    actions, w := Extend(Next, EMPTY_WORLD, actions, w, Succeed(1));
    assert w.calls == map[2 := Issue(7, 0, Linking(0, 1))];
  }

  /** SUNAT accepts the summary and the poll saves its CDR. */
  lemma SummaryAnswered() returns (actions: seq<Action>, w: World)
    ensures w == Run(EMPTY_WORLD, actions)
    ensures w == World(map[0 := RACED_RECEIPT],
                       map[0 := SUMMARY.(status := TicketSent, ticket := true, zip := Some(2))], 1,
                       {0, 1, 2, 3}, 4,
                       map[2 := Issue(7, 0, Linking(0, 1)), 3 := Refresh(7, 0, Committing([0], CdrAccepted, 3))])
  {
    actions, w := SummaryDelivered();
    actions, w := Extend(Next, EMPTY_WORLD, actions, w, BeginRefresh(3, 7, 0));
    actions, w := Extend(Next, EMPTY_WORLD, actions, w, Succeed(3));
    actions, w := Extend(Next, EMPTY_WORLD, actions, w, Succeed(3));
    actions, w := Extend(Next, EMPTY_WORLD, actions, w, Succeed(3));
  }

  lemma SummaryAccepted() returns (actions: seq<Action>, w: World)
    ensures w == Run(EMPTY_WORLD, actions)
    ensures w.docs == map[0 := RACED_RECEIPT.Publish(ACCEPTED, Accepted)]
    ensures 2 in w.calls && w.calls[2] == Issue(7, 0, Linking(0, 1))
  {
    actions, w := SummaryAnswered();
    var docs := w.docs;
    actions, w := Extend(Next, EMPTY_WORLD, actions, w, Succeed(3));
    assert [0][1..] == [];
    assert w.docs == PublishAll(docs, [0], ACCEPTED, Accepted) == docs[0 := docs[0].Publish(ACCEPTED, Accepted)];
  }

  // ----- Event log ----------------------------------------------------------------------------

  /** (processing error)^n */
  function Rounds(n: nat): seq<EventType> {
    if n == 0 then [] else Rounds(n - 1) + [Processing, Error]
  }

  function Voids(n: nat): seq<EventType> {
    if n == 0 then [] else Voids(n - 1) + [Voided]
  }

  /** rejected | (accepted | observed) voided^k */
  function Ending(r: CdrStatus, k: nat): seq<EventType> {
    match r
    case CdrRejected => [Rejected]
    case CdrAccepted => [Accepted] + Voids(k)
    case CdrObserved => [Observed] + Voids(k)
  }

  /** created (processing error)^n processing (rejected | (accepted | observed) voided^k) */
  function FullLog(n: nat, r: CdrStatus, k: nat): seq<EventType> {
    [Created] + Rounds(n) + [Processing] + Ending(r, k)
  }

  /** How the log of a history that ends in a given status looks. */
  predicate LogAt(s: Status, log: seq<EventType>, n: nat, r: CdrStatus, k: nat) {
    match s
    case DRAFT => false
    case PENDING => log == [Created]
    case PROCESSING => log == [Created] + Rounds(n) + [Processing]
    case SENT => log == [Created] + Rounds(n) + [Processing]
    case ERROR => n > 0 && log == [Created] + Rounds(n)
    case ACCEPTED => r == CdrAccepted && k == 0 && log == FullLog(n, r, 0)
    case OBSERVED => r == CdrObserved && k == 0 && log == FullLog(n, r, 0)
    case REJECTED => r == CdrRejected && log == FullLog(n, r, 0)
    case VOIDED => r != CdrRejected && k > 0 && log == FullLog(n, r, k)
  }

  lemma LogStep(from: Status, s: Status, log: seq<EventType>, n: nat, r: CdrStatus, k: nat)
      returns (n': nat, r': CdrStatus, k': nat)
    requires LogAt(from, log, n, r, k) && Committed(from, s)
    ensures LogAt(s, log + EventOf(Some(from), s), n', r', k')
  {
    n', r', k' := n, r, k;
    match from {
      case PENDING => n' := 0;
      case PROCESSING =>
        if s == ERROR {
          n' := n + 1;
          assert [Created] + Rounds(n) + [Processing] + [Error] == [Created] + Rounds(n');
        }
      case SENT =>
        k' := 0;
        if s == ERROR {
          n' := n + 1;
          assert [Created] + Rounds(n) + [Processing] + [Error] == [Created] + Rounds(n');
        } else {
          r' := if s == ACCEPTED then CdrAccepted else if s == OBSERVED then CdrObserved else CdrRejected;
          assert EventOf(Some(from), s) == Ending(r', 0);
        }
      case ACCEPTED => k' := 1; LogVoided(n, r, 0);
      case OBSERVED => k' := 1; LogVoided(n, r, 0);
      case VOIDED => k' := k + 1; LogVoided(n, r, k);
      case _ =>
    }
  }

  lemma LogVoided(n: nat, r: CdrStatus, k: nat)
    requires r != CdrRejected
    ensures FullLog(n, r, k) + [Voided] == FullLog(n, r, k + 1)
  {
    assert Ending(r, k) + [Voided] == Ending(r, k + 1);
  }

  lemma {:induction false} HistoryLog(p: seq<Status>) returns (n: nat, r: CdrStatus, k: nat)
    requires p != [] && p[0] == PENDING && Committable(p)
    ensures LogAt(p[|p| - 1], EventsOf(p), n, r, k)
  {
    var i := |p| - 1;
    if i == 0 {
      n, r, k := 0, CdrRejected, 0;
      assert p[..0] == [];
      assert EventsOf(p) == EventsOf([]) + [Created];
    } else {
      n, r, k := HistoryLog(p[..i]);
      n, r, k := LogStep(p[i - 1], p[i], EventsOf(p[..i]), n, r, k);
    }
  }

  /** The outbox events of a non-receipt document are its status writes with SENT and the relink
      erased, so they are a prefix of the language above, and the last one gives the status up to
      PROCESSING and SENT, which share an event. */
  lemma EventLogIsHistory(w: World, id: DocId) returns (n: nat, r: CdrStatus, k: nat)
    requires Reachable(w) && id in w.docs && w.docs[id].kind != RECEIPT
    ensures var d := w.docs[id];
            && d.outbox == EventsOf(d.writes)
            && d.outbox != [] && d.outbox <= FullLog(n, r, k)
            && (EventStatus(d.outbox[|d.outbox| - 1]) == d.status
                || (d.outbox[|d.outbox| - 1] == Processing && d.status == SENT))
  {
    ReachableInvariants(w);
    var d := w.docs[id];
    assert DocumentOk(d);
    n, r, k := HistoryLog(d.writes);
    LogReads(d.status, d.outbox, n, r, k);
  }

  lemma LogReads(s: Status, log: seq<EventType>, n: nat, r: CdrStatus, k: nat)
    requires LogAt(s, log, n, r, k)
    ensures log != [] && log <= FullLog(n, r, k)
    ensures EventStatus(log[|log| - 1]) == s || (log[|log| - 1] == Processing && s == SENT)
  {
    match s {
      case ERROR => assert Rounds(n) == Rounds(n - 1) + [Processing, Error];
      case VOIDED => assert Voids(k) == Voids(k - 1) + [Voided];
      case _ =>
    }
  }

  /** A step that adds events leaves the status that the last one announces. */
  predicate Announces(d: Document, d': Document) {
    d'.outbox == d.outbox || (d'.outbox != [] && EventStatus(d'.outbox[|d'.outbox| - 1]) == d'.status)
  }

  lemma IssueAnnounces(w: World, c: CallId, ok: bool, answer: Answer, id: DocId)
    requires c in w.calls && w.calls[c].Issue? && id in w.docs
    ensures id in NextIssue(w, c, w.calls[c], ok, answer).docs
    ensures Announces(w.docs[id], NextIssue(w, c, w.calls[c], ok, answer).docs[id])
  {
    if InPrepare(w.calls[c].ipc) {
      assert id in NextPrepare(w, c, w.calls[c], ok).docs;
    } else {
      assert id in NextSubmit(w, c, w.calls[c], ok, answer).docs;
    }
  }

  lemma {:induction false} PublishAllAnnounces(docs: map<DocId, Document>, ids: seq<DocId>, s: Status, e: EventType,
                                               id: DocId)
    requires id in docs && EventStatus(e) == s
    ensures id in PublishAll(docs, ids, s, e)
    ensures var d' := PublishAll(docs, ids, s, e)[id];
            d' == docs[id] || (d'.status == s && d'.outbox != [] && d'.outbox[|d'.outbox| - 1] == e)
    decreases |ids|
  {
    if ids != [] {
      PublishAllAnnounces(if ids[0] in docs then docs[ids[0] := docs[ids[0]].Publish(s, e)] else docs,
                          ids[1..], s, e, id);
    }
  }

  /** The outbox never refuses an event of the services: whenever a step enqueues one, for receipts too, the
      document's status is the one the event is compatible with. */
  lemma EventsMatchStatus(w: World, action: Action, id: DocId)
    requires id in w.docs
    ensures id in Next(w, action).docs && Announces(w.docs[id], Next(w, action).docs[id])
  {
    if action.Advance? && action.c in w.calls {
      var c := action.c;
      match w.calls[c] {
        case Issue(_, _, _) => IssueAnnounces(w, c, action.ok, action.answer, id);
        case Send(_, _, _, _) =>
        case Refresh(_, m, pc) =>
          if pc.Committing? && m in w.comms {
            var s := ClosingStatus(w.comms[m].kind, pc.result);
            if s.Some? { PublishAllAnnounces(w.docs, pc.docs, s.value, ClosingEvent(s.value), id); }
          }
      }
    }
  }

  // ----- Artifacts ----------------------------------------------------------------------------

  /** Whatever a document, summary or void communication links exists in storage; and no unfinished
      call is able to delete it, because what a call may still delete is linked nowhere. */
  lemma NoDanglingArtifacts(w: World)
    requires Reachable(w)
    ensures forall id :: id in w.docs ==> w.docs[id].Artifacts() <= w.stored
    ensures forall m :: m in w.comms ==> w.comms[m].Artifacts() <= w.stored
    ensures forall c, id :: c in w.calls && id in w.docs ==> Held(w.calls[c]) !! w.docs[id].Artifacts()
    ensures forall c, m :: c in w.calls && m in w.comms ==> Held(w.calls[c]) !! w.comms[m].Artifacts()
  {
    ReachableInvariants(w);
    forall id | id in w.docs
      ensures w.docs[id].Artifacts() <= Linked(w)
    {
    }
    forall m | m in w.comms
      ensures w.comms[m].Artifacts() <= Linked(w)
    {
    }
  }
}
