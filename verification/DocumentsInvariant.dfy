/** The ownership, history and artifact invariants of document processing, kept by every action. */
module DocumentsInvariant {
  import opened Common
  import opened Lifecycle
  import opened Documents

  /** The status a call relies on at each program point after it won the prepare lock. */
  function OwnedStatus(pc: IssuePc): Option<Status> {
    match pc
    case Reading => None
    case Locking(_) => None
    case Generating => Some(PROCESSING)
    case XmlSaved(_) => Some(PROCESSING)
    case Linking(_, _) => Some(PROCESSING)
    case DroppingZip(_, _) => Some(PROCESSING)
    case DroppingXml(_) => Some(PROCESSING)
    case MarkingPrepareError => Some(PROCESSING)
    case Prepared => Some(PROCESSING)
    case Submitting(_) => Some(PROCESSING)
    case Sending(_) => Some(SENT)
    case Answered(_) => Some(SENT)
    case Recording(_, _) => Some(SENT)
    case DroppingCdr(_) => Some(SENT)
    case MarkingSubmitError => Some(SENT)
  }

  /** The call is past the prepare lock of the document and has not finished. */
  predicate HoldsLock(call: Call, id: DocId) {
    call.Issue? && call.doc == id && OwnedStatus(call.ipc).Some?
  }

  // ----- History ------------------------------------------------------------------------------

  /** The event a write publishes after the write before it: none for SENT and for the relink. */
  function EventOf(previous: Option<Status>, s: Status): seq<EventType> {
    match s
    case PENDING => [Created]
    case PROCESSING => if previous == Some(PROCESSING) then [] else [Processing]
    case ACCEPTED => [Accepted]
    case OBSERVED => [Observed]
    case REJECTED => [Rejected]
    case VOIDED => [Voided]
    case ERROR => [Error]
    case SENT => []
    case DRAFT => []
  }

  /** The write history with SENT and the relink self-loop erased, as events. */
  function EventsOf(writes: seq<Status>): seq<EventType> {
    if writes == [] then []
    else
      var n := |writes| - 1;
      EventsOf(writes[..n]) + EventOf(if n == 0 then None else Some(writes[n - 1]), writes[n])
  }

  /** A committed write: an edge of the table, the relink of a locked row, or a repeated void. */
  predicate Committed(from: Status, to: Status) {
    to in AllowedTransitions(from) || (from == to && from in {PROCESSING, VOIDED})
  }

  predicate Committable(p: seq<Status>) {
    forall i :: 0 < i < |p| ==> Committed(p[i - 1], p[i])
  }

  predicate DocumentOk(d: Document) {
    && d.writes != []
    && d.writes[|d.writes| - 1] == d.status
    && (d.kind != RECEIPT ==>
          d.writes[0] == PENDING && Committable(d.writes) && d.outbox == EventsOf(d.writes))
  }

  // ----- Ownership ----------------------------------------------------------------------------

  /** What a communication knows about its documents at any later time. */
  predicate Covers(w: World, company: CompanyId, kind: TicketKind, ids: seq<DocId>) {
    forall id :: id in ids ==>
      && w.Owns(company, id)
      && (w.docs[id].kind == RECEIPT <==> kind == DailySummary)
      && (kind == VoidCommunication ==> w.docs[id].status in {ACCEPTED, OBSERVED, VOIDED})
  }

  predicate IssueOk(w: World, call: Call)
    requires call.Issue?
  {
    && (call.ipc.Locking? ==> call.ipc.seen in PREPARABLE)
    && (OwnedStatus(call.ipc).Some? ==>
          && w.Owns(call.company, call.doc)
          && (w.docs[call.doc].kind != RECEIPT ==> w.docs[call.doc].status == OwnedStatus(call.ipc).value)
          && (call.ipc.Prepared? && w.docs[call.doc].kind != RECEIPT ==> w.docs[call.doc].zip.Some?)
          && (call.ipc.Submitting? || call.ipc.Sending? ==> w.docs[call.doc].zip == Some(call.ipc.z))
          && (call.ipc.Submitting? || OwnedStatus(call.ipc) == Some(SENT) ==> w.docs[call.doc].kind != RECEIPT))
  }

  predicate SendOk(w: World, call: Call)
    requires call.Send?
  {
    match call.spc
    case Selecting => true
    case Inserting => Covers(w, call.company, call.kind, call.ids)
    case Packing(m) => m in w.comms
    case Delivering(m, _) => m in w.comms
    case DroppingPack(m, _) => m in w.comms
    case MarkingSendError(m) => m in w.comms
  }

  predicate RefreshOk(w: World, call: Call)
    requires call.Refresh?
  {
    match call.rpc
    case ReadingTicket => true
    case Polling(ids) => call.comm in w.comms && w.comms[call.comm].docs == ids
    case SavingCdr(ids, _) => call.comm in w.comms && w.comms[call.comm].docs == ids
    case Checking(ids, r, _) =>
      call.comm in w.comms && w.comms[call.comm].docs == ids && w.comms[call.comm].kind == VoidCommunication
      && r != CdrRejected
    case Committing(ids, _, _) => call.comm in w.comms && w.comms[call.comm].docs == ids
    case DroppingAnswer(_) => true
  }

  predicate CallOk(w: World, call: Call) {
    match call
    case Issue(_, _, _) => IssueOk(w, call)
    case Send(_, _, _, _) => SendOk(w, call)
    case Refresh(_, _, _) => RefreshOk(w, call)
  }

  predicate OneOwner(w: World) {
    forall c1, c2 :: c1 in w.calls && c2 in w.calls && w.calls[c1].Issue? && HoldsLock(w.calls[c2], w.calls[c1].doc)
                     && HoldsLock(w.calls[c1], w.calls[c1].doc)
                     && w.Owns(w.calls[c1].company, w.calls[c1].doc) && w.docs[w.calls[c1].doc].kind != RECEIPT
                     ==> c1 == c2
  }

  predicate StatusInv(w: World) {
    && (forall id :: id in w.docs ==> DocumentOk(w.docs[id]))
    && (forall c :: c in w.calls ==> CallOk(w, w.calls[c]))
    && (forall m :: m in w.comms ==> m < w.nextComm && Covers(w, w.comms[m].company, w.comms[m].kind, w.comms[m].docs))
    && OneOwner(w)
  }

  // ----- Preservation -------------------------------------------------------------------------

  lemma PathExtends(p: seq<Status>, s: Status)
    requires p != [] && Committable(p) && Committed(p[|p| - 1], s)
    ensures Committable(p + [s])
  {
  }

  lemma EventsExtend(p: seq<Status>, s: Status)
    ensures EventsOf(p + [s]) == EventsOf(p) + EventOf(if p == [] then None else Some(p[|p| - 1]), s)
  {
    var q := p + [s];
    assert q[..|p|] == p && q[|p|] == s;
    if p != [] { assert q[|p| - 1] == p[|p| - 1]; }
  }

  lemma DocumentWrite(d: Document, s: Status)
    requires DocumentOk(d)
    requires d.kind != RECEIPT ==> Committed(d.status, s) && EventOf(Some(d.status), s) == []
    ensures DocumentOk(d.Write(s))
  {
    if d.kind != RECEIPT {
      PathExtends(d.writes, s);
      EventsExtend(d.writes, s);
    }
  }

  lemma DocumentPublish(d: Document, s: Status, e: EventType)
    requires DocumentOk(d)
    requires d.kind != RECEIPT ==> Committed(d.status, s) && EventOf(Some(d.status), s) == [e]
    ensures DocumentOk(d.Publish(s, e))
  {
    if d.kind != RECEIPT {
      PathExtends(d.writes, s);
      EventsExtend(d.writes, s);
    }
  }

  /** At most one row changes, keeping its company and kind; a non-receipt row that changes was not yet
      accepted, observed or voided. */
  predicate OneRowMoves(w: World, w': World, id: DocId) {
    && w'.comms == w.comms
    && w'.nextComm == w.nextComm
    && w'.docs.Keys == w.docs.Keys
    && (forall k :: k in w.docs && k != id ==> w'.docs[k] == w.docs[k])
    && (id in w.docs ==>
          && w'.docs[id].kind == w.docs[id].kind
          && w'.docs[id].company == w.docs[id].company
          && (w'.docs[id] != w.docs[id] && w.docs[id].kind != RECEIPT ==>
              w.docs[id].status in {PENDING, ERROR, PROCESSING, SENT}))
  }

  lemma CoversMoves(w: World, w': World, id: DocId, company: CompanyId, kind: TicketKind, ids: seq<DocId>)
    requires OneRowMoves(w, w', id)
    requires Covers(w, company, kind, ids)
    ensures Covers(w', company, kind, ids)
  {
    forall k | k in ids
      ensures w'.Owns(company, k) && (w'.docs[k].kind == RECEIPT <==> kind == DailySummary)
              && (kind == VoidCommunication ==> w'.docs[k].status in {ACCEPTED, OBSERVED, VOIDED})
    {
      assert w.Owns(company, k);
    }
  }

  /** A call that does not hold the changed row keeps what it relies on. */
  lemma OtherCallKeeps(w: World, w': World, id: DocId, other: Call)
    requires OneRowMoves(w, w', id)
    requires CallOk(w, other)
    requires id in w.docs && w'.docs[id] != w.docs[id] && w.docs[id].kind != RECEIPT ==> !HoldsLock(other, id)
    ensures CallOk(w', other)
  {
    match other {
      case Issue(_, _, _) =>
      case Send(company, kind, ids, spc) =>
        if spc.Inserting? { CoversMoves(w, w', id, company, kind, ids); }
      case Refresh(_, _, _) =>
    }
  }

  lemma OthersStay(w: World, w': World, c: CallId, k: CallId)
    requires w'.calls - {c} == w.calls - {c} && k != c
    ensures k in w'.calls <==> k in w.calls
    ensures k in w.calls ==> w'.calls[k] == w.calls[k]
  {
    assert k in w'.calls <==> k in w'.calls - {c};
    assert k in w.calls <==> k in w.calls - {c};
    if k in w.calls {
      assert (w'.calls - {c})[k] == (w.calls - {c})[k];
    }
  }

  /** Only the call c moves, on the same document, to a program point it may stand at. */
  predicate CallMoves(w: World, w': World, c: CallId)
    requires c in w.calls && w.calls[c].Issue?
  {
    && (c in w'.calls ==> w'.calls[c].Issue? && w'.calls[c].doc == w.calls[c].doc && IssueOk(w', w'.calls[c]))
    && w'.calls - {c} == w.calls - {c}
  }

  /** Changing one row by the call that holds it, or that just won its lock, keeps the invariant. */
  lemma MoveKeeps(w: World, w': World, c: CallId)
    requires StatusInv(w) && c in w.calls && w.calls[c].Issue?
    requires OneRowMoves(w, w', w.calls[c].doc)
    requires w.calls[c].doc in w.docs ==> DocumentOk(w'.docs[w.calls[c].doc])
    requires CallMoves(w, w', c)
    requires MayMove(w, w', c)
    ensures StatusInv(w')
  {
    var id := w.calls[c].doc;
    forall m | m in w'.comms
      ensures m < w'.nextComm && Covers(w', w'.comms[m].company, w'.comms[m].kind, w'.comms[m].docs)
    {
      CoversMoves(w, w', id, w.comms[m].company, w.comms[m].kind, w.comms[m].docs);
    }
    forall k | k in w'.calls
      ensures CallOk(w', w'.calls[k])
    {
      if k != c {
        OthersStay(w, w', c, k);
        assert CallOk(w, w.calls[k]);
        NoRival(w, w', c, k);
        OtherCallKeeps(w, w', id, w.calls[k]);
      }
    }
    OneOwnerKeeps(w, w', c);
  }

  /** The moving call either held the non-receipt row already or found it unlocked. */
  predicate MayMove(w: World, w': World, c: CallId)
    requires c in w.calls && w.calls[c].Issue? && OneRowMoves(w, w', w.calls[c].doc)
  {
    var id := w.calls[c].doc;
    && id in w.docs && w.docs[id].kind != RECEIPT
    && (w'.docs[id] != w.docs[id] || (c in w'.calls && HoldsLock(w'.calls[c], id)))
    ==> HoldsLock(w.calls[c], id) || w.docs[id].status in PREPARABLE
  }

  lemma NoRival(w: World, w': World, c: CallId, k: CallId)
    requires StatusInv(w) && c in w.calls && w.calls[c].Issue? && OneRowMoves(w, w', w.calls[c].doc)
    requires MayMove(w, w', c) && k in w.calls && k != c
    ensures var id := w.calls[c].doc;
            id in w.docs && w.docs[id].kind != RECEIPT
            && (w'.docs[id] != w.docs[id] || (c in w'.calls && HoldsLock(w'.calls[c], id)))
            ==> !HoldsLock(w.calls[k], id)
  {
    assert CallOk(w, w.calls[k]);
    assert CallOk(w, w.calls[c]);
  }

  lemma OneOwnerKeeps(w: World, w': World, c: CallId)
    requires StatusInv(w) && c in w.calls && w.calls[c].Issue? && OneRowMoves(w, w', w.calls[c].doc)
    requires MayMove(w, w', c)
    requires CallMoves(w, w', c)
    ensures OneOwner(w')
  {
    forall c1, c2 | c1 in w'.calls && c2 in w'.calls && w'.calls[c1].Issue? && HoldsLock(w'.calls[c2], w'.calls[c1].doc)
                    && HoldsLock(w'.calls[c1], w'.calls[c1].doc)
                    && w'.Owns(w'.calls[c1].company, w'.calls[c1].doc) && w'.docs[w'.calls[c1].doc].kind != RECEIPT
      ensures c1 == c2
    {
      if c1 != c2 {
        if c1 != c { OthersStay(w, w', c, c1); }
        if c2 != c { OthersStay(w, w', c, c2); }
        if c1 == c { NoRival(w, w', c, c2); }
        else if c2 == c { NoRival(w, w', c, c1); }
      }
    }
  }

  predicate Moves(w: World, w': World, c: CallId)
    requires c in w.calls && w.calls[c].Issue?
  {
    && OneRowMoves(w, w', w.calls[c].doc)
    && MayMove(w, w', c)
  }

  lemma PrepareMoves(w: World, c: CallId, ok: bool)
    requires c in w.calls && w.calls[c].Issue? && IssueOk(w, w.calls[c]) && InPrepare(w.calls[c].ipc)
    ensures Moves(w, NextPrepare(w, c, w.calls[c], ok), c)
  {
  }

  lemma SubmitMoves(w: World, c: CallId, ok: bool, answer: Answer)
    requires c in w.calls && w.calls[c].Issue? && IssueOk(w, w.calls[c]) && !InPrepare(w.calls[c].ipc)
    ensures Moves(w, NextSubmit(w, c, w.calls[c], ok, answer), c)
  {
  }

  lemma PrepareRow(w: World, c: CallId, ok: bool)
    requires c in w.calls && w.calls[c].Issue? && IssueOk(w, w.calls[c]) && InPrepare(w.calls[c].ipc)
             && w.calls[c].doc in w.docs
    requires DocumentOk(w.docs[w.calls[c].doc])
    ensures w.calls[c].doc in NextPrepare(w, c, w.calls[c], ok).docs
    ensures DocumentOk(NextPrepare(w, c, w.calls[c], ok).docs[w.calls[c].doc])
  {
    var call := w.calls[c];
    var d := w.docs[call.doc];
    match call.ipc {
      case Locking(seen) => if d.status == seen { DocumentPublish(d, PROCESSING, Processing); }
      case Linking(x, z) => DocumentWrite(d, PROCESSING);
      case MarkingPrepareError => DocumentPublish(d, ERROR, Error);
      case _ =>
    }
  }

  lemma SubmitRow(w: World, c: CallId, ok: bool, answer: Answer)
    requires c in w.calls && w.calls[c].Issue? && IssueOk(w, w.calls[c]) && !InPrepare(w.calls[c].ipc)
             && w.calls[c].doc in w.docs
    requires DocumentOk(w.docs[w.calls[c].doc])
    ensures w.calls[c].doc in NextSubmit(w, c, w.calls[c], ok, answer).docs
    ensures DocumentOk(NextSubmit(w, c, w.calls[c], ok, answer).docs[w.calls[c].doc])
  {
    var call := w.calls[c];
    var d := w.docs[call.doc];
    match call.ipc {
      case Submitting(_) => if d.status == PROCESSING { DocumentWrite(d, SENT); }
      case Recording(r, _) => DocumentPublish(d, ResultStatus(r), ResultEvent(ResultStatus(r)));
      case MarkingSubmitError => if d.status == SENT { DocumentPublish(d, ERROR, Error); }
      case _ =>
    }
  }

  lemma PrepareCall(w: World, c: CallId, ok: bool)
    requires c in w.calls && w.calls[c].Issue? && IssueOk(w, w.calls[c]) && InPrepare(w.calls[c].ipc)
    ensures CallMoves(w, NextPrepare(w, c, w.calls[c], ok), c)
  {
  }

  lemma SubmitCall(w: World, c: CallId, ok: bool, answer: Answer)
    requires c in w.calls && w.calls[c].Issue? && IssueOk(w, w.calls[c]) && !InPrepare(w.calls[c].ipc)
    ensures CallMoves(w, NextSubmit(w, c, w.calls[c], ok, answer), c)
  {
  }

  lemma PrepareKeeps(w: World, c: CallId, ok: bool)
    requires StatusInv(w) && c in w.calls && w.calls[c].Issue? && InPrepare(w.calls[c].ipc)
    ensures StatusInv(NextPrepare(w, c, w.calls[c], ok))
  {
    assert CallOk(w, w.calls[c]);
    PrepareMoves(w, c, ok);
    PrepareCall(w, c, ok);
    if w.calls[c].doc in w.docs { PrepareRow(w, c, ok); }
    MoveKeeps(w, NextPrepare(w, c, w.calls[c], ok), c);
  }

  lemma SubmitKeeps(w: World, c: CallId, ok: bool, answer: Answer)
    requires StatusInv(w) && c in w.calls && w.calls[c].Issue? && !InPrepare(w.calls[c].ipc)
    ensures StatusInv(NextSubmit(w, c, w.calls[c], ok, answer))
  {
    assert CallOk(w, w.calls[c]);
    SubmitMoves(w, c, ok, answer);
    SubmitCall(w, c, ok, answer);
    if w.calls[c].doc in w.docs { SubmitRow(w, c, ok, answer); }
    MoveKeeps(w, NextSubmit(w, c, w.calls[c], ok, answer), c);
  }

  // ----- Communications -----------------------------------------------------------------------

  /** The closing write of one document: a receipt takes the summary's result, a voidable or already
      voided document becomes VOIDED. No call relies on such a row. */
  lemma ClosingWriteKeeps(w: World, id: DocId, s: Status, e: EventType)
    requires StatusInv(w) && id in w.docs
    requires w.docs[id].kind != RECEIPT ==>
             s == VOIDED && e == Voided && w.docs[id].status in {ACCEPTED, OBSERVED, VOIDED}
    ensures StatusInv(w.SetDoc(id, w.docs[id].Publish(s, e)))
  {
    var w' := w.SetDoc(id, w.docs[id].Publish(s, e));
    DocumentPublish(w.docs[id], s, e);
    forall company, kind, ids | Covers(w, company, kind, ids)
      ensures Covers(w', company, kind, ids)
    {
    }
    forall k | k in w'.calls
      ensures CallOk(w', w'.calls[k])
    {
      assert CallOk(w, w.calls[k]);
    }
  }

  lemma {:induction false} PublishAllKeeps(w: World, company: CompanyId, kind: TicketKind, ids: seq<DocId>, s: Status)
    requires StatusInv(w) && Covers(w, company, kind, ids)
    requires kind == VoidCommunication ==> s == VOIDED
    ensures StatusInv(w.(docs := PublishAll(w.docs, ids, s, ClosingEvent(s))))
    ensures PublishAll(w.docs, ids, s, ClosingEvent(s)).Keys == w.docs.Keys
    decreases |ids|
  {
    if ids != [] {
      var id := ids[0];
      assert id in ids && w.Owns(company, id);
      ClosingWriteKeeps(w, id, s, ClosingEvent(s));
      var w' := w.SetDoc(id, w.docs[id].Publish(s, ClosingEvent(s)));
      CoversTail(w, company, kind, ids, s);
      PublishAllKeeps(w', company, kind, ids[1..], s);
      PublishAllUnfolds(w, ids, s, ClosingEvent(s));
    }
  }

  lemma PublishAllUnfolds(w: World, ids: seq<DocId>, s: Status, e: EventType)
    requires ids != [] && ids[0] in w.docs
    ensures var w' := w.SetDoc(ids[0], w.docs[ids[0]].Publish(s, e));
            w.(docs := PublishAll(w.docs, ids, s, e)) == w'.(docs := PublishAll(w'.docs, ids[1..], s, e))
  {
  }

  lemma CoversTail(w: World, company: CompanyId, kind: TicketKind, ids: seq<DocId>, s: Status)
    requires Covers(w, company, kind, ids) && ids != [] && ids[0] in w.docs
    requires kind == VoidCommunication ==> s == VOIDED
    ensures Covers(w.SetDoc(ids[0], w.docs[ids[0]].Publish(s, ClosingEvent(s))), company, kind, ids[1..])
  {
    assert forall k :: k in ids[1..] ==> k in ids;
  }

  /** Calls of communications change no document row; they only add or update communications. */
  predicate CommsMove(w: World, w': World, c: CallId) {
    && w'.docs == w.docs
    && w'.calls - {c} == w.calls - {c}
    && (c in w'.calls ==> !w'.calls[c].Issue? && CallOk(w', w'.calls[c]))
    && w.nextComm <= w'.nextComm
    && (forall m :: m in w.comms ==> && m in w'.comms
                                     && w'.comms[m].docs == w.comms[m].docs
                                     && w'.comms[m].kind == w.comms[m].kind
                                     && w'.comms[m].company == w.comms[m].company)
    && (forall m :: m in w'.comms && m !in w.comms ==>
          m < w'.nextComm && Covers(w, w'.comms[m].company, w'.comms[m].kind, w'.comms[m].docs))
  }

  lemma CommsMoveKeeps(w: World, w': World, c: CallId)
    requires StatusInv(w) && CommsMove(w, w', c)
    ensures StatusInv(w')
  {
    forall k | k in w'.calls
      ensures CallOk(w', w'.calls[k])
    {
      if k != c {
        OthersStay(w, w', c, k);
        assert CallOk(w, w.calls[k]);
      }
    }
    forall m | m in w'.comms
      ensures m < w'.nextComm && Covers(w', w'.comms[m].company, w'.comms[m].kind, w'.comms[m].docs)
    {
      if m in w.comms { assert Covers(w, w.comms[m].company, w.comms[m].kind, w.comms[m].docs); }
    }
    forall c1, c2 | c1 in w'.calls && c2 in w'.calls && w'.calls[c1].Issue? && HoldsLock(w'.calls[c2], w'.calls[c1].doc)
                    && HoldsLock(w'.calls[c1], w'.calls[c1].doc)
                    && w'.Owns(w'.calls[c1].company, w'.calls[c1].doc) && w'.docs[w'.calls[c1].doc].kind != RECEIPT
      ensures c1 == c2
    {
      OthersStay(w, w', c, c1);
      OthersStay(w, w', c, c2);
    }
  }

  lemma SendMoves(w: World, c: CallId, ok: bool)
    requires c in w.calls && w.calls[c].Send? && SendOk(w, w.calls[c])
    requires w.nextComm !in w.comms
    ensures CommsMove(w, NextSend(w, c, w.calls[c], ok), c)
  {
    var w' := NextSend(w, c, w.calls[c], ok);
    match w.calls[c].spc {
      case Inserting => assert CommsMove(w, w', c);
      case Delivering(_, _) => assert CommsMove(w, w', c);
      case MarkingSendError(_) => assert CommsMove(w, w', c);
      case _ => assert w'.comms == w.comms;
    }
  }

  lemma RefreshMoves(w: World, c: CallId, ok: bool, answer: Answer)
    requires c in w.calls && w.calls[c].Refresh? && RefreshOk(w, w.calls[c])
    ensures var w' := NextRefresh(w, c, w.calls[c], ok, answer);
            CommsMove(w, if w.calls[c].rpc.Committing? then w'.(docs := w.docs) else w', c)
  {
  }

  lemma RefreshKeeps(w: World, c: CallId, ok: bool, answer: Answer)
    requires StatusInv(w) && c in w.calls && w.calls[c].Refresh?
    ensures StatusInv(NextRefresh(w, c, w.calls[c], ok, answer))
  {
    var call := w.calls[c];
    assert CallOk(w, call);
    RefreshMoves(w, c, ok, answer);
    var w' := NextRefresh(w, c, call, ok, answer);
    if call.rpc.Committing? {
      var mid := w'.(docs := w.docs);
      CommsMoveKeeps(w, mid, c);
      if w' != mid {
        var m := w.comms[call.comm];
        var s := ClosingStatus(m.kind, call.rpc.result);
        assert Covers(w, m.company, m.kind, m.docs);
        CoversSameRows(w, mid, m.company, m.kind, m.docs);
        PublishAllKeeps(mid, m.company, m.kind, m.docs, s.value);
        assert w' == mid.(docs := PublishAll(mid.docs, m.docs, s.value, ClosingEvent(s.value)));
      }
    } else {
      CommsMoveKeeps(w, w', c);
    }
  }

  lemma CoversSameRows(w: World, w': World, company: CompanyId, kind: TicketKind, ids: seq<DocId>)
    requires Covers(w, company, kind, ids) && w'.docs == w.docs
    ensures Covers(w', company, kind, ids)
  {
  }

  lemma CreateKeeps(w: World, id: DocId, company: CompanyId, kind: DocType, reference: bool)
    requires StatusInv(w) && id !in w.docs
    ensures StatusInv(w.SetDoc(id, NewDocument(company, kind, reference)))
  {
    var w' := w.SetDoc(id, NewDocument(company, kind, reference));
    assert [PENDING][..0] == [];
    assert EventsOf([PENDING]) == EventsOf([]) + [Created];
    forall k | k in w'.calls
      ensures CallOk(w', w'.calls[k])
    {
      assert CallOk(w, w.calls[k]);
    }
    forall m | m in w'.comms
      ensures Covers(w', w'.comms[m].company, w'.comms[m].kind, w'.comms[m].docs)
    {
      assert Covers(w, w.comms[m].company, w.comms[m].kind, w.comms[m].docs);
    }
  }

  lemma NextKeepsStatus(w: World, action: Action)
    requires StatusInv(w)
    ensures StatusInv(Next(w, action))
  {
    match action {
      case CreateDocument(id, company, kind, reference) =>
        if id !in w.docs { CreateKeeps(w, id, company, kind, reference); }
      case BeginIssue(c, _, _) => BeginKeeps(w, Next(w, action), c);
      case BeginSend(c, _, _, _) => BeginKeeps(w, Next(w, action), c);
      case BeginRefresh(c, _, _) => BeginKeeps(w, Next(w, action), c);
      case Advance(c, ok, answer) =>
        if c in w.calls {
          match w.calls[c] {
            case Issue(_, _, pc) =>
              if InPrepare(pc) { PrepareKeeps(w, c, ok); } else { SubmitKeeps(w, c, ok, answer); }
            case Send(_, _, _, _) =>
              assert CallOk(w, w.calls[c]) && w.nextComm !in w.comms;
              SendMoves(w, c, ok);
              CommsMoveKeeps(w, Next(w, action), c);
            case Refresh(_, _, _) => RefreshKeeps(w, c, ok, answer);
          }
        }
      case Crash(c) => CommsMoveKeeps(w, w.End(c), c);
    }
  }

  lemma BeginKeeps(w: World, w': World, c: CallId)
    requires StatusInv(w)
    requires w' == w || (c !in w.calls && c in w'.calls && w' == w.Goto(c, w'.calls[c])
                         && (w'.calls[c].Issue? ==> w'.calls[c].ipc == Reading)
                         && (w'.calls[c].Send? ==> w'.calls[c].spc == Selecting)
                         && (w'.calls[c].Refresh? ==> w'.calls[c].rpc == ReadingTicket))
    ensures StatusInv(w')
  {
    forall k | k in w'.calls
      ensures CallOk(w', w'.calls[k])
    {
      if k in w.calls { assert CallOk(w, w.calls[k]); }
    }
    forall m | m in w'.comms
      ensures Covers(w', w'.comms[m].company, w'.comms[m].kind, w'.comms[m].docs)
    {
      assert Covers(w, w.comms[m].company, w.comms[m].kind, w.comms[m].docs);
    }
  }

  lemma {:induction false} RunKeepsStatus(w: World, actions: seq<Action>)
    requires StatusInv(w)
    ensures StatusInv(Run(w, actions))
  {
    if actions != [] {
      RunKeepsStatus(w, actions[..|actions| - 1]);
      NextKeepsStatus(Run(w, actions[..|actions| - 1]), actions[|actions| - 1]);
    }
  }
}
