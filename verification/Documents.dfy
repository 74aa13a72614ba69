/** The shared state of document processing (document rows with their transactional outbox events,
    void communications and daily summaries, stored artifacts) and the atomic database and storage
    steps by which concurrent service calls change it.

    A run is any sequence of actions; an action that is not enabled changes nothing. A call may
    crash between any two of its steps. A database statement either commits and returns, or fails
    with no effect (`ok` is false). The answers of SUNAT are chosen by the environment. */
module Documents {
  import opened Common
  import opened Lifecycle
  import Runs

  type CompanyId = nat
  type DocId = nat
  type CommId = nat
  type ArtifactId = nat
  type CallId = nat

  datatype DocType = INVOICE | RECEIPT | CREDIT_NOTE | DEBIT_NOTE

  datatype EventType = Created | Processing | Accepted | Observed | Rejected | Voided | Error

  /** The status each public event is compatible with. */
  function EventStatus(e: EventType): Status {
    match e
    case Created => PENDING
    case Processing => PROCESSING
    case Accepted => ACCEPTED
    case Observed => OBSERVED
    case Rejected => REJECTED
    case Voided => VOIDED
    case Error => ERROR
  }

  /** A document row. `writes` is the history of every committed write that names a status;
      `outbox` is the document's outbox events in commit order. */
  datatype Document = Document(
    company: CompanyId, kind: DocType, reference: bool, status: Status,
    xml: Option<ArtifactId>, zip: Option<ArtifactId>, cdr: Option<ArtifactId>,
    writes: seq<Status>, outbox: seq<EventType>)
  {
    function Artifacts(): set<ArtifactId> {
      Elements(xml) + Elements(zip) + Elements(cdr)
    }

    function Write(s: Status): Document {
      this.(status := s, writes := writes + [s])
    }

    /** The status write and the event insert of one transaction. */
    function Publish(s: Status, e: EventType): Document {
      Write(s).(outbox := outbox + [e])
    }
  }

  datatype TicketKind = DailySummary | VoidCommunication
  datatype TicketStatus = TicketPending | TicketSent | TicketAccepted | TicketRejected | TicketError

  /** A daily summary or a void communication row. */
  datatype Communication = Communication(
    company: CompanyId, kind: TicketKind, docs: seq<DocId>, status: TicketStatus, ticket: bool,
    zip: Option<ArtifactId>, cdr: Option<ArtifactId>)
  {
    function Artifacts(): set<ArtifactId> {
      Elements(zip) + Elements(cdr)
    }
  }

  /** The status parsed from a CDR. */
  datatype CdrStatus = CdrAccepted | CdrObserved | CdrRejected

  function ResultStatus(r: CdrStatus): Status {
    match r
    case CdrAccepted => ACCEPTED
    case CdrObserved => OBSERVED
    case CdrRejected => REJECTED
  }

  function ResultEvent(s: Status): EventType {
    if s == ACCEPTED then Accepted else if s == OBSERVED then Observed else Rejected
  }

  /** What SUNAT answers: nothing usable yet, a terminal answer without CDR, or a CDR. */
  datatype Answer = NoAnswer | Ended | Cdr(result: CdrStatus)

  /** Program points of `issue`: `prepare` up to Prepared, then `submit`. The point names the
      statement that comes next and carries the local variables. */
  datatype IssuePc =
    | Reading
    | Locking(seen: Status)
    | Generating
    | XmlSaved(x: ArtifactId)
    | Linking(x: ArtifactId, z: ArtifactId)
    | DroppingZip(xml: Option<ArtifactId>, zip: Option<ArtifactId>)
    | DroppingXml(xml: Option<ArtifactId>)
    | MarkingPrepareError
    | Prepared
    | Submitting(z: ArtifactId)
    | Sending(z: ArtifactId)
    | Answered(result: CdrStatus)
    | Recording(result: CdrStatus, a: ArtifactId)
    | DroppingCdr(cdr: Option<ArtifactId>)
    | MarkingSubmitError

  /** Program points of `createAndSend` of both communication services. */
  datatype SendPc =
    | Selecting
    | Inserting
    | Packing(comm: CommId)
    | Delivering(comm: CommId, z: ArtifactId)
    | DroppingPack(comm: CommId, zip: Option<ArtifactId>)
    | MarkingSendError(comm: CommId)

  /** Program points of `refreshStatus` of both communication services. */
  datatype RefreshPc =
    | ReadingTicket
    | Polling(docs: seq<DocId>)
    | SavingCdr(docs: seq<DocId>, result: CdrStatus)
    | Checking(docs: seq<DocId>, result: CdrStatus, a: ArtifactId)
    | Committing(docs: seq<DocId>, result: CdrStatus, a: ArtifactId)
    | DroppingAnswer(a: ArtifactId)

  datatype Call =
    | Issue(company: CompanyId, doc: DocId, ipc: IssuePc)
    | Send(company: CompanyId, kind: TicketKind, ids: seq<DocId>, spc: SendPc)
    | Refresh(company: CompanyId, comm: CommId, rpc: RefreshPc)

  datatype World = World(
    docs: map<DocId, Document>, comms: map<CommId, Communication>, nextComm: CommId,
    stored: set<ArtifactId>, nextArtifact: ArtifactId, calls: map<CallId, Call>)
  {
    function End(c: CallId): World {
      this.(calls := calls - {c})
    }

    function Goto(c: CallId, call: Call): World {
      this.(calls := calls[c := call])
    }

    function SetDoc(id: DocId, d: Document): World {
      this.(docs := docs[id := d])
    }

    function SetComm(id: CommId, m: Communication): World {
      this.(comms := comms[id := m])
    }

    /** `storage.save`: a new artifact under an identifier never used before. */
    function Save(): World {
      this.(stored := stored + {nextArtifact}, nextArtifact := nextArtifact + 1)
    }

    /** `storage.delete(...).catch(() => false)`: may silently leave the artifact. */
    function Drop(a: Option<ArtifactId>, ok: bool): World {
      if a.Some? && ok then this.(stored := stored - {a.value}) else this
    }

    predicate Owns(company: CompanyId, id: DocId) {
      id in docs && docs[id].company == company
    }
  }

  const EMPTY_WORLD := World(map[], map[], 0, {}, 0, map[])

  datatype Action =
    | CreateDocument(doc: DocId, company: CompanyId, kind: DocType, reference: bool)
    | BeginIssue(c: CallId, company: CompanyId, doc: DocId)
    | BeginSend(c: CallId, company: CompanyId, ticketKind: TicketKind, ids: seq<DocId>)
    | BeginRefresh(c: CallId, company: CompanyId, comm: CommId)
    | Advance(c: CallId, ok: bool, answer: Answer)
    | Crash(c: CallId)

  const PREPARABLE: set<Status> := {PENDING, ERROR}

  function NewDocument(company: CompanyId, kind: DocType, reference: bool): Document {
    Document(company, kind, reference, PENDING, None, None, None, [PENDING], [Created])
  }

  predicate InPrepare(pc: IssuePc) {
    match pc
    case Reading => true
    case Locking(_) => true
    case Generating => true
    case XmlSaved(_) => true
    case Linking(_, _) => true
    case DroppingZip(_, _) => true
    case DroppingXml(_) => true
    case MarkingPrepareError => true
    case _ => false
  }

  /** One step of `prepare`. */
  function NextPrepare(w: World, c: CallId, call: Call, ok: bool): World
    requires call.Issue? && InPrepare(call.ipc)
  {
    var id := call.doc;
    match call.ipc
    case Reading =>
      if !ok || !w.Owns(call.company, id) then w.End(c)
      else if w.docs[id].status !in PREPARABLE then w.End(c)
      else if w.docs[id].kind in {CREDIT_NOTE, DEBIT_NOTE} && !w.docs[id].reference then w.End(c)
      else w.Goto(c, call.(ipc := Locking(w.docs[id].status)))
    case Locking(seen) =>
      if !ok || !w.Owns(call.company, id) || w.docs[id].status != seen then w.End(c)
      else w.SetDoc(id, w.docs[id].Publish(PROCESSING, Processing)).Goto(c, call.(ipc := Generating))
    case Generating =>
      if !ok then w.Goto(c, call.(ipc := DroppingZip(None, None)))
      else w.Save().Goto(c, call.(ipc := XmlSaved(w.nextArtifact)))
    case XmlSaved(x) =>
      if !ok then w.Goto(c, call.(ipc := DroppingZip(Some(x), None)))
      else w.Save().Goto(c, call.(ipc := Linking(x, w.nextArtifact)))
    case Linking(x, z) =>
      if !ok || id !in w.docs then w.Goto(c, call.(ipc := DroppingZip(Some(x), Some(z))))
      else w.SetDoc(id, w.docs[id].Write(PROCESSING).(xml := Some(x), zip := Some(z)))
            .Goto(c, call.(ipc := Prepared))
    case DroppingZip(xml, zip) =>
      w.Drop(zip, ok).Goto(c, call.(ipc := DroppingXml(xml)))
    case DroppingXml(xml) =>
      w.Drop(xml, ok).Goto(c, call.(ipc := MarkingPrepareError))
    case MarkingPrepareError =>
      if !ok || id !in w.docs then w.End(c)
      else w.SetDoc(id, w.docs[id].Publish(ERROR, Error)).End(c)
  }

  /** One step of `submit`. */
  function NextSubmit(w: World, c: CallId, call: Call, ok: bool, answer: Answer): World
    requires call.Issue? && !InPrepare(call.ipc)
  {
    var id := call.doc;
    match call.ipc
    case Prepared =>
      if !ok || !w.Owns(call.company, id) then w.End(c)
      else if w.docs[id].kind == RECEIPT then w.End(c)
      else if w.docs[id].status != PROCESSING || w.docs[id].zip.None? then w.End(c)
      else w.Goto(c, call.(ipc := Submitting(w.docs[id].zip.value)))
    case Submitting(z) =>
      if !ok || !w.Owns(call.company, id) || w.docs[id].status != PROCESSING then w.End(c)
      else w.SetDoc(id, w.docs[id].Write(SENT)).Goto(c, call.(ipc := Sending(z)))
    case Sending(z) =>
      if !ok || z !in w.stored || !answer.Cdr? then w.Goto(c, call.(ipc := DroppingCdr(None)))
      else w.Goto(c, call.(ipc := Answered(answer.result)))
    case Answered(r) =>
      if !ok then w.Goto(c, call.(ipc := DroppingCdr(None)))
      else w.Save().Goto(c, call.(ipc := Recording(r, w.nextArtifact)))
    case Recording(r, a) =>
      var s := ResultStatus(r);
      if !ok || id !in w.docs then w.Goto(c, call.(ipc := DroppingCdr(Some(a))))
      else w.SetDoc(id, w.docs[id].Publish(s, ResultEvent(s)).(cdr := Some(a))).End(c)
    case DroppingCdr(a) =>
      w.Drop(a, ok).Goto(c, call.(ipc := MarkingSubmitError))
    case MarkingSubmitError =>
      if !ok || !w.Owns(call.company, id) || w.docs[id].status != SENT then w.End(c)
      else w.SetDoc(id, w.docs[id].Publish(ERROR, Error)).End(c)
  }

  /** `issue`: prepare, then submit. */
  function NextIssue(w: World, c: CallId, call: Call, ok: bool, answer: Answer): World
    requires call.Issue?
  {
    if InPrepare(call.ipc) then NextPrepare(w, c, call, ok) else NextSubmit(w, c, call, ok, answer)
  }

  predicate Distinct(ids: seq<DocId>) {
    forall i, j :: 0 <= i < j < |ids| ==> ids[i] != ids[j]
  }

  /** The documents a communication may be built from, as read at one moment. */
  predicate Selectable(w: World, company: CompanyId, kind: TicketKind, ids: seq<DocId>) {
    && 0 < |ids| <= 500
    && Distinct(ids)
    && forall id :: id in ids ==>
         && w.Owns(company, id)
         && if kind == VoidCommunication
            then w.docs[id].kind != RECEIPT && w.docs[id].status in VOIDABLE_STATES
            else w.docs[id].kind == RECEIPT && w.docs[id].status == PENDING
  }

  function NextSend(w: World, c: CallId, call: Call, ok: bool): World
    requires call.Send?
  {
    match call.spc
    case Selecting =>
      if !ok || !Selectable(w, call.company, call.kind, call.ids) then w.End(c)
      else w.Goto(c, call.(spc := Inserting))
    case Inserting =>
      if !ok then w.End(c)
      else
        w.SetComm(w.nextComm, Communication(call.company, call.kind, call.ids, TicketPending, false, None, None))
         .(nextComm := w.nextComm + 1)
         .Goto(c, call.(spc := Packing(w.nextComm)))
    case Packing(m) =>
      if !ok then w.Goto(c, call.(spc := DroppingPack(m, None)))
      else w.Save().Goto(c, call.(spc := Delivering(m, w.nextArtifact)))
    case Delivering(m, z) =>
      if !ok || m !in w.comms then w.Goto(c, call.(spc := DroppingPack(m, Some(z))))
      else w.SetComm(m, w.comms[m].(status := TicketSent, ticket := true, zip := Some(z))).End(c)
    case DroppingPack(m, z) =>
      w.Drop(z, ok).Goto(c, call.(spc := MarkingSendError(m)))
    case MarkingSendError(m) =>
      if !ok || m !in w.comms then w.End(c)
      else w.SetComm(m, w.comms[m].(status := TicketError)).End(c)
  }

  /** The loop over the linked documents inside the closing transaction. */
  function PublishAll(docs: map<DocId, Document>, ids: seq<DocId>, s: Status, e: EventType): map<DocId, Document> {
    if ids == [] then docs
    else
      var id := ids[0];
      PublishAll(if id in docs then docs[id := docs[id].Publish(s, e)] else docs, ids[1..], s, e)
  }

  /** The status the closing transaction gives to the linked documents, if it writes them at all. */
  function ClosingStatus(kind: TicketKind, r: CdrStatus): Option<Status> {
    if kind == DailySummary then Some(ResultStatus(r))
    else if r == CdrRejected then None
    else Some(VOIDED)
  }

  function ClosingEvent(s: Status): EventType {
    if s == VOIDED then Voided else ResultEvent(s)
  }

  /** `assertTransition(status, VOIDED)` passes on every document. */
  predicate AllVoidable(w: World, company: CompanyId, ids: seq<DocId>) {
    forall id :: id in ids ==> w.Owns(company, id) && CanTransition(w.docs[id].status, VOIDED, VOID_CONFIRMED)
  }

  function NextRefresh(w: World, c: CallId, call: Call, ok: bool, answer: Answer): World
    requires call.Refresh?
  {
    var m := call.comm;
    match call.rpc
    case ReadingTicket =>
      if !ok || m !in w.comms || w.comms[m].company != call.company then w.End(c)
      else if w.comms[m].status != TicketSent || !w.comms[m].ticket then w.End(c)
      else w.Goto(c, call.(rpc := Polling(w.comms[m].docs)))
    case Polling(ids) =>
      if !ok || answer.NoAnswer? || m !in w.comms then w.End(c)
      else if answer.Ended? then w.SetComm(m, w.comms[m].(status := TicketError)).End(c)
      else w.Goto(c, call.(rpc := SavingCdr(ids, answer.result)))
    case SavingCdr(ids, r) =>
      if !ok || m !in w.comms then w.End(c)
      else if w.comms[m].kind == VoidCommunication && r != CdrRejected
      then w.Save().Goto(c, call.(rpc := Checking(ids, r, w.nextArtifact)))
      else w.Save().Goto(c, call.(rpc := Committing(ids, r, w.nextArtifact)))
    case Checking(ids, r, a) =>
      if ok && AllVoidable(w, call.company, ids)
      then w.Goto(c, call.(rpc := Committing(ids, r, a)))
      else w.End(c)
    case Committing(ids, r, a) =>
      if !ok || m !in w.comms || exists id :: id in ids && id !in w.docs
      then w.Goto(c, call.(rpc := DroppingAnswer(a)))
      else
        var s := ClosingStatus(w.comms[m].kind, r);
        var closed := w.SetComm(m, w.comms[m].(status := if r == CdrRejected then TicketRejected else TicketAccepted,
                                               cdr := Some(a)));
        if s.None? then closed.End(c)
        else closed.(docs := PublishAll(w.docs, ids, s.value, ClosingEvent(s.value))).End(c)
    case DroppingAnswer(a) =>
      w.Drop(Some(a), ok).End(c)
  }

  function Next(w: World, action: Action): World {
    match action
    case CreateDocument(id, company, kind, reference) =>
      if id in w.docs then w else w.SetDoc(id, NewDocument(company, kind, reference))
    case BeginIssue(c, company, id) =>
      if c in w.calls then w else w.Goto(c, Issue(company, id, Reading))
    case BeginSend(c, company, kind, ids) =>
      if c in w.calls then w else w.Goto(c, Send(company, kind, ids, Selecting))
    case BeginRefresh(c, company, m) =>
      if c in w.calls then w else w.Goto(c, Refresh(company, m, ReadingTicket))
    case Advance(c, ok, answer) =>
      if c !in w.calls then w
      else
        (match w.calls[c]
         case Issue(_, _, _) => NextIssue(w, c, w.calls[c], ok, answer)
         case Send(_, _, _, _) => NextSend(w, c, w.calls[c], ok)
         case Refresh(_, _, _) => NextRefresh(w, c, w.calls[c], ok, answer))
    case Crash(c) => w.End(c)
  }

  /** The world after any sequence of actions. */
  function Run(w: World, actions: seq<Action>): World {
    Runs.Iterate(Next, w, actions)
  }
}
