/** Stored artifacts that nobody will ever link or delete: which steps leave one behind, exactly. */
module DocumentLeaks {
  import opened Common
  import opened Lifecycle
  import opened Documents
  import opened DocumentsInvariant
  import opened DocumentsArtifacts
  import opened DocumentsTheorems
  import opened DocumentOutcomes
  import opened Runs

  predicate DocNames(d: Document, a: ArtifactId) {
    d.xml == Some(a) || d.zip == Some(a) || d.cdr == Some(a)
  }

  predicate CommNames(m: Communication, a: ArtifactId) {
    m.zip == Some(a) || m.cdr == Some(a)
  }

  /** Some row links the artifact. */
  predicate Named(w: World, a: ArtifactId) {
    (exists id :: id in w.docs && DocNames(w.docs[id], a)) || (exists m :: m in w.comms && CommNames(w.comms[m], a))
  }

  /** In storage, linked by no row and held by no call. */
  predicate Orphan(w: World, a: ArtifactId) {
    a in w.stored && !Named(w, a) && forall c :: c in w.calls ==> a !in Held(w.calls[c])
  }

  /** A step gives an artifact up without deleting it: a crash gives up all that the call holds; a failed delete what it
      was to delete; the check of a void the CDR, if a document does not pass; and a link what the row linked before. */
  predicate GivesUp(w: World, action: Action, a: ArtifactId) {
    match action
    case Crash(c) => c in w.calls && a in Held(w.calls[c])
    case Advance(c, ok, _) =>
      && c in w.calls
      && (match w.calls[c]
          case Issue(_, id, pc) => IssueGivesUp(w, id, pc, ok, a)
          case Send(_, _, _, pc) => SendGivesUp(w, pc, ok, a)
          case Refresh(company, m, pc) => RefreshGivesUp(w, company, m, pc, ok, a))
    case _ => false
  }

  predicate IssueGivesUp(w: World, id: DocId, pc: IssuePc, ok: bool, a: ArtifactId) {
    match pc
    case DroppingZip(_, zip) => !ok && zip == Some(a)
    case DroppingXml(xml) => !ok && xml == Some(a)
    case DroppingCdr(cdr) => !ok && cdr == Some(a)
    case Linking(_, _) => ok && id in w.docs && (w.docs[id].xml == Some(a) || w.docs[id].zip == Some(a))
    case Recording(_, _) => ok && id in w.docs && w.docs[id].cdr == Some(a)
    case _ => false
  }

  predicate SendGivesUp(w: World, pc: SendPc, ok: bool, a: ArtifactId) {
    match pc
    case DroppingPack(_, zip) => !ok && zip == Some(a)
    case Delivering(m, _) => ok && m in w.comms && w.comms[m].zip == Some(a)
    case _ => false
  }

  predicate RefreshGivesUp(w: World, company: CompanyId, m: CommId, pc: RefreshPc, ok: bool, a: ArtifactId) {
    match pc
    case DroppingAnswer(cdr) => !ok && cdr == a
    case Checking(ids, _, cdr) => !(ok && AllSettled(w, company, ids)) && cdr == a
    case Committing(_, _, _) => ok && m in w.comms && w.comms[m].cdr == Some(a)
    case _ => false
  }

  // ----- What a step leaves behind ------------------------------------------------------------

  /** Rows and calls still account for the artifact, if they did before. */
  predicate Accounted(w: World, w': World, c: CallId, a: ArtifactId) {
    && (forall k :: k in w.calls && k != c ==> k in w'.calls && w'.calls[k] == w.calls[k])
    && (forall id :: id in w.docs ==> id in w'.docs && (DocNames(w.docs[id], a) ==> DocNames(w'.docs[id], a)))
    && (forall m :: m in w.comms ==> m in w'.comms && (CommNames(w.comms[m], a) ==> CommNames(w'.comms[m], a)))
    && (a in HeldBy(w, c) ==> a in HeldBy(w', c) || Named(w', a) || a !in w'.stored)
    && (a in w'.stored ==> a in w.stored || a in HeldBy(w', c))
  }

  lemma AccountedStays(w: World, w': World, c: CallId, a: ArtifactId)
    requires Accounted(w, w', c, a) && Orphan(w', a)
    ensures Orphan(w, a)
  {
    assert a !in HeldBy(w', c);
    forall k | k in w.calls
      ensures a !in Held(w.calls[k])
    {
      if k == c { assert a !in HeldBy(w, c); }
    }
  }

  lemma PrepareAccounts(w: World, c: CallId, ok: bool, a: ArtifactId)
    requires c in w.calls && w.calls[c].Issue? && InPrepare(w.calls[c].ipc) && !w.calls[c].ipc.Linking?
    requires !w.calls[c].ipc.Locking? && !w.calls[c].ipc.MarkingPrepareError?
    requires !IssueGivesUp(w, w.calls[c].doc, w.calls[c].ipc, ok, a)
    ensures Accounted(w, NextPrepare(w, c, w.calls[c], ok), c, a)
  {
  }

  lemma PrepareWritesAccount(w: World, c: CallId, ok: bool, a: ArtifactId)
    requires c in w.calls && w.calls[c].Issue? && (w.calls[c].ipc.Locking? || w.calls[c].ipc.MarkingPrepareError?)
    ensures Accounted(w, NextPrepare(w, c, w.calls[c], ok), c, a)
  {
  }

  lemma LinkAccounts(w: World, c: CallId, ok: bool, a: ArtifactId)
    requires c in w.calls && w.calls[c].Issue? && w.calls[c].ipc.Linking?
    requires !IssueGivesUp(w, w.calls[c].doc, w.calls[c].ipc, ok, a)
    ensures Accounted(w, NextPrepare(w, c, w.calls[c], ok), c, a)
  {
    var id, pc, w' := w.calls[c].doc, w.calls[c].ipc, NextPrepare(w, c, w.calls[c], ok);
    if ok && id in w.docs { assert DocNames(w'.docs[id], pc.x) && DocNames(w'.docs[id], pc.z); }
  }

  lemma SubmitAccounts(w: World, c: CallId, ok: bool, answer: Answer, a: ArtifactId)
    requires c in w.calls && w.calls[c].Issue? && !InPrepare(w.calls[c].ipc) && !w.calls[c].ipc.Recording?
    requires !w.calls[c].ipc.Submitting? && !w.calls[c].ipc.MarkingSubmitError?
    requires !IssueGivesUp(w, w.calls[c].doc, w.calls[c].ipc, ok, a)
    ensures Accounted(w, NextSubmit(w, c, w.calls[c], ok, answer), c, a)
  {
  }

  lemma SubmitWritesAccount(w: World, c: CallId, ok: bool, answer: Answer, a: ArtifactId)
    requires c in w.calls && w.calls[c].Issue? && (w.calls[c].ipc.Submitting? || w.calls[c].ipc.MarkingSubmitError?)
    ensures Accounted(w, NextSubmit(w, c, w.calls[c], ok, answer), c, a)
  {
  }

  lemma RecordAccounts(w: World, c: CallId, ok: bool, answer: Answer, a: ArtifactId)
    requires c in w.calls && w.calls[c].Issue? && w.calls[c].ipc.Recording?
    requires !IssueGivesUp(w, w.calls[c].doc, w.calls[c].ipc, ok, a)
    ensures Accounted(w, NextSubmit(w, c, w.calls[c], ok, answer), c, a)
  {
    var id, pc, w' := w.calls[c].doc, w.calls[c].ipc, NextSubmit(w, c, w.calls[c], ok, answer);
    if ok && id in w.docs { assert DocNames(w'.docs[id], pc.a); }
  }

  lemma SendAccounts(w: World, c: CallId, ok: bool, a: ArtifactId)
    requires c in w.calls && w.calls[c].Send? && forall m :: m in w.comms ==> m < w.nextComm
    requires w.calls[c].spc.Inserting? || w.calls[c].spc.MarkingSendError?
    ensures Accounted(w, NextSend(w, c, w.calls[c], ok), c, a)
  {
  }

  lemma PackAccounts(w: World, c: CallId, ok: bool, a: ArtifactId)
    requires c in w.calls && w.calls[c].Send? && !SendGivesUp(w, w.calls[c].spc, ok, a)
    requires w.calls[c].spc.Selecting? || w.calls[c].spc.Packing? || w.calls[c].spc.DroppingPack?
    ensures Accounted(w, NextSend(w, c, w.calls[c], ok), c, a)
  {
  }

  lemma DeliverAccounts(w: World, c: CallId, ok: bool, a: ArtifactId)
    requires c in w.calls && w.calls[c].Send? && w.calls[c].spc.Delivering? && !SendGivesUp(w, w.calls[c].spc, ok, a)
    ensures Accounted(w, NextSend(w, c, w.calls[c], ok), c, a)
  {
    var pc, w' := w.calls[c].spc, NextSend(w, c, w.calls[c], ok);
    if ok && pc.comm in w.comms { assert CommNames(w'.comms[pc.comm], pc.z); }
  }

  lemma {:induction false} PublishAllLinks(
    docs: map<DocId, Document>, ids: seq<DocId>, s: Status, e: EventType, id: DocId)
    requires id in docs
    ensures id in PublishAll(docs, ids, s, e)
    ensures var d := PublishAll(docs, ids, s, e)[id];
            d.xml == docs[id].xml && d.zip == docs[id].zip && d.cdr == docs[id].cdr
    decreases |ids|
  {
    if ids != [] {
      PublishAllLinks(if ids[0] in docs then docs[ids[0] := docs[ids[0]].Publish(s, e)] else docs, ids[1..], s, e, id);
    }
  }

  lemma CommitAccounts(w: World, c: CallId, ok: bool, answer: Answer, a: ArtifactId)
    requires c in w.calls && w.calls[c].Refresh? && w.calls[c].rpc.Committing?
    requires !RefreshGivesUp(w, w.calls[c].company, w.calls[c].comm, w.calls[c].rpc, ok, a)
    ensures Accounted(w, NextRefresh(w, c, w.calls[c], ok, answer), c, a)
  {
    var call, w' := w.calls[c], NextRefresh(w, c, w.calls[c], ok, answer);
    if c !in w'.calls {
      var s := ClosingStatus(w.comms[call.comm].kind, call.rpc.result);
      if s.Some? {
        forall id | id in w.docs
          ensures id in w'.docs && DocNames(w'.docs[id], a) == DocNames(w.docs[id], a)
        {
          PublishAllLinks(w.docs, call.rpc.docs, s.value, ClosingEvent(s.value), id);
        }
      }
      assert CommNames(w'.comms[call.comm], call.rpc.a);
    }
  }

  lemma RefreshAccounts(w: World, c: CallId, ok: bool, answer: Answer, a: ArtifactId)
    requires c in w.calls && w.calls[c].Refresh? && !w.calls[c].rpc.Committing? && !w.calls[c].rpc.Polling?
    requires !RefreshGivesUp(w, w.calls[c].company, w.calls[c].comm, w.calls[c].rpc, ok, a)
    ensures Accounted(w, NextRefresh(w, c, w.calls[c], ok, answer), c, a)
  {
    var call := w.calls[c];
    if call.rpc.Checking? { SettledMeans(w, call.company, call.rpc.docs); }
  }

  lemma PollAccounts(w: World, c: CallId, ok: bool, answer: Answer, a: ArtifactId)
    requires c in w.calls && w.calls[c].Refresh? && w.calls[c].rpc.Polling?
    ensures Accounted(w, NextRefresh(w, c, w.calls[c], ok, answer), c, a)
  {
  }

  lemma AdvanceAccounts(w: World, c: CallId, ok: bool, answer: Answer, a: ArtifactId)
    requires Reachable(w) && c in w.calls && !GivesUp(w, Advance(c, ok, answer), a)
    ensures Accounted(w, Next(w, Advance(c, ok, answer)), c, a)
  {
    ReachableInvariants(w);
    match w.calls[c] {
      case Issue(_, _, pc) => IssueAccounts(w, c, ok, answer, a);
      case Send(_, _, _, pc) =>
        if pc.Delivering? { DeliverAccounts(w, c, ok, a); }
        else if pc.Inserting? || pc.MarkingSendError? { SendAccounts(w, c, ok, a); }
        else { PackAccounts(w, c, ok, a); }
      case Refresh(_, _, pc) =>
        if pc.Committing? { CommitAccounts(w, c, ok, answer, a); }
        else if pc.Polling? { PollAccounts(w, c, ok, answer, a); }
        else { RefreshAccounts(w, c, ok, answer, a); }
    }
  }

  lemma IssueAccounts(w: World, c: CallId, ok: bool, answer: Answer, a: ArtifactId)
    requires c in w.calls && w.calls[c].Issue? && !IssueGivesUp(w, w.calls[c].doc, w.calls[c].ipc, ok, a)
    ensures Accounted(w, NextIssue(w, c, w.calls[c], ok, answer), c, a)
  {
    var pc := w.calls[c].ipc;
    if pc.Linking? { LinkAccounts(w, c, ok, a); }
    else if pc.Locking? || pc.MarkingPrepareError? { PrepareWritesAccount(w, c, ok, a); }
    else if pc.Submitting? || pc.MarkingSubmitError? { SubmitWritesAccount(w, c, ok, answer, a); }
    else if InPrepare(pc) { PrepareAccounts(w, c, ok, a); }
    else if pc.Recording? { RecordAccounts(w, c, ok, answer, a); }
    else { SubmitAccounts(w, c, ok, answer, a); }
  }

  lemma NewCallAccounts(w: World, c: CallId, call: Call, a: ArtifactId)
    requires c !in w.calls && Held(call) == {} && Orphan(w.Goto(c, call), a)
    ensures Orphan(w, a)
  {
    var w' := w.Goto(c, call);
    forall k | k in w.calls
      ensures a !in Held(w.calls[k])
    {
      assert w'.calls[k] == w.calls[k];
    }
  }

  lemma CreateAccounts(w: World, action: Action, a: ArtifactId)
    requires action.CreateDocument? && Orphan(Next(w, action), a)
    ensures Orphan(w, a)
  {
    var w' := Next(w, action);
    forall id | id in w.docs
      ensures !DocNames(w.docs[id], a)
    {
      assert w'.docs[id] == w.docs[id];
    }
  }

  lemma StepAccounts(w: World, action: Action, a: ArtifactId)
    requires Reachable(w) && !GivesUp(w, action, a) && Orphan(Next(w, action), a)
    ensures Orphan(w, a)
  {
    match action {
      case CreateDocument(_, _, _, _) => CreateAccounts(w, action, a);
      case BeginIssue(c, company, id) => if c !in w.calls { NewCallAccounts(w, c, Issue(company, id, Reading), a); }
      case BeginSend(c, company, kind, ids) =>
        if c !in w.calls { NewCallAccounts(w, c, Send(company, kind, ids, Selecting), a); }
      case BeginRefresh(c, company, m) =>
        if c !in w.calls { NewCallAccounts(w, c, Refresh(company, m, ReadingTicket), a); }
      case Crash(c) => AccountedStays(w, Next(w, action), c, a);
      case Advance(c, ok, answer) =>
        if c in w.calls {
          AdvanceAccounts(w, c, ok, answer, a);
          AccountedStays(w, Next(w, action), c, a);
        }
    }
  }

  // ----- Orphans stay -------------------------------------------------------------------------

  lemma NamedIff(w: World, a: ArtifactId)
    ensures Named(w, a) <==> a in Linked(w)
  {
    if Named(w, a) {
      if id :| id in w.docs && DocNames(w.docs[id], a) {
        assert a in w.docs[id].Artifacts();
      } else {
        var m :| m in w.comms && CommNames(w.comms[m], a);
        assert a in w.comms[m].Artifacts();
      }
    }
    if a in Linked(w) {
      if id :| id in w.docs && a in w.docs[id].Artifacts() {
        assert DocNames(w.docs[id], a);
      } else {
        var m :| m in w.comms && a in w.comms[m].Artifacts();
        assert CommNames(w.comms[m], a);
      }
    }
  }

  lemma FlowKeepsOrphan(w: World, w': World, c: CallId, a: ArtifactId)
    requires Flow(w, w', c) && Orphan(w, a)
    ensures Orphan(w', a)
  {
    NamedIff(w, a);
    NamedIff(w', a);
    assert a !in HeldBy(w, c) && a !in HeldBy(w', c);
    forall k | k in w'.calls
      ensures a !in Held(w'.calls[k])
    {
      if k != c { assert w'.calls[k] == w.calls[k]; }
    }
  }

  lemma BeginFlows(w: World, c: CallId, call: Call)
    requires ArtifactInv(w) && c !in w.calls && Held(call) == {} && TwoArtifacts(call)
    ensures Flow(w, w.Goto(c, call), c)
  {
    ShapedFlows(w, w.Goto(c, call), c);
  }

  lemma AdvanceFlows(w: World, c: CallId, ok: bool, answer: Answer)
    requires ArtifactInv(w) && c in w.calls
    ensures Flow(w, Next(w, Advance(c, ok, answer)), c)
  {
    assert Held(w.calls[c]) <= w.stored && w.nextArtifact !in w.stored;
    AdvanceShaped(w, c, ok, answer);
    ShapedFlows(w, Next(w, Advance(c, ok, answer)), c);
  }

  lemma CreateKeepsOrphan(w: World, action: Action, a: ArtifactId)
    requires action.CreateDocument? && Orphan(w, a)
    ensures Orphan(Next(w, action), a)
  {
    var w' := Next(w, action);
    forall id | id in w'.docs
      ensures !DocNames(w'.docs[id], a)
    {
      if id in w.docs { assert w'.docs[id] == w.docs[id]; }
    }
  }

  lemma CrashFlows(w: World, c: CallId)
    requires ArtifactInv(w)
    ensures Flow(w, w.End(c), c)
  {
    ShapedFlows(w, w.End(c), c);
  }

  /** The call that an action is of. */
  function CallOf(action: Action): CallId {
    if action.CreateDocument? then 0 else action.c
  }

  lemma ActionFlows(w: World, action: Action)
    requires Reachable(w) && !action.CreateDocument? && Next(w, action) != w
    ensures Flow(w, Next(w, action), CallOf(action))
  {
    ReachableInvariants(w);
    match action {
      case BeginIssue(c, company, id) => BeginFlows(w, c, Issue(company, id, Reading));
      case BeginSend(c, company, kind, ids) => BeginFlows(w, c, Send(company, kind, ids, Selecting));
      case BeginRefresh(c, company, m) => BeginFlows(w, c, Refresh(company, m, ReadingTicket));
      case Advance(c, ok, answer) => AdvanceFlows(w, c, ok, answer);
      case Crash(c) => CrashFlows(w, c);
    }
  }

  lemma OrphansStay(w: World, action: Action, a: ArtifactId)
    requires Reachable(w) && Orphan(w, a)
    ensures Orphan(Next(w, action), a)
  {
    if action.CreateDocument? {
      CreateKeepsOrphan(w, action, a);
    } else if Next(w, action) != w {
      ActionFlows(w, action);
      FlowKeepsOrphan(w, Next(w, action), CallOf(action), a);
    }
  }

  // ----- Every link is the only one -----------------------------------------------------------

  /** The columns that link artifacts. */
  datatype Place =
    | XmlOf(doc: DocId)
    | ZipOf(doc: DocId)
    | CdrOf(doc: DocId)
    | PackOf(comm: CommId)
    | AnswerOf(comm: CommId)

  function LinkAt(w: World, p: Place): Option<ArtifactId> {
    match p
    case XmlOf(id) => if id in w.docs then w.docs[id].xml else None
    case ZipOf(id) => if id in w.docs then w.docs[id].zip else None
    case CdrOf(id) => if id in w.docs then w.docs[id].cdr else None
    case PackOf(m) => if m in w.comms then w.comms[m].zip else None
    case AnswerOf(m) => if m in w.comms then w.comms[m].cdr else None
  }

  /** No artifact is linked at two places. */
  ghost predicate LinkedOnce(w: World) {
    forall p, q :: LinkAt(w, p).Some? && LinkAt(w, p) == LinkAt(w, q) ==> p == q
  }

  lemma NamedAt(w: World, a: ArtifactId)
    ensures Named(w, a) <==> exists p :: LinkAt(w, p) == Some(a)
  {
    if Named(w, a) {
      if id :| id in w.docs && DocNames(w.docs[id], a) {
        assert LinkAt(w, XmlOf(id)) == Some(a) || LinkAt(w, ZipOf(id)) == Some(a) || LinkAt(w, CdrOf(id)) == Some(a);
      } else {
        var m :| m in w.comms && CommNames(w.comms[m], a);
        assert LinkAt(w, PackOf(m)) == Some(a) || LinkAt(w, AnswerOf(m)) == Some(a);
      }
    }
    if p :| LinkAt(w, p) == Some(a) {
      if p.XmlOf? || p.ZipOf? || p.CdrOf? { assert DocNames(w.docs[p.doc], a); }
      else { assert CommNames(w.comms[p.comm], a); }
    }
  }

  /** The step sets the link at p, to an artifact that the call held. */
  predicate Sets(w: World, w': World, c: CallId, p: Place) {
    LinkAt(w', p).Some? && LinkAt(w', p).value in HeldBy(w, c)
  }

  /** A step leaves every link as it is or sets it, no two to the same artifact. */
  ghost predicate Relinks(w: World, w': World, c: CallId) {
    && (forall p :: LinkAt(w', p) == LinkAt(w, p) || Sets(w, w', c, p))
    && (forall p, q :: Sets(w, w', c, p) && Sets(w, w', c, q) && LinkAt(w', p) == LinkAt(w', q) ==> p == q)
  }

  lemma HeldIsNotLinked(w: World, c: CallId, p: Place)
    requires ArtifactInv(w) && LinkAt(w, p).Some?
    ensures LinkAt(w, p).value in w.stored && LinkAt(w, p).value !in HeldBy(w, c)
  {
    NamedAt(w, LinkAt(w, p).value);
    NamedIff(w, LinkAt(w, p).value);
  }

  lemma RelinksKeepsOnce(w: World, w': World, c: CallId)
    requires ArtifactInv(w) && LinkedOnce(w) && Relinks(w, w', c)
    ensures LinkedOnce(w')
  {
    forall p, q | LinkAt(w', p).Some? && LinkAt(w', p) == LinkAt(w', q)
      ensures p == q
    {
      if LinkAt(w', p) == LinkAt(w, p) { HeldIsNotLinked(w, c, p); }
      if LinkAt(w', q) == LinkAt(w, q) { HeldIsNotLinked(w, c, q); }
    }
  }

  lemma AllLinksApart(w: World, c: CallId)
    requires ArtifactInv(w)
    ensures forall p :: LinkAt(w, p).Some? ==> LinkAt(w, p).value !in HeldBy(w, c)
  {
    forall p | LinkAt(w, p).Some?
      ensures LinkAt(w, p).value !in HeldBy(w, c)
    {
      HeldIsNotLinked(w, c, p);
    }
  }

  /** Rows link what they linked, and new rows nothing. */
  predicate DocsAlike(w: World, w': World) {
    && (forall id :: id in w.docs ==>
          && id in w'.docs && w'.docs[id].xml == w.docs[id].xml
          && w'.docs[id].zip == w.docs[id].zip && w'.docs[id].cdr == w.docs[id].cdr)
    && forall id :: id in w'.docs && id !in w.docs ==>
         w'.docs[id].xml.None? && w'.docs[id].zip.None? && w'.docs[id].cdr.None?
  }

  predicate CommsAlike(w: World, w': World) {
    && (forall m :: m in w.comms ==>
          m in w'.comms && w'.comms[m].zip == w.comms[m].zip && w'.comms[m].cdr == w.comms[m].cdr)
    && forall m :: m in w'.comms && m !in w.comms ==> w'.comms[m].zip.None? && w'.comms[m].cdr.None?
  }

  lemma AlikeRelinks(w: World, w': World, c: CallId)
    requires ArtifactInv(w) && DocsAlike(w, w') && CommsAlike(w, w')
    ensures Relinks(w, w', c)
  {
    AllLinksApart(w, c);
    assert forall p :: LinkAt(w', p) == LinkAt(w, p);
  }

  /** The row of one document links x and z anew. */
  lemma LinkRelinks(w: World, w': World, c: CallId, id: DocId, x: ArtifactId, z: ArtifactId)
    requires ArtifactInv(w) && id in w.docs && CommsAlike(w, w') && x != z && x in HeldBy(w, c) && z in HeldBy(w, c)
    requires id in w'.docs && w'.docs == w.docs[id := w'.docs[id]]
    requires w'.docs[id].xml == Some(x) && w'.docs[id].zip == Some(z) && w'.docs[id].cdr == w.docs[id].cdr
    ensures Relinks(w, w', c)
  {
    AllLinksApart(w, c);
    assert forall p :: p != XmlOf(id) && p != ZipOf(id) ==> LinkAt(w', p) == LinkAt(w, p);
  }

  lemma RecordRelinks(w: World, w': World, c: CallId, id: DocId, a: ArtifactId)
    requires ArtifactInv(w) && id in w.docs && CommsAlike(w, w') && a in HeldBy(w, c)
    requires id in w'.docs && w'.docs == w.docs[id := w'.docs[id]]
    requires w'.docs[id].xml == w.docs[id].xml && w'.docs[id].zip == w.docs[id].zip && w'.docs[id].cdr == Some(a)
    ensures Relinks(w, w', c)
  {
    AllLinksApart(w, c);
    assert forall p :: p != CdrOf(id) ==> LinkAt(w', p) == LinkAt(w, p);
  }

  lemma PackRelinks(w: World, w': World, c: CallId, m: CommId, z: ArtifactId)
    requires ArtifactInv(w) && m in w.comms && DocsAlike(w, w') && z in HeldBy(w, c)
    requires m in w'.comms && w'.comms == w.comms[m := w'.comms[m]]
    requires w'.comms[m].zip == Some(z) && w'.comms[m].cdr == w.comms[m].cdr
    ensures Relinks(w, w', c)
  {
    AllLinksApart(w, c);
    assert forall p :: p != PackOf(m) ==> LinkAt(w', p) == LinkAt(w, p);
  }

  lemma AnswerRelinks(w: World, w': World, c: CallId, m: CommId, a: ArtifactId)
    requires ArtifactInv(w) && m in w.comms && DocsAlike(w, w') && a in HeldBy(w, c)
    requires m in w'.comms && w'.comms == w.comms[m := w'.comms[m]]
    requires w'.comms[m].zip == w.comms[m].zip && w'.comms[m].cdr == Some(a)
    ensures Relinks(w, w', c)
  {
    AllLinksApart(w, c);
    assert forall p :: p != AnswerOf(m) ==> LinkAt(w', p) == LinkAt(w, p);
  }

  lemma PrepareAlike(w: World, c: CallId, ok: bool)
    requires c in w.calls && w.calls[c].Issue? && InPrepare(w.calls[c].ipc)
    requires !(w.calls[c].ipc.Linking? && ok && w.calls[c].doc in w.docs)
    ensures DocsAlike(w, NextPrepare(w, c, w.calls[c], ok)) && CommsAlike(w, NextPrepare(w, c, w.calls[c], ok))
  {
  }

  lemma SubmitAlike(w: World, c: CallId, ok: bool, answer: Answer)
    requires c in w.calls && w.calls[c].Issue? && !InPrepare(w.calls[c].ipc)
    requires !(w.calls[c].ipc.Recording? && ok && w.calls[c].doc in w.docs)
    ensures DocsAlike(w, NextSubmit(w, c, w.calls[c], ok, answer))
    ensures CommsAlike(w, NextSubmit(w, c, w.calls[c], ok, answer))
  {
    var id, pc, w' := w.calls[c].doc, w.calls[c].ipc, NextSubmit(w, c, w.calls[c], ok, answer);
    if (pc.Submitting? || pc.MarkingSubmitError?) && w'.docs != w.docs {
      assert w'.docs == w.docs[id := w'.docs[id]];
    } else {
      assert w'.docs == w.docs;
    }
  }

  lemma RefreshAlike(w: World, c: CallId, ok: bool, answer: Answer)
    requires c in w.calls && w.calls[c].Refresh? && !w.calls[c].rpc.Committing?
    ensures DocsAlike(w, NextRefresh(w, c, w.calls[c], ok, answer))
    ensures CommsAlike(w, NextRefresh(w, c, w.calls[c], ok, answer))
  {
  }

  lemma PrepareRelinks(w: World, c: CallId, ok: bool)
    requires ArtifactInv(w) && c in w.calls && w.calls[c].Issue? && InPrepare(w.calls[c].ipc)
    ensures Relinks(w, NextPrepare(w, c, w.calls[c], ok), c)
  {
    var id, pc, w' := w.calls[c].doc, w.calls[c].ipc, NextPrepare(w, c, w.calls[c], ok);
    if pc.Linking? && ok && id in w.docs {
      LinkRelinks(w, w', c, id, pc.x, pc.z);
    } else {
      PrepareAlike(w, c, ok);
      AlikeRelinks(w, w', c);
    }
  }

  lemma SubmitRelinks(w: World, c: CallId, ok: bool, answer: Answer)
    requires ArtifactInv(w) && c in w.calls && w.calls[c].Issue? && !InPrepare(w.calls[c].ipc)
    ensures Relinks(w, NextSubmit(w, c, w.calls[c], ok, answer), c)
  {
    var id, pc, w' := w.calls[c].doc, w.calls[c].ipc, NextSubmit(w, c, w.calls[c], ok, answer);
    if pc.Recording? && ok && id in w.docs {
      RecordRelinks(w, w', c, id, pc.a);
    } else {
      SubmitAlike(w, c, ok, answer);
      AlikeRelinks(w, w', c);
    }
  }

  lemma SendRelinks(w: World, c: CallId, ok: bool)
    requires ArtifactInv(w) && c in w.calls && w.calls[c].Send? && forall m :: m in w.comms ==> m < w.nextComm
    ensures Relinks(w, NextSend(w, c, w.calls[c], ok), c)
  {
    var pc, w' := w.calls[c].spc, NextSend(w, c, w.calls[c], ok);
    if pc.Delivering? && ok && pc.comm in w.comms {
      PackRelinks(w, w', c, pc.comm, pc.z);
    } else {
      AlikeRelinks(w, w', c);
    }
  }

  lemma CommitAlike(w: World, c: CallId, ok: bool, answer: Answer)
    requires c in w.calls && w.calls[c].Refresh? && w.calls[c].rpc.Committing?
    ensures DocsAlike(w, NextRefresh(w, c, w.calls[c], ok, answer))
  {
    var call, w' := w.calls[c], NextRefresh(w, c, w.calls[c], ok, answer);
    if c !in w'.calls {
      var s := ClosingStatus(w.comms[call.comm].kind, call.rpc.result);
      if s.Some? {
        PublishAllArtifacts(w.docs, call.rpc.docs, s.value, ClosingEvent(s.value));
        forall id | id in w.docs
          ensures id in w'.docs && w'.docs[id].xml == w.docs[id].xml
          ensures w'.docs[id].zip == w.docs[id].zip && w'.docs[id].cdr == w.docs[id].cdr
        {
          PublishAllLinks(w.docs, call.rpc.docs, s.value, ClosingEvent(s.value), id);
        }
      }
    }
  }

  lemma RefreshRelinks(w: World, c: CallId, ok: bool, answer: Answer)
    requires ArtifactInv(w) && c in w.calls && w.calls[c].Refresh?
    ensures Relinks(w, NextRefresh(w, c, w.calls[c], ok, answer), c)
  {
    var call, w' := w.calls[c], NextRefresh(w, c, w.calls[c], ok, answer);
    if call.rpc.Committing? {
      CommitAlike(w, c, ok, answer);
      if c !in w'.calls { AnswerRelinks(w, w', c, call.comm, call.rpc.a); } else { AlikeRelinks(w, w', c); }
    } else {
      RefreshAlike(w, c, ok, answer);
      AlikeRelinks(w, w', c);
    }
  }

  lemma AdvanceRelinks(w: World, c: CallId, ok: bool, answer: Answer)
    requires Reachable(w) && c in w.calls
    ensures Relinks(w, Next(w, Advance(c, ok, answer)), c)
  {
    ReachableInvariants(w);
    match w.calls[c] {
      case Issue(_, _, pc) =>
        if InPrepare(pc) { PrepareRelinks(w, c, ok); } else { SubmitRelinks(w, c, ok, answer); }
      case Send(_, _, _, _) => SendRelinks(w, c, ok);
      case Refresh(_, _, _) => RefreshRelinks(w, c, ok, answer);
    }
  }

  lemma OtherAlike(w: World, action: Action)
    requires !action.Advance?
    ensures DocsAlike(w, Next(w, action)) && CommsAlike(w, Next(w, action))
  {
  }

  lemma ActionRelinks(w: World, action: Action)
    requires Reachable(w)
    ensures Relinks(w, Next(w, action), CallOf(action))
  {
    ReachableInvariants(w);
    if action.Advance? && action.c in w.calls {
      AdvanceRelinks(w, action.c, action.ok, action.answer);
    } else {
      if !action.Advance? { OtherAlike(w, action); }
      AlikeRelinks(w, Next(w, action), CallOf(action));
    }
  }

  lemma {:induction false} RunLinksOnce(w: World, actions: seq<Action>)
    requires Reachable(w) && LinkedOnce(w)
    ensures Reachable(Run(w, actions)) && LinkedOnce(Run(w, actions))
  {
    if actions != [] {
      var init, last := actions[..|actions| - 1], actions[|actions| - 1];
      RunLinksOnce(w, init);
      ReachableInvariants(Run(w, init));
      ActionRelinks(Run(w, init), last);
      RelinksKeepsOnce(Run(w, init), Next(Run(w, init), last), CallOf(last));
      ReachableAfter(Run(w, init), last);
    }
  }

  /** In every reachable world an artifact is linked by one column of one row at most. */
  lemma EveryLinkIsTheOnlyOne(w: World)
    requires Reachable(w)
    ensures LinkedOnce(w)
  {
    var actions :| w == Iterate(Next, EMPTY_WORLD, actions);
    assert w == Run(EMPTY_WORLD, actions);
    assert Run(EMPTY_WORLD, []) == EMPTY_WORLD && Reaches(Next, EMPTY_WORLD, EMPTY_WORLD);
    RunLinksOnce(EMPTY_WORLD, actions);
  }

  // ----- What is given up is orphaned ---------------------------------------------------------

  /** Nobody else accounts for what the call held. */
  lemma HeldGivenUp(w: World, w': World, c: CallId, a: ArtifactId)
    requires ArtifactInv(w) && a in HeldBy(w, c) && a !in HeldBy(w', c)
    requires w'.docs == w.docs && w'.comms == w.comms && w'.stored == w.stored
    requires forall k :: k in w'.calls && k != c ==> k in w.calls && w'.calls[k] == w.calls[k]
    ensures Orphan(w', a)
  {
    NamedIff(w, a);
    assert !Named(w', a);
    forall k | k in w'.calls
      ensures a !in Held(w'.calls[k])
    {
      if k != c { assert Held(w.calls[c]) !! Held(w.calls[k]); }
    }
  }

  /** Nor what a row linked before. */
  lemma LinkGivenUp(w: World, w': World, c: CallId, p: Place, a: ArtifactId)
    requires ArtifactInv(w) && LinkedOnce(w) && Relinks(w, w', c) && LinkAt(w, p) == Some(a) && Sets(w, w', c, p)
    requires w'.stored == w.stored && HeldBy(w', c) == {}
    requires forall k :: k in w'.calls && k != c ==> k in w.calls && w'.calls[k] == w.calls[k]
    ensures Orphan(w', a)
  {
    HeldIsNotLinked(w, c, p);
    NamedAt(w', a);
    forall q
      ensures LinkAt(w', q) != Some(a)
    {
      assert Sets(w, w', c, q) || LinkAt(w', q) == LinkAt(w, q);
    }
    forall k | k in w'.calls
      ensures a !in Held(w'.calls[k])
    {
      if k != c { HeldIsNotLinked(w, k, p); }
    }
  }

  lemma IssueGivenUp(w: World, c: CallId, ok: bool, answer: Answer, a: ArtifactId)
    requires ArtifactInv(w) && c in w.calls && w.calls[c].Issue?
    requires !w.calls[c].ipc.Linking? && !w.calls[c].ipc.Recording?
    requires IssueGivesUp(w, w.calls[c].doc, w.calls[c].ipc, ok, a)
    ensures Orphan(NextIssue(w, c, w.calls[c], ok, answer), a)
  {
    HeldGivenUp(w, NextIssue(w, c, w.calls[c], ok, answer), c, a);
  }

  lemma DocLinkGivenUp(w: World, c: CallId, ok: bool, answer: Answer, a: ArtifactId)
    requires ArtifactInv(w) && LinkedOnce(w) && c in w.calls && w.calls[c].Issue?
    requires w.calls[c].ipc.Linking? || w.calls[c].ipc.Recording?
    requires IssueGivesUp(w, w.calls[c].doc, w.calls[c].ipc, ok, a)
    requires Relinks(w, NextIssue(w, c, w.calls[c], ok, answer), c)
    ensures Orphan(NextIssue(w, c, w.calls[c], ok, answer), a)
  {
    var id, pc, w' := w.calls[c].doc, w.calls[c].ipc, NextIssue(w, c, w.calls[c], ok, answer);
    var p := if pc.Recording? then CdrOf(id) else if w.docs[id].xml == Some(a) then XmlOf(id) else ZipOf(id);
    LinkGivenUp(w, w', c, p, a);
  }

  lemma SendGivenUp(w: World, c: CallId, ok: bool, a: ArtifactId)
    requires ArtifactInv(w) && LinkedOnce(w) && c in w.calls && w.calls[c].Send?
    requires SendGivesUp(w, w.calls[c].spc, ok, a)
    requires Relinks(w, NextSend(w, c, w.calls[c], ok), c)
    ensures Orphan(NextSend(w, c, w.calls[c], ok), a)
  {
    var pc, w' := w.calls[c].spc, NextSend(w, c, w.calls[c], ok);
    if pc.Delivering? {
      LinkGivenUp(w, w', c, PackOf(pc.comm), a);
    } else {
      HeldGivenUp(w, w', c, a);
    }
  }

  lemma CommitGivenUp(w: World, c: CallId, ok: bool, answer: Answer, a: ArtifactId)
    requires ArtifactInv(w) && LinkedOnce(w) && c in w.calls && w.calls[c].Refresh? && w.calls[c].rpc.Committing?
    requires RefreshGivesUp(w, w.calls[c].company, w.calls[c].comm, w.calls[c].rpc, ok, a)
    requires Relinks(w, NextRefresh(w, c, w.calls[c], ok, answer), c)
    requires c !in NextRefresh(w, c, w.calls[c], ok, answer).calls
    ensures Orphan(NextRefresh(w, c, w.calls[c], ok, answer), a)
  {
    LinkGivenUp(w, NextRefresh(w, c, w.calls[c], ok, answer), c, AnswerOf(w.calls[c].comm), a);
  }

  lemma RefreshGivenUp(w: World, c: CallId, ok: bool, answer: Answer, a: ArtifactId)
    requires ArtifactInv(w) && c in w.calls && w.calls[c].Refresh? && !w.calls[c].rpc.Committing?
    requires RefreshGivesUp(w, w.calls[c].company, w.calls[c].comm, w.calls[c].rpc, ok, a)
    ensures Orphan(NextRefresh(w, c, w.calls[c], ok, answer), a)
  {
    var call := w.calls[c];
    if call.rpc.Checking? { SettledMeans(w, call.company, call.rpc.docs); }
    HeldGivenUp(w, NextRefresh(w, c, call, ok, answer), c, a);
  }

  lemma CommitEnds(w: World, c: CallId, answer: Answer)
    requires Reachable(w) && c in w.calls && w.calls[c].Refresh? && w.calls[c].rpc.Committing?
    ensures c !in NextRefresh(w, c, w.calls[c], true, answer).calls
  {
    CallIsOk(w, c);
    CommCovers(w, w.calls[c].comm);
  }

  lemma GivenUpIsOrphan(w: World, action: Action, a: ArtifactId)
    requires Reachable(w) && GivesUp(w, action, a)
    ensures Orphan(Next(w, action), a)
  {
    ReachableInvariants(w);
    EveryLinkIsTheOnlyOne(w);
    ActionRelinks(w, action);
    if action.Crash? {
      HeldGivenUp(w, Next(w, action), action.c, a);
    } else {
      var c := action.c;
      match w.calls[c] {
        case Issue(_, _, pc) =>
          if pc.Linking? || pc.Recording? { DocLinkGivenUp(w, c, action.ok, action.answer, a); }
          else { IssueGivenUp(w, c, action.ok, action.answer, a); }
        case Send(_, _, _, _) => SendGivenUp(w, c, action.ok, a);
        case Refresh(_, _, pc) =>
          if pc.Committing? {
            CommitEnds(w, c, action.answer);
            CommitGivenUp(w, c, action.ok, action.answer, a);
          } else {
            RefreshGivenUp(w, c, action.ok, action.answer, a);
          }
      }
    }
  }

  // ----- Main results -------------------------------------------------------------------------

  /** Exactly these steps leave an artifact behind for good: a crash, a failed delete, a void whose documents do not
      pass the check after its CDR was saved, and a link over an older one. */
  lemma OrphanedIff(w: World, action: Action, a: ArtifactId)
    requires Reachable(w)
    ensures Orphan(Next(w, action), a) <==> Orphan(w, a) || GivesUp(w, action, a)
  {
    if Orphan(Next(w, action), a) && !GivesUp(w, action, a) { StepAccounts(w, action, a); }
    if Orphan(w, a) { OrphansStay(w, action, a); }
    if GivesUp(w, action, a) { GivenUpIsOrphan(w, action, a); }
  }

  /** Some step of a run from the empty world gave the artifact up. */
  predicate GaveUp(actions: seq<Action>, a: ArtifactId) {
    exists k :: 0 <= k < |actions| && GivesUp(Run(EMPTY_WORLD, actions[..k]), actions[k], a)
  }

  lemma GaveUpGrows(init: seq<Action>, last: Action, a: ArtifactId)
    ensures GaveUp(init + [last], a) <==> GaveUp(init, a) || GivesUp(Run(EMPTY_WORLD, init), last, a)
  {
    var all := init + [last];
    assert all[..|init|] == init;
    if GaveUp(all, a) {
      var k :| 0 <= k < |all| && GivesUp(Run(EMPTY_WORLD, all[..k]), all[k], a);
      if k < |init| { assert init[..k] == all[..k] && init[k] == all[k]; }
    }
    if GaveUp(init, a) {
      var k :| 0 <= k < |init| && GivesUp(Run(EMPTY_WORLD, init[..k]), init[k], a);
      assert init[..k] == all[..k] && init[k] == all[k];
    }
    if GivesUp(Run(EMPTY_WORLD, init), last, a) { assert all[|init|] == last; }
  }

  /** An artifact is an orphan after a run if and only if some step of the run gave it up. */
  lemma {:induction false} OrphansOfRun(actions: seq<Action>, a: ArtifactId)
    ensures Orphan(Run(EMPTY_WORLD, actions), a) <==> GaveUp(actions, a)
  {
    if actions != [] {
      var init, last := actions[..|actions| - 1], actions[|actions| - 1];
      OrphansOfRun(init, a);
      assert Reaches(Next, EMPTY_WORLD, Run(EMPTY_WORLD, init));
      OrphanedIff(Run(EMPTY_WORLD, init), last, a);
      assert actions == init + [last];
      GaveUpGrows(init, last, a);
    }
  }
}
