/** Stored artifacts: what a row links exists in storage, because a call only deletes what it saved
    itself and never linked. This holds for every document, receipts included. */
module DocumentsArtifacts {
  import opened Common
  import opened Lifecycle
  import opened Documents
  import opened DocumentsInvariant

  /** Artifacts saved by a call and not linked to any row. */
  function Held(call: Call): set<ArtifactId> {
    match call
    case Issue(_, _, pc) =>
      (match pc
       case XmlSaved(x) => {x}
       case Linking(x, z) => {x, z}
       case DroppingZip(x, z) => Elements(x) + Elements(z)
       case DroppingXml(x) => Elements(x)
       case Recording(_, a) => {a}
       case DroppingCdr(a) => Elements(a)
       case _ => {})
    case Send(_, _, _, pc) =>
      (match pc
       case Delivering(_, z) => {z}
       case DroppingPack(_, z) => Elements(z)
       case _ => {})
    case Refresh(_, _, pc) =>
      (match pc
       case Checking(_, _, a) => {a}
       case Committing(_, _, a) => {a}
       case DroppingAnswer(a) => {a}
       case _ => {})
  }

  function HeldBy(w: World, c: CallId): set<ArtifactId> {
    if c in w.calls then Held(w.calls[c]) else {}
  }

  /** The two artifacts of one preparation are different. */
  predicate TwoArtifacts(call: Call) {
    call.Issue? ==>
      && (call.ipc.Linking? ==> call.ipc.x != call.ipc.z)
      && (call.ipc.DroppingZip? && call.ipc.xml.Some? ==> call.ipc.xml != call.ipc.zip)
  }

  /** Every artifact some row links. */
  function Linked(w: World): set<ArtifactId> {
    (set id, a | id in w.docs && a in w.docs[id].Artifacts() :: a)
    + (set m, a | m in w.comms && a in w.comms[m].Artifacts() :: a)
  }

  predicate ArtifactInv(w: World) {
    && (forall a :: a in w.stored ==> a < w.nextArtifact)
    && Linked(w) <= w.stored
    && (forall c :: c in w.calls ==>
          Held(w.calls[c]) <= w.stored && Held(w.calls[c]) !! Linked(w) && TwoArtifacts(w.calls[c]))
    && (forall c1, c2 :: c1 in w.calls && c2 in w.calls && c1 != c2 ==> Held(w.calls[c1]) !! Held(w.calls[c2]))
  }

  /** The call c starts, ends or moves on, holding no more than `may`. */
  predicate Continues(w: World, w': World, c: CallId, may: set<ArtifactId>) {
    || w'.calls == w.calls - {c}
    || (c in w'.calls && w'.calls == w.calls[c := w'.calls[c]] && Held(w'.calls[c]) <= may && TwoArtifacts(w'.calls[c]))
  }

  /** A step that neither saves, deletes nor links an artifact. */
  predicate Quiet(w: World, w': World, c: CallId) {
    && Continues(w, w', c, HeldBy(w, c))
    && w'.stored == w.stored && w'.nextArtifact == w.nextArtifact
    && (forall id :: id in w'.docs ==> w'.docs[id].Artifacts() <= if id in w.docs then w.docs[id].Artifacts() else {})
    && (forall m :: m in w'.comms ==> w'.comms[m].Artifacts() <= if m in w.comms then w.comms[m].Artifacts() else {})
  }

  predicate Saves(w: World, w': World, c: CallId) {
    && Continues(w, w', c, HeldBy(w, c) + {w.nextArtifact})
    && w'.docs == w.docs && w'.comms == w.comms
    && w'.stored == w.stored + {w.nextArtifact} && w'.nextArtifact == w.nextArtifact + 1
  }

  /** Deleting an artifact the call holds. */
  predicate Drops(w: World, w': World, c: CallId, a: ArtifactId) {
    && a in HeldBy(w, c) && Continues(w, w', c, HeldBy(w, c) - {a})
    && w'.docs == w.docs && w'.comms == w.comms
    && w'.stored == w.stored - {a} && w'.nextArtifact == w.nextArtifact
  }

  /** Linking what the call holds to one document row, keeping hold of nothing. */
  predicate LinksDoc(w: World, w': World, c: CallId, id: DocId) {
    && c in w.calls && Continues(w, w', c, {}) && id in w.docs && id in w'.docs
    && w'.docs == w.docs[id := w'.docs[id]] && w'.comms == w.comms
    && w'.docs[id].Artifacts() <= w.docs[id].Artifacts() + HeldBy(w, c)
    && w'.stored == w.stored && w'.nextArtifact == w.nextArtifact
  }

  /** Linking what the call holds to one communication row. */
  predicate LinksComm(w: World, w': World, c: CallId, m: CommId) {
    && c in w.calls && Continues(w, w', c, {}) && m in w.comms && m in w'.comms
    && w'.comms == w.comms[m := w'.comms[m]] && w'.docs.Keys == w.docs.Keys
    && (forall id :: id in w.docs ==> w'.docs[id].Artifacts() == w.docs[id].Artifacts())
    && w'.comms[m].Artifacts() <= w.comms[m].Artifacts() + HeldBy(w, c)
    && w'.stored == w.stored && w'.nextArtifact == w.nextArtifact
  }

  /** How artifacts may flow in one step of call c: at most one new artifact, deletions and links only
      of artifacts the call holds, and what is linked or deleted is no longer held. */
  predicate Flow(w: World, w': World, c: CallId) {
    && w.nextArtifact <= w'.nextArtifact
    && Continues(w, w', c, HeldBy(w', c))
    && (forall a :: a in w'.stored ==> a in w.stored || (a == w.nextArtifact < w'.nextArtifact))
    && (forall a :: a in w.stored && a !in w'.stored ==> a in HeldBy(w, c))
    && (forall a :: a in HeldBy(w', c) ==> a in w'.stored && (a in HeldBy(w, c) || a !in w.stored))
    && (forall a :: a in Linked(w') ==> a in Linked(w) || (a in HeldBy(w, c) && a in w'.stored && a !in HeldBy(w', c)))
  }

  lemma FlowKeeps(w: World, w': World, c: CallId)
    requires ArtifactInv(w) && Flow(w, w', c)
    ensures ArtifactInv(w')
  {
    assert c in w.calls ==> HeldBy(w, c) <= w.stored && HeldBy(w, c) !! Linked(w);
    forall k | k in w'.calls && k != c
      ensures k in w.calls && w'.calls[k] == w.calls[k] && Held(w.calls[k]) <= w'.stored
      ensures Held(w.calls[k]) !! Linked(w') && Held(w.calls[k]) !! HeldBy(w', c)
    {
      assert HeldBy(w, c) !! Held(w.calls[k]);
      assert Held(w.calls[k]) <= w.stored;
    }
    assert HeldBy(w', c) !! Linked(w');
  }

  lemma QuietFlows(w: World, w': World, c: CallId)
    requires ArtifactInv(w) && Quiet(w, w', c)
    ensures Flow(w, w', c)
  {
    assert HeldBy(w', c) <= HeldBy(w, c);
    assert c in w.calls ==> HeldBy(w, c) <= w.stored;
    assert Linked(w') <= Linked(w);
  }

  lemma SaveFlows(w: World, w': World, c: CallId)
    requires ArtifactInv(w) && Saves(w, w', c)
    ensures Flow(w, w', c)
  {
    assert w.nextArtifact !in w.stored;
    assert c in w.calls ==> HeldBy(w, c) <= w.stored;
    assert HeldBy(w', c) <= HeldBy(w, c) + {w.nextArtifact};
    assert Linked(w') == Linked(w);
  }

  lemma DropFlows(w: World, w': World, c: CallId, a: ArtifactId)
    requires ArtifactInv(w) && Drops(w, w', c, a)
    ensures Flow(w, w', c)
  {
    assert HeldBy(w, c) <= w.stored;
    assert HeldBy(w', c) <= HeldBy(w, c) - {a};
    assert Linked(w') == Linked(w);
  }

  lemma LinkDocFlows(w: World, w': World, c: CallId, id: DocId)
    requires ArtifactInv(w) && LinksDoc(w, w', c, id)
    ensures Flow(w, w', c)
  {
    assert HeldBy(w, c) <= w.stored;
    assert HeldBy(w', c) == {};
    assert Linked(w') <= Linked(w) + HeldBy(w, c);
  }

  lemma LinkCommFlows(w: World, w': World, c: CallId, m: CommId)
    requires ArtifactInv(w) && LinksComm(w, w', c, m)
    ensures Flow(w, w', c)
  {
    assert HeldBy(w, c) <= w.stored;
    assert HeldBy(w', c) == {};
    assert Linked(w') <= Linked(w) + HeldBy(w, c);
  }

  /** Every step of a call has one of the five shapes. */
  predicate Shaped(w: World, w': World, c: CallId) {
    || Quiet(w, w', c)
    || Saves(w, w', c)
    || (exists a :: a in HeldBy(w, c) && Drops(w, w', c, a))
    || (exists id :: id in w.docs && LinksDoc(w, w', c, id))
    || (exists m :: m in w.comms && LinksComm(w, w', c, m))
  }

  lemma ShapedFlows(w: World, w': World, c: CallId)
    requires ArtifactInv(w) && Shaped(w, w', c)
    ensures Flow(w, w', c)
  {
    if Quiet(w, w', c) {
      QuietFlows(w, w', c);
    } else if Saves(w, w', c) {
      SaveFlows(w, w', c);
    } else if a :| a in HeldBy(w, c) && Drops(w, w', c, a) {
      DropFlows(w, w', c, a);
    } else if id :| id in w.docs && LinksDoc(w, w', c, id) {
      LinkDocFlows(w, w', c, id);
    } else {
      var m :| m in w.comms && LinksComm(w, w', c, m);
      LinkCommFlows(w, w', c, m);
    }
  }

  lemma ShapedKeeps(w: World, w': World, c: CallId)
    requires ArtifactInv(w) && Shaped(w, w', c)
    ensures ArtifactInv(w')
  {
    ShapedFlows(w, w', c);
    FlowKeeps(w, w', c);
  }

  lemma PrepareShaped(w: World, c: CallId, ok: bool)
    requires c in w.calls && w.calls[c].Issue? && InPrepare(w.calls[c].ipc) && TwoArtifacts(w.calls[c])
    requires w.nextArtifact !in Held(w.calls[c])
    ensures Shaped(w, NextPrepare(w, c, w.calls[c], ok), c)
  {
    var call := w.calls[c];
    var w' := NextPrepare(w, c, call, ok);
    match call.ipc {
      case Generating => assert if ok then Saves(w, w', c) else Quiet(w, w', c);
      case XmlSaved(_) => assert if ok then Saves(w, w', c) else Quiet(w, w', c);
      case Linking(_, _) => assert if ok && call.doc in w.docs then LinksDoc(w, w', c, call.doc) else Quiet(w, w', c);
      case DroppingZip(_, z) => assert if z.Some? && ok then Drops(w, w', c, z.value) else Quiet(w, w', c);
      case DroppingXml(x) => assert if x.Some? && ok then Drops(w, w', c, x.value) else Quiet(w, w', c);
      case Reading => assert Quiet(w, w', c);
      case Locking(_) => assert Quiet(w, w', c);
      case MarkingPrepareError => assert Quiet(w, w', c);
    }
  }

  lemma SubmitShaped(w: World, c: CallId, ok: bool, answer: Answer)
    requires c in w.calls && w.calls[c].Issue? && !InPrepare(w.calls[c].ipc)
    ensures Shaped(w, NextSubmit(w, c, w.calls[c], ok, answer), c)
  {
    var call := w.calls[c];
    var w' := NextSubmit(w, c, call, ok, answer);
    match call.ipc {
      case Answered(_) => assert if ok then Saves(w, w', c) else Quiet(w, w', c);
      case Recording(_, _) => assert if ok && call.doc in w.docs then LinksDoc(w, w', c, call.doc) else Quiet(w, w', c);
      case DroppingCdr(a) => assert if a.Some? && ok then Drops(w, w', c, a.value) else Quiet(w, w', c);
      case Prepared => assert Quiet(w, w', c);
      case Submitting(_) => assert Quiet(w, w', c);
      case Sending(_) => assert Quiet(w, w', c);
      case MarkingSubmitError => assert Quiet(w, w', c);
    }
  }

  lemma SendShaped(w: World, c: CallId, ok: bool)
    requires c in w.calls && w.calls[c].Send?
    ensures Shaped(w, NextSend(w, c, w.calls[c], ok), c)
  {
    var call := w.calls[c];
    var w' := NextSend(w, c, call, ok);
    match call.spc {
      case Packing(_) => assert if ok then Saves(w, w', c) else Quiet(w, w', c);
      case Delivering(m, _) => assert if ok && m in w.comms then LinksComm(w, w', c, m) else Quiet(w, w', c);
      case DroppingPack(_, z) => assert if z.Some? && ok then Drops(w, w', c, z.value) else Quiet(w, w', c);
      case Selecting => assert Quiet(w, w', c);
      case Inserting => assert Quiet(w, w', c);
      case MarkingSendError(_) => assert Quiet(w, w', c);
    }
  }

  lemma {:induction false} PublishAllArtifacts(docs: map<DocId, Document>, ids: seq<DocId>, s: Status, e: EventType)
    ensures PublishAll(docs, ids, s, e).Keys == docs.Keys
    ensures forall id :: id in docs ==> PublishAll(docs, ids, s, e)[id].Artifacts() == docs[id].Artifacts()
    decreases |ids|
  {
    if ids != [] {
      var id := ids[0];
      PublishAllArtifacts(if id in docs then docs[id := docs[id].Publish(s, e)] else docs, ids[1..], s, e);
    }
  }

  lemma RefreshShaped(w: World, c: CallId, ok: bool, answer: Answer)
    requires c in w.calls && w.calls[c].Refresh?
    ensures Shaped(w, NextRefresh(w, c, w.calls[c], ok, answer), c)
  {
    var call := w.calls[c];
    var w' := NextRefresh(w, c, call, ok, answer);
    match call.rpc {
      case Committing(ids, r, a) =>
        if c in w'.calls {
          assert Quiet(w, w', c);
        } else {
          var s := ClosingStatus(w.comms[call.comm].kind, r);
          if s.Some? { PublishAllArtifacts(w.docs, ids, s.value, ClosingEvent(s.value)); }
          assert LinksComm(w, w', c, call.comm);
        }
      case SavingCdr(_, _) => assert if ok && call.comm in w.comms then Saves(w, w', c) else Quiet(w, w', c);
      case DroppingAnswer(a) => assert if ok then Drops(w, w', c, a) else Quiet(w, w', c);
      case ReadingTicket => assert Quiet(w, w', c);
      case Polling(_) => assert Quiet(w, w', c);
      case Checking(_, _, _) => assert Quiet(w, w', c);
    }
  }

  lemma NextKeepsArtifacts(w: World, action: Action)
    requires ArtifactInv(w)
    ensures ArtifactInv(Next(w, action))
  {
    var w' := Next(w, action);
    match action {
      case CreateDocument(_, _, _, _) => assert Linked(w') <= Linked(w);
      case BeginIssue(c, _, _) => if c !in w.calls { ShapedKeeps(w, w', c); }
      case BeginSend(c, _, _, _) => if c !in w.calls { ShapedKeeps(w, w', c); }
      case BeginRefresh(c, _, _) => if c !in w.calls { ShapedKeeps(w, w', c); }
      case Advance(c, ok, answer) =>
        if c in w.calls {
          assert Held(w.calls[c]) <= w.stored && w.nextArtifact !in w.stored;
          AdvanceShaped(w, c, ok, answer);
          ShapedKeeps(w, w', c);
        }
      case Crash(c) => ShapedKeeps(w, w', c);
    }
  }

  lemma AdvanceShaped(w: World, c: CallId, ok: bool, answer: Answer)
    requires c in w.calls && TwoArtifacts(w.calls[c]) && w.nextArtifact !in Held(w.calls[c])
    ensures Shaped(w, Next(w, Advance(c, ok, answer)), c)
  {
    match w.calls[c] {
      case Issue(_, _, pc) =>
        if InPrepare(pc) { PrepareShaped(w, c, ok); } else { SubmitShaped(w, c, ok, answer); }
      case Send(_, _, _, _) => SendShaped(w, c, ok);
      case Refresh(_, _, _) => RefreshShaped(w, c, ok, answer);
    }
  }

  lemma {:induction false} RunKeepsArtifacts(w: World, actions: seq<Action>)
    requires ArtifactInv(w)
    ensures ArtifactInv(Run(w, actions))
  {
    if actions != [] {
      RunKeepsArtifacts(w, actions[..|actions| - 1]);
      NextKeepsArtifacts(Run(w, actions[..|actions| - 1]), actions[|actions| - 1]);
    }
  }
}
