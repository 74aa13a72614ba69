/** When the operations of module DocumentServices succeed: exactly which guards and statements decide,
    whatever other calls do in between. */
module DocumentOutcomes {
  import opened Common
  import opened Lifecycle
  import opened Documents
  import opened DocumentsInvariant
  import opened DocumentsTheorems
  import opened DocumentCalls
  import opened Runs

  // ----- What others cannot change ------------------------------------------------------------

  lemma ReachableAfter(w: World, action: Action)
    requires Reachable(w)
    ensures Reachable(Next(w, action))
  {
    ReachesNext(Next, EMPTY_WORLD, w, action);
  }

  /** While a call holds a non-receipt document, others leave its row and its program point alone. */
  lemma {:induction false} HeldStays(w: World, c: CallId, id: DocId, actions: seq<Action>)
    requires Reachable(w) && c in w.calls && HoldsLock(w.calls[c], id) && id in w.docs && w.docs[id].kind != RECEIPT
    ensures var u := Iterate(Next, w, Foreign(c, actions));
            && Reachable(u) && id in u.docs && u.docs[id] == w.docs[id] && c in u.calls && u.calls[c] == w.calls[c]
  {
    if actions != [] {
      var init, last := actions[..|actions| - 1], actions[|actions| - 1];
      HeldStays(w, c, id, init);
      var v := Iterate(Next, w, Foreign(c, init));
      if BelongsTo(last, c) {
        assert Foreign(c, actions) == Foreign(c, init);
      } else {
        assert Foreign(c, actions) == Foreign(c, init) + [last];
        ForeignGrows(w, c, init, last);
        OnlyTheOwnerWrites(v, last, id, c);
        OtherCallsStay(v, last, c);
        ReachableAfter(v, last);
      }
    }
  }

  lemma {:induction false} ReachableBefore(w: World, c: CallId, actions: seq<Action>)
    requires Reachable(w)
    ensures Reachable(Iterate(Next, w, Foreign(c, actions)))
  {
    if actions != [] {
      var init, last := actions[..|actions| - 1], actions[|actions| - 1];
      ReachableBefore(w, c, init);
      if BelongsTo(last, c) {
        assert Foreign(c, actions) == Foreign(c, init);
      } else {
        assert Foreign(c, actions) == Foreign(c, init) + [last];
        ForeignGrows(w, c, init, last);
        ReachableAfter(Iterate(Next, w, Foreign(c, init)), last);
      }
    }
  }

  lemma CallIsOk(u: World, c: CallId)
    requires Reachable(u) && c in u.calls
    ensures CallOk(u, u.calls[c])
  {
    ReachableInvariants(u);
  }

  lemma CommCovers(u: World, m: CommId)
    requires Reachable(u) && m in u.comms
    ensures Covers(u, u.comms[m].company, u.comms[m].kind, u.comms[m].docs)
  {
    ReachableInvariants(u);
  }

  // ----- issue --------------------------------------------------------------------------------

  /** The index of the statement that comes next on the way to a result; 10 when compensating. */
  function Position(pc: IssuePc): nat {
    match pc
    case Reading => 0
    case Locking(_) => 1
    case Generating => 2
    case XmlSaved(_) => 3
    case Linking(_, _) => 4
    case Prepared => 5
    case Submitting(_) => 6
    case Sending(_) => 7
    case Answered(_) => 8
    case Recording(_, _) => 9
    case _ => 10
  }

  /** The result that a call past the answer carries. */
  function Carried(pc: IssuePc): Option<CdrStatus> {
    match pc
    case Answered(r) => Some(r)
    case Recording(r, _) => Some(r)
    case _ => None
  }

  /** The statement succeeds: it is not refused, and SUNAT's answer to the bill holds a CDR. */
  predicate Good(m: Moment, p: nat) {
    m.ok && (p == 7 ==> m.answer.Cdr?)
  }

  /** One statement of a holder leads on to the next point, or off the way to a result. */
  predicate Moves(u: World, c: CallId, id: DocId, m: Moment, w': World)
    requires c in u.calls && u.calls[c].Issue? && id in u.docs
  {
    var p := Position(u.calls[c].ipc);
    && (Good(m, p) && p < 9 ==>
          && c in w'.calls && HoldsLock(w'.calls[c], id) && Position(w'.calls[c].ipc) == p + 1
          && (p >= 7 ==>
                Carried(w'.calls[c].ipc) == if p == 7 then Some(m.answer.result) else Carried(u.calls[c].ipc)))
    && (Good(m, p) && p == 9 ==> c !in w'.calls)
    && (!Good(m, p) && c in w'.calls ==> w'.calls[c].Issue? && Position(w'.calls[c].ipc) == 10)
    && (!Good(m, p) && c !in w'.calls ==> p < 9)
    && id in w'.docs && w'.docs[id].kind == u.docs[id].kind
  }

  lemma PrepareMoves(u: World, c: CallId, id: DocId, m: Moment)
    requires c in u.calls && HoldsLock(u.calls[c], id) && IssueOk(u, u.calls[c]) && Position(u.calls[c].ipc) <= 4
    ensures Moves(u, c, id, m, NextPrepare(u, c, u.calls[c], m.ok))
  {
  }

  lemma SubmitMoves(u: World, c: CallId, id: DocId, m: Moment)
    requires c in u.calls && HoldsLock(u.calls[c], id) && IssueOk(u, u.calls[c]) && u.docs[id].kind != RECEIPT
    requires u.docs[id].Artifacts() <= u.stored && 5 <= Position(u.calls[c].ipc) <= 9
    ensures Moves(u, c, id, m, NextSubmit(u, c, u.calls[c], m.ok, m.answer))
  {
    if Position(u.calls[c].ipc) == 7 { assert u.calls[c].ipc.z in Elements(u.docs[id].zip); }
  }

  lemma HeldStep(u: World, c: CallId, id: DocId, m: Moment)
    requires c in u.calls && HoldsLock(u.calls[c], id) && IssueOk(u, u.calls[c]) && u.docs[id].kind != RECEIPT
    requires u.docs[id].Artifacts() <= u.stored && Position(u.calls[c].ipc) <= 9
    ensures Moves(u, c, id, m, Own(c, u, m))
  {
    if Position(u.calls[c].ipc) <= 4 { PrepareMoves(u, c, id, m); } else { SubmitMoves(u, c, id, m); }
  }

  lemma CompensationStep(u: World, c: CallId, m: Moment)
    requires c in u.calls && u.calls[c].Issue? && Position(u.calls[c].ipc) == 10
    ensures var w' := Own(c, u, m);
            c in w'.calls ==> w'.calls[c].Issue? && Position(w'.calls[c].ipc) == 10
  {
    if InPrepare(u.calls[c].ipc) {
      assert Own(c, u, m) == NextPrepare(u, c, u.calls[c], m.ok);
    } else {
      assert Own(c, u, m) == NextSubmit(u, c, u.calls[c], m.ok, m.answer);
    }
  }

  /** All statements from p on succeed. */
  predicate AllGood(env: nat -> Moment, p: nat) {
    forall k :: p <= k <= 9 ==> Good(env(k), k)
  }

  /** A holder of a non-receipt on its way to a result, with the statement at its own index to come. */
  predicate OnItsWay(w: World, c: CallId, id: DocId, p: nat) {
    && c in w.calls && HoldsLock(w.calls[c], id) && id in w.docs && w.docs[id].kind != RECEIPT
    && Position(w.calls[c].ipc) == p <= 9
  }

  /** What a holder will report, told from its own statements alone. */
  function IssueExpected(c: CallId, env: nat -> Moment, w: World, p: nat): Option<CdrStatus> {
    if c !in w.calls || !w.calls[c].Issue? || Position(w.calls[c].ipc) == 10 || !AllGood(env, p) then None
    else if p <= 7 then Some(env(7).answer.result)
    else Carried(w.calls[c].ipc)
  }

  ghost predicate IssueInv(c: CallId, id: DocId, w: World, p: nat, n: nat) {
    || (Reachable(w) && OnItsWay(w, c, id, p) && n + p >= 10)
    || (c in w.calls && w.calls[c].Issue? && Position(w.calls[c].ipc) == 10)
  }

  ghost predicate IssueKeeps(c: CallId, id: DocId, env: nat -> Moment, w: World, p: nat, n: nat) {
    KeepsExpectation(CallThread(c), env, (v: World, j: nat, k: nat) => IssueInv(c, id, v, j, k),
                     (v: World, j: nat) => IssueExpected(c, env, v, j),
                     (e: Ending<World, Action>) => IssueResult(e, c), w, p, n)
  }

  lemma HolderKeeps(c: CallId, id: DocId, env: nat -> Moment, w: World, p: nat, n: nat)
    requires Reachable(w) && OnItsWay(w, c, id, p) && n + p >= 10
    ensures IssueKeeps(c, id, env, w, p, n)
  {
    HeldStays(w, c, id, env(p).others);
    var u := Before(c, w, env(p));
    IssueFacts(u, c);
    HeldStep(u, c, id, env(p));
    ReachableAfter(u, Advance(c, env(p).ok, env(p).answer));
    assert AllGood(env, p) <==> Good(env(p), p) && AllGood(env, p + 1);
    StepKeeps(c, env, (v: World, j: nat, k: nat) => IssueInv(c, id, v, j, k),
              (v: World, j: nat) => IssueExpected(c, env, v, j), (e: Ending<World, Action>) => IssueResult(e, c),
              w, p, n);
  }

  lemma CompensationRound(c: CallId, env: nat -> Moment, w: World, i: nat)
    requires c in w.calls && w.calls[c].Issue? && Position(w.calls[c].ipc) == 10
    ensures var u := Before(c, w, env(i));
            var w' := Own(c, u, env(i));
            && c in u.calls && u.calls[c] == w.calls[c]
            && (c in w'.calls ==> w'.calls[c].Issue? && Position(w'.calls[c].ipc) == 10)
  {
    ForeignLeavesCall(w, c, env(i).others);
    CompensationStep(Before(c, w, env(i)), c, env(i));
  }

  lemma CompensationKeeps(c: CallId, id: DocId, env: nat -> Moment, w: World, i: nat, n: nat)
    requires c in w.calls && w.calls[c].Issue? && Position(w.calls[c].ipc) == 10
    ensures IssueKeeps(c, id, env, w, i, n)
  {
    if n > 0 {
      CompensationRound(c, env, w, i);
      StepKeeps(c, env, (v: World, j: nat, k: nat) => IssueInv(c, id, v, j, k),
                (v: World, j: nat) => IssueExpected(c, env, v, j), (e: Ending<World, Action>) => IssueResult(e, c),
                w, i, n);
    }
  }

  /** From the lock on, no other call can come in the way of a non-receipt: only its own statements decide. */
  lemma HeldOutcome(c: CallId, env: nat -> Moment, w: World, id: DocId, p: nat, n: nat)
    requires Reachable(w) && OnItsWay(w, c, id, p) && n + p >= 10
    ensures IssueResult(Course(c, env, w, p, n), c) == IssueExpected(c, env, w, p)
  {
    forall v, j: nat, k: nat | IssueInv(c, id, v, j, k)
      ensures IssueKeeps(c, id, env, v, j, k)
    {
      if c in v.calls && v.calls[c].Issue? && Position(v.calls[c].ipc) == 10 {
        CompensationKeeps(c, id, env, v, j, k);
      } else {
        HolderKeeps(c, id, env, v, j, k);
      }
    }
    FollowInduction(CallThread(c), env, (v: World, j: nat, k: nat) => IssueInv(c, id, v, j, k),
                    (v: World, j: nat) => IssueExpected(c, env, v, j),
                    (e: Ending<World, Action>) => IssueResult(e, c), w, p, n);
  }

  /** What the first read of `prepare` checks: a document of the company that is PENDING or ERROR, a note only with
      its reference. */
  predicate Preparable(u: World, company: CompanyId, id: DocId) {
    && id in u.docs && u.docs[id].company == company && (u.docs[id].status == PENDING || u.docs[id].status == ERROR)
    && (u.docs[id].kind in {CREDIT_NOTE, DEBIT_NOTE} ==> u.docs[id].reference)
  }

  /** The worlds that the read and the lock of an issue find. */
  function AtRead(c: CallId, company: CompanyId, id: DocId, env: nat -> Moment, w: World): World {
    Before(c, Next(w, BeginIssue(c, company, id)), env(0))
  }

  function AtLock(c: CallId, company: CompanyId, id: DocId, env: nat -> Moment, w: World): World {
    Before(c, Own(c, AtRead(c, company, id, env, w), env(0)), env(1))
  }

  /** The lock is won: the row was preparable when read, and still has the status that was read. */
  predicate WinsLock(c: CallId, company: CompanyId, id: DocId, env: nat -> Moment, w: World) {
    var u, v := AtRead(c, company, id, env, w), AtLock(c, company, id, env, w);
    && env(0).ok && Preparable(u, company, id)
    && env(1).ok && v.Owns(company, id) && v.docs[id].status == u.docs[id].status
  }

  lemma ReadGains(c: CallId, company: CompanyId, id: DocId, env: nat -> Moment, w: World, i: nat, n: nat)
      returns (w': World)
    requires Reachable(w) && c in w.calls && w.calls[c] == Issue(company, id, Reading) && n >= 1
    requires env(i).ok && Preparable(Before(c, w, env(i)), company, id)
    ensures w' == Own(c, Before(c, w, env(i)), env(i)) && Reachable(w') && c in w'.calls
    ensures w'.calls[c] == Issue(company, id, Locking(Before(c, w, env(i)).docs[id].status))
    ensures Course(c, env, w, i, n) == Course(c, env, w', i + 1, n - 1)
  {
    Found(c, env, w, i, n);
    var u := Before(c, w, env(i));
    w' := Own(c, u, env(i));
    assert w' == NextPrepare(u, c, Issue(company, id, Reading), true);
  }

  lemma ReadFails(c: CallId, company: CompanyId, id: DocId, env: nat -> Moment, w: World, i: nat, n: nat)
    requires c in w.calls && w.calls[c] == Issue(company, id, Reading) && n >= 1
    requires !(env(i).ok && Preparable(Before(c, w, env(i)), company, id))
    ensures IssueResult(Course(c, env, w, i, n), c) == None
  {
    StepCourse(c, env, w, i, n);
    ForeignLeavesCall(w, c, env(i).others);
    var u := Before(c, w, env(i));
    assert Own(c, u, env(i)) == NextPrepare(u, c, Issue(company, id, Reading), env(i).ok);
  }

  lemma LockGains(c: CallId, company: CompanyId, id: DocId, seen: Status, env: nat -> Moment, w: World, i: nat, n: nat)
      returns (locked: World)
    requires Reachable(w) && c in w.calls && w.calls[c] == Issue(company, id, Locking(seen)) && n >= 1
    requires var v := Before(c, w, env(i)); env(i).ok && v.Owns(company, id) && v.docs[id].status == seen
    ensures Course(c, env, w, i, n) == Course(c, env, locked, i + 1, n - 1) && Reachable(locked)
    ensures c in locked.calls && locked.calls[c] == Issue(company, id, Generating)
    ensures id in locked.docs && locked.docs[id].kind == Before(c, w, env(i)).docs[id].kind
  {
    Found(c, env, w, i, n);
    var v := Before(c, w, env(i));
    locked := Own(c, v, env(i));
    assert locked == NextPrepare(v, c, Issue(company, id, Locking(seen)), true);
  }

  lemma LockFails(c: CallId, company: CompanyId, id: DocId, seen: Status, env: nat -> Moment, w: World, i: nat, n: nat)
    requires c in w.calls && w.calls[c] == Issue(company, id, Locking(seen)) && n >= 1
    requires var v := Before(c, w, env(i)); !(env(i).ok && v.Owns(company, id) && v.docs[id].status == seen)
    ensures IssueResult(Course(c, env, w, i, n), c) == None
  {
    StepCourse(c, env, w, i, n);
    ForeignLeavesCall(w, c, env(i).others);
    var v := Before(c, w, env(i));
    assert Own(c, v, env(i)) == NextPrepare(v, c, Issue(company, id, Locking(seen)), env(i).ok);
  }

  lemma KindStays(w: World, action: Action, id: DocId)
    requires id in w.docs
    ensures id in Next(w, action).docs && Next(w, action).docs[id].kind == w.docs[id].kind
  {
    EventsMatchStatus(w, action, id);
    if action.Advance? && action.c in w.calls && w.calls[action.c].Refresh? && w.calls[action.c].rpc.Committing? {
      var pc, m := w.calls[action.c].rpc, w.calls[action.c].comm;
      if m in w.comms {
        var s := ClosingStatus(w.comms[m].kind, pc.result);
        if s.Some? { PublishAllRow(w.docs, pc.docs, s.value, id); }
      }
    }
  }

  lemma {:induction false} KindStaysBefore(w: World, c: CallId, actions: seq<Action>, id: DocId)
    requires id in w.docs
    ensures var u := Iterate(Next, w, Foreign(c, actions)); id in u.docs && u.docs[id].kind == w.docs[id].kind
  {
    if actions != [] {
      var init, last := actions[..|actions| - 1], actions[|actions| - 1];
      KindStaysBefore(w, c, init, id);
      if BelongsTo(last, c) {
        assert Foreign(c, actions) == Foreign(c, init);
      } else {
        assert Foreign(c, actions) == Foreign(c, init) + [last];
        ForeignGrows(w, c, init, last);
        KindStays(Iterate(Next, w, Foreign(c, init)), last, id);
      }
    }
  }

  lemma IssueStaysIssue(u: World, c: CallId, m: Moment)
    requires c in u.calls && u.calls[c].Issue?
    ensures c in Own(c, u, m).calls ==> Own(c, u, m).calls[c].Issue? && Own(c, u, m).calls[c].doc == u.calls[c].doc
  {
    if InPrepare(u.calls[c].ipc) {
      assert Own(c, u, m) == NextPrepare(u, c, u.calls[c], m.ok);
    } else {
      assert Own(c, u, m) == NextSubmit(u, c, u.calls[c], m.ok, m.answer);
    }
  }

  ghost predicate ReceiptInv(c: CallId, id: DocId, w: World, i: nat, n: nat) {
    && Reachable(w) && id in w.docs && w.docs[id].kind == RECEIPT
    && c in w.calls && w.calls[c].Issue? && w.calls[c].doc == id
  }

  function NoResult(w: World, i: nat): Option<CdrStatus> {
    None
  }

  ghost predicate ReceiptKeepsIt(c: CallId, id: DocId, env: nat -> Moment, w: World, i: nat, n: nat) {
    KeepsExpectation(CallThread(c), env, (v: World, j: nat, k: nat) => ReceiptInv(c, id, v, j, k),
                     (v: World, j: nat) => NoResult(v, j), (e: Ending<World, Action>) => IssueResult(e, c), w, i, n)
  }

  lemma ReceiptKeeps(c: CallId, id: DocId, env: nat -> Moment, w: World, i: nat, n: nat)
    requires ReceiptInv(c, id, w, i, n)
    ensures ReceiptKeepsIt(c, id, env, w, i, n)
  {
    if n > 0 {
      ForeignLeavesCall(w, c, env(i).others);
      ReachableBefore(w, c, env(i).others);
      KindStaysBefore(w, c, env(i).others, id);
      var u := Before(c, w, env(i));
      CallIsOk(u, c);
      IssueStaysIssue(u, c, env(i));
      ReachableAfter(u, Advance(c, env(i).ok, env(i).answer));
      KindStays(u, Advance(c, env(i).ok, env(i).answer), id);
      StepKeeps(c, env, (v: World, j: nat, k: nat) => ReceiptInv(c, id, v, j, k), (v: World, j: nat) => NoResult(v, j),
                (e: Ending<World, Action>) => IssueResult(e, c), w, i, n);
    }
  }

  /** `issue` never reports a result on a receipt. */
  lemma ReceiptHasNoResult(c: CallId, env: nat -> Moment, w: World, id: DocId, i: nat, n: nat)
    requires ReceiptInv(c, id, w, i, n)
    ensures IssueResult(Course(c, env, w, i, n), c) == None
  {
    forall v, j: nat, k: nat | ReceiptInv(c, id, v, j, k)
      ensures ReceiptKeepsIt(c, id, env, v, j, k)
    {
      ReceiptKeeps(c, id, env, v, j, k);
    }
    FollowInduction(CallThread(c), env, (v: World, j: nat, k: nat) => ReceiptInv(c, id, v, j, k),
                    (v: World, j: nat) => NoResult(v, j), (e: Ending<World, Action>) => IssueResult(e, c), w, i, n);
  }

  /** `issue` reports a result if and only if it wins the lock, the document is no receipt, every statement
      after the lock succeeds and the bill is answered with a CDR; the result is then that of the CDR. What
      other calls do after the lock does not matter. */
  lemma IssueSucceedsIff(c: CallId, company: CompanyId, id: DocId, env: nat -> Moment, w: World, n: nat)
    requires Reachable(w) && c !in w.calls && n >= 10
    ensures IssueResult(Course(c, env, Next(w, BeginIssue(c, company, id)), 0, n), c)
            == if && WinsLock(c, company, id, env, w) && AllGood(env, 2)
                  && AtLock(c, company, id, env, w).docs[id].kind != RECEIPT
               then Some(env(7).answer.result) else None
  {
    ReachableAfter(w, BeginIssue(c, company, id));
    ReadOutcome(c, company, id, env, Next(w, BeginIssue(c, company, id)), 0, n);
  }

  /** What an issue will report, told from its own statements: from the lock on, ... */
  function LockExpected(c: CallId, company: CompanyId, id: DocId, seen: Status, env: nat -> Moment, w: World, p: nat)
    : Option<CdrStatus>
    requires p <= 6
  {
    var v := Before(c, w, env(p));
    if && env(p).ok && v.Owns(company, id) && v.docs[id].status == seen
       && v.docs[id].kind != RECEIPT && AllGood(env, p + 1)
    then Some(env(7).answer.result) else None
  }

  lemma LockOutcome(c: CallId, company: CompanyId, id: DocId, seen: Status, env: nat -> Moment, w: World, p: nat,
                    n: nat)
    requires Reachable(w) && c in w.calls && w.calls[c] == Issue(company, id, Locking(seen)) && p == 1 && n >= 9
    ensures IssueResult(Course(c, env, w, p, n), c) == LockExpected(c, company, id, seen, env, w, p)
  {
    var v := Before(c, w, env(p));
    if env(p).ok && v.Owns(company, id) && v.docs[id].status == seen {
      var locked := LockGains(c, company, id, seen, env, w, p, n);
      AfterLock(c, env, locked, id, p + 1, n - 1);
    } else {
      LockFails(c, company, id, seen, env, w, p, n);
    }
  }

  /** ... and from the first read on. */
  lemma ReadOutcome(c: CallId, company: CompanyId, id: DocId, env: nat -> Moment, w: World, p: nat, n: nat)
    requires Reachable(w) && c in w.calls && w.calls[c] == Issue(company, id, Reading) && p == 0 && n >= 10
    ensures var u := Before(c, w, env(p));
            IssueResult(Course(c, env, w, p, n), c)
            == if env(p).ok && Preparable(u, company, id)
               then LockExpected(c, company, id, u.docs[id].status, env, Own(c, u, env(p)), p + 1) else None
  {
    if env(p).ok && Preparable(Before(c, w, env(p)), company, id) {
      ReadThenLock(c, company, id, env, w, p, n);
    } else {
      ReadFails(c, company, id, env, w, p, n);
    }
  }

  lemma ReadThenLock(c: CallId, company: CompanyId, id: DocId, env: nat -> Moment, w: World, p: nat, n: nat)
    requires Reachable(w) && c in w.calls && w.calls[c] == Issue(company, id, Reading) && p == 0 && n >= 10
    requires env(p).ok && Preparable(Before(c, w, env(p)), company, id)
    ensures var u := Before(c, w, env(p));
            IssueResult(Course(c, env, w, p, n), c)
            == LockExpected(c, company, id, u.docs[id].status, env, Own(c, u, env(p)), p + 1)
  {
    var w' := ReadGains(c, company, id, env, w, p, n);
    LockOutcome(c, company, id, w'.calls[c].ipc.seen, env, w', p + 1, n - 1);
  }

  lemma AfterLock(c: CallId, env: nat -> Moment, w: World, id: DocId, p: nat, n: nat)
    requires Reachable(w) && c in w.calls && w.calls[c].Issue? && w.calls[c].doc == id && w.calls[c].ipc == Generating
    requires id in w.docs && p == 2 && n + p >= 10
    ensures IssueResult(Course(c, env, w, p, n), c)
            == if w.docs[id].kind != RECEIPT && AllGood(env, p) then Some(env(7).answer.result) else None
  {
    if w.docs[id].kind == RECEIPT {
      ReceiptHasNoResult(c, env, w, id, p, n);
    } else {
      HeldOutcome(c, env, w, id, p, n);
    }
  }

  /** In particular, undisturbed and with everything going well, a preparable document gets its result. */
  lemma UndisturbedIssueSucceeds(c: CallId, company: CompanyId, id: DocId, env: nat -> Moment, w: World, n: nat)
    requires Reachable(w) && c !in w.calls && Preparable(w, company, id) && w.docs[id].kind != RECEIPT && n >= 10
    requires env(0).others == [] && env(1).others == [] && env(0).ok && env(1).ok && AllGood(env, 2)
    ensures IssueResult(Course(c, env, Next(w, BeginIssue(c, company, id)), 0, n), c)
            == Some(env(7).answer.result)
  {
    var begun := Next(w, BeginIssue(c, company, id));
    assert AtRead(c, company, id, env, w) == begun;
    assert Own(c, begun, env(0)) == NextPrepare(begun, c, Issue(company, id, Reading), true);
    IssueSucceedsIff(c, company, id, env, w, n);
  }

  // ----- createAndSend ------------------------------------------------------------------------

  /** Where a communication stands on the way to its ticket; 4 when compensating. */
  function SendPosition(pc: SendPc): nat {
    match pc
    case Selecting => 0
    case Inserting => 1
    case Packing(_) => 2
    case Delivering(_, _) => 3
    case _ => 4
  }

  /** 1 to 500 documents of the company, none twice: for a void accepted or observed ones that are no receipts, for
      a summary pending receipts. */
  predicate Eligible(u: World, company: CompanyId, kind: TicketKind, ids: seq<DocId>) {
    && 1 <= |ids| <= 500
    && (forall i, j :: 0 <= i < j < |ids| ==> ids[i] != ids[j])
    && forall i :: 0 <= i < |ids| ==>
         && ids[i] in u.docs && u.docs[ids[i]].company == company
         && match kind
            case VoidCommunication =>
              && u.docs[ids[i]].kind != RECEIPT
              && (u.docs[ids[i]].status == ACCEPTED || u.docs[ids[i]].status == OBSERVED)
            case DailySummary => u.docs[ids[i]].kind == RECEIPT && u.docs[ids[i]].status == PENDING
  }

  lemma EligibleMeans(u: World, company: CompanyId, kind: TicketKind, ids: seq<DocId>)
    ensures Eligible(u, company, kind, ids) <==> Selectable(u, company, kind, ids)
  {
    if Selectable(u, company, kind, ids) {
      forall i | 0 <= i < |ids|
        ensures ids[i] in ids
      {
      }
    }
  }

  /** The statement of a communication succeeds: it is not refused and, for the first, the documents are
      eligible. */
  predicate SendGood(u: World, c: CallId, m: Moment)
    requires c in u.calls && u.calls[c].Send?
  {
    var call := u.calls[c];
    m.ok && (call.spc.Selecting? ==> Eligible(u, call.company, call.kind, call.ids))
  }

  lemma SendStep(u: World, c: CallId, m: Moment)
    requires c in u.calls && u.calls[c].Send? && SendOk(u, u.calls[c])
    ensures var p, w' := SendPosition(u.calls[c].spc), Own(c, u, m);
            && (p <= 2 && SendGood(u, c, m) ==>
                  c in w'.calls && w'.calls[c].Send? && SendPosition(w'.calls[c].spc) == p + 1)
            && (p == 3 && SendGood(u, c, m) ==> c !in w'.calls)
            && (p <= 3 && !SendGood(u, c, m) ==>
                  if c in w'.calls then w'.calls[c].Send? && SendPosition(w'.calls[c].spc) == 4 else p <= 1)
            && (p == 4 && c in w'.calls ==> w'.calls[c].Send? && SendPosition(w'.calls[c].spc) == 4)
  {
    assert Own(c, u, m) == NextSend(u, c, u.calls[c], m.ok);
    EligibleMeans(u, u.calls[c].company, u.calls[c].kind, u.calls[c].ids);
  }

  lemma Visit(c: CallId, m: Moment, w: World)
    requires Reachable(w) && c in w.calls
    ensures var u := Before(c, w, m);
            && Reachable(u) && c in u.calls && u.calls[c] == w.calls[c] && CallOk(u, u.calls[c])
            && Reachable(Own(c, u, m))
  {
    ForeignLeavesCall(w, c, m.others);
    ReachableBefore(w, c, m.others);
    CallIsOk(Before(c, w, m), c);
    ReachableAfter(Before(c, w, m), Advance(c, m.ok, m.answer));
  }

  /** The state that a statement of a reachable call finds. */
  lemma Found(c: CallId, env: nat -> Moment, w: World, i: nat, n: nat)
    requires Reachable(w) && c in w.calls && n > 0
    ensures var u := Before(c, w, env(i));
            && Reachable(u) && c in u.calls && u.calls[c] == w.calls[c] && CallOk(u, u.calls[c])
            && Reachable(Own(c, u, env(i)))
            && Course(c, env, w, i, n)
               == if c in Own(c, u, env(i)).calls then Course(c, env, Own(c, u, env(i)), i + 1, n - 1)
                                          else Finished(u, Advance(c, env(i).ok, env(i).answer), Own(c, u, env(i)))
  {
    StepCourse(c, env, w, i, n);
    Visit(c, env(i), w);
  }

  predicate SentFrom(env: nat -> Moment, p: nat) {
    forall k :: p <= k <= 3 ==> env(k).ok
  }

  predicate SendExpected(c: CallId, env: nat -> Moment, w: World, p: nat) {
    && c in w.calls && w.calls[c].Send? && SendPosition(w.calls[c].spc) <= 3
    && SentFrom(env, p)
    && (SendPosition(w.calls[c].spc) == 0 ==>
          Eligible(Before(c, w, env(p)), w.calls[c].company, w.calls[c].kind, w.calls[c].ids))
  }

  ghost predicate SendInv(c: CallId, w: World, p: nat, n: nat) {
    && Reachable(w) && c in w.calls && w.calls[c].Send?
    && (SendPosition(w.calls[c].spc) <= 3 ==> SendPosition(w.calls[c].spc) == p && n + p >= 4)
  }

  ghost predicate SendKeepsIt(c: CallId, env: nat -> Moment, w: World, p: nat, n: nat) {
    KeepsExpectation(CallThread(c), env, (v: World, j: nat, k: nat) => SendInv(c, v, j, k),
                     (v: World, j: nat) => SendExpected(c, env, v, j),
                     (e: Ending<World, Action>) => SendResult(e, c).Some?, w, p, n)
  }

  /** One statement leaves the expectation as it is, or ends the call as expected. */
  ghost predicate SendStepKept(c: CallId, env: nat -> Moment, w: World, p: nat, n: nat)
    requires n > 0
  {
    var u := Before(c, w, env(p));
    var w' := Own(c, u, env(p));
    if c in w'.calls then SendInv(c, w', p + 1, n - 1) && SendExpected(c, env, w', p + 1) == SendExpected(c, env, w, p)
    else c in u.calls && u.calls[c].Send? && SendExpected(c, env, w, p) == u.calls[c].spc.Delivering?
  }

  lemma SelectStep(c: CallId, env: nat -> Moment, w: World, p: nat, n: nat)
    requires SendInv(c, w, p, n) && SendPosition(w.calls[c].spc) == 0
    ensures SendStepKept(c, env, w, p, n)
  {
    Visit(c, env(p), w);
    SendStep(Before(c, w, env(p)), c, env(p));
    assert SentFrom(env, 0) <==> env(0).ok && SentFrom(env, 1);
  }

  lemma LaterSendStep(c: CallId, env: nat -> Moment, w: World, p: nat, n: nat)
    requires SendInv(c, w, p, n) && 1 <= SendPosition(w.calls[c].spc) <= 3
    ensures SendStepKept(c, env, w, p, n)
  {
    Visit(c, env(p), w);
    SendStep(Before(c, w, env(p)), c, env(p));
    assert SentFrom(env, p) <==> env(p).ok && SentFrom(env, p + 1);
  }

  lemma AbandonedSendStep(c: CallId, env: nat -> Moment, w: World, p: nat, n: nat)
    requires SendInv(c, w, p, n) && SendPosition(w.calls[c].spc) == 4 && n > 0
    ensures SendStepKept(c, env, w, p, n)
  {
    Visit(c, env(p), w);
    SendStep(Before(c, w, env(p)), c, env(p));
  }

  lemma SendKeeps(c: CallId, env: nat -> Moment, w: World, p: nat, n: nat)
    requires SendInv(c, w, p, n)
    ensures SendKeepsIt(c, env, w, p, n)
  {
    if n > 0 {
      var position := SendPosition(w.calls[c].spc);
      if position == 0 { SelectStep(c, env, w, p, n); }
      else if position <= 3 { LaterSendStep(c, env, w, p, n); }
      else { AbandonedSendStep(c, env, w, p, n); }
      StepKeeps(c, env, (v: World, j: nat, k: nat) => SendInv(c, v, j, k),
                (v: World, j: nat) => SendExpected(c, env, v, j), (e: Ending<World, Action>) => SendResult(e, c).Some?,
                w, p, n);
    }
  }

  /** `createAndSend` reports a communication if and only if its documents are eligible when read and its four
      statements succeed. */
  lemma SendSucceedsIff(c: CallId, company: CompanyId, kind: TicketKind, ids: seq<DocId>, env: nat -> Moment,
                         w: World, n: nat)
    requires Reachable(w) && c !in w.calls && n >= 4
    ensures var begun := Next(w, BeginSend(c, company, kind, ids));
            SendResult(Course(c, env, begun, 0, n), c).Some?
            <==> Eligible(Before(c, begun, env(0)), company, kind, ids) && SentFrom(env, 0)
  {
    var begun := Next(w, BeginSend(c, company, kind, ids));
    ReachableAfter(w, BeginSend(c, company, kind, ids));
    forall v, j: nat, k: nat | SendInv(c, v, j, k)
      ensures SendKeepsIt(c, env, v, j, k)
    {
      SendKeeps(c, env, v, j, k);
    }
    FollowInduction(CallThread(c), env, (v: World, j: nat, k: nat) => SendInv(c, v, j, k),
                    (v: World, j: nat) => SendExpected(c, env, v, j),
                    (e: Ending<World, Action>) => SendResult(e, c).Some?, begun, 0, n);
  }

  // ----- refreshStatus ------------------------------------------------------------------------

  predicate HasTicket(u: World, company: CompanyId, comm: CommId) {
    comm in u.comms && u.comms[comm].company == company && u.comms[comm].status == TicketSent && u.comms[comm].ticket
  }

  predicate NeedsCheck(u: World, comm: CommId, r: CdrStatus) {
    comm in u.comms && u.comms[comm].kind == VoidCommunication && r != CdrRejected
  }

  /** Documents of the company that are accepted or observed. */
  predicate AllSettled(u: World, company: CompanyId, ids: seq<DocId>) {
    forall id :: id in ids ==>
      && id in u.docs && u.docs[id].company == company
      && (u.docs[id].status == ACCEPTED || u.docs[id].status == OBSERVED)
  }

  /** The lifecycle lets exactly accepted and observed documents be voided. */
  lemma SettledMeans(u: World, company: CompanyId, ids: seq<DocId>)
    ensures AllSettled(u, company, ids) <==> AllVoidable(u, company, ids)
  {
  }

  /** Where the next statement of a call leads. */
  function After(c: CallId, env: nat -> Moment, w: World, i: nat): World {
    Own(c, Before(c, w, env(i)), env(i))
  }

  /** What a refresh will come to, told from what its own statements find: from the transaction on, ... */
  predicate CloseExpected(c: CallId, env: nat -> Moment, w: World, i: nat) {
    && c in w.calls && w.calls[c].Refresh?
    && match w.calls[c].rpc
       case Committing(_, _, _) => env(i).ok
       case Checking(ids, _, _) =>
         env(i).ok && AllSettled(Before(c, w, env(i)), w.calls[c].company, ids) && env(i + 1).ok
       case _ => false
  }

  /** ... from the saving of the CDR on, ... */
  predicate SaveExpected(c: CallId, env: nat -> Moment, w: World, i: nat) {
    env(i).ok && CloseExpected(c, env, After(c, env, w, i), i + 1)
  }

  /** ... from the status query on, ... */
  predicate PollExpected(c: CallId, env: nat -> Moment, w: World, i: nat) {
    env(i).ok && env(i).answer.Cdr? && SaveExpected(c, env, After(c, env, w, i), i + 1)
  }

  /** ... and from the start. */
  predicate TicketExpected(c: CallId, env: nat -> Moment, w: World, i: nat)
    requires c in w.calls && w.calls[c].Refresh?
  {
    && env(i).ok && HasTicket(Before(c, w, env(i)), w.calls[c].company, w.calls[c].comm)
    && PollExpected(c, env, After(c, env, w, i), i + 1)
  }

  predicate RefreshExpected(c: CallId, env: nat -> Moment, w: World, i: nat) {
    && c in w.calls && w.calls[c].Refresh?
    && match w.calls[c].rpc
       case ReadingTicket => TicketExpected(c, env, w, i)
       case Polling(_) => PollExpected(c, env, w, i)
       case SavingCdr(_, _) => SaveExpected(c, env, w, i)
       case _ => CloseExpected(c, env, w, i)
  }

  /** How many statements are enough from a program point on. */
  function Needed(pc: RefreshPc): nat {
    match pc
    case ReadingTicket => 6
    case Polling(_) => 5
    case SavingCdr(_, _) => 4
    case Checking(_, _, _) => 3
    case Committing(_, _, _) => 2
    case _ => 0
  }

  ghost predicate RefreshInv(c: CallId, w: World, i: nat, n: nat) {
    && Reachable(w) && c in w.calls && w.calls[c].Refresh? && n >= Needed(w.calls[c].rpc)
  }

  ghost predicate RefreshKeepsIt(c: CallId, env: nat -> Moment, w: World, i: nat, n: nat) {
    KeepsExpectation(CallThread(c), env, (v: World, j: nat, k: nat) => RefreshInv(c, v, j, k),
                     (v: World, j: nat) => RefreshExpected(c, env, v, j),
                     (e: Ending<World, Action>) => RefreshResult(e, c), w, i, n)
  }

  /** One statement of a refresh, by its program point. */
  lemma TicketStep(u: World, c: CallId, m: Moment)
    requires c in u.calls && u.calls[c].Refresh? && u.calls[c].rpc.ReadingTicket?
    ensures var call := u.calls[c];
            if m.ok && HasTicket(u, call.company, call.comm)
            then Own(c, u, m).calls == u.calls[c := call.(rpc := Polling(u.comms[call.comm].docs))]
            else c !in Own(c, u, m).calls
  {
    assert Own(c, u, m) == NextRefresh(u, c, u.calls[c], m.ok, m.answer);
  }

  lemma PollStep(u: World, c: CallId, m: Moment)
    requires Reachable(u) && c in u.calls && u.calls[c].Refresh? && u.calls[c].rpc.Polling?
    ensures var call := u.calls[c];
            if m.ok && m.answer.Cdr?
            then Own(c, u, m).calls == u.calls[c := call.(rpc := SavingCdr(call.rpc.docs, m.answer.result))]
            else c !in Own(c, u, m).calls
  {
    CallIsOk(u, c);
    assert Own(c, u, m) == NextRefresh(u, c, u.calls[c], m.ok, m.answer);
  }

  lemma SaveStep(u: World, c: CallId, m: Moment)
    requires Reachable(u) && c in u.calls && u.calls[c].Refresh? && u.calls[c].rpc.SavingCdr?
    ensures var call, w' := u.calls[c], Own(c, u, m);
            && (c in w'.calls <==> m.ok)
            && (m.ok ==>
                  && w'.calls[c].Refresh? && w'.calls[c].company == call.company
                  && if NeedsCheck(u, call.comm, call.rpc.result)
                     then w'.calls[c].rpc.Checking? && w'.calls[c].rpc.docs == call.rpc.docs
                     else w'.calls[c].rpc.Committing?)
  {
    CallIsOk(u, c);
    assert Own(c, u, m) == NextRefresh(u, c, u.calls[c], m.ok, m.answer);
  }

  lemma CheckStep(u: World, c: CallId, m: Moment)
    requires c in u.calls && u.calls[c].Refresh? && u.calls[c].rpc.Checking?
    ensures var call := u.calls[c];
            if m.ok && AllSettled(u, call.company, call.rpc.docs)
            then Own(c, u, m).calls
                 == u.calls[c := call.(rpc := Committing(call.rpc.docs, call.rpc.result, call.rpc.a))]
            else c !in Own(c, u, m).calls
  {
    SettledMeans(u, u.calls[c].company, u.calls[c].rpc.docs);
    assert Own(c, u, m) == NextRefresh(u, c, u.calls[c], m.ok, m.answer);
  }

  lemma CommitStep(u: World, c: CallId, m: Moment)
    requires Reachable(u) && c in u.calls && u.calls[c].Refresh? && u.calls[c].rpc.Committing?
    ensures if m.ok then c !in Own(c, u, m).calls
            else Own(c, u, m).calls == u.calls[c := u.calls[c].(rpc := DroppingAnswer(u.calls[c].rpc.a))]
  {
    CallIsOk(u, c);
    CommCovers(u, u.calls[c].comm);
    assert Own(c, u, m) == NextRefresh(u, c, u.calls[c], m.ok, m.answer);
  }

  lemma DropStep(u: World, c: CallId, m: Moment)
    requires c in u.calls && u.calls[c].Refresh? && u.calls[c].rpc.DroppingAnswer?
    ensures c !in Own(c, u, m).calls
  {
    assert Own(c, u, m) == NextRefresh(u, c, u.calls[c], m.ok, m.answer);
  }

  /** One statement of a refresh: on to the next point as expected, or over. */
  lemma RefreshRound(c: CallId, env: nat -> Moment, w: World, i: nat, n: nat)
    requires RefreshInv(c, w, i, n) && n > 0
    ensures var u, w' := Before(c, w, env(i)), After(c, env, w, i);
            && c in u.calls && u.calls[c] == w.calls[c]
            && if c in w'.calls
               then && RefreshInv(c, w', i + 1, n - 1)
                    && RefreshExpected(c, env, w', i + 1) == RefreshExpected(c, env, w, i)
               else RefreshExpected(c, env, w, i) == u.calls[c].rpc.Committing?
  {
    Visit(c, env(i), w);
    var u := Before(c, w, env(i));
    match u.calls[c].rpc {
      case ReadingTicket => TicketStep(u, c, env(i));
      case Polling(_) => PollStep(u, c, env(i));
      case SavingCdr(_, _) => SaveStep(u, c, env(i));
      case Checking(_, _, _) => CheckStep(u, c, env(i));
      case Committing(_, _, _) => CommitStep(u, c, env(i));
      case _ => DropStep(u, c, env(i));
    }
  }

  lemma RefreshKeeps(c: CallId, env: nat -> Moment, w: World, i: nat, n: nat)
    requires RefreshInv(c, w, i, n)
    ensures RefreshKeepsIt(c, env, w, i, n)
  {
    if n > 0 {
      RefreshRound(c, env, w, i, n);
      StepKeeps(c, env, (v: World, j: nat, k: nat) => RefreshInv(c, v, j, k),
                (v: World, j: nat) => RefreshExpected(c, env, v, j),
                (e: Ending<World, Action>) => RefreshResult(e, c), w, i, n);
    }
  }

  lemma RefreshOutcome(c: CallId, env: nat -> Moment, w: World, i: nat, n: nat)
    requires RefreshInv(c, w, i, n)
    ensures RefreshResult(Course(c, env, w, i, n), c) <==> RefreshExpected(c, env, w, i)
  {
    forall v, j: nat, k: nat | RefreshInv(c, v, j, k)
      ensures RefreshKeepsIt(c, env, v, j, k)
    {
      RefreshKeeps(c, env, v, j, k);
    }
    FollowInduction(CallThread(c), env, (v: World, j: nat, k: nat) => RefreshInv(c, v, j, k),
                    (v: World, j: nat) => RefreshExpected(c, env, v, j),
                    (e: Ending<World, Action>) => RefreshResult(e, c), w, i, n);
  }

  /** The expectations written out: from the saving of the CDR on, ... */
  lemma SaveMeans(c: CallId, env: nat -> Moment, w: World, i: nat)
    requires Reachable(w) && c in w.calls && w.calls[c].Refresh? && w.calls[c].rpc.SavingCdr?
    ensures var call, u := w.calls[c], Before(c, w, env(i));
            SaveExpected(c, env, w, i)
            <==> && env(i).ok && env(i + 1).ok
                 && (NeedsCheck(u, call.comm, call.rpc.result) ==>
                       && AllSettled(Before(c, After(c, env, w, i), env(i + 1)), call.company, call.rpc.docs)
                       && env(i + 2).ok)
  {
    Visit(c, env(i), w);
    SaveStep(Before(c, w, env(i)), c, env(i));
  }

  /** ... and from the status query on. */
  lemma PollMeans(c: CallId, env: nat -> Moment, w: World, i: nat)
    requires Reachable(w) && c in w.calls && w.calls[c].Refresh? && w.calls[c].rpc.Polling?
    ensures var call, saved := w.calls[c], After(c, env, w, i);
            var u := Before(c, saved, env(i + 1));
            PollExpected(c, env, w, i)
            <==> && env(i).ok && env(i).answer.Cdr? && env(i + 1).ok && env(i + 2).ok
                 && (NeedsCheck(u, call.comm, env(i).answer.result) ==>
                       && AllSettled(Before(c, After(c, env, saved, i + 1), env(i + 2)), call.company, call.rpc.docs)
                       && env(i + 3).ok)
  {
    Visit(c, env(i), w);
    PollStep(Before(c, w, env(i)), c, env(i));
    if env(i).ok && env(i).answer.Cdr? { SaveMeans(c, env, After(c, env, w, i), i + 1); }
  }

  lemma TicketMeans(c: CallId, env: nat -> Moment, w: World, i: nat)
    requires Reachable(w) && c in w.calls && w.calls[c].Refresh? && w.calls[c].rpc.ReadingTicket?
    ensures var call, read, polled := w.calls[c], Before(c, w, env(i)), After(c, env, w, i);
            var answered := After(c, env, polled, i + 1);
            var saved := After(c, env, answered, i + 2);
            TicketExpected(c, env, w, i)
            <==> && env(i).ok && HasTicket(read, call.company, call.comm) && env(i + 1).ok && env(i + 1).answer.Cdr?
                 && env(i + 2).ok && env(i + 3).ok
                 && (NeedsCheck(Before(c, answered, env(i + 2)), call.comm, env(i + 1).answer.result) ==>
                       && AllSettled(Before(c, saved, env(i + 3)), call.company, read.comms[call.comm].docs)
                       && env(i + 4).ok)
  {
    Visit(c, env(i), w);
    TicketStep(Before(c, w, env(i)), c, env(i));
    if env(i).ok && HasTicket(Before(c, w, env(i)), w.calls[c].company, w.calls[c].comm) {
      PollMeans(c, env, After(c, env, w, i), i + 1);
    }
  }

  /** `refreshStatus` closes the communication with its CDR if and only if the ticket is there when read, SUNAT
      answers with a CDR, every statement succeeds and, for an accepted void, the documents are all accepted or
      observed when checked. */
  lemma RefreshSucceedsIff(
    c: CallId, company: CompanyId, comm: CommId, env: nat -> Moment, w: World, i: nat, n: nat)
    requires Reachable(w) && c !in w.calls && n >= 6
    ensures var begun := Next(w, BeginRefresh(c, company, comm));
            var read, polled := Before(c, begun, env(i)), After(c, env, begun, i);
            var answered := After(c, env, polled, i + 1);
            var saved := After(c, env, answered, i + 2);
            RefreshResult(Course(c, env, begun, i, n), c)
            <==> && env(i).ok && HasTicket(read, company, comm) && env(i + 1).ok && env(i + 1).answer.Cdr?
                 && env(i + 2).ok && env(i + 3).ok
                 && (NeedsCheck(Before(c, answered, env(i + 2)), comm, env(i + 1).answer.result) ==>
                       AllSettled(Before(c, saved, env(i + 3)), company, read.comms[comm].docs) && env(i + 4).ok)
  {
    var begun := Next(w, BeginRefresh(c, company, comm));
    ReachableAfter(w, BeginRefresh(c, company, comm));
    RefreshOutcome(c, env, begun, i, n);
    TicketMeans(c, env, begun, i);
  }
}
