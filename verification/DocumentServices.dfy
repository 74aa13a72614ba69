/** The processing services as code over shared tables: `issue` (prepare, then submit), `createAndSend`
    and `refreshStatus`. Each database or storage statement is one method; between two statements any
    other calls may run. Every operation is proved to take exactly the course of module DocumentCalls:
    it leaves the state, and returns the result, in which that course ends. */
module DocumentServices {
  import opened Common
  import opened Lifecycle
  import opened Documents
  import opened DocumentCalls
  import opened Runs

  class Backend {
    var docs: map<DocId, Document>
    var comms: map<CommId, Communication>
    var nextComm: CommId
    var stored: set<ArtifactId>
    var nextArtifact: ArtifactId
    /** The program point of every call in flight. */
    var calls: map<CallId, Call>

    constructor ()
      ensures State() == EMPTY_WORLD
    {
      docs, comms, nextComm, stored, nextArtifact, calls := map[], map[], 0, {}, 0, map[];
    }

    function State(): World
      reads this
    {
      World(docs, comms, nextComm, stored, nextArtifact, calls)
    }

    predicate At(c: CallId, call: Call)
      reads this
    {
      c in calls && calls[c] == call
    }

    /** What is left of the course of call c, for n more statements. */
    ghost function Rest(c: CallId, env: nat -> Moment, i: nat, n: nat): Ending<World, Action>
      reads this
    {
      Course(c, env, State(), i, n)
    }

    /** The steps of other calls that come before a statement. */
    method Others(c: CallId, m: Moment)
      requires c in calls
      modifies this
      ensures State() == Before(c, old(State()), m) && At(c, old(calls)[c])
    {
      ghost var start := State();
      var i := 0;
      while i < |m.others|
        invariant 0 <= i <= |m.others|
        invariant State() == Iterate(Next, start, Foreign(c, m.others[..i]))
      {
        var action := m.others[i];
        assert m.others[..i + 1][..i] == m.others[..i] && m.others[..i + 1][i] == action;
        if BelongsTo(action, c) {
          assert Foreign(c, m.others[..i + 1]) == Foreign(c, m.others[..i]);
        } else {
          ForeignGrows(start, c, m.others[..i], action);
          var w := Next(State(), action);
          docs, comms, nextComm, stored := w.docs, w.comms, w.nextComm, w.stored;
          nextArtifact, calls := w.nextArtifact, w.calls;
        }
        i := i + 1;
      }
      assert m.others[..i] == m.others;
      ForeignLeavesCall(start, c, m.others);
    }

    // ----- prepare ------------------------------------------------------------------------------

    method ReadPreparable(c: CallId, company: CompanyId, id: DocId, m: Moment) returns (seen: Option<Status>)
      requires At(c, Issue(company, id, Reading))
      modifies this
      ensures State() == Own(c, old(State()), m)
      ensures if seen.Some? then At(c, Issue(company, id, Locking(seen.value))) else c !in calls
    {
      seen := None;
      if m.ok && id in docs && docs[id].company == company {
        var document := docs[id];
        if document.status in PREPARABLE
           && !((document.kind == CREDIT_NOTE || document.kind == DEBIT_NOTE) && !document.reference) {
          seen := Some(document.status);
        }
      }
      calls := if seen.Some? then calls[c := Issue(company, id, Locking(seen.value))] else calls - {c};
    }

    /** The compare-and-set on the status that was read, with its event. */
    method Lock(c: CallId, company: CompanyId, id: DocId, seen: Status, m: Moment) returns (locked: bool)
      requires At(c, Issue(company, id, Locking(seen)))
      modifies this
      ensures State() == Own(c, old(State()), m)
      ensures locked <==> m.ok && id in old(docs) && old(docs)[id].company == company && old(docs)[id].status == seen
      ensures docs == if locked then old(docs)[id := old(docs)[id].Publish(PROCESSING, Processing)] else old(docs)
      ensures if locked then At(c, Issue(company, id, Generating)) else c !in calls
    {
      locked := m.ok && id in docs && docs[id].company == company && docs[id].status == seen;
      if locked { docs := docs[id := docs[id].Publish(PROCESSING, Processing)]; }
      calls := if locked then calls[c := Issue(company, id, Generating)] else calls - {c};
    }

    /** `storage.save`, going on to one of two program points. */
    method Save(c: CallId, ok: bool, saved: nat -> Call, failed: Call) returns (a: Option<ArtifactId>)
      modifies this
      ensures State() == if ok then old(State()).Save().Goto(c, saved(old(nextArtifact)))
                         else old(State()).Goto(c, failed)
      ensures a == if ok then Some(old(nextArtifact)) else None
    {
      a := None;
      calls := calls[c := if ok then saved(nextArtifact) else failed];
      if ok {
        a := Some(nextArtifact);
        stored, nextArtifact := stored + {nextArtifact}, nextArtifact + 1;
      }
    }

    /** `storage.delete` of the ZIP, if there is one; failure is ignored. */
    method DeleteZip(c: CallId, company: CompanyId, id: DocId, xml: Option<ArtifactId>, zip: Option<ArtifactId>,
                     m: Moment)
      requires At(c, Issue(company, id, DroppingZip(xml, zip)))
      modifies this
      ensures State() == Own(c, old(State()), m) && At(c, Issue(company, id, DroppingXml(xml)))
      ensures stored == if m.ok then old(stored) - Elements(zip) else old(stored)
    {
      if zip.Some? && m.ok { stored := stored - {zip.value}; }
      calls := calls[c := Issue(company, id, DroppingXml(xml))];
    }

    /** ... of the XML. */
    method DeleteXml(c: CallId, company: CompanyId, id: DocId, xml: Option<ArtifactId>, m: Moment)
      requires At(c, Issue(company, id, DroppingXml(xml)))
      modifies this
      ensures State() == Own(c, old(State()), m) && At(c, Issue(company, id, MarkingPrepareError))
      ensures stored == if m.ok then old(stored) - Elements(xml) else old(stored)
    {
      if xml.Some? && m.ok { stored := stored - {xml.value}; }
      calls := calls[c := Issue(company, id, MarkingPrepareError)];
    }

    /** ... of the CDR. */
    method DeleteCdr(c: CallId, company: CompanyId, id: DocId, cdr: Option<ArtifactId>, m: Moment)
      requires At(c, Issue(company, id, DroppingCdr(cdr)))
      modifies this
      ensures State() == Own(c, old(State()), m) && At(c, Issue(company, id, MarkingSubmitError))
      ensures stored == if m.ok then old(stored) - Elements(cdr) else old(stored)
    {
      if cdr.Some? && m.ok { stored := stored - {cdr.value}; }
      calls := calls[c := Issue(company, id, MarkingSubmitError)];
    }

    /** Both artifact ids and PROCESSING, by id. */
    method Link(c: CallId, company: CompanyId, id: DocId, x: ArtifactId, z: ArtifactId, m: Moment)
        returns (linked: bool)
      requires At(c, Issue(company, id, Linking(x, z)))
      modifies this
      ensures State() == Own(c, old(State()), m)
      ensures linked <==> m.ok && id in old(docs)
      ensures docs == if linked
                      then old(docs)[id := old(docs)[id].Write(PROCESSING).(xml := Some(x), zip := Some(z))]
                      else old(docs)
      ensures At(c, Issue(company, id, if linked then Prepared else DroppingZip(Some(x), Some(z))))
    {
      linked := m.ok && id in docs;
      if linked { docs := docs[id := docs[id].Write(PROCESSING).(xml := Some(x), zip := Some(z))]; }
      calls := calls[c := Issue(company, id, if linked then Prepared else DroppingZip(Some(x), Some(z)))];
    }

    method MarkPrepareError(c: CallId, company: CompanyId, id: DocId, m: Moment)
      requires At(c, Issue(company, id, MarkingPrepareError))
      modifies this
      ensures State() == Own(c, old(State()), m) && c !in calls
    {
      if m.ok && id in docs { docs := docs[id := docs[id].Publish(ERROR, Error)]; }
      calls := calls - {c};
    }

    /** Ends at the point where `submit` starts, with the rest of the course still to come; or ends the
        course without a result. */
    method Prepare(ghost e: CallCourse, c: CallId, company: CompanyId, id: DocId, env: nat -> Moment, i: nat,
                   ghost n: nat) returns (prepared: bool)
      requires e == Rest(c, env, i, n) && n >= 12
      requires At(c, Issue(company, id, Reading))
      modifies this
      ensures prepared ==> At(c, Issue(company, id, Prepared)) && Rest(c, env, i + 5, n - 5) == e
      ensures !prepared ==> Over(c, e) && IssueResult(e, c) == None
    {
      StepCourse(c, env, State(), i, n);
      Others(c, env(i));
      var seen := ReadPreparable(c, company, id, env(i));
      if seen.None? { return false; }

      StepCourse(c, env, State(), i + 1, n - 1);
      Others(c, env(i + 1));
      var locked := Lock(c, company, id, seen.value, env(i + 1));
      if !locked { return false; }

      prepared := Assemble(e, c, company, id, env, i + 2, n - 2);
    }

    /** The course ends in this state. */
    ghost predicate Over(c: CallId, e: CallCourse)
      reads this
    {
      c !in calls && e.Finished? && e.after == State()
    }

    /** The try block of prepare, and its catch. */
    method Assemble(ghost e: CallCourse, c: CallId, company: CompanyId, id: DocId, env: nat -> Moment, i: nat,
                    ghost n: nat) returns (linked: bool)
      requires e == Rest(c, env, i, n) && n >= 10
      requires At(c, Issue(company, id, Generating))
      modifies this
      ensures linked ==> At(c, Issue(company, id, Prepared)) && Rest(c, env, i + 3, n - 3) == e
      ensures !linked ==> Over(c, e) && IssueResult(e, c) == None
    {
      StepCourse(c, env, State(), i, n);
      Others(c, env(i));
      var xml := Save(c, env(i).ok, (a: nat) => Issue(company, id, XmlSaved(a)),
                      Issue(company, id, DroppingZip(None, None)));
      if xml.None? {
        Compensate(e, c, company, id, None, None, env, i + 1, n - 1);
        return false;
      }
      linked := PackAndLink(e, c, company, id, xml.value, env, i + 1, n - 1);
    }

    /** ... from the saved XML on. */
    method PackAndLink(ghost e: CallCourse, c: CallId, company: CompanyId, id: DocId, x: ArtifactId,
                       env: nat -> Moment, i: nat, ghost n: nat) returns (linked: bool)
      requires e == Rest(c, env, i, n) && n >= 9
      requires At(c, Issue(company, id, XmlSaved(x)))
      modifies this
      ensures linked ==> At(c, Issue(company, id, Prepared)) && Rest(c, env, i + 2, n - 2) == e
      ensures !linked ==> Over(c, e) && IssueResult(e, c) == None
    {
      StepCourse(c, env, State(), i, n);
      Others(c, env(i));
      var zip := Save(c, env(i).ok, (a: nat) => Issue(company, id, Linking(x, a)),
                      Issue(company, id, DroppingZip(Some(x), None)));
      if zip.None? {
        Compensate(e, c, company, id, Some(x), None, env, i + 1, n - 1);
        return false;
      }

      StepCourse(c, env, State(), i + 1, n - 1);
      Others(c, env(i + 1));
      linked := Link(c, company, id, x, zip.value, env(i + 1));
      if !linked { Compensate(e, c, company, id, Some(x), zip, env, i + 2, n - 2); }
    }

    method Compensate(ghost e: CallCourse, c: CallId, company: CompanyId, id: DocId, xml: Option<ArtifactId>,
                      zip: Option<ArtifactId>, env: nat -> Moment, i: nat, ghost n: nat)
      requires e == Rest(c, env, i, n) && n >= 3
      requires At(c, Issue(company, id, DroppingZip(xml, zip)))
      modifies this
      ensures Over(c, e) && IssueResult(e, c) == None
    {
      DropZipFirst(e, c, company, id, xml, zip, env, i, n);
      CompensateXml(e, c, company, id, xml, env, i + 1, n - 1);
    }

    method DropZipFirst(ghost e: CallCourse, c: CallId, company: CompanyId, id: DocId, xml: Option<ArtifactId>,
                        zip: Option<ArtifactId>, env: nat -> Moment, i: nat, ghost n: nat)
      requires e == Rest(c, env, i, n) && n >= 1
      requires At(c, Issue(company, id, DroppingZip(xml, zip)))
      modifies this
      ensures At(c, Issue(company, id, DroppingXml(xml))) && Rest(c, env, i + 1, n - 1) == e
    {
      StepCourse(c, env, State(), i, n);
      Others(c, env(i));
      DeleteZip(c, company, id, xml, zip, env(i));
    }

    method CompensateXml(ghost e: CallCourse, c: CallId, company: CompanyId, id: DocId, xml: Option<ArtifactId>,
                         env: nat -> Moment, i: nat, ghost n: nat)
      requires e == Rest(c, env, i, n) && n >= 2
      requires At(c, Issue(company, id, DroppingXml(xml)))
      modifies this
      ensures Over(c, e) && IssueResult(e, c) == None
    {
      StepCourse(c, env, State(), i, n);
      Others(c, env(i));
      DeleteXml(c, company, id, xml, env(i));

      StepCourse(c, env, State(), i + 1, n - 1);
      Others(c, env(i + 1));
      MarkPrepareError(c, company, id, env(i + 1));
    }

    // ----- submit -------------------------------------------------------------------------------

    method ReadSubmittable(c: CallId, company: CompanyId, id: DocId, m: Moment) returns (zip: Option<ArtifactId>)
      requires At(c, Issue(company, id, Prepared))
      modifies this
      ensures State() == Own(c, old(State()), m)
      ensures if zip.Some? then At(c, Issue(company, id, Submitting(zip.value))) else c !in calls
    {
      zip := None;
      if m.ok && id in docs && docs[id].company == company {
        var document := docs[id];
        if document.kind != RECEIPT && document.status == PROCESSING { zip := document.zip; }
      }
      calls := if zip.Some? then calls[c := Issue(company, id, Submitting(zip.value))] else calls - {c};
    }

    method LockSent(c: CallId, company: CompanyId, id: DocId, z: ArtifactId, m: Moment) returns (locked: bool)
      requires At(c, Issue(company, id, Submitting(z)))
      modifies this
      ensures State() == Own(c, old(State()), m)
      ensures if locked then At(c, Issue(company, id, Sending(z))) else c !in calls
    {
      locked := m.ok && id in docs && docs[id].company == company && docs[id].status == PROCESSING;
      if locked { docs := docs[id := docs[id].Write(SENT)]; }
      calls := if locked then calls[c := Issue(company, id, Sending(z))] else calls - {c};
    }

    /** Read the stored ZIP, send it, and parse the CDR of the answer. */
    method SendBill(c: CallId, company: CompanyId, id: DocId, z: ArtifactId, m: Moment)
        returns (parsed: Option<CdrStatus>)
      requires At(c, Issue(company, id, Sending(z)))
      modifies this
      ensures State() == Own(c, old(State()), m)
      ensures At(c, Issue(company, id, if parsed.Some? then Answered(parsed.value) else DroppingCdr(None)))
    {
      parsed := if m.ok && z in stored && m.answer.Cdr? then Some(m.answer.result) else None;
      calls := calls[c := Issue(company, id, if parsed.Some? then Answered(parsed.value) else DroppingCdr(None))];
    }

    /** Result, CDR id and event in one transaction. */
    method RecordResult(c: CallId, company: CompanyId, id: DocId, r: CdrStatus, a: ArtifactId, m: Moment)
        returns (done: bool)
      requires At(c, Issue(company, id, Recording(r, a)))
      modifies this
      ensures State() == Own(c, old(State()), m)
      ensures done <==> m.ok && id in old(docs)
      ensures docs == if done
                      then old(docs)[id := old(docs)[id].Publish(ResultStatus(r), ResultEvent(ResultStatus(r)))
                                           .(cdr := Some(a))]
                      else old(docs)
      ensures done ==> Shows(docs[id], r) && docs[id].cdr == Some(a)
      ensures if done then c !in calls else At(c, Issue(company, id, DroppingCdr(Some(a))))
    {
      done := m.ok && id in docs;
      if done {
        var status := ResultStatus(r);
        PublishedShows(docs[id], r);
        docs := docs[id := docs[id].Publish(status, ResultEvent(status)).(cdr := Some(a))];
        calls := calls - {c};
      } else {
        calls := calls[c := Issue(company, id, DroppingCdr(Some(a)))];
      }
    }

    /** ERROR, if the row is still SENT. */
    method MarkSubmitError(c: CallId, company: CompanyId, id: DocId, m: Moment)
      requires At(c, Issue(company, id, MarkingSubmitError))
      modifies this
      ensures State() == Own(c, old(State()), m) && c !in calls
    {
      if m.ok && id in docs && docs[id].company == company && docs[id].status == SENT {
        docs := docs[id := docs[id].Publish(ERROR, Error)];
      }
      calls := calls - {c};
    }

    method Submit(ghost e: CallCourse, c: CallId, company: CompanyId, id: DocId, env: nat -> Moment, i: nat,
                  ghost n: nat) returns (result: Option<CdrStatus>)
      requires e == Rest(c, env, i, n) && n >= 7
      requires At(c, Issue(company, id, Prepared))
      modifies this
      ensures Over(c, e) && result == IssueResult(e, c)
      ensures result.Some? ==> id in docs && Shows(docs[id], result.value)
    {
      StepCourse(c, env, State(), i, n);
      Others(c, env(i));
      var zip := ReadSubmittable(c, company, id, env(i));
      if zip.None? { return None; }

      result := LockAndDeliver(e, c, company, id, zip.value, env, i + 1, n - 1);
    }

    /** ... from the first read on. */
    method LockAndDeliver(ghost e: CallCourse, c: CallId, company: CompanyId, id: DocId, z: ArtifactId,
                          env: nat -> Moment, i: nat, ghost n: nat) returns (result: Option<CdrStatus>)
      requires e == Rest(c, env, i, n) && n >= 6
      requires At(c, Issue(company, id, Submitting(z)))
      modifies this
      ensures Over(c, e) && result == IssueResult(e, c)
      ensures result.Some? ==> id in docs && Shows(docs[id], result.value)
    {
      StepCourse(c, env, State(), i, n);
      Others(c, env(i));
      var locked := LockSent(c, company, id, z, env(i));
      if !locked { return None; }

      result := Deliver(e, c, company, id, z, env, i + 1, n - 1);
    }

    /** The try block of submit, and its catch. */
    method Deliver(ghost e: CallCourse, c: CallId, company: CompanyId, id: DocId, z: ArtifactId, env: nat -> Moment,
                   i: nat, ghost n: nat) returns (result: Option<CdrStatus>)
      requires e == Rest(c, env, i, n) && n >= 5
      requires At(c, Issue(company, id, Sending(z)))
      modifies this
      ensures Over(c, e) && result == IssueResult(e, c)
      ensures result.Some? ==> id in docs && Shows(docs[id], result.value)
    {
      StepCourse(c, env, State(), i, n);
      Others(c, env(i));
      var parsed := SendBill(c, company, id, z, env(i));
      if parsed.None? {
        Withdraw(e, c, company, id, None, env, i + 1, n - 1);
        return None;
      }
      result := KeepAnswer(e, c, company, id, parsed.value, env, i + 1, n - 1);
    }

    /** ... from the parsed CDR on. */
    method KeepAnswer(ghost e: CallCourse, c: CallId, company: CompanyId, id: DocId, r: CdrStatus, env: nat -> Moment,
                      i: nat, ghost n: nat) returns (result: Option<CdrStatus>)
      requires e == Rest(c, env, i, n) && n >= 4
      requires At(c, Issue(company, id, Answered(r)))
      modifies this
      ensures Over(c, e) && result == IssueResult(e, c)
      ensures result.Some? ==> id in docs && Shows(docs[id], result.value)
    {
      StepCourse(c, env, State(), i, n);
      Others(c, env(i));
      var cdr := Save(c, env(i).ok, (a: nat) => Issue(company, id, Recording(r, a)),
                      Issue(company, id, DroppingCdr(None)));
      if cdr.None? {
        Withdraw(e, c, company, id, None, env, i + 1, n - 1);
        return None;
      }
      result := RecordOrWithdraw(e, c, company, id, r, cdr.value, env, i + 1, n - 1);
    }

    /** ... from the saved CDR on. */
    method RecordOrWithdraw(ghost e: CallCourse, c: CallId, company: CompanyId, id: DocId, r: CdrStatus,
                            a: ArtifactId, env: nat -> Moment, i: nat, ghost n: nat)
        returns (result: Option<CdrStatus>)
      requires e == Rest(c, env, i, n) && n >= 3
      requires At(c, Issue(company, id, Recording(r, a)))
      modifies this
      ensures Over(c, e) && result == IssueResult(e, c)
      ensures result.Some? ==> id in docs && Shows(docs[id], result.value)
    {
      StepCourse(c, env, State(), i, n);
      Others(c, env(i));
      var done := RecordResult(c, company, id, r, a, env(i));
      if done { return Some(r); }
      Withdraw(e, c, company, id, Some(a), env, i + 1, n - 1);
      result := None;
    }

    method Withdraw(ghost e: CallCourse, c: CallId, company: CompanyId, id: DocId, cdr: Option<ArtifactId>,
                    env: nat -> Moment, i: nat, ghost n: nat)
      requires e == Rest(c, env, i, n) && n >= 2
      requires At(c, Issue(company, id, DroppingCdr(cdr)))
      modifies this
      ensures Over(c, e) && IssueResult(e, c) == None
    {
      StepCourse(c, env, State(), i, n);
      Others(c, env(i));
      DeleteCdr(c, company, id, cdr, env(i));

      StepCourse(c, env, State(), i + 1, n - 1);
      Others(c, env(i + 1));
      MarkSubmitError(c, company, id, env(i + 1));
    }

    /** `issue`, the only composition of prepare and submit. */
    method IssueDocument(c: CallId, company: CompanyId, id: DocId, env: nat -> Moment, ghost n: nat)
        returns (result: Option<CdrStatus>)
      requires c !in calls && n >= STEPS
      modifies this
      ensures var e := Course(c, env, Next(old(State()), BeginIssue(c, company, id)), 0, n);
              Over(c, e) && result == IssueResult(e, c)
      ensures result.Some? ==> id in docs && Shows(docs[id], result.value)
    {
      calls := calls[c := Issue(company, id, Reading)];
      ghost var e := Rest(c, env, 0, n);
      var prepared := Prepare(e, c, company, id, env, 0, n);
      if !prepared { return None; }
      result := Submit(e, c, company, id, env, 5, n - 5);
    }

    // ----- createAndSend ------------------------------------------------------------------------

    /** Read the documents of a new communication and check them. */
    method Select(c: CallId, company: CompanyId, kind: TicketKind, ids: seq<DocId>, m: Moment) returns (selected: bool)
      requires At(c, Send(company, kind, ids, Selecting))
      modifies this
      ensures State() == Own(c, old(State()), m)
      ensures selected <==> m.ok && Selectable(old(State()), company, kind, ids)
      ensures if selected then At(c, Send(company, kind, ids, Inserting)) else c !in calls
    {
      selected := m.ok && Selectable(State(), company, kind, ids);
      calls := if selected then calls[c := Send(company, kind, ids, Inserting)] else calls - {c};
    }

    method Insert(c: CallId, company: CompanyId, kind: TicketKind, ids: seq<DocId>, m: Moment)
        returns (comm: Option<CommId>)
      requires At(c, Send(company, kind, ids, Inserting))
      modifies this
      ensures State() == Own(c, old(State()), m)
      ensures if comm.Some? then At(c, Send(company, kind, ids, Packing(comm.value))) else c !in calls
    {
      comm := None;
      if m.ok {
        comm := Some(nextComm);
        comms := comms[nextComm := Communication(company, kind, ids, TicketPending, false, None, None)];
        nextComm := nextComm + 1;
        calls := calls[c := Send(company, kind, ids, Packing(comm.value))];
      } else {
        calls := calls - {c};
      }
    }

    /** Send the pack to SUNAT and record the ticket. */
    method RecordTicket(c: CallId, company: CompanyId, kind: TicketKind, ids: seq<DocId>, comm: CommId, z: ArtifactId,
                        m: Moment) returns (sent: bool)
      requires At(c, Send(company, kind, ids, Delivering(comm, z)))
      modifies this
      ensures State() == Own(c, old(State()), m)
      ensures sent <==> m.ok && comm in old(comms)
      ensures comms == if sent
                       then old(comms)[comm := old(comms)[comm].(status := TicketSent, ticket := true, zip := Some(z))]
                       else old(comms)
      ensures if sent then c !in calls else At(c, Send(company, kind, ids, DroppingPack(comm, Some(z))))
    {
      sent := m.ok && comm in comms;
      if sent {
        comms := comms[comm := comms[comm].(status := TicketSent, ticket := true, zip := Some(z))];
        calls := calls - {c};
      } else {
        calls := calls[c := Send(company, kind, ids, DroppingPack(comm, Some(z)))];
      }
    }

    method DropPack(c: CallId, company: CompanyId, kind: TicketKind, ids: seq<DocId>, comm: CommId,
                    zip: Option<ArtifactId>, m: Moment)
      requires At(c, Send(company, kind, ids, DroppingPack(comm, zip)))
      modifies this
      ensures State() == Own(c, old(State()), m) && At(c, Send(company, kind, ids, MarkingSendError(comm)))
    {
      if zip.Some? && m.ok { stored := stored - {zip.value}; }
      calls := calls[c := Send(company, kind, ids, MarkingSendError(comm))];
    }

    method MarkSendError(c: CallId, company: CompanyId, kind: TicketKind, ids: seq<DocId>, comm: CommId, m: Moment)
      requires At(c, Send(company, kind, ids, MarkingSendError(comm)))
      modifies this
      ensures State() == Own(c, old(State()), m) && c !in calls
    {
      if m.ok && comm in comms { comms := comms[comm := comms[comm].(status := TicketError)]; }
      calls := calls - {c};
    }

    method AbandonSend(ghost e: CallCourse, c: CallId, company: CompanyId, kind: TicketKind, ids: seq<DocId>,
                       comm: CommId, zip: Option<ArtifactId>, env: nat -> Moment, i: nat, ghost n: nat)
      requires e == Rest(c, env, i, n) && n >= 2
      requires At(c, Send(company, kind, ids, DroppingPack(comm, zip)))
      modifies this
      ensures Over(c, e) && SendResult(e, c) == None
    {
      StepCourse(c, env, State(), i, n);
      Others(c, env(i));
      DropPack(c, company, kind, ids, comm, zip, env(i));

      StepCourse(c, env, State(), i + 1, n - 1);
      Others(c, env(i + 1));
      MarkSendError(c, company, kind, ids, comm, env(i + 1));
    }

    /** Packing, sending and recording; ERROR when one of them fails. */
    method PackAndSend(ghost e: CallCourse, c: CallId, company: CompanyId, kind: TicketKind, ids: seq<DocId>,
                       comm: CommId, env: nat -> Moment, i: nat, ghost n: nat) returns (sent: Option<CommId>)
      requires e == Rest(c, env, i, n) && n >= 4
      requires At(c, Send(company, kind, ids, Packing(comm)))
      modifies this
      ensures Over(c, e) && sent == SendResult(e, c)
    {
      StepCourse(c, env, State(), i, n);
      Others(c, env(i));
      var zip := Save(c, env(i).ok, (a: nat) => Send(company, kind, ids, Delivering(comm, a)),
                      Send(company, kind, ids, DroppingPack(comm, None)));
      if zip.None? {
        AbandonSend(e, c, company, kind, ids, comm, None, env, i + 1, n - 1);
        return None;
      }

      StepCourse(c, env, State(), i + 1, n - 1);
      Others(c, env(i + 1));
      var done := RecordTicket(c, company, kind, ids, comm, zip.value, env(i + 1));
      if done { return Some(comm); }
      AbandonSend(e, c, company, kind, ids, comm, zip, env, i + 2, n - 2);
      sent := None;
    }

    /** ... from the selection on. */
    method InsertAndSend(ghost e: CallCourse, c: CallId, company: CompanyId, kind: TicketKind, ids: seq<DocId>,
                         env: nat -> Moment, i: nat, ghost n: nat) returns (sent: Option<CommId>)
      requires e == Rest(c, env, i, n) && n >= 5
      requires At(c, Send(company, kind, ids, Inserting))
      modifies this
      ensures Over(c, e) && sent == SendResult(e, c)
    {
      StepCourse(c, env, State(), i, n);
      Others(c, env(i));
      var comm := Insert(c, company, kind, ids, env(i));
      if comm.None? { return None; }

      sent := PackAndSend(e, c, company, kind, ids, comm.value, env, i + 1, n - 1);
    }

    method CreateAndSend(c: CallId, company: CompanyId, kind: TicketKind, ids: seq<DocId>, env: nat -> Moment,
                         ghost n: nat) returns (sent: Option<CommId>)
      requires c !in calls && n >= STEPS
      modifies this
      ensures var e := Course(c, env, Next(old(State()), BeginSend(c, company, kind, ids)), 0, n);
              Over(c, e) && sent == SendResult(e, c)
      ensures sent.Some? ==> sent.value in comms && comms[sent.value].status == TicketSent && comms[sent.value].ticket
    {
      calls := calls[c := Send(company, kind, ids, Selecting)];
      ghost var e := Rest(c, env, 0, n);

      StepCourse(c, env, State(), 0, n);
      Others(c, env(0));
      var selected := Select(c, company, kind, ids, env(0));
      if !selected { return None; }

      sent := InsertAndSend(e, c, company, kind, ids, env, 1, n - 1);
      FinishedSend(c, env, old(Next(State(), BeginSend(c, company, kind, ids))), n);
    }

    // ----- refreshStatus ------------------------------------------------------------------------

    method ReadTicket(c: CallId, company: CompanyId, comm: CommId, m: Moment) returns (ids: Option<seq<DocId>>)
      requires At(c, Refresh(company, comm, ReadingTicket))
      modifies this
      ensures State() == Own(c, old(State()), m)
      ensures if ids.Some? then At(c, Refresh(company, comm, Polling(ids.value))) else c !in calls
    {
      ids := None;
      if m.ok && comm in comms && comms[comm].company == company && comms[comm].status == TicketSent
         && comms[comm].ticket
      {
        ids := Some(comms[comm].docs);
      }
      calls := if ids.Some? then calls[c := Refresh(company, comm, Polling(ids.value))] else calls - {c};
    }

    /** Ask SUNAT; a terminal answer without CDR closes the communication in ERROR. */
    method Poll(c: CallId, company: CompanyId, comm: CommId, ids: seq<DocId>, m: Moment)
        returns (parsed: Option<CdrStatus>)
      requires At(c, Refresh(company, comm, Polling(ids)))
      modifies this
      ensures State() == Own(c, old(State()), m)
      ensures if parsed.Some? then At(c, Refresh(company, comm, SavingCdr(ids, parsed.value))) else c !in calls
    {
      parsed := None;
      if m.ok && comm in comms {
        if m.answer.Ended? { comms := comms[comm := comms[comm].(status := TicketError)]; }
        if m.answer.Cdr? { parsed := Some(m.answer.result); }
      }
      calls := if parsed.Some? then calls[c := Refresh(company, comm, SavingCdr(ids, parsed.value))] else calls - {c};
    }

    method SaveAnswer(c: CallId, company: CompanyId, comm: CommId, ids: seq<DocId>, r: CdrStatus, m: Moment)
        returns (cdr: Option<ArtifactId>, check: bool)
      requires At(c, Refresh(company, comm, SavingCdr(ids, r)))
      modifies this
      ensures State() == Own(c, old(State()), m)
      ensures if cdr.None? then c !in calls
              else At(c, Refresh(company, comm,
                                 if check then Checking(ids, r, cdr.value) else Committing(ids, r, cdr.value)))
    {
      cdr, check := None, false;
      if m.ok && comm in comms {
        cdr := Some(nextArtifact);
        check := comms[comm].kind == VoidCommunication && r != CdrRejected;
        stored, nextArtifact := stored + {nextArtifact}, nextArtifact + 1;
        var pc := if check then Checking(ids, r, cdr.value) else Committing(ids, r, cdr.value);
        calls := calls[c := Refresh(company, comm, pc)];
      } else {
        calls := calls - {c};
      }
    }

    /** `assertTransition(status, VOIDED)` on every document, as read at one moment. */
    method CheckVoidable(c: CallId, company: CompanyId, comm: CommId, ids: seq<DocId>, r: CdrStatus, a: ArtifactId,
                         m: Moment) returns (voidable: bool)
      requires At(c, Refresh(company, comm, Checking(ids, r, a)))
      modifies this
      ensures State() == Own(c, old(State()), m)
      ensures voidable <==> m.ok && AllVoidable(old(State()), company, ids)
      ensures if voidable then At(c, Refresh(company, comm, Committing(ids, r, a))) else c !in calls
    {
      voidable := m.ok;
      var i := 0;
      while i < |ids| && voidable
        invariant 0 <= i <= |ids| && State() == old(State())
        invariant voidable <==> m.ok && AllVoidable(State(), company, ids[..i])
        invariant !voidable ==> !(m.ok && AllVoidable(State(), company, ids))
        decreases |ids| - i
      {
        VoidableGrows(State(), company, ids, i);
        voidable := ids[i] in docs && docs[ids[i]].company == company
                    && CanTransition(docs[ids[i]].status, VOIDED, VOID_CONFIRMED);
        i := i + 1;
      }
      assert voidable ==> ids[..i] == ids;
      calls := if voidable then calls[c := Refresh(company, comm, Committing(ids, r, a))] else calls - {c};
    }

    /** The closing transaction: the communication's result and each linked document in turn, or nothing. */
    method Commit(c: CallId, company: CompanyId, comm: CommId, ids: seq<DocId>, r: CdrStatus, a: ArtifactId, m: Moment)
        returns (committed: bool)
      requires At(c, Refresh(company, comm, Committing(ids, r, a)))
      modifies this
      ensures State() == Own(c, old(State()), m)
      ensures committed <==> m.ok && comm in old(comms) && forall id :: id in ids ==> id in old(docs)
      ensures !committed ==> docs == old(docs) && comms == old(comms)
      ensures committed ==>
                var s := ClosingStatus(old(comms)[comm].kind, r);
                && comms == old(comms)[comm := old(comms)[comm].(
                     status := if r == CdrRejected then TicketRejected else TicketAccepted, cdr := Some(a))]
                && docs == if s.None? then old(docs) else PublishAll(old(docs), ids, s.value, ClosingEvent(s.value))
      ensures committed ==> Closed(old(docs), docs, old(comms)[comm].kind, ids, r)
      ensures if committed then c !in calls else At(c, Refresh(company, comm, DroppingAnswer(a)))
    {
      committed := m.ok && comm in comms && forall id :: id in ids ==> id in docs;
      if !committed {
        calls := calls[c := Refresh(company, comm, DroppingAnswer(a))];
        return;
      }
      var s := ClosingStatus(comms[comm].kind, r);
      ClosingWrites(docs, comms[comm].kind, ids, r);
      comms := comms[comm := comms[comm].(
                 status := if r == CdrRejected then TicketRejected else TicketAccepted, cdr := Some(a))];
      if s.Some? { CloseDocuments(ids, s.value); }
      calls := calls - {c};
    }

    /** The loop over the linked documents. */
    method CloseDocuments(ids: seq<DocId>, s: Status)
      requires forall id :: id in ids ==> id in docs
      modifies this`docs
      ensures docs == PublishAll(old(docs), ids, s, ClosingEvent(s))
    {
      var i := 0;
      while i < |ids|
        invariant 0 <= i <= |ids|
        invariant docs.Keys == old(docs).Keys
        invariant PublishAll(docs, ids[i..], s, ClosingEvent(s)) == PublishAll(old(docs), ids, s, ClosingEvent(s))
      {
        assert ids[i..][1..] == ids[i + 1..];
        docs := docs[ids[i] := docs[ids[i]].Publish(s, ClosingEvent(s))];
        i := i + 1;
      }
      assert ids[i..] == [];
    }

    method DropAnswer(c: CallId, company: CompanyId, comm: CommId, a: ArtifactId, m: Moment)
      requires At(c, Refresh(company, comm, DroppingAnswer(a)))
      modifies this
      ensures State() == Own(c, old(State()), m) && c !in calls
    {
      if m.ok { stored := stored - {a}; }
      calls := calls - {c};
    }

    /** The transaction, and the removal of the CDR if it fails. */
    method Close(ghost e: CallCourse, c: CallId, company: CompanyId, comm: CommId, ids: seq<DocId>, r: CdrStatus,
                 a: ArtifactId, env: nat -> Moment, i: nat, ghost n: nat) returns (closed: bool)
      requires e == Rest(c, env, i, n) && n >= 2
      requires At(c, Refresh(company, comm, Committing(ids, r, a)))
      modifies this
      ensures Over(c, e) && closed == RefreshResult(e, c)
    {
      StepCourse(c, env, State(), i, n);
      Others(c, env(i));
      closed := Commit(c, company, comm, ids, r, a, env(i));
      if closed { return; }

      StepCourse(c, env, State(), i + 1, n - 1);
      Others(c, env(i + 1));
      DropAnswer(c, company, comm, a, env(i + 1));
    }

    /** From a CDR on: save it, check the documents if they are to be voided, close. */
    method Apply(ghost e: CallCourse, c: CallId, company: CompanyId, comm: CommId, ids: seq<DocId>, r: CdrStatus,
                 env: nat -> Moment, i: nat, ghost n: nat) returns (closed: bool)
      requires e == Rest(c, env, i, n) && n >= 4
      requires At(c, Refresh(company, comm, SavingCdr(ids, r)))
      modifies this
      ensures Over(c, e) && closed == RefreshResult(e, c)
    {
      StepCourse(c, env, State(), i, n);
      Others(c, env(i));
      var cdr, check := SaveAnswer(c, company, comm, ids, r, env(i));
      if cdr.None? { return false; }
      if check {
        StepCourse(c, env, State(), i + 1, n - 1);
        Others(c, env(i + 1));
        var voidable := CheckVoidable(c, company, comm, ids, r, cdr.value, env(i + 1));
        if !voidable { return false; }
        closed := Close(e, c, company, comm, ids, r, cdr.value, env, i + 2, n - 2);
      } else {
        closed := Close(e, c, company, comm, ids, r, cdr.value, env, i + 1, n - 1);
      }
    }

    /** ... from the ticket on. */
    method PollAndApply(ghost e: CallCourse, c: CallId, company: CompanyId, comm: CommId, ids: seq<DocId>,
                        env: nat -> Moment, i: nat, ghost n: nat) returns (closed: bool)
      requires e == Rest(c, env, i, n) && n >= 5
      requires At(c, Refresh(company, comm, Polling(ids)))
      modifies this
      ensures Over(c, e) && closed == RefreshResult(e, c)
    {
      StepCourse(c, env, State(), i, n);
      Others(c, env(i));
      var parsed := Poll(c, company, comm, ids, env(i));
      if parsed.None? { return false; }

      closed := Apply(e, c, company, comm, ids, parsed.value, env, i + 1, n - 1);
    }

    method RefreshStatus(c: CallId, company: CompanyId, comm: CommId, env: nat -> Moment, ghost n: nat)
        returns (closed: bool)
      requires c !in calls && n >= STEPS
      modifies this
      ensures var e := Course(c, env, Next(old(State()), BeginRefresh(c, company, comm)), 0, n);
              Over(c, e) && closed == RefreshResult(e, c)
    {
      calls := calls[c := Refresh(company, comm, ReadingTicket)];
      ghost var e := Rest(c, env, 0, n);

      StepCourse(c, env, State(), 0, n);
      Others(c, env(0));
      var ids := ReadTicket(c, company, comm, env(0));
      if ids.None? { return false; }

      closed := PollAndApply(e, c, company, comm, ids.value, env, 1, n - 1);
    }
  }
}
