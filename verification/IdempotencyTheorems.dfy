/** What holds of every run of the idempotency protocol. */
module IdempotencyTheorems {
  import opened Common
  import opened Idempotency

  // ----- Statements about the log -------------------------------------------------------------

  /** The entry removes the record created by n: an abort, or an expiry at least a day after n began. */
  predicate Removes(e: Entry, n: Entry)
    requires n.New?
  {
    || e == Aborted(n.id)
    || (e.Expired? && e.id == n.id && n.begunAt + 86_400_000 <= e.at)
  }

  /** The record created by entry i is removed between entries i and j. */
  predicate RemovedBetween(log: seq<Entry>, i: nat, j: nat)
    requires i < |log| && log[i].New?
  {
    exists k :: i < k < j && k < |log| && Removes(log[k], log[i])
  }

  predicate NewsSeparated(log: seq<Entry>) {
    forall i, j :: 0 <= i < j < |log| && log[i].New? && log[j].New? && log[i].key == log[j].key
                   ==> RemovedBetween(log, i, j)
  }

  /** An earlier New with the same key and fingerprint, completed by the very request that created it. */
  predicate ReplayJustified(log: seq<Entry>, j: nat)
    requires j < |log| && log[j].Replay?
  {
    exists i, k :: && 0 <= i < k < j && log[i].New?
                   && log[i].key == log[j].key && log[i].fingerprint == log[j].fingerprint && log[i].id == log[j].id
                   && log[k] == Completed(log[i].who, log[j].id, log[j].response)
  }

  predicate ReplaysJustified(log: seq<Entry>) {
    forall j :: 0 <= j < |log| && log[j].Replay? ==> ReplayJustified(log, j)
  }

  predicate IdsUnique(log: seq<Entry>) {
    && (forall i, j :: 0 <= i < j < |log| && log[i].New? && log[j].New? ==> log[i].id != log[j].id)
    && (forall i, j :: 0 <= i < j < |log| && log[i].Completed? && log[j].Completed? ==> log[i].id != log[j].id)
    && (forall i, j :: 0 <= i < |log| && 0 <= j < |log| && log[i].Completed? && log[j].Aborted? ==>
        log[i].id != log[j].id)
  }

  predicate TimesOrdered(log: seq<Entry>) {
    && (forall i :: 0 <= i < |log| && log[i].New? ==> log[i].begunAt <= log[i].at)
    && (forall i, j :: 0 <= i < j < |log| && log[i].Expired? && log[j].New? ==> log[i].at <= log[j].at)
  }

  predicate LogOk(log: seq<Entry>) {
    NewsSeparated(log) && ReplaysJustified(log) && IdsUnique(log) && TimesOrdered(log)
  }

  // ----- The invariant ------------------------------------------------------------------------

  predicate Ended(log: seq<Entry>, id: RecordId) {
    exists k :: 0 <= k < |log| && (log[k] == Aborted(id) || (log[k].Expired? && log[k].id == id))
  }

  predicate Answered(log: seq<Entry>, id: RecordId) {
    exists k :: 0 <= k < |log| && log[k].Completed? && log[k].id == id
  }

  /** Entry i created the record, and its response, if any, was completed later by the same request. */
  predicate Witnesses(log: seq<Entry>, i: nat, key: Key, x: Record) {
    && i < |log| && log[i].New?
    && log[i].key == key && log[i].id == x.id && log[i].fingerprint == x.fingerprint
    && x.expiresAt == log[i].begunAt + DAY
    && (x.response.Some? ==> exists k :: i < k < |log| && log[k] == Completed(log[i].who, x.id, x.response.value))
  }

  predicate Justified(log: seq<Entry>, key: Key, x: Record) {
    exists i :: 0 <= i < |log| && Witnesses(log, i, key, x)
  }

  /** The request r created the record and has not completed it. */
  predicate Holds(log: seq<Entry>, r: RequestId, id: RecordId) {
    && (exists i :: 0 <= i < |log| && log[i].New? && log[i].who == r && log[i].id == id)
    && !Answered(log, id)
  }

  predicate HasExpired(log: seq<Entry>, id: RecordId, clock: Time) {
    exists i :: 0 <= i < |log| && log[i].New? && log[i].id == id && log[i].begunAt + 86_400_000 <= clock
  }

  predicate RequestOk(w: World, r: RequestId, q: Request) {
    match q.pc
    case Starting => true
    case Creating(t) => t <= w.clock
    case Looking => true
    case Judging(x) => Justified(w.log, q.key, x)
    case Deleting(id) => HasExpired(w.log, id, w.clock)
    case Handling(id) => Holds(w.log, r, id)
    case Completing(id, _) => Holds(w.log, r, id)
    case Aborting(id) => Holds(w.log, r, id)
  }

  predicate RowOk(w: World, k: Key, x: Record) {
    Justified(w.log, k, x) && !Ended(w.log, x.id) && (x.response.None? ==> !Answered(w.log, x.id))
  }

  predicate Bounded(w: World) {
    && (forall i :: 0 <= i < |w.log| && w.log[i].New? ==> w.log[i].id < w.next && w.log[i].at <= w.clock)
    && (forall i :: 0 <= i < |w.log| && w.log[i].Expired? ==> w.log[i].at <= w.clock && w.log[i].id < w.next)
    && (forall i :: 0 <= i < |w.log| && (w.log[i].Completed? || w.log[i].Aborted?) ==> w.log[i].id < w.next)
    && (forall r :: r in w.requests ==> r < w.next)
  }

  /** Every record ever created is still in its row or was removed after its creation. */
  predicate Accounted(w: World) {
    forall i :: 0 <= i < |w.log| && w.log[i].New? ==>
      || (w.log[i].key in w.rows && w.rows[w.log[i].key].id == w.log[i].id)
      || RemovedBetween(w.log, i, |w.log|)
  }

  predicate Inv(w: World) {
    && LogOk(w.log)
    && Bounded(w)
    && Accounted(w)
    && (forall k :: k in w.rows ==> RowOk(w, k, w.rows[k]))
    && (forall r :: r in w.requests ==> RequestOk(w, r, w.requests[r]))
  }

  // ----- Preservation -------------------------------------------------------------------------

  lemma JustifiedGrows(log: seq<Entry>, e: Entry, key: Key, x: Record)
    requires Justified(log, key, x)
    ensures Justified(log + [e], key, x)
  {
    var i :| 0 <= i < |log| && Witnesses(log, i, key, x);
    var log' := log + [e];
    if x.response.Some? {
      var k :| i < k < |log| && log[k] == Completed(log[i].who, x.id, x.response.value);
      assert log'[k] == log[k];
    }
    assert Witnesses(log', i, key, x);
  }

  lemma RemovedGrows(log: seq<Entry>, e: Entry, i: nat, j: nat)
    requires i < |log| && log[i].New? && RemovedBetween(log, i, j)
    ensures RemovedBetween(log + [e], i, j)
  {
    var k :| i < k < j && k < |log| && Removes(log[k], log[i]);
    assert (log + [e])[k] == log[k];
  }

  lemma ReplayGrows(log: seq<Entry>, e: Entry, j: nat)
    requires j < |log| && log[j].Replay? && ReplayJustified(log, j)
    ensures ReplayJustified(log + [e], j)
  {
    var i, k :| && 0 <= i < k < j && log[i].New?
                && log[i].key == log[j].key && log[i].fingerprint == log[j].fingerprint && log[i].id == log[j].id
                && log[k] == Completed(log[i].who, log[j].id, log[j].response);
    var log' := log + [e];
    assert log'[i] == log[i] && log'[k] == log[k] && log'[j] == log[j];
  }

  /** Appending an entry that says nothing about record id leaves what is known of id. */
  lemma KnownGrows(log: seq<Entry>, e: Entry, id: RecordId)
    ensures Ended(log + [e], id) <==> Ended(log, id) || e == Aborted(id) || (e.Expired? && e.id == id)
    ensures Answered(log + [e], id) <==> Answered(log, id) || (e.Completed? && e.id == id)
  {
    var log' := log + [e];
    assert log'[|log|] == e;
    if Ended(log, id) {
      var k :| 0 <= k < |log| && (log[k] == Aborted(id) || (log[k].Expired? && log[k].id == id));
      assert log'[k] == log[k];
    }
    if Answered(log, id) {
      var k :| 0 <= k < |log| && log[k].Completed? && log[k].id == id;
      assert log'[k] == log[k];
    }
  }

  lemma RequestGrows(w: World, w': World, e: Entry, r: RequestId, q: Request)
    requires w'.log == w.log + [e] && w.clock <= w'.clock && RequestOk(w, r, q)
    requires e.Completed? ==> !HoldsId(q, e.id)
    ensures RequestOk(w', r, q)
  {
    match q.pc {
      case Judging(x) => JustifiedGrows(w.log, e, q.key, x);
      case Deleting(id) =>
        var i :| 0 <= i < |w.log| && w.log[i].New? && w.log[i].id == id && w.log[i].begunAt + 86_400_000 <= w.clock;
        assert w'.log[i] == w.log[i];
      case Handling(id) => HoldsGrows(w.log, e, r, id);
      case Completing(id, _) => HoldsGrows(w.log, e, r, id);
      case Aborting(id) => HoldsGrows(w.log, e, r, id);
      case _ =>
    }
  }

  predicate HoldsId(q: Request, id: RecordId) {
    match q.pc
    case Handling(x) => x == id
    case Completing(x, _) => x == id
    case Aborting(x) => x == id
    case _ => false
  }

  lemma HoldsGrows(log: seq<Entry>, e: Entry, r: RequestId, id: RecordId)
    requires Holds(log, r, id) && !(e.Completed? && e.id == id)
    ensures Holds(log + [e], r, id)
  {
    var i :| 0 <= i < |log| && log[i].New? && log[i].who == r && log[i].id == id;
    assert (log + [e])[i] == log[i];
    KnownGrows(log, e, id);
  }

  /** One record has one creator, so two requests never hold the same record. */
  lemma OneHolder(w: World, r1: RequestId, r2: RequestId, id: RecordId)
    requires Inv(w) && r1 in w.requests && r2 in w.requests
    requires HoldsId(w.requests[r1], id) && HoldsId(w.requests[r2], id)
    ensures r1 == r2
  {
    assert RequestOk(w, r1, w.requests[r1]) && RequestOk(w, r2, w.requests[r2]);
    var i :| 0 <= i < |w.log| && w.log[i].New? && w.log[i].who == r1 && w.log[i].id == id;
    var j :| 0 <= j < |w.log| && w.log[j].New? && w.log[j].who == r2 && w.log[j].id == id;
  }

  /** What a step must check of the one entry it appends. */
  ghost predicate MayAppend(w: World, e: Entry, clock: Time) {
    match e
    case New(_, key, _, id, begunAt, at) => id == w.next && key !in w.rows && begunAt <= at && w.clock <= at <= clock
    case Completed(r, id, _) => Holds(w.log, r, id) && w.Has(id)
    case Aborted(id) => !Answered(w.log, id) && id < w.next
    case Expired(id, at) => HasExpired(w.log, id, at) && at <= clock
    case Replay(key, fingerprint, id, response) =>
      exists x: Record :: Justified(w.log, key, x) && x.fingerprint == fingerprint && x.id == id
          && x.response == Some(response)
  }

  lemma NewsGrow(w: World, e: Entry, clock: Time)
    requires Inv(w) && MayAppend(w, e, clock)
    ensures NewsSeparated(w.log + [e])
  {
    var log, log' := w.log, w.log + [e];
    forall i, j | 0 <= i < j < |log'| && log'[i].New? && log'[j].New? && log'[i].key == log'[j].key
      ensures RemovedBetween(log', i, j)
    {
      RemovedGrows(log, e, i, j);
    }
  }

  lemma ReplaysGrow(w: World, e: Entry, clock: Time)
    requires Inv(w) && MayAppend(w, e, clock)
    ensures ReplaysJustified(w.log + [e])
  {
    var log, log' := w.log, w.log + [e];
    forall j | 0 <= j < |log'| && log'[j].Replay?
      ensures ReplayJustified(log', j)
    {
      if j < |log| {
        ReplayGrows(log, e, j);
      } else {
        var x: Record :| Justified(log, e.key, x) && x.fingerprint == e.fingerprint && x.id == e.id
                         && x.response == Some(e.response);
        var i :| 0 <= i < |log| && Witnesses(log, i, e.key, x);
        var k :| i < k < |log| && log[k] == Completed(log[i].who, x.id, x.response.value);
        assert log'[i] == log[i] && log'[k] == log[k] && log'[j] == e;
      }
    }
  }

  lemma TimesGrow(w: World, e: Entry, clock: Time)
    requires Inv(w) && MayAppend(w, e, clock)
    ensures TimesOrdered(w.log + [e])
  {
  }

  lemma LogOkGrows(w: World, e: Entry, clock: Time)
    requires Inv(w) && MayAppend(w, e, clock)
    ensures LogOk(w.log + [e])
  {
    NewsGrow(w, e, clock);
    ReplaysGrow(w, e, clock);
    IdsUniqueGrows(w, e, clock);
    TimesGrow(w, e, clock);
  }

  lemma IdsUniqueGrows(w: World, e: Entry, clock: Time)
    requires Inv(w) && MayAppend(w, e, clock)
    ensures IdsUnique(w.log + [e])
  {
    var log, log' := w.log, w.log + [e];
    if e.Completed? {
      var k :| k in w.rows && w.rows[k].id == e.id;
      assert RowOk(w, k, w.rows[k]);
      assert forall j :: 0 <= j < |log| && log[j].Aborted? ==> log[j].id != e.id;
    }
    assert IdsUnique(log);
  }

  lemma BoundedGrows(w: World, w': World, e: Entry)
    requires Bounded(w) && MayAppend(w, e, w'.clock)
    requires w'.log == w.log + [e] && w.clock <= w'.clock && w.next <= w'.next && (e.New? ==> w.next < w'.next)
    requires forall q :: q in w'.requests ==> q in w.requests
    ensures Bounded(w')
  {
    if e.Completed? || e.Expired? {
      var i :| 0 <= i < |w.log| && w.log[i].New? && w.log[i].id == e.id;
    }
  }

  /** The parts of the invariant about the log, requests and time, for any step that appends one entry. */
  lemma AppendKeeps(w: World, w': World, e: Entry, r: RequestId)
    requires Inv(w) && MayAppend(w, e, w'.clock)
    requires w'.log == w.log + [e] && w.clock <= w'.clock && w.next <= w'.next
    requires e.New? ==> w.next < w'.next
    requires w'.requests == w.requests - {r}
             || (r in w'.requests && r in w.requests && w'.requests == w.requests[r := w'.requests[r]]
                                                 && RequestOk(w', r, w'.requests[r]))
    requires e.Completed? ==> r in w.requests && r !in w'.requests && HoldsId(w.requests[r], e.id)
    ensures LogOk(w'.log) && Bounded(w')
    ensures forall q :: q in w'.requests ==> RequestOk(w', q, w'.requests[q])
  {
    LogOkGrows(w, e, w'.clock);
    BoundedGrows(w, w', e);
    forall q | q in w'.requests
      ensures RequestOk(w', q, w'.requests[q])
    {
      if q != r {
        assert RequestOk(w, q, w.requests[q]);
        if e.Completed? && HoldsId(w.requests[q], e.id) { OneHolder(w, q, r, e.id); }
        RequestGrows(w, w', e, q, w.requests[q]);
      }
    }
  }

  /** A step that appends nothing and leaves the rows alone. */
  lemma QuietKeeps(w: World, w': World, r: RequestId)
    requires Inv(w) && w'.log == w.log && w'.rows == w.rows && w.clock <= w'.clock && w.next <= w'.next
    requires r < w'.next
    requires w'.requests == w.requests - {r} || (r in w'.requests && w'.requests == w.requests[r := w'.requests[r]]
                                                 && RequestOk(w', r, w'.requests[r]))
    ensures Inv(w')
  {
    forall q | q in w'.requests
      ensures RequestOk(w', q, w'.requests[q])
    {
      if q != r { assert RequestOk(w, q, w.requests[q]); }
    }
    forall k | k in w'.rows
      ensures RowOk(w', k, w'.rows[k])
    {
      assert RowOk(w, k, w.rows[k]);
    }
  }

  lemma RowGrows(w: World, w': World, e: Entry, k: Key, x: Record)
    requires w'.log == w.log + [e] && RowOk(w, k, x)
    requires !(e.Completed? && e.id == x.id) && !(e.Expired? && e.id == x.id) && e != Aborted(x.id)
    ensures RowOk(w', k, x)
  {
    JustifiedGrows(w.log, e, k, x);
    KnownGrows(w.log, e, x.id);
  }

  lemma ReplayKeeps(w: World, r: RequestId, q: Request, x: Record)
    requires Inv(w) && r in w.requests && w.requests[r] == q && q.pc == Judging(x)
    requires x.fingerprint == q.fingerprint && x.response.Some?
    ensures Inv(w.Log(Replay(q.key, q.fingerprint, x.id, x.response.value)).End(r))
  {
    var e := Replay(q.key, q.fingerprint, x.id, x.response.value);
    var w' := w.Log(e).End(r);
    assert RequestOk(w, r, q);
    AppendKeeps(w, w', e, r);
    forall k | k in w'.rows
      ensures RowOk(w', k, w'.rows[k])
    {
      RowGrows(w, w', e, k, w.rows[k]);
    }
    AccountedGrows(w, w', e);
  }

  /** Accounting goes on when no row disappears or changes its id. */
  lemma AccountedGrows(w: World, w': World, e: Entry)
    requires Accounted(w) && w'.log == w.log + [e]
    requires e.New? ==> e.key in w'.rows && w'.rows[e.key].id == e.id
    requires forall k :: k in w.rows ==> k in w'.rows && w'.rows[k].id == w.rows[k].id
    ensures Accounted(w')
  {
    forall i | 0 <= i < |w'.log| && w'.log[i].New?
      ensures (w'.log[i].key in w'.rows && w'.rows[w'.log[i].key].id == w'.log[i].id)
              || RemovedBetween(w'.log, i, |w'.log|)
    {
      if i < |w.log| && RemovedBetween(w.log, i, |w.log|) {
        RemovedGrows(w.log, e, i, |w.log|);
        var k :| i < k < |w.log| && k < |w'.log| && Removes(w'.log[k], w'.log[i]);
      }
    }
  }

  /** A new record's id has no entry yet. */
  lemma NewIdUnknown(w: World, e: Entry)
    requires Inv(w) && e.New?
    ensures !Ended(w.log + [e], w.next) && !Answered(w.log + [e], w.next)
  {
    KnownGrows(w.log, e, w.next);
  }

  lemma NewRow(w: World, w': World, r: RequestId, e: Entry, x: Record)
    requires Inv(w) && w'.log == w.log + [e] && e.New? && e.who == r && e.id == w.next
    requires x == Record(e.id, e.fingerprint, e.begunAt + DAY, None)
    ensures RowOk(w', e.key, x) && Holds(w'.log, r, e.id)
  {
    NewIdUnknown(w, e);
    assert w'.log[|w.log|] == e;
    assert Witnesses(w'.log, |w.log|, e.key, x);
  }

  lemma CreateAccounts(w: World, r: RequestId, q: Request, e: Entry)
    requires Accounted(w) && q.pc.Creating? && q.key !in w.rows && e.New? && e.key == q.key && e.id == w.next
    requires NextBegin(w, r, q, true).log == w.log + [e]
    ensures Accounted(NextBegin(w, r, q, true))
  {
    AccountedGrows(w, NextBegin(w, r, q, true), e);
  }

  lemma CreateKeeps(w: World, r: RequestId, q: Request)
    requires Inv(w) && r in w.requests && w.requests[r] == q && q.pc.Creating? && q.key !in w.rows
    ensures Inv(NextBegin(w, r, q, true))
  {
    var e := New(r, q.key, q.fingerprint, w.next, q.pc.begunAt, w.clock);
    var w' := NextBegin(w, r, q, true);
    assert RequestOk(w, r, q);
    NewRow(w, w', r, e, w'.rows[q.key]);
    AppendKeeps(w, w', e, r);
    CreateAccounts(w, r, q, e);
    forall k | k in w'.rows
      ensures RowOk(w', k, w'.rows[k])
    {
      if k != q.key { RowGrows(w, w', e, k, w.rows[k]); }
    }
  }

  /** Deleting the record id and logging why. */
  lemma RemoveKeeps(w: World, w': World, r: RequestId, e: Entry, id: RecordId)
    requires Inv(w) && r in w.requests && MayAppend(w, e, w.clock)
    requires e == Aborted(id) || (e.Expired? && e.id == id)
    requires w' == w.Without(id).Log(e).(requests := w'.requests)
    requires w'.requests == w.requests - {r} || (r in w'.requests && w'.requests == w.requests[r := w'.requests[r]]
                                                 && w'.requests[r].pc == Starting)
    ensures Inv(w')
  {
    AppendKeeps(w, w', e, r);
    forall k | k in w'.rows
      ensures RowOk(w', k, w'.rows[k])
    {
      RowGrows(w, w', e, k, w.rows[k]);
    }
    var n := |w.log|;
    assert w'.log[n] == e;
    forall i | 0 <= i < |w'.log| && w'.log[i].New?
      ensures (w'.log[i].key in w'.rows && w'.rows[w'.log[i].key].id == w'.log[i].id)
              || RemovedBetween(w'.log, i, |w'.log|)
    {
      if w'.log[i].id == id {
        if e.Expired? {
          var j :| 0 <= j < |w.log| && w.log[j].New? && w.log[j].id == id && w.log[j].begunAt + DAY <= e.at;
        }
        assert Removes(w'.log[n], w'.log[i]);
      } else if RemovedBetween(w.log, i, |w.log|) {
        RemovedGrows(w.log, e, i, |w.log|);
        var k :| i < k < |w.log| && k < |w'.log| && Removes(w'.log[k], w'.log[i]);
      }
    }
  }

  lemma CompletedRows(w: World, w': World, r: RequestId, id: RecordId, answer: Response)
    requires Inv(w) && Holds(w.log, r, id)
    requires w' == w.Respond(id, answer).Log(Completed(r, id, answer)).End(r)
    ensures forall k :: k in w'.rows ==> RowOk(w', k, w'.rows[k])
  {
    var e := Completed(r, id, answer);
    forall k | k in w'.rows
      ensures RowOk(w', k, w'.rows[k])
    {
      assert RowOk(w, k, w.rows[k]);
      if w.rows[k].id == id {
        CompletedRow(w, w', e, r, k);
      } else {
        RowGrows(w, w', e, k, w.rows[k]);
      }
    }
  }

  lemma CompletedLog(w: World, w': World, r: RequestId, q: Request, id: RecordId, answer: Response)
    requires Inv(w) && r in w.requests && w.requests[r] == q && q.pc == Completing(id, answer) && w.Has(id)
    requires w'.log == w.log + [Completed(r, id, answer)] && w'.clock == w.clock && w'.next == w.next
    requires w'.requests == w.requests - {r}
    ensures LogOk(w'.log) && Bounded(w') && Holds(w.log, r, id)
    ensures forall o :: o in w'.requests ==> RequestOk(w', o, w'.requests[o])
  {
    assert RequestOk(w, r, q);
    AppendKeeps(w, w', Completed(r, id, answer), r);
  }

  lemma CompleteKeeps(w: World, r: RequestId, q: Request, id: RecordId, answer: Response)
    requires Inv(w) && r in w.requests && w.requests[r] == q && q.pc == Completing(id, answer) && w.Has(id)
    ensures Inv(w.Respond(id, answer).Log(Completed(r, id, answer)).End(r))
  {
    var w' := w.Respond(id, answer).Log(Completed(r, id, answer)).End(r);
    CompletedLog(w, w', r, q, id, answer);
    CompletedRows(w, w', r, id, answer);
    CompleteAccounts(w, r, id, answer);
  }

  lemma CompleteAccounts(w: World, r: RequestId, id: RecordId, answer: Response)
    requires Accounted(w)
    ensures Accounted(w.Respond(id, answer).Log(Completed(r, id, answer)).End(r))
  {
    AccountedGrows(w, w.Respond(id, answer).Log(Completed(r, id, answer)).End(r), Completed(r, id, answer));
  }

  lemma CompletedRow(w: World, w': World, e: Entry, r: RequestId, k: Key)
    requires Inv(w) && w'.log == w.log + [e] && e.Completed? && e.who == r && Holds(w.log, r, e.id)
    requires k in w.rows && w.rows[k].id == e.id && k in w'.rows
             && w'.rows[k] == w.rows[k].(response := Some(e.response))
    ensures RowOk(w', k, w'.rows[k])
  {
    var x := w.rows[k];
    assert RowOk(w, k, x);
    var i :| 0 <= i < |w.log| && Witnesses(w.log, i, k, x);
    var j :| 0 <= j < |w.log| && w.log[j].New? && w.log[j].who == r && w.log[j].id == e.id;
    var n := |w.log|;
    assert w'.log[n] == Completed(w'.log[i].who, x.id, e.response);
    assert Witnesses(w'.log, i, k, w'.rows[k]);
    KnownGrows(w.log, e, x.id);
  }

  lemma JudgeKeeps(w: World, r: RequestId, q: Request)
    requires Inv(w) && r in w.requests && w.requests[r] == q && q.pc.Judging?
    ensures Inv(NextBegin(w, r, q, true))
  {
    var x, w' := q.pc.found, NextBegin(w, r, q, true);
    assert RequestOk(w, r, q);
    if x.expiresAt <= w.clock {
      var i :| 0 <= i < |w.log| && Witnesses(w.log, i, q.key, x);
      QuietKeeps(w, w', r);
    } else if x.fingerprint != q.fingerprint || x.response.None? {
      QuietKeeps(w, w', r);
    } else {
      ReplayKeeps(w, r, q, x);
    }
  }

  lemma DeleteKeeps(w: World, r: RequestId, q: Request, ok: bool)
    requires Inv(w) && r in w.requests && w.requests[r] == q && q.pc.Deleting?
    ensures Inv(NextBegin(w, r, q, ok))
  {
    var id, w' := q.pc.expired, NextBegin(w, r, q, ok);
    assert RequestOk(w, r, q);
    if ok && w.Has(id) { RemoveKeeps(w, w', r, Expired(id, w.clock), id); } else { QuietKeeps(w, w', r); }
  }

  lemma BeginKeeps(w: World, r: RequestId, q: Request, ok: bool)
    requires Inv(w) && r in w.requests && w.requests[r] == q
    requires !q.pc.Handling? && !q.pc.Completing? && !q.pc.Aborting?
    ensures Inv(NextBegin(w, r, q, ok))
  {
    var w' := NextBegin(w, r, q, ok);
    match q.pc {
      case Starting => QuietKeeps(w, w', r);
      case Creating(_) => if ok && q.key !in w.rows { CreateKeeps(w, r, q); } else { QuietKeeps(w, w', r); }
      case Looking => if ok && q.key in w.rows { assert RowOk(w, q.key, w.rows[q.key]); } QuietKeeps(w, w', r);
      case Judging(_) => JudgeKeeps(w, r, q);
      case Deleting(_) => DeleteKeeps(w, r, q, ok);
    }
  }

  lemma HandleKeeps(w: World, r: RequestId, q: Request, ok: bool, response: Response)
    requires Inv(w) && r in w.requests && w.requests[r] == q
    requires q.pc.Handling? || q.pc.Completing? || q.pc.Aborting?
    ensures Inv(NextHandle(w, r, q, ok, response))
  {
    var w' := NextHandle(w, r, q, ok, response);
    assert RequestOk(w, r, q);
    match q.pc {
      case Handling(_) => QuietKeeps(w, w', r);
      case Completing(id, answer) =>
        if ok && w.Has(id) { CompleteKeeps(w, r, q, id, answer); } else { QuietKeeps(w, w', r); }
      case Aborting(id) =>
        if ok && exists k :: k in w.rows && w.rows[k].id == id && w.rows[k].response.None? {
          var i :| 0 <= i < |w.log| && w.log[i].New? && w.log[i].who == r && w.log[i].id == id;
          RemoveKeeps(w, w', r, Aborted(id), id);
        } else {
          QuietKeeps(w, w', r);
        }
    }
  }

  lemma NextKeeps(w: World, action: Action)
    requires Inv(w)
    ensures Inv(Next(w, action))
  {
    match action {
      case Tick(t) => TickKeeps(w, Next(w, action));
      case Arrive(key, fingerprint) => QuietKeeps(w, Next(w, action), w.next);
      case Advance(r, ok, response) =>
        if r in w.requests {
          var q := w.requests[r];
          if q.pc.Handling? || q.pc.Completing? || q.pc.Aborting? {
            HandleKeeps(w, r, q, ok, response);
          } else {
            BeginKeeps(w, r, q, ok);
          }
        }
      case Crash(r) => if r in w.requests { QuietKeeps(w, Next(w, action), r); }
    }
  }

  lemma TickKeeps(w: World, w': World)
    requires Inv(w) && w' == w.(clock := w'.clock) && w.clock <= w'.clock
    ensures Inv(w')
  {
    forall q | q in w'.requests
      ensures RequestOk(w', q, w'.requests[q])
    {
      assert RequestOk(w, q, w.requests[q]);
    }
    forall k | k in w'.rows
      ensures RowOk(w', k, w'.rows[k])
    {
      assert RowOk(w, k, w.rows[k]);
    }
  }

  lemma {:induction false} RunKeeps(actions: seq<Action>)
    ensures Inv(Run(EMPTY, actions))
  {
    if actions != [] {
      RunKeeps(actions[..|actions| - 1]);
      NextKeeps(Run(EMPTY, actions[..|actions| - 1]), actions[|actions| - 1]);
    }
  }

  // ----- Main results -------------------------------------------------------------------------

  /** For one key, two NEW results are separated by an abort of the first, or by at least the 24 hours
      of its record; and once the first has completed, only the 24 hours can separate them. */
  lemma AtMostOncePerDay(actions: seq<Action>, i: nat, j: nat)
    requires i < j < |Run(EMPTY, actions).log|
    requires Run(EMPTY, actions).log[i].New? && Run(EMPTY, actions).log[j].New?
    requires Run(EMPTY, actions).log[i].key == Run(EMPTY, actions).log[j].key
    ensures var log := Run(EMPTY, actions).log;
            || log[i].begunAt + 86_400_000 <= log[j].at
            || (exists k :: i < k < j && log[k] == Aborted(log[i].id) && !Answered(log, log[i].id))
  {
    RunKeeps(actions);
    var log := Run(EMPTY, actions).log;
    assert RemovedBetween(log, i, j);
    var k :| i < k < j && k < |log| && Removes(log[k], log[i]);
    if log[k].Expired? {
      assert log[k].at <= log[j].at;
    }
  }

  /** Every REPLAY returns the response completed, for the same record and fingerprint, by the request
      whose NEW created that record; and all replays of a record agree. */
  lemma ReplaysReturnTheOriginal(actions: seq<Action>, j1: nat, j2: nat)
    requires j1 < |Run(EMPTY, actions).log| && j2 < |Run(EMPTY, actions).log|
    requires Run(EMPTY, actions).log[j1].Replay? && Run(EMPTY, actions).log[j2].Replay?
    ensures var log := Run(EMPTY, actions).log;
            && ReplayJustified(log, j1)
            && (log[j1].id == log[j2].id ==> log[j1] == log[j2])
  {
    RunKeeps(actions);
    var log := Run(EMPTY, actions).log;
    assert ReplayJustified(log, j1) && ReplayJustified(log, j2);
    if log[j1].id == log[j2].id { ReplaysAgree(log, j1, j2); }
  }

  lemma ReplaysAgree(log: seq<Entry>, j1: nat, j2: nat)
    requires IdsUnique(log) && j1 < |log| && j2 < |log| && log[j1].Replay? && log[j2].Replay?
    requires ReplayJustified(log, j1) && ReplayJustified(log, j2) && log[j1].id == log[j2].id
    ensures log[j1] == log[j2]
  {
    var i1, k1 :| && 0 <= i1 < k1 < j1 && log[i1].New?
                  && log[i1].key == log[j1].key && log[i1].fingerprint == log[j1].fingerprint
                  && log[i1].id == log[j1].id
                  && log[k1] == Completed(log[i1].who, log[j1].id, log[j1].response);
    var i2, k2 :| && 0 <= i2 < k2 < j2 && log[i2].New?
                  && log[i2].key == log[j2].key && log[i2].fingerprint == log[j2].fingerprint
                  && log[i2].id == log[j2].id
                  && log[k2] == Completed(log[i2].who, log[j2].id, log[j2].response);
    assert i1 == i2 && k1 == k2;
  }

  /** However late it runs, the delete of an expired row never removes a row that has not expired. */
  lemma ExpiredDeleteSparesLiveRows(actions: seq<Action>, r: RequestId, ok: bool, response: Response, k: Key)
    requires var w := Run(EMPTY, actions); r in w.requests && w.requests[r].pc.Deleting? && k in w.rows
    ensures var w := Run(EMPTY, actions);
            var w' := Next(w, Advance(r, ok, response));
            (k in w'.rows && w'.rows[k] == w.rows[k]) || w.rows[k].expiresAt <= w.clock
  {
    RunKeeps(actions);
    var w := Run(EMPTY, actions);
    assert RequestOk(w, r, w.requests[r]);
    assert RowOk(w, k, w.rows[k]);
    if w.rows[k].id == w.requests[r].pc.expired {
      ExpiredRow(w.log, w.rows[k].id, w.clock, k, w.rows[k]);
    }
  }

  lemma ExpiredRow(log: seq<Entry>, id: RecordId, clock: Time, k: Key, x: Record)
    requires IdsUnique(log) && HasExpired(log, id, clock) && Justified(log, k, x) && x.id == id
    ensures x.expiresAt <= clock
  {
    var i :| 0 <= i < |log| && log[i].New? && log[i].id == id && log[i].begunAt + 86_400_000 <= clock;
    var j :| 0 <= j < |log| && Witnesses(log, j, k, x);
    assert i == j;
  }

  /** At most one request runs the handler of a record, completes it or aborts it. */
  lemma OneRequestPerRecord(actions: seq<Action>, r1: RequestId, r2: RequestId, id: RecordId)
    requires var w := Run(EMPTY, actions);
             r1 in w.requests && r2 in w.requests && HoldsId(w.requests[r1], id) && HoldsId(w.requests[r2], id)
    ensures r1 == r2
  {
    RunKeeps(actions);
    OneHolder(Run(EMPTY, actions), r1, r2, id);
  }
}
