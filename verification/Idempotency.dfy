/** The idempotency table and the requests that use it: `begin` (create, look up, judge, delete an
    expired row, start over), the handler, `complete` and `abort`, in the order of the interceptor.
    A run is any sequence of actions; requests interleave between any two statements, may crash, and
    the clock only moves forward. */
module Idempotency {
  import opened Common
  import Runs

  type Time = int
  type RecordId = nat
  type RequestId = nat
  type Fingerprint = nat

  /** The unique pair (companyId, keyHash); equal hashes mean equal keys. */
  datatype Key = Key(company: nat, keyHash: nat)

  datatype Response = Response(status: nat, body: nat)

  const DAY: Time := 24 * 60 * 60 * 1000

  /** A record row; it is COMPLETED when it has a response and IN_PROGRESS otherwise. */
  datatype Record = Record(id: RecordId, fingerprint: Fingerprint, expiresAt: Time, response: Option<Response>)

  datatype Pc =
    | Starting
    | Creating(begunAt: Time)
    | Looking
    | Judging(found: Record)
    | Deleting(expired: RecordId)
    | Handling(record: RecordId)
    | Completing(record: RecordId, response: Response)
    | Aborting(record: RecordId)

  datatype Request = Request(key: Key, fingerprint: Fingerprint, pc: Pc)

  /** What happened, in commit order. */
  datatype Entry =
    | New(who: RequestId, key: Key, fingerprint: Fingerprint, id: RecordId, begunAt: Time, at: Time)
    | Completed(who: RequestId, id: RecordId, response: Response)
    | Aborted(id: RecordId)
    | Expired(id: RecordId, at: Time)
    | Replay(key: Key, fingerprint: Fingerprint, id: RecordId, response: Response)

  /** The rows are keyed by the unique pair. `next` numbers records and requests that never repeat. */
  datatype World = World(rows: map<Key, Record>, next: nat, clock: Time, requests: map<RequestId, Request>,
                         log: seq<Entry>)
  {
    function End(r: RequestId): World {
      this.(requests := requests - {r})
    }

    function Goto(r: RequestId, q: Request, pc: Pc): World {
      this.(requests := requests[r := q.(pc := pc)])
    }

    function Log(e: Entry): World {
      this.(log := log + [e])
    }

    predicate Has(id: RecordId) {
      exists k :: k in rows && rows[k].id == id
    }

    /** `delete where id`. */
    function Without(id: RecordId): World {
      this.(rows := map k | k in rows && rows[k].id != id :: rows[k])
    }

    /** `update where id`. */
    function Respond(id: RecordId, response: Response): World {
      this.(rows := map k | k in rows :: if rows[k].id == id then rows[k].(response := Some(response)) else rows[k])
    }
  }

  const EMPTY := World(map[], 0, 0, map[], [])

  datatype Action =
    | Tick(time: Time)
    | Arrive(key: Key, fingerprint: Fingerprint)
    | Advance(r: RequestId, ok: bool, response: Response)
    | Crash(r: RequestId)

  /** One step of `begin`. */
  function NextBegin(w: World, r: RequestId, q: Request, ok: bool): World
    requires !q.pc.Handling? && !q.pc.Completing? && !q.pc.Aborting?
  {
    match q.pc
    case Starting => w.Goto(r, q, Creating(w.clock))
    case Creating(t) =>
      if !ok then w.End(r)
      else if q.key in w.rows then w.Goto(r, q, Looking)
      else
        w.(rows := w.rows[q.key := Record(w.next, q.fingerprint, t + DAY, None)], next := w.next + 1)
         .Log(New(r, q.key, q.fingerprint, w.next, t, w.clock))
         .Goto(r, q, Handling(w.next))
    case Looking =>
      if !ok || q.key !in w.rows then w.End(r) else w.Goto(r, q, Judging(w.rows[q.key]))
    case Judging(x) =>
      if x.expiresAt <= w.clock then w.Goto(r, q, Deleting(x.id))
      else if x.fingerprint != q.fingerprint || x.response.None? then w.End(r)
      else w.Log(Replay(q.key, q.fingerprint, x.id, x.response.value)).End(r)
    case Deleting(id) =>
      if !ok || !w.Has(id) then w.End(r)
      else w.Without(id).Log(Expired(id, w.clock)).Goto(r, q, Starting)
  }

  /** One step of the interceptor after a NEW result: the handler, `complete`, `abort`. */
  function NextHandle(w: World, r: RequestId, q: Request, ok: bool, response: Response): World
    requires q.pc.Handling? || q.pc.Completing? || q.pc.Aborting?
  {
    match q.pc
    case Handling(id) => w.Goto(r, q, if ok then Completing(id, response) else Aborting(id))
    case Completing(id, answer) =>
      if !ok || !w.Has(id) then w.Goto(r, q, Aborting(id))
      else w.Respond(id, answer).Log(Completed(r, id, answer)).End(r)
    case Aborting(id) =>
      if ok && exists k :: k in w.rows && w.rows[k].id == id && w.rows[k].response.None?
      then w.Without(id).Log(Aborted(id)).End(r)
      else w.End(r)
  }

  function Next(w: World, action: Action): World {
    match action
    case Tick(t) => w.(clock := if t > w.clock then t else w.clock)
    case Arrive(key, fingerprint) =>
      w.(requests := w.requests[w.next := Request(key, fingerprint, Starting)], next := w.next + 1)
    case Advance(r, ok, response) =>
      if r !in w.requests then w
      else
        var q := w.requests[r];
        if q.pc.Handling? || q.pc.Completing? || q.pc.Aborting?
        then NextHandle(w, r, q, ok, response)
        else NextBegin(w, r, q, ok)
    case Crash(r) => w.End(r)
  }

  function Run(w: World, actions: seq<Action>): World {
    Runs.Iterate(Next, w, actions)
  }
}
