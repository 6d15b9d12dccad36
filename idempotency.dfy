/** The idempotency ledger behind `with_idempotency` (orders/services.py is
    not part of this model; its behaviour is the one its tests fix).
    A request is identified by its caller, path, HTTP method and key. The first
    request under an identity runs the handler; a later one with another
    payload hash is refused with 409, one that arrives while the first is
    still running is refused with 409, and one that arrives after the first
    completed replays the stored response. */
module Idempotency {
  import opened Wrappers
  import opened Http

  /** `userId` None stands for the anonymous scope. */
  datatype Identity = Identity(userId: Option<int>, path: string, verb: string, key: string)

  /** A ledger entry: `response` is None while the handler is running. */
  datatype IdemRecord = IdemRecord(requestHash: string, response: Option<Response>)

  type Records = map<Identity, IdemRecord>

  datatype Decision = Execute | Replay(cached: Response) | Refuse(conflict: Response)

  const ReusedKeyDetail := "Idempotency key reused with different request payload"
  const InProgressDetail := "Request in progress"

  /** What the ledger does with a request under `id` carrying `requestHash`. */
  function Decide(records: Records, id: Identity, requestHash: string): (d: Decision)
    ensures d.Execute? <==> id !in records
    ensures d.Refuse? ==> d.conflict.code == Conflict
    ensures d.Refuse? && records[id].requestHash != requestHash ==> d.conflict.body == Detail(ReusedKeyDetail)
    ensures d.Refuse? <==> id in records && (records[id].requestHash != requestHash || records[id].response.None?)
    ensures d.Replay? <==> id in records && records[id].requestHash == requestHash && records[id].response.Some?
    ensures d.Replay? ==> d.cached == records[id].response.value
  {
    if id !in records then Execute
    else
      var rec := records[id];
      if rec.requestHash != requestHash then Refuse(Response(Conflict, Detail(ReusedKeyDetail)))
      else match rec.response
        case None => Refuse(Response(Conflict, Detail(InProgressDetail)))
        case Some(resp) => Replay(resp)
  }

  /** The ledger after a request is admitted: an in-progress entry is
      recorded for a new identity, and nothing changes otherwise. */
  function AfterBegin(records: Records, id: Identity, requestHash: string): (m: Records)
    ensures id in m
    ensures m.Keys == records.Keys + {id}
    ensures id !in records ==> m[id] == IdemRecord(requestHash, None)
    ensures id in records ==> m == records
  {
    if id in records then records else records[id := IdemRecord(requestHash, None)]
  }

  /** The ledger after the handler's response is stored for `id`. */
  function AfterComplete(records: Records, id: Identity, response: Response): (m: Records)
    ensures m.Keys == records.Keys
    ensures id in records ==> m[id] == records[id].(response := Some(response))
    ensures forall j :: j in records && j != id ==> m[j] == records[j]
  {
    if id in records then records[id := records[id].(response := Some(response))] else records
  }

  class Ledger {
    var records: Records

    constructor (initial: Records)
      ensures records == initial
    {
      records := initial;
    }

    /** Looks the request up, recording it as in progress when it is new. */
    method Begin(id: Identity, requestHash: string) returns (d: Decision)
      modifies this
      ensures d == Decide(old(records), id, requestHash)
      ensures records == AfterBegin(old(records), id, requestHash)
    {
      d := Decide(records, id, requestHash);
      if d.Execute? {
        records := records[id := IdemRecord(requestHash, None)];
      }
    }

    /** Stores the handler's response for a request that was begun. */
    method Complete(id: Identity, response: Response)
      modifies this
      ensures records == AfterComplete(old(records), id, response)
    {
      if id in records {
        records := records[id := records[id].(response := Some(response))];
      }
    }
  }

  /** Once a request has run to completion, the same request replays its
      response and a different payload under the same key is refused. */
  lemma CompletedRequestReplays(records: Records, id: Identity, h: string, other: string, resp: Response)
    requires id !in records && other != h
    ensures var done := AfterComplete(AfterBegin(records, id, h), id, resp);
            Decide(done, id, h) == Replay(resp)
            && Decide(done, id, other) == Refuse(Response(Conflict, Detail(ReusedKeyDetail)))
  {
  }

  /** While a request is running, every request under its identity is
      refused with 409, whatever its payload. */
  lemma InProgressRefusesAll(records: Records, id: Identity, h: string, any: string)
    requires id !in records
    ensures Decide(AfterBegin(records, id, h), id, any).Refuse?
    ensures Decide(AfterBegin(records, id, h), id, any).conflict.code == Conflict
  {
  }

  /** One ledger interaction under a fixed identity. */
  datatype LedgerOp = BeginOp(requestHash: string) | CompleteOp(response: Response)

  function Apply(records: Records, id: Identity, op: LedgerOp): Records {
    match op
    case BeginOp(h) => AfterBegin(records, id, h)
    case CompleteOp(r) => AfterComplete(records, id, r)
  }

  /** The number of requests, in a run of ledger interactions, that would
      run the handler. */
  function Executions(records: Records, id: Identity, ops: seq<LedgerOp>): nat
    decreases |ops|
  {
    if |ops| == 0 then 0
    else
      var now := if ops[0].BeginOp? && Decide(records, id, ops[0].requestHash).Execute? then 1 else 0;
      now + Executions(Apply(records, id, ops[0]), id, ops[1..])
  }

  /** However requests and completions interleave, the handler runs at most
      once per identity, and never when the identity is already recorded. */
  lemma {:induction false} AtMostOneExecution(records: Records, id: Identity, ops: seq<LedgerOp>)
    ensures Executions(records, id, ops) <= (if id in records then 0 else 1)
    decreases |ops|
  {
    if |ops| > 0 {
      var next := Apply(records, id, ops[0]);
      AtMostOneExecution(next, id, ops[1..]);
      if ops[0].BeginOp? {
        assert id in next;
      } else {
        assert id in next <==> id in records;
      }
    }
  }
}
