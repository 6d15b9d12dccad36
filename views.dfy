/** The payments endpoints (payments/views.py): the provider's webhook,
    transaction initialisation, the intent upsert and the intent lookup.
    A handler is a method over the intent table, the order table and the
    idempotency ledger; the checks that end a request early are functions.
    Digests, JSON decoding, the provider call, the request hash and the
    clock are parameters. */
module Views {
  import opened Wrappers
  import opened Choices
  import opened Models
  import opened Http
  import opened Orders
  import opened Selectors
  import opened Serializers
  import opened Services
  import opened Idempotency
  import Text
  import Decimals

  // =====================================================================
  // PaystackWebhookView.post

  const LastWebhookHashKey := "last_webhook_hash"
  const ChargeSuccess := "charge.success"
  const ChargeFailed := "charge.failed"

  /** What JSON decoding of the raw body gives: not JSON, JSON that is not
      an object, an object whose `data` member is truthy but not an object
      (a non-empty list or string, a non-zero number, true), or an event
      (whose `data` is None when it is missing or falsy). */
  datatype Decoded = Undecodable | NonObject | EventDataNotObject | Decoded(event: Event)

  datatype WebhookSettings = WebhookSettings(secret: Bytes, allowedIps: seq<string>)

  /** The digest and decoding functions the handler relies on. */
  datatype Codecs = Codecs(hmacSha512Hex: (Bytes, Bytes) -> string, sha256Hex: Bytes -> string,
                           decodeJson: Bytes -> Decoded)

  /** The raw body, the signature header and the peer address. */
  datatype WebhookRequest = WebhookRequest(body: Bytes, signature: Option<string>, remoteAddr: Option<string>)

  /** `data.reference`, else `data.reference_code`, else "". */
  function WebhookReference(e: Event): (r: string)
    ensures r != "" ==> e.data.Some? && (e.data.value.reference == Some(r) || e.data.value.referenceCode == Some(r))
  {
    match e.data
    case None => ""
    case Some(d) =>
      if d.reference.Some? && d.reference.value != "" then d.reference.value
      else if d.referenceCode.Some? && d.referenceCode.value != "" then d.referenceCode.value
      else ""
  }

  /** The allow-list admits everyone when empty, and only listed peers otherwise. */
  predicate IpAllowed(ips: seq<string>, remote: Option<string>) {
    |ips| == 0 || (remote.Some? && remote.value in ips)
  }

  predicate SignatureOk(settings: WebhookSettings, codecs: Codecs, req: WebhookRequest) {
    ValidatePaystackSignature(req.body, req.signature.GetOr(""), settings.secret, codecs.hmacSha512Hex) == Success(true)
  }

  datatype Guard = Reject(response: Response) | Admit(intent: IntentRow, event: Event)

  /** The checks the webhook runs before it touches any state, in order:
      signature, JSON, peer address, reference, known intent. */
  function WebhookGuards(settings: WebhookSettings, codecs: Codecs, req: WebhookRequest, rows: seq<IntentRow>): (g: Guard)
    ensures g.Admit? ==> SignatureOk(settings, codecs, req) && codecs.decodeJson(req.body) == Decoded(g.event)
                         && IpAllowed(settings.allowedIps, req.remoteAddr)
    ensures g.Admit? ==> g.intent in rows && g.intent.reference == WebhookReference(g.event) != ""
  {
    match ValidatePaystackSignature(req.body, req.signature.GetOr(""), settings.secret, codecs.hmacSha512Hex)
    case Failure(_) => Reject(Crash())
    case Success(false) => Reject(Response(Unauthorized, Detail("Invalid signature")))
    case Success(true) =>
      match codecs.decodeJson(req.body)
      case Undecodable => Reject(Response(BadRequest, Detail("Invalid payload")))
      case NonObject =>
        if !IpAllowed(settings.allowedIps, req.remoteAddr) then Reject(Response(Forbidden, Detail("Forbidden")))
        else Reject(Crash())
      case EventDataNotObject =>
        if !IpAllowed(settings.allowedIps, req.remoteAddr) then Reject(Response(Forbidden, Detail("Forbidden")))
        else Reject(Crash())
      case Decoded(event) =>
        if !IpAllowed(settings.allowedIps, req.remoteAddr) then Reject(Response(Forbidden, Detail("Forbidden")))
        else
          var reference := WebhookReference(event);
          if reference == "" then Reject(Response(BadRequest, Detail("Missing reference")))
          else match GetIntentByReference(rows, reference)
            case None => Reject(Response(NotFound, Detail("Intent not found")))
            case Some(intent) => Admit(intent, event)
  }

  function MetaOrEmpty(m: Option<Metadata>): Metadata {
    m.GetOr(map[])
  }

  /** This exact payload was the last one processed for the intent. */
  predicate IsDuplicate(row: IntentRow, hash: string) {
    var meta := MetaOrEmpty(row.metadata);
    LastWebhookHashKey in meta && meta[LastWebhookHashKey] == MetaString(hash)
  }

  /** The instance after the payload hash is recorded in its metadata. */
  function Tracked(row: IntentRow, hash: string): (t: IntentRow)
    ensures IsDuplicate(t, hash)
    ensures t.(metadata := row.metadata) == row
  {
    row.(metadata := Some(MetaOrEmpty(row.metadata)[LastWebhookHashKey := MetaString(hash)]))
  }

  function Ignored(): Response {
    Response(Ok, WebhookStatus("ignored", None))
  }

  datatype WebhookEffect = WebhookEffect(response: Response, rows: seq<IntentRow>, orders: map<int, Order>)

  lemma RowInTableHasIndex(rows: seq<IntentRow>, row: IntentRow)
    requires row in rows
    ensures IndexOfId(rows, row.id).Some?
  {
    var i :| 0 <= i < |rows| && rows[i] == row;
  }

  /** The instance after the tracking block: the hash recorded in its
      metadata, and normalised by `save`. `trackingFails` stands for a fault
      that stops `save` before it normalises. A fault in the database write
      comes after the normalisation and leaves the instance normalised, but
      normalisation does not change the amount check (`NormalizedAmountCheck`),
      so the two faults lead to the same response and orders. */
  function TrackedInstance(row: IntentRow, hash: string, trackingFails: bool): (t: IntentRow)
    ensures t.id == row.id && t.orderId == row.orderId && t.status == row.status
  {
    if trackingFails then Tracked(row, hash) else Tracked(row, hash).Normalized()
  }

  /** The rows after the tracking block: the metadata column of the intent's
      row is written unless the save fails. */
  function TrackedRows(rows: seq<IntentRow>, row: IntentRow, hash: string, trackingFails: bool): (s: seq<IntentRow>)
    requires IndexOfId(rows, row.id).Some?
    ensures IndexOfId(s, row.id).Some? && |s| == |rows|
  {
    var k := IndexOfId(rows, row.id).value;
    IndexOfIdAfterWrite(rows, k, WriteColumns(rows[k], Tracked(row, hash), {MetadataColumn}));
    if trackingFails then rows else rows[k := WriteColumns(rows[k], Tracked(row, hash), {MetadataColumn})]
  }

  /** What the event does once the intent is known and the payload is new. */
  function Dispatch(inst: IntentRow, e: Event, rows: seq<IntentRow>, orders: map<int, Order>): WebhookEffect
    requires IndexOfId(rows, inst.id).Some?
  {
    if e.kind == Some(ChargeSuccess) then
      var f := FinalizeSpec(inst, e, rows, orders);
      WebhookEffect(Response(Ok, WebhookStatus("processed", Some(inst.orderId))), f.rows, f.orders)
    else if e.kind == Some(ChargeFailed) then
      WebhookEffect(Response(Ok, WebhookStatus("processed", None)), Recorded(rows, inst, e, PaymentIntentStatus.Failed), orders)
    else WebhookEffect(Ignored(), rows, orders)
  }

  /** The webhook's response and the new state of both tables;
      `trackingFails` says whether recording the payload hash fails, which
      the handler tolerates. */
  function WebhookSpec(settings: WebhookSettings, codecs: Codecs, req: WebhookRequest, trackingFails: bool,
                       rows: seq<IntentRow>, orders: map<int, Order>): WebhookEffect
  {
    match WebhookGuards(settings, codecs, req, rows)
    case Reject(r) => WebhookEffect(r, rows, orders)
    case Admit(row, event) =>
      var hash := codecs.sha256Hex(req.body);
      if IsDuplicate(row, hash) then WebhookEffect(Ignored(), rows, orders)
      else
        RowInTableHasIndex(rows, row);
        Dispatch(TrackedInstance(row, hash, trackingFails), event, TrackedRows(rows, row, hash, trackingFails), orders)
  }

  /** The `try` block of the handler: report a payload seen last time, or
      record its hash in the metadata and save that column. */
  method TrackWebhookPayload(intent: PaymentIntent, hash: string, trackingFails: bool, table: IntentTable)
    returns (duplicate: bool)
    requires table.Valid() && IndexOfId(table.rows, intent.id).Some?
    modifies intent, table
    ensures table.Valid() && table.nextId == old(table.nextId)
    ensures duplicate == IsDuplicate(old(intent.Row()), hash)
    ensures duplicate ==> intent.Row() == old(intent.Row()) && table.rows == old(table.rows)
    ensures !duplicate ==> intent.Row() == TrackedInstance(old(intent.Row()), hash, trackingFails)
                           && table.rows == TrackedRows(old(table.rows), old(intent.Row()), hash, trackingFails)
  {
    var meta := MetaOrEmpty(intent.metadata);
    if LastWebhookHashKey in meta && meta[LastWebhookHashKey] == MetaString(hash) {
      return true;
    }
    meta := meta[LastWebhookHashKey := MetaString(hash)];
    intent.metadata := Some(meta);
    if !trackingFails {
      intent.Save(table, {MetadataColumn});
    }
    return false;
  }

  /** The event dispatch at the end of the handler. */
  method DispatchEvent(intent: PaymentIntent, event: Event, table: IntentTable, orders: OrderTable)
    returns (resp: Response)
    requires table.Valid() && IndexOfId(table.rows, intent.id).Some?
    modifies intent, table, orders
    ensures table.Valid()
    ensures WebhookEffect(resp, table.rows, orders.orders) == Dispatch(old(intent.Row()), event, old(table.rows), old(orders.orders))
  {
    if event.kind == Some(ChargeSuccess) {
      FinalizeIntentAndOrder(intent, event, table, orders);
      return Response(Ok, WebhookStatus("processed", Some(intent.orderId)));
    }
    if event.kind == Some(ChargeFailed) {
      RecordEvent(intent, event, PaymentIntentStatus.Failed, table);
      return Response(Ok, WebhookStatus("processed", None));
    }
    return Ignored();
  }

  method PaystackWebhookPost(settings: WebhookSettings, codecs: Codecs, req: WebhookRequest, trackingFails: bool,
                             table: IntentTable, orders: OrderTable) returns (resp: Response)
    requires table.Valid()
    modifies table, orders
    ensures table.Valid()
    ensures WebhookEffect(resp, table.rows, orders.orders)
            == WebhookSpec(settings, codecs, req, trackingFails, old(table.rows), old(orders.orders))
  {
    var guard := WebhookGuards(settings, codecs, req, table.rows);
    if guard.Reject? {
      return guard.response;
    }
    var row, event := guard.intent, guard.event;
    RowInTableHasIndex(table.rows, row);
    var intent := new PaymentIntent.Load(row);
    var hash := codecs.sha256Hex(req.body);
    var duplicate := TrackWebhookPayload(intent, hash, trackingFails, table);
    if duplicate {
      return Ignored();
    }
    resp := DispatchEvent(intent, event, table, orders);
  }

  /** A missing or wrong ASCII signature is refused with 401 before the body
      is decoded and whatever the peer address; nothing changes. */
  lemma WebhookBadSignature(settings: WebhookSettings, codecs: Codecs, req: WebhookRequest, trackingFails: bool,
                            rows: seq<IntentRow>, orders: map<int, Order>)
    requires var sig := req.signature.GetOr("");
             var digest := codecs.hmacSha512Hex(settings.secret, req.body);
             sig == "" || (IsAscii(sig) && IsAscii(digest) && sig != digest)
    ensures WebhookSpec(settings, codecs, req, trackingFails, rows, orders)
            == WebhookEffect(Response(Unauthorized, Detail("Invalid signature")), rows, orders)
  {
  }

  /** A non-empty signature header with a character outside ASCII makes
      `compare_digest` raise: the request ends in a 500 and nothing changes. */
  lemma WebhookNonAsciiSignatureCrashes(settings: WebhookSettings, codecs: Codecs, req: WebhookRequest,
                                        trackingFails: bool, rows: seq<IntentRow>, orders: map<int, Order>)
    requires req.signature.Some? && req.signature.value != "" && !IsAscii(req.signature.value)
    ensures WebhookSpec(settings, codecs, req, trackingFails, rows, orders) == WebhookEffect(Crash(), rows, orders)
  {
  }

  /** A signed object whose `data` is truthy but not an object passes the
      peer check and then fails when the reference is read: a 500, and
      nothing changes. */
  lemma WebhookEventDataNotObjectCrashes(settings: WebhookSettings, codecs: Codecs, req: WebhookRequest,
                                    trackingFails: bool, rows: seq<IntentRow>, orders: map<int, Order>)
    requires SignatureOk(settings, codecs, req) && codecs.decodeJson(req.body) == EventDataNotObject
    ensures WebhookSpec(settings, codecs, req, trackingFails, rows, orders)
            == WebhookEffect(if IpAllowed(settings.allowedIps, req.remoteAddr) then Crash()
                             else Response(Forbidden, Detail("Forbidden")), rows, orders)
  {
  }

  /** A signed body that is not JSON is refused with 400, before the peer
      address is checked. */
  lemma WebhookUndecodable(settings: WebhookSettings, codecs: Codecs, req: WebhookRequest, trackingFails: bool,
                           rows: seq<IntentRow>, orders: map<int, Order>)
    requires SignatureOk(settings, codecs, req) && codecs.decodeJson(req.body) == Undecodable
    ensures WebhookSpec(settings, codecs, req, trackingFails, rows, orders)
            == WebhookEffect(Response(BadRequest, Detail("Invalid payload")), rows, orders)
  {
  }

  /** A signed JSON body from a peer outside a configured allow-list (or
      from an unknown peer) is refused with 403. */
  lemma WebhookForbiddenPeer(settings: WebhookSettings, codecs: Codecs, req: WebhookRequest, trackingFails: bool,
                             rows: seq<IntentRow>, orders: map<int, Order>)
    requires SignatureOk(settings, codecs, req) && codecs.decodeJson(req.body) != Undecodable
    requires |settings.allowedIps| > 0 && (req.remoteAddr.None? || req.remoteAddr.value !in settings.allowedIps)
    ensures WebhookSpec(settings, codecs, req, trackingFails, rows, orders)
            == WebhookEffect(Response(Forbidden, Detail("Forbidden")), rows, orders)
  {
  }

  /** An admitted event without `data.reference` or `data.reference_code`
      is refused with 400, and one whose reference is unknown with 404. */
  lemma WebhookReferenceGuards(settings: WebhookSettings, codecs: Codecs, req: WebhookRequest, trackingFails: bool,
                               rows: seq<IntentRow>, orders: map<int, Order>, e: Event)
    requires SignatureOk(settings, codecs, req) && codecs.decodeJson(req.body) == Decoded(e)
    requires IpAllowed(settings.allowedIps, req.remoteAddr)
    ensures WebhookReference(e) == "" ==>
              WebhookSpec(settings, codecs, req, trackingFails, rows, orders)
              == WebhookEffect(Response(BadRequest, Detail("Missing reference")), rows, orders)
    ensures WebhookReference(e) != "" && (forall i :: 0 <= i < |rows| ==> rows[i].reference != WebhookReference(e)) ==>
              WebhookSpec(settings, codecs, req, trackingFails, rows, orders)
              == WebhookEffect(Response(NotFound, Detail("Intent not found")), rows, orders)
  {
  }

  /** A payload whose hash was the last one recorded for its intent is
      answered with "ignored" and changes nothing. */
  lemma WebhookDuplicateIgnored(settings: WebhookSettings, codecs: Codecs, req: WebhookRequest, trackingFails: bool,
                                rows: seq<IntentRow>, orders: map<int, Order>)
    requires WebhookGuards(settings, codecs, req, rows).Admit?
    requires IsDuplicate(WebhookGuards(settings, codecs, req, rows).intent, codecs.sha256Hex(req.body))
    ensures WebhookSpec(settings, codecs, req, trackingFails, rows, orders) == WebhookEffect(Ignored(), rows, orders)
  {
  }

  /** For an admitted payload seen for the first time, the webhook is the
      dispatch of the tracked instance over the tracked rows. */
  lemma WebhookSpecAdmitted(settings: WebhookSettings, codecs: Codecs, req: WebhookRequest, trackingFails: bool,
                            rows: seq<IntentRow>, orders: map<int, Order>)
    requires WebhookGuards(settings, codecs, req, rows).Admit?
    requires !IsDuplicate(WebhookGuards(settings, codecs, req, rows).intent, codecs.sha256Hex(req.body))
    ensures var g := WebhookGuards(settings, codecs, req, rows);
            var hash := codecs.sha256Hex(req.body);
            IndexOfId(rows, g.intent.id).Some?
            && WebhookSpec(settings, codecs, req, trackingFails, rows, orders)
               == Dispatch(TrackedInstance(g.intent, hash, trackingFails), g.event,
                           TrackedRows(rows, g.intent, hash, trackingFails), orders)
  {
    RowInTableHasIndex(rows, WebhookGuards(settings, codecs, req, rows).intent);
  }

  /** A failure while recording the payload hash changes neither the
      response nor what happens to the orders. */
  lemma WebhookTrackingFaultHarmless(settings: WebhookSettings, codecs: Codecs, req: WebhookRequest,
                                     rows: seq<IntentRow>, orders: map<int, Order>)
    ensures var ok := WebhookSpec(settings, codecs, req, false, rows, orders);
            var faulty := WebhookSpec(settings, codecs, req, true, rows, orders);
            ok.response == faulty.response && ok.orders == faulty.orders
  {
    var g := WebhookGuards(settings, codecs, req, rows);
    var hash := codecs.sha256Hex(req.body);
    if g.Admit? && !IsDuplicate(g.intent, hash) {
      WebhookSpecAdmitted(settings, codecs, req, false, rows, orders);
      WebhookSpecAdmitted(settings, codecs, req, true, rows, orders);
      var t := Tracked(g.intent, hash);
      NormalizedAmountCheck(t, g.event);
      DispatchOrdersOnly(t.Normalized(), t, g.event, TrackedRows(rows, g.intent, hash, false),
                         TrackedRows(rows, g.intent, hash, true), orders);
    }
  }

  /** The response and the orders after dispatch depend only on the
      instance's status, order and amount check. */
  lemma DispatchOrdersOnly(a: IntentRow, b: IntentRow, e: Event, rowsA: seq<IntentRow>, rowsB: seq<IntentRow>,
                           orders: map<int, Order>)
    requires IndexOfId(rowsA, a.id).Some? && IndexOfId(rowsB, b.id).Some?
    requires a.status == b.status && a.orderId == b.orderId && AmountMismatch(a, e) == AmountMismatch(b, e)
    ensures Dispatch(a, e, rowsA, orders).response == Dispatch(b, e, rowsB, orders).response
    ensures Dispatch(a, e, rowsA, orders).orders == Dispatch(b, e, rowsB, orders).orders
  {
    if e.kind == Some(ChargeSuccess) {
      FinalizeOrdersOnly(a, b, e, rowsA, rowsB, orders);
    }
  }

  /** What finalisation does to the orders depends only on the intent's
      status, order and amount check, not on the rest of the table. */
  lemma FinalizeOrdersOnly(a: IntentRow, b: IntentRow, e: Event, rowsA: seq<IntentRow>, rowsB: seq<IntentRow>,
                           orders: map<int, Order>)
    requires IndexOfId(rowsA, a.id).Some? && IndexOfId(rowsB, b.id).Some?
    requires a.status == b.status && a.orderId == b.orderId && AmountMismatch(a, e) == AmountMismatch(b, e)
    ensures FinalizeSpec(a, e, rowsA, orders).orders == FinalizeSpec(b, e, rowsB, orders).orders
  {
  }

  /** Normalisation does not change the outcome of the amount check. */
  lemma NormalizedAmountCheck(r: IntentRow, e: Event)
    ensures AmountMismatch(r.Normalized(), e) == AmountMismatch(r, e)
  {
    MinorUnitsIgnoresCurrency(Some(Decimals.Cents(r.amount)), r.currency, r.Normalized().currency);
  }

  /** What dispatch does to the intent's own row and to the orders. */
  lemma DispatchOutcome(inst: IntentRow, e: Event, rows: seq<IntentRow>, orders: map<int, Order>)
    requires IndexOfId(rows, inst.id).Some?
    ensures var w := Dispatch(inst, e, rows, orders);
            var k := IndexOfId(rows, inst.id).value;
            && |w.rows| == |rows|
            && (e.kind == Some(ChargeSuccess) ==>
                  w.response == Response(Ok, WebhookStatus("processed", Some(inst.orderId)))
                  && (inst.status == Succeeded ==> w.orders == orders && w.rows == rows)
                  && (inst.status != Succeeded && !AmountMismatch(inst, e) ==>
                        w.rows[k].status == Succeeded && w.orders == AfterPay(orders, inst.orderId))
                  && (inst.status != Succeeded && AmountMismatch(inst, e) ==>
                        w.rows[k].status == PaymentIntentStatus.Failed && w.orders == orders))
            && (e.kind == Some(ChargeFailed) ==>
                  w.response == Response(Ok, WebhookStatus("processed", None))
                  && w.rows[k].status == PaymentIntentStatus.Failed && w.rows[k].webhookEvent == Some(e)
                  && w.orders == orders)
            && (e.kind != Some(ChargeSuccess) && e.kind != Some(ChargeFailed) ==>
                  w == WebhookEffect(Ignored(), rows, orders))
  {
  }

  /** The row of the admitted intent after the webhook, in terms of what the
      event asked for. */
  lemma WebhookDispatchOutcome(settings: WebhookSettings, codecs: Codecs, req: WebhookRequest, trackingFails: bool,
                               rows: seq<IntentRow>, orders: map<int, Order>)
    requires WellFormed(rows)
    requires WebhookGuards(settings, codecs, req, rows).Admit?
    requires !IsDuplicate(WebhookGuards(settings, codecs, req, rows).intent, codecs.sha256Hex(req.body))
    ensures var g := WebhookGuards(settings, codecs, req, rows);
            var w := WebhookSpec(settings, codecs, req, trackingFails, rows, orders);
            var k := IndexOfId(rows, g.intent.id);
            && k.Some? && k.value < |w.rows|
            && (g.event.kind == Some(ChargeSuccess) ==>
                  w.response == Response(Ok, WebhookStatus("processed", Some(g.intent.orderId)))
                  && (g.intent.status == Succeeded ==> w.orders == orders && w.rows[k.value].status == Succeeded)
                  && (g.intent.status != Succeeded && !AmountMismatch(g.intent, g.event) ==>
                        w.rows[k.value].status == Succeeded && w.orders == AfterPay(orders, g.intent.orderId))
                  && (g.intent.status != Succeeded && AmountMismatch(g.intent, g.event) ==>
                        w.rows[k.value].status == PaymentIntentStatus.Failed && w.orders == orders))
            && (g.event.kind == Some(ChargeFailed) ==>
                  w.response == Response(Ok, WebhookStatus("processed", None))
                  && w.rows[k.value].status == PaymentIntentStatus.Failed
                  && w.rows[k.value].webhookEvent == Some(g.event) && w.orders == orders)
            && (g.event.kind != Some(ChargeSuccess) && g.event.kind != Some(ChargeFailed) ==>
                  w.response == Ignored() && w.orders == orders && w.rows[k.value].status == g.intent.status)
  {
    var g := WebhookGuards(settings, codecs, req, rows);
    var hash := codecs.sha256Hex(req.body);
    WebhookSpecAdmitted(settings, codecs, req, trackingFails, rows, orders);
    var k := IndexOfId(rows, g.intent.id).value;
    var inst := TrackedInstance(g.intent, hash, trackingFails);
    var rows1 := TrackedRows(rows, g.intent, hash, trackingFails);
    IndexOfIdAfterWrite(rows, k, WriteColumns(rows[k], Tracked(g.intent, hash), {MetadataColumn}));
    assert IndexOfId(rows1, inst.id) == Some(k);
    UniqueIdRow(rows, g.intent);
    assert rows1[k].status == g.intent.status;
    NormalizedAmountCheck(Tracked(g.intent, hash), g.event);
    assert AmountMismatch(inst, g.event) == AmountMismatch(g.intent, g.event);
    DispatchOutcome(inst, g.event, rows1, orders);
  }

  /** A row of a well-formed table is the one its id finds. */
  lemma UniqueIdRow(rows: seq<IntentRow>, row: IntentRow)
    requires IdsIncreasing(rows) && row in rows
    ensures IndexOfId(rows, row.id).Some? && rows[IndexOfId(rows, row.id).value] == row
  {
    var i :| 0 <= i < |rows| && rows[i] == row;
    var k := IndexOfId(rows, row.id).value;
    assert rows[k].id == rows[i].id;
  }

  /** Dispatch writes only the status and webhook_event columns: every row
      keeps its reference and its metadata. */
  lemma DispatchKeepsReferencesAndMetadata(inst: IntentRow, e: Event, rows: seq<IntentRow>, orders: map<int, Order>)
    requires IndexOfId(rows, inst.id).Some?
    ensures var s := Dispatch(inst, e, rows, orders).rows;
            |s| == |rows| && forall i :: 0 <= i < |s| ==> s[i].reference == rows[i].reference && s[i].metadata == rows[i].metadata
  {
    if e.kind == Some(ChargeSuccess) {
      FinalizeTouchesOnlyItsRow(inst, e, rows, orders);
    }
  }

  lemma {:induction false} IndexOfReferenceSameReferences(a: seq<IntentRow>, b: seq<IntentRow>, reference: string)
    requires |a| == |b| && forall i :: 0 <= i < |a| ==> a[i].reference == b[i].reference
    ensures IndexOfReference(a, reference) == IndexOfReference(b, reference)
    decreases |a|
  {
    if |a| > 0 {
      IndexOfReferenceSameReferences(a[..|a| - 1], b[..|b| - 1], reference);
    }
  }

  /** Delivering the same webhook again, once it has been processed, is
      answered with "ignored" and changes nothing. */
  lemma WebhookRedeliveryIgnored(settings: WebhookSettings, codecs: Codecs, req: WebhookRequest,
                                 rows: seq<IntentRow>, orders: map<int, Order>)
    requires WellFormed(rows)
    requires WebhookGuards(settings, codecs, req, rows).Admit?
    ensures var w := WebhookSpec(settings, codecs, req, false, rows, orders);
            WebhookSpec(settings, codecs, req, false, w.rows, w.orders) == WebhookEffect(Ignored(), w.rows, w.orders)
  {
    var g := WebhookGuards(settings, codecs, req, rows);
    var hash := codecs.sha256Hex(req.body);
    var w := WebhookSpec(settings, codecs, req, false, rows, orders);
    var reference := WebhookReference(g.event);
    var j := IndexOfReference(rows, reference).value;
    assert rows[j] == g.intent;
    if !IsDuplicate(g.intent, hash) {
      WebhookSpecAdmitted(settings, codecs, req, false, rows, orders);
      UniqueIdRow(rows, g.intent);
      var k := IndexOfId(rows, g.intent.id).value;
      assert rows[k] == rows[j];
      var inst := TrackedInstance(g.intent, hash, false);
      var rows1 := TrackedRows(rows, g.intent, hash, false);
      DispatchKeepsReferencesAndMetadata(inst, g.event, rows1, orders);
      IndexOfReferenceSameReferences(rows, w.rows, reference);
      assert w.rows[j].metadata == rows1[j].metadata == Tracked(g.intent, hash).metadata;
      assert GetIntentByReference(w.rows, reference) == Some(w.rows[j]);
      assert WebhookGuards(settings, codecs, req, w.rows) == Admit(w.rows[j], g.event);
      assert IsDuplicate(w.rows[j], hash);
      WebhookDuplicateIgnored(settings, codecs, req, false, w.rows, w.orders);
    }
  }

  // =====================================================================
  // Shared by the initialize and upsert endpoints

  /** An order the requesting user owns. */
  predicate OwnedBy(orders: map<int, Order>, orderId: int, userId: int) {
    orderId in orders && orders[orderId].userId == userId
  }

  /** `(item.unit_price or 0) * int(item.quantity)`, in cents. */
  function LineTotal(item: OrderItem): int {
    item.unitPrice.GetOr(0) * item.quantity
  }

  /** The sum of the line totals, in item order. */
  function ItemsTotal(items: seq<OrderItem>): int {
    if |items| == 0 then 0 else ItemsTotal(items[..|items| - 1]) + LineTotal(items[|items| - 1])
  }

  /** The amount computed when the request gives none. */
  method OrderItemsTotal(items: seq<OrderItem>) returns (total: int)
    ensures total == ItemsTotal(items)
  {
    total := 0;
    var i := 0;
    while i < |items|
      invariant 0 <= i <= |items|
      invariant total == ItemsTotal(items[..i])
    {
      assert items[..i + 1][..i] == items[..i];
      total := total + LineTotal(items[i]);
      i := i + 1;
    }
    assert items[..|items|] == items;
  }

  /** The total of two runs of items is the sum of their totals. */
  lemma {:induction false} ItemsTotalAppend(a: seq<OrderItem>, b: seq<OrderItem>)
    ensures ItemsTotal(a + b) == ItemsTotal(a) + ItemsTotal(b)
    decreases |b|
  {
    if |b| > 0 {
      assert (a + b)[..|a + b| - 1] == a + b[..|b| - 1];
      ItemsTotalAppend(a, b[..|b| - 1]);
    } else {
      assert a + b == a;
    }
  }

  /** Prices and quantities that are not negative give a total that is not. */
  lemma {:induction false} ItemsTotalNonNegative(items: seq<OrderItem>)
    requires forall i :: 0 <= i < |items| ==> items[i].unitPrice.GetOr(0) >= 0 && items[i].quantity >= 0
    ensures ItemsTotal(items) >= 0
    decreases |items|
  {
    if |items| > 0 {
      ItemsTotalNonNegative(items[..|items| - 1]);
      var last := items[|items| - 1];
      Decimals.ProductSign(last.quantity, 1);
      assert LineTotal(last) >= 0 by {
        if last.quantity > 0 {
          Decimals.ProductSign(last.unitPrice.GetOr(0), last.quantity);
        }
      }
    }
  }

  /** Two items at 25.00 make 50.00, and an item without a price counts 0. */
  lemma ItemsTotalExample()
    ensures ItemsTotal([OrderItem(Some(2500), 2)]) == 5000
    ensures ItemsTotal([OrderItem(Some(2500), 1), OrderItem(None, 3), OrderItem(Some(2500), 1)]) == 5000
  {
    assert [OrderItem(Some(2500), 1), OrderItem(None, 3), OrderItem(Some(2500), 1)][..2]
           == [OrderItem(Some(2500), 1), OrderItem(None, 3)];
    assert [OrderItem(Some(2500), 1), OrderItem(None, 3)][..1] == [OrderItem(Some(2500), 1)];
  }

  /** The default metadata of an intent: the order's and the user's ids. */
  function OrderMetadata(orderId: int, userId: int): (m: Metadata)
    ensures m.Keys == {"order_id", "user_id"}
    ensures m["order_id"] == MetaInt(orderId) && m["user_id"] == MetaInt(userId)
  {
    map["order_id" := MetaInt(orderId), "user_id" := MetaInt(userId)]
  }

  // =====================================================================
  // The default reference

  predicate IsDigit(c: char) { '0' as int <= c as int <= '9' as int }

  function DigitChar(d: nat): (c: char)
    requires d < 10
    ensures IsDigit(c) && c as int - '0' as int == d
  {
    ('0' as int + d) as char
  }

  /** Python's `str()` of a non-negative integer. */
  function {:induction false} NatToString(n: nat): (s: string)
    ensures |s| >= 1 && forall i :: 0 <= i < |s| ==> IsDigit(s[i])
    decreases n
  {
    if n < 10 then [DigitChar(n)] else NatToString(n / 10) + [DigitChar(n % 10)]
  }

  /** The value of a string of decimal digits. */
  function {:induction false} ParseDigits(s: string): nat
    requires forall i :: 0 <= i < |s| ==> IsDigit(s[i])
    decreases |s|
  {
    if |s| == 0 then 0
    else
      assert IsDigit(s[|s| - 1]);
      var d: nat := s[|s| - 1] as int - '0' as int;
      ParseDigits(s[..|s| - 1]) * 10 + d
  }

  /** Reading back the digits gives the number. */
  lemma {:induction false} ParseNatToString(n: nat)
    ensures ParseDigits(NatToString(n)) == n
    decreases n
  {
    var s := NatToString(n);
    if n >= 10 {
      ParseNatToString(n / 10);
      assert s[..|s| - 1] == NatToString(n / 10);
    }
  }

  /** Python's `str()` of an integer. */
  function IntToString(i: int): (s: string)
    ensures |s| >= 1
    ensures i >= 0 ==> IsDigit(s[0])
    ensures i < 0 ==> s[0] == '-'
  {
    if i < 0 then "-" + NatToString(-i) else NatToString(i)
  }

  lemma IntToStringInjective(a: int, b: int)
    requires IntToString(a) == IntToString(b)
    ensures a == b
  {
    if a >= 0 && b >= 0 {
      ParseNatToString(a);
      ParseNatToString(b);
    } else if a < 0 && b < 0 {
      var sa, sb := NatToString(-a), NatToString(-b);
      assert ("-" + sa)[1..] == sa && ("-" + sb)[1..] == sb;
      assert sa == sb;
      ParseNatToString(-a);
      ParseNatToString(-b);
    }
  }

  /** `f"{order.number or 'ORD'}-{order.id}-paystack"`. */
  function DefaultReference(order: Order): (r: string)
    ensures |r| > 0
  {
    (if order.number != "" then order.number else "ORD") + "-" + IntToString(order.id) + "-paystack"
  }

  /** Two orders with the same number, or both without one, get the same
      default reference only when they are the same order id. */
  lemma DefaultReferenceDistinct(a: Order, b: Order)
    requires a.number == b.number && a.id != b.id
    ensures DefaultReference(a) != DefaultReference(b)
  {
    if DefaultReference(a) == DefaultReference(b) {
      var prefix := (if a.number != "" then a.number else "ORD") + "-";
      var ra, rb := DefaultReference(a), DefaultReference(b);
      assert ra == prefix + IntToString(a.id) + "-paystack";
      assert rb == prefix + IntToString(b.id) + "-paystack";
      assert |IntToString(a.id)| == |IntToString(b.id)|;
      assert IntToString(a.id) == ra[|prefix|..|ra| - 9];
      assert IntToString(b.id) == rb[|prefix|..|rb| - 9];
      IntToStringInjective(a.id, b.id);
    }
  }

  /** The reference the initialize call uses: the request's, when given and
      not blank, else the default one. */
  function ChosenReference(given: Option<string>, order: Order): (r: string)
    ensures r != ""
    ensures given.Some? && given.value != "" ==> r == given.value
    ensures given.None? || given.value == "" ==> r == DefaultReference(order)
  {
    if given.Some? && given.value != "" then given.value else DefaultReference(order)
  }

  /** The idempotency key: the header when present, else the reference. */
  function IdempotencyKeyFor(header: Option<string>, reference: string): (k: string)
    ensures header.Some? && header.value != "" ==> k == header.value
    ensures header.None? || header.value == "" ==> k == reference
  {
    if header.Some? && header.value != "" then header.value else reference
  }

  // =====================================================================
  // PaystackInitializeView.post

  /** The detail of a 400 for invalid initialize input, by priority. */
  function InitializeErrorDetail(errs: set<InitializeKey>): string {
    if CurrencyKey in errs then UnsupportedCurrencyMessage
    else if AmountKey in errs then "Invalid amount"
    else if OrderIdKey in errs then "order_id is required"
    else "Invalid payload"
  }

  /** A currency error wins over every other; an amount error over a
      missing order_id; a body that is not an object is just invalid. */
  lemma InitializeErrorPriority(p: InitializeInput, supported: seq<string>)
    ensures var r := ValidateInitialize(p, supported);
            && (p.InitializeObject? && InitializeCurrency(p.currency, supported).Invalid? ==>
                  r.Failure? && InitializeErrorDetail(r.error) == UnsupportedCurrencyMessage)
            && (p.InitializeObject? && !InitializeCurrency(p.currency, supported).Invalid?
                && InitializeAmount(p.amount).Invalid? ==>
                  r.Failure? && InitializeErrorDetail(r.error) == "Invalid amount")
            && (p.InitializeObject? && !InitializeCurrency(p.currency, supported).Invalid?
                && !InitializeAmount(p.amount).Invalid? && !p.orderId.Given? ==>
                  r.Failure? && InitializeErrorDetail(r.error) == "order_id is required")
            && (p.InitializeNotAnObject? ==> r.Failure? && InitializeErrorDetail(r.error) == "Invalid payload")
  {
  }

  /** The view's own supported-currency check after validation can never
      refuse: the serializer has already upper-cased and checked the code. */
  lemma SecondCurrencyCheckRedundant(p: InitializeInput, supported: seq<string>)
    requires ValidateInitialize(p, supported).Success?
    ensures var body := ValidateInitialize(p, supported).value;
            TransactionCurrency(body.currency) == body.currency
            && (|supported| == 0 || body.currency in supported)
  {
    var body := ValidateInitialize(p, supported).value;
    var f := InitializeCurrency(p.currency, supported);
    assert f.Valid? && f.value == body.currency;
    assert body.currency != "";
    Text.ToUpperFixes(body.currency);
  }

  datatype InitializeRequest = InitializeRequest(userId: int, path: string, verb: string,
                                                 idempotencyKey: Option<string>, payload: InitializeInput)

  /** Configuration and collaborators: the supported currencies, the
      provider call, `compute_request_hash` and the clock. */
  datatype InitializeEnv = InitializeEnv(supported: seq<string>, gateway: GatewayRequest -> GatewayResponse,
                                         requestHash: InitializeData -> string, now: int)

  datatype ViewEffect = ViewEffect(response: Response, rows: seq<IntentRow>, nextId: nat, records: Records)

  /** The body returned on success, also the one the ledger stores. */
  function InitializeResponse(intent: IntentRow): Response {
    Response(Ok, InitResult(intent.authorizationUrl, intent.reference, intent.accessCode, intent.currency))
  }

  /** The part of the initialize view run under the idempotency ledger. */
  function InitializeHandlerSpec(env: InitializeEnv, order: Order, amount: int, reference: string, currency: string,
                                 userId: int, rows: seq<IntentRow>, nextId: nat): InitOutcome {
    var meta := OrderMetadata(order.id, userId);
    InitializeSpec(rows, nextId, order, amount, reference, Some(meta), currency,
                   env.gateway(InitializeRequestFor(order, amount, order.email, reference, Some(meta), currency)), env.now)
  }

  /** The response of the initialize view and the new state of the intent
      table and the idempotency ledger. */
  function InitializeViewSpec(req: InitializeRequest, env: InitializeEnv, orders: map<int, Order>,
                              rows: seq<IntentRow>, nextId: nat, records: Records): ViewEffect
  {
    match ValidateInitialize(req.payload, env.supported)
    case Failure(errs) => ViewEffect(Response(BadRequest, Detail(InitializeErrorDetail(errs))), rows, nextId, records)
    case Success(body) =>
      if !OwnedBy(orders, body.orderId, req.userId) then
        ViewEffect(Response(NotFound, Detail("Order not found")), rows, nextId, records)
      else
        var order := orders[body.orderId];
        var amount := body.amount.GetOr(ItemsTotal(order.items));
        var currency := TransactionCurrency(body.currency);
        if |env.supported| > 0 && currency !in env.supported then
          ViewEffect(Response(BadRequest, Detail(UnsupportedCurrencyMessage)), rows, nextId, records)
        else
          var reference := ChosenReference(body.reference, order);
          var id := Identity(Some(req.userId), req.path, req.verb, IdempotencyKeyFor(req.idempotencyKey, reference));
          LedgerSpec(env, order, amount, reference, currency, req.userId, id, env.requestHash(body), rows, nextId, records)
  }

  /** The initialize handler run under the idempotency ledger: a replayed
      or refused request returns the ledger's response and writes nothing;
      a new one runs the service, and only its successful response is
      stored (a failure leaves the entry in progress). */
  function LedgerSpec(env: InitializeEnv, order: Order, amount: int, reference: string, currency: string, userId: int,
                      id: Identity, hash: string, rows: seq<IntentRow>, nextId: nat, records: Records): ViewEffect
  {
    match Decide(records, id, hash)
    case Replay(r) => ViewEffect(r, rows, nextId, records)
    case Refuse(r) => ViewEffect(r, rows, nextId, records)
    case Execute =>
      var begun := AfterBegin(records, id, hash);
      var out := InitializeHandlerSpec(env, order, amount, reference, currency, userId, rows, nextId);
      match out.result
      case Failure(_) => ViewEffect(Crash(), out.rows, out.nextId, begun)
      case Success(intent) =>
        ViewEffect(InitializeResponse(intent), out.rows, out.nextId, AfterComplete(begun, id, InitializeResponse(intent)))
  }

  method InitializeUnderLedger(env: InitializeEnv, order: Order, amount: int, reference: string, currency: string,
                               userId: int, id: Identity, hash: string, table: IntentTable, ledger: Ledger)
    returns (resp: Response)
    requires table.Valid()
    modifies table, ledger
    ensures table.Valid()
    ensures ViewEffect(resp, table.rows, table.nextId, ledger.records)
            == LedgerSpec(env, order, amount, reference, currency, userId, id, hash,
                          old(table.rows), old(table.nextId), old(ledger.records))
  {
    var decision := ledger.Begin(id, hash);
    match decision {
      case Replay(r) => resp := r;
      case Refuse(r) => resp := r;
      case Execute =>
        var outcome := InitializePaystackTransaction(table, order, amount, order.email, reference,
                                                     Some(OrderMetadata(order.id, userId)), currency, env.gateway, env.now);
        if outcome.Failure? {
          resp := Crash();
        } else {
          resp := InitializeResponse(outcome.value);
          ledger.Complete(id, resp);
        }
    }
  }

  method PaystackInitializePost(req: InitializeRequest, env: InitializeEnv, orders: OrderTable,
                                table: IntentTable, ledger: Ledger) returns (resp: Response)
    requires table.Valid()
    modifies table, ledger
    ensures table.Valid()
    ensures ViewEffect(resp, table.rows, table.nextId, ledger.records)
            == InitializeViewSpec(req, env, orders.orders, old(table.rows), old(table.nextId), old(ledger.records))
  {
    var validated := ValidateInitialize(req.payload, env.supported);
    if validated.Failure? {
      return Response(BadRequest, Detail(InitializeErrorDetail(validated.error)));
    }
    var body := validated.value;
    if !OwnedBy(orders.orders, body.orderId, req.userId) {
      return Response(NotFound, Detail("Order not found"));
    }
    var order := orders.orders[body.orderId];
    var amount: int;
    if body.amount.None? {
      amount := OrderItemsTotal(order.items);
    } else {
      amount := body.amount.value;
    }
    var currency := TransactionCurrency(body.currency);
    if |env.supported| > 0 && currency !in env.supported {
      return Response(BadRequest, Detail(UnsupportedCurrencyMessage));
    }
    var reference := ChosenReference(body.reference, order);
    var id := Identity(Some(req.userId), req.path, req.verb, IdempotencyKeyFor(req.idempotencyKey, reference));
    resp := InitializeUnderLedger(env, order, amount, reference, currency, req.userId, id, env.requestHash(body), table, ledger);
  }

  /** A completed initialize request sent again with the same key and body
      replays the first response and writes nothing. */
  lemma InitializeRetryReplays(req: InitializeRequest, env: InitializeEnv, orders: map<int, Order>,
                               rows: seq<IntentRow>, nextId: nat, records: Records)
    requires var first := InitializeViewSpec(req, env, orders, rows, nextId, records);
             first.response.code == Ok && first.records != records
    ensures var first := InitializeViewSpec(req, env, orders, rows, nextId, records);
            InitializeViewSpec(req, env, orders, first.rows, first.nextId, first.records)
            == ViewEffect(first.response, first.rows, first.nextId, first.records)
  {
  }

  /** The ledger identity of a validated request: the user, the route
      and the idempotency key. */
  function RequestIdentity(req: InitializeRequest, body: InitializeData, order: Order): Identity {
    Identity(Some(req.userId), req.path, req.verb, IdempotencyKeyFor(req.idempotencyKey, ChosenReference(body.reference, order)))
  }

  /** A valid request for an order the user owns reaches the ledger. */
  lemma InitializeViewReachesLedger(req: InitializeRequest, env: InitializeEnv, orders: map<int, Order>,
                                    rows: seq<IntentRow>, nextId: nat, records: Records)
    requires ValidateInitialize(req.payload, env.supported).Success?
    requires OwnedBy(orders, ValidateInitialize(req.payload, env.supported).value.orderId, req.userId)
    ensures var body := ValidateInitialize(req.payload, env.supported).value;
            var order := orders[body.orderId];
            InitializeViewSpec(req, env, orders, rows, nextId, records)
            == LedgerSpec(env, order, body.amount.GetOr(ItemsTotal(order.items)), ChosenReference(body.reference, order),
                          TransactionCurrency(body.currency), req.userId, RequestIdentity(req, body, order),
                          env.requestHash(body), rows, nextId, records)
  {
    SecondCurrencyCheckRedundant(req.payload, env.supported);
  }

  /** Only a valid request for an order the user owns changes the ledger. */
  lemma InitializeViewWritesOnlyWhenAdmitted(req: InitializeRequest, env: InitializeEnv, orders: map<int, Order>,
                                             rows: seq<IntentRow>, nextId: nat, records: Records)
    requires InitializeViewSpec(req, env, orders, rows, nextId, records).records != records
    ensures ValidateInitialize(req.payload, env.supported).Success?
    ensures OwnedBy(orders, ValidateInitialize(req.payload, env.supported).value.orderId, req.userId)
  {
  }

  /** The ledger changes only for a new identity, which it then records
      with this request hash. */
  lemma LedgerSpecRecords(env: InitializeEnv, order: Order, amount: int, reference: string, currency: string, userId: int,
                          id: Identity, hash: string, rows: seq<IntentRow>, nextId: nat, records: Records)
    ensures var r := LedgerSpec(env, order, amount, reference, currency, userId, id, hash, rows, nextId, records).records;
            r != records ==> id !in records && id in r && r[id].requestHash == hash
  {
  }

  /** A known identity with another request hash is refused and nothing is written. */
  lemma LedgerSpecMismatch(env: InitializeEnv, order: Order, amount: int, reference: string, currency: string, userId: int,
                           id: Identity, hash: string, rows: seq<IntentRow>, nextId: nat, records: Records)
    requires id in records && records[id].requestHash != hash
    ensures LedgerSpec(env, order, amount, reference, currency, userId, id, hash, rows, nextId, records)
            == ViewEffect(Response(Conflict, Detail(ReusedKeyDetail)), rows, nextId, records)
  {
  }

  /** Reusing an idempotency key after a request that reached the ledger,
      for a body whose request hash differs, is refused with 409 and writes
      nothing. */
  lemma InitializeKeyReuseConflicts(req1: InitializeRequest, req2: InitializeRequest, env: InitializeEnv,
                                    orders: map<int, Order>, rows: seq<IntentRow>, nextId: nat, records: Records)
    requires InitializeViewSpec(req1, env, orders, rows, nextId, records).records != records
    requires req1.idempotencyKey.Some? && req1.idempotencyKey.value != ""
    requires req2.idempotencyKey == req1.idempotencyKey
    requires req2.userId == req1.userId && req2.path == req1.path && req2.verb == req1.verb
    requires ValidateInitialize(req2.payload, env.supported).Success?
    requires OwnedBy(orders, ValidateInitialize(req2.payload, env.supported).value.orderId, req2.userId)
    requires env.requestHash(ValidateInitialize(req2.payload, env.supported).value)
             != env.requestHash(ValidateInitialize(req1.payload, env.supported).value)
    ensures var first := InitializeViewSpec(req1, env, orders, rows, nextId, records);
            InitializeViewSpec(req2, env, orders, first.rows, first.nextId, first.records)
            == ViewEffect(Response(Conflict, Detail(ReusedKeyDetail)), first.rows, first.nextId, first.records)
  {
    var first := InitializeViewSpec(req1, env, orders, rows, nextId, records);
    InitializeViewWritesOnlyWhenAdmitted(req1, env, orders, rows, nextId, records);
    var body1 := ValidateInitialize(req1.payload, env.supported).value;
    var order1 := orders[body1.orderId];
    InitializeViewReachesLedger(req1, env, orders, rows, nextId, records);
    var id := RequestIdentity(req1, body1, order1);
    LedgerSpecRecords(env, order1, body1.amount.GetOr(ItemsTotal(order1.items)), ChosenReference(body1.reference, order1),
                      TransactionCurrency(body1.currency), req1.userId, id, env.requestHash(body1), rows, nextId, records);
    var body2 := ValidateInitialize(req2.payload, env.supported).value;
    var order2 := orders[body2.orderId];
    InitializeViewReachesLedger(req2, env, orders, first.rows, first.nextId, first.records);
    assert RequestIdentity(req2, body2, order2) == id;
    LedgerSpecMismatch(env, order2, body2.amount.GetOr(ItemsTotal(order2.items)), ChosenReference(body2.reference, order2),
                       TransactionCurrency(body2.currency), req2.userId, id, env.requestHash(body2),
                       first.rows, first.nextId, first.records);
  }

  // =====================================================================
  // PaymentIntentCreateUpdateView.post

  datatype UpsertRequest = UpsertRequest(userId: int, payload: UpsertInput)

  datatype UpsertEffect = UpsertEffect(response: Response, rows: seq<IntentRow>, nextId: nat)

  /** The metadata the upsert view stores: the request's when given and not
      empty, else the order's and the user's ids. */
  function UpsertMetadataFor(given: Option<Metadata>, orderId: int, userId: int): (m: Metadata)
    ensures given.Some? && given.value != map[] ==> m == given.value
    ensures given.None? || given.value == map[] ==> m == OrderMetadata(orderId, userId)
  {
    if given.Some? && given.value != map[] then given.value else OrderMetadata(orderId, userId)
  }

  /** The defaults the upsert view hands to `create_or_update_intent`; the
      URL and access code are not passed, so they are reset to "". */
  function UpsertViewDefaults(body: UpsertData, order: Order, userId: int): IntentDefaults {
    UpsertDefaults(order.id, body.amount.GetOr(ItemsTotal(order.items)), body.currency.Value(), body.provider.Value(),
                   "", "", Some(UpsertMetadataFor(body.metadata, order.id, userId)))
  }

  function UpsertViewSpec(req: UpsertRequest, orders: map<int, Order>, rows: seq<IntentRow>, nextId: nat, now: int): UpsertEffect {
    match ValidateUpsert(req.payload)
    case None => UpsertEffect(Response(BadRequest, Detail("Invalid payload")), rows, nextId)
    case Some(body) =>
      if !OwnedBy(orders, body.orderId, req.userId) then UpsertEffect(Response(NotFound, Detail("Order not found")), rows, nextId)
      else
        var d := UpsertViewDefaults(body, orders[body.orderId], req.userId);
        var c := UpsertCandidate(rows, nextId, body.reference, d, now);
        if !c.FitsColumns() then UpsertEffect(Crash(), rows, nextId)
        else UpsertEffect(Response(Ok, IntentState(c)), UpsertRows(rows, nextId, body.reference, d, now),
                          if IndexOfReference(rows, body.reference).Some? then nextId else nextId + 1)
  }

  method PaymentIntentCreateUpdatePost(req: UpsertRequest, orders: OrderTable, table: IntentTable, now: int)
    returns (resp: Response)
    requires table.Valid()
    modifies table
    ensures table.Valid()
    ensures UpsertEffect(resp, table.rows, table.nextId) == UpsertViewSpec(req, orders.orders, old(table.rows), old(table.nextId), now)
  {
    var validated := ValidateUpsert(req.payload);
    if validated.None? {
      return Response(BadRequest, Detail("Invalid payload"));
    }
    var body := validated.value;
    if !OwnedBy(orders.orders, body.orderId, req.userId) {
      return Response(NotFound, Detail("Order not found"));
    }
    var order := orders.orders[body.orderId];
    var amount: int;
    if body.amount.None? {
      amount := OrderItemsTotal(order.items);
    } else {
      amount := body.amount.value;
    }
    var metadata := UpsertMetadataFor(body.metadata, order.id, req.userId);
    var upserted := CreateOrUpdateIntent(table, order.id, body.reference, amount, body.currency.Value(),
                                         body.provider.Value(), "", "", Some(metadata), now);
    match upserted {
      case Failure(_) => resp := Crash();
      case Success(intent) => resp := Response(Ok, IntentState(intent));
    }
  }

  /** A successful upsert leaves exactly one intent with the reference, in
      status initialized, with the validated currency and provider, no
      authorization URL or access code, and the computed amount. */
  lemma UpsertViewResult(req: UpsertRequest, orders: map<int, Order>, rows: seq<IntentRow>, nextId: nat, now: int)
    requires UniqueReferences(rows)
    requires UpsertViewSpec(req, orders, rows, nextId, now).response.code == Ok
    ensures var body := ValidateUpsert(req.payload).value;
            var u := UpsertViewSpec(req, orders, rows, nextId, now);
            var c := u.response.body.intent;
            && u.response.body.IntentState?
            && c.reference == body.reference && c.status == PaymentIntentStatus.Initialized
            && c.currency == body.currency.Value() && c.provider == body.provider.Value()
            && c.authorizationUrl == "" && c.accessCode == ""
            && c.amount == body.amount.GetOr(ItemsTotal(orders[body.orderId].items))
            && (exists i :: 0 <= i < |u.rows| && u.rows[i] == c)
            && (forall i :: 0 <= i < |u.rows| && u.rows[i].reference == body.reference ==> u.rows[i] == c)
  {
    var body := ValidateUpsert(req.payload).value;
    var order := orders[body.orderId];
    var d := UpsertViewDefaults(body, order, req.userId);
    UpsertRowsSpec(rows, nextId, body.reference, d, now);
    UpsertedIntentFields(rows, nextId, order.id, body.reference, d.amount, d.currency, d.provider, "", "", d.metadata, now);
    CurrencyValueIsUpper(body.currency);
    ProviderValueIsLower(body.provider);
  }

  // =====================================================================
  // PaymentIntentDetailView.get

  /** The intent with this reference when the requesting user owns its
      order; "Intent not found" both for an unknown reference and for
      someone else's intent. */
  function PaymentIntentDetail(rows: seq<IntentRow>, orders: map<int, Order>, userId: int, reference: string): (r: Response)
    ensures r.code == NotFound <==>
              GetIntentByReference(rows, reference).None?
              || !OwnedBy(orders, GetIntentByReference(rows, reference).value.orderId, userId)
    ensures r.code == NotFound ==> r.body == Detail("Intent not found")
    ensures r.code != NotFound ==>
              r.code == Ok && r.body.IntentState? && r.body.intent in rows && r.body.intent.reference == reference
              && OwnedBy(orders, r.body.intent.orderId, userId)
  {
    match GetIntentByReference(rows, reference)
    case None => Response(NotFound, Detail("Intent not found"))
    case Some(intent) =>
      if !OwnedBy(orders, intent.orderId, userId) then Response(NotFound, Detail("Intent not found"))
      else Response(Ok, IntentState(intent))
  }

  /** Someone else's intent cannot be told apart from an unknown reference. */
  lemma DetailHidesOtherUsersIntents(rows: seq<IntentRow>, orders: map<int, Order>, userId: int,
                                     reference: string, unknown: string)
    requires GetIntentByReference(rows, reference).Some?
    requires !OwnedBy(orders, GetIntentByReference(rows, reference).value.orderId, userId)
    requires forall i :: 0 <= i < |rows| ==> rows[i].reference != unknown
    ensures PaymentIntentDetail(rows, orders, userId, reference) == PaymentIntentDetail(rows, orders, userId, unknown)
  {
  }
}
