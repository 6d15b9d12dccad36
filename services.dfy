/** Payment business logic (payments/services.py): conversion to minor
    units, the webhook signature check, the intent upsert, finalisation of
    an intent and its order after a successful charge, and what happens to
    the payment provider's reply when a transaction is initialised.
    HMAC-SHA512, the HTTP call to the provider and the clock are
    parameters. */
module Services {
  import opened Wrappers
  import opened Choices
  import opened Decimals
  import opened Models
  import opened Orders
  import Text

  newtype Byte = b: int | 0 <= b < 256
  type Bytes = seq<Byte>

  // ---------------------------------------------------------------------
  // _to_minor_units

  /** The explicit multiplier table of `_to_minor_units` and its default. */
  function Multiplier(code: string): (m: nat)
    ensures m == 100
  {
    if code == NGN.Value() then 100
    else if code == GHS.Value() then 100
    else if code == USD.Value() then 100
    else 100
  }

  /** `_to_minor_units`: the amount times the currency's multiplier,
      truncated toward zero as Python's `int()` does; 0 for no amount. */
  function ToMinorUnits(amount: Option<Decimal>, currency: string): (r: int)
    ensures amount.None? ==> r == 0
    ensures amount.Some? ==>
              var a := amount.value.units * 100;
              var p: int := Pow10(amount.value.scale);
              (a >= 0 ==> 0 <= a - r * p < p) && (a < 0 ==> -p < a - r * p <= 0)
  {
    match amount
    case None => 0
    case Some(d) =>
      var code := Text.ToUpper(if currency == "" then NGN.Value() else currency);
      TruncDiv(d.units * Multiplier(code), Pow10(d.scale))
  }

  /** Every code, known or not, leads to the same count. */
  lemma MinorUnitsIgnoresCurrency(amount: Option<Decimal>, c1: string, c2: string)
    ensures ToMinorUnits(amount, c1) == ToMinorUnits(amount, c2)
  {
  }

  /** An amount with at most two places converts to its exact cent count. */
  lemma MinorUnitsExact(d: Decimal, currency: string)
    requires d.scale <= 2
    ensures ToMinorUnits(Some(d), currency) == QuantizeCents(d)
  {
    TruncDivExact(QuantizeCents(d), Pow10(d.scale));
  }

  /** A stored amount (whole cents) converts back to itself. */
  lemma MinorUnitsOfCents(cents: int, currency: string)
    ensures ToMinorUnits(Some(Cents(cents)), currency) == cents
  {
    MinorUnitsExact(Cents(cents), currency);
  }

  /** A non-negative amount never converts to a negative count. */
  lemma MinorUnitsNonNegative(d: Decimal, currency: string)
    requires d.units >= 0
    ensures ToMinorUnits(Some(d), currency) >= 0
  {
    var r := ToMinorUnits(Some(d), currency);
    ProductSign(d.units, 100);
    ProductSign(r, Pow10(d.scale));
  }

  /** 12.34 NGN is 1234 minor units, and 2 of an unknown code is 200. */
  lemma MinorUnitsExamples()
    ensures ToMinorUnits(Some(Decimal(1234, 2)), "NGN") == 1234
    ensures ToMinorUnits(Some(Decimal(2, 0)), "XYZ") == 200
    ensures ToMinorUnits(None, "USD") == 0
  {
    MinorUnitsExact(Decimal(1234, 2), "NGN");
    MinorUnitsExact(Decimal(2, 0), "XYZ");
  }

  // ---------------------------------------------------------------------
  // validate_paystack_signature

  predicate IsAscii(s: string) {
    forall i :: 0 <= i < |s| ==> s[i] as int < 128
  }

  /** The `TypeError` that `hmac.compare_digest` raises when one of two
      strings holds a character outside ASCII. */
  datatype SignatureError = NonAsciiComparison

  /** An empty signature is refused; any other is compared with the hex
      HMAC-SHA512 of the raw body under the secret key, a comparison
      that raises unless both strings are ASCII. */
  function ValidatePaystackSignature(rawBody: Bytes, signature: string, secret: Bytes,
                                     hmacSha512Hex: (Bytes, Bytes) -> string): (r: Result<bool, SignatureError>)
    ensures signature == "" ==> r == Success(false)
    ensures signature != "" && !IsAscii(signature) ==> r == Failure(NonAsciiComparison)
    ensures signature != "" && IsAscii(signature) && IsAscii(hmacSha512Hex(secret, rawBody)) ==>
              r == Success(signature == hmacSha512Hex(secret, rawBody))
  {
    if signature == "" then Success(false)
    else
      var digest := hmacSha512Hex(secret, rawBody);
      if !IsAscii(signature) || !IsAscii(digest) then Failure(NonAsciiComparison)
      else Success(signature == digest)
  }

  // ---------------------------------------------------------------------
  // create_or_update_intent

  /** The `defaults` given to `update_or_create`; `provider`, `authorizationUrl`
      and `accessCode` are "" when the caller gives none. */
  function UpsertDefaults(orderId: int, amount: int, currency: string, provider: string,
                          authorizationUrl: string, accessCode: string, metadata: Option<Metadata>): (d: IntentDefaults)
    ensures d.status == PaymentIntentStatus.Initialized
    ensures d.provider == (if provider == "" then Paystack.Value() else provider)
    ensures d.authorizationUrl == authorizationUrl && d.accessCode == accessCode
    ensures d.metadata.Some? && (metadata.None? ==> d.metadata.value == map[])
    ensures metadata.Some? ==> d.metadata == metadata
    ensures d.orderId == orderId && d.amount == amount && d.currency == currency
  {
    IntentDefaults(orderId, amount, currency, if provider == "" then Paystack.Value() else provider,
                   authorizationUrl, accessCode, PaymentIntentStatus.Initialized, Some(metadata.GetOr(map[])))
  }

  /** The row an upsert with these arguments writes. */
  function UpsertedIntent(rows: seq<IntentRow>, nextId: nat, orderId: int, reference: string, amount: int,
                          currency: string, provider: string, authorizationUrl: string, accessCode: string,
                          metadata: Option<Metadata>, now: int): IntentRow {
    UpsertCandidate(rows, nextId, reference,
                    UpsertDefaults(orderId, amount, currency, provider, authorizationUrl, accessCode, metadata), now)
  }

  /** What `create_or_update_intent` writes: status initialized, provider
      paystack unless given, URL and access code as given ("" otherwise),
      metadata {} unless given, currency upper-cased; the creation time is
      kept for an existing reference. */
  lemma UpsertedIntentFields(rows: seq<IntentRow>, nextId: nat, orderId: int, reference: string, amount: int,
                             currency: string, provider: string, authorizationUrl: string, accessCode: string,
                             metadata: Option<Metadata>, now: int)
    ensures var c := UpsertedIntent(rows, nextId, orderId, reference, amount, currency, provider,
                                    authorizationUrl, accessCode, metadata, now);
            && c.reference == reference && c.orderId == orderId && c.amount == amount
            && c.status == PaymentIntentStatus.Initialized
            && c.provider == (if provider == "" then Paystack.Value() else Text.ToLower(provider))
            && c.currency == Text.ToUpper(currency)
            && c.authorizationUrl == authorizationUrl && c.accessCode == accessCode
            && c.metadata == Some(metadata.GetOr(map[]))
            && (IndexOfReference(rows, reference).None? ==> c.id == nextId && c.createdAt == now && c.webhookEvent.None?)
            && (IndexOfReference(rows, reference).Some? ==>
                  var prior := rows[IndexOfReference(rows, reference).value];
                  c.id == prior.id && c.createdAt == prior.createdAt && c.webhookEvent == prior.webhookEvent)
  {
    if provider == "" {
      ProviderValueIsLower(Paystack);
    }
  }

  /** `create_or_update_intent`: upsert by reference; the database refuses
      a row outside the column constraints (a negative amount, an overlong
      reference or URL) and the table is then unchanged. */
  method CreateOrUpdateIntent(table: IntentTable, orderId: int, reference: string, amount: int, currency: string,
                              provider: string, authorizationUrl: string, accessCode: string,
                              metadata: Option<Metadata>, now: int) returns (r: Result<IntentRow, DbError>)
    requires table.Valid()
    modifies table
    ensures table.Valid()
    ensures var c := UpsertedIntent(old(table.rows), old(table.nextId), orderId, reference, amount, currency,
                                    provider, authorizationUrl, accessCode, metadata, now);
            r == if c.FitsColumns() then Success(c) else Failure(ConstraintViolation)
    ensures r.Failure? ==> table.rows == old(table.rows) && table.nextId == old(table.nextId)
    ensures r.Success? ==>
              table.rows == UpsertRows(old(table.rows), old(table.nextId), reference,
                                       UpsertDefaults(orderId, amount, currency, provider, authorizationUrl, accessCode, metadata), now)
    ensures r.Success? ==>
              table.nextId == if IndexOfReference(old(table.rows), reference).Some? then old(table.nextId) else old(table.nextId) + 1
  {
    var d := UpsertDefaults(orderId, amount, currency, provider, authorizationUrl, accessCode, metadata);
    r := table.UpdateOrCreate(reference, d, now);
  }

  // ---------------------------------------------------------------------
  // finalize_intent_and_order

  /** `int(event.get("data", {}).get("amount", 0))`, with 0 when that fails. */
  function ReportedAmount(e: Event): int {
    match e.data
    case None => 0
    case Some(d) =>
      match d.amount
      case AmountInt(n) => n
      case _ => 0
  }

  /** The amount check: both amounts known (non-zero), and different. */
  predicate AmountMismatch(intent: IntentRow, e: Event) {
    var reported := ReportedAmount(e);
    var expected := ToMinorUnits(Some(Cents(intent.amount)), intent.currency);
    reported != 0 && expected != 0 && reported != expected
  }

  /** The instance, the intent rows and the orders after finalisation, and
      the `pay_order` calls it makes, each with the intent rows it sees. */
  datatype Finalized = Finalized(intent: IntentRow, rows: seq<IntentRow>, orders: map<int, Order>, payCalls: seq<PayCall>)

  /** The rows after `intent.webhook_event = e; intent.status = status;
      intent.save(update_fields=["webhook_event", "status", ...])`. */
  function Recorded(rows: seq<IntentRow>, intent: IntentRow, e: Event, status: PaymentIntentStatus): (s: seq<IntentRow>)
    requires IndexOfId(rows, intent.id).Some?
    ensures |s| == |rows|
  {
    var k := IndexOfId(rows, intent.id).value;
    rows[k := WriteColumns(rows[k], intent.(webhookEvent := Some(e), status := status), {WebhookEventColumn, StatusColumn})]
  }

  /** Records the event and the new status on the instance and saves those
      two columns. */
  method RecordEvent(intent: PaymentIntent, e: Event, status: PaymentIntentStatus, table: IntentTable)
    requires table.Valid() && IndexOfId(table.rows, intent.id).Some?
    modifies intent, table
    ensures table.Valid() && table.nextId == old(table.nextId)
    ensures intent.Row() == old(intent.Row()).(webhookEvent := Some(e), status := status).Normalized()
    ensures table.rows == Recorded(old(table.rows), old(intent.Row()), e, status)
  {
    intent.webhookEvent := Some(e);
    intent.status := status;
    intent.Save(table, {WebhookEventColumn, StatusColumn});
  }

  /** The intent instance, the intent table and the order table after
      `finalize_intent_and_order`, and the steps it took. */
  function FinalizeSpec(intent: IntentRow, e: Event, rows: seq<IntentRow>, orders: map<int, Order>): Finalized
    requires IndexOfId(rows, intent.id).Some?
  {
    if intent.status == Succeeded then Finalized(intent, rows, orders, [])
    else
      var status := if AmountMismatch(intent, e) then PaymentIntentStatus.Failed else Succeeded;
      var inst := intent.(webhookEvent := Some(e), status := status).Normalized();
      var rows' := Recorded(rows, intent, e, status);
      if status == PaymentIntentStatus.Failed then Finalized(inst, rows', orders, [])
      else Finalized(inst, rows', AfterPay(orders, intent.orderId), [PayCall(intent.orderId, rows')])
  }

  /** The stored row of the intent after finalisation. */
  function FinalizedRow(intent: IntentRow, e: Event, rows: seq<IntentRow>, orders: map<int, Order>): IntentRow
    requires IndexOfId(rows, intent.id).Some?
  {
    FinalizeSpec(intent, e, rows, orders).rows[IndexOfId(rows, intent.id).value]
  }

  method FinalizeIntentAndOrder(intent: PaymentIntent, event: Event, table: IntentTable, orders: OrderTable)
    requires table.Valid() && IndexOfId(table.rows, intent.id).Some?
    modifies intent, table, orders
    ensures table.Valid() && table.nextId == old(table.nextId)
    ensures var f := FinalizeSpec(old(intent.Row()), event, old(table.rows), old(orders.orders));
            && intent.Row() == f.intent && table.rows == f.rows && orders.orders == f.orders
            && orders.payLog == old(orders.payLog) + f.payCalls
  {
    if intent.status == Succeeded {
      return;
    }
    var reported := ReportedAmount(event);
    var expected := ToMinorUnits(Some(Cents(intent.amount)), intent.currency);
    ghost var before, rows0, orders0 := intent.Row(), table.rows, orders.orders;
    if reported != 0 && expected != 0 && reported != expected {
      assert FinalizeSpec(before, event, rows0, orders0)
             == Finalized(before.(webhookEvent := Some(event), status := PaymentIntentStatus.Failed).Normalized(),
                          Recorded(rows0, before, event, PaymentIntentStatus.Failed), orders0, []);
      RecordEvent(intent, event, PaymentIntentStatus.Failed, table);
      return;
    }
    assert FinalizeSpec(before, event, rows0, orders0)
           == Finalized(before.(webhookEvent := Some(event), status := Succeeded).Normalized(),
                        Recorded(rows0, before, event, Succeeded), AfterPay(orders0, before.orderId),
                        [PayCall(before.orderId, Recorded(rows0, before, event, Succeeded))]);
    RecordEvent(intent, event, Succeeded, table);
    // A failure of pay_order is swallowed: the intent stays succeeded.
    var _ := orders.PayOrder(intent.orderId, table);
  }

  /** An intent already succeeded is left alone and the order is not paid. */
  lemma FinalizeSkipsSucceeded(intent: IntentRow, e: Event, rows: seq<IntentRow>, orders: map<int, Order>)
    requires IndexOfId(rows, intent.id).Some? && intent.status == Succeeded
    ensures FinalizeSpec(intent, e, rows, orders) == Finalized(intent, rows, orders, [])
  {
  }

  /** With both amounts known and different, the intent fails, keeps the
      event for audit, and the order is not paid. */
  lemma FinalizeMismatchFails(intent: IntentRow, e: Event, rows: seq<IntentRow>, orders: map<int, Order>)
    requires IndexOfId(rows, intent.id).Some? && intent.status != Succeeded
    requires ReportedAmount(e) != 0 && intent.amount != 0 && ReportedAmount(e) != intent.amount
    ensures var f := FinalizeSpec(intent, e, rows, orders);
            var row := FinalizedRow(intent, e, rows, orders);
            && row.status == PaymentIntentStatus.Failed && row.webhookEvent == Some(e)
            && f.orders == orders
            && f.payCalls == []
  {
    MinorUnitsOfCents(intent.amount, intent.currency);
  }

  /** Otherwise (amounts equal, or either unknown) the intent succeeds and
      is saved before the order is paid: the one `pay_order` call sees the
      intent's row already succeeded. The row stays succeeded whether or
      not paying the order succeeds. */
  lemma FinalizeSucceeds(intent: IntentRow, e: Event, rows: seq<IntentRow>, orders: map<int, Order>)
    requires IndexOfId(rows, intent.id).Some? && intent.status != Succeeded
    requires ReportedAmount(e) == 0 || intent.amount == 0 || ReportedAmount(e) == intent.amount
    ensures var f := FinalizeSpec(intent, e, rows, orders);
            var row := FinalizedRow(intent, e, rows, orders);
            && row.status == Succeeded && row.webhookEvent == Some(e)
            && f.orders == AfterPay(orders, intent.orderId)
            && f.payCalls == [PayCall(intent.orderId, f.rows)]
            && f.payCalls[0].intentRows[IndexOfId(rows, intent.id).value].status == Succeeded
  {
    MinorUnitsOfCents(intent.amount, intent.currency);
  }

  /** Finalisation touches only the status and webhook_event of the
      intent's own row. */
  lemma FinalizeTouchesOnlyItsRow(intent: IntentRow, e: Event, rows: seq<IntentRow>, orders: map<int, Order>)
    requires IndexOfId(rows, intent.id).Some?
    ensures var f := FinalizeSpec(intent, e, rows, orders);
            var k := IndexOfId(rows, intent.id).value;
            && |f.rows| == |rows|
            && (forall i :: 0 <= i < |rows| && i != k ==> f.rows[i] == rows[i])
            && f.rows[k].(status := rows[k].status, webhookEvent := rows[k].webhookEvent) == rows[k]
  {
  }

  /** A second finalisation with an event whose amount matches changes
      nothing: the order is paid at most once. */
  lemma FinalizeIdempotent(intent: IntentRow, e: Event, e2: Event, rows: seq<IntentRow>, orders: map<int, Order>)
    requires IndexOfId(rows, intent.id).Some?
    requires !AmountMismatch(intent, e)
    ensures var f := FinalizeSpec(intent, e, rows, orders);
            IndexOfId(f.rows, intent.id) == IndexOfId(rows, intent.id)
            && f.intent.id == intent.id
            && FinalizeSpec(f.intent, e2, f.rows, f.orders) == Finalized(f.intent, f.rows, f.orders, [])
  {
    var f := FinalizeSpec(intent, e, rows, orders);
    var k := IndexOfId(rows, intent.id).value;
    IndexOfIdAfterWrite(rows, k, f.rows[k]);
  }

  /** Overwriting a row with one of the same id keeps every id lookup. */
  lemma IndexOfIdAfterWrite(rows: seq<IntentRow>, k: nat, x: IntentRow)
    requires k < |rows| && x.id == rows[k].id
    ensures forall id :: IndexOfId(rows[k := x], id) == IndexOfId(rows, id)
  {
    forall id ensures IndexOfId(rows[k := x], id) == IndexOfId(rows, id) {
      IndexOfIdSameIds(rows, rows[k := x], id);
    }
  }

  lemma {:induction false} IndexOfIdSameIds(a: seq<IntentRow>, b: seq<IntentRow>, id: nat)
    requires |a| == |b| && forall i :: 0 <= i < |a| ==> a[i].id == b[i].id
    ensures IndexOfId(a, id) == IndexOfId(b, id)
    decreases |a|
  {
    if |a| > 0 {
      IndexOfIdSameIds(a[..|a| - 1], b[..|b| - 1], id);
    }
  }

  /** A pending order with an initialised 50.00 NGN intent and a
      charge.success event for 5000 kobo: the intent succeeds and the order
      is paid with exactly one audit event. */
  lemma FinalizePaysMatchingCharge(intent: IntentRow, e: Event, rows: seq<IntentRow>, orders: map<int, Order>)
    requires IndexOfId(rows, intent.id).Some?
    requires intent.status == PaymentIntentStatus.Initialized && intent.amount == 5000 && intent.currency == "NGN"
    requires e.data.Some? && e.data.value.amount == AmountInt(5000)
    requires intent.orderId in orders && orders[intent.orderId].status == OrderStatus.Pending
    ensures var f := FinalizeSpec(intent, e, rows, orders);
            && FinalizedRow(intent, e, rows, orders).status == Succeeded
            && f.orders[intent.orderId].status == OrderStatus.Paid
            && f.orders[intent.orderId].events
               == [StatusEvent(OrderStatus.Pending, OrderStatus.Paid)] + orders[intent.orderId].events
  {
    FinalizeSucceeds(intent, e, rows, orders);
  }

  // ---------------------------------------------------------------------
  // initialize_paystack_transaction (after the HTTP call)

  /** The request sent to the provider's transaction/initialize endpoint. */
  datatype GatewayRequest = GatewayRequest(email: string, amount: int, currency: string, reference: string, metadata: Metadata)

  /** The `data` member of the provider's reply; a missing or null field is None. */
  datatype GatewayData =
    | DataMissing
    | DataObject(authorizationUrl: Option<string>, accessCode: Option<string>)
    | DataNotObject

  /** The provider's reply body; `status` is the truthiness of its `status` member. */
  datatype GatewayBody = NotJson | NotAnObject | BodyObject(status: bool, data: GatewayData)

  datatype GatewayResponse = GatewayResponse(statusCode: int, body: GatewayBody)

  /** `ValueError` for a refused initialisation; an unreadable reply or a
      refused database write end the call with an exception as well. */
  datatype InitError = InitializeFailed | ReplyUnreadable | Database(cause: DbError)

  /** `(currency or NGN).upper()`. */
  function TransactionCurrency(currency: string): (c: string)
    ensures currency == "" ==> c == "NGN"
    ensures Text.HasNoLower(c)
  {
    Text.ToUpper(if currency == "" then NGN.Value() else currency)
  }

  /** The payload of the initialize call; `amount` is in cents. */
  function InitializeRequestFor(order: Order, amount: int, customerEmail: string, reference: string,
                                metadata: Option<Metadata>, currency: string): (p: GatewayRequest)
    ensures p.amount == amount
    ensures p.currency == TransactionCurrency(currency)
    ensures p.email == (if customerEmail != "" then customerEmail else order.email)
    ensures p.reference == reference && p.metadata == metadata.GetOr(map[])
  {
    var txn := TransactionCurrency(currency);
    MinorUnitsOfCents(amount, txn);
    GatewayRequest(if customerEmail != "" then customerEmail else order.email,
                   ToMinorUnits(Some(Cents(amount)), txn), txn, reference, metadata.GetOr(map[]))
  }

  /** Whether the reply lets the call go on to the upsert. */
  function ReplyCheck(reply: GatewayResponse): (r: Result<(string, string), InitError>)
    ensures r.Success? <==> reply.statusCode == 200 && reply.body.BodyObject? && reply.body.status && !reply.body.data.DataNotObject?
    ensures reply.body.NotJson? ==> r == Failure(ReplyUnreadable)
    ensures !reply.body.NotJson? && reply.statusCode != 200 ==> r == Failure(InitializeFailed)
    ensures reply.body.BodyObject? && !reply.body.status ==> r == Failure(InitializeFailed)
    ensures reply.statusCode == 200 && reply.body.NotAnObject? ==> r == Failure(ReplyUnreadable)
  {
    match reply.body
    case NotJson => Failure(ReplyUnreadable)
    case NotAnObject => if reply.statusCode != 200 then Failure(InitializeFailed) else Failure(ReplyUnreadable)
    case BodyObject(status, data) =>
      if reply.statusCode != 200 || !status then Failure(InitializeFailed)
      else match data
        case DataMissing => Success(("", ""))
        case DataNotObject => Failure(ReplyUnreadable)
        case DataObject(url, code) => Success((url.GetOr(""), code.GetOr("")))
  }

  datatype InitOutcome = InitOutcome(result: Result<IntentRow, InitError>, rows: seq<IntentRow>, nextId: nat)

  /** The outcome of `initialize_paystack_transaction` given the provider's reply. */
  function InitializeSpec(rows: seq<IntentRow>, nextId: nat, order: Order, amount: int, reference: string,
                          metadata: Option<Metadata>, currency: string, reply: GatewayResponse, now: int): InitOutcome
  {
    match ReplyCheck(reply)
    case Failure(e) => InitOutcome(Failure(e), rows, nextId)
    case Success((url, code)) =>
      var txn := TransactionCurrency(currency);
      var d := UpsertDefaults(order.id, amount, txn, "", url, code, metadata);
      var c := UpsertCandidate(rows, nextId, reference, d, now);
      if !c.FitsColumns() then InitOutcome(Failure(Database(ConstraintViolation)), rows, nextId)
      else InitOutcome(Success(c), UpsertRows(rows, nextId, reference, d, now),
                       if IndexOfReference(rows, reference).Some? then nextId else nextId + 1)
  }

  method InitializePaystackTransaction(table: IntentTable, order: Order, amount: int, customerEmail: string,
                                       reference: string, metadata: Option<Metadata>, currency: string,
                                       gateway: GatewayRequest -> GatewayResponse, now: int)
    returns (r: Result<IntentRow, InitError>)
    requires table.Valid()
    modifies table
    ensures table.Valid()
    ensures InitOutcome(r, table.rows, table.nextId)
            == InitializeSpec(old(table.rows), old(table.nextId), order, amount, reference, metadata, currency,
                              gateway(InitializeRequestFor(order, amount, customerEmail, reference, metadata, currency)), now)
  {
    var txn := TransactionCurrency(currency);
    var payload := InitializeRequestFor(order, amount, customerEmail, reference, metadata, currency);
    var reply := gateway(payload);
    var checked := ReplyCheck(reply);
    if checked.Failure? {
      return Failure(checked.error);
    }
    var (url, code) := checked.value;
    var upserted := CreateOrUpdateIntent(table, order.id, reference, amount, txn, "", url, code, metadata, now);
    match upserted {
      case Failure(e) => r := Failure(Database(e));
      case Success(intent) => r := Success(intent);
    }
  }

  /** A JSON reply other than 200, or an object reply whose status is false,
      fails the call and nothing is written. */
  lemma InitializeRefusedWritesNothing(rows: seq<IntentRow>, nextId: nat, order: Order, amount: int, reference: string,
                                       metadata: Option<Metadata>, currency: string, reply: GatewayResponse, now: int)
    requires !reply.body.NotJson? && (reply.statusCode != 200 || (reply.body.BodyObject? && !reply.body.status))
    ensures InitializeSpec(rows, nextId, order, amount, reference, metadata, currency, reply, now)
            == InitOutcome(Failure(InitializeFailed), rows, nextId)
  {
  }

  /** An accepted reply upserts the intent with the reply's authorization
      URL and access code (or "" when absent), in upper-cased currency, as
      the only row with that reference. */
  lemma InitializeAcceptedUpserts(rows: seq<IntentRow>, nextId: nat, order: Order, amount: int, reference: string,
                                  metadata: Option<Metadata>, currency: string, url: Option<string>,
                                  code: Option<string>, now: int)
    requires UniqueReferences(rows)
    ensures var reply := GatewayResponse(200, BodyObject(true, DataObject(url, code)));
            var s := InitializeSpec(rows, nextId, order, amount, reference, metadata, currency, reply, now);
            s.result.Success? ==>
              && s.result.value.authorizationUrl == url.GetOr("")
              && s.result.value.accessCode == code.GetOr("")
              && s.result.value.currency == TransactionCurrency(currency)
              && s.result.value.status == PaymentIntentStatus.Initialized
              && s.result.value.provider == Paystack.Value()
              && s.result.value.amount == amount
              && (forall i :: 0 <= i < |s.rows| && s.rows[i].reference == reference ==> s.rows[i] == s.result.value)
              && (exists i :: 0 <= i < |s.rows| && s.rows[i] == s.result.value)
  {
    var reply := GatewayResponse(200, BodyObject(true, DataObject(url, code)));
    assert ReplyCheck(reply) == Success((url.GetOr(""), code.GetOr("")));
    var txn := TransactionCurrency(currency);
    var d := UpsertDefaults(order.id, amount, txn, "", url.GetOr(""), code.GetOr(""), metadata);
    var s := InitializeSpec(rows, nextId, order, amount, reference, metadata, currency, reply, now);
    if s.result.Success? {
      assert s.result.value == UpsertCandidate(rows, nextId, reference, d, now);
      assert s.rows == UpsertRows(rows, nextId, reference, d, now);
      UpsertedIntentFields(rows, nextId, order.id, reference, amount, txn, "", url.GetOr(""), code.GetOr(""), metadata, now);
      Text.ToUpperFixes(txn);
      UpsertRowsSpec(rows, nextId, reference, d, now);
    }
  }
}
