/** The PaymentIntent model of payments/models.py: the row the database keeps
    (`IntentRow`), the ORM instance that code changes in place and then saves
    (`PaymentIntent`), and the table itself (`IntentTable`), which holds the
    rows in id order and enforces the column constraints. */
module Models {
  import opened Wrappers
  import opened Choices
  import Text

  /** A value inside the JSON `metadata` dictionary. */
  datatype MetaValue = MetaString(s: string) | MetaInt(i: int) | MetaOther

  type Metadata = map<string, MetaValue>

  /** What `int(data.get("amount", 0))` meets in a webhook's `data`: no key,
      something `int()` accepts (a number or a numeric string), or something
      it refuses. */
  datatype EventAmount = AmountMissing | AmountInt(n: int) | AmountUnparseable

  /** The `data` object of a webhook event. */
  datatype EventData = EventData(reference: Option<string>, referenceCode: Option<string>, amount: EventAmount)

  /** A decoded webhook body that is a JSON object: its `event` and `data` keys. */
  datatype Event = Event(kind: Option<string>, data: Option<EventData>)

  const MaxReferenceLength := 64
  const MaxCurrencyLength := 8
  const MaxProviderLength := 32
  const MaxAccessCodeLength := 64
  const MaxAuthorizationUrlLength := 200
  /** numeric(12, 2) holds magnitudes below 10^10 units, i.e. 10^12 cents. */
  const AmountCentsBound := 1_000_000_000_000

  /** One row of the intent table; `amount` is in cents (two decimal places). */
  datatype IntentRow = IntentRow(
    id: nat,
    orderId: int,
    reference: string,
    amount: int,
    currency: string,
    status: PaymentIntentStatus,
    authorizationUrl: string,
    accessCode: string,
    metadata: Option<Metadata>,
    webhookEvent: Option<Event>,
    provider: string,
    createdAt: int)
  {
    /** The normalisation `save` applies before it writes: currency upper-cased
        and provider lower-cased when non-empty, nothing else touched. */
    function Normalized(): (n: IntentRow)
      ensures n.currency == Text.ToUpper(currency) && n.provider == Text.ToLower(provider)
      ensures n.(currency := currency, provider := provider) == this
    {
      var c := if currency != "" then Text.ToUpper(currency) else currency;
      var p := if provider != "" then Text.ToLower(provider) else provider;
      this.(currency := c, provider := p)
    }

    /** The database's own constraints: the amount check constraint
        (amount >= 0), numeric(12, 2), and the varchar lengths. */
    predicate FitsColumns() {
      && 0 <= amount < AmountCentsBound
      && |reference| <= MaxReferenceLength
      && |currency| <= MaxCurrencyLength
      && |provider| <= MaxProviderLength
      && |accessCode| <= MaxAccessCodeLength
      && |authorizationUrl| <= MaxAuthorizationUrlLength
    }
  }

  /** Saving twice normalises no further than saving once. */
  lemma NormalizedIdempotent(r: IntentRow)
    ensures r.Normalized().Normalized() == r.Normalized()
  {
    Text.ToUpperIdempotent(r.currency);
    Text.ToLowerIdempotent(r.provider);
  }

  /** A row whose currency and provider are choice values is already normal. */
  lemma NormalizedKeepsChoices(r: IntentRow, c: Currency, p: PaymentProvider)
    requires r.currency == c.Value() && r.provider == p.Value()
    ensures r.Normalized() == r
  {
    CurrencyValueIsUpper(c);
    ProviderValueIsLower(p);
  }

  /** A row created with only its required fields takes the model's field
      defaults: status initialized, amount 0.00, provider paystack, blank
      authorization_url and access_code, no metadata, no webhook event. */
  function CreatedWithDefaults(id: nat, orderId: int, reference: string, currency: string, createdAt: int): (r: IntentRow)
    ensures r.status == Initialized && r.amount == 0 && r.provider == Paystack.Value()
    ensures r.metadata.None? && r.webhookEvent.None?
    ensures r.FitsColumns() <==> |reference| <= MaxReferenceLength && |currency| <= MaxCurrencyLength
  {
    IntentRow(id, orderId, reference, 0, currency, Initialized, "", "", None, None, Paystack.Value(), createdAt)
  }

  /** The columns written by `save(update_fields=[...])` in the payments code. */
  datatype Column = StatusColumn | WebhookEventColumn | MetadataColumn

  /** The stored row after `save(update_fields=cols)` from instance `inst`:
      the listed columns take the instance's values, all others stay. */
  function WriteColumns(stored: IntentRow, inst: IntentRow, cols: set<Column>): IntentRow {
    stored.(
      status := if StatusColumn in cols then inst.status else stored.status,
      webhookEvent := if WebhookEventColumn in cols then inst.webhookEvent else stored.webhookEvent,
      metadata := if MetadataColumn in cols then inst.metadata else stored.metadata)
  }

  predicate UniqueReferences(rows: seq<IntentRow>) {
    forall i, j :: 0 <= i < j < |rows| ==> rows[i].reference != rows[j].reference
  }

  predicate IdsIncreasing(rows: seq<IntentRow>) {
    forall i, j :: 0 <= i < j < |rows| ==> rows[i].id < rows[j].id
  }

  /** The table invariant: references unique, ids in insertion order, and
      every row within the column constraints. */
  predicate WellFormed(rows: seq<IntentRow>) {
    && UniqueReferences(rows)
    && IdsIncreasing(rows)
    && (forall i :: 0 <= i < |rows| ==> rows[i].FitsColumns())
  }

  /** Position of the row with this reference, if any. */
  function {:induction false} IndexOfReference(rows: seq<IntentRow>, reference: string): (k: Option<nat>)
    ensures k.Some? ==> k.value < |rows| && rows[k.value].reference == reference
    ensures k.None? <==> forall i :: 0 <= i < |rows| ==> rows[i].reference != reference
  {
    if |rows| == 0 then None
    else if rows[|rows| - 1].reference == reference then Some(|rows| - 1)
    else IndexOfReference(rows[..|rows| - 1], reference)
  }

  /** Position of the row with this primary key, if any. */
  function {:induction false} IndexOfId(rows: seq<IntentRow>, id: nat): (k: Option<nat>)
    ensures k.Some? ==> k.value < |rows| && rows[k.value].id == id
    ensures k.None? <==> forall i :: 0 <= i < |rows| ==> rows[i].id != id
  {
    if |rows| == 0 then None
    else if rows[|rows| - 1].id == id then Some(|rows| - 1)
    else IndexOfId(rows[..|rows| - 1], id)
  }

  /** With unique references, at most one row carries a given reference. */
  lemma UniqueReferenceIndex(rows: seq<IntentRow>, reference: string, i: nat)
    requires UniqueReferences(rows) && i < |rows| && rows[i].reference == reference
    ensures IndexOfReference(rows, reference) == Some(i)
  {
  }

  /** The values `update_or_create` is given as `defaults`. */
  datatype IntentDefaults = IntentDefaults(
    orderId: int,
    amount: int,
    currency: string,
    provider: string,
    authorizationUrl: string,
    accessCode: string,
    status: PaymentIntentStatus,
    metadata: Option<Metadata>)

  /** An existing row with `defaults` assigned over it; id, reference,
      created_at and webhook_event are not among them. */
  function ApplyDefaults(row: IntentRow, d: IntentDefaults): IntentRow {
    row.(orderId := d.orderId, amount := d.amount, currency := d.currency, provider := d.provider,
         authorizationUrl := d.authorizationUrl, accessCode := d.accessCode, status := d.status,
         metadata := d.metadata)
  }

  /** The row `update_or_create(reference=..., defaults=d)` saves: the updated
      existing row, or a new one with the next id and no webhook event; either
      way normalised by `save`. */
  function UpsertCandidate(rows: seq<IntentRow>, nextId: nat, reference: string, d: IntentDefaults, now: int): (c: IntentRow)
    ensures c.reference == reference
  {
    match IndexOfReference(rows, reference)
    case Some(k) => ApplyDefaults(rows[k], d).Normalized()
    case None =>
      IntentRow(nextId, d.orderId, reference, d.amount, d.currency, d.status, d.authorizationUrl,
                d.accessCode, d.metadata, None, d.provider, now).Normalized()
  }

  /** The rows after a successful upsert: replaced in place, or appended. */
  function UpsertRows(rows: seq<IntentRow>, nextId: nat, reference: string, d: IntentDefaults, now: int): seq<IntentRow> {
    var c := UpsertCandidate(rows, nextId, reference, d, now);
    match IndexOfReference(rows, reference)
    case Some(k) => rows[k := c]
    case None => rows + [c]
  }

  /** After an upsert exactly one row holds the reference, and it is the
      candidate row; every row with another reference keeps its position and
      value; the table grows by one row only for a new reference. */
  lemma UpsertRowsSpec(rows: seq<IntentRow>, nextId: nat, reference: string, d: IntentDefaults, now: int)
    requires UniqueReferences(rows)
    ensures var s := UpsertRows(rows, nextId, reference, d, now);
            var c := UpsertCandidate(rows, nextId, reference, d, now);
            && UniqueReferences(s)
            && (exists i :: 0 <= i < |s| && s[i] == c)
            && (forall i :: 0 <= i < |s| && s[i].reference == reference ==> s[i] == c)
            && (forall i :: 0 <= i < |rows| && rows[i].reference != reference ==> i < |s| && s[i] == rows[i])
            && |s| == |rows| + (if IndexOfReference(rows, reference).Some? then 0 else 1)
  {
    var s := UpsertRows(rows, nextId, reference, d, now);
    var c := UpsertCandidate(rows, nextId, reference, d, now);
    match IndexOfReference(rows, reference)
    case Some(k) =>
      assert s[k] == c;
    case None =>
      assert s[|rows|] == c;
  }

  datatype DbError = ConstraintViolation

  /** The intent table. */
  class IntentTable {
    var rows: seq<IntentRow>
    var nextId: nat

    ghost predicate Valid()
      reads this
    {
      WellFormed(rows) && forall i :: 0 <= i < |rows| ==> rows[i].id < nextId
    }

    constructor Empty()
      ensures Valid() && rows == [] && nextId == 1
    {
      rows := [];
      nextId := 1;
    }

    /** `UPDATE ... SET cols WHERE id = id`: only the status, webhook_event and
        metadata columns can be written this way, so no constraint can fail. */
    method UpdateColumns(id: nat, inst: IntentRow, cols: set<Column>)
      requires Valid() && IndexOfId(rows, id).Some?
      modifies this
      ensures Valid() && nextId == old(nextId)
      ensures var k := IndexOfId(old(rows), id).value;
              rows == old(rows)[k := WriteColumns(old(rows)[k], inst, cols)]
    {
      var k := IndexOfId(rows, id).value;
      rows := rows[k := WriteColumns(rows[k], inst, cols)];
    }

    /** `PaymentIntent.objects.update_or_create(reference=reference, defaults=d)`:
        the candidate row is written when it satisfies the constraints and
        rejected, leaving the table unchanged, when it does not. */
    method UpdateOrCreate(reference: string, d: IntentDefaults, now: int) returns (r: Result<IntentRow, DbError>)
      requires Valid()
      modifies this
      ensures Valid()
      ensures var c := UpsertCandidate(old(rows), old(nextId), reference, d, now);
              r == if c.FitsColumns() then Success(c) else Failure(ConstraintViolation)
      ensures r.Failure? ==> rows == old(rows) && nextId == old(nextId)
      ensures r.Success? ==> rows == UpsertRows(old(rows), old(nextId), reference, d, now)
      ensures r.Success? ==> nextId == if IndexOfReference(old(rows), reference).Some? then old(nextId) else old(nextId) + 1
    {
      var c := UpsertCandidate(rows, nextId, reference, d, now);
      if !c.FitsColumns() {
        return Failure(ConstraintViolation);
      }
      match IndexOfReference(rows, reference) {
        case Some(k) =>
          rows := rows[k := c];
        case None =>
          rows := rows + [c];
          nextId := nextId + 1;
      }
      r := Success(c);
    }
  }

  /** An ORM instance of PaymentIntent: code assigns its fields in place and
      then saves it. */
  class PaymentIntent {
    var id: nat
    var orderId: int
    var reference: string
    var amount: int
    var currency: string
    var status: PaymentIntentStatus
    var authorizationUrl: string
    var accessCode: string
    var metadata: Option<Metadata>
    var webhookEvent: Option<Event>
    var provider: string
    var createdAt: int

    /** The instance's current field values as a row. */
    function Row(): IntentRow
      reads this
    {
      IntentRow(id, orderId, reference, amount, currency, status, authorizationUrl, accessCode,
                metadata, webhookEvent, provider, createdAt)
    }

    /** An instance loaded from a stored row. */
    constructor Load(r: IntentRow)
      ensures Row() == r
    {
      id, orderId, reference, amount, currency := r.id, r.orderId, r.reference, r.amount, r.currency;
      status, authorizationUrl, accessCode := r.status, r.authorizationUrl, r.accessCode;
      metadata, webhookEvent, provider, createdAt := r.metadata, r.webhookEvent, r.provider, r.createdAt;
    }

    /** `save(update_fields=cols)`: normalise currency and provider in place,
        then write the listed columns to the row with this instance's id. */
    method Save(table: IntentTable, cols: set<Column>)
      requires table.Valid() && IndexOfId(table.rows, id).Some?
      modifies this, table
      ensures Row() == old(Row()).Normalized()
      ensures table.Valid() && table.nextId == old(table.nextId)
      ensures var k := IndexOfId(old(table.rows), id).value;
              table.rows == old(table.rows)[k := WriteColumns(old(table.rows)[k], old(Row()), cols)]
    {
      if currency != "" {
        currency := Text.ToUpper(currency);
      }
      if provider != "" {
        provider := Text.ToLower(provider);
      }
      table.UpdateColumns(id, Row(), cols);
    }
  }
}
