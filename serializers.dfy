/** Request validation for the two write endpoints (payments/serializers.py).
    Each field is modelled by what the request body holds for its key, as
    the field's own parsing sees it, and by the outcome the REST framework
    gives it: left out of the validated data, a value, or an error under the
    field's key. Every field is validated and all errors are reported
    together. */
module Serializers {
  import opened Wrappers
  import opened Choices
  import opened Decimals
  import opened Models
  import Text

  /** What the request body holds for one key: nothing, a value the field
      cannot parse (wrong JSON type, null, not a number), or a parsed value. */
  datatype Input<+T> = Omitted | Malformed | Given(value: T)

  /** How one field comes out of validation. */
  datatype Field<+T> = Absent | Valid(value: T) | Invalid

  const NonNegativeMessage := "Amount must be non-negative"
  const UnsupportedCurrencyMessage := "Unsupported currency"

  /** An amount as the framework's DecimalField(max_digits=12,
      decimal_places=2) hands it to the serializer: the precision check
      first, then the value quantized to two places, in cents. */
  function DecimalFieldCents(d: Decimal): (r: Option<int>)
    ensures r.Some? <==> FitsDecimalField(d, 12, 2)
    ensures r.Some? ==> r.value * Pow10(d.scale) == d.units * 100 && Abs(r.value) < Pow10(12)
  {
    if FitsDecimalField(d, 12, 2) then
      FieldAmountFitsColumn(d);
      Some(QuantizeCents(d))
    else None
  }

  // ---------------------------------------------------------------------
  // PaystackInitializeSerializer

  /** `validate_amount`: a negative amount is refused, any other is kept. */
  function ValidateAmount(value: Decimal): (r: Result<Decimal, string>)
    ensures r.Failure? <==> value.units < 0
    ensures r.Failure? ==> r.error == NonNegativeMessage
    ensures r.Success? ==> r.value == value
  {
    if value.units < 0 then Failure(NonNegativeMessage) else Success(value)
  }

  /** `validate_currency`: the code is upper-cased and refused only when a
      supported list is configured and lacks it. */
  function ValidateCurrency(value: string, supported: seq<string>): (r: Result<string, string>)
    ensures r.Success? ==> r.value == Text.ToUpper(value) && Text.HasNoLower(r.value)
    ensures r.Failure? <==> |supported| > 0 && Text.ToUpper(value) !in supported
    ensures r.Failure? ==> r.error == UnsupportedCurrencyMessage
  {
    var norm := Text.ToUpper(value);
    if |supported| > 0 && norm !in supported then Failure(UnsupportedCurrencyMessage) else Success(norm)
  }

  datatype InitializeInput =
    | InitializeObject(orderId: Input<int>, amount: Input<Decimal>, currency: Input<string>, reference: Input<string>)
    | InitializeNotAnObject

  /** The keys errors are reported under; `NonFieldKey` when the body is not
      a JSON object at all. */
  datatype InitializeKey = OrderIdKey | AmountKey | CurrencyKey | ReferenceKey | NonFieldKey

  /** Validated initialize data; `amount` in cents, `reference` None when omitted. */
  datatype InitializeData = InitializeData(orderId: int, amount: Option<int>, currency: string, reference: Option<string>)

  /** order_id: a required integer. */
  function InitializeOrderId(i: Input<int>): (f: Field<int>)
    ensures f.Valid? <==> i.Given?
    ensures f.Valid? ==> f.value == i.value
    ensures !f.Absent?
  {
    match i
    case Given(n) => Valid(n)
    case _ => Invalid
  }

  /** amount: optional; when given it must fit the field and not be negative. */
  function InitializeAmount(i: Input<Decimal>): (f: Field<int>)
    ensures f.Absent? <==> i.Omitted?
    ensures f.Valid? <==> i.Given? && FitsDecimalField(i.value, 12, 2) && i.value.units >= 0
    ensures f.Valid? ==> f.value >= 0 && f.value < AmountCentsBound
    ensures f.Valid? ==> f.value * Pow10(i.value.scale) == i.value.units * 100
  {
    match i
    case Omitted => Absent
    case Malformed => Invalid
    case Given(d) =>
      match DecimalFieldCents(d)
      case None => Invalid
      case Some(c) =>
        assert c >= 0 <==> d.units >= 0 by { SignOfQuantized(c, d); }
        match ValidateAmount(Cents(c))
        case Failure(_) => Invalid
        case Success(v) => Valid(v.units)
  }

  lemma SignOfQuantized(c: int, d: Decimal)
    requires c * Pow10(d.scale) == d.units * 100
    ensures c >= 0 <==> d.units >= 0
  {
    ProductSign(c, Pow10(d.scale));
    ProductSign(d.units, 100);
  }

  /** currency: optional, "NGN" when omitted, never blank, and passed
      through `validate_currency` even when defaulted. */
  function InitializeCurrency(i: Input<string>, supported: seq<string>): (f: Field<string>)
    ensures !f.Absent?
    ensures i.Omitted? ==> f == (if ValidateCurrency(NGN.Value(), supported).Success? then Valid("NGN") else Invalid)
    ensures i.Given? && i.value != "" ==> f.Valid? == ValidateCurrency(i.value, supported).Success?
    ensures i.Given? && i.value == "" ==> f.Invalid?
    ensures f.Valid? ==> f.value in supported || |supported| == 0
    ensures f.Valid? ==> Text.HasNoLower(f.value)
  {
    var raw := match i
      case Omitted => Some(NGN.Value())
      case Malformed => None
      case Given(s) => if s == "" then None else Some(s);
    match raw
    case None => Invalid
    case Some(s) =>
      match ValidateCurrency(s, supported)
      case Failure(_) => Invalid
      case Success(v) =>
        assert NGN.Value() == "NGN";
        CurrencyValueIsUpper(NGN);
        Valid(v)
  }

  /** reference: optional, blank allowed, at most 64 characters. */
  function InitializeReference(i: Input<string>): (f: Field<string>)
    ensures f.Absent? <==> i.Omitted?
    ensures f.Valid? <==> i.Given? && |i.value| <= MaxReferenceLength
    ensures f.Valid? ==> f.value == i.value
  {
    match i
    case Omitted => Absent
    case Malformed => Invalid
    case Given(s) => if |s| <= MaxReferenceLength then Valid(s) else Invalid
  }

  function OptionOf<T>(f: Field<T>): Option<T> {
    if f.Valid? then Some(f.value) else None
  }

  /** `is_valid()` and `validated_data` / `errors` of the initialize serializer. */
  function ValidateInitialize(p: InitializeInput, supported: seq<string>): (r: Result<InitializeData, set<InitializeKey>>)
    ensures r.Failure? ==> r.error != {}
    ensures p.InitializeNotAnObject? ==> r == Failure({NonFieldKey})
    ensures p.InitializeObject? ==>
              (r.Failure? <==> InitializeOrderId(p.orderId).Invalid? || InitializeAmount(p.amount).Invalid?
                               || InitializeCurrency(p.currency, supported).Invalid? || InitializeReference(p.reference).Invalid?)
    ensures p.InitializeObject? && r.Failure? ==>
              (OrderIdKey in r.error <==> InitializeOrderId(p.orderId).Invalid?)
              && (AmountKey in r.error <==> InitializeAmount(p.amount).Invalid?)
              && (CurrencyKey in r.error <==> InitializeCurrency(p.currency, supported).Invalid?)
              && (ReferenceKey in r.error <==> InitializeReference(p.reference).Invalid?)
              && NonFieldKey !in r.error
    ensures r.Success? ==> p.InitializeObject? && p.orderId == Given(r.value.orderId)
    ensures r.Success? ==> (r.value.amount.Some? <==> p.amount.Given?)
    ensures r.Success? && r.value.amount.Some? ==> 0 <= r.value.amount.value < AmountCentsBound
    ensures r.Success? ==> r.value.amount == OptionOf(InitializeAmount(p.amount))
    ensures r.Success? ==> r.value.currency == (if p.currency.Given? then Text.ToUpper(p.currency.value) else "NGN")
    ensures r.Success? ==> r.value.reference == (if p.reference.Given? then Some(p.reference.value) else None)
  {
    match p
    case InitializeNotAnObject => Failure({NonFieldKey})
    case InitializeObject(oi, am, cu, re) =>
      var o, a, c, f := InitializeOrderId(oi), InitializeAmount(am), InitializeCurrency(cu, supported), InitializeReference(re);
      var errs := (if o.Invalid? then {OrderIdKey} else {}) + (if a.Invalid? then {AmountKey} else {})
                  + (if c.Invalid? then {CurrencyKey} else {}) + (if f.Invalid? then {ReferenceKey} else {});
      if errs != {} then Failure(errs)
      else
        assert cu.Given? ==> c == Valid(Text.ToUpper(cu.value)) by {
          if cu.Given? { assert cu.value != ""; }
        }
        Success(InitializeData(o.value, OptionOf(a), c.value, OptionOf(f)))
  }

  // ---------------------------------------------------------------------
  // PaymentIntentUpsertSerializer

  /** `validate_amount` of the upsert serializer: None passes, a negative
      amount is refused, any other is kept. */
  function ValidateUpsertAmount(value: Option<Decimal>): (r: Result<Option<Decimal>, string>)
    ensures value.None? ==> r == Success(None)
    ensures r.Failure? <==> value.Some? && value.value.units < 0
    ensures r.Success? ==> r.value == value
  {
    match value
    case None => Success(None)
    case Some(d) => if d.units < 0 then Failure(NonNegativeMessage) else Success(value)
  }

  datatype UpsertInput =
    | UpsertObject(orderId: Input<int>, reference: Input<string>, amount: Input<Decimal>,
                   currency: Input<string>, provider: Input<string>, metadata: Input<Metadata>)
    | UpsertNotAnObject

  /** Validated upsert data; `amount` in cents, `metadata` None when omitted. */
  datatype UpsertData = UpsertData(orderId: int, reference: string, amount: Option<int>,
                                   currency: Currency, provider: PaymentProvider, metadata: Option<Metadata>)

  /** reference: required, not blank, at most 64 characters. */
  function UpsertReference(i: Input<string>): (f: Field<string>)
    ensures f.Valid? <==> i.Given? && 0 < |i.value| <= MaxReferenceLength
    ensures f.Valid? ==> f.value == i.value
    ensures !f.Absent?
  {
    match i
    case Given(s) => if 0 < |s| <= MaxReferenceLength then Valid(s) else Invalid
    case _ => Invalid
  }

  /** amount: optional; when given it must fit the field and `validate_amount`. */
  function UpsertAmount(i: Input<Decimal>): (f: Field<int>)
    ensures f.Absent? <==> i.Omitted?
    ensures f.Valid? <==> i.Given? && FitsDecimalField(i.value, 12, 2) && i.value.units >= 0
    ensures f.Valid? ==> 0 <= f.value < AmountCentsBound
    ensures f.Valid? ==> f.value * Pow10(i.value.scale) == i.value.units * 100
  {
    match i
    case Omitted => Absent
    case Malformed => Invalid
    case Given(d) =>
      match DecimalFieldCents(d)
      case None => Invalid
      case Some(c) =>
        assert c >= 0 <==> d.units >= 0 by { SignOfQuantized(c, d); }
        match ValidateUpsertAmount(Some(Cents(c)))
        case Failure(_) => Invalid
        case Success(v) => Valid(c)
  }

  /** currency: a `Currency` choice given by its exact value, NGN when omitted. */
  function UpsertCurrency(i: Input<string>): (f: Field<Currency>)
    ensures i.Omitted? ==> f == Valid(NGN)
    ensures i.Given? ==> (f.Valid? <==> exists c: Currency :: c.Value() == i.value)
    ensures f.Valid? && i.Given? ==> f.value.Value() == i.value
    ensures !f.Absent?
  {
    match i
    case Omitted => Valid(NGN)
    case Malformed => Invalid
    case Given(s) =>
      match ParseCurrency(s)
      case None => Invalid
      case Some(c) => Valid(c)
  }

  /** provider: a `PaymentProvider` choice given by its exact value, paystack when omitted. */
  function UpsertProvider(i: Input<string>): (f: Field<PaymentProvider>)
    ensures i.Omitted? ==> f == Valid(Paystack)
    ensures i.Given? ==> (f.Valid? <==> i.value == "paystack")
    ensures !f.Absent?
  {
    match i
    case Omitted => Valid(Paystack)
    case Malformed => Invalid
    case Given(s) =>
      match ParsePaymentProvider(s)
      case None => Invalid
      case Some(p) => Valid(p)
  }

  /** metadata: an optional JSON object. */
  function UpsertMetadata(i: Input<Metadata>): (f: Field<Metadata>)
    ensures f.Absent? <==> i.Omitted?
    ensures f.Valid? <==> i.Given?
    ensures f.Valid? ==> f.value == i.value
  {
    match i
    case Omitted => Absent
    case Malformed => Invalid
    case Given(m) => Valid(m)
  }

  /** `is_valid()` and `validated_data` of the upsert serializer; the view
      reports any failure the same way, so the error keys are not kept. */
  function ValidateUpsert(p: UpsertInput): (r: Option<UpsertData>)
    ensures p.UpsertNotAnObject? ==> r.None?
    ensures p.UpsertObject? ==>
              (r.None? <==> !p.orderId.Given? || UpsertReference(p.reference).Invalid? || UpsertAmount(p.amount).Invalid?
                            || UpsertCurrency(p.currency).Invalid? || UpsertProvider(p.provider).Invalid?
                            || UpsertMetadata(p.metadata).Invalid?)
    ensures r.Some? ==> p.UpsertObject? && p.orderId == Given(r.value.orderId) && p.reference == Given(r.value.reference)
    ensures r.Some? ==> 0 < |r.value.reference| <= MaxReferenceLength
    ensures r.Some? ==> (r.value.amount.Some? <==> p.amount.Given?)
    ensures r.Some? && r.value.amount.Some? ==> 0 <= r.value.amount.value < AmountCentsBound
    ensures r.Some? ==> r.value.amount == OptionOf(UpsertAmount(p.amount))
    ensures r.Some? ==> r.value.currency == (if p.currency.Given? then r.value.currency else NGN)
    ensures r.Some? && p.currency.Given? ==> r.value.currency.Value() == p.currency.value
    ensures r.Some? ==> r.value.metadata == (if p.metadata.Given? then Some(p.metadata.value) else None)
  {
    match p
    case UpsertNotAnObject => None
    case UpsertObject(oi, re, am, cu, pr, me) =>
      var f, a, c, v, m := UpsertReference(re), UpsertAmount(am), UpsertCurrency(cu), UpsertProvider(pr), UpsertMetadata(me);
      if !oi.Given? || f.Invalid? || a.Invalid? || c.Invalid? || v.Invalid? || m.Invalid? then None
      else Some(UpsertData(oi.value, f.value, OptionOf(a), c.value, v.value, OptionOf(m)))
  }
}
