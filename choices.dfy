/** The enumerations of common/choices.py that the payments core uses. Each
    choice is a datatype constructor; `Value()` is the string the database and
    the API carry, and `Parse...` reads such a string back. */
module Choices {
  import opened Wrappers
  import Text

  datatype OrderStatus = Pending | Paid | Cancelled {
    function Value(): string {
      match this
      case Pending => "pending"
      case Paid => "paid"
      case Cancelled => "cancelled"
    }
  }

  datatype PaymentIntentStatus = Initialized | Processing | Succeeded | Failed | Cancelled {
    function Value(): string {
      match this
      case Initialized => "initialized"
      case Processing => "processing"
      case Succeeded => "succeeded"
      case Failed => "failed"
      case Cancelled => "cancelled"
    }
  }

  datatype PaymentProvider = Paystack {
    function Value(): string { "paystack" }
  }

  datatype Currency = NGN | USD | GHS | ZAR | KES | XOF {
    function Value(): string {
      match this
      case NGN => "NGN"
      case USD => "USD"
      case GHS => "GHS"
      case ZAR => "ZAR"
      case KES => "KES"
      case XOF => "XOF"
    }
  }

  /** Reads a stored value back; None for a string that is not a choice. */
  function ParseOrderStatus(s: string): (r: Option<OrderStatus>)
    ensures r.Some? ==> r.value.Value() == s
    ensures r.None? ==> forall st: OrderStatus :: st.Value() != s
  {
    if s == "pending" then Some(OrderStatus.Pending)
    else if s == "paid" then Some(OrderStatus.Paid)
    else if s == "cancelled" then Some(OrderStatus.Cancelled)
    else None
  }

  function ParsePaymentIntentStatus(s: string): (r: Option<PaymentIntentStatus>)
    ensures r.Some? ==> r.value.Value() == s
    ensures r.None? ==> forall st: PaymentIntentStatus :: st.Value() != s
  {
    if s == "initialized" then Some(PaymentIntentStatus.Initialized)
    else if s == "processing" then Some(PaymentIntentStatus.Processing)
    else if s == "succeeded" then Some(PaymentIntentStatus.Succeeded)
    else if s == "failed" then Some(PaymentIntentStatus.Failed)
    else if s == "cancelled" then Some(PaymentIntentStatus.Cancelled)
    else None
  }

  function ParsePaymentProvider(s: string): (r: Option<PaymentProvider>)
    ensures r.Some? ==> r.value.Value() == s
    ensures r.None? ==> forall p: PaymentProvider :: p.Value() != s
  {
    if s == "paystack" then Some(Paystack) else None
  }

  function ParseCurrency(s: string): (r: Option<Currency>)
    ensures r.Some? ==> r.value.Value() == s
    ensures r.None? ==> forall c: Currency :: c.Value() != s
  {
    if s == "NGN" then Some(NGN)
    else if s == "USD" then Some(USD)
    else if s == "GHS" then Some(GHS)
    else if s == "ZAR" then Some(ZAR)
    else if s == "KES" then Some(KES)
    else if s == "XOF" then Some(XOF)
    else None
  }

  /** OrderStatus is exactly {pending, paid, cancelled}, and its values are distinct. */
  lemma OrderStatusIsExactly(s: string)
    ensures ParseOrderStatus(s).Some? <==> s in ["pending", "paid", "cancelled"]
    ensures forall a: OrderStatus, b: OrderStatus :: a.Value() == b.Value() ==> a == b
  {
  }

  /** PaymentIntentStatus is exactly the five lifecycle values, all distinct. */
  lemma PaymentIntentStatusIsExactly(s: string)
    ensures ParsePaymentIntentStatus(s).Some? <==>
            s in ["initialized", "processing", "succeeded", "failed", "cancelled"]
    ensures forall a: PaymentIntentStatus, b: PaymentIntentStatus :: a.Value() == b.Value() ==> a == b
  {
  }

  /** The currency codes are exactly the six listed, all distinct. */
  lemma CurrencyIsExactly(s: string)
    ensures ParseCurrency(s).Some? <==> s in ["NGN", "USD", "GHS", "ZAR", "KES", "XOF"]
    ensures forall a: Currency, b: Currency :: a.Value() == b.Value() ==> a == b
  {
  }

  /** Every currency code is upper case, so upper-casing leaves it unchanged. */
  lemma CurrencyValueIsUpper(c: Currency)
    ensures Text.ToUpper(c.Value()) == c.Value()
  {
    Text.ToUpperFixes(c.Value());
  }

  /** The single provider value is lower case, so lower-casing leaves it unchanged. */
  lemma ProviderValueIsLower(p: PaymentProvider)
    ensures ParsePaymentProvider(p.Value()) == Some(p)
    ensures Text.ToLower(p.Value()) == p.Value()
  {
    Text.ToLowerFixes(p.Value());
  }
}
