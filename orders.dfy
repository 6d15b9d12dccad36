/** The order collaborator the payments core calls (orders/services.py is not
    part of this model). Only what the payments code and the orders tests
    rely on is modelled: an order's status, items and audit trail, and the
    `pay_order` / `cancel_order` transitions as the tests pin them down.
    pending -> paid and pending -> cancelled are the only transitions. */
module Orders {
  import opened Wrappers
  import opened Choices
  import Models

  /** A line item; `unitPrice` in cents, None for a null price. */
  datatype OrderItem = OrderItem(unitPrice: Option<int>, quantity: int)

  /** One audit-trail entry of a status change. */
  datatype StatusEvent = StatusEvent(from: OrderStatus, to: OrderStatus)

  /** An order; `number` is "" when the order has none; `events` is newest first. */
  datatype Order = Order(
    id: int,
    userId: int,
    number: string,
    email: string,
    status: OrderStatus,
    items: seq<OrderItem>,
    events: seq<StatusEvent>)

  datatype OrderError = OrderNotFound | CannotPayCancelled | CannotCancelPaid

  /** `pay_order`: a no-op on a paid order, refused on a cancelled one, and
      otherwise the order becomes paid with one new audit event. */
  function Pay(o: Order): (r: Result<Order, OrderError>)
    ensures r.Failure? <==> o.status == OrderStatus.Cancelled
    ensures r.Success? ==> r.value.status == OrderStatus.Paid
    ensures r.Success? ==> r.value.(status := o.status, events := o.events) == o
    ensures r.Success? && o.status == OrderStatus.Paid ==> r.value == o
    ensures r.Success? && o.status == OrderStatus.Pending ==>
              r.value.events == [StatusEvent(OrderStatus.Pending, OrderStatus.Paid)] + o.events
  {
    match o.status
    case Paid => Success(o)
    case Cancelled => Failure(CannotPayCancelled)
    case Pending => Success(o.(status := OrderStatus.Paid, events := [StatusEvent(OrderStatus.Pending, OrderStatus.Paid)] + o.events))
  }

  /** `cancel_order`: a no-op on a cancelled order, refused on a paid one, and
      otherwise the order becomes cancelled with one new audit event. */
  function Cancel(o: Order): (r: Result<Order, OrderError>)
    ensures r.Failure? <==> o.status == OrderStatus.Paid
    ensures r.Success? ==> r.value.status == OrderStatus.Cancelled
    ensures r.Success? ==> r.value.(status := o.status, events := o.events) == o
    ensures r.Success? && o.status == OrderStatus.Cancelled ==> r.value == o
    ensures r.Success? && o.status == OrderStatus.Pending ==>
              r.value.events == [StatusEvent(OrderStatus.Pending, OrderStatus.Cancelled)] + o.events
  {
    match o.status
    case Cancelled => Success(o)
    case Paid => Failure(CannotCancelPaid)
    case Pending => Success(o.(status := OrderStatus.Cancelled, events := [StatusEvent(OrderStatus.Pending, OrderStatus.Cancelled)] + o.events))
  }

  /** Paying is idempotent, and a paid order can no longer be cancelled. */
  lemma PayIdempotentAndTerminal(o: Order)
    requires Pay(o).Success?
    ensures Pay(Pay(o).value) == Pay(o)
    ensures Cancel(Pay(o).value).Failure?
  {
  }

  /** Cancelling is idempotent, and a cancelled order can no longer be paid. */
  lemma CancelIdempotentAndTerminal(o: Order)
    requires Cancel(o).Success?
    ensures Cancel(Cancel(o).value) == Cancel(o)
    ensures Pay(Cancel(o).value).Failure?
  {
  }

  /** The order map after `pay_order` on the order with this id: unchanged
      when the order is missing or the payment is refused. */
  function PayResult(orders: map<int, Order>, id: int): Result<Order, OrderError> {
    if id in orders then Pay(orders[id]) else Failure(OrderNotFound)
  }

  function AfterPay(orders: map<int, Order>, id: int): (m: map<int, Order>)
    ensures m.Keys == orders.Keys
    ensures forall j :: j in orders && j != id ==> m[j] == orders[j]
    ensures PayResult(orders, id).Success? ==> m[id] == PayResult(orders, id).value
    ensures PayResult(orders, id).Failure? ==> m == orders
  {
    match PayResult(orders, id)
    case Success(o) => orders[id := o]
    case Failure(_) => orders
  }

  function CancelResult(orders: map<int, Order>, id: int): Result<Order, OrderError> {
    if id in orders then Cancel(orders[id]) else Failure(OrderNotFound)
  }

  /** `pay_order` applied `n` times to the same order. */
  function RepeatPay(orders: map<int, Order>, id: int, n: nat): (m: map<int, Order>)
    ensures m.Keys == orders.Keys
  {
    if n == 0 then orders else AfterPay(RepeatPay(orders, id, n - 1), id)
  }

  /** A second `pay_order` on the same order changes nothing. */
  lemma AfterPayIdempotent(orders: map<int, Order>, id: int)
    ensures AfterPay(AfterPay(orders, id), id) == AfterPay(orders, id)
  {
    if id in orders && Pay(orders[id]).Success? {
      PayIdempotentAndTerminal(orders[id]);
    }
  }

  /** Whatever the number of repeated payments (a webhook delivered many
      times), the effect is that of one: an order is paid, and its audit
      trail extended, at most once. */
  lemma {:induction false} RepeatedPayEqualsOnce(orders: map<int, Order>, id: int, n: nat)
    requires n >= 1
    ensures RepeatPay(orders, id, n) == AfterPay(orders, id)
  {
    if n > 1 {
      RepeatedPayEqualsOnce(orders, id, n - 1);
      AfterPayIdempotent(orders, id);
    }
  }

  /** One call of `pay_order`, with the payment intent rows as they stood
      when the call was made. */
  datatype PayCall = PayCall(orderId: int, intentRows: seq<Models.IntentRow>)

  /** The order table, updated in place by the transitions. `payLog` is a
      ghost record of the `pay_order` calls, each taken by the call itself. */
  class OrderTable {
    var orders: map<int, Order>
    ghost var payLog: seq<PayCall>

    constructor (initial: map<int, Order>)
      ensures orders == initial && payLog == []
    {
      orders := initial;
      payLog := [];
    }

    method PayOrder(id: int, ghost intents: Models.IntentTable) returns (r: Result<Order, OrderError>)
      modifies this
      ensures r == PayResult(old(orders), id)
      ensures orders == AfterPay(old(orders), id)
      ensures payLog == old(payLog) + [PayCall(id, intents.rows)]
    {
      payLog := payLog + [PayCall(id, intents.rows)];
      if id !in orders {
        return Failure(OrderNotFound);
      }
      r := Pay(orders[id]);
      if r.Success? {
        orders := orders[id := r.value];
      }
    }

    method CancelOrder(id: int) returns (r: Result<Order, OrderError>)
      modifies this
      ensures r == CancelResult(old(orders), id)
      ensures orders == if r.Success? then old(orders)[id := r.value] else old(orders)
      ensures payLog == old(payLog)
    {
      if id !in orders {
        return Failure(OrderNotFound);
      }
      r := Cancel(orders[id]);
      if r.Success? {
        orders := orders[id := r.value];
      }
    }
  }
}
