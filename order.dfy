/** An order and its line items (app/Models/Order.php). Amounts are integer
    cents, because `total_amount` is cast to a two-place decimal. */
module Orders {
  import opened Wrappers

  // Order lifecycle statuses.
  const Pending: string := "pending"
  const Processing: string := "processing"
  const Completed: string := "completed"
  const Cancelled: string := "cancelled"
  const Failed: string := "failed"

  // Payment statuses.
  const PaymentPending: string := "pending"
  const PaymentSuccess: string := "success"
  const PaymentFailed: string := "failed"
  const PaymentCancelled: string := "cancelled"

  /** A clock reading, as `now()` would give it. */
  type Timestamp = int

  /** One line: the unit price is a snapshot taken when the order was placed. */
  datatype OrderItem = OrderItem(productId: int, quantity: int, price: int, subtotal: int)

  datatype Order = Order(
    id: int,
    userId: int,
    orderId: string,
    totalAmount: int,
    status: string,
    paymentStatus: string,
    dingerTransactionId: Option<string>,
    dingerProviderName: Option<string>,
    dingerMethodName: Option<string>,
    paymentCompletedAt: Option<Timestamp>,
    paymentFailedAt: Option<Timestamp>,
    paymentFailureReason: Option<string>,
    items: seq<OrderItem>)
  {
    /** `isPaid()`: a paid order is never also pending payment. */
    function IsPaid(): (b: bool)
      ensures b <==> paymentStatus == "success"
      ensures b ==> !IsPendingPayment()
    {
      paymentStatus == PaymentSuccess
    }

    /** `isPendingPayment()` */
    function IsPendingPayment(): (b: bool)
      ensures b <==> paymentStatus == "pending"
    {
      paymentStatus == PaymentPending
    }

    /** `isCompleted()`: decided by the order status, whatever the payment status. */
    function IsCompleted(): (b: bool)
      ensures b <==> status == "completed"
    {
      status == Completed
    }
  }

  /** The sum of the lines' subtotals: none gives 0, and non-negative
      subtotals give a non-negative total. */
  function Total(items: seq<OrderItem>): (t: int)
    ensures items == [] ==> t == 0
    ensures (forall i :: 0 <= i < |items| ==> items[i].subtotal >= 0) ==> t >= 0
    decreases |items|
  {
    if items == [] then 0 else Total(items[..|items| - 1]) + items[|items| - 1].subtotal
  }

  lemma TotalAppend(items: seq<OrderItem>, item: OrderItem)
    ensures Total(items + [item]) == Total(items) + item.subtotal
  {
    assert (items + [item])[..|items|] == items;
  }

  lemma PaidIsNotPending(o: Order)
    ensures !(o.IsPaid() && o.IsPendingPayment())
  {}

  lemma CompletedIgnoresPaymentStatus(o: Order, paymentStatus: string)
    ensures o.(paymentStatus := paymentStatus).IsCompleted() == o.IsCompleted()
  {}
}
