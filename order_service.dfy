/** Order workflow (app/Services/OrderService.php): order creation against the
    product table, the payment-status transition, the status update and the
    order queries. */
module OrderService {
  import opened Wrappers
  import opened Php
  import opened Products
  import opened Orders
  import opened Errors
  import opened Store

  /** One requested line: `['product_id' => …, 'quantity' => …]`. */
  datatype ItemRequest = ItemRequest(productId: int, quantity: int)

  /* ---------------- createOrder ---------------- */

  /** The checks on one requested item, in the order the code makes them. */
  function ItemError(products: map<int, Product>, item: ItemRequest): (r: Option<ServiceError>)
    ensures r.None? <==>
      item.productId in products
      && products[item.productId].IsAvailable()
      && products[item.productId].HasStock(item.quantity)
  {
    if item.productId !in products then Some(ProductNotFound(item.productId))
    else if !products[item.productId].IsAvailable() then Some(ProductUnavailable(products[item.productId].name))
    else if !products[item.productId].HasStock(item.quantity) then Some(InsufficientStock(products[item.productId].name))
    else None
  }

  /** The line an accepted item becomes: price snapshot and subtotal. */
  function Snapshot(product: Product, item: ItemRequest): OrderItem {
    OrderItem(item.productId, item.quantity, product.price, product.price * item.quantity)
  }

  /** The validation loop of `createOrder`: the first failing item's error, or
      one snapshot line per requested item, in request order. */
  function CheckItems(products: map<int, Product>, items: seq<ItemRequest>): (r: Result<seq<OrderItem>, ServiceError>)
    ensures r.Success? <==> forall i :: 0 <= i < |items| ==> ItemError(products, items[i]).None?
    ensures r.Success? ==>
      && |r.value| == |items|
      && forall i :: 0 <= i < |items| ==>
           items[i].productId in products && r.value[i] == Snapshot(products[items[i].productId], items[i])
    ensures r.Failure? ==>
      exists i :: 0 <= i < |items| && ItemError(products, items[i]) == Some(r.error)
        && forall j :: 0 <= j < i ==> ItemError(products, items[j]).None?
    decreases |items|
  {
    if items == [] then Success([])
    else
      var init := items[..|items| - 1];
      var last := items[|items| - 1];
      var prefix := CheckItems(products, init);
      assert forall i :: 0 <= i < |init| ==> init[i] == items[i];
      if prefix.Failure? then prefix
      else match ItemError(products, last)
        case Some(e) => Failure(e)
        case None => Success(prefix.value + [Snapshot(products[last.productId], last)])
  }

  /** Once a prefix of the request fails, the whole request fails the same way. */
  lemma {:induction false} CheckItemsFailureSticks(products: map<int, Product>, items: seq<ItemRequest>, k: nat)
    requires k <= |items|
    requires CheckItems(products, items[..k]).Failure?
    ensures CheckItems(products, items) == CheckItems(products, items[..k])
    decreases |items| - k
  {
    if k < |items| {
      var init := items[..|items| - 1];
      assert init[..k] == items[..k];
      CheckItemsFailureSticks(products, init, k);
    } else {
      assert items[..k] == items;
    }
  }

  /** How many units of `productId` the lines take. */
  function Reserved(lines: seq<OrderItem>, productId: int): int
    decreases |lines|
  {
    if lines == [] then 0
    else Reserved(lines[..|lines| - 1], productId)
         + (if lines[|lines| - 1].productId == productId then lines[|lines| - 1].quantity else 0)
  }

  /** The second loop of `createOrder`: each line re-reads its product and
      lowers the stock by the line's quantity. */
  function Decrement(products: map<int, Product>, lines: seq<OrderItem>): (r: map<int, Product>)
    ensures r.Keys == products.Keys
    decreases |lines|
  {
    if lines == [] then products
    else
      var m := Decrement(products, lines[..|lines| - 1]);
      var line := lines[|lines| - 1];
      if line.productId in m then m[line.productId := m[line.productId].(stock := m[line.productId].stock - line.quantity)]
      else m
  }

  /** After the insert loop a product's stock is lowered by exactly the units
      the lines take from it, and nothing else about it changes. */
  lemma {:induction false} DecrementLowersByReserved(products: map<int, Product>, lines: seq<OrderItem>, pid: int)
    requires pid in products
    ensures Decrement(products, lines)[pid] == products[pid].(stock := products[pid].stock - Reserved(lines, pid))
    decreases |lines|
  {
    if lines != [] {
      DecrementLowersByReserved(products, lines[..|lines| - 1], pid);
    }
  }

  /** Products no line refers to take no units. */
  lemma {:induction false} ReservedUnreferenced(lines: seq<OrderItem>, productId: int)
    requires forall i :: 0 <= i < |lines| ==> lines[i].productId != productId
    ensures Reserved(lines, productId) == 0
    decreases |lines|
  {
    if lines != [] {
      ReservedUnreferenced(lines[..|lines| - 1], productId);
    }
  }

  /** With distinct product ids, a product takes exactly its one line's quantity. */
  lemma {:induction false} ReservedDistinct(lines: seq<OrderItem>, k: nat)
    requires k < |lines|
    requires forall i, j :: 0 <= i < j < |lines| ==> lines[i].productId != lines[j].productId
    ensures Reserved(lines, lines[k].productId) == lines[k].quantity
    decreases |lines|
  {
    var init := lines[..|lines| - 1];
    if k == |lines| - 1 {
      ReservedUnreferenced(init, lines[k].productId);
    } else {
      ReservedDistinct(init, k);
    }
  }

  /** Distinct product ids keep every stock non-negative: each check then
      covers the whole of what is taken from that product. */
  lemma {:induction false} DistinctItemsKeepStockNonNegative(products: map<int, Product>, items: seq<ItemRequest>)
    requires CheckItems(products, items).Success?
    requires forall i, j :: 0 <= i < j < |items| ==> items[i].productId != items[j].productId
    requires forall pid :: pid in products ==> products[pid].stock >= 0
    ensures forall pid :: pid in products ==> Decrement(products, CheckItems(products, items).value)[pid].stock >= 0
  {
    var lines := CheckItems(products, items).value;
    forall pid | pid in products
      ensures Decrement(products, lines)[pid].stock >= 0
    {
      DecrementLowersByReserved(products, lines, pid);
      if k :| 0 <= k < |lines| && lines[k].productId == pid {
        ReservedDistinct(lines, k);
        assert ItemError(products, items[k]).None?;
      } else {
        ReservedUnreferenced(lines, pid);
      }
    }
  }

  /** The check reads the stock before any decrement, so a product id repeated
      in one request can take the stock below zero. */
  lemma RepeatedItemCanOverdraw()
    ensures var products := map[7 := Product(7, "Mug", None, 1500, 1, None, Active)];
            var items := [ItemRequest(7, 1), ItemRequest(7, 1)];
            && CheckItems(products, items).Success?
            && Decrement(products, CheckItems(products, items).value)[7].stock == -1
  {
    var products := map[7 := Product(7, "Mug", None, 1500, 1, None, Active)];
    var items := [ItemRequest(7, 1), ItemRequest(7, 1)];
    assert CheckItems(products, items[..1]).Success?;
    var lines := CheckItems(products, items).value;
    assert Reserved(lines[..1], 7) == 1;
    DecrementLowersByReserved(products, lines, 7);
  }

  /** The sum of snapshot price times quantity, read straight off the request. */
  function SnapshotSum(products: map<int, Product>, items: seq<ItemRequest>): int
    decreases |items|
  {
    if items == [] then 0
    else
      var last := items[|items| - 1];
      SnapshotSum(products, items[..|items| - 1])
      + (if last.productId in products then products[last.productId].price * last.quantity else 0)
  }

  /** The order total is the sum over the request of snapshot price times quantity. */
  lemma {:induction false} TotalIsSnapshotSum(products: map<int, Product>, items: seq<ItemRequest>)
    requires CheckItems(products, items).Success?
    ensures Total(CheckItems(products, items).value) == SnapshotSum(products, items)
    decreases |items|
  {
    if items != [] {
      var init := items[..|items| - 1];
      var last := items[|items| - 1];
      var lines := CheckItems(products, items).value;
      assert CheckItems(products, init).Success?;
      TotalIsSnapshotSum(products, init);
      assert lines[..|lines| - 1] == CheckItems(products, init).value;
      assert lines[|lines| - 1] == Snapshot(products[last.productId], last);
      assert Total(lines) == Total(lines[..|lines| - 1]) + lines[|lines| - 1].subtotal;
    }
  }

  /** One more accepted item extends the lines by its snapshot. */
  lemma CheckItemsStep(products: map<int, Product>, items: seq<ItemRequest>, i: nat, lines: seq<OrderItem>)
    requires i < |items|
    requires CheckItems(products, items[..i]) == Success(lines)
    requires ItemError(products, items[i]).None?
    ensures CheckItems(products, items[..i + 1]) == Success(lines + [Snapshot(products[items[i].productId], items[i])])
  {
    assert items[..i + 1][..i] == items[..i];
  }

  /** A failing item ends the whole request with its error. */
  lemma StopsAt(products: map<int, Product>, items: seq<ItemRequest>, i: nat, lines: seq<OrderItem>)
    requires i < |items|
    requires CheckItems(products, items[..i]) == Success(lines)
    requires ItemError(products, items[i]).Some?
    ensures CheckItems(products, items) == Failure(ItemError(products, items[i]).value)
  {
    assert items[..i + 1][..i] == items[..i];
    CheckItemsFailureSticks(products, items, i + 1);
  }

  /** One more line lowers its product's stock by its quantity. */
  lemma DecrementStep(products: map<int, Product>, lines: seq<OrderItem>, k: nat, m: map<int, Product>)
    requires k < |lines|
    requires m == Decrement(products, lines[..k]) && lines[k].productId in m
    ensures Decrement(products, lines[..k + 1])
        == m[lines[k].productId := m[lines[k].productId].(stock := m[lines[k].productId].stock - lines[k].quantity)]
  {
    assert lines[..k + 1][..k] == lines[..k];
  }

  /** `'ORDER-' . time() . '-' . $userId . '-' . uniqid()`: the `ORDER-` prefix,
      and the unique part at the end. */
  function NewOrderId(clock: int, userId: int, uniq: string): (r: string)
    ensures |r| > 6 + |uniq| && r[..6] == "ORDER-" && r[|r| - |uniq|..] == uniq
  {
    "ORDER-" + IntToString(clock) + "-" + IntToString(userId) + "-" + uniq
  }

  /** The row `createOrder` inserts: pending on both statuses, no payment data. */
  function NewOrder(id: int, userId: int, orderId: string, lines: seq<OrderItem>): (o: Order)
    ensures o.id == id && o.userId == userId && o.orderId == orderId
    ensures o.status == Pending && o.paymentStatus == PaymentPending
    ensures o.dingerTransactionId.None? && o.dingerProviderName.None? && o.dingerMethodName.None?
    ensures o.paymentCompletedAt.None? && o.paymentFailedAt.None? && o.paymentFailureReason.None?
    ensures !o.IsPaid() && o.IsPendingPayment() && !o.IsCompleted()
    ensures o.totalAmount == Total(lines) && o.items == lines
  {
    Order(id, userId, orderId, Total(lines), Pending, PaymentPending, None, None, None, None, None, None, lines)
  }

  /** The validation loop of `createOrder`: checks each item in turn, stops at
      the first failure, and accumulates the lines and the total. */
  method PriceItems(products: map<int, Product>, items: seq<ItemRequest>)
    returns (r: Result<seq<OrderItem>, ServiceError>, totalAmount: int)
    ensures r == CheckItems(products, items)
    ensures r.Success? ==> totalAmount == Total(r.value)
  {
    var lines: seq<OrderItem> := [];
    totalAmount := 0;
    var i := 0;
    while i < |items|
      invariant 0 <= i <= |items|
      invariant CheckItems(products, items[..i]) == Success(lines)
      invariant totalAmount == Total(lines)
    {
      var item := items[i];
      if item.productId !in products {
        r := Failure(ProductNotFound(item.productId));
        assert r == CheckItems(products, items) by { StopsAt(products, items, i, lines); }
        return;
      }
      var product := products[item.productId];
      if !product.IsAvailable() {
        r := Failure(ProductUnavailable(product.name));
        assert r == CheckItems(products, items) by { StopsAt(products, items, i, lines); }
        return;
      }
      if !product.HasStock(item.quantity) {
        r := Failure(InsufficientStock(product.name));
        assert r == CheckItems(products, items) by { StopsAt(products, items, i, lines); }
        return;
      }
      var line := OrderItem(item.productId, item.quantity, product.price, product.price * item.quantity);
      assert CheckItems(products, items[..i + 1]) == Success(lines + [line]) by {
        CheckItemsStep(products, items, i, lines);
      }
      assert Total(lines + [line]) == totalAmount + line.subtotal by {
        TotalAppend(lines, line);
      }
      totalAmount := totalAmount + line.subtotal;
      lines := lines + [line];
      i := i + 1;
    }
    assert items[..|items|] == items;
    r := Success(lines);
  }

  /** The insertion loop of `createOrder`: each line joins the newest order and
      lowers its product's stock. */
  method InsertLines(db: Database, lines: seq<OrderItem>)
    requires |db.orders| > 0
    requires forall i :: 0 <= i < |lines| ==> lines[i].productId in db.products
    modifies db
    ensures db.products == Decrement(old(db.products), lines)
    ensures var n := |old(db.orders)| - 1;
      db.orders == old(db.orders)[n := old(db.orders)[n].(items := old(db.orders)[n].items + lines)]
    ensures db.nextProductId == old(db.nextProductId)
  {
    ghost var products0, orders0 := db.products, db.orders;
    var n := |db.orders| - 1;
    var newest := db.orders[n];
    var items := newest.items;
    assert items + lines[..0] == items;
    var k := 0;
    while k < |lines|
      invariant 0 <= k <= |lines|
      invariant items == newest.items + lines[..k]
      invariant db.orders == orders0[n := newest.(items := items)]
      invariant db.products == Decrement(products0, lines[..k])
      invariant db.nextProductId == old(db.nextProductId)
    {
      var line := lines[k];
      assert newest.items + lines[..k + 1] == items + [line] by {
        assert lines[..k + 1] == lines[..k] + [line];
      }
      var product := db.products[line.productId];
      var lowered := db.products[line.productId := product.(stock := product.stock - line.quantity)];
      DecrementStep(products0, lines, k, db.products);
      items := items + [line];
      db.orders := db.orders[n := newest.(items := items)];
      db.products := lowered;
      k := k + 1;
    }
    assert lines[..|lines|] == lines;
  }

  /** A created order keeps the tables well formed. */
  lemma CreateKeepsWellFormed(products: map<int, Product>, orders: seq<Order>, nextProductId: int,
                              lines: seq<OrderItem>, order: Order)
    requires WellFormed(products, orders, nextProductId)
    requires order.id == |orders| + 1
    requires forall i :: 0 <= i < |orders| ==> orders[i].orderId != order.orderId
    ensures WellFormed(Decrement(products, lines), orders + [order], nextProductId)
  {
    var ps := Decrement(products, lines);
    forall id | id in ps ensures ps[id].id == id && id < nextProductId {
      DecrementLowersByReserved(products, lines, id);
    }
    var os := orders + [order];
    forall i, j | 0 <= i < j < |os| ensures os[i].orderId != os[j].orderId {
      if j < |orders| {
        assert os[i] == orders[i] && os[j] == orders[j];
      }
    }
  }

  /** The writes of `createOrder` once every item passed: the order row, then
      its lines with their stock decrements. */
  method InsertOrder(db: Database, userId: int, orderId: string, lines: seq<OrderItem>, totalAmount: int)
    returns (created: Order)
    requires db.Valid()
    requires forall i :: 0 <= i < |db.orders| ==> db.orders[i].orderId != orderId
    requires forall i :: 0 <= i < |lines| ==> lines[i].productId in db.products
    requires totalAmount == Total(lines)
    modifies db
    ensures db.Valid()
    ensures created == NewOrder(|old(db.orders)| + 1, userId, orderId, lines)
    ensures db.orders == old(db.orders) + [created]
    ensures db.products == Decrement(old(db.products), lines)
    ensures db.nextProductId == old(db.nextProductId)
  {
    var order := Order(|db.orders| + 1, userId, orderId, totalAmount,
                       Pending, PaymentPending, None, None, None, None, None, None, []);
    created := order.(items := lines);
    CreateKeepsWellFormed(db.products, db.orders, db.nextProductId, lines, created);
    ghost var os := db.orders;
    db.orders := db.orders + [order];
    InsertLines(db, lines);
    assert order.items + lines == lines;
    assert db.orders == os + [created];
  }

  /** `createOrder($userId, $items)`, as one transaction. `clock` and `uniq` stand
      for `time()` and `uniqid()`. */
  method CreateOrder(db: Database, userId: int, items: seq<ItemRequest>, clock: int, uniq: string)
    returns (r: Result<Order, ServiceError>)
    requires db.Valid()
    requires forall i :: 0 <= i < |db.orders| ==> db.orders[i].orderId != NewOrderId(clock, userId, uniq)
    modifies db
    ensures db.Valid()
    ensures db.nextProductId == old(db.nextProductId)
    ensures var checked := CheckItems(old(db.products), items);
      checked.Failure? ==>
        r == Failure(checked.error) && db.products == old(db.products) && db.orders == old(db.orders)
    ensures var checked := CheckItems(old(db.products), items);
      checked.Success? ==>
        && r == Success(NewOrder(|old(db.orders)| + 1, userId, NewOrderId(clock, userId, uniq), checked.value))
        && db.orders == old(db.orders) + [r.value]
        && db.products == Decrement(old(db.products), checked.value)
  {
    var checked, totalAmount := PriceItems(db.products, items);
    if checked.Failure? {
      return Failure(checked.error);
    }
    var lines := checked.value;
    assert forall i :: 0 <= i < |lines| ==> lines[i].productId == items[i].productId;
    var order := InsertOrder(db, userId, NewOrderId(clock, userId, uniq), lines, totalAmount);
    r := Success(order);
  }

  /* ---------------- queries ---------------- */

  /** The `where` conditions the order repository queries by. */
  datatype OrderWhere =
    | IdIs(id: int)
    | OrderIdIs(orderId: string)
    | OrderIdAndUserIs(orderId: string, userId: int)
    | StatusIs(status: string)
    | PaymentStatusIs(paymentStatus: string)
    | UserIs(userId: int)
  {
    predicate Holds(o: Order) {
      match this
      case IdIs(id) => o.id == id
      case OrderIdIs(oid) => o.orderId == oid
      case OrderIdAndUserIs(oid, uid) => o.orderId == oid && o.userId == uid
      case StatusIs(st) => o.status == st
      case PaymentStatusIs(ps) => o.paymentStatus == ps
      case UserIs(uid) => o.userId == uid
    }
  }

  /** `->first()`: the index of the first order that satisfies the condition. */
  function First(orders: seq<Order>, where: OrderWhere): (r: Option<nat>)
    ensures r.None? <==> forall i :: 0 <= i < |orders| ==> !where.Holds(orders[i])
    ensures r.Some? ==>
      && r.value < |orders| && where.Holds(orders[r.value])
      && forall i :: 0 <= i < r.value ==> !where.Holds(orders[i])
    decreases |orders|
  {
    if orders == [] then None
    else if where.Holds(orders[0]) then Some(0)
    else match First(orders[1..], where)
      case None => None
      case Some(i) => Some(i + 1)
  }

  /** `->get()`: the orders that satisfy the condition, in table order. */
  function Where(orders: seq<Order>, where: OrderWhere): (r: seq<Order>)
    ensures |r| <= |orders|
    ensures forall o :: o in r <==> o in orders && where.Holds(o)
    decreases |orders|
  {
    if orders == [] then []
    else
      var rest := Where(orders[..|orders| - 1], where);
      var last := orders[|orders| - 1];
      assert orders == orders[..|orders| - 1] + [last];
      if where.Holds(last) then rest + [last] else rest
  }

  /** `getOrderById($id)` */
  function GetOrderById(orders: seq<Order>, id: int): (r: Result<Order, ServiceError>)
    ensures r.Success? <==> exists i :: 0 <= i < |orders| && orders[i].id == id
    ensures r.Success? ==> r.value in orders && r.value.id == id
    ensures r.Failure? ==> r.error == OrderNotFound(id) && r.error.IsNotFound()
  {
    match First(orders, IdIs(id))
    case Some(i) => Success(orders[i])
    case None => Failure(OrderNotFound(id))
  }

  /** `getOrderByOrderId($orderId)` */
  function GetOrderByOrderId(orders: seq<Order>, orderId: string): (r: Result<Order, ServiceError>)
    ensures r.Success? <==> exists i :: 0 <= i < |orders| && orders[i].orderId == orderId
    ensures r.Success? ==> r.value in orders && r.value.orderId == orderId
    ensures r.Failure? ==> r.error == OrderIdNotFound(orderId) && r.error.IsNotFound()
  {
    match First(orders, OrderIdIs(orderId))
    case Some(i) => Success(orders[i])
    case None => Failure(OrderIdNotFound(orderId))
  }

  /** `getOrderByOrderIdAndUserId($orderId, $userId)`: another user's order is not found. */
  function GetOrderByOrderIdAndUserId(orders: seq<Order>, orderId: string, userId: int): (r: Result<Order, ServiceError>)
    ensures r.Success? <==> exists i :: 0 <= i < |orders| && orders[i].orderId == orderId && orders[i].userId == userId
    ensures r.Success? ==> r.value in orders && r.value.orderId == orderId && r.value.userId == userId
    ensures r.Failure? ==> r.error == OrderNotFoundForUser(orderId)
  {
    match First(orders, OrderIdAndUserIs(orderId, userId))
    case Some(i) => Success(orders[i])
    case None => Failure(OrderNotFoundForUser(orderId))
  }

  /** With `order_id` unique, the order found by `order_id` is the only one that has it. */
  lemma {:induction false} OrderIdFindsTheOnlyMatch(orders: seq<Order>, orderId: string, k: nat)
    requires forall i, j :: 0 <= i < j < |orders| ==> orders[i].orderId != orders[j].orderId
    requires k < |orders| && orders[k].orderId == orderId
    ensures First(orders, OrderIdIs(orderId)) == Some(k)
  {
    var f := First(orders, OrderIdIs(orderId));
    assert f.Some?;
    if f.value != k {
      assert false;
    }
  }

  /** The filters an order listing accepts; `None` is an unset key. */
  datatype OrderFilters = OrderFilters(status: Option<string>, paymentStatus: Option<string>)

  /** The repository query `getAllOrders` dispatches to. */
  datatype OrderQuery = ByStatus(status: string) | ByPaymentStatus(paymentStatus: string) | AllOrders

  /** `getAllOrders($filters)`: a status filter wins over a payment-status filter,
      which wins over no filter. */
  function SelectOrderQuery(filters: OrderFilters): (q: OrderQuery)
    ensures filters.status.Some? ==> q == ByStatus(filters.status.value)
    ensures filters.status.None? && filters.paymentStatus.Some? ==> q == ByPaymentStatus(filters.paymentStatus.value)
    ensures filters.status.None? && filters.paymentStatus.None? ==> q == AllOrders
  {
    if filters.status.Some? then ByStatus(filters.status.value)
    else if filters.paymentStatus.Some? then ByPaymentStatus(filters.paymentStatus.value)
    else AllOrders
  }

  /** The orders `getAllOrders($filters)` lists (pagination and ordering aside). */
  function GetAllOrders(orders: seq<Order>, filters: OrderFilters): (r: seq<Order>)
    ensures filters.status.Some? ==>
      forall o :: o in r <==> o in orders && o.status == filters.status.value
    ensures filters.status.None? && filters.paymentStatus.Some? ==>
      forall o :: o in r <==> o in orders && o.paymentStatus == filters.paymentStatus.value
    ensures filters.status.None? && filters.paymentStatus.None? ==> r == orders
  {
    match SelectOrderQuery(filters)
    case ByStatus(st) => Where(orders, StatusIs(st))
    case ByPaymentStatus(ps) => Where(orders, PaymentStatusIs(ps))
    case AllOrders => orders
  }

  /** `getOrdersByUserId($userId, $filters)`: the user's orders; with a status
      filter, each order of another status is replaced by null in place, since
      the result of `filter()` is discarded. */
  function GetOrdersByUserId(orders: seq<Order>, userId: int, filters: OrderFilters): (r: seq<Option<Order>>)
    ensures var mine := Where(orders, UserIs(userId));
      && |r| == |mine|
      && forall i :: 0 <= i < |r| ==>
           r[i] == (if filters.status.None? || mine[i].status == filters.status.value then Some(mine[i]) else None)
  {
    var mine := Where(orders, UserIs(userId));
    seq(|mine|, i requires 0 <= i < |mine| =>
      if filters.status.Some? && mine[i].status != filters.status.value then None else Some(mine[i]))
  }

  /* ---------------- state transitions ---------------- */

  /** The optional keys of `$paymentData`; `None` is an unset key. */
  datatype PaymentExtras = PaymentExtras(
    failureReason: Option<string>,
    transactionId: Option<string>,
    providerName: Option<string>,
    methodName: Option<string>)

  /** The row `updatePaymentStatus` writes. */
  function ApplyPaymentStatus(o: Order, paymentStatus: string, extras: PaymentExtras, now: Timestamp): (r: Order)
    // identity, money and lines are never touched
    ensures r.id == o.id && r.userId == o.userId && r.orderId == o.orderId
    ensures r.totalAmount == o.totalAmount && r.items == o.items
    // the payment status is always overwritten, with no guard on the old one
    ensures r.paymentStatus == paymentStatus
    ensures paymentStatus == PaymentSuccess ==>
      && r.status == Processing && r.paymentCompletedAt == Some(now)
      && r.paymentFailedAt == o.paymentFailedAt && r.paymentFailureReason == o.paymentFailureReason
    ensures paymentStatus == PaymentFailed || paymentStatus == PaymentCancelled ==>
      && r.status == Failed && r.paymentFailedAt == Some(now) && r.paymentCompletedAt == o.paymentCompletedAt
      && r.paymentFailureReason == extras.failureReason.OrElse(o.paymentFailureReason)
    ensures paymentStatus !in {PaymentSuccess, PaymentFailed, PaymentCancelled} ==>
      && r.status == o.status && r.paymentCompletedAt == o.paymentCompletedAt
      && r.paymentFailedAt == o.paymentFailedAt && r.paymentFailureReason == o.paymentFailureReason
    // gateway metadata is overwritten only when supplied
    ensures r.dingerTransactionId == extras.transactionId.OrElse(o.dingerTransactionId)
    ensures r.dingerProviderName == extras.providerName.OrElse(o.dingerProviderName)
    ensures r.dingerMethodName == extras.methodName.OrElse(o.dingerMethodName)
  {
    var settled :=
      if paymentStatus == PaymentSuccess then
        o.(paymentCompletedAt := Some(now), status := Processing)
      else if paymentStatus in [PaymentFailed, PaymentCancelled] then
        o.(paymentFailedAt := Some(now), status := Failed,
           paymentFailureReason := extras.failureReason.OrElse(o.paymentFailureReason))
      else o;
    settled.(
      paymentStatus := paymentStatus,
      dingerTransactionId := extras.transactionId.OrElse(o.dingerTransactionId),
      dingerProviderName := extras.providerName.OrElse(o.dingerProviderName),
      dingerMethodName := extras.methodName.OrElse(o.dingerMethodName))
  }

  /** The settlement invariant: a successful payment has a completion time and
      an order that has not failed; a failed or cancelled one has a failure time
      and a failed order. */
  ghost predicate PaymentConsistent(o: Order) {
    && (o.paymentStatus == PaymentSuccess ==> o.paymentCompletedAt.Some? && o.status != Failed)
    && (o.paymentStatus in {PaymentFailed, PaymentCancelled} ==> o.paymentFailedAt.Some? && o.status == Failed)
  }

  /** Whatever the order looked like, a payment-status update leaves it consistent. */
  lemma ApplyPaymentStatusIsConsistent(o: Order, paymentStatus: string, extras: PaymentExtras, now: Timestamp)
    ensures PaymentConsistent(ApplyPaymentStatus(o, paymentStatus, extras, now))
  {}

  /** Repeating an update with the same arguments and clock changes nothing more. */
  lemma ApplyPaymentStatusIdempotent(o: Order, paymentStatus: string, extras: PaymentExtras, now: Timestamp)
    ensures var once := ApplyPaymentStatus(o, paymentStatus, extras, now);
      ApplyPaymentStatus(once, paymentStatus, extras, now) == once
  {}

  /** A second success at a later clock moves the completion time: the
      timestamp records the last success, not the first. */
  lemma RepeatedSuccessMovesCompletionTime(o: Order, extras: PaymentExtras, t1: Timestamp, t2: Timestamp)
    ensures ApplyPaymentStatus(ApplyPaymentStatus(o, PaymentSuccess, extras, t1), PaymentSuccess, extras, t2).paymentCompletedAt == Some(t2)
  {}

  /** There is no monotonicity guard: a late pending update after a success
      takes the payment status back to pending while the order stays processing. */
  lemma NoGuardAgainstRegression(o: Order, extras: PaymentExtras, t1: Timestamp, t2: Timestamp)
    ensures var paid := ApplyPaymentStatus(o, PaymentSuccess, extras, t1);
      var back := ApplyPaymentStatus(paid, PaymentPending, extras, t2);
      paid.IsPaid() && back.IsPendingPayment() && !back.IsPaid() && back.status == Processing
  {}

  /** `updatePaymentStatus($orderId, $paymentStatus, $paymentData)`; `now` stands for `now()`. */
  method UpdatePaymentStatus(db: Database, orderId: string, paymentStatus: string, extras: PaymentExtras, now: Timestamp)
    returns (r: Result<Order, ServiceError>)
    requires db.Valid()
    modifies db
    ensures db.Valid()
    ensures db.products == old(db.products) && db.nextProductId == old(db.nextProductId)
    ensures First(old(db.orders), OrderIdIs(orderId)).None? ==>
      r == Failure(OrderIdNotFound(orderId)) && db.orders == old(db.orders)
    ensures First(old(db.orders), OrderIdIs(orderId)).Some? ==>
      var i := First(old(db.orders), OrderIdIs(orderId)).value;
      && r == Success(ApplyPaymentStatus(old(db.orders)[i], paymentStatus, extras, now))
      && db.orders == old(db.orders)[i := r.value]
  {
    var found := First(db.orders, OrderIdIs(orderId));
    if found.None? {
      return Failure(OrderIdNotFound(orderId));
    }
    var i := found.value;
    var updated := ApplyPaymentStatus(db.orders[i], paymentStatus, extras, now);
    db.orders := db.orders[i := updated];
    r := Success(updated);
  }

  /** `updateOrderStatus($id, $status)`: any status, no rule beyond existence. */
  method UpdateOrderStatus(db: Database, id: int, status: string) returns (r: Result<Order, ServiceError>)
    requires db.Valid()
    modifies db
    ensures db.Valid()
    ensures db.products == old(db.products) && db.nextProductId == old(db.nextProductId)
    ensures First(old(db.orders), IdIs(id)).None? ==>
      r == Failure(OrderNotFound(id)) && db.orders == old(db.orders)
    ensures First(old(db.orders), IdIs(id)).Some? ==>
      var i := First(old(db.orders), IdIs(id)).value;
      && r == Success(old(db.orders)[i].(status := status))
      && db.orders == old(db.orders)[i := r.value]
  {
    var found := First(db.orders, IdIs(id));
    if found.None? {
      return Failure(OrderNotFound(id));
    }
    var i := found.value;
    var updated := db.orders[i].(status := status);
    db.orders := db.orders[i := updated];
    r := Success(updated);
  }
}
