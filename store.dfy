/** The database tables the services read and write: products keyed by id, and
    the orders (each owning its items) in insertion order. */
module Store {
  import opened Products
  import opened Orders

  /** The table invariants: product keys are the products' own ids and below the
      auto-increment counter; order ids auto-increment from 1; `order_id` is
      unique, as the column's unique index demands. */
  ghost predicate WellFormed(products: map<int, Product>, orders: seq<Order>, nextProductId: int) {
    && (forall id :: id in products ==> products[id].id == id && id < nextProductId)
    && (forall i :: 0 <= i < |orders| ==> orders[i].id == i + 1)
    && (forall i, j :: 0 <= i < j < |orders| ==> orders[i].orderId != orders[j].orderId)
  }

  class Database {
    var products: map<int, Product>
    var orders: seq<Order>
    /** The next auto-increment product id. */
    var nextProductId: int

    ghost predicate Valid()
      reads this
    {
      WellFormed(products, orders, nextProductId)
    }

    constructor ()
      ensures Valid()
      ensures products == map[] && orders == [] && nextProductId == 1
    {
      products := map[];
      orders := [];
      nextProductId := 1;
    }
  }
}
