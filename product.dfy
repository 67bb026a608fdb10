/** A catalogue product (app/Models/Product.php). Prices are integer cents,
    because the `price` column is cast to a two-place decimal. */
module Products {
  import opened Wrappers

  const Active: string := "active"
  const Inactive: string := "inactive"

  datatype Product = Product(
    id: int,
    name: string,
    description: Option<string>,
    price: int,
    stock: int,
    imageUrl: Option<string>,
    status: string)
  {
    /** `isAvailable()`: active and at least one unit in stock. */
    function IsAvailable(): (b: bool)
      ensures b <==> status == Active && HasStock(1)
    {
      status == Active && stock > 0
    }

    /** `hasStock($quantity)`: taking that many units leaves no negative stock. */
    function HasStock(quantity: int): (b: bool)
      ensures b <==> stock - quantity >= 0
    {
      stock >= quantity
    }
  }

  lemma InactiveNeverAvailable(p: Product)
    requires p.status != Active
    ensures !p.IsAvailable()
  {}

  lemma AvailableHasOneUnit(p: Product)
    requires p.IsAvailable()
    ensures p.HasStock(1)
  {}

  lemma HasStockDownwardClosed(p: Product, q: int, q': int)
    requires p.HasStock(q) && q' <= q
    ensures p.HasStock(q')
  {}
}
