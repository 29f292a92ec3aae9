/** A stock-keeping product: price, stock, critical-stock level and the guarded
    mutators that keep price and stock from going negative. */
module Products {

  /** The fields of a product as a value. `id` never changes once created. */
  datatype ProductData = ProductData(
    id: int,
    name: string,
    category: string,
    price: real,
    stock: int,
    unit: string,
    criticalStock: int,
    costPrice: real,
    active: bool)

  /** What the guarded mutators keep: neither price nor stock is negative.
      The constructors do not check it. */
  predicate Sound(p: ProductData) {
    p.price >= 0.0 && p.stock >= 0
  }

  /** Critical stock: at or below the threshold (the boundary is critical). */
  predicate Critical(p: ProductData) {
    p.stock <= p.criticalStock
  }

  predicate OutOfStock(p: ProductData) {
    p.stock == 0
  }

  /** The value of the stock on hand, price times quantity. */
  function StockValue(p: ProductData): (r: real)
    ensures Sound(p) ==> r >= 0.0
    ensures p.stock == 0 ==> r == 0.0
  {
    p.price * p.stock as real
  }

  /** `setPrice` and `updatePrice`: a negative price is ignored. */
  function PriceSet(p: ProductData, newPrice: real): (r: ProductData)
    ensures r == p.(price := r.price)
    ensures newPrice >= 0.0 ==> r.price == newPrice
    ensures newPrice < 0.0 ==> r == p
    ensures p.price >= 0.0 ==> r.price >= 0.0
  {
    if newPrice >= 0.0 then p.(price := newPrice) else p
  }

  /** `setStock`: a negative stock is ignored. */
  function StockSet(p: ProductData, newStock: int): (r: ProductData)
    ensures r == p.(stock := r.stock)
    ensures newStock >= 0 ==> r.stock == newStock
    ensures newStock < 0 ==> r == p
    ensures p.stock >= 0 ==> r.stock >= 0
  {
    if newStock >= 0 then p.(stock := newStock) else p
  }

  /** `addStock`: only a positive quantity is added. */
  function StockAdded(p: ProductData, quantity: int): (r: ProductData)
    ensures r == p.(stock := r.stock)
    ensures quantity > 0 ==> r.stock == p.stock + quantity
    ensures quantity <= 0 ==> r == p
    ensures r.stock >= p.stock
  {
    if quantity > 0 then p.(stock := p.stock + quantity) else p
  }

  /** `subtractStock`: succeeds exactly when 0 < quantity <= stock; a failed
      call changes nothing. */
  function StockSubtracted(p: ProductData, quantity: int): (r: (bool, ProductData))
    ensures r.0 <==> 0 < quantity <= p.stock
    ensures r.0 ==> r.1 == p.(stock := p.stock - quantity)
    ensures !r.0 ==> r.1 == p
    ensures p.stock >= 0 ==> r.1.stock >= 0
    ensures r.1.stock <= p.stock
  {
    if quantity > 0 && p.stock >= quantity then (true, p.(stock := p.stock - quantity))
    else (false, p)
  }

  /** `applyDiscount`: acts only for a percentage in (0, 100] and never raises
      a non-negative price nor makes it negative. */
  function DiscountApplied(p: ProductData, percentage: real): (r: ProductData)
    ensures r == p.(price := r.price)
    ensures !(0.0 < percentage <= 100.0) ==> r == p
    ensures 0.0 < percentage <= 100.0 ==> r.price == p.price * (1.0 - percentage / 100.0)
    ensures p.price >= 0.0 ==> 0.0 <= r.price <= p.price
  {
    if percentage > 0.0 && percentage <= 100.0 then
      var factor := 1.0 - percentage / 100.0;
      ScaleBounds(p.price, factor);
      p.(price := p.price * factor)
    else p
  }

  /** `increasePrice`: acts only for a positive percentage and never lowers a
      non-negative price. */
  function PriceIncreased(p: ProductData, percentage: real): (r: ProductData)
    ensures r == p.(price := r.price)
    ensures percentage <= 0.0 ==> r == p
    ensures percentage > 0.0 ==> r.price == p.price * (1.0 + percentage / 100.0)
    ensures p.price >= 0.0 ==> r.price >= p.price
  {
    if percentage > 0.0 then
      var factor := 1.0 + percentage / 100.0;
      GrowBounds(p.price, factor);
      p.(price := p.price * factor)
    else p
  }

  lemma ScaleBounds(a: real, f: real)
    requires 0.0 <= f <= 1.0
    ensures a >= 0.0 ==> 0.0 <= a * f <= a
  {
    if a >= 0.0 {
      assert a * f <= a * 1.0;
    }
  }

  lemma GrowBounds(a: real, f: real)
    requires f >= 1.0
    ensures a >= 0.0 ==> a * f >= a
  {
    if a >= 0.0 {
      assert a * f >= a * 1.0;
    }
  }

  /** From a non-negative stock, adding a positive quantity and subtracting it
      again succeeds and restores the product. (From a negative stock, which the
      constructor admits, the subtraction fails.) */
  lemma AddThenSubtract(p: ProductData, quantity: int)
    requires quantity > 0 && p.stock >= 0
    ensures StockSubtracted(StockAdded(p, quantity), quantity) == (true, p)
  {
    var added := StockAdded(p, quantity);
    assert added.(stock := added.stock - quantity) == p;
  }

  /** A successful subtraction is undone by adding the same quantity back. */
  lemma SubtractThenAdd(p: ProductData, quantity: int)
    requires StockSubtracted(p, quantity).0
    ensures StockAdded(StockSubtracted(p, quantity).1, quantity) == p
  {
  }

  /** The stock mutators and price mutators of the class, as data. */
  datatype ProductOp =
    | SetPrice(newPrice: real)
    | UpdatePrice(newPrice: real)
    | SetStock(newStock: int)
    | AddStock(quantity: int)
    | SubtractStock(quantity: int)
    | ApplyDiscount(percentage: real)
    | IncreasePrice(percentage: real)

  function Apply(p: ProductData, op: ProductOp): (r: ProductData)
    ensures r == p.(price := r.price, stock := r.stock)
    ensures Sound(p) ==> Sound(r)
  {
    match op
    case SetPrice(x) => PriceSet(p, x)
    case UpdatePrice(x) => PriceSet(p, x)
    case SetStock(s) => StockSet(p, s)
    case AddStock(q) => StockAdded(p, q)
    case SubtractStock(q) => StockSubtracted(p, q).1
    case ApplyDiscount(x) => DiscountApplied(p, x)
    case IncreasePrice(x) => PriceIncreased(p, x)
  }

  /** The product after a sequence of mutator calls, first call first. */
  function ApplyAll(p: ProductData, ops: seq<ProductOp>): ProductData
    decreases |ops|
  {
    if ops == [] then p else ApplyAll(Apply(p, ops[0]), ops[1..])
  }

  /** Starting from a sound product, no sequence of mutator calls makes price or
      stock negative, and none of them touches a field other than price and stock. */
  lemma {:induction false} ApplyAllKeepsSound(p: ProductData, ops: seq<ProductOp>)
    requires Sound(p)
    ensures Sound(ApplyAll(p, ops))
    ensures ApplyAll(p, ops) == p.(price := ApplyAll(p, ops).price, stock := ApplyAll(p, ops).stock)
    decreases |ops|
  {
    if ops != [] {
      ApplyAllKeepsSound(Apply(p, ops[0]), ops[1..]);
    }
  }

  /** The stock-only mutators `setStock`, `addStock` and `subtractStock` keep a
      non-negative stock non-negative, whatever the price does. */
  lemma {:induction false} StockNeverNegative(p: ProductData, ops: seq<ProductOp>)
    requires p.stock >= 0
    requires forall i :: 0 <= i < |ops| ==> ops[i].SetStock? || ops[i].AddStock? || ops[i].SubtractStock?
    ensures ApplyAll(p, ops).stock >= 0
    ensures ApplyAll(p, ops).price == p.price
    decreases |ops|
  {
    if ops != [] {
      StockNeverNegative(Apply(p, ops[0]), ops[1..]);
    }
  }

  lemma CriticalBoundary(p: ProductData)
    ensures Critical(p.(stock := p.criticalStock))
    ensures !Critical(p.(stock := p.criticalStock + 1))
    ensures OutOfStock(p) <==> p.stock == 0
  {
  }

  /** A product as the Java class holds it: fields updated in place. */
  class Product {
    const id: int
    var name: string
    var category: string
    var price: real
    var stock: int
    var unit: string
    var criticalStock: int
    var costPrice: real
    var active: bool

    function Data(): ProductData
      reads this
    {
      ProductData(id, name, category, price, stock, unit, criticalStock, costPrice, active)
    }

    /** The eight-argument constructor the manager calls; like the Java
        constructors it stores its arguments unchecked and starts active. */
    constructor (id: int, name: string, category: string, price: real, stock: int,
                 unit: string, criticalStock: int, costPrice: real)
      ensures Data() == ProductData(id, name, category, price, stock, unit, criticalStock, costPrice, true)
    {
      this.id := id;
      this.name := name;
      this.category := category;
      this.price := price;
      this.stock := stock;
      this.unit := unit;
      this.criticalStock := criticalStock;
      this.costPrice := costPrice;
      this.active := true;
    }

    method SetPrice(newPrice: real)
      modifies this
      ensures Data() == PriceSet(old(Data()), newPrice)
    {
      if newPrice >= 0.0 {
        price := newPrice;
      }
    }

    method UpdatePrice(newPrice: real)
      modifies this
      ensures Data() == PriceSet(old(Data()), newPrice)
    {
      if newPrice >= 0.0 {
        price := newPrice;
      }
    }

    method SetStock(newStock: int)
      modifies this
      ensures Data() == StockSet(old(Data()), newStock)
    {
      if newStock >= 0 {
        stock := newStock;
      }
    }

    method AddStock(quantity: int)
      modifies this
      ensures Data() == StockAdded(old(Data()), quantity)
    {
      if quantity > 0 {
        stock := stock + quantity;
      }
    }

    method SubtractStock(quantity: int) returns (ok: bool)
      modifies this
      ensures (ok, Data()) == StockSubtracted(old(Data()), quantity)
    {
      ok := false;
      if quantity > 0 && stock >= quantity {
        stock := stock - quantity;
        ok := true;
      }
    }

    method ApplyDiscount(percentage: real)
      modifies this
      ensures Data() == DiscountApplied(old(Data()), percentage)
    {
      if percentage > 0.0 && percentage <= 100.0 {
        price := price * (1.0 - percentage / 100.0);
      }
    }

    method IncreasePrice(percentage: real)
      modifies this
      ensures Data() == PriceIncreased(old(Data()), percentage)
    {
      if percentage > 0.0 {
        price := price * (1.0 + percentage / 100.0);
      }
    }

    predicate IsCriticalStock()
      reads this
    {
      Critical(Data())
    }

    predicate IsOutOfStock()
      reads this
    {
      OutOfStock(Data())
    }

    function CalculateTotalValue(): real
      reads this
    {
      StockValue(Data())
    }
  }
}
