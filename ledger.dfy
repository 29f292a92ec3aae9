/** The inventory ledger as a value: the product and customer maps, the
    transaction list, the stock-alert list and the three id counters, with one
    function per operation of the data manager and the reports it answers. */
module Ledgers {
  import opened Products
  import opened Customers
  import opened Transactions

  datatype Option<T> = None | Some(value: T)

  /** A critical-stock alert: the fields its message is formatted from. */
  datatype StockAlert = StockAlert(productId: int, productName: string, stock: int,
                                   unit: string, criticalLevel: int)

  datatype Ledger = Ledger(
    products: map<int, ProductData>,
    customers: map<int, CustomerData>,
    transactions: seq<TransactionData>,
    alerts: seq<StockAlert>,
    nextProductId: int,
    nextCustomerId: int,
    nextTransactionId: int)

  /** The ids, in ledger order, of the transactions recorded against a customer. */
  function OrderIds(txs: seq<TransactionData>, customerId: int): seq<int>
    decreases |txs|
  {
    if txs == [] then []
    else
      var last := txs[|txs| - 1];
      OrderIds(txs[..|txs| - 1], customerId) + (if last.customerId == customerId then [last.id] else [])
  }

  /** What every manager operation keeps:
      - each map key is its entity's id, and ids lie below their counter;
      - transactions are numbered 1, 2, ... in ledger order and refer to
        customer ids that have been handed out;
      - debt is never negative;
      - each customer's history lists exactly the ids of their transactions. */
  predicate WellFormed(s: Ledger) {
    1 <= s.nextProductId && 1 <= s.nextCustomerId
    && (forall k :: k in s.products ==> s.products[k].id == k && 1 <= k < s.nextProductId)
    && (forall k :: k in s.customers ==>
          s.customers[k].id == k && 1 <= k < s.nextCustomerId && s.customers[k].debt >= 0.0
          && s.customers[k].orderHistory == OrderIds(s.transactions, k))
    && s.nextTransactionId == |s.transactions| + 1
    && (forall i :: 0 <= i < |s.transactions| ==>
          s.transactions[i].id == i + 1 && s.transactions[i].customerId < s.nextCustomerId)
  }

  /** A freshly constructed manager, before any seed data. */
  function Empty(): (s: Ledger)
    ensures WellFormed(s)
    ensures s.products == map[] && s.customers == map[] && s.transactions == [] && s.alerts == []
  {
    Ledger(map[], map[], [], [], 1, 1, 1)
  }

  /** `checkStockAlert`: one alert for a critical product, none otherwise. */
  function AlertFor(p: ProductData): (r: seq<StockAlert>)
    ensures |r| <= 1
    ensures r != [] <==> Critical(p)
    ensures r != [] ==> r[0].productId == p.id && r[0].stock == p.stock && r[0].criticalLevel == p.criticalStock
  {
    if Critical(p) then [StockAlert(p.id, p.name, p.stock, p.unit, p.criticalStock)] else []
  }

  // ---------------------------------------------------------------------------
  // Products

  /** `addProduct`: the new product gets the current counter value, the counter
      moves on, and an alert is raised when the product starts out critical. */
  function AddProduct(s: Ledger, name: string, category: string, price: real, stock: int,
                      unit: string, criticalLevel: int, costPrice: real): (r: Ledger)
    ensures WellFormed(s) ==> WellFormed(r) && s.nextProductId !in s.products
    ensures s.nextProductId in r.products
    ensures r.products == s.products[s.nextProductId := r.products[s.nextProductId]]
    ensures r.products[s.nextProductId] ==
            ProductData(s.nextProductId, name, category, price, stock, unit, criticalLevel, costPrice, true)
    ensures r.nextProductId == s.nextProductId + 1
    ensures r.alerts == s.alerts + AlertFor(r.products[s.nextProductId])
    ensures r == s.(products := r.products, nextProductId := r.nextProductId, alerts := r.alerts)
  {
    var p := ProductData(s.nextProductId, name, category, price, stock, unit, criticalLevel, costPrice, true);
    s.(products := s.products[p.id := p], nextProductId := s.nextProductId + 1,
       alerts := s.alerts + AlertFor(p))
  }

  /** `updateProduct`: renames and re-prices an existing product (the price
      through the guarded setter); stock is not touched and no alert is checked. */
  function UpdateProduct(s: Ledger, id: int, name: string, category: string, price: real,
                         unit: string, criticalLevel: int, costPrice: real): (r: (Ledger, bool))
    ensures r.1 <==> id in s.products
    ensures !r.1 ==> r.0 == s
    ensures r.1 ==> id in r.0.products && r.0 == s.(products := s.products[id := r.0.products[id]])
    ensures r.1 ==>
      r.0.products[id] == PriceSet(s.products[id], price).(name := name, category := category, unit := unit,
                                                           criticalStock := criticalLevel, costPrice := costPrice)
    ensures r.1 ==> r.0.products[id].stock == s.products[id].stock
    ensures WellFormed(s) ==> WellFormed(r.0)
  {
    if id !in s.products then (s, false)
    else
      var p := s.products[id];
      var p1 := PriceSet(p.(name := name, category := category), price);
      var p2 := p1.(unit := unit, criticalStock := criticalLevel, costPrice := costPrice);
      (s.(products := s.products[id := p2]), true)
  }

  /** `updateProductPrice`: a negative price leaves the product as it was. */
  function UpdateProductPrice(s: Ledger, id: int, newPrice: real): (r: (Ledger, bool))
    ensures r.1 <==> id in s.products
    ensures !r.1 ==> r.0 == s
    ensures r.1 ==> r.0 == s.(products := s.products[id := PriceSet(s.products[id], newPrice)])
    ensures WellFormed(s) ==> WellFormed(r.0)
  {
    if id !in s.products then (s, false)
    else (s.(products := s.products[id := PriceSet(s.products[id], newPrice)]), true)
  }

  /** `updateProductStock`: sets the stock through the guarded setter and then
      checks the alert, even when the setter ignored a negative value. */
  function UpdateProductStock(s: Ledger, id: int, newStock: int): (r: (Ledger, bool))
    ensures r.1 <==> id in s.products
    ensures !r.1 ==> r.0 == s
    ensures r.1 ==> r.0.products == s.products[id := StockSet(s.products[id], newStock)]
    ensures r.1 ==> r.0.alerts == s.alerts + AlertFor(r.0.products[id])
    ensures r.1 ==> r.0 == s.(products := r.0.products, alerts := r.0.alerts)
    ensures WellFormed(s) ==> WellFormed(r.0)
  {
    if id !in s.products then (s, false)
    else
      var p := StockSet(s.products[id], newStock);
      (s.(products := s.products[id := p], alerts := s.alerts + AlertFor(p)), true)
  }

  /** `deleteProduct`: removes the entry only; transactions that refer to it stay. */
  function DeleteProduct(s: Ledger, id: int): (r: (Ledger, bool))
    ensures r.1 <==> id in s.products
    ensures r.0 == s.(products := s.products - {id})
    ensures id !in r.0.products
    ensures WellFormed(s) ==> WellFormed(r.0)
  {
    (s.(products := s.products - {id}), id in s.products)
  }

  /** The price `bulkUpdatePrices` writes through `setPrice`. */
  function ScaledPrice(p: ProductData, percentage: real): (r: ProductData)
    ensures r == PriceSet(p, p.price * (1.0 + percentage / 100.0))
  {
    PriceSet(p, p.price * (1.0 + percentage / 100.0))
  }

  /** `bulkUpdatePrices`: every product is re-priced by the percentage; one whose
      new price would be negative keeps its old price, so non-negative prices
      stay non-negative; nothing but prices changes. */
  function BulkUpdatePrices(s: Ledger, percentage: real): (r: Ledger)
    ensures r.products.Keys == s.products.Keys
    ensures forall k :: k in s.products ==> r.products[k] == ScaledPrice(s.products[k], percentage)
    ensures forall k :: k in s.products ==> r.products[k] == s.products[k].(price := r.products[k].price)
    ensures forall k :: k in s.products && s.products[k].price >= 0.0 ==> r.products[k].price >= 0.0
    ensures r == s.(products := r.products)
    ensures WellFormed(s) ==> WellFormed(r)
  {
    s.(products := map k | k in s.products :: ScaledPrice(s.products[k], percentage))
  }

  /** `clearStockAlerts`: the only operation that removes alerts. */
  function ClearStockAlerts(s: Ledger): (r: Ledger)
    ensures r == s.(alerts := [])
    ensures WellFormed(s) ==> WellFormed(r)
  {
    s.(alerts := [])
  }

  /** `getCriticalStockProducts`, by id. */
  function CriticalProductIds(ps: map<int, ProductData>): (r: set<int>)
    ensures forall k :: k in r <==> k in ps && Critical(ps[k])
  {
    set k | k in ps && Critical(ps[k])
  }

  // ---------------------------------------------------------------------------
  // Customers

  lemma {:induction false} NoOrdersOfUnusedId(txs: seq<TransactionData>, customerId: int)
    requires forall i :: 0 <= i < |txs| ==> txs[i].customerId < customerId
    ensures OrderIds(txs, customerId) == []
    decreases |txs|
  {
    if txs != [] {
      NoOrdersOfUnusedId(txs[..|txs| - 1], customerId);
    }
  }

  /** `addCustomer`: a fresh id from the counter, no debt and an empty history;
      the special discount is stored unchecked, as the full constructor does. */
  function AddCustomer(s: Ledger, name: string, phone: string, email: string, address: string,
                       customerType: CustomerType, specialDiscount: real): (r: Ledger)
    ensures WellFormed(s) ==> WellFormed(r) && s.nextCustomerId !in s.customers
    ensures s.nextCustomerId in r.customers
    ensures r.customers == s.customers[s.nextCustomerId := r.customers[s.nextCustomerId]]
    ensures r.customers[s.nextCustomerId] ==
            CustomerData(s.nextCustomerId, name, phone, email, address, 0.0, customerType, specialDiscount, [], true)
    ensures r.nextCustomerId == s.nextCustomerId + 1
    ensures r == s.(customers := r.customers, nextCustomerId := r.nextCustomerId)
  {
    var c := CustomerData(s.nextCustomerId, name, phone, email, address, 0.0, customerType, specialDiscount, [], true);
    var r := s.(customers := s.customers[c.id := c], nextCustomerId := s.nextCustomerId + 1);
    if WellFormed(s) then
      NoOrdersOfUnusedId(s.transactions, c.id);
      r
    else r
  }

  /** `updateCustomer`: profile fields are replaced; the discount goes through
      the guarded setter; debt and history are kept. */
  function UpdateCustomer(s: Ledger, id: int, name: string, phone: string, email: string,
                          address: string, customerType: CustomerType, specialDiscount: real): (r: (Ledger, bool))
    ensures r.1 <==> id in s.customers
    ensures !r.1 ==> r.0 == s
    ensures r.1 ==> id in r.0.customers && r.0 == s.(customers := s.customers[id := r.0.customers[id]])
    ensures r.1 ==>
      r.0.customers[id] == DiscountRateSet(s.customers[id], specialDiscount).(name := name, phone := phone,
                                                                              email := email, address := address,
                                                                              customerType := customerType)
    ensures r.1 ==> r.0.customers[id].debt == s.customers[id].debt
    ensures r.1 ==> r.0.customers[id].orderHistory == s.customers[id].orderHistory
    ensures WellFormed(s) ==> WellFormed(r.0)
  {
    if id !in s.customers then (s, false)
    else
      var c := s.customers[id].(name := name, phone := phone, email := email, address := address,
                                customerType := customerType);
      (s.(customers := s.customers[id := DiscountRateSet(c, specialDiscount)]), true)
  }

  function DeleteCustomer(s: Ledger, id: int): (r: (Ledger, bool))
    ensures r.1 <==> id in s.customers
    ensures r.0 == s.(customers := s.customers - {id})
    ensures id !in r.0.customers
    ensures WellFormed(s) ==> WellFormed(r.0)
  {
    (s.(customers := s.customers - {id}), id in s.customers)
  }

  // ---------------------------------------------------------------------------
  // Transactions

  lemma OrderIdsAppend(txs: seq<TransactionData>, t: TransactionData, customerId: int)
    ensures OrderIds(txs + [t], customerId) ==
            OrderIds(txs, customerId) + (if t.customerId == customerId then [t.id] else [])
  {
    assert (txs + [t])[..|txs|] == txs;
  }

  /** The effect of a transaction on its product: a sale subtracts through the
      guarded `subtractStock`, a purchase adds through `addStock`, any other
      kind leaves the stock alone. */
  function StockAfter(kind: TransactionType, p: ProductData, quantity: int): (r: ProductData)
    ensures r == p.(stock := r.stock)
  {
    match kind
    case Sale => StockSubtracted(p, quantity).1
    case Purchase => StockAdded(p, quantity)
    case Other => p
  }

  /** The record a successful `createTransaction` appends: the next id, the
      name snapshots, the price through the customer's discount, completed. */
  function NewRecord(s: Ledger, kind: TransactionType, customerId: int, productId: int,
                     quantity: int): (t: TransactionData)
    requires customerId in s.customers && productId in s.products
    ensures t.id == s.nextTransactionId && t.txType == kind && t.status == Completed
    ensures t.customerId == customerId && t.productId == productId && t.quantity == quantity
    ensures t.unitPrice == SpecialPrice(s.customers[customerId], s.products[productId].price)
    ensures t.total == t.unitPrice * quantity as real
  {
    var c := s.customers[customerId];
    var p := s.products[productId];
    var finalPrice := SpecialPrice(c, p.price);
    NewTransaction(s.nextTransactionId, kind, customerId, c.name, productId, p.name,
                   quantity, finalPrice, finalPrice * quantity as real)
  }

  /** The ledger after a successful `createTransaction`: the stock and debt
      effects, the record appended, the id in the customer's history and the
      product's alert checked. */
  function Recorded(s: Ledger, kind: TransactionType, customerId: int, productId: int,
                    quantity: int): (r: Ledger)
    requires customerId in s.customers && productId in s.products
  {
    var c := s.customers[customerId];
    var p := s.products[productId];
    var t := NewRecord(s, kind, customerId, productId, quantity);
    var p1 := StockAfter(kind, p, quantity);
    var c1 := if kind == Sale then DebtAdded(c, t.total) else c;
    s.(products := s.products[productId := p1],
       customers := s.customers[customerId := OrderAdded(c1, t.id)],
       transactions := s.transactions + [t],
       alerts := s.alerts + AlertFor(p1),
       nextTransactionId := s.nextTransactionId + 1)
  }

  /** A ledger whose parts are those of `Recorded` is that ledger. */
  lemma RecordedParts(s: Ledger, kind: TransactionType, customerId: int, productId: int,
                      quantity: int, r: Ledger)
    requires customerId in s.customers && productId in s.products
    requires var t := NewRecord(s, kind, customerId, productId, quantity);
      var p1 := StockAfter(kind, s.products[productId], quantity);
      var c1 := if kind == Sale then DebtAdded(s.customers[customerId], t.total) else s.customers[customerId];
      && r.products == s.products[productId := p1]
      && r.customers == s.customers[customerId := OrderAdded(c1, t.id)]
      && r.transactions == s.transactions + [t]
      && r.alerts == s.alerts + AlertFor(p1)
      && r.nextProductId == s.nextProductId && r.nextCustomerId == s.nextCustomerId
      && r.nextTransactionId == s.nextTransactionId + 1
    ensures r == Recorded(s, kind, customerId, productId, quantity)
  {
  }

  /** `createTransaction`. It fails, changing nothing, when the customer or the
      product is unknown or when a sale asks for more than the stock; otherwise
      it records a completed transaction at the next id, priced through the
      customer's discount, applies the stock and debt effects, appends the id
      to the customer's history and checks the product's alert. */
  function CreateTransaction(s: Ledger, kind: TransactionType, customerId: int, productId: int,
                             quantity: int): (r: (Ledger, Option<TransactionData>))
    ensures r.1.None? <==>
            customerId !in s.customers || productId !in s.products
            || (kind == Sale && s.products[productId].stock < quantity)
    ensures r.1.None? ==> r.0 == s
    ensures r.1.Some? ==> r == (Recorded(s, kind, customerId, productId, quantity),
                                Some(NewRecord(s, kind, customerId, productId, quantity)))
    ensures WellFormed(s) ==> WellFormed(r.0)
  {
    if customerId !in s.customers || productId !in s.products then (s, None)
    else if kind == Sale && s.products[productId].stock < quantity then (s, None)
    else
      var r := Recorded(s, kind, customerId, productId, quantity);
      var t := NewRecord(s, kind, customerId, productId, quantity);
      if WellFormed(s) then
        CreatePreservesWellFormed(s, r, t, customerId);
        (r, Some(t))
      else (r, Some(t))
  }

  lemma CreatePreservesWellFormed(s: Ledger, r: Ledger, t: TransactionData, customerId: int)
    requires WellFormed(s)
    requires customerId in s.customers && t.customerId == customerId && t.id == s.nextTransactionId
    requires r.nextTransactionId == s.nextTransactionId + 1 && r.transactions == s.transactions + [t]
    requires r.nextCustomerId == s.nextCustomerId && r.nextProductId == s.nextProductId
    requires r.customers.Keys == s.customers.Keys
    requires forall k :: k in r.customers && k != customerId ==> r.customers[k] == s.customers[k]
    requires r.customers[customerId].id == customerId && r.customers[customerId].debt >= 0.0
    requires r.customers[customerId].orderHistory == s.customers[customerId].orderHistory + [t.id]
    requires forall k :: k in r.products ==> r.products[k].id == k && 1 <= k < r.nextProductId
    ensures WellFormed(r)
  {
    forall k | k in r.customers
      ensures r.customers[k].orderHistory == OrderIds(r.transactions, k)
    {
      OrderIdsAppend(s.transactions, t, k);
    }
  }

  /** The ledger after a successful transaction, in terms of the entities it
      touched: the record is appended at the end, the counter moves by one, the
      customer's history gets the new id, and no other product or customer
      changes. */
  lemma CreateTransactionSuccess(s: Ledger, kind: TransactionType, customerId: int, productId: int,
                                 quantity: int)
    requires CreateTransaction(s, kind, customerId, productId, quantity).1.Some?
    ensures var (r, t) := CreateTransaction(s, kind, customerId, productId, quantity);
      var c := s.customers[customerId];
      var p := s.products[productId];
      && t.value.id == s.nextTransactionId
      && t.value.unitPrice == SpecialPrice(c, p.price)
      && t.value.total == t.value.unitPrice * quantity as real
      && t.value.customerName == c.name && t.value.productName == p.name
      && t.value.status == Completed && t.value.txType == kind
      && r.transactions == s.transactions + [t.value]
      && r.nextTransactionId == s.nextTransactionId + 1
      && r.nextProductId == s.nextProductId && r.nextCustomerId == s.nextCustomerId
      && r.customers[customerId].orderHistory == c.orderHistory + [t.value.id]
      && r.products == s.products[productId := r.products[productId]]
      && r.customers == s.customers[customerId := r.customers[customerId]]
      && r.alerts == s.alerts + AlertFor(r.products[productId])
  {
  }

  /** A successful sale subtracts the quantity from the stock (the guarded
      subtraction acts when the quantity is positive) and adds the total to the
      debt (the guarded addition acts when the total is positive). */
  lemma SaleEffect(s: Ledger, customerId: int, productId: int, quantity: int)
    requires CreateTransaction(s, Sale, customerId, productId, quantity).1.Some?
    ensures var (r, t) := CreateTransaction(s, Sale, customerId, productId, quantity);
      && s.products[productId].stock >= quantity
      && r.products[productId] == s.products[productId].(stock := r.products[productId].stock)
      && (quantity > 0 ==> r.products[productId].stock == s.products[productId].stock - quantity)
      && (quantity <= 0 ==> r.products[productId].stock == s.products[productId].stock)
      && (t.value.total > 0.0 ==> r.customers[customerId].debt == s.customers[customerId].debt + t.value.total)
      && (t.value.total <= 0.0 ==> r.customers[customerId].debt == s.customers[customerId].debt)
      && (s.products[productId].stock >= 0 ==> r.products[productId].stock >= 0)
  {
  }

  /** A purchase adds the quantity to the stock and leaves the debt alone; any
      other kind changes neither. */
  lemma PurchaseAndOtherEffect(s: Ledger, kind: TransactionType, customerId: int, productId: int,
                               quantity: int)
    requires kind != Sale
    requires customerId in s.customers && productId in s.products
    ensures var (r, t) := CreateTransaction(s, kind, customerId, productId, quantity);
      && t.Some?
      && r.customers[customerId].debt == s.customers[customerId].debt
      && (kind == Purchase && quantity > 0 ==>
            r.products[productId].stock == s.products[productId].stock + quantity)
      && (kind == Other || quantity <= 0 ==> r.products[productId] == s.products[productId])
  {
  }

  /** `updateTransactionStatus`: the first transaction with the id, if any. */
  function FindTransaction(txs: seq<TransactionData>, id: int): (r: int)
    ensures -1 <= r < |txs|
    ensures r >= 0 ==> txs[r].id == id && forall j :: 0 <= j < r ==> txs[j].id != id
    ensures r < 0 ==> forall j :: 0 <= j < |txs| ==> txs[j].id != id
    decreases |txs|
  {
    if txs == [] then -1
    else if txs[0].id == id then 0
    else
      var r := FindTransaction(txs[1..], id);
      if r < 0 then -1 else r + 1
  }

  lemma {:induction false} OrderIdsIgnoreStatus(txs: seq<TransactionData>, i: int, status: TransactionStatus,
                                                customerId: int)
    requires 0 <= i < |txs|
    ensures OrderIds(txs[i := StatusSet(txs[i], status)], customerId) == OrderIds(txs, customerId)
    decreases |txs|
  {
    var u := txs[i := StatusSet(txs[i], status)];
    var n := |txs| - 1;
    if i < n {
      OrderIdsIgnoreStatus(txs[..n], i, status, customerId);
      assert u[..n] == txs[..n][i := StatusSet(txs[i], status)];
    } else {
      assert u[..n] == txs[..n];
    }
  }

  /** `updateTransactionStatus`: changes the status of the first transaction
      with the id and nothing else; reports whether there was one. */
  function UpdateTransactionStatus(s: Ledger, id: int, status: TransactionStatus): (r: (Ledger, bool))
    ensures r.1 <==> exists j :: 0 <= j < |s.transactions| && s.transactions[j].id == id
    ensures !r.1 ==> r.0 == s
    ensures r.1 ==> var j := FindTransaction(s.transactions, id);
      r.0 == s.(transactions := s.transactions[j := StatusSet(s.transactions[j], status)])
    ensures WellFormed(s) ==> WellFormed(r.0)
  {
    var j := FindTransaction(s.transactions, id);
    if j < 0 then (s, false)
    else
      var r := s.(transactions := s.transactions[j := StatusSet(s.transactions[j], status)]);
      if WellFormed(s) then
        forall k | k in s.customers
          ensures OrderIds(r.transactions, k) == OrderIds(s.transactions, k)
        {
          OrderIdsIgnoreStatus(s.transactions, j, status, k);
        }
        (r, true)
      else (r, true)
  }

  /** In a well-formed ledger every transaction id below the counter is found,
      at the position its number gives. */
  lemma UpdateExistingStatus(s: Ledger, id: int, status: TransactionStatus)
    requires WellFormed(s) && 1 <= id < s.nextTransactionId
    ensures FindTransaction(s.transactions, id) == id - 1
    ensures var r := UpdateTransactionStatus(s, id, status);
      r.1 && r.0.transactions[id - 1] == StatusSet(s.transactions[id - 1], status)
  {
    assert s.transactions[id - 1].id == id;
  }

  /** In a well-formed ledger ids are pairwise distinct within each collection. */
  lemma IdsDistinct(s: Ledger)
    requires WellFormed(s)
    ensures forall a, b :: a in s.products && b in s.products && a != b ==> s.products[a].id != s.products[b].id
    ensures forall a, b :: a in s.customers && b in s.customers && a != b ==> s.customers[a].id != s.customers[b].id
    ensures forall i, j :: 0 <= i < j < |s.transactions| ==> s.transactions[i].id != s.transactions[j].id
  {
  }

  // ---------------------------------------------------------------------------
  // Reports

  /** Total quantity sold, summed over the sale transactions for one product name. */
  function SoldQuantity(txs: seq<TransactionData>, name: string): int
    decreases |txs|
  {
    if txs == [] then 0
    else
      var last := txs[|txs| - 1];
      SoldQuantity(txs[..|txs| - 1], name) + (if last.txType == Sale && last.productName == name then last.quantity else 0)
  }

  predicate HasSaleOf(txs: seq<TransactionData>, name: string) {
    exists i :: 0 <= i < |txs| && txs[i].txType == Sale && txs[i].productName == name
  }

  /** `getTopSellingProducts` and `getStockConsumptionReport`: the map both
      loops build, adding each sale's quantity under its product-name snapshot. */
  function SalesByName(txs: seq<TransactionData>): map<string, int>
    decreases |txs|
  {
    if txs == [] then map[]
    else
      var m := SalesByName(txs[..|txs| - 1]);
      var t := txs[|txs| - 1];
      if t.txType == Sale then
        m[t.productName := (if t.productName in m then m[t.productName] else 0) + t.quantity]
      else m
  }

  /** The report has an entry exactly for the names that were sold, and each
      entry is the total quantity sold under that name. */
  lemma {:induction false} SalesByNameMeaning(txs: seq<TransactionData>, name: string)
    ensures name in SalesByName(txs) <==> HasSaleOf(txs, name)
    ensures name in SalesByName(txs) ==> SalesByName(txs)[name] == SoldQuantity(txs, name)
    ensures name !in SalesByName(txs) ==> SoldQuantity(txs, name) == 0
    decreases |txs|
  {
    if txs != [] {
      var n := |txs| - 1;
      var pre := txs[..n];
      SalesByNameMeaning(pre, name);
      if HasSaleOf(pre, name) {
        var i :| 0 <= i < n && pre[i].txType == Sale && pre[i].productName == name;
        assert txs[i] == pre[i];
      }
      if HasSaleOf(txs, name) && !(txs[n].txType == Sale && txs[n].productName == name) {
        var i :| 0 <= i < |txs| && txs[i].txType == Sale && txs[i].productName == name;
        assert i < n && pre[i] == txs[i];
      }
    }
  }

  datatype ProfitLoss = ProfitLoss(revenue: real, cost: real, profit: real, margin: real)

  /** What one transaction adds to the revenue: its total when it is a sale of a
      product still in the map, nothing otherwise. */
  function SaleRevenue(t: TransactionData, ps: map<int, ProductData>): real {
    if t.txType == Sale && t.productId in ps then t.total else 0.0
  }

  /** What one transaction adds to the cost: its quantity at the product's
      current cost price when it is a sale of a stored product, nothing otherwise. */
  function SaleCost(t: TransactionData, ps: map<int, ProductData>): real {
    if t.txType == Sale && t.productId in ps then ps[t.productId].costPrice * t.quantity as real else 0.0
  }

  /** Revenue accumulated over the transactions, first one first. */
  function Revenue(txs: seq<TransactionData>, ps: map<int, ProductData>): real
    decreases |txs|
  {
    if txs == [] then 0.0 else Revenue(txs[..|txs| - 1], ps) + SaleRevenue(txs[|txs| - 1], ps)
  }

  /** Cost accumulated over the transactions, first one first. */
  function Cost(txs: seq<TransactionData>, ps: map<int, ProductData>): real
    decreases |txs|
  {
    if txs == [] then 0.0 else Cost(txs[..|txs| - 1], ps) + SaleCost(txs[|txs| - 1], ps)
  }

  /** One more transaction adds its revenue and its cost, which are zero unless
      it is a sale of a stored product. */
  lemma TotalsStep(txs: seq<TransactionData>, i: int, ps: map<int, ProductData>)
    requires 0 <= i < |txs|
    ensures Revenue(txs[..i + 1], ps) == Revenue(txs[..i], ps) + SaleRevenue(txs[i], ps)
    ensures Cost(txs[..i + 1], ps) == Cost(txs[..i], ps) + SaleCost(txs[i], ps)
  {
    assert txs[..i + 1][..i] == txs[..i];
  }

  /** `getProfitLossAnalysis`: profit is revenue minus cost, and the margin is
      profit as a percentage of revenue, or zero when there is no positive
      revenue. */
  function ProfitLossAnalysis(txs: seq<TransactionData>, ps: map<int, ProductData>): (r: ProfitLoss)
    ensures r.revenue == Revenue(txs, ps) && r.cost == Cost(txs, ps)
    ensures r.profit == r.revenue - r.cost
    ensures r.revenue > 0.0 ==> r.margin == (r.revenue - r.cost) / r.revenue * 100.0
    ensures r.revenue <= 0.0 ==> r.margin == 0.0
  {
    var revenue := Revenue(txs, ps);
    var cost := Cost(txs, ps);
    ProfitLoss(revenue, cost, revenue - cost, if revenue > 0.0 then (revenue - cost) / revenue * 100.0 else 0.0)
  }

  /** Transactions that are not sales, or whose product was deleted, add nothing. */
  lemma {:induction false} TotalsIgnoreOthers(txs: seq<TransactionData>, ps: map<int, ProductData>, t: TransactionData)
    requires t.txType != Sale || t.productId !in ps
    ensures Revenue(txs + [t], ps) == Revenue(txs, ps)
    ensures Cost(txs + [t], ps) == Cost(txs, ps)
  {
    assert (txs + [t])[..|txs|] == txs;
  }

  /** With non-negative cost prices, quantities and totals, revenue and cost
      are never negative. */
  lemma {:induction false} TotalsNonNegative(txs: seq<TransactionData>, ps: map<int, ProductData>)
    requires forall k :: k in ps ==> ps[k].costPrice >= 0.0
    requires forall i :: 0 <= i < |txs| ==> txs[i].total >= 0.0 && txs[i].quantity >= 0
    ensures Revenue(txs, ps) >= 0.0 && Cost(txs, ps) >= 0.0
    decreases |txs|
  {
    if txs != [] {
      var n := |txs| - 1;
      TotalsNonNegative(txs[..n], ps);
      var t := txs[n];
      if t.txType == Sale && t.productId in ps {
        assert ps[t.productId].costPrice * t.quantity as real >= 0.0;
      }
    }
  }

  lemma NonEmptyHasMember(keys: set<int>)
    requires keys != {}
    ensures exists k :: k in keys
  {
    assert (forall k :: k !in keys) ==> keys == {};
  }

  /** Some member of a non-empty set. */
  ghost function Pick(keys: set<int>): (k: int)
    requires keys != {}
    ensures k in keys
  {
    NonEmptyHasMember(keys);
    var k :| k in keys; k
  }

  /** The sum of the stock values of the products with the given ids. */
  ghost function SumStockValue(keys: set<int>, ps: map<int, ProductData>): real
    requires keys <= ps.Keys
    decreases keys
  {
    if keys == {} then 0.0
    else
      var k := Pick(keys);
      StockValue(ps[k]) + SumStockValue(keys - {k}, ps)
  }

  /** The sum does not depend on the order the ids are taken in: any one of
      them can be taken out first. */
  lemma {:induction false} SumStockValueRemove(keys: set<int>, ps: map<int, ProductData>, k: int)
    requires keys <= ps.Keys && k in keys
    ensures SumStockValue(keys, ps) == StockValue(ps[k]) + SumStockValue(keys - {k}, ps)
    decreases keys
  {
    var j := Pick(keys);
    if j != k {
      SumStockValueRemove(keys - {j}, ps, k);
      SumStockValueRemove(keys - {k}, ps, j);
      assert keys - {j} - {k} == keys - {k} - {j};
    }
  }

  /** `getTotalStockValue`. */
  ghost function TotalStockValue(ps: map<int, ProductData>): real {
    SumStockValue(ps.Keys, ps)
  }

  /** With sound products the total stock value is not negative. */
  lemma {:induction false} SumStockValueNonNegative(keys: set<int>, ps: map<int, ProductData>)
    requires keys <= ps.Keys
    requires forall k :: k in keys ==> Products.Sound(ps[k])
    ensures SumStockValue(keys, ps) >= 0.0
    decreases keys
  {
    if keys != {} {
      SumStockValueNonNegative(keys - {Pick(keys)}, ps);
    }
  }

  // ---------------------------------------------------------------------------
  // Runs of operations

  /** The state-changing operations of the manager, as data. */
  datatype Call =
    | AddProductCall(name: string, category: string, price: real, stock: int, unit: string,
                     criticalLevel: int, costPrice: real)
    | UpdateProductCall(id: int, name: string, category: string, price: real, unit: string,
                        criticalLevel: int, costPrice: real)
    | UpdateProductPriceCall(id: int, newPrice: real)
    | UpdateProductStockCall(id: int, newStock: int)
    | DeleteProductCall(id: int)
    | BulkUpdatePricesCall(percentage: real)
    | ClearStockAlertsCall
    | AddCustomerCall(name: string, phone: string, email: string, address: string,
                      customerType: CustomerType, specialDiscount: real)
    | UpdateCustomerCall(id: int, name: string, phone: string, email: string, address: string,
                         customerType: CustomerType, specialDiscount: real)
    | DeleteCustomerCall(id: int)
    | CreateTransactionCall(kind: TransactionType, customerId: int, productId: int, quantity: int)
    | UpdateTransactionStatusCall(id: int, status: TransactionStatus)

  /** One call: it keeps the ledger well formed, never moves a counter back or
      shortens the transaction list, and only `clearStockAlerts` removes alerts. */
  function Step(s: Ledger, call: Call): (r: Ledger)
    ensures WellFormed(s) ==> WellFormed(r)
    ensures r.nextProductId >= s.nextProductId && r.nextCustomerId >= s.nextCustomerId
    ensures r.nextTransactionId >= s.nextTransactionId
    ensures |r.transactions| >= |s.transactions|
    ensures !call.ClearStockAlertsCall? ==> s.alerts <= r.alerts
  {
    match call
    case AddProductCall(n, cat, pr, st, u, cl, cp) => AddProduct(s, n, cat, pr, st, u, cl, cp)
    case UpdateProductCall(id, n, cat, pr, u, cl, cp) => UpdateProduct(s, id, n, cat, pr, u, cl, cp).0
    case UpdateProductPriceCall(id, pr) => UpdateProductPrice(s, id, pr).0
    case UpdateProductStockCall(id, st) => UpdateProductStock(s, id, st).0
    case DeleteProductCall(id) => DeleteProduct(s, id).0
    case BulkUpdatePricesCall(pct) => BulkUpdatePrices(s, pct)
    case ClearStockAlertsCall => ClearStockAlerts(s)
    case AddCustomerCall(n, ph, e, a, ct, d) => AddCustomer(s, n, ph, e, a, ct, d)
    case UpdateCustomerCall(id, n, ph, e, a, ct, d) => UpdateCustomer(s, id, n, ph, e, a, ct, d).0
    case DeleteCustomerCall(id) => DeleteCustomer(s, id).0
    case CreateTransactionCall(k, c, p, q) => CreateTransaction(s, k, c, p, q).0
    case UpdateTransactionStatusCall(id, st) => UpdateTransactionStatus(s, id, st).0
  }

  /** The ledger after a sequence of calls, first call first. */
  function Run(s: Ledger, calls: seq<Call>): Ledger
    decreases |calls|
  {
    if calls == [] then s else Run(Step(s, calls[0]), calls[1..])
  }

  /** Any sequence of calls keeps a well-formed ledger well formed (so ids stay
      distinct and every key stays its entity's id), never moves a counter back,
      never shortens the transaction list, and, while `clearStockAlerts` is not
      called, only appends alerts. */
  lemma {:induction false} RunKeepsWellFormed(s: Ledger, calls: seq<Call>)
    requires WellFormed(s)
    ensures WellFormed(Run(s, calls))
    ensures Run(s, calls).nextProductId >= s.nextProductId
    ensures Run(s, calls).nextCustomerId >= s.nextCustomerId
    ensures Run(s, calls).nextTransactionId >= s.nextTransactionId
    ensures |Run(s, calls).transactions| >= |s.transactions|
    ensures (forall i :: 0 <= i < |calls| ==> !calls[i].ClearStockAlertsCall?) ==> s.alerts <= Run(s, calls).alerts
    decreases |calls|
  {
    if calls != [] {
      var next := Step(s, calls[0]);
      RunKeepsWellFormed(next, calls[1..]);
      if forall i :: 0 <= i < |calls| ==> !calls[i].ClearStockAlertsCall? {
        assert !calls[0].ClearStockAlertsCall?;
        assert forall i :: 0 <= i < |calls[1..]| ==> !calls[1..][i].ClearStockAlertsCall? by {
          forall i | 0 <= i < |calls[1..]|
            ensures !calls[1..][i].ClearStockAlertsCall?
          {
            assert calls[1..][i] == calls[i + 1];
          }
        }
      }
    }
  }

  // ---------------------------------------------------------------------------
  // A worked example

  /** One customer with a 20% discount buys 3 units of a product priced 100
      with 50 in stock and cost price 60: the unit price is 80, the total 240,
      the stock falls to 47, the debt rises to 240, and the profit analysis
      shows revenue 240, cost 180, profit 60 and a 25% margin. */
  lemma SaleExample()
    ensures
      var p := ProductData(1, "Kereste", "Ahşap", 100.0, 50, "m³", 20, 60.0, true);
      var c := CustomerData(1, "Mobilya", "", "", "", 0.0, Corporate, 20.0, [], true);
      var s := Ledger(map[1 := p], map[1 := c], [], [], 2, 2, 1);
      var (r, t) := CreateTransaction(s, Sale, 1, 1, 3);
      && t.Some? && t.value.unitPrice == 80.0 && t.value.total == 240.0
      && r.products[1].stock == 47 && r.customers[1].debt == 240.0
      && r.customers[1].orderHistory == [1]
      && r.alerts == []
      && ProfitLossAnalysis(r.transactions, r.products) == ProfitLoss(240.0, 180.0, 60.0, 25.0)
  {
    var p := ProductData(1, "Kereste", "Ahşap", 100.0, 50, "m³", 20, 60.0, true);
    var c := CustomerData(1, "Mobilya", "", "", "", 0.0, Corporate, 20.0, [], true);
    var s := Ledger(map[1 := p], map[1 := c], [], [], 2, 2, 1);
    var (r, t) := CreateTransaction(s, Sale, 1, 1, 3);
    assert SpecialPrice(c, 100.0) == 80.0;
    assert t.Some?;
    assert t.value.unitPrice == 80.0;
    assert t.value.total == 240.0;
    assert r.products[1].stock == 47;
    assert r.customers[1].debt == 240.0;
    assert r.customers[1].orderHistory == [1];
    assert r.alerts == [];
    assert r.transactions == [t.value];
    assert r.transactions[..0] == [];
    assert Revenue(r.transactions, r.products) == 240.0;
    assert Cost(r.transactions, r.products) == 180.0;
    assert ProfitLossAnalysis(r.transactions, r.products) == ProfitLoss(240.0, 180.0, 60.0, 25.0);
  }
}
