/** The data manager: the single owner of the product and customer maps, the
    transaction list, the stock-alert list and the id counters. Its entities are
    objects updated in place; each operation is proved to move the abstract
    ledger exactly as the matching function of `Ledgers` says. */
module Manager {
  import opened Products
  import opened Customers
  import opened Transactions
  import opened Ledgers

  /** The values of a map of product objects. */
  ghost function ProductView(m: map<int, Product>): (r: map<int, ProductData>)
    reads m.Values
    ensures r.Keys == m.Keys
    ensures forall k :: k in m ==> r[k] == m[k].Data()
  {
    map k | k in m :: m[k].Data()
  }

  /** The values of a map of customer objects. */
  ghost function CustomerView(m: map<int, Customer>): (r: map<int, CustomerData>)
    reads m.Values
    ensures r.Keys == m.Keys
    ensures forall k :: k in m ==> r[k] == m[k].Data()
  {
    map k | k in m :: m[k].Data()
  }

  /** The values of a list of transaction objects, in order. */
  ghost function DataOf(ts: seq<Transaction>): (r: seq<TransactionData>)
    reads ts
    ensures |r| == |ts|
    ensures forall i :: 0 <= i < |ts| ==> r[i] == ts[i].Data()
  {
    seq(|ts|, i requires 0 <= i < |ts| reads ts => ts[i].Data())
  }

  /** Storing an object under a key, when every other stored object kept its
      fields, changes the view at that key only. */
  twostate lemma ProductViewPut(m: map<int, Product>, new id: int, new p: Product)
    requires forall k :: k in m && k != id ==> unchanged(m[k])
    ensures ProductView(m[id := p]) == old(ProductView(m))[id := p.Data()]
  {
    forall k | k in m && k != id
      ensures m[k].Data() == old(m[k].Data())
    {
      assert unchanged(m[k]);
    }
    assert ProductView(m[id := p]) == old(ProductView(m))[id := p.Data()];
  }

  twostate lemma CustomerViewPut(m: map<int, Customer>, new id: int, new c: Customer)
    requires forall k :: k in m && k != id ==> unchanged(m[k])
    ensures CustomerView(m[id := c]) == old(CustomerView(m))[id := c.Data()]
  {
    forall k | k in m && k != id
      ensures m[k].Data() == old(m[k].Data())
    {
      assert unchanged(m[k]);
    }
    assert CustomerView(m[id := c]) == old(CustomerView(m))[id := c.Data()];
  }

  /** Changing the object stored under one key, when every other stored object
      kept its fields, changes the view at that key only. */
  twostate lemma ProductViewAt(m: map<int, Product>, new id: int)
    requires id in m
    requires forall k :: k in m && k != id ==> unchanged(m[k])
    ensures ProductView(m) == old(ProductView(m))[id := m[id].Data()]
  {
    forall k | k in m && k != id
      ensures m[k].Data() == old(m[k].Data())
    {
      assert unchanged(m[k]);
    }
    assert ProductView(m) == old(ProductView(m))[id := m[id].Data()];
  }

  twostate lemma CustomerViewAt(m: map<int, Customer>, new id: int)
    requires id in m
    requires forall k :: k in m && k != id ==> unchanged(m[k])
    ensures CustomerView(m) == old(CustomerView(m))[id := m[id].Data()]
  {
    forall k | k in m && k != id
      ensures m[k].Data() == old(m[k].Data())
    {
      assert unchanged(m[k]);
    }
    assert CustomerView(m) == old(CustomerView(m))[id := m[id].Data()];
  }

  twostate lemma ProductViewSame(m: map<int, Product>)
    requires forall k :: k in m ==> unchanged(m[k])
    ensures ProductView(m) == old(ProductView(m))
  {
    forall k | k in m
      ensures m[k].Data() == old(m[k].Data())
    {
      assert unchanged(m[k]);
    }
    assert ProductView(m) == old(ProductView(m));
  }

  twostate lemma CustomerViewSame(m: map<int, Customer>)
    requires forall k :: k in m ==> unchanged(m[k])
    ensures CustomerView(m) == old(CustomerView(m))
  {
    forall k | k in m
      ensures m[k].Data() == old(m[k].Data())
    {
      assert unchanged(m[k]);
    }
    assert CustomerView(m) == old(CustomerView(m));
  }

  twostate lemma DataOfSame(ts: seq<Transaction>)
    requires forall j :: 0 <= j < |ts| ==> unchanged(ts[j])
    ensures DataOf(ts) == old(DataOf(ts))
  {
    forall j | 0 <= j < |ts|
      ensures ts[j].Data() == old(ts[j].Data())
    {
      assert unchanged(ts[j]);
    }
    assert DataOf(ts) == old(DataOf(ts));
  }

  lemma DataOfAppend(ts: seq<Transaction>, t: Transaction)
    ensures DataOf(ts + [t]) == DataOf(ts) + [t.Data()]
  {
    assert (ts + [t])[..|ts|] == ts;
  }

  /** Changing one transaction object changes the list's value at its position only. */
  twostate lemma DataOfPut(ts: seq<Transaction>, new i: int)
    requires 0 <= i < |ts|
    requires forall j :: 0 <= j < |ts| && j != i ==> unchanged(ts[j])
    ensures DataOf(ts) == old(DataOf(ts))[i := ts[i].Data()]
  {
    assert DataOf(ts) == old(DataOf(ts))[i := ts[i].Data()];
  }

  /** The stock and debt effects of `createTransaction`: a sale removes the
      quantity from the stock and adds the total to the debt, a purchase adds
      the quantity to the stock. */
  method Settle(txType: TransactionType, product: Product, customer: Customer, quantity: int, total: real)
    modifies product, customer
    ensures product.Data() == StockAfter(txType, old(product.Data()), quantity)
    ensures customer.Data() == if txType == Sale then DebtAdded(old(customer.Data()), total)
                               else old(customer.Data())
  {
    if txType == Sale {
      var _ := product.SubtractStock(quantity);
      customer.AddDebt(total);
    } else if txType == Purchase {
      product.AddStock(quantity);
    }
  }

  /** The setter calls `updateProduct` makes on one product, in order. */
  method ReviseProduct(product: Product, name: string, category: string, price: real,
                       unit: string, criticalLevel: int, costPrice: real)
    modifies product
    ensures product.Data() == PriceSet(old(product.Data()).(name := name, category := category), price)
                                .(unit := unit, criticalStock := criticalLevel, costPrice := costPrice)
  {
    product.name := name;
    product.category := category;
    product.SetPrice(price);
    product.unit := unit;
    product.criticalStock := criticalLevel;
    product.costPrice := costPrice;
  }

  /** The setter calls `updateCustomer` makes on one customer, in order. */
  method ReviseCustomer(customer: Customer, name: string, phone: string, email: string, address: string,
                        customerType: CustomerType, specialDiscount: real)
    modifies customer
    ensures customer.Data() ==
            DiscountRateSet(old(customer.Data()).(name := name, phone := phone, email := email, address := address,
                                                  customerType := customerType), specialDiscount)
  {
    customer.name := name;
    customer.phone := phone;
    customer.email := email;
    customer.address := address;
    customer.customerType := customerType;
    customer.SetDiscountRate(specialDiscount);
  }

  class DataManager {
    var products: map<int, Product>
    var customers: map<int, Customer>
    var transactions: seq<Transaction>
    var stockAlerts: seq<StockAlert>
    var nextProductId: int
    var nextCustomerId: int
    var nextTransactionId: int

    /** The abstract ledger the objects stand for. */
    ghost function State(): Ledger
      reads this, products.Values, customers.Values, transactions
    {
      Ledger(ProductView(products), CustomerView(customers), DataOf(transactions), stockAlerts,
             nextProductId, nextCustomerId, nextTransactionId)
    }

    ghost predicate Valid()
      reads this, products.Values, customers.Values, transactions
    {
      WellFormed(State())
    }

    /** Ids fix identity: distinct keys hold distinct objects. */
    lemma KeysAreIds()
      requires Valid()
      ensures forall k :: k in products ==> products[k].id == k
      ensures forall k :: k in customers ==> customers[k].id == k
      ensures forall i :: 0 <= i < |transactions| ==> transactions[i].id == i + 1
    {
    }

    /** An explicitly constructed, empty manager with all counters at 1. */
    constructor ()
      ensures State() == Empty() && Valid()
    {
      products := map[];
      customers := map[];
      transactions := [];
      stockAlerts := [];
      nextProductId := 1;
      nextCustomerId := 1;
      nextTransactionId := 1;
      new;
      assert ProductView(products) == map[];
      assert CustomerView(customers) == map[];
    }

    /** `checkStockAlert`: appends an alert when the product is critical now. */
    method CheckStockAlert(product: Product)
      modifies this`stockAlerts
      ensures stockAlerts == old(stockAlerts) + AlertFor(product.Data())
    {
      if product.IsCriticalStock() {
        stockAlerts := stockAlerts + [StockAlert(product.id, product.name, product.stock,
                                                 product.unit, product.criticalStock)];
      }
    }

    // -------------------------------------------------------------------------
    // Products

    method AddProduct(name: string, category: string, price: real, stock: int,
                      unit: string, criticalLevel: int, costPrice: real) returns (product: Product)
      requires Valid()
      modifies this
      ensures fresh(product) && product.id == old(nextProductId)
      ensures products == old(products)[product.id := product]
      ensures customers == old(customers) && transactions == old(transactions)
      ensures State() == Ledgers.AddProduct(old(State()), name, category, price, stock, unit,
                                            criticalLevel, costPrice)
      ensures Valid()
    {
      ghost var before := products;
      var id := nextProductId;
      product := new Product(id, name, category, price, stock, unit, criticalLevel, costPrice);
      nextProductId := id + 1;
      products := products[id := product];
      CheckStockAlert(product);
      assert ProductView(products) == old(ProductView(products))[id := product.Data()] by {
        ProductViewPut(before, id, product);
      }
      assert CustomerView(customers) == old(CustomerView(customers)) by { CustomerViewSame(customers); }
      assert DataOf(transactions) == old(DataOf(transactions)) by { DataOfSame(transactions); }
    }

    method UpdateProduct(id: int, name: string, category: string, price: real,
                         unit: string, criticalLevel: int, costPrice: real) returns (ok: bool)
      requires Valid()
      modifies products.Values
      ensures (State(), ok) == Ledgers.UpdateProduct(old(State()), id, name, category, price, unit,
                                                     criticalLevel, costPrice)
      ensures Valid()
    {
      if id !in products {
        return false;
      }
      KeysAreIds();
      var product := products[id];
      ReviseProduct(product, name, category, price, unit, criticalLevel, costPrice);
      ok := true;
      assert ProductView(products) == old(ProductView(products))[id := product.Data()] by {
        ProductViewAt(products, id);
      }
      assert CustomerView(customers) == old(CustomerView(customers)) by { CustomerViewSame(customers); }
      assert DataOf(transactions) == old(DataOf(transactions)) by { DataOfSame(transactions); }
    }

    method UpdateProductPrice(id: int, newPrice: real) returns (ok: bool)
      requires Valid()
      modifies products.Values
      ensures (State(), ok) == Ledgers.UpdateProductPrice(old(State()), id, newPrice)
      ensures Valid()
    {
      if id !in products {
        return false;
      }
      KeysAreIds();
      var product := products[id];
      product.SetPrice(newPrice);
      ok := true;
      assert ProductView(products) == old(ProductView(products))[id := product.Data()] by {
        ProductViewAt(products, id);
      }
      assert CustomerView(customers) == old(CustomerView(customers)) by { CustomerViewSame(customers); }
      assert DataOf(transactions) == old(DataOf(transactions)) by { DataOfSame(transactions); }
    }

    method UpdateProductStock(id: int, newStock: int) returns (ok: bool)
      requires Valid()
      modifies this`stockAlerts, products.Values
      ensures (State(), ok) == Ledgers.UpdateProductStock(old(State()), id, newStock)
      ensures Valid()
    {
      if id !in products {
        return false;
      }
      KeysAreIds();
      var product := products[id];
      product.SetStock(newStock);
      CheckStockAlert(product);
      ok := true;
      assert ProductView(products) == old(ProductView(products))[id := product.Data()] by {
        ProductViewAt(products, id);
      }
      assert CustomerView(customers) == old(CustomerView(customers)) by { CustomerViewSame(customers); }
      assert DataOf(transactions) == old(DataOf(transactions)) by { DataOfSame(transactions); }
    }

    method DeleteProduct(id: int) returns (ok: bool)
      requires Valid()
      modifies this`products
      ensures (State(), ok) == Ledgers.DeleteProduct(old(State()), id)
      ensures Valid()
    {
      ok := id in products;
      products := products - {id};
      assert ProductView(old(products)) == old(ProductView(products)) by { ProductViewSame(old(products)); }
      assert ProductView(products) == old(ProductView(products)) - {id};
      assert CustomerView(customers) == old(CustomerView(customers)) by { CustomerViewSame(customers); }
      assert DataOf(transactions) == old(DataOf(transactions)) by { DataOfSame(transactions); }
    }

    /** `bulkUpdatePrices`: every product is re-priced through `setPrice`. */
    method BulkUpdatePrices(percentage: real)
      requires Valid()
      modifies products.Values
      ensures State() == Ledgers.BulkUpdatePrices(old(State()), percentage)
      ensures Valid()
    {
      KeysAreIds();
      RepriceAll(percentage);
      assert ProductView(products) == Ledgers.BulkUpdatePrices(old(State()), percentage).products;
      assert CustomerView(customers) == old(CustomerView(customers)) by { CustomerViewSame(customers); }
      assert DataOf(transactions) == old(DataOf(transactions)) by { DataOfSame(transactions); }
    }

    /** The loop of `bulkUpdatePrices`; the products are distinct objects
        because each is stored under its own id. */
    method RepriceAll(percentage: real)
      requires forall k :: k in products ==> products[k].id == k
      modifies products.Values
      ensures forall k :: k in products ==> products[k].Data() == ScaledPrice(old(products[k].Data()), percentage)
    {
      var rest := products.Keys;
      while rest != {}
        invariant rest <= products.Keys
        invariant forall k :: k in products ==>
                    products[k].Data() == if k in rest then old(products[k].Data())
                                          else ScaledPrice(old(products[k].Data()), percentage)
        decreases rest
      {
        NonEmptyHasMember(rest);
        var k :| k in rest;
        var product := products[k];
        label L:
        product.SetPrice(product.price * (1.0 + percentage / 100.0));
        forall j | j in products
          ensures products[j].Data() == if j in rest - {k} then old(products[j].Data())
                                        else ScaledPrice(old(products[j].Data()), percentage)
        {
          if j != k {
            assert products[j].Data() == old@L(products[j].Data());
          }
        }
        rest := rest - {k};
      }
    }

    method ClearStockAlerts()
      requires Valid()
      modifies this`stockAlerts
      ensures State() == Ledgers.ClearStockAlerts(old(State()))
      ensures Valid()
    {
      stockAlerts := [];
      assert ProductView(products) == old(ProductView(products)) by { ProductViewSame(products); }
      assert CustomerView(customers) == old(CustomerView(customers)) by { CustomerViewSame(customers); }
      assert DataOf(transactions) == old(DataOf(transactions)) by { DataOfSame(transactions); }
    }

    /** `getCriticalStockProducts`: the stored products at or below their
        critical level, as a set since the map has no order. */
    method GetCriticalStockProducts() returns (critical: set<Product>)
      ensures critical <= products.Values
      ensures forall k :: k in products ==> (products[k] in critical <==> k in CriticalProductIds(ProductView(products)))
      ensures forall p :: p in critical ==> p.IsCriticalStock()
    {
      critical := {};
      var rest := products.Keys;
      while rest != {}
        invariant rest <= products.Keys
        invariant critical <= products.Values
        invariant forall k :: k in products && k !in rest ==> (products[k].IsCriticalStock() ==> products[k] in critical)
        invariant forall p :: p in critical ==> p.IsCriticalStock()
        decreases rest
      {
        NonEmptyHasMember(rest);
        var k :| k in rest;
        var product := products[k];
        if product.IsCriticalStock() {
          critical := critical + {product};
        }
        rest := rest - {k};
      }
    }

    // -------------------------------------------------------------------------
    // Customers

    /** `addCustomer`: no debt, the special discount stored unchecked. */
    method AddCustomer(name: string, phone: string, email: string, address: string,
                       customerType: CustomerType, specialDiscount: real) returns (customer: Customer)
      requires Valid()
      modifies this
      ensures fresh(customer) && customer.id == old(nextCustomerId)
      ensures customers == old(customers)[customer.id := customer]
      ensures products == old(products) && transactions == old(transactions)
      ensures State() == Ledgers.AddCustomer(old(State()), name, phone, email, address,
                                             customerType, specialDiscount)
      ensures Valid()
    {
      ghost var before := customers;
      var id := nextCustomerId;
      customer := new Customer(id, name, phone, email, address, 0.0, customerType, specialDiscount);
      nextCustomerId := id + 1;
      customers := customers[id := customer];
      assert ProductView(products) == old(ProductView(products)) by { ProductViewSame(products); }
      assert CustomerView(customers) == old(CustomerView(customers))[id := customer.Data()] by {
        CustomerViewPut(before, id, customer);
      }
      assert DataOf(transactions) == old(DataOf(transactions)) by { DataOfSame(transactions); }
    }

    method UpdateCustomer(id: int, name: string, phone: string, email: string, address: string,
                          customerType: CustomerType, specialDiscount: real) returns (ok: bool)
      requires Valid()
      modifies customers.Values
      ensures (State(), ok) == Ledgers.UpdateCustomer(old(State()), id, name, phone, email, address,
                                                      customerType, specialDiscount)
      ensures Valid()
    {
      if id !in customers {
        return false;
      }
      KeysAreIds();
      var customer := customers[id];
      ReviseCustomer(customer, name, phone, email, address, customerType, specialDiscount);
      ok := true;
      assert ProductView(products) == old(ProductView(products)) by { ProductViewSame(products); }
      assert CustomerView(customers) == old(CustomerView(customers))[id := customer.Data()] by {
        CustomerViewAt(customers, id);
      }
      assert DataOf(transactions) == old(DataOf(transactions)) by { DataOfSame(transactions); }
    }

    method DeleteCustomer(id: int) returns (ok: bool)
      requires Valid()
      modifies this`customers
      ensures (State(), ok) == Ledgers.DeleteCustomer(old(State()), id)
      ensures Valid()
    {
      ok := id in customers;
      customers := customers - {id};
      assert ProductView(products) == old(ProductView(products)) by { ProductViewSame(products); }
      assert CustomerView(old(customers)) == old(CustomerView(customers)) by { CustomerViewSame(old(customers)); }
      assert CustomerView(customers) == old(CustomerView(customers)) - {id};
      assert DataOf(transactions) == old(DataOf(transactions)) by { DataOfSame(transactions); }
    }

    // -------------------------------------------------------------------------
    // Transactions

    /** `createTransaction`. `kind` is the manager's kind string; a null result
        means the customer or product is unknown or a sale exceeds the stock. */
    method CreateTransaction(kind: string, customerId: int, productId: int, quantity: int)
      returns (transaction: Transaction?)
      requires Valid()
      modifies this, products.Values, customers.Values
      ensures products == old(products) && customers == old(customers)
      ensures var r := Ledgers.CreateTransaction(old(State()), TypeOf(kind), customerId, productId, quantity);
        && State() == r.0
        && (transaction == null <==> r.1.None?)
        && (transaction != null ==>
              fresh(transaction) && transaction.Data() == r.1.value
              && transactions == old(transactions) + [transaction])
      ensures Valid()
    {
      if customerId !in customers || productId !in products {
        return null;
      }
      KeysAreIds();
      var customer := customers[customerId];
      var product := products[productId];
      var txType := TypeOf(kind);
      if txType == Sale && product.stock < quantity {
        return null;
      }
      ghost var s0 := State();
      transaction := RecordTransaction(txType, customer, product, quantity);
      RecordedParts(s0, txType, customerId, productId, quantity, State());
    }

    /** A successful `createTransaction`, stated part by part on the ledger:
        the product and the customer are replaced by their updated values, the
        new record is appended and the alert list is extended. */
    method RecordTransaction(txType: TransactionType, customer: Customer, product: Product, quantity: int)
      returns (transaction: Transaction)
      requires forall k :: k in products ==> products[k].id == k
      requires forall k :: k in customers ==> customers[k].id == k
      requires customer.id in customers && customers[customer.id] == customer
      requires product.id in products && products[product.id] == product
      modifies this, product, customer
      ensures products == old(products) && customers == old(customers)
      ensures fresh(transaction)
      ensures transactions == old(transactions) + [transaction]
      ensures var s := old(State());
        var t := NewRecord(s, txType, customer.id, product.id, quantity);
        var p1 := StockAfter(txType, s.products[product.id], quantity);
        var c1 := if txType == Sale then DebtAdded(s.customers[customer.id], t.total) else s.customers[customer.id];
        && transaction.Data() == t
        && State().products == s.products[product.id := p1]
        && State().customers == s.customers[customer.id := OrderAdded(c1, t.id)]
        && State().transactions == s.transactions + [t]
        && State().alerts == s.alerts + AlertFor(p1)
        && State().nextProductId == s.nextProductId && State().nextCustomerId == s.nextCustomerId
        && State().nextTransactionId == s.nextTransactionId + 1
    {
      ghost var s0 := State();
      transaction := Record(txType, customer, product, quantity);
      ghost var t := NewRecord(s0, txType, customer.id, product.id, quantity);
      ghost var p1 := StockAfter(txType, s0.products[product.id], quantity);
      ghost var c1 := if txType == Sale then DebtAdded(s0.customers[customer.id], t.total)
                      else s0.customers[customer.id];
      assert transaction.Data() == t;
      assert product.Data() == p1;
      assert stockAlerts == s0.alerts + AlertFor(p1);
      assert ProductView(products) == s0.products[product.id := p1] by {
        ProductViewAt(products, product.id);
      }
      assert CustomerView(customers) == s0.customers[customer.id := OrderAdded(c1, t.id)] by {
        assert customer.Data() == OrderAdded(c1, t.id);
        CustomerViewAt(customers, customer.id);
      }
      assert DataOf(transactions) == s0.transactions + [t] by {
        DataOfSame(old(transactions));
        DataOfAppend(old(transactions), transaction);
      }
    }

    /** The recording half of `createTransaction`, once both parties are known
        and the stock suffices, stated on the objects it touches. */
    method Record(txType: TransactionType, customer: Customer, product: Product, quantity: int)
      returns (transaction: Transaction)
      modifies this, product, customer
      ensures products == old(products) && customers == old(customers)
      ensures fresh(transaction)
      ensures var finalPrice := SpecialPrice(old(customer.Data()), old(product.price));
        transaction.Data() == NewTransaction(old(nextTransactionId), txType, customer.id, old(customer.name),
                                             product.id, old(product.name), quantity, finalPrice,
                                             finalPrice * quantity as real)
      ensures nextTransactionId == old(nextTransactionId) + 1
      ensures nextProductId == old(nextProductId) && nextCustomerId == old(nextCustomerId)
      ensures transactions == old(transactions) + [transaction]
      ensures product.Data() == StockAfter(txType, old(product.Data()), quantity)
      ensures customer.Data() == OrderAdded(if txType == Sale then DebtAdded(old(customer.Data()), transaction.total)
                                            else old(customer.Data()), transaction.id)
      ensures stockAlerts == old(stockAlerts) + AlertFor(product.Data())
    {
      var finalPrice := customer.CalculateDiscountedPrice(product.price);
      transaction := new Transaction(nextTransactionId, txType, customer.id, customer.name,
                                     product.id, product.name, quantity, finalPrice,
                                     finalPrice * quantity as real);
      nextTransactionId := nextTransactionId + 1;
      Settle(txType, product, customer, quantity, transaction.total);
      transactions := transactions + [transaction];
      customer.AddOrder(transaction.id);
      CheckStockAlert(product);
    }

    /** `updateTransactionStatus`: the first transaction with the id gets the
        new status; the result says whether there was one. */
    method UpdateTransactionStatus(id: int, newStatus: TransactionStatus) returns (found: bool)
      requires Valid()
      modifies transactions
      ensures (State(), found) == Ledgers.UpdateTransactionStatus(old(State()), id, newStatus)
      ensures Valid()
    {
      ghost var txs := DataOf(transactions);
      KeysAreIds();
      var i := 0;
      while i < |transactions|
        invariant 0 <= i <= |transactions|
        invariant forall j :: 0 <= j < i ==> txs[j].id != id
        invariant forall j :: 0 <= j < |transactions| ==> unchanged(transactions[j])
      {
        if transactions[i].id == id {
          transactions[i].SetStatus(newStatus);
          assert DataOf(transactions) == old(DataOf(transactions))[i := transactions[i].Data()] by {
            DataOfPut(transactions, i);
          }
          assert ProductView(products) == old(ProductView(products)) by { ProductViewSame(products); }
          assert CustomerView(customers) == old(CustomerView(customers)) by { CustomerViewSame(customers); }
          assert FindTransaction(txs, id) == i;
          return true;
        }
        i := i + 1;
      }
      assert ProductView(products) == old(ProductView(products)) by { ProductViewSame(products); }
      assert CustomerView(customers) == old(CustomerView(customers)) by { CustomerViewSame(customers); }
      assert DataOf(transactions) == old(DataOf(transactions)) by { DataOfSame(transactions); }
      return false;
    }

    // -------------------------------------------------------------------------
    // Reports (they change nothing)

    /** `getTopSellingProducts`: quantity sold per product-name snapshot. */
    method GetTopSellingProducts() returns (sales: map<string, int>)
      ensures sales == SalesByName(DataOf(transactions))
    {
      ghost var txs := DataOf(transactions);
      sales := map[];
      var i := 0;
      while i < |transactions|
        invariant 0 <= i <= |transactions|
        invariant sales == SalesByName(txs[..i])
      {
        var t := transactions[i];
        assert txs[..i + 1][..i] == txs[..i];
        assert txs[..i + 1][i] == t.Data();
        if t.txType == Sale {
          var name := t.productName;
          sales := sales[name := (if name in sales then sales[name] else 0) + t.quantity];
        }
        i := i + 1;
      }
      assert txs[..i] == txs;
    }

    /** `getStockConsumptionReport`: the same computation as the top-selling
        report, so the two always agree. */
    method GetStockConsumptionReport() returns (consumption: map<string, int>)
      ensures consumption == SalesByName(DataOf(transactions))
    {
      consumption := GetTopSellingProducts();
    }

    /** `getProfitLossAnalysis`: revenue, cost and profit over the sales whose
        product is still stored, and the margin. */
    method GetProfitLossAnalysis() returns (analysis: ProfitLoss)
      ensures analysis == ProfitLossAnalysis(DataOf(transactions), ProductView(products))
    {
      ghost var txs := DataOf(transactions);
      ghost var ps := ProductView(products);
      var totalRevenue, totalCost, totalProfit := 0.0, 0.0, 0.0;
      var i := 0;
      while i < |transactions|
        invariant 0 <= i <= |transactions|
        invariant totalRevenue == Revenue(txs[..i], ps)
        invariant totalCost == Cost(txs[..i], ps)
        invariant totalProfit == totalRevenue - totalCost
      {
        var t := transactions[i];
        assert txs[i] == t.Data();
        TotalsStep(txs, i, ps);
        if t.txType == Sale && t.productId in products {
          var product := products[t.productId];
          var revenue := t.total;
          var cost := product.costPrice * t.quantity as real;
          var profit := revenue - cost;
          totalRevenue := totalRevenue + revenue;
          totalCost := totalCost + cost;
          totalProfit := totalProfit + profit;
        }
        i := i + 1;
      }
      assert txs[..i] == txs;
      var margin := if totalRevenue > 0.0 then totalProfit / totalRevenue * 100.0 else 0.0;
      analysis := ProfitLoss(totalRevenue, totalCost, totalProfit, margin);
    }

    /** `getTotalStockValue`: the stock values of all stored products, summed. */
    method GetTotalStockValue() returns (total: real)
      ensures total == TotalStockValue(ProductView(products))
    {
      ghost var ps := ProductView(products);
      total := 0.0;
      var rest := products.Keys;
      while rest != {}
        invariant rest <= ps.Keys
        invariant total + SumStockValue(rest, ps) == TotalStockValue(ps)
        decreases rest
      {
        NonEmptyHasMember(rest);
        var k :| k in rest;
        SumStockValueRemove(rest, ps, k);
        total := total + products[k].CalculateTotalValue();
        rest := rest - {k};
      }
    }
  }
}
