# Inventory ledger — a Dafny model

This project models the in-memory core of a timber and building-materials
inventory and order system. `DataManager` owns:

- a product map and a customer map, each keyed by id;
- an append-only transaction list and a stock-alert list;
- three sequential id counters.

It runs `createTransaction` (sale or purchase) and answers reports over
this state. Each entity has its own guarded mutators:

- `Product`: price and stock;
- `Customer`: debt, discount rate and order history;
- `Transaction`: status and total;
- `Order`: a three-state delivery status.

The model has two layers:

- **Values and specification functions.** The modules `Products`,
  `Customers`, `Transactions`, `Orders` and `Ledgers` hold one datatype per
  entity and one function per operation. The properties are proved as
  `ensures` clauses and lemmas on these values. `Ledgers.Ledger` is the
  whole manager state as a value. `Ledgers.WellFormed` is the invariant
  every manager operation keeps:
  - each map key is its entity's id;
  - ids lie below their counters;
  - transactions are numbered 1, 2, … in order;
  - debts are not negative;
  - each customer's history lists exactly the ids of their transactions.
- **Classes.** `Products.Product`, `Customers.Customer`,
  `Transactions.Transaction`, `Orders.Order` and `Manager.DataManager`
  hold mutable fields, as the Java classes do.
  - Entity mutators: each `Product`, `Customer` and `Transaction` mutator
    states its new `Data()` as the matching function of its old `Data()`.
    The `Order` mutators state only the new `status`, the one field that
    changes in the model.
  - `DataManager` public operations: the add, update and delete
    operations, `bulkUpdatePrices`, `clearStockAlerts`,
    `createTransaction` and `updateTransactionStatus` each state
    `State()` (the `Ledger` its objects stand for) as the matching
    `Ledgers` function of `old(State())`, and keep `Valid()`.
  - Helpers that split those operations state object-level or part-by-part
    effects instead:
    - `CheckStockAlert` states the alert list;
    - `RepriceAll` states the product objects;
    - `Record` states the objects a transaction touches;
    - `RecordTransaction` states the ledger parts;
    - `Settle`, `ReviseProduct` and `ReviseCustomer` state one entity each.
  - The report loops are proved against the report functions, and change
    nothing.

Money (price, debt, discount rate, totals) is exact `real`. Integers are
unbounded; "## Left out" says what that loses.

Where the files disagree, the model resolves it as follows:

- **Manager calls members the entity files lack.** `DataManager` calls
  `removeStock`, `calculateSpecialPrice`, `getStockValue`, `getCostPrice`,
  `setCostPrice`, `setCriticalStockLevel`, `setCustomerType` and
  `setSpecialDiscount`, and an 8-argument `Product` constructor. None of
  these exists in the entity files. The model binds each call to the entity
  member that does exist: `subtractStock`, `calculateDiscountedPrice`,
  `calculateTotalValue`, and the `criticalStock` and `discountRate` setters.
  `costPrice` is a plain product field.
- **Transaction kind.** It is a string in the manager and an enum in
  `Transaction`. It is modelled as `Sale | Purchase | Other`
  (`Transactions.TypeOf`). Any string other than the sale or purchase
  string gives `Other`, which is recorded with no stock or debt effect.
- **New transaction's total.** The constructor call in `createTransaction`
  matches no `Transaction` constructor. Its total is taken as unit price
  times quantity, as `recalculateTotal` computes it. This is a modelling
  choice.
- **`addCustomer` and `updateCustomer`** take the customer type as the
  enum, not the type string.
  - `addCustomer` stores the special discount unchecked, as the full
    constructor does.
  - `updateCustomer` writes the discount through the guarded setter.
- **`updateTransactionStatus`** takes the status enum. The Java method
  passes a string to an enum-typed setter.

## Model

| member | source | states |
|---|---|---|
| Products.StockValue | Product.java:129-131 | stock value is price times stock; it is non-negative for a sound product and zero when out of stock |
| Products.PriceSet | Product.java:58-62 | a negative price is ignored, otherwise the price is replaced; nothing else changes; a non-negative price stays non-negative |
| Products.StockSet | Product.java:68-72 | a negative stock is ignored, otherwise the stock is replaced; nothing else changes; non-negative stock stays non-negative |
| Products.StockAdded | Product.java:107-111 | stock grows by exactly q when q > 0, otherwise unchanged; never decreases |
| Products.StockSubtracted | Product.java:113-119 | succeeds iff 0 < q ≤ stock, then stock is stock − q; on failure nothing changes; stock never goes below zero from non-negative |
| Products.DiscountApplied | Product.java:139-143 | acts only for 0 < p ≤ 100, scaling the price by (1 − p/100); a non-negative price ends in [0, old price] |
| Products.PriceIncreased | Product.java:145-149 | acts only for p > 0, scaling by (1 + p/100); a non-negative price never drops |
| Products.AddThenSubtract | Product.java:107-119 | from non-negative stock, adding q > 0 and then subtracting q succeeds and restores the product |
| Products.SubtractThenAdd | Product.java:107-119 | a successful subtraction is undone by adding the same quantity |
| Products.Apply | Product.java:58-149 | any single mutator touches only price and stock and keeps a sound product sound |
| Products.ApplyAllKeepsSound | Product.java:58-149 | any sequence of mutators keeps price ≥ 0 and stock ≥ 0 and changes no other field |
| Products.StockNeverNegative | Product.java:68-119 | any sequence of setStock, addStock and subtractStock keeps a non-negative stock non-negative and leaves the price alone |
| Products.CriticalBoundary | Product.java:121-127 | stock equal to the critical level is critical, one above is not; out of stock iff stock is zero |
| Products.Critical | Product.java:121-123 | the reference for isCriticalStock: stock at or below the critical level, with the boundary inclusive as `CriticalBoundary` proves |
| Products.OutOfStock | Product.java:125-127 | the reference for isOutOfStock: stock exactly zero |
| Products.Product.IsCriticalStock | Product.java:121-123 | `Critical` of the object's current value |
| Products.Product.IsOutOfStock | Product.java:125-127 | `OutOfStock` of the object's current value |
| Products.Product.CalculateTotalValue | Product.java:129-131 | `StockValue` of the object's current value, so non-negative for a sound product |
| Products.Product.constructor | DataManager.java:60-61 | the product stores its arguments unchecked and starts active |
| Products.Product.SetPrice | Product.java:58-62 | the object's new value is `PriceSet` of the old one |
| Products.Product.UpdatePrice | Product.java:133-137 | same guard as setPrice: the new value is `PriceSet` of the old one |
| Products.Product.SetStock | Product.java:68-72 | the new value is `StockSet` of the old one |
| Products.Product.AddStock | Product.java:107-111 | the new value is `StockAdded` of the old one |
| Products.Product.SubtractStock | Product.java:113-119 | result and new value are `StockSubtracted` of the old value |
| Products.Product.ApplyDiscount | Product.java:139-143 | the new value is `DiscountApplied` of the old one |
| Products.Product.IncreasePrice | Product.java:145-149 | the new value is `PriceIncreased` of the old one |
| Customers.NewBasic | Customer.java:28-37 | the basic constructor gives debt 0, rate 0, an individual, an empty history, active, sound and not in debt |
| Customers.DebtSet | Customer.java:99-103 | a negative debt is ignored; only debt changes; soundness is kept |
| Customers.DiscountRateSet | Customer.java:117-121 | a rate outside [0, 100] is ignored; only the rate changes; soundness is kept |
| Customers.DebtAdded | Customer.java:136-140 | a positive amount is added, otherwise nothing; debt never decreases |
| Customers.DebtPaid | Customer.java:142-148 | succeeds iff 0 < a ≤ debt, then debt drops by a; failure changes nothing; debt stays non-negative |
| Customers.OrderAdded | Customer.java:154-160 | the id is appended at the end with no de-duplication; the total order count grows by one |
| Customers.SpecialPrice | Customer.java:162-167 | the price is scaled by (1 − rate/100) when the rate is positive, else unchanged; with a sound rate and non-negative price the result is in [0, price] |
| Customers.AddThenPay | Customer.java:136-148 | adding a positive amount and paying it back succeeds and restores the customer |
| Customers.PayThenAdd | Customer.java:136-148 | a successful payment is undone by adding the amount back |
| Customers.Apply | Customer.java:99-156 | any single mutator keeps a sound customer sound and only extends the order history |
| Customers.ApplyAllKeepsSound | Customer.java:99-156 | any sequence of mutators keeps debt ≥ 0 and the rate in [0, 100], and the history only grows at its end |
| Customers.Customer.Basic | Customer.java:28-37 | the object's value is `NewBasic` |
| Customers.Customer.constructor | Customer.java:40-52 | the full constructor stores debt and rate unchecked, with an empty history, active |
| Customers.Customer.SetDebt | Customer.java:99-103 | the new value is `DebtSet` of the old one |
| Customers.Customer.SetDiscountRate | Customer.java:117-121 | the new value is `DiscountRateSet` of the old one |
| Customers.Customer.AddDebt | Customer.java:136-140 | the new value is `DebtAdded` of the old one |
| Customers.Customer.PayDebt | Customer.java:142-148 | result and new value are `DebtPaid` of the old value |
| Customers.Customer.AddOrder | Customer.java:154-156 | the new value is `OrderAdded` of the old one |
| Customers.InDebt | Customer.java:150-152 | the reference for hasDebt: debt strictly positive, so a fresh basic customer is not in debt (`NewBasic`) |
| Customers.TotalOrders | Customer.java:158-160 | the reference for getTotalOrders: the history's length, which `OrderAdded` grows by one |
| Customers.Customer.HasDebt | Customer.java:150-152 | `InDebt` of the object's current value |
| Customers.Customer.GetTotalOrders | Customer.java:158-160 | `TotalOrders` of the object's current value |
| Customers.Customer.CalculateDiscountedPrice | Customer.java:162-167 | `SpecialPrice` of the object's current value, with the bounds that function proves |
| Transactions.TypeOf | DataManager.java:219-237 | the kind string reads as a sale exactly when it is the sale string, as a purchase exactly when it is the purchase string |
| Transactions.TypeString | Transaction.java:163-165 | the sale string exactly for a sale, the purchase string otherwise |
| Transactions.TypeStringRoundTrip | Transaction.java:163-165 | reading back the string of a sale or a purchase gives the same kind |
| Transactions.StatusString | Transaction.java:167-174 | each status has its own text |
| Transactions.SaleOrPurchase | Transaction.java:163-182 | isSale and isPurchase never both hold, and for a sale or a purchase exactly one holds; the type string is the sale string iff isSale |
| Transactions.NewTransaction | Transaction.java:36-50 | every field is stored as passed and the status is completed |
| Transactions.StatusSet | Transaction.java:153-155 | any status to any status, nothing else changes; completed iff the new status is |
| Transactions.CancelledTx | Transaction.java:184-190 | cancel gives cancelled from any status, after which it is not completed; nothing else changes |
| Transactions.Recalculated | Transaction.java:192-194 | total becomes unit price times quantity and no other field changes; a consistent total is left as is |
| Transactions.RecalculateIdempotent | Transaction.java:192-194 | recalculating twice equals recalculating once |
| Transactions.Transaction.constructor | Transaction.java:36-50 | the object's value is `NewTransaction` of the arguments |
| Transactions.Transaction.SetStatus | Transaction.java:153-155 | the new value is `StatusSet` of the old one |
| Transactions.Transaction.Cancel | Transaction.java:184-186 | the new value is `CancelledTx` of the old one |
| Transactions.Transaction.SetQuantity | Transaction.java:113-115 | only the quantity changes; the total is left stale |
| Transactions.Transaction.SetUnitPrice | Transaction.java:121-123 | only the unit price changes; the total is left stale |
| Transactions.Transaction.RecalculateTotal | Transaction.java:192-194 | the new value is `Recalculated` of the old one |
| Transactions.IsSale | Transaction.java:176-178 | the reference for isSale: the kind is a sale |
| Transactions.IsPurchase | Transaction.java:180-182 | the reference for isPurchase: the kind is a purchase; exclusive with `IsSale` as `SaleOrPurchase` proves |
| Transactions.IsCompleted | Transaction.java:188-190 | the reference for isCompleted: the status is completed, true of every new transaction (`NewTransaction`) and false after cancel (`CancelledTx`) |
| Transactions.Transaction.IsCompleted | Transaction.java:188-190 | the object's status is completed |
| Transactions.Transaction.IsSale | Transaction.java:176-178 | the object's kind is a sale |
| Transactions.Transaction.IsPurchase | Transaction.java:180-182 | the object's kind is a purchase |
| Transactions.Transaction.GetTypeString | Transaction.java:163-165 | `TypeString` of the object's kind |
| Transactions.Transaction.GetStatusString | Transaction.java:167-174 | `StatusString` of the object's status |
| Orders.ShippingMoved | Order.java:168-173 | preparing becomes shipping, any other status stays; the rank rises by at most one |
| Orders.DeliveryMarked | Order.java:175-180 | shipping becomes delivered, any other status stays; the rank rises by at most one |
| Orders.StatusString | Order.java:159-166 | total over the three statuses, a distinct text for each |
| Orders.ExactlyOneStatus | Order.java:182-192 | exactly one of isPreparing, isShipping and isDelivered holds |
| Orders.RunNeverMovesBack | Order.java:168-180 | any sequence of moveToShipping and markAsDelivered never moves the status backwards |
| Orders.DeliveredIsTerminal | Order.java:168-180 | no sequence of guarded transitions leaves delivered |
| Orders.DeliveryPath | Order.java:168-180 | preparing reaches delivered by shipping then delivering, and the opposite order stops at shipping |
| Orders.Order.constructor | Order.java:31-44 | a new order starts preparing with its fields as passed |
| Orders.Order.SetStatus | Order.java:124-127 | the unguarded setter sets any status, bypassing the order |
| Orders.Order.MoveToShipping | Order.java:168-173 | the new status is `ShippingMoved` of the old one |
| Orders.Order.MarkAsDelivered | Order.java:175-180 | the new status is `DeliveryMarked` of the old one |
| Orders.Run | Order.java:168-180 | the status after a sequence of guarded transitions, the subject of `RunNeverMovesBack` and `DeliveredIsTerminal` |
| Orders.Order.IsPreparing | Order.java:186-188 | the object's status is preparing |
| Orders.Order.IsShipping | Order.java:190-192 | the object's status is shipping |
| Orders.Order.IsDelivered | Order.java:182-184 | the object's status is delivered |
| Orders.Order.GetStatusString | Order.java:159-166 | `StatusString` of the object's status |
| Ledgers.WellFormed | DataManager.java:58-245 | the invariant the manager keeps: keys are ids below their counters, transactions numbered 1, 2, … and referring to issued customer ids, debts non-negative, each history equal to `OrderIds` of the ledger |
| Ledgers.OrderIds | DataManager.java:240-241 | the ids of a customer's transactions in ledger order, which `WellFormed` ties to each history |
| Ledgers.Empty | DataManager.java:22-31 | an empty manager with all counters at 1 is well formed |
| Ledgers.AlertFor | DataManager.java:143-149 | one alert exactly when the product is critical, carrying its id, stock and critical level; none otherwise |
| Ledgers.AddProduct | DataManager.java:58-65 | the new product gets the current counter, which is not yet a key; the counter moves by one; an alert is added iff the product is critical; nothing else changes; well-formedness is kept |
| Ledgers.UpdateProduct | DataManager.java:67-80 | succeeds iff the id is stored; then only that product changes, its price through the guarded setter, its stock untouched; otherwise nothing changes |
| Ledgers.UpdateProductPrice | DataManager.java:82-89 | succeeds iff the id is stored; then only that product's price changes, through the guarded setter |
| Ledgers.UpdateProductStock | DataManager.java:91-99 | succeeds iff the id is stored; then the stock goes through the guarded setter and an alert is added iff the product is then critical; nothing else changes |
| Ledgers.DeleteProduct | DataManager.java:101-104 | the result says whether the id was stored; only that entry is removed; transactions referring to it stay |
| Ledgers.BulkUpdatePrices | DataManager.java:135-140 | the same keys; every product re-priced by the percentage through setPrice, so a product whose new price would be negative keeps its price; nothing but prices changes |
| Ledgers.ClearStockAlerts | DataManager.java:155-157 | alerts become empty and nothing else changes |
| Ledgers.CriticalProductIds | DataManager.java:124-132 | an id is reported iff it is stored and its product is critical |
| Ledgers.AddCustomer | DataManager.java:161-167 | the new customer gets the current counter (not yet a key), no debt and an empty history; the counter moves by one; well-formedness is kept |
| Ledgers.UpdateCustomer | DataManager.java:169-182 | succeeds iff the id is stored; then only that customer's profile changes, the rate through the guarded setter, debt and history kept |
| Ledgers.DeleteCustomer | DataManager.java:184-187 | the result says whether the id was stored; only that entry is removed |
| Ledgers.StockAfter | DataManager.java:233-238 | the transaction's effect on its product touches only the stock |
| Ledgers.NewRecord | DataManager.java:222-230 | the record gets the next id, the kind, the ids, the price through the customer's discount, total equal to unit price times quantity, completed |
| Ledgers.Recorded | DataManager.java:224-242 | the success state: stock and debt effects, the record appended, its id in the customer's history, the alert checked, the counter moved; `CreateTransactionSuccess` states it part by part |
| Ledgers.CreateTransaction | DataManager.java:209-245 | fails exactly when the customer or product is unknown or a sale exceeds the stock, and then nothing changes; otherwise the ledger is `Recorded`; well-formedness is kept |
| Ledgers.CreateTransactionSuccess | DataManager.java:224-242 | a successful transaction is appended at the end with the next id; the counter moves by one; its id is appended to the customer's history; only that product and that customer change; the alert is added iff the product is then critical |
| Ledgers.SaleEffect | DataManager.java:219-236 | a successful sale had enough stock; it lowers the stock by the quantity and raises the debt by the total (each when positive); only the stock of the product changes |
| Ledgers.PurchaseAndOtherEffect | DataManager.java:233-241 | a purchase or other kind always succeeds for known parties and leaves the debt alone; a purchase adds the quantity to the stock; any other kind leaves the product as it was |
| Ledgers.FindTransaction | DataManager.java:247-255 | the position of the first transaction with the id, or −1 when none has it |
| Ledgers.UpdateTransactionStatus | DataManager.java:247-255 | succeeds iff some transaction has the id; then only that first one's status changes; otherwise nothing changes; well-formedness is kept |
| Ledgers.UpdateExistingStatus | DataManager.java:247-255 | in a well-formed ledger every id below the counter is found at the position its number gives |
| Ledgers.IdsDistinct | DataManager.java:58-65 | in a well-formed ledger product, customer and transaction ids are pairwise distinct |
| Ledgers.SalesByName | DataManager.java:293-305 | the map both report loops build, adding each sale's quantity under its product-name snapshot |
| Ledgers.SoldQuantity | DataManager.java:296-301 | the independent reference: total quantity sold under one name, which `SalesByNameMeaning` ties to `SalesByName` |
| Ledgers.HasSaleOf | DataManager.java:296-297 | some sale carries the name; `SalesByNameMeaning` proves it is exactly the key set |
| Ledgers.SalesByNameMeaning | DataManager.java:293-305 | the report has an entry exactly for the product names that were sold, holding the total quantity sold under that name |
| Ledgers.SaleRevenue | DataManager.java:352-356 | one transaction's revenue: its total for a sale of a stored product, zero otherwise |
| Ledgers.SaleCost | DataManager.java:352-357 | one transaction's cost: quantity at the product's current cost price for a sale of a stored product, zero otherwise |
| Ledgers.Revenue | DataManager.java:351-365 | total revenue, accumulated first transaction first |
| Ledgers.Cost | DataManager.java:351-365 | total cost, accumulated first transaction first |
| Ledgers.TotalsStep | DataManager.java:351-365 | one more transaction adds its revenue and cost, which are zero unless it is a sale of a stored product |
| Ledgers.ProfitLossAnalysis | DataManager.java:345-372 | revenue and cost are the sums over sales of stored products; profit is revenue minus cost; the margin is profit over revenue in percent, or zero without positive revenue |
| Ledgers.TotalsIgnoreOthers | DataManager.java:351-353 | a non-sale, or a sale whose product was deleted, changes neither revenue nor cost |
| Ledgers.TotalsNonNegative | DataManager.java:351-365 | with non-negative cost prices, quantities and totals, revenue and cost are not negative |
| Ledgers.SumStockValue | DataManager.java:390-396 | the sum of the stock values of a set of products, order-independent by `SumStockValueRemove` |
| Ledgers.TotalStockValue | DataManager.java:390-396 | getTotalStockValue: the sum over all stored products, non-negative for sound products by `SumStockValueNonNegative` |
| Ledgers.SumStockValueRemove | DataManager.java:390-396 | the stock-value sum does not depend on the order the products are taken in |
| Ledgers.SumStockValueNonNegative | DataManager.java:390-396 | with sound products the total stock value is not negative |
| Ledgers.Step | DataManager.java:58-255 | every state-changing operation keeps the ledger well formed and never moves a counter back or shortens the transaction list; only clearStockAlerts removes alerts |
| Ledgers.RunKeepsWellFormed | DataManager.java:58-255 | any sequence of operations keeps the ledger well formed (so keys stay ids and ids stay distinct) and the counters monotone; without clearStockAlerts the old alerts stay a prefix |
| Ledgers.SaleExample | DataManager.java:209-372 | a sale of 3 at price 100 with a 20% discount gives unit price 80, total 240, stock 47, debt 240, and revenue 240, cost 180, profit 60, margin 25 |
| Manager.DataManager.KeysAreIds | DataManager.java:58-65 | in a valid manager each map key is its object's id and transactions are numbered in order |
| Manager.DataManager.constructor | DataManager.java:22-31 | an empty manager with counters at 1, valid |
| Manager.DataManager.CheckStockAlert | DataManager.java:143-149 | alerts grow by `AlertFor` the product's current value |
| Manager.DataManager.AddProduct | DataManager.java:58-65 | a fresh product stored under the old counter; the new state is `Ledgers.AddProduct` of the old; validity is kept |
| Manager.DataManager.UpdateProduct | DataManager.java:67-80 | state and result are `Ledgers.UpdateProduct` of the old state; validity is kept |
| Manager.DataManager.UpdateProductPrice | DataManager.java:82-89 | state and result are `Ledgers.UpdateProductPrice` of the old state |
| Manager.DataManager.UpdateProductStock | DataManager.java:91-99 | state and result are `Ledgers.UpdateProductStock` of the old state |
| Manager.DataManager.DeleteProduct | DataManager.java:101-104 | state and result are `Ledgers.DeleteProduct` of the old state |
| Manager.DataManager.BulkUpdatePrices | DataManager.java:135-140 | the new state is `Ledgers.BulkUpdatePrices` of the old state |
| Manager.DataManager.RepriceAll | DataManager.java:136-139 | the loop re-prices every stored product object through setPrice exactly once |
| Manager.DataManager.ClearStockAlerts | DataManager.java:155-157 | the new state is `Ledgers.ClearStockAlerts` of the old state |
| Manager.DataManager.GetCriticalStockProducts | DataManager.java:124-132 | returns exactly the stored products that are critical, changing nothing |
| Manager.DataManager.AddCustomer | DataManager.java:161-167 | a fresh customer under the old counter; the new state is `Ledgers.AddCustomer` of the old |
| Manager.DataManager.UpdateCustomer | DataManager.java:169-182 | state and result are `Ledgers.UpdateCustomer` of the old state |
| Manager.DataManager.DeleteCustomer | DataManager.java:184-187 | state and result are `Ledgers.DeleteCustomer` of the old state |
| Manager.DataManager.CreateTransaction | DataManager.java:209-245 | null exactly when `Ledgers.CreateTransaction` fails; the new state is its ledger; a non-null result is a fresh transaction appended at the end carrying the record |
| Manager.DataManager.RecordTransaction | DataManager.java:222-242 | after the guards, the ledger parts move as `Recorded` says: that product and customer updated, the record appended, the alert checked, the counter moved |
| Manager.DataManager.Record | DataManager.java:222-242 | on the objects: the transaction is built from the old names and discounted price; stock and debt change as `StockAfter` and `DebtAdded` say; the id is appended to the history |
| Manager.DataManager.UpdateTransactionStatus | DataManager.java:247-255 | state and result are `Ledgers.UpdateTransactionStatus` of the old state |
| Manager.DataManager.GetTopSellingProducts | DataManager.java:293-305 | the map is `SalesByName` of the transactions; nothing changes |
| Manager.DataManager.GetStockConsumptionReport | DataManager.java:375-387 | the same map as the top-selling report; nothing changes |
| Manager.DataManager.GetProfitLossAnalysis | DataManager.java:345-372 | the analysis is `ProfitLossAnalysis` of the transactions and products; nothing changes |
| Manager.DataManager.GetTotalStockValue | DataManager.java:390-396 | the total is the sum of the stored products' stock values; nothing changes |
| Manager.Settle | DataManager.java:233-238 | a sale subtracts the stock and adds the total to the debt; a purchase adds the stock; any other kind changes neither |
| Manager.ReviseProduct | DataManager.java:71-76 | the setter calls update the product's profile, the price through the guarded setter |
| Manager.ReviseCustomer | DataManager.java:171-176 | the setter calls update the customer's profile, the rate through the guarded setter |

## Left out

- Timestamps are not modelled: `date`, `createdAt`, `updatedAt` and the
  `updatedAt` refresh in the `Order` transitions. They read the clock.
- `getDailySales` and `getMonthlySales` are not modelled. They depend on
  `Calendar`.
- String rendering is not modelled: `toString`, `generateInvoice`, the
  formatted dates and the alert message text.
  - An alert is a record, `Ledgers.StockAlert`. It holds the fields its
    message is formatted from: name, stock, unit and critical level.
  - It also carries the product id, which the message text does not
    contain.
- The lazy singleton `getInstance` and the seed data of
  `initializeDefaultData` are not modelled. A manager is constructed
  explicitly and empty.
- `HashMap` order is not modelled. Reports over the maps return sets or
  sums, and their loops take the keys in an arbitrary order.
- `equals` and `hashCode` are not modelled: identity is by id.
  - Ids are `const` in the classes.
  - The `setId` setters, which the manager never calls, are not modelled.
- Some fields are `const` in the model although the Java classes have
  setters for them. The manager never calls these setters, so they are
  not modelled.
  - `Transaction`: the kind, customer id, customer name, product id and
    product name (`setType`, `setCustomerId`, `setCustomerName`,
    `setProductId`, `setProductName`). The one unmodelled setter among the
    variable fields is `setTotal`, so the model's totals change only
    through `recalculateTotal`.
  - `Order`: id, the customer and product ids and names, quantity, unit
    price and total (the setters at Order.java:60-118). Only the status
    changes in the model.
- The read-only getters and list copies are not modelled: `getProduct`,
  `getAllProducts`, `getActiveProducts`, `getStockAlerts`, `getCustomer`,
  `getAllCustomers`, `getCustomerOrderHistory`, `getTransaction`,
  `getAllTransactions` and `getTransactionsByStatus`.
- `setShippingCompany` on the manager is not modelled. It calls a method
  that `Transaction` does not have.
- The `limit` parameter of `getTopSellingProducts` is not modelled: it is
  never used.
- The `discount` argument of `createTransaction` is not modelled. It only
  fills the note slot and never affects the price.
- `Transaction.note` and the `Order` shipping company and note are not
  modelled.
  - Only their getters read them (`getNote`, `getShippingCompany`), plus
    the invoice text (`generateInvoice`), and all of those are left out.
  - `Transaction` has no unit field. The unit passed at the
    `createTransaction` constructor call matches no parameter, so it is
    dropped.
- The simpler `Product` constructors (3 and 6 arguments) are not modelled;
  the manager never calls them. Neither are the unchecked name, unit and
  category setters, which the model writes as field assignments.
- `Customer.getTypeString`, `isCorporate` and the customer-type setter
  are not modelled. The manager writes the type directly.
- Double rounding is not modelled: money is exact `real`.
  - `Ledgers.ProfitLossAnalysis` states profit as revenue minus cost. The
    Java loop keeps profit as a separate running sum, which is equal in
    exact arithmetic.
  - The margin is computed as in the source.
- Concurrency is not modelled: the manager is single-threaded.
- 32-bit integer wrap-around is not modelled: Java `int` arithmetic is
  unbounded `int` here. This affects three places:
  - stock in `addStock` (Product.java:109) and the stock effects of a
    transaction;
  - the id counters (DataManager.java:60, 163, 227);
  - the quantity sums in the two sales reports (DataManager.java:299-300,
    381-382).
- Products.StockAdded: "never decreases" holds for unbounded integers. In
  Java, adding to a stock near `Integer.MAX_VALUE` wraps to a negative
  value.
- Products.StockNeverNegative: holds for unbounded integers. The same
  wrap-around in `addStock` breaks it in Java.
- Ledgers.RunKeepsWellFormed: the ids stay distinct only while no counter
  passes `Integer.MAX_VALUE`. Java's `nextProductId++` and the other
  counters would wrap and reuse ids.
- Ledgers.SalesByName: sums quantities without overflow. The Java
  `Integer` sums wrap.
- `Manager.DataManager.RepriceAll` does not fix an iteration order. Each
  product is re-priced on its own, so the order does not change the result.
