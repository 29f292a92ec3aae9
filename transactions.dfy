/** One sale or purchase record. Identity, parties and name snapshots are fixed
    at creation; status, quantity, unit price and total can change afterwards. */
module Transactions {

  /** The kind of a transaction. `Other` stands for any kind string the manager
      receives that is neither the sale string nor the purchase string. */
  datatype TransactionType = Sale | Purchase | Other

  datatype TransactionStatus = Completed | Pending | Cancelled

  /** The fields of a transaction as a value. */
  datatype TransactionData = TransactionData(
    id: int,
    txType: TransactionType,
    customerId: int,
    customerName: string,
    productId: int,
    productName: string,
    quantity: int,
    unitPrice: real,
    total: real,
    status: TransactionStatus)

  const SaleString: string := "Satış"
  const PurchaseString: string := "Alım"

  /** How the manager reads its kind string. */
  function TypeOf(s: string): (t: TransactionType)
    ensures t == Sale <==> s == SaleString
    ensures t == Purchase <==> s == PurchaseString
  {
    if s == SaleString then Sale
    else if s == PurchaseString then Purchase
    else Other
  }

  /** `getTypeString`: the sale string for a sale, the purchase string for
      anything else. */
  function TypeString(t: TransactionType): (s: string)
    ensures s == SaleString <==> t == Sale
    ensures s == SaleString || s == PurchaseString
  {
    if t == Sale then SaleString else PurchaseString
  }

  /** Reading back the string of a sale or a purchase gives the same kind. */
  lemma TypeStringRoundTrip(t: TransactionType)
    requires t != Other
    ensures TypeOf(TypeString(t)) == t
  {
  }

  function StatusString(s: TransactionStatus): (r: string)
    ensures s == Completed <==> r == "Tamamlandı"
    ensures s == Pending <==> r == "Beklemede"
    ensures s == Cancelled <==> r == "İptal Edildi"
  {
    match s
    case Completed => "Tamamlandı"
    case Pending => "Beklemede"
    case Cancelled => "İptal Edildi"
  }

  predicate IsSale(t: TransactionData) {
    t.txType == Sale
  }

  predicate IsPurchase(t: TransactionData) {
    t.txType == Purchase
  }

  predicate IsCompleted(t: TransactionData) {
    t.status == Completed
  }

  /** `isSale` and `isPurchase` never both hold, and for a sale or a purchase
      exactly one does. */
  lemma SaleOrPurchase(t: TransactionData)
    ensures !(IsSale(t) && IsPurchase(t))
    ensures t.txType != Other ==> IsSale(t) != IsPurchase(t)
    ensures TypeString(t.txType) == SaleString <==> IsSale(t)
  {
  }

  /** The constructor: every field as passed, status completed. */
  function NewTransaction(id: int, txType: TransactionType, customerId: int, customerName: string,
                          productId: int, productName: string, quantity: int,
                          unitPrice: real, total: real): (t: TransactionData)
    ensures t.id == id && t.txType == txType
    ensures t.customerId == customerId && t.customerName == customerName
    ensures t.productId == productId && t.productName == productName
    ensures t.quantity == quantity && t.unitPrice == unitPrice && t.total == total
    ensures IsCompleted(t)
  {
    TransactionData(id, txType, customerId, customerName, productId, productName,
                    quantity, unitPrice, total, Completed)
  }

  /** `setStatus`: any status to any status; nothing else changes. */
  function StatusSet(t: TransactionData, status: TransactionStatus): (r: TransactionData)
    ensures r == t.(status := r.status)
    ensures r.status == status
    ensures IsCompleted(r) <==> status == Completed
  {
    t.(status := status)
  }

  /** `cancel`: from any status to cancelled, after which the transaction is
      not completed. */
  function CancelledTx(t: TransactionData): (r: TransactionData)
    ensures r == t.(status := r.status)
    ensures r.status == Cancelled && !IsCompleted(r)
  {
    StatusSet(t, Cancelled)
  }

  /** `recalculateTotal`: the total becomes unit price times quantity, nothing
      else changes, and recalculating again changes nothing. */
  function Recalculated(t: TransactionData): (r: TransactionData)
    ensures r == t.(total := r.total)
    ensures r.total == r.unitPrice * r.quantity as real
    ensures t.total == t.unitPrice * t.quantity as real ==> r == t
  {
    t.(total := t.unitPrice * t.quantity as real)
  }

  lemma RecalculateIdempotent(t: TransactionData)
    ensures Recalculated(Recalculated(t)) == Recalculated(t)
  {
  }

  /** A transaction as the Java class holds it. */
  class Transaction {
    const id: int
    const txType: TransactionType
    const customerId: int
    const customerName: string
    const productId: int
    const productName: string
    var quantity: int
    var unitPrice: real
    var total: real
    var status: TransactionStatus

    function Data(): TransactionData
      reads this
    {
      TransactionData(id, txType, customerId, customerName, productId, productName,
                      quantity, unitPrice, total, status)
    }

    constructor (id: int, txType: TransactionType, customerId: int, customerName: string,
                 productId: int, productName: string, quantity: int,
                 unitPrice: real, total: real)
      ensures Data() == NewTransaction(id, txType, customerId, customerName, productId, productName,
                                       quantity, unitPrice, total)
    {
      this.id := id;
      this.txType := txType;
      this.customerId := customerId;
      this.customerName := customerName;
      this.productId := productId;
      this.productName := productName;
      this.quantity := quantity;
      this.unitPrice := unitPrice;
      this.total := total;
      this.status := Completed;
    }

    method SetStatus(newStatus: TransactionStatus)
      modifies this
      ensures Data() == StatusSet(old(Data()), newStatus)
    {
      status := newStatus;
    }

    method Cancel()
      modifies this
      ensures Data() == CancelledTx(old(Data()))
    {
      status := Cancelled;
    }

    /** The plain setters; they leave the total stale until it is recalculated. */
    method SetQuantity(newQuantity: int)
      modifies this
      ensures Data() == old(Data()).(quantity := newQuantity)
    {
      quantity := newQuantity;
    }

    method SetUnitPrice(newUnitPrice: real)
      modifies this
      ensures Data() == old(Data()).(unitPrice := newUnitPrice)
    {
      unitPrice := newUnitPrice;
    }

    method RecalculateTotal()
      modifies this
      ensures Data() == Recalculated(old(Data()))
    {
      total := unitPrice * quantity as real;
    }

    predicate IsCompleted()
      reads this
    {
      status == Completed
    }

    predicate IsSale()
      reads this
    {
      txType == Sale
    }

    predicate IsPurchase()
      reads this
    {
      txType == Purchase
    }

    function GetTypeString(): string
      reads this
    {
      TypeString(txType)
    }

    function GetStatusString(): string
      reads this
    {
      StatusString(status)
    }
  }
}
