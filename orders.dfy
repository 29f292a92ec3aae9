/** An order and its three-state delivery status:
    preparing, then shipping, then delivered. */
module Orders {

  datatype OrderStatus = Preparing | Shipping | Delivered

  /** The position of a status in the delivery order. */
  function Rank(s: OrderStatus): nat {
    match s
    case Preparing => 0
    case Shipping => 1
    case Delivered => 2
  }

  /** `moveToShipping`: preparing becomes shipping; any other status stays. */
  function ShippingMoved(s: OrderStatus): (r: OrderStatus)
    ensures s == Preparing ==> r == Shipping
    ensures s != Preparing ==> r == s
    ensures Rank(s) <= Rank(r) <= Rank(s) + 1
  {
    if s == Preparing then Shipping else s
  }

  /** `markAsDelivered`: shipping becomes delivered; any other status stays. */
  function DeliveryMarked(s: OrderStatus): (r: OrderStatus)
    ensures s == Shipping ==> r == Delivered
    ensures s != Shipping ==> r == s
    ensures Rank(s) <= Rank(r) <= Rank(s) + 1
  {
    if s == Shipping then Delivered else s
  }

  /** `getStatusString`: defined for every status, a different text for each. */
  function StatusString(s: OrderStatus): (r: string)
    ensures s == Preparing <==> r == "Hazırlanıyor"
    ensures s == Shipping <==> r == "Sevkiyatta"
    ensures s == Delivered <==> r == "Teslim Edildi"
  {
    match s
    case Preparing => "Hazırlanıyor"
    case Shipping => "Sevkiyatta"
    case Delivered => "Teslim Edildi"
  }

  /** Exactly one of `isPreparing`, `isShipping` and `isDelivered` holds. */
  lemma ExactlyOneStatus(s: OrderStatus)
    ensures (s == Preparing) || (s == Shipping) || (s == Delivered)
    ensures !(s == Preparing && s == Shipping) && !(s == Shipping && s == Delivered)
    ensures !(s == Preparing && s == Delivered)
  {
  }

  /** The two guarded transitions, as data. */
  datatype Step = MoveToShipping | MarkAsDelivered

  function StepOf(s: OrderStatus, step: Step): OrderStatus {
    match step
    case MoveToShipping => ShippingMoved(s)
    case MarkAsDelivered => DeliveryMarked(s)
  }

  /** The status after a sequence of transitions, first step first. */
  function Run(s: OrderStatus, steps: seq<Step>): OrderStatus
    decreases |steps|
  {
    if steps == [] then s else Run(StepOf(s, steps[0]), steps[1..])
  }

  /** Using only the guarded transitions, a status never moves backwards. */
  lemma {:induction false} RunNeverMovesBack(s: OrderStatus, steps: seq<Step>)
    ensures Rank(s) <= Rank(Run(s, steps))
    decreases |steps|
  {
    if steps != [] {
      RunNeverMovesBack(StepOf(s, steps[0]), steps[1..]);
    }
  }

  /** Delivered is terminal for the guarded transitions. */
  lemma {:induction false} DeliveredIsTerminal(steps: seq<Step>)
    ensures Run(Delivered, steps) == Delivered
    decreases |steps|
  {
    if steps != [] {
      DeliveredIsTerminal(steps[1..]);
    }
  }

  /** A fresh order reaches delivered by moving to shipping and then being
      marked delivered, and not by the two steps in the other order. */
  lemma DeliveryPath()
    ensures Run(Preparing, [MoveToShipping, MarkAsDelivered]) == Delivered
    ensures Run(Preparing, [MarkAsDelivered, MoveToShipping]) == Shipping
  {
    assert [MoveToShipping, MarkAsDelivered][1..] == [MarkAsDelivered];
    assert [MarkAsDelivered, MoveToShipping][1..] == [MoveToShipping];
  }

  /** An order as the Java class holds it; only the status changes here. */
  class Order {
    const id: int
    const customerId: int
    const customerName: string
    const productId: int
    const productName: string
    const quantity: int
    const unitPrice: real
    const total: real
    var status: OrderStatus

    /** A new order starts preparing. */
    constructor (id: int, customerId: int, customerName: string, productId: int,
                 productName: string, quantity: int, unitPrice: real, total: real)
      ensures this.id == id && this.customerId == customerId && this.customerName == customerName
      ensures this.productId == productId && this.productName == productName
      ensures this.quantity == quantity && this.unitPrice == unitPrice && this.total == total
      ensures status == Preparing
    {
      this.id := id;
      this.customerId := customerId;
      this.customerName := customerName;
      this.productId := productId;
      this.productName := productName;
      this.quantity := quantity;
      this.unitPrice := unitPrice;
      this.total := total;
      this.status := Preparing;
    }

    /** `setStatus` is unguarded: it may move the status backwards. */
    method SetStatus(newStatus: OrderStatus)
      modifies this
      ensures status == newStatus
    {
      status := newStatus;
    }

    method MoveToShipping()
      modifies this
      ensures status == ShippingMoved(old(status))
    {
      if status == Preparing {
        status := Shipping;
      }
    }

    method MarkAsDelivered()
      modifies this
      ensures status == DeliveryMarked(old(status))
    {
      if status == Shipping {
        status := Delivered;
      }
    }

    predicate IsPreparing()
      reads this
    {
      status == Preparing
    }

    predicate IsShipping()
      reads this
    {
      status == Shipping
    }

    predicate IsDelivered()
      reads this
    {
      status == Delivered
    }

    function GetStatusString(): string
      reads this
    {
      StatusString(status)
    }
  }
}
