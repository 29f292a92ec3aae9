/** A customer: outstanding debt, a special discount rate and the ids of the
    transactions recorded against them. */
module Customers {

  datatype CustomerType = Individual | Corporate

  /** The fields of a customer as a value. `id` never changes once created. */
  datatype CustomerData = CustomerData(
    id: int,
    name: string,
    phone: string,
    email: string,
    address: string,
    debt: real,
    customerType: CustomerType,
    discountRate: real,
    orderHistory: seq<int>,
    active: bool)

  /** What the guarded mutators keep: debt is never negative and the discount
      rate is a percentage. The full constructor does not check it. */
  predicate Sound(c: CustomerData) {
    c.debt >= 0.0 && 0.0 <= c.discountRate <= 100.0
  }

  /** The basic constructor: no debt, no discount, an individual with an empty
      history. Email and address are left unset (empty here). */
  function NewBasic(id: int, name: string, phone: string): (c: CustomerData)
    ensures c.id == id && c.name == name && c.phone == phone
    ensures c.debt == 0.0 && c.discountRate == 0.0 && c.customerType == Individual
    ensures c.orderHistory == [] && c.active
    ensures Sound(c) && !InDebt(c) && TotalOrders(c) == 0
  {
    CustomerData(id, name, phone, "", "", 0.0, Individual, 0.0, [], true)
  }

  predicate InDebt(c: CustomerData) {
    c.debt > 0.0
  }

  function TotalOrders(c: CustomerData): nat {
    |c.orderHistory|
  }

  /** `setDebt`: a negative debt is ignored. */
  function DebtSet(c: CustomerData, newDebt: real): (r: CustomerData)
    ensures r == c.(debt := r.debt)
    ensures newDebt >= 0.0 ==> r.debt == newDebt
    ensures newDebt < 0.0 ==> r == c
    ensures Sound(c) ==> Sound(r)
  {
    if newDebt >= 0.0 then c.(debt := newDebt) else c
  }

  /** `setDiscountRate`: a rate outside [0, 100] is ignored. */
  function DiscountRateSet(c: CustomerData, rate: real): (r: CustomerData)
    ensures r == c.(discountRate := r.discountRate)
    ensures 0.0 <= rate <= 100.0 ==> r.discountRate == rate
    ensures !(0.0 <= rate <= 100.0) ==> r == c
    ensures Sound(c) ==> Sound(r)
  {
    if rate >= 0.0 && rate <= 100.0 then c.(discountRate := rate) else c
  }

  /** `addDebt`: only a positive amount is added. */
  function DebtAdded(c: CustomerData, amount: real): (r: CustomerData)
    ensures r == c.(debt := r.debt)
    ensures amount > 0.0 ==> r.debt == c.debt + amount
    ensures amount <= 0.0 ==> r == c
    ensures r.debt >= c.debt
  {
    if amount > 0.0 then c.(debt := c.debt + amount) else c
  }

  /** `payDebt`: succeeds exactly when 0 < amount <= debt, so debt never goes
      below zero; a failed call changes nothing. */
  function DebtPaid(c: CustomerData, amount: real): (r: (bool, CustomerData))
    ensures r.0 <==> 0.0 < amount <= c.debt
    ensures r.0 ==> r.1 == c.(debt := c.debt - amount)
    ensures !r.0 ==> r.1 == c
    ensures c.debt >= 0.0 ==> r.1.debt >= 0.0
    ensures r.1.debt <= c.debt
  {
    if amount > 0.0 && c.debt >= amount then (true, c.(debt := c.debt - amount))
    else (false, c)
  }

  /** `addOrder`: appends at the end, with neither de-duplication nor a cap. */
  function OrderAdded(c: CustomerData, orderId: int): (r: CustomerData)
    ensures r == c.(orderHistory := r.orderHistory)
    ensures r.orderHistory == c.orderHistory + [orderId]
    ensures TotalOrders(r) == TotalOrders(c) + 1
  {
    c.(orderHistory := c.orderHistory + [orderId])
  }

  /** `calculateDiscountedPrice` (called `calculateSpecialPrice` by the
      manager): the price reduced by the customer's rate when it is positive. */
  function SpecialPrice(c: CustomerData, originalPrice: real): (r: real)
    ensures c.discountRate > 0.0 ==> r == originalPrice * (1.0 - c.discountRate / 100.0)
    ensures c.discountRate <= 0.0 ==> r == originalPrice
    ensures Sound(c) && originalPrice >= 0.0 ==> 0.0 <= r <= originalPrice
  {
    if c.discountRate > 0.0 then
      var factor := 1.0 - c.discountRate / 100.0;
      FactorBounds(originalPrice, factor);
      originalPrice * factor
    else originalPrice
  }

  lemma FactorBounds(a: real, f: real)
    ensures a >= 0.0 && 0.0 <= f <= 1.0 ==> 0.0 <= a * f <= a
  {
    if a >= 0.0 && 0.0 <= f <= 1.0 {
      assert a * f <= a * 1.0;
    }
  }

  /** A positive amount added and then paid back leaves the customer as before,
      and the payment succeeds. */
  lemma AddThenPay(c: CustomerData, amount: real)
    requires amount > 0.0 && c.debt >= 0.0
    ensures DebtPaid(DebtAdded(c, amount), amount) == (true, c)
  {
    var added := DebtAdded(c, amount);
    assert added.(debt := added.debt - amount) == c;
  }

  /** A successful payment is undone by adding the same amount back. */
  lemma PayThenAdd(c: CustomerData, amount: real)
    requires DebtPaid(c, amount).0
    ensures DebtAdded(DebtPaid(c, amount).1, amount) == c
  {
  }

  /** The mutators of the class, as data. */
  datatype CustomerOp =
    | SetDebt(newDebt: real)
    | SetDiscountRate(rate: real)
    | AddDebt(amount: real)
    | PayDebt(amount: real)
    | AddOrder(orderId: int)

  function Apply(c: CustomerData, op: CustomerOp): (r: CustomerData)
    ensures Sound(c) ==> Sound(r)
    ensures |r.orderHistory| >= |c.orderHistory|
    ensures r.orderHistory[..|c.orderHistory|] == c.orderHistory
  {
    match op
    case SetDebt(d) => DebtSet(c, d)
    case SetDiscountRate(x) => DiscountRateSet(c, x)
    case AddDebt(a) => DebtAdded(c, a)
    case PayDebt(a) => DebtPaid(c, a).1
    case AddOrder(o) => OrderAdded(c, o)
  }

  /** The customer after a sequence of mutator calls, first call first. */
  function ApplyAll(c: CustomerData, ops: seq<CustomerOp>): CustomerData
    decreases |ops|
  {
    if ops == [] then c else ApplyAll(Apply(c, ops[0]), ops[1..])
  }

  /** From a sound customer no sequence of mutator calls makes the debt negative
      or moves the rate out of [0, 100], and the order history only grows at
      its end. */
  lemma {:induction false} ApplyAllKeepsSound(c: CustomerData, ops: seq<CustomerOp>)
    requires Sound(c)
    ensures Sound(ApplyAll(c, ops))
    ensures |ApplyAll(c, ops).orderHistory| >= |c.orderHistory|
    ensures ApplyAll(c, ops).orderHistory[..|c.orderHistory|] == c.orderHistory
    decreases |ops|
  {
    if ops != [] {
      var next := Apply(c, ops[0]);
      ApplyAllKeepsSound(next, ops[1..]);
      var last := ApplyAll(next, ops[1..]);
      assert last.orderHistory[..|c.orderHistory|] == last.orderHistory[..|next.orderHistory|][..|c.orderHistory|];
    }
  }

  /** A customer as the Java class holds it: fields updated in place. */
  class Customer {
    const id: int
    var name: string
    var phone: string
    var email: string
    var address: string
    var debt: real
    var customerType: CustomerType
    var discountRate: real
    var orderHistory: seq<int>
    var active: bool

    function Data(): CustomerData
      reads this
    {
      CustomerData(id, name, phone, email, address, debt, customerType, discountRate, orderHistory, active)
    }

    constructor Basic(id: int, name: string, phone: string)
      ensures Data() == NewBasic(id, name, phone)
    {
      this.id := id;
      this.name := name;
      this.phone := phone;
      this.email := "";
      this.address := "";
      this.debt := 0.0;
      this.customerType := Individual;
      this.discountRate := 0.0;
      this.orderHistory := [];
      this.active := true;
    }

    /** The full constructor: debt and rate are stored unchecked. */
    constructor (id: int, name: string, phone: string, email: string, address: string,
                 debt: real, customerType: CustomerType, discountRate: real)
      ensures Data() == CustomerData(id, name, phone, email, address, debt, customerType, discountRate, [], true)
    {
      this.id := id;
      this.name := name;
      this.phone := phone;
      this.email := email;
      this.address := address;
      this.debt := debt;
      this.customerType := customerType;
      this.discountRate := discountRate;
      this.orderHistory := [];
      this.active := true;
    }

    method SetDebt(newDebt: real)
      modifies this
      ensures Data() == DebtSet(old(Data()), newDebt)
    {
      if newDebt >= 0.0 {
        debt := newDebt;
      }
    }

    method SetDiscountRate(rate: real)
      modifies this
      ensures Data() == DiscountRateSet(old(Data()), rate)
    {
      if rate >= 0.0 && rate <= 100.0 {
        discountRate := rate;
      }
    }

    method AddDebt(amount: real)
      modifies this
      ensures Data() == DebtAdded(old(Data()), amount)
    {
      if amount > 0.0 {
        debt := debt + amount;
      }
    }

    method PayDebt(amount: real) returns (ok: bool)
      modifies this
      ensures (ok, Data()) == DebtPaid(old(Data()), amount)
    {
      ok := false;
      if amount > 0.0 && debt >= amount {
        debt := debt - amount;
        ok := true;
      }
    }

    method AddOrder(orderId: int)
      modifies this
      ensures Data() == OrderAdded(old(Data()), orderId)
    {
      orderHistory := orderHistory + [orderId];
    }

    predicate HasDebt()
      reads this
    {
      InDebt(Data())
    }

    function GetTotalOrders(): nat
      reads this
    {
      TotalOrders(Data())
    }

    function CalculateDiscountedPrice(originalPrice: real): real
      reads this
    {
      SpecialPrice(Data(), originalPrice)
    }
  }
}
