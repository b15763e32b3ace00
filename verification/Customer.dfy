/** customer.entity.ts and customer.service.ts: credit reservations, with money as integers. */
module Customers {
  import opened Options

  datatype CreditReservation = CreditReservation(orderId: nat, amount: int)
  datatype CustomerValue = CustomerValue(creditLimit: int, creditReservations: seq<CreditReservation>)

  function TotalReserved(reservations: seq<CreditReservation>): int {
    if reservations == [] then 0
    else TotalReserved(reservations[..|reservations| - 1]) + reservations[|reservations| - 1].amount
  }

  function AvailableCredit(c: CustomerValue): int {
    c.creditLimit - TotalReserved(c.creditReservations)
  }

  /** The customer after a reservation; None when it exceeds the credit limit. */
  function Reserve(c: CustomerValue, orderId: nat, orderTotal: int): Option<CustomerValue> {
    if AvailableCredit(c) >= orderTotal
    then Some(c.(creditReservations := c.creditReservations + [CreditReservation(orderId, orderTotal)]))
    else None
  }

  datatype Refusal = CustomerNotFound | CustomerCreditLimitExceeded

  type Table = map<nat, CustomerValue>

  function ReserveFor(customers: Table, customerId: nat, orderId: nat, orderTotal: int): Result<Table, Refusal> {
    if customerId !in customers then Err(CustomerNotFound)
    else match Reserve(customers[customerId], orderId, orderTotal)
      case Some(c) => Ok(customers[customerId := c])
      case None => Err(CustomerCreditLimitExceeded)
  }

  class Customer {
    const creditLimit: int
    var creditReservations: seq<CreditReservation>

    ghost function Value(): CustomerValue
      reads this
    {
      CustomerValue(creditLimit, creditReservations)
    }

    constructor (value: CustomerValue)
      ensures Value() == value
    {
      creditLimit, creditReservations := value.creditLimit, value.creditReservations;
    }

    /** The reduce over the reservations, from no money. */
    method Available() returns (credit: int)
      ensures credit == AvailableCredit(Value())
    {
      var totalReserved := 0;
      for k := 0 to |creditReservations|
        invariant totalReserved == TotalReserved(creditReservations[..k])
      {
        assert creditReservations[..k + 1][..k] == creditReservations[..k];
        totalReserved := totalReserved + creditReservations[k].amount;
      }
      assert creditReservations[..|creditReservations|] == creditReservations;
      credit := creditLimit - totalReserved;
    }

    method ReserveCredit(orderId: nat, orderTotal: int) returns (ok: bool)
      modifies this
      ensures match Reserve(old(Value()), orderId, orderTotal)
        case Some(c) => ok && Value() == c
        case None => !ok && Value() == old(Value())
    {
      var credit := Available();
      ok := credit >= orderTotal;
      if ok {
        creditReservations := creditReservations + [CreditReservation(orderId, orderTotal)];
      }
    }
  }

  /** customer.service.ts over the table of customers. */
  class CustomerService {
    var repository: Table

    constructor ()
      ensures repository == map[]
    {
      repository := map[];
    }

    method ReserveCredit(customerId: nat, orderId: nat, orderTotal: int) returns (refused: Option<Refusal>)
      modifies this
      ensures match ReserveFor(old(repository), customerId, orderId, orderTotal)
        case Ok(customers) => refused == None && repository == customers
        case Err(refusal) => refused == Some(refusal) && repository == old(repository)
      ensures refused == Some(CustomerNotFound) <==> customerId !in old(repository)
    {
      if customerId !in repository {
        return Some(CustomerNotFound);
      }
      var customer := new Customer(repository[customerId]);
      var ok := customer.ReserveCredit(orderId, orderTotal);
      if !ok {
        return Some(CustomerCreditLimitExceeded);
      }
      repository := repository[customerId := CustomerValue(customer.creditLimit, customer.creditReservations)];
      refused := None;
    }
  }

  /** Which refusal is given: the customer is not there; or it is, and the limit less the reservations is too small. */
  lemma RefusalsTellWhy(customers: Table, customerId: nat, orderId: nat, orderTotal: int)
    ensures var r := ReserveFor(customers, customerId, orderId, orderTotal);
      && (r == Err(CustomerNotFound) <==> customerId !in customers)
      && (r == Err(CustomerCreditLimitExceeded) <==>
           && customerId in customers
           && var c := customers[customerId]; c.creditLimit - TotalReserved(c.creditReservations) < orderTotal)
  {
  }

  // ---------- the credit limit ----------

  /** A customer with reservations never exceeds the limit, whatever the signs of the amounts. */
  ghost predicate WithinLimit(c: CustomerValue) {
    c.creditReservations != [] ==> TotalReserved(c.creditReservations) <= c.creditLimit
  }

  lemma ReservingStaysWithin(c: CustomerValue, orderId: nat, orderTotal: int)
    ensures match Reserve(c, orderId, orderTotal) case None => true case Some(after) => WithinLimit(after)
  {
    var more := c.creditReservations + [CreditReservation(orderId, orderTotal)];
    assert more[..|c.creditReservations|] == c.creditReservations;
  }

  /** A reservation that is granted spends just its amount. */
  lemma ReservingSpends(c: CustomerValue, orderId: nat, orderTotal: int)
    requires Reserve(c, orderId, orderTotal).Some?
    ensures var after := Reserve(c, orderId, orderTotal).value;
      AvailableCredit(after) == AvailableCredit(c) - orderTotal && after.creditLimit == c.creditLimit
  {
    var more := c.creditReservations + [CreditReservation(orderId, orderTotal)];
    assert more[..|c.creditReservations|] == c.creditReservations;
  }

  // ---------- sums over orders ----------

  ghost predicate Holds(reservations: seq<CreditReservation>, orderId: nat, amount: int) {
    exists k :: 0 <= k < |reservations| && reservations[k] == CreditReservation(orderId, amount)
  }

  function SumOf(ids: seq<nat>, amounts: map<nat, int>): int
    requires forall k :: 0 <= k < |ids| ==> ids[k] in amounts
  {
    if ids == [] then 0 else amounts[ids[0]] + SumOf(ids[1..], amounts)
  }

  lemma {:induction false} SumWithout(ids: seq<nat>, amounts: map<nat, int>, k: nat)
    requires k < |ids| && forall j :: 0 <= j < |ids| ==> ids[j] in amounts
    ensures SumOf(ids, amounts) == amounts[ids[k]] + SumOf(ids[..k] + ids[k + 1..], amounts)
  {
    var rest := ids[..k] + ids[k + 1..];
    if k == 0 {
      assert rest == ids[1..];
    } else {
      SumWithout(ids[1..], amounts, k - 1);
      assert rest[1..] == ids[1..][..k - 1] + ids[1..][k..];
    }
  }

  /** What the reservations for other orders than these add up to. */
  function AmountOutside(reservations: seq<CreditReservation>, ids: seq<nat>): int {
    if reservations == [] then 0
    else
      var last := reservations[|reservations| - 1];
      AmountOutside(reservations[..|reservations| - 1], ids) + if last.orderId in ids then 0 else last.amount
  }

  ghost predicate OneEach(reservations: seq<CreditReservation>) {
    forall i, j :: 0 <= i < j < |reservations| ==> reservations[i].orderId != reservations[j].orderId
  }

  lemma {:induction false} SameOutside(reservations: seq<CreditReservation>, ids: seq<nat>, others: seq<nat>)
    requires forall k :: 0 <= k < |reservations| ==>
      (reservations[k].orderId in ids <==> reservations[k].orderId in others)
    ensures AmountOutside(reservations, ids) == AmountOutside(reservations, others)
  {
    if reservations != [] {
      SameOutside(reservations[..|reservations| - 1], ids, others);
    }
  }

  /**
   Distinct orders that each hold a reservation, and the reservations for all other
   orders, add up to all that is reserved, whatever the signs of the amounts.
   */
  lemma {:induction false} SumAndOutside(ids: seq<nat>, amounts: map<nat, int>, reservations: seq<CreditReservation>)
    requires forall k :: 0 <= k < |ids| ==> ids[k] in amounts && Holds(reservations, ids[k], amounts[ids[k]])
    requires forall i, j :: 0 <= i < j < |ids| ==> ids[i] != ids[j]
    requires OneEach(reservations)
    ensures SumOf(ids, amounts) + AmountOutside(reservations, ids) == TotalReserved(reservations)
  {
    assert ids != [] ==> Holds(reservations, ids[0], amounts[ids[0]]);
    if reservations != [] {
      var n := |reservations| - 1;
      var last, front := reservations[n], reservations[..n];
      if k: nat :| k < |ids| && last.orderId == ids[k] {
        var rest := ids[..k] + ids[k + 1..];
        HeldLast(reservations, ids[k], amounts[ids[k]]);
        forall i | 0 <= i < |rest|
          ensures rest[i] in amounts && rest[i] != ids[k] && Holds(front, rest[i], amounts[rest[i]])
        {
          HeldBefore(reservations, rest[i], amounts[rest[i]]);
        }
        SumAndOutside(rest, amounts, front);
        SumWithout(ids, amounts, k);
        SameOutside(front, ids, rest);
      } else {
        forall i | 0 <= i < |ids|
          ensures Holds(front, ids[i], amounts[ids[i]])
        {
          HeldBefore(reservations, ids[i], amounts[ids[i]]);
        }
        SumAndOutside(ids, amounts, front);
      }
    }
  }

  lemma HeldLast(reservations: seq<CreditReservation>, orderId: nat, amount: int)
    requires OneEach(reservations) && Holds(reservations, orderId, amount)
    requires reservations != [] && reservations[|reservations| - 1].orderId == orderId
    ensures reservations[|reservations| - 1].amount == amount
  {
  }

  lemma HeldBefore(reservations: seq<CreditReservation>, orderId: nat, amount: int)
    requires reservations != [] && Holds(reservations, orderId, amount)
    requires reservations[|reservations| - 1] != CreditReservation(orderId, amount)
    ensures Holds(reservations[..|reservations| - 1], orderId, amount)
  {
    var k :| 0 <= k < |reservations| && reservations[k] == CreditReservation(orderId, amount);
    assert reservations[..|reservations| - 1][k] == reservations[k];
  }

  lemma {:induction false} NothingNegativeOutside(reservations: seq<CreditReservation>, ids: seq<nat>)
    requires forall k :: 0 <= k < |reservations| && reservations[k].orderId !in ids ==> reservations[k].amount >= 0
    ensures AmountOutside(reservations, ids) >= 0
  {
    if reservations != [] {
      NothingNegativeOutside(reservations[..|reservations| - 1], ids);
    }
  }

  // ---------- commands that are delivered again ----------

  datatype ReserveRequest = ReserveRequest(customerId: nat, orderId: nat, orderTotal: int)

  /** The customers after any commands, delivered in any order and any number of times. */
  function ServedAll(customers: Table, requests: seq<ReserveRequest>): Table {
    if requests == [] then customers
    else
      var before := ServedAll(customers, requests[..|requests| - 1]);
      var r := requests[|requests| - 1];
      match ReserveFor(before, r.customerId, r.orderId, r.orderTotal)
      case Ok(after) => after
      case Err(_) => before
  }

  /** The limit does not depend on how often a command is delivered. */
  lemma {:induction false} LimitsSurviveRedelivery(customers: Table, requests: seq<ReserveRequest>)
    requires forall c :: c in customers ==> WithinLimit(customers[c])
    ensures forall c :: c in ServedAll(customers, requests) ==> WithinLimit(ServedAll(customers, requests)[c])
  {
    hide WithinLimit, Reserve;
    if requests != [] {
      LimitsSurviveRedelivery(customers, requests[..|requests| - 1]);
      var before := ServedAll(customers, requests[..|requests| - 1]);
      var r := requests[|requests| - 1];
      if r.customerId in before {
        ReservingStaysWithin(before[r.customerId], r.orderId, r.orderTotal);
      }
    }
  }

  /** The number of reservations for an order does: a granted command reserves again, if the credit lasts. */
  lemma RedeliveryReservesAgainExactlyIfItCan(c: CustomerValue, orderId: nat, orderTotal: int)
    requires Reserve(c, orderId, orderTotal).Some?
    ensures var once := Reserve(c, orderId, orderTotal).value;
      Reserve(once, orderId, orderTotal).Some? <==> AvailableCredit(c) >= 2 * orderTotal
  {
    ReservingSpends(c, orderId, orderTotal);
  }
}
