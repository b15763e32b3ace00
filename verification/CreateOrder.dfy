/**
 create-order.saga.ts over the customer entity: any number of orders placed with any
 number of customers, their messages delivered in any order, with failing services.
 */
module CreateOrders {
  import opened Options
  import opened SagaSteps
  import M = SagaSystem
  import C = Customers

  datatype OrderState = REJECTED | PENDING | APPROVED
  datatype RejectionReason = UNKNOWN_CUSTOMER | INSUFFICIENT_CREDIT
  datatype OrderDetails = OrderDetails(customerId: nat, orderTotal: int)
  datatype Order = Order(details: OrderDetails, state: OrderState, rejectionReason: Option<RejectionReason>)

  type Orders = map<nat, Order>

  /** The repository that the local steps work on: the id it would give next, and the error it throws if it fails. */
  datatype Repository = Repository(orders: Orders, freshId: nat, failure: Option<string>)

  datatype Data = Data(
    details: OrderDetails,
    id: Option<nat>,
    rejectionReason: Option<RejectionReason>,
    repository: Repository)

  // ---------- the saga ----------

  function Create(d: Data): LocalResult<Data> {
    if d.repository.failure.Some? then LocalResult(d, d.repository.failure)
    else
      var id := d.repository.freshId;
      LocalResult(
        d.(id := Some(id),
           repository := d.repository.(orders := d.repository.orders[id := Order(d.details, PENDING, None)])),
        None)
  }

  /** Updating a row that is not there changes nothing; a reason that is undefined is not written. */
  function Update(d: Data, state: OrderState, reason: Option<RejectionReason>): Data {
    if d.id.None? || d.id.value !in d.repository.orders then d
    else
      var order := d.repository.orders[d.id.value];
      var updated := order.(state := state, rejectionReason := if reason.Some? then reason else order.rejectionReason);
      d.(repository := d.repository.(orders := d.repository.orders[d.id.value := updated]))
  }

  function Approve(d: Data): LocalResult<Data> {
    if d.repository.failure.Some? then LocalResult(d, d.repository.failure)
    else LocalResult(Update(d, APPROVED, None), None)
  }

  function Reject(d: Data): Data {
    Update(d, REJECTED, d.rejectionReason)
  }

  function ReserveCreditCommand(d: Data): Command {
    Command("customer", "ReserveCreditCommand",
      [d.details.customerId, if d.id.Some? then d.id.value else -1, d.details.orderTotal], None)
  }

  function HandleCustomerNotFound(d: Data, reply: Payload): Data {
    d.(rejectionReason := Some(UNKNOWN_CUSTOMER))
  }

  function HandleCustomerCreditLimitExceeded(d: Data, reply: Payload): Data {
    d.(rejectionReason := Some(INSUFFICIENT_CREDIT))
  }

  function SagaStepList(): seq<Step<Data>> {
    [LocalStep(Create, Some(Reject)),
     ParticipantStep(
       map["CustomerNotFound" := HandleCustomerNotFound,
           "CustomerCreditLimitExceeded" := HandleCustomerCreditLimitExceeded],
       map[],
       Some(Invocation(None, (d: Data) => (d, ReserveCreditCommand(d)))), None),
     LocalStep(Approve, None)]
  }

  lemma Starts(d: Data)
    ensures FirstThrow(SagaStepList(), 0, d).Some? <==> d.repository.failure.Some?
    ensures d.repository.failure.None? ==>
      var b := Forward(SagaStepList(), 0, d);
      && b.pos == At(1, false) && b.data == Create(d).data && b.command == Some(ReserveCreditCommand(Create(d).data))
  {
    var steps := SagaStepList();
    assert steps[0] == LocalStep(Create, Some(Reject)) && Holds(steps[1].action, Create(d).data);
  }

  /** What a reply says about the reason to reject. */
  function ReasonIn(reply: Reply, otherwise: Option<RejectionReason>): Option<RejectionReason> {
    if reply.replyType == "CustomerNotFound" then Some(UNKNOWN_CUSTOMER)
    else if reply.replyType == "CustomerCreditLimitExceeded" then Some(INSUFFICIENT_CREDIT)
    else otherwise
  }

  lemma Hears(d: Data, reply: Reply)
    ensures var b := OnReply(SagaStepList(), 1, false, d, reply);
      var heard := d.(rejectionReason := ReasonIn(reply, d.rejectionReason));
      && b.Some? && b.value.command == None
      && (if reply.outcome == ReplyOutcome.Success && d.repository.failure.None?
          then b.value.pos == Done(false) && b.value.data == Approve(heard).data
          else b.value.pos == Done(true) && b.value.data == Reject(heard))
  {
    var steps := SagaStepList();
    var heard := d.(rejectionReason := ReasonIn(reply, d.rejectionReason));
    assert AfterReply(steps[1], false, d, reply) == heard;
    assert steps[1].compensation == None && steps[0].undo == Some(Reject);
    assert forall x :: Backward(steps, 0, x) == Burst(Done(true), x, None, []);
    assert forall x :: Backward(steps, 1, x).pos == Done(true) && Backward(steps, 1, x).data == Reject(x);
    assert Backward(steps, 2, heard).pos == Done(true) && Backward(steps, 2, heard).data == Reject(heard);
  }

  // ---------- the customers' side ----------

  const RESERVED := Reply(ReplyOutcome.Success, "CustomerCreditReserved", [])

  /** `available` says whether the customer service can work at all. */
  function Serve(customers: C.Table, c: Command, available: bool): (C.Table, Reply) {
    if !available || |c.args| < 3 || c.args[0] < 0 || c.args[1] < 0 then
      (customers, Reply(Failure, "Error", []))
    else match C.ReserveFor(customers, c.args[0], c.args[1], c.args[2])
      case Ok(after) => (after, RESERVED)
      case Err(CustomerNotFound) => (customers, Reply(Failure, "CustomerNotFound", [c.args[0]]))
      case Err(CustomerCreditLimitExceeded) => (customers, Reply(Failure, "CustomerCreditLimitExceeded", []))
  }

  // ---------- any number of orders ----------

  datatype Box = Asked(command: Command) | Answered(reply: Reply) | Quiet

  datatype Saga = Saga(pos: Position, data: Data, box: Box, heard: Option<Reply>)

  datatype Net = Net(orders: Orders, customers: C.Table, sagas: map<nat, Saga>)

  datatype Move =
    | NewCustomer(customerId: nat, creditLimit: int)
    | StartSaga(id: nat, details: OrderDetails, freshId: nat, failure: Option<string>)
    | CustomerServes(id: nat, available: bool)
    | SagaHears(id: nat, failure: Option<string>)

  predicate CanServe(n: Net, id: nat) {
    id in n.sagas && n.sagas[id].box.Asked?
  }

  predicate CanHear(n: Net, id: nat) {
    id in n.sagas && n.sagas[id].box.Answered? && n.sagas[id].pos == At(1, false)
  }

  function BoxOf(command: Option<Command>): Box {
    if command.Some? then Asked(command.value) else Quiet
  }

  /** A saga whose first step throws leaves nothing behind. */
  function Started(n: Net, id: nat, d: Data): Net {
    if FirstThrow(SagaStepList(), 0, d).Some? then n
    else
      var b := Forward(SagaStepList(), 0, d);
      n.(orders := b.data.repository.orders, sagas := n.sagas[id := Saga(b.pos, b.data, BoxOf(b.command), None)])
  }

  function Served(n: Net, id: nat, available: bool): Net
    requires CanServe(n, id)
  {
    var s := n.sagas[id];
    var (customers, reply) := Serve(n.customers, s.box.command, available);
    n.(customers := customers, sagas := n.sagas[id := s.(box := Answered(reply))])
  }

  /** The saga's local steps find the repository as it is now. */
  function Heard(n: Net, id: nat, failure: Option<string>): Net
    requires CanHear(n, id)
  {
    var s := n.sagas[id];
    var d := s.data.(repository := s.data.repository.(orders := n.orders, failure := failure));
    match OnReply(SagaStepList(), 1, false, d, s.box.reply)
    case None => n
    case Some(b) =>
      n.(orders := b.data.repository.orders,
         sagas := n.sagas[id := Saga(b.pos, b.data, BoxOf(b.command), Some(s.box.reply))])
  }

  /** The network starts and moves a saga as the saga manager does. */
  lemma ManagerStarts(n: Net, id: nat, d: Data, next: nat)
    requires id !in n.sagas && d.id == None
    ensures var r := M.Begin(SagaStepList(), next, id, d, None);
      var t := Started(n, id, d);
      if r.rejection == None then
        && id in t.sagas && r.instance.pos == t.sagas[id].pos && r.instance.data == t.sagas[id].data
        && t.sagas[id].box.Asked? && r.sent == [M.CommandSent(id, t.sagas[id].box.command)]
      else r.rejection.value.LocalException? && t == n
  {
    Starts(d);
    hide Forward, FirstThrow, SagaStepList;
  }

  /** At the end the manager also unlocks what the replies had locked; the network has no locks. */
  lemma ManagerHears(n: Net, id: nat, x: M.Instance<Data>, m: M.ReplyMessage, next: nat, failure: Option<string>)
    requires CanHear(n, id) && m.sagaId == id && x.pos == At(1, false) && m.reply == n.sagas[id].box.reply
    requires x.data == n.sagas[id].data.(
      repository := n.sagas[id].data.repository.(orders := n.orders, failure := failure))
    ensures CanWait(SagaStepList(), x.pos)
    ensures var r := M.React(SagaStepList(), next, x, m);
      var t := Heard(n, id, failure);
      && r.rejection == None && r.sent == M.UnlocksFor(id, M.Lock(x, m).destinations)
      && r.instance.pos == t.sagas[id].pos && r.instance.data == t.sagas[id].data
      && t.orders == r.instance.data.repository.orders && t.sagas[id].box == Quiet
  {
    Hears(x.data, m.reply);
    assert CanWait(SagaStepList(), x.pos);
    hide OnReply, SagaStepList, CanWait, M.UnlocksFor, M.Lock;
  }

  function Next(n: Net, m: Move): Net {
    match m
    case NewCustomer(customerId, limit) =>
      if customerId in n.customers then n
      else n.(customers := n.customers[customerId := C.CustomerValue(limit, [])])
    case StartSaga(id, details, freshId, failure) =>
      if id in n.sagas || freshId in n.orders then n
      else Started(n, id, Data(details, None, None, Repository(n.orders, freshId, failure)))
    case CustomerServes(id, available) => if CanServe(n, id) then Served(n, id, available) else n
    case SagaHears(id, failure) => if CanHear(n, id) then Heard(n, id, failure) else n
  }

  function Run(moves: seq<Move>): Net {
    if moves == [] then Net(map[], map[], map[])
    else Next(Run(moves[..|moves| - 1]), moves[|moves| - 1])
  }

  // ---------- reservations and orders ----------

  predicate ReservedAt(customers: C.Table, c: nat, k: nat, orderId: nat) {
    c in customers && k < |customers[c].creditReservations| && customers[c].creditReservations[k].orderId == orderId
  }

  ghost predicate HoldsNone(customers: C.Table, orderId: nat) {
    forall c: nat, k: nat :: !ReservedAt(customers, c, k, orderId)
  }

  /** One reservation anywhere for the order: with its customer, for its total. */
  ghost predicate HoldsOne(customers: C.Table, orderId: nat, details: OrderDetails) {
    exists k: nat :: ReservedAt(customers, details.customerId, k, orderId)
      && customers[details.customerId].creditReservations[k].amount == details.orderTotal
      && forall c: nat, j: nat :: ReservedAt(customers, c, j, orderId) ==> c == details.customerId && j == k
  }

  ghost predicate HoldsBy(customers: C.Table, orderId: nat, details: OrderDetails, reply: Reply) {
    if reply.outcome == ReplyOutcome.Success then HoldsOne(customers, orderId, details) && reply == RESERVED
    else HoldsNone(customers, orderId)
  }

  /** Where a saga stands tells the state of its order, and the reply it had, whether credit is reserved. */
  ghost predicate SagaOk(orders: Orders, customers: C.Table, s: Saga) {
    && s.data.id.Some? && s.data.id.value in orders
    && var id := s.data.id.value;
       var order := orders[id];
       && order.details == s.data.details
       && match s.pos
          case At(i, compensating) =>
            && i == 1 && !compensating && s.heard == None && s.data.rejectionReason == None
            && order.state == PENDING && order.rejectionReason == None
            && (match s.box
                case Asked(c) => c == ReserveCreditCommand(s.data) && HoldsNone(customers, id)
                case Answered(reply) => HoldsBy(customers, id, order.details, reply)
                case Quiet => false)
          case Done(compensating) =>
            && s.box == Quiet && s.heard.Some?
            && HoldsBy(customers, id, order.details, s.heard.value)
            && order.state == (if compensating then REJECTED else APPROVED)
            && order.rejectionReason == ReasonIn(s.heard.value, None)
            && (s.heard.value.outcome == Failure ==> compensating)
          case Created => false
  }

  ghost predicate Limits(customers: C.Table) {
    forall c :: c in customers ==> C.WithinLimit(customers[c])
  }

  ghost predicate OrderIds(customers: C.Table, orders: Orders) {
    forall c: nat, k: nat, o: nat :: ReservedAt(customers, c, k, o) ==> o in orders
  }

  ghost predicate CustomersOk(n: Net) {
    Limits(n.customers) && OrderIds(n.customers, n.orders)
  }

  ghost predicate OneSagaEach(n: Net) {
    && (forall i, j :: i in n.sagas && j in n.sagas && n.sagas[i].data.id == n.sagas[j].data.id ==> i == j)
    && (forall o :: o in n.orders ==> exists i :: i in n.sagas && n.sagas[i].data.id == Some(o))
  }

  ghost predicate Inv(n: Net) {
    && CustomersOk(n)
    && OneSagaEach(n)
    && forall i :: i in n.sagas ==> SagaOk(n.orders, n.customers, n.sagas[i])
  }

  /** Customers of whom only the list of reservations of one other order may differ. */
  ghost predicate SameBut(was: C.Table, now: C.Table, orderId: Option<nat>) {
    forall c: nat, k: nat, o: nat {:trigger ReservedAt(was, c, k, o)} {:trigger ReservedAt(now, c, k, o)} ::
      Some(o) != orderId ==>
        && ReservedAt(was, c, k, o) == ReservedAt(now, c, k, o)
        && (ReservedAt(was, c, k, o) ==> was[c].creditReservations[k] == now[c].creditReservations[k])
  }

  lemma HoldsTheSame(was: C.Table, now: C.Table, orderId: Option<nat>, o: nat, details: OrderDetails)
    requires SameBut(was, now, orderId) && Some(o) != orderId
    ensures HoldsNone(was, o) ==> HoldsNone(now, o)
    ensures HoldsOne(was, o, details) ==> HoldsOne(now, o, details)
  {
    if HoldsOne(was, o, details) {
      var k: nat :| ReservedAt(was, details.customerId, k, o)
        && was[details.customerId].creditReservations[k].amount == details.orderTotal
        && forall c: nat, j: nat :: ReservedAt(was, c, j, o) ==> c == details.customerId && j == k;
      assert ReservedAt(now, details.customerId, k, o);
    }
  }

  /** A saga stays as it should be when its own order's row and reservations are left alone. */
  lemma StaysOk(n: Net, t: Net, orderId: Option<nat>, s: Saga)
    requires SagaOk(n.orders, n.customers, s) && s.data.id != orderId
    requires SameBut(n.customers, t.customers, orderId)
    requires s.data.id.value in t.orders && t.orders[s.data.id.value] == n.orders[s.data.id.value]
    ensures SagaOk(t.orders, t.customers, s)
  {
    HoldsTheSame(n.customers, t.customers, orderId, s.data.id.value, s.data.details);
    hide HoldsNone, HoldsOne, SameBut, ReasonIn, ReserveCreditCommand;
  }

  /** A new customer has reserved nothing. */
  lemma NewCustomerHoldsNothing(n: Net, m: Move)
    requires CustomersOk(n) && m.NewCustomer?
    ensures var t := Next(n, m);
      SameBut(n.customers, t.customers, None) && CustomersOk(t) && t.orders == n.orders && t.sagas == n.sagas
  {
  }

  lemma NewCustomerKeeps(n: Net, m: Move)
    requires Inv(n) && m.NewCustomer?
    ensures Inv(Next(n, m))
  {
    NewCustomerHoldsNothing(n, m);
    hide CustomersOk, SagaOk, SameBut, Next;
    var t := Next(n, m);
    forall i | i in n.sagas ensures n.sagas[i].data.id.Some? && n.sagas[i].data.id.value in n.orders {
      SagaHasItsOrder(n, i);
    }
    forall i | i in n.sagas ensures SagaOk(t.orders, t.customers, t.sagas[i]) {
      StaysOk(n, t, None, n.sagas[i]);
    }
  }

  lemma SagaHasItsOrder(n: Net, i: nat)
    requires i in n.sagas && SagaOk(n.orders, n.customers, n.sagas[i])
    ensures n.sagas[i].data.id.Some? && n.sagas[i].data.id.value in n.orders
  {
  }

  lemma StartingKeeps(n: Net, m: Move)
    requires Inv(n) && m.StartSaga?
    ensures Inv(Next(n, m))
  {
    var d := Data(m.details, None, None, Repository(n.orders, m.freshId, m.failure));
    Starts(d);
    hide Inv, FirstThrow, Forward, SagaStepList;
    if m.id !in n.sagas && m.freshId !in n.orders && m.failure.None? {
      PlacingKeeps(n, Next(n, m), m.id, Create(d).data);
    }
  }

  /** A new order under a fresh id, and the saga that asks to reserve its credit. */
  lemma PlacingKeeps(n: Net, t: Net, id: nat, d: Data)
    requires Inv(n) && id !in n.sagas && d.id.Some? && d.id.value !in n.orders && d.rejectionReason == None
    requires t.orders == n.orders[d.id.value := Order(d.details, PENDING, None)] && t.customers == n.customers
    requires t.sagas == n.sagas[id := Saga(At(1, false), d, Asked(ReserveCreditCommand(d)), None)]
    ensures Inv(t)
  {
    NewOrderHoldsNothing(n, t, d.id.value);
    assert SagaOk(t.orders, t.customers, t.sagas[id]) by { hide HoldsNone; }
    hide CustomersOk, HoldsNone, SagaOk, SameBut;
    forall i | i in n.sagas ensures n.sagas[i].data.id.Some? && n.sagas[i].data.id.value in n.orders {
      SagaHasItsOrder(n, i);
    }
    StartsItsOwnOrder(n, t, id, d.id.value);
    hide OneSagaEach;
    forall i | i in t.sagas ensures SagaOk(t.orders, t.customers, t.sagas[i]) {
      if i != id { StaysOk(n, t, d.id, n.sagas[i]); }
    }
  }

  /** Nobody has reserved anything for an order that is not there. */
  lemma NewOrderHoldsNothing(n: Net, t: Net, orderId: nat)
    requires CustomersOk(n) && orderId !in n.orders
    requires t.customers == n.customers && forall o :: o in n.orders ==> o in t.orders
    ensures SameBut(n.customers, t.customers, Some(orderId)) && HoldsNone(t.customers, orderId) && CustomersOk(t)
  {
    hide C.WithinLimit, ReservedAt;
  }

  lemma StartsItsOwnOrder(n: Net, t: Net, id: nat, orderId: nat)
    requires OneSagaEach(n) && id !in n.sagas && orderId !in n.orders
    requires forall i :: i in n.sagas ==> n.sagas[i].data.id.Some? && n.sagas[i].data.id.value in n.orders
    requires t.orders.Keys == n.orders.Keys + {orderId}
    requires id in t.sagas && t.sagas == n.sagas[id := t.sagas[id]] && t.sagas[id].data.id == Some(orderId)
    ensures OneSagaEach(t)
  {
    assert forall i :: i in n.sagas ==> n.sagas[i].data.id != Some(orderId);
    forall o | o in t.orders ensures exists i :: i in t.sagas && t.sagas[i].data.id == Some(o) {
      if o == orderId {
        assert t.sagas[id].data.id == Some(o);
      } else {
        var i :| i in n.sagas && n.sagas[i].data.id == Some(o);
        assert t.sagas[i] == n.sagas[i];
      }
    }
  }

  lemma Appends(was: C.Table, now: C.Table, orderId: nat, details: OrderDetails)
    requires C.ReserveFor(was, details.customerId, orderId, details.orderTotal) == Ok(now)
    ensures forall c: nat, k: nat, o: nat {:trigger ReservedAt(now, c, k, o)} ::
      ReservedAt(now, c, k, o) <==>
        || ReservedAt(was, c, k, o)
        || (c == details.customerId && k == |was[c].creditReservations| && o == orderId)
    ensures SameBut(was, now, Some(orderId))
  {
    hide C.TotalReserved;
  }

  lemma Reserves(was: C.Table, now: C.Table, orderId: nat, details: OrderDetails)
    requires HoldsNone(was, orderId) && C.ReserveFor(was, details.customerId, orderId, details.orderTotal) == Ok(now)
    ensures HoldsOne(now, orderId, details)
  {
    Appends(was, now, orderId, details);
    hide SameBut, C.TotalReserved;
    var c := details.customerId;
    var k: nat := |was[c].creditReservations|;
    assert now[c].creditReservations[k].amount == details.orderTotal;
    hide C.ReserveFor, ReservedAt;
    assert ReservedAt(now, c, k, orderId);
  }

  lemma OthersStayOk(n: Net, t: Net, id: nat)
    requires Inv(n) && id in n.sagas && id in t.sagas && n.sagas[id].data.id.Some?
    requires t.sagas == n.sagas[id := t.sagas[id]]
    requires forall o :: o in n.orders && Some(o) != n.sagas[id].data.id ==> o in t.orders && t.orders[o] == n.orders[o]
    requires SameBut(n.customers, t.customers, n.sagas[id].data.id)
    requires SagaOk(t.orders, t.customers, t.sagas[id])
    ensures forall i :: i in t.sagas ==> SagaOk(t.orders, t.customers, t.sagas[i])
  {
    hide CustomersOk, HoldsBy, HoldsNone, SameBut, ReserveCreditCommand, ReasonIn;
    forall i | i in t.sagas && i != id ensures SagaOk(t.orders, t.customers, t.sagas[i]) {
      assert SagaOk(n.orders, n.customers, n.sagas[i]);
      StaysOk(n, t, n.sagas[id].data.id, n.sagas[i]);
    }
  }

  /** Nothing but the saga, its order's row and its order's reservations changed. */
  lemma ItsOwnStaysOk(n: Net, t: Net, id: nat)
    requires Inv(n) && id in n.sagas && id in t.sagas
    requires t.sagas == n.sagas[id := t.sagas[id]] && t.sagas[id].data.id == n.sagas[id].data.id
    requires n.sagas[id].data.id.Some? && n.sagas[id].data.id.value in t.orders
    requires t.orders == n.orders[n.sagas[id].data.id.value := t.orders[n.sagas[id].data.id.value]]
    requires SameBut(n.customers, t.customers, n.sagas[id].data.id)
    requires CustomersOk(t) && SagaOk(t.orders, t.customers, t.sagas[id])
    ensures Inv(t)
  {
    OthersStayOk(n, t, id);
    assert t.orders.Keys == n.orders.Keys by { assert SagaOk(n.orders, n.customers, n.sagas[id]); }
    hide *;
    SagasStayApart(n, t, id);
  }

  lemma SagasStayApart(n: Net, t: Net, id: nat)
    requires OneSagaEach(n) && id in n.sagas && id in t.sagas && t.orders.Keys == n.orders.Keys
    requires t.sagas == n.sagas[id := t.sagas[id]] && t.sagas[id].data.id == n.sagas[id].data.id
    ensures OneSagaEach(t)
  {
    assert forall i :: i in t.sagas ==> t.sagas[i].data.id == n.sagas[i].data.id;
    forall o | o in t.orders ensures exists i :: i in t.sagas && t.sagas[i].data.id == Some(o) {
      var i :| i in n.sagas && n.sagas[i].data.id == Some(o);
      assert t.sagas[i].data.id == Some(o);
    }
  }

  lemma ReservingKeepsCustomers(n: Net, t: Net, orderId: nat, details: OrderDetails)
    requires CustomersOk(n) && t.orders == n.orders && orderId in n.orders
    requires C.ReserveFor(n.customers, details.customerId, orderId, details.orderTotal) == Ok(t.customers)
    ensures CustomersOk(t)
  {
    hide Limits, OrderIds, SameBut, ReservedAt, C.ReserveFor;
    Appends(n.customers, t.customers, orderId, details);
    LimitsStay(n, t, orderId, details);
    OrderIdsStay(n, t, orderId);
  }

  lemma LimitsStay(n: Net, t: Net, orderId: nat, details: OrderDetails)
    requires CustomersOk(n)
    requires C.ReserveFor(n.customers, details.customerId, orderId, details.orderTotal) == Ok(t.customers)
    ensures Limits(t.customers)
  {
    hide C.TotalReserved, C.WithinLimit, C.AvailableCredit, OrderIds;
    var c := details.customerId;
    C.ReservingStaysWithin(n.customers[c], orderId, details.orderTotal);
    assert C.WithinLimit(t.customers[c]) && t.customers == n.customers[c := t.customers[c]];
    hide C.ReserveFor, C.Reserve;
  }

  lemma OrderIdsStay(n: Net, t: Net, orderId: nat)
    requires CustomersOk(n) && t.orders == n.orders && orderId in n.orders
    requires SameBut(n.customers, t.customers, Some(orderId))
    ensures OrderIds(t.customers, t.orders)
  {
    hide ReservedAt, C.WithinLimit;
  }

  /** What the customers answer to a saga that asked, and what they hold then. */
  lemma ServingAnswers(n: Net, id: nat, available: bool)
    requires Inv(n) && CanServe(n, id)
    ensures var t := Served(n, id, available);
      && SagaOk(t.orders, t.customers, t.sagas[id]) && SameBut(n.customers, t.customers, n.sagas[id].data.id)
      && CustomersOk(t)
  {
    var s := n.sagas[id];
    assert SagaOk(n.orders, n.customers, s);
    var t := Served(n, id, available);
    var orderId, details := s.data.id.value, s.data.details;
    hide OneSagaEach, C.TotalReserved, CustomersOk, HoldsOne;
    if t.customers == n.customers {
      assert SameBut(n.customers, t.customers, s.data.id);
      SameCustomersOk(n, t);
    } else {
      assert C.ReserveFor(n.customers, details.customerId, orderId, details.orderTotal) == Ok(t.customers);
      Appends(n.customers, t.customers, orderId, details);
      Reserves(n.customers, t.customers, orderId, details);
      ReservingKeepsCustomers(n, t, orderId, details);
    }
  }

  lemma SameCustomersOk(n: Net, t: Net)
    requires CustomersOk(n) && t.customers == n.customers && t.orders == n.orders
    ensures CustomersOk(t)
  {
  }

  lemma ServingKeeps(n: Net, id: nat, available: bool)
    requires Inv(n) && CanServe(n, id)
    ensures Inv(Served(n, id, available))
  {
    ServingAnswers(n, id, available);
    assert SagaOk(n.orders, n.customers, n.sagas[id]);
    hide Inv, CustomersOk, SameBut, HoldsBy, HoldsNone, Serve;
    ItsOwnStaysOk(n, Served(n, id, available), id);
  }

  /** A saga that hears its answer ends, and its order is decided. */
  lemma HearingEnds(n: Net, id: nat, failure: Option<string>)
    requires CanHear(n, id) && SagaOk(n.orders, n.customers, n.sagas[id])
    ensures var (s, t) := (n.sagas[id], Heard(n, id, failure));
      && t.customers == n.customers && id in t.sagas && t.sagas == n.sagas[id := t.sagas[id]]
      && s.data.id.Some? && s.data.id.value in n.orders && s.data.id == t.sagas[id].data.id
      && s.data.id.value in t.orders && t.orders == n.orders[s.data.id.value := t.orders[s.data.id.value]]
      && SagaOk(t.orders, t.customers, t.sagas[id])
  {
    var s := n.sagas[id];
    Hears(s.data.(repository := s.data.repository.(orders := n.orders, failure := failure)), s.box.reply);
    hide OnReply, SagaStepList, HoldsOne, HoldsNone, ReserveCreditCommand;
  }

  lemma HearingKeeps(n: Net, id: nat, failure: Option<string>)
    requires Inv(n) && CanHear(n, id)
    ensures Inv(Heard(n, id, failure))
  {
    HearingEnds(n, id, failure);
    hide Heard, CanHear, OneSagaEach, SagaOk, Limits, ReservedAt;
    var t := Heard(n, id, failure);
    assert SameBut(n.customers, t.customers, n.sagas[id].data.id) && CustomersOk(t);
    hide Inv, SameBut, CustomersOk;
    ItsOwnStaysOk(n, t, id);
  }

  lemma {:induction false} EveryNetIsOk(moves: seq<Move>)
    ensures Inv(Run(moves))
  {
    if moves != [] {
      var m := moves[|moves| - 1];
      var n := Run(moves[..|moves| - 1]);
      EveryNetIsOk(moves[..|moves| - 1]);
      hide Inv, Run;
      match m {
        case NewCustomer(_, _) => NewCustomerKeeps(n, m);
        case StartSaga(_, _, _, _) => StartingKeeps(n, m);
        case CustomerServes(id, available) => if CanServe(n, id) { ServingKeeps(n, id, available); }
        case SagaHears(id, failure) => if CanHear(n, id) { HearingKeeps(n, id, failure); }
      }
      assert Inv(Next(n, m));
    }
  }

  // ---------- every run ----------

  lemma SagaOf(moves: seq<Move>, o: nat) returns (id: nat)
    requires o in Run(moves).orders
    ensures id in Run(moves).sagas && Run(moves).sagas[id].data.id == Some(o)
    ensures SagaOk(Run(moves).orders, Run(moves).customers, Run(moves).sagas[id])
  {
    EveryNetIsOk(moves);
    hide Run, SagaOk, CustomersOk;
    id :| id in Run(moves).sagas && Run(moves).sagas[id].data.id == Some(o);
  }

  /** An approved order has one reservation, with its customer and for its total; one rejected with a reason, none. */
  lemma OrdersAndTheirReservations(moves: seq<Move>, o: nat)
    requires o in Run(moves).orders
    ensures var (order, customers) := (Run(moves).orders[o], Run(moves).customers);
      && (order.state == APPROVED ==> HoldsOne(customers, o, order.details) && order.rejectionReason == None)
      && (order.state == REJECTED && order.rejectionReason.Some? ==> HoldsNone(customers, o))
  {
    var id := SagaOf(moves, o);
    hide Run, HoldsOne, HoldsNone;
  }

  /** Every reservation is for one order, and nobody's reservations exceed the limit. */
  lemma ReservationsFit(moves: seq<Move>, c: nat, k: nat)
    requires var customers := Run(moves).customers; c in customers && k < |customers[c].creditReservations|
    ensures var n := Run(moves);
      var reservation := n.customers[c].creditReservations[k];
      && C.TotalReserved(n.customers[c].creditReservations) <= n.customers[c].creditLimit
      && reservation.orderId in n.orders
      && HoldsOne(n.customers, reservation.orderId, n.orders[reservation.orderId].details)
      && n.orders[reservation.orderId].details == OrderDetails(c, reservation.amount)
  {
    var n := Run(moves);
    EveryNetIsOk(moves);
    hide Run, C.TotalReserved;
    var o := n.customers[c].creditReservations[k].orderId;
    assert ReservedAt(n.customers, c, k, o);
    var id := SagaOf(moves, o);
    assert !HoldsNone(n.customers, o);
  }

  /** The totals of some orders. */
  function Totals(orders: Orders): map<nat, int> {
    map o | o in orders :: orders[o].details.orderTotal
  }

  lemma ApprovedHolds(moves: seq<Move>, o: nat)
    requires o in Run(moves).orders && Run(moves).orders[o].state == APPROVED
    ensures var n := Run(moves);
      var details := n.orders[o].details;
      && details.customerId in n.customers
      && C.Holds(n.customers[details.customerId].creditReservations, o, details.orderTotal)
  {
    var n := Run(moves);
    OrdersAndTheirReservations(moves, o);
    hide Run;
    assert HoldsOne(n.customers, o, n.orders[o].details);
  }

  lemma ReservationsAreForOneOrderEach(moves: seq<Move>, c: nat)
    requires c in Run(moves).customers
    ensures C.OneEach(Run(moves).customers[c].creditReservations)
  {
    var n := Run(moves);
    var reservations := n.customers[c].creditReservations;
    assert forall k: nat :: k < |reservations| ==> ReservedAt(n.customers, c, k, reservations[k].orderId);
    forall i: nat, j: nat | i < j < |reservations| ensures reservations[i].orderId != reservations[j].orderId {
      ReservationsFit(moves, c, i);
    }
  }

  /** The orders of a customer that are approved, each once; some or all of them. */
  ghost predicate ApprovedOf(orders: Orders, c: nat, ids: seq<nat>) {
    && (forall i, j :: 0 <= i < j < |ids| ==> ids[i] != ids[j])
    && (forall k :: 0 <= k < |ids| ==>
         ids[k] in orders && orders[ids[k]].state == APPROVED && orders[ids[k]].details.customerId == c)
  }

  /**
   Any approved orders of a customer and the reservations for all other orders add up to
   what is reserved, which is within the limit, whatever the signs of the totals. So the
   approved orders fit the limit if and only if what the other reservations give back, if
   they are negative, is at most the credit still available.
   */
  lemma ApprovedTotalsFitExactly(moves: seq<Move>, c: nat, ids: seq<nat>)
    requires ids != [] && ApprovedOf(Run(moves).orders, c, ids)
    ensures c in Run(moves).customers
    ensures var customer := Run(moves).customers[c];
      var (total, outside) :=
        (C.SumOf(ids, Totals(Run(moves).orders)), C.AmountOutside(customer.creditReservations, ids));
      && total + outside == C.TotalReserved(customer.creditReservations) <= customer.creditLimit
      && (total <= customer.creditLimit <==> -outside <= C.AvailableCredit(customer))
  {
    var n := Run(moves);
    var amounts := Totals(n.orders);
    ApprovedHolds(moves, ids[0]);
    var reservations := n.customers[c].creditReservations;
    forall k | 0 <= k < |ids| ensures C.Holds(reservations, ids[k], amounts[ids[k]]) {
      ApprovedHolds(moves, ids[k]);
    }
    ReservationsAreForOneOrderEach(moves, c);
    hide Run, HoldsOne, ReservedAt, C.TotalReserved;
    C.SumAndOutside(ids, amounts, reservations);
    assert reservations != [] by { assert C.Holds(reservations, ids[0], amounts[ids[0]]); }
    ReservationsFit(moves, c, 0);
  }

  /** So they fit when none of the customer's other orders has a negative total. */
  lemma ApprovedTotalsFit(moves: seq<Move>, c: nat, ids: seq<nat>)
    requires ids != [] && ApprovedOf(Run(moves).orders, c, ids)
    requires var orders := Run(moves).orders;
      forall o :: o in orders && orders[o].details.customerId == c && o !in ids ==> orders[o].details.orderTotal >= 0
    ensures c in Run(moves).customers
    ensures C.SumOf(ids, Totals(Run(moves).orders)) <= Run(moves).customers[c].creditLimit
  {
    ApprovedTotalsFitExactly(moves, c, ids);
    var reservations := Run(moves).customers[c].creditReservations;
    forall k: nat | k < |reservations| && reservations[k].orderId !in ids ensures reservations[k].amount >= 0 {
      ReservationsFit(moves, c, k);
    }
    hide Run, HoldsOne, C.TotalReserved;
    C.NothingNegativeOutside(reservations, ids);
  }

  // ---------- a negative total ----------

  /** An order placed with customer 0, its credit asked for and granted. */
  lemma PlacedAndGranted(n: Net, id: nat, total: int)
    requires id !in n.sagas && id !in n.orders && 0 in n.customers
    requires C.Reserve(n.customers[0], id, total).Some?
    ensures var t := Next(Next(n, StartSaga(id, OrderDetails(0, total), id, None)), CustomerServes(id, true));
      && t.orders == n.orders[id := Order(OrderDetails(0, total), PENDING, None)]
      && t.customers == n.customers[0 := C.Reserve(n.customers[0], id, total).value]
      && t.sagas.Keys == n.sagas.Keys + {id}
      && t.sagas[id].pos == At(1, false) && t.sagas[id].box == Answered(RESERVED) && t.sagas[id].data.id == Some(id)
      && t.sagas[id].data.rejectionReason == None
  {
    Starts(Data(OrderDetails(0, total), None, None, Repository(n.orders, id, None)));
    hide Forward, FirstThrow, SagaStepList, C.Reserve;
  }

  lemma ThenApproved(n: Net, id: nat)
    requires CanHear(n, id) && n.sagas[id].box == Answered(RESERVED)
    requires n.sagas[id].data.id == Some(id) && n.sagas[id].data.rejectionReason == None
    requires id in n.orders && n.orders[id].rejectionReason == None
    ensures var t := Next(n, SagaHears(id, None));
      && t.orders == n.orders[id := n.orders[id].(state := APPROVED)]
      && t.customers == n.customers && t.sagas.Keys == n.sagas.Keys
  {
    var s := n.sagas[id];
    Hears(s.data.(repository := s.data.repository.(orders := n.orders, failure := None)), RESERVED);
    hide OnReply, SagaStepList;
  }

  function Placing(id: nat, total: int): seq<Move> {
    [StartSaga(id, OrderDetails(0, total), id, None), CustomerServes(id, true)]
  }

  /** A limit of 10; an order of 10 is approved, one of -5 is granted its credit, one of 5 is approved. */
  function Overdraw(): seq<Move> {
    Opening() + Placing(0, 10) + [SagaHears(0, None)] + Placing(1, -5) + Placing(2, 5) + [SagaHears(2, None)]
  }

  function Opening(): seq<Move> {
    [NewCustomer(0, 10)]
  }

  lemma RunMore(moves: seq<Move>, m: Move)
    ensures Run(moves + [m]) == Next(Run(moves), m)
  {
    assert (moves + [m])[..|moves|] == moves;
  }

  lemma RunPlacing(moves: seq<Move>, id: nat, total: int)
    ensures Run(moves + Placing(id, total)) ==
      Next(Next(Run(moves), StartSaga(id, OrderDetails(0, total), id, None)), CustomerServes(id, true))
  {
    var start, serve := StartSaga(id, OrderDetails(0, total), id, None), CustomerServes(id, true);
    RunMore(moves, start);
    RunMore(moves + [start], serve);
    assert moves + Placing(id, total) == moves + [start] + [serve];
    hide Run, Next;
  }

  /** One customer, number 0, and one saga for each order. */
  predicate Stands(n: Net, orders: Orders, customer: C.CustomerValue) {
    n.orders == orders && n.customers == map[0 := customer] && n.sagas.Keys == orders.Keys
  }

  lemma PlacingStands(moves: seq<Move>, orders: Orders, c: C.CustomerValue, id: nat, total: int, after: C.CustomerValue)
    requires Stands(Run(moves), orders, c) && id !in orders && C.Reserve(c, id, total) == Some(after)
    ensures var t := Run(moves + Placing(id, total));
      && Stands(t, orders[id := Order(OrderDetails(0, total), PENDING, None)], after)
      && CanHear(t, id) && t.sagas[id].box == Answered(RESERVED)
      && t.sagas[id].data.id == Some(id) && t.sagas[id].data.rejectionReason == None
  {
    hide Run, Next, Placing, C.Reserve;
    RunPlacing(moves, id, total);
    PlacedAndGranted(Run(moves), id, total);
  }

  lemma ApprovingStands(
    moves: seq<Move>, orders: Orders, c: C.CustomerValue, id: nat, total: int, after: C.CustomerValue)
    requires Stands(Run(moves), orders, c) && id !in orders && C.Reserve(c, id, total) == Some(after)
    ensures Stands(Run(moves + Placing(id, total) + [SagaHears(id, None)]),
      orders[id := Order(OrderDetails(0, total), APPROVED, None)], after)
  {
    hide Run, Next, Placing, C.Reserve;
    var placed := moves + Placing(id, total);
    PlacingStands(moves, orders, c, id, total, after);
    RunMore(placed, SagaHears(id, None));
    ThenApproved(Run(placed), id);
  }

  /** It happens: with a pending order of -5, approved orders of 10 and 5 exceed the limit of 10. */
  lemma NegativeTotalsOverdraw()
    ensures var n := Run(Overdraw());
      && ApprovedOf(n.orders, 0, [0, 2]) && 0 in n.customers
      && n.customers[0].creditLimit == 10 && C.SumOf([0, 2], Totals(n.orders)) == 15
  {
    hide *;
    var c0, c1, c2, c3 := Grants();
    OverdrawRuns(c0, c1, c2, c3);
    OverdrawnStands(Run(Overdraw()), c3);
  }

  lemma Grants() returns (c0: C.CustomerValue, c1: C.CustomerValue, c2: C.CustomerValue, c3: C.CustomerValue)
    ensures c0 == C.CustomerValue(10, []) && c3.creditLimit == 10
    ensures C.Reserve(c0, 0, 10) == Some(c1) && C.Reserve(c1, 1, -5) == Some(c2) && C.Reserve(c2, 2, 5) == Some(c3)
  {
    c0 := C.CustomerValue(10, []);
    assert C.AvailableCredit(c0) == 10;
    hide *;
    C.ReservingSpends(c0, 0, 10);
    c1 := C.Reserve(c0, 0, 10).value;
    C.ReservingSpends(c1, 1, -5);
    c2 := C.Reserve(c1, 1, -5).value;
    C.ReservingSpends(c2, 2, 5);
    c3 := C.Reserve(c2, 2, 5).value;
  }

  function Overdrawn(): Orders {
    map[0 := Order(OrderDetails(0, 10), APPROVED, None),
        1 := Order(OrderDetails(0, -5), PENDING, None),
        2 := Order(OrderDetails(0, 5), APPROVED, None)]
  }

  lemma OverdrawRuns(c0: C.CustomerValue, c1: C.CustomerValue, c2: C.CustomerValue, c3: C.CustomerValue)
    requires c0 == C.CustomerValue(10, []) && c3.creditLimit == 10
    requires C.Reserve(c0, 0, 10) == Some(c1) && C.Reserve(c1, 1, -5) == Some(c2) && C.Reserve(c2, 2, 5) == Some(c3)
    ensures Stands(Run(Overdraw()), Overdrawn(), c3)
  {
    hide C.Reserve;
    var ms := Opening();
    assert Stands(Run(ms), map[], c0) by { assert ms[..0] == []; }
    hide Opening, Run, Stands, Placing;
    ApprovingStands(ms, map[], c0, 0, 10, c1);
    var ms1 := ms + Placing(0, 10) + [SagaHears(0, None)];
    var o0 := map[0 := Order(OrderDetails(0, 10), APPROVED, None)];
    PlacingStands(ms1, o0, c1, 1, -5, c2);
    ApprovingStands(ms1 + Placing(1, -5), o0[1 := Order(OrderDetails(0, -5), PENDING, None)], c2, 2, 5, c3);
  }

  lemma OverdrawnStands(n: Net, c: C.CustomerValue)
    requires Stands(n, Overdrawn(), c) && c.creditLimit == 10
    ensures ApprovedOf(n.orders, 0, [0, 2]) && 0 in n.customers
    ensures n.customers[0].creditLimit == 10 && C.SumOf([0, 2], Totals(n.orders)) == 15
  {
    var totals := Totals(n.orders);
    assert [0, 2][1..] == [2] && [2][1..] == [];
    assert C.SumOf([], totals) == 0 && C.SumOf([2], totals) == 5;
  }

  /**
   How a saga ends: its order is approved or rejected as its direction says, and it holds
   credit exactly when the customer had reserved it, and then has no reason.
   */
  lemma EndsWithCreditExactlyIfReserved(moves: seq<Move>, id: nat)
    requires id in Run(moves).sagas && Run(moves).sagas[id].pos.Done?
    ensures var n := Run(moves);
      var s := n.sagas[id];
      && s.data.id.Some? && s.data.id.value in n.orders && s.heard.Some?
      && var order := n.orders[s.data.id.value];
      && order.state == (if s.pos.compensating then REJECTED else APPROVED)
      && (HoldsNone(n.customers, s.data.id.value) <==> s.heard.value.outcome == Failure)
      && (s.heard.value == RESERVED ==> HoldsOne(n.customers, s.data.id.value, order.details))
      && order.rejectionReason == (if s.heard.value == RESERVED then None else ReasonIn(s.heard.value, None))
  {
    EveryNetIsOk(moves);
    var n := Run(moves);
    hide Run;
    assert SagaOk(n.orders, n.customers, n.sagas[id]);
    assert HoldsOne(n.customers, n.sagas[id].data.id.value, n.sagas[id].data.details) ==>
      !HoldsNone(n.customers, n.sagas[id].data.id.value);
  }

  /**
   The move that ends a saga decides: the order is approved if and only if the reply was a
   success and the update did not fail; it is rejected and keeps credit if and only if the
   reply was a success and the update failed.
   */
  lemma HearingDecides(moves: seq<Move>, id: nat, failure: Option<string>)
    requires CanHear(Run(moves), id)
    ensures var s := Run(moves).sagas[id];
      var after := Next(Run(moves), SagaHears(id, failure));
      var granted := s.box.reply.outcome == ReplyOutcome.Success;
      && s.data.id.Some? && s.data.id.value in after.orders
      && id in after.sagas && after.sagas[id].pos.Done? && after.sagas[id].data.id == s.data.id
      && after.sagas[id].heard == Some(s.box.reply)
      && var order := after.orders[s.data.id.value];
      && (order.state == APPROVED <==> granted && failure.None?)
      && (order.state == REJECTED && !HoldsNone(after.customers, s.data.id.value) <==> granted && failure.Some?)
      && (after.sagas[id].pos.compensating <==> !(granted && failure.None?))
  {
    var n := Run(moves);
    EveryNetIsOk(moves);
    var s := n.sagas[id];
    assert SagaOk(n.orders, n.customers, s);
    hide Run;
    Hears(s.data.(repository := s.data.repository.(orders := n.orders, failure := failure)), s.box.reply);
    var orderId := s.data.id.value;
    assert HoldsOne(n.customers, orderId, s.data.details) ==> !HoldsNone(n.customers, orderId);
    hide OnReply, SagaStepList, HoldsOne, HoldsNone;
  }

  lemma {:induction false} EndedAt(moves: seq<Move>, id: nat) returns (k: nat)
    requires id in Run(moves).sagas && Run(moves).sagas[id].pos.Done?
    ensures k < |moves| && moves[k].SagaHears? && moves[k].id == id && CanHear(Run(moves[..k]), id)
    ensures var (before, s) := (Run(moves[..k]).sagas[id], Run(moves).sagas[id]);
      && s.data.id == before.data.id && s.heard == Some(before.box.reply)
      && (s.pos.compensating <==> !(before.box.reply.outcome == ReplyOutcome.Success && moves[k].failure.None?))
  {
    var n := |moves| - 1;
    var s := Run(moves[..n]);
    if moves[n].SagaHears? && moves[n].id == id && CanHear(s, id) {
      HearingDecides(moves[..n], id, moves[n].failure);
      k := n;
    } else {
      EndedSagasStay(s, moves[n], id);
      hide Next;
      k := EndedAt(moves[..n], id);
      assert moves[..n][..k] == moves[..k];
    }
  }

  lemma EndedSagasStay(n: Net, m: Move, id: nat)
    requires id in Next(n, m).sagas && Next(n, m).sagas[id].pos.Done?
    requires !(m.SagaHears? && m.id == id && CanHear(n, id))
    ensures id in n.sagas && n.sagas[id].pos.Done?
    ensures var (s, t) := (n.sagas[id], Next(n, m).sagas[id]); t.pos == s.pos && t.data == s.data && t.heard == s.heard
  {
    if m.StartSaga? {
      Starts(Data(m.details, None, None, Repository(n.orders, m.freshId, m.failure)));
    }
    hide Serve, Forward, FirstThrow, OnReply, SagaStepList;
  }

  /**
   In every run, the order of an ended saga is rejected and keeps credit if and only if at
   the move that ended the saga its credit had been granted and the update failed.
   */
  lemma RejectedKeepsCreditExactlyIfApprovalFailed(moves: seq<Move>, id: nat) returns (k: nat)
    requires id in Run(moves).sagas && Run(moves).sagas[id].pos.Done?
    ensures k < |moves| && moves[k].SagaHears? && moves[k].id == id && CanHear(Run(moves[..k]), id)
    ensures var n := Run(moves);
      var o := n.sagas[id].data.id;
      && o.Some? && o.value in n.orders
      && (n.orders[o.value].state == REJECTED && !HoldsNone(n.customers, o.value) <==>
           Run(moves[..k]).sagas[id].box.reply.outcome == ReplyOutcome.Success && moves[k].failure.Some?)
  {
    k := EndedAt(moves, id);
    EndsWithCreditExactlyIfReserved(moves, id);
    hide Run, HoldsNone, HoldsOne, CanHear;
  }

  // ---------- why an order is rejected ----------

  function ReplyTo(s: Saga): Option<Reply> {
    if s.box.Answered? then Some(s.box.reply) else s.heard
  }

  /** A reply comes from the move that served the saga's command. */
  lemma RepliesComeFromServing(n: Net, m: Move, id: nat)
    requires id in Next(n, m).sagas && ReplyTo(Next(n, m).sagas[id]).Some?
    requires id in n.sagas && n.sagas[id].pos.At? ==> n.sagas[id].heard == None
    ensures id in n.sagas
    ensures var (s, t) := (n.sagas[id], Next(n, m).sagas[id]);
      && t.data.id == s.data.id && t.data.details == s.data.details
      && if m.CustomerServes? && m.id == id && CanServe(n, id) then
           ReplyTo(t) == Some(Serve(n.customers, s.box.command, m.available).1)
         else ReplyTo(t) == ReplyTo(s)
  {
    match m {
      case StartSaga(_, details, freshId, failure) =>
        Starts(Data(details, None, None, Repository(n.orders, freshId, failure)));
      case SagaHears(i, failure) =>
        if CanHear(n, i) {
          var s := n.sagas[i];
          Hears(s.data.(repository := s.data.repository.(orders := n.orders, failure := failure)), s.box.reply);
        }
      case _ =>
    }
    hide Forward, FirstThrow, OnReply, SagaStepList, Serve;
  }

  lemma {:induction false} ServedAt(moves: seq<Move>, id: nat) returns (k: nat)
    requires id in Run(moves).sagas && ReplyTo(Run(moves).sagas[id]).Some?
    ensures k < |moves| && moves[k].CustomerServes? && moves[k].id == id && CanServe(Run(moves[..k]), id)
    ensures var (n, s) := (Run(moves[..k]), Run(moves).sagas[id]);
      && s.data.id == n.sagas[id].data.id && s.data.details == n.sagas[id].data.details
      && ReplyTo(s) == Some(Serve(n.customers, n.sagas[id].box.command, moves[k].available).1)
  {
    var n := |moves| - 1;
    var before := Run(moves[..n]);
    EveryNetIsOk(moves[..n]);
    hide Next, Serve, HoldsBy, HoldsNone, CustomersOk, OneSagaEach;
    assert forall i :: i in before.sagas ==> SagaOk(before.orders, before.customers, before.sagas[i]);
    RepliesComeFromServing(before, moves[n], id);
    if moves[n].CustomerServes? && moves[n].id == id && CanServe(before, id) {
      k := n;
    } else {
      k := ServedAt(moves[..n], id);
      assert moves[..n][..k] == moves[..k];
    }
  }

  /** What the customer service answers to a saga's command, and what the saga then takes for a reason. */
  lemma ServingTellsWhy(customers: C.Table, d: Data, available: bool)
    requires d.id.Some?
    ensures var reply := Serve(customers, ReserveCreditCommand(d), available).1;
      var known := d.details.customerId in customers;
      var enough := known &&
        customers[d.details.customerId].creditLimit
          - C.TotalReserved(customers[d.details.customerId].creditReservations) >= d.details.orderTotal;
      && (reply.outcome == ReplyOutcome.Success <==> available && known && enough)
      && (reply.outcome == ReplyOutcome.Success ==> reply == RESERVED)
      && ReasonIn(reply, None) == if !available then None
           else if !known then Some(UNKNOWN_CUSTOMER)
           else if !enough then Some(INSUFFICIENT_CREDIT) else None
  {
    C.RefusalsTellWhy(customers, d.details.customerId, d.id.value, d.details.orderTotal);
    hide C.ReserveFor, C.TotalReserved;
  }

  /**
   In every run, an order that is decided has a reason if and only if, at the move that
   served its command, the customer service worked and the customer was not there (unknown
   customer), or was there and had less credit left than the total (insufficient credit);
   and an order with a reason is rejected.
   */
  lemma ReasonsTellWhy(moves: seq<Move>, o: nat) returns (id: nat, k: nat)
    requires o in Run(moves).orders && Run(moves).orders[o].state != PENDING
    ensures k < |moves| && moves[k].CustomerServes? && moves[k].id == id && CanServe(Run(moves[..k]), id)
    ensures Run(moves[..k]).sagas[id].data.id == Some(o)
    ensures var (order, customers) := (Run(moves).orders[o], Run(moves[..k]).customers);
      var (c, available) := (order.details.customerId, moves[k].available);
      && (order.rejectionReason == Some(UNKNOWN_CUSTOMER) <==> available && c !in customers)
      && (order.rejectionReason == Some(INSUFFICIENT_CREDIT) <==>
           && available && c in customers
           && customers[c].creditLimit - C.TotalReserved(customers[c].creditReservations) < order.details.orderTotal)
      && (order.rejectionReason.Some? ==> order.state == REJECTED)
  {
    id := SagaOf(moves, o);
    var n := Run(moves);
    k := ServedAt(moves, id);
    EveryNetIsOk(moves[..k]);
    var before := Run(moves[..k]);
    assert SagaOk(before.orders, before.customers, before.sagas[id]);
    ServingTellsWhy(before.customers, before.sagas[id].data, moves[k].available);
    EndsWithCreditExactlyIfReserved(moves, id);
    OrdersAndTheirReservations(moves, o);
    hide Run, Serve, HoldsNone, HoldsOne, ReserveCreditCommand, C.TotalReserved;
  }

  /** A saga that starts has placed a pending order, and its first message is this one. */
  lemma StartingAsksForCredit(n: Net, m: Move)
    requires m.StartSaga? && m.id !in n.sagas && m.freshId !in n.orders
    ensures m.failure.Some? ==> Next(n, m) == n
    ensures m.failure.None? ==>
      var t := Next(n, m);
      && t.orders == n.orders[m.freshId := Order(m.details, PENDING, None)]
      && m.id in t.sagas
      && t.sagas[m.id].box == Asked(Command("customer", "ReserveCreditCommand",
           [m.details.customerId, m.freshId, m.details.orderTotal], None))
  {
    Starts(Data(m.details, None, None, Repository(n.orders, m.freshId, m.failure)));
    hide Forward, FirstThrow, SagaStepList;
  }

  /** It happens: the credit is reserved, the approval throws, and the rejected order keeps the credit. */
  lemma FailedApprovalKeepsCredit(failure: string)
    ensures var moves := [NewCustomer(0, 10), StartSaga(0, OrderDetails(0, 5), 0, None),
                          CustomerServes(0, true), SagaHears(0, Some(failure))];
      var n := Run(moves);
      && 0 in n.orders && n.orders[0].state == REJECTED && n.orders[0].rejectionReason == None
      && HoldsOne(n.customers, 0, n.orders[0].details)
  {
    var moves := [NewCustomer(0, 10), StartSaga(0, OrderDetails(0, 5), 0, None),
                  CustomerServes(0, true), SagaHears(0, Some(failure))];
    assert moves[..4] == moves && moves[..3][..2] == moves[..2];
    assert moves[..2][..1] == moves[..1] && moves[..1][..0] == [];
    var d := Data(OrderDetails(0, 5), None, None, Repository(map[], 0, None));
    Starts(d);
    hide Forward, FirstThrow, SagaStepList, OnReply, HoldsOne, HoldsNone;
    var asked := Run(moves[..2]);
    assert Run(moves[..1]) == Net(map[], map[0 := C.CustomerValue(10, [])], map[]);
    assert asked == Started(Run(moves[..1]), 0, d);
    var answered := Run(moves[..3]);
    assert answered.sagas[0].box == Answered(RESERVED);
    Hears(answered.sagas[0].data.(repository := Repository(answered.orders, 0, Some(failure))), RESERVED);
    EndsWithCreditExactlyIfReserved(moves, 0);
  }
}
