/**
 cancel-order.saga.ts and revise-order.saga.ts over the order and ticket entities:
 any number of both sagas on one order and its ticket, their messages delivered in
 any order, with the restaurant working on the ticket meanwhile.
 */
module OrderSagas {
  import opened Options
  import opened SagaSteps
  import M = SagaSystem
  import O = Orders
  import T = Tickets

  datatype Kind = CancelOrder | ReviseOrder

  /** What a participant is asked to do, in the part of the world it is asked about. */
  datatype Request =
    | BeginOrder | UndoOrder | ConfirmOrder
    | BeginTicket | UndoTicket | ConfirmTicket
    | Authorize

  datatype Data = Data(kind: Kind, revised: seq<O.RevisedItem>, revisedOrderTotal: Option<int>)

  // ---------- commands on the wire ----------

  function NameOf(kind: Kind, r: Request): string {
    match (kind, r)
    case (CancelOrder, BeginOrder) => "BeginCancelOrderCommand"
    case (CancelOrder, UndoOrder) => "UndoBeginCancelOrderCommand"
    case (CancelOrder, ConfirmOrder) => "ConfirmCancelOrderCommand"
    case (CancelOrder, BeginTicket) => "BeginCancelTicketCommand"
    case (CancelOrder, UndoTicket) => "UndoBeginCancelTicketCommand"
    case (CancelOrder, ConfirmTicket) => "ConfirmCancelTicketCommand"
    case (ReviseOrder, BeginOrder) => "BeginReviseOrderCommand"
    case (ReviseOrder, UndoOrder) => "UndoBeginReviseOrderCommand"
    case (ReviseOrder, ConfirmOrder) => "ConfirmReviseOrderCommand"
    case (ReviseOrder, BeginTicket) => "BeginReviseTicketCommand"
    case (ReviseOrder, UndoTicket) => "UndoBeginReviseTicketCommand"
    case (ReviseOrder, ConfirmTicket) => "ConfirmReviseTicketCommand"
    case (_, Authorize) => "ReverseAuthorizationCommand"
  }

  /** The request that a command type stands for; ReverseAuthorizationCommand is the same for both sagas. */
  function RequestOf(name: string): Option<(Kind, Request)> {
    if name == "BeginCancelOrderCommand" then Some((CancelOrder, BeginOrder))
    else if name == "UndoBeginCancelOrderCommand" then Some((CancelOrder, UndoOrder))
    else if name == "ConfirmCancelOrderCommand" then Some((CancelOrder, ConfirmOrder))
    else if name == "BeginCancelTicketCommand" then Some((CancelOrder, BeginTicket))
    else if name == "UndoBeginCancelTicketCommand" then Some((CancelOrder, UndoTicket))
    else if name == "ConfirmCancelTicketCommand" then Some((CancelOrder, ConfirmTicket))
    else if name == "BeginReviseOrderCommand" then Some((ReviseOrder, BeginOrder))
    else if name == "UndoBeginReviseOrderCommand" then Some((ReviseOrder, UndoOrder))
    else if name == "ConfirmReviseOrderCommand" then Some((ReviseOrder, ConfirmOrder))
    else if name == "BeginReviseTicketCommand" then Some((ReviseOrder, BeginTicket))
    else if name == "UndoBeginReviseTicketCommand" then Some((ReviseOrder, UndoTicket))
    else if name == "ConfirmReviseTicketCommand" then Some((ReviseOrder, ConfirmTicket))
    else if name == "ReverseAuthorizationCommand" then Some((CancelOrder, Authorize))
    else None
  }

  lemma CancelNamesAreRead(r: Request)
    ensures RequestOf(NameOf(CancelOrder, r)) == Some((CancelOrder, r))
  {
  }

  lemma ReviseOrderNamesAreRead(r: Request)
    requires r.BeginOrder? || r.UndoOrder? || r.ConfirmOrder?
    ensures RequestOf(NameOf(ReviseOrder, r)) == Some((ReviseOrder, r))
  {
  }

  lemma ReviseTicketNamesAreRead(r: Request)
    requires r.BeginTicket? || r.UndoTicket? || r.ConfirmTicket?
    ensures RequestOf(NameOf(ReviseOrder, r)) == Some((ReviseOrder, r))
  {
  }

  lemma ReviseNamesAreRead(r: Request)
    ensures RequestOf(NameOf(ReviseOrder, r)) == Some((if r.Authorize? then CancelOrder else ReviseOrder, r))
  {
    if r.Authorize? {
      CancelNamesAreRead(r);
    } else if r.BeginOrder? || r.UndoOrder? || r.ConfirmOrder? {
      ReviseOrderNamesAreRead(r);
      hide *;
    } else {
      ReviseTicketNamesAreRead(r);
      hide *;
    }
  }

  /** The revised items as the numbers that travel in a command. */
  function Flatten(items: seq<O.RevisedItem>): Payload {
    if items == [] then [] else [items[0].menuItemId, items[0].quantity] + Flatten(items[1..])
  }

  function Unflatten(p: Payload): seq<O.RevisedItem> {
    if |p| < 2 || p[0] < 0 then [] else [O.RevisedItem(p[0], p[1])] + Unflatten(p[2..])
  }

  lemma {:induction false} Unflattens(items: seq<O.RevisedItem>)
    ensures Unflatten(Flatten(items)) == items
  {
    if items != [] {
      Unflattens(items[1..]);
      assert Flatten(items)[2..] == Flatten(items[1..]);
    }
  }

  // ---------- the two sagas ----------

  function CommandFor(r: Request, d: Data): Command {
    Command(
      if r.BeginOrder? || r.UndoOrder? || r.ConfirmOrder? then "order"
      else if r.Authorize? then "accounting" else "kitchen",
      NameOf(d.kind, r),
      if r.BeginOrder? || r.ConfirmOrder? || r.BeginTicket? || r.ConfirmTicket? then Flatten(d.revised) else [],
      None)
  }

  function Ask(r: Request): Invocation<Data> {
    Invocation(None, (d: Data) => (d, CommandFor(r, d)))
  }

  const REVISE_REPLY := "BeginReviseOrderReply"

  /** handleBeginReviseOrderReply */
  function NoteTotal(d: Data, reply: Payload): Data {
    d.(revisedOrderTotal := if reply == [] then None else Some(reply[0]))
  }

  /** The five steps, which the two sagas share up to their command types and the reply handler. */
  function StepsOf(kind: Kind): seq<Step<Data>> {
    [ParticipantStep(
       if kind == ReviseOrder then map[REVISE_REPLY := NoteTotal] else map[], map[],
       Some(Ask(BeginOrder)), Some(Ask(UndoOrder))),
     ParticipantStep(map[], map[], Some(Ask(BeginTicket)), Some(Ask(UndoTicket))),
     ParticipantStep(map[], map[], Some(Ask(Authorize)), None),
     ParticipantStep(map[], map[], Some(Ask(ConfirmTicket)), None),
     ParticipantStep(map[], map[], Some(Ask(ConfirmOrder)), None)]
  }

  /** What a saga at a position waits for. */
  function RequestAt(i: nat, compensating: bool): Request {
    if compensating then (if i == 0 then UndoOrder else UndoTicket)
    else if i == 0 then BeginOrder else if i == 1 then BeginTicket else if i == 2 then Authorize
    else if i == 3 then ConfirmTicket else ConfirmOrder
  }

  /** The next position, by the list of steps: None when a compensation fails. */
  function NextPos(pos: Position, outcome: ReplyOutcome): Option<Position>
    requires pos.At?
  {
    match (pos.compensating, outcome)
    case (false, Success) => Some(if pos.index >= 4 then Done(false) else At(pos.index + 1, false))
    case (false, Failure) =>
      Some(if pos.index == 0 then Done(true) else if pos.index == 1 then At(0, true) else At(1, true))
    case (true, Success) => Some(if pos.index == 0 then Done(true) else At(0, true))
    case (true, Failure) => None
  }

  predicate Reachable(pos: Position) {
    pos.At? && pos.index <= if pos.compensating then 1 else 4
  }

  lemma ForwardIs(kind: Kind, i: nat, d: Data)
    requires i <= 5 && d.kind == kind
    ensures var b := Forward(StepsOf(kind), i, d);
      && b.data == d && b.pos == (if i == 5 then Done(false) else At(i, false))
      && b.command == (if i == 5 then None else Some(CommandFor(RequestAt(i, false), d)))
  {
    var steps := StepsOf(kind);
    if i < 5 {
      assert Holds(steps[i].action, d);
      assert steps[i].action == Some(Ask(RequestAt(i, false)));
    }
  }

  lemma BackwardIs(kind: Kind, i: nat, d: Data)
    requires i <= 5 && d.kind == kind
    ensures var b := Backward(StepsOf(kind), i, d);
      && b.data == d && b.pos == (if i == 0 then Done(true) else At(if i == 1 then 0 else 1, true))
      && b.command == (if i == 0 then None else Some(CommandFor(RequestAt(if i == 1 then 0 else 1, true), d)))
  {
    var steps := StepsOf(kind);
    if i > 2 {
      BackwardIs(kind, i - 1, d);
      assert steps[i - 1].compensation == None;
    } else if i > 0 {
      assert steps[i - 1].compensation == Some(Ask(RequestAt(i - 1, true)));
    }
  }

  /** The step list moves a saga exactly as `NextPos` says. */
  lemma StepsMove(kind: Kind, pos: Position, d: Data, reply: Reply)
    requires Reachable(pos) && d.kind == kind
    ensures var steps := StepsOf(kind);
      var data := AfterReply(steps[pos.index], pos.compensating, d, reply);
      var moved := OnReply(steps, pos.index, pos.compensating, d, reply);
      && data == (if kind == ReviseOrder && pos == At(0, false) && reply.replyType == REVISE_REPLY
                  then NoteTotal(d, reply.payload) else d)
      && match NextPos(pos, reply.outcome)
         case None => moved == None
         case Some(p) =>
           && moved.Some? && moved.value.pos == p && moved.value.data == data
           && moved.value.command ==
              if p.At? then Some(CommandFor(RequestAt(p.index, p.compensating), data)) else None
  {
    var steps := StepsOf(kind);
    var data := AfterReply(steps[pos.index], pos.compensating, d, reply);
    ForwardIs(kind, pos.index + 1, data);
    BackwardIs(kind, pos.index, data);
  }

  /** The messages of the cancelling saga, as it sends them going forward and, from the third step, back. */
  lemma CancelOrderSends(d: Data)
    requires d.kind == CancelOrder
    ensures var (steps, items) := (StepsOf(CancelOrder), Flatten(d.revised));
      && Forward(steps, 0, d).command == Some(Command("order", "BeginCancelOrderCommand", items, None))
      && Forward(steps, 1, d).command == Some(Command("kitchen", "BeginCancelTicketCommand", items, None))
      && Forward(steps, 2, d).command == Some(Command("accounting", "ReverseAuthorizationCommand", [], None))
      && Forward(steps, 3, d).command == Some(Command("kitchen", "ConfirmCancelTicketCommand", items, None))
      && Forward(steps, 4, d).command == Some(Command("order", "ConfirmCancelOrderCommand", items, None))
      && Backward(steps, 2, d).command == Some(Command("kitchen", "UndoBeginCancelTicketCommand", [], None))
      && Backward(steps, 1, d).command == Some(Command("order", "UndoBeginCancelOrderCommand", [], None))
  {
    SendsAsListed(d);
    hide Forward, Backward, StepsOf, Flatten;
  }

  lemma ReviseOrderSends(d: Data)
    requires d.kind == ReviseOrder
    ensures var (steps, items) := (StepsOf(ReviseOrder), Flatten(d.revised));
      && Forward(steps, 0, d).command == Some(Command("order", "BeginReviseOrderCommand", items, None))
      && Forward(steps, 1, d).command == Some(Command("kitchen", "BeginReviseTicketCommand", items, None))
      && Forward(steps, 2, d).command == Some(Command("accounting", "ReverseAuthorizationCommand", [], None))
      && Forward(steps, 3, d).command == Some(Command("kitchen", "ConfirmReviseTicketCommand", items, None))
      && Forward(steps, 4, d).command == Some(Command("order", "ConfirmReviseOrderCommand", items, None))
      && Backward(steps, 2, d).command == Some(Command("kitchen", "UndoBeginReviseTicketCommand", [], None))
      && Backward(steps, 1, d).command == Some(Command("order", "UndoBeginReviseOrderCommand", [], None))
  {
    SendsAsListed(d);
    hide Forward, Backward, StepsOf, Flatten;
  }

  lemma SendsAsListed(d: Data)
    ensures forall i: nat :: i < 5 ==>
      Forward(StepsOf(d.kind), i, d).command == Some(CommandFor(RequestAt(i, false), d))
    ensures Backward(StepsOf(d.kind), 2, d).command == Some(CommandFor(UndoTicket, d))
    ensures Backward(StepsOf(d.kind), 1, d).command == Some(CommandFor(UndoOrder, d))
  {
    forall i: nat | i < 5 ensures Forward(StepsOf(d.kind), i, d).command == Some(CommandFor(RequestAt(i, false), d)) {
      ForwardIs(d.kind, i, d);
    }
    BackwardIs(d.kind, 2, d);
    BackwardIs(d.kind, 1, d);
  }

  // ---------- the participants ----------

  datatype World = World(order: O.OrderValue, ticket: T.TicketValue)

  function OrderOpFor(kind: Kind, r: Request, revised: seq<O.RevisedItem>): O.OrderOp
    requires r.BeginOrder? || r.UndoOrder? || r.ConfirmOrder?
  {
    match (kind, r)
    case (CancelOrder, BeginOrder) => O.Cancel
    case (CancelOrder, UndoOrder) => O.UndoPendingCancel
    case (CancelOrder, ConfirmOrder) => O.NoteCancelled
    case (ReviseOrder, BeginOrder) => O.Revise(O.Revision(revised, None))
    case (ReviseOrder, UndoOrder) => O.RejectRevision
    case (ReviseOrder, ConfirmOrder) => O.ConfirmRevision(O.Revision(revised, None))
  }

  function TicketOpFor(kind: Kind, r: Request): T.TicketOp
    requires r.BeginTicket? || r.UndoTicket? || r.ConfirmTicket?
  {
    match (kind, r)
    case (CancelOrder, BeginTicket) => T.Cancel
    case (CancelOrder, UndoTicket) => T.UndoCancel
    case (CancelOrder, ConfirmTicket) => T.ConfirmCancel
    case (ReviseOrder, BeginTicket) => T.BeginRevise
    case (ReviseOrder, UndoTicket) => T.UndoBeginRevise
    case (ReviseOrder, ConfirmTicket) => T.ConfirmRevise
  }

  const REFUSED := Reply(Failure, "UnsupportedStateTransitionException", [])
  const GRANTED := Reply(ReplyOutcome.Success, "Success", [])

  /** What the participant asked does; a refused request changes nothing. Accounting answers as it likes. */
  function Perform(w: World, kind: Kind, r: Request, revised: seq<O.RevisedItem>, approves: bool): (World, Reply) {
    match r
    case Authorize => (w, if approves then GRANTED else REFUSED)
    case BeginTicket => PerformOnTicket(w, TicketOpFor(kind, r))
    case UndoTicket => PerformOnTicket(w, TicketOpFor(kind, r))
    case ConfirmTicket => PerformOnTicket(w, TicketOpFor(kind, r))
    case _ =>
      match O.Do(w.order, OrderOpFor(kind, r, revised))
      case None => (w, REFUSED)
      case Some(o) =>
        (w.(order := o),
         if kind == ReviseOrder && r == BeginOrder then
           Reply(ReplyOutcome.Success, REVISE_REPLY,
             match O.NewOrderTotal(w.order.items, revised) case None => [] case Some(total) => [total])
         else GRANTED)
  }

  function PerformOnTicket(w: World, op: T.TicketOp): (World, Reply) {
    match T.Do(w.ticket, op)
    case None => (w, REFUSED)
    case Some(t) => (w.(ticket := t), GRANTED)
  }

  /** A command is read from the wire and performed. */
  function Serve(w: World, c: Command, approves: bool): (World, Reply) {
    match RequestOf(c.name)
    case None => (w, REFUSED)
    case Some((kind, r)) => Perform(w, kind, r, Unflatten(c.args), approves)
  }

  lemma ServingIsPerforming(w: World, r: Request, d: Data, approves: bool)
    ensures Serve(w, CommandFor(r, d), approves) == Perform(w, d.kind, r, d.revised, approves)
  {
    hide NameOf, RequestOf;
    Unflattens(d.revised);
    match d.kind {
      case CancelOrder => CancelNamesAreRead(r);
      case ReviseOrder => ReviseNamesAreRead(r);
    }
  }

  // ---------- any number of sagas on one order ----------

  datatype Box = Asked(command: Command) | Answered(reply: Reply) | Quiet

  /** A saga, the message between it and its participants, and the order and ticket it found at its begins. */
  datatype Saga = Saga(
    pos: Position,
    data: Data,
    box: Box,
    foundOrder: Option<O.OrderValue>,
    foundTicket: Option<T.TicketState>)

  /** `holder` is the saga between its order's begin and its undo or confirm; `broken`, that a compensation failed. */
  datatype Net = Net(world: World, sagas: map<nat, Saga>, holder: Option<nat>, broken: bool)

  datatype Move =
    | StartSaga(id: nat, kind: Kind, revised: seq<O.RevisedItem>)
    | ParticipantServes(id: nat, approves: bool)
    | SagaHears(id: nat)
    | KitchenWorks(work: T.TicketOp)
    | OrderIsNoted(note: O.OrderOp)

  function Told(s: Saga, b: Burst<Data>): Saga {
    s.(pos := b.pos, data := b.data, box := if b.command.Some? then Asked(b.command.value) else Quiet)
  }

  function Started(kind: Kind, revised: seq<O.RevisedItem>): Saga {
    var d := Data(kind, revised, None);
    Told(Saga(Created, d, Quiet, None, None), Forward(StepsOf(kind), 0, d))
  }

  /** The answer to saga `id`, with the world as the participant leaves it. */
  function Answer(n: Net, id: nat, served: (World, Reply)): Net
    requires id in n.sagas && n.sagas[id].pos.At?
  {
    var s := n.sagas[id];
    var request := RequestAt(s.pos.index, s.pos.compensating);
    var granted := served.1.outcome == ReplyOutcome.Success;
    Net(
      served.0,
      n.sagas[id := s.(
        box := Answered(served.1),
        foundOrder := if granted && request == BeginOrder then Some(n.world.order) else s.foundOrder,
        foundTicket := if granted && request == BeginTicket then Some(n.world.ticket.state) else s.foundTicket)],
      if granted && request == BeginOrder then Some(id)
      else if granted && (request == UndoOrder || request == ConfirmOrder) then None
      else n.holder,
      n.broken)
  }

  predicate CanServe(n: Net, id: nat) {
    id in n.sagas && n.sagas[id].box.Asked? && n.sagas[id].pos.At?
  }

  predicate CanHear(n: Net, id: nat) {
    id in n.sagas && n.sagas[id].box.Answered? && Reachable(n.sagas[id].pos)
  }

  function Served(n: Net, id: nat, approves: bool): (World, Reply)
    requires CanServe(n, id)
  {
    Serve(n.world, n.sagas[id].box.command, approves)
  }

  function Heard(n: Net, id: nat): Net
    requires CanHear(n, id)
  {
    var s := n.sagas[id];
    match OnReply(StepsOf(s.data.kind), s.pos.index, s.pos.compensating, s.data, s.box.reply)
    case None => n.(sagas := n.sagas[id := s.(box := Quiet)], broken := true)
    case Some(b) => n.(sagas := n.sagas[id := Told(s, b)])
  }

  /** The network starts and moves a saga as the saga manager does, and sends on the commands that it sends. */
  lemma ManagerStarts(kind: Kind, revised: seq<O.RevisedItem>, next: nat, id: nat)
    ensures var s := Started(kind, revised);
      var r := M.Begin(StepsOf(kind), next, id, Data(kind, revised, None), None);
      && r.rejection == None && r.instance.pos == s.pos && r.instance.data == s.data
      && s.box.Asked? && r.sent == [M.CommandSent(id, s.box.command)]
  {
    ForwardIs(kind, 0, Data(kind, revised, None));
    assert Holds(StepsOf(kind)[0].action, Data(kind, revised, None));
    hide Forward, NameOf;
  }

  /** At the end the manager also unlocks what the replies had locked; the network has no locks. */
  lemma ManagerHears(n: Net, id: nat, x: M.Instance<Data>, m: M.ReplyMessage, next: nat)
    requires CanHear(n, id) && m.sagaId == id
    requires x.pos == n.sagas[id].pos && x.data == n.sagas[id].data && m.reply == n.sagas[id].box.reply
    ensures CanWait(StepsOf(x.data.kind), x.pos)
    ensures var r := M.React(StepsOf(x.data.kind), next, x, m);
      var heard := Heard(n, id);
      if r.rejection == None then
        && heard.broken == n.broken
        && r.instance.pos == heard.sagas[id].pos && r.instance.data == heard.sagas[id].data
        && r.sent == (if heard.sagas[id].box.Asked? then [M.CommandSent(id, heard.sagas[id].box.command)]
                      else M.UnlocksFor(id, M.Lock(x, m).destinations))
      else r.rejection == Some(M.FailureWhenCompensating) && heard.broken
  {
    var s := n.sagas[id];
    StepsMove(s.data.kind, s.pos, s.data, s.box.reply);
    WaitsOnSteps(s.data.kind, s.pos);
    hide OnReply, StepsOf, NameOf, CanWait, M.UnlocksFor, M.Lock;
  }

  lemma WaitsOnSteps(kind: Kind, pos: Position)
    requires Reachable(pos)
    ensures CanWait(StepsOf(kind), pos)
  {
  }

  /** The operations on a ticket and an order that no saga here asks for. */
  const KITCHEN_WORK := {T.ConfirmCreate, T.Accept, T.Prepare, T.ReadyForPickup, T.PickUp}
  const ORDER_NOTES := {O.NoteApproved, O.NoteRejected}

  /** A move that is not possible changes nothing. */
  function Next(n: Net, m: Move): Net {
    match m
    case StartSaga(id, kind, revised) =>
      if id in n.sagas then n else n.(sagas := n.sagas[id := Started(kind, revised)])
    case ParticipantServes(id, approves) => if CanServe(n, id) then Answer(n, id, Served(n, id, approves)) else n
    case SagaHears(id) => if CanHear(n, id) then Heard(n, id) else n
    case KitchenWorks(work) =>
      if work in KITCHEN_WORK && T.Do(n.world.ticket, work).Some?
      then n.(world := n.world.(ticket := T.Do(n.world.ticket, work).value)) else n
    case OrderIsNoted(note) =>
      if note in ORDER_NOTES && O.Do(n.world.order, note).Some?
      then n.(world := n.world.(order := O.Do(n.world.order, note).value)) else n
  }

  /** Every revision gives a quantity for each line item of the order it is started on. */
  predicate Sensible(n: Net, m: Move) {
    m.StartSaga? && m.kind == ReviseOrder ==> O.Covers(n.world.order.items, m.revised)
  }

  /** All the moves made in a world. */
  function Run(w: World, moves: seq<Move>): Net {
    if moves == [] then Net(w, map[], None, false)
    else Next(Run(w, moves[..|moves| - 1]), moves[|moves| - 1])
  }

  predicate AllSensible(w: World, moves: seq<Move>) {
    forall k :: 0 <= k < |moves| ==> Sensible(Run(w, moves[..k]), moves[k])
  }

  // ---------- who holds what ----------

  predicate Succeeded(box: Box) {
    box.Answered? && box.reply.outcome == ReplyOutcome.Success
  }

  /** The saga revises, and gives no quantity for some line item; confirming its order will be refused. */
  predicate LeavesOut(items: seq<O.LineItem>, s: Saga) {
    s.data.kind == ReviseOrder && !O.Covers(items, s.data.revised)
  }

  /** The saga is between the begin of its order and its undo or confirm. */
  predicate HoldsOrder(s: Saga) {
    match s.pos
    case At(0, false) => Succeeded(s.box)
    case At(4, false) => !Succeeded(s.box)
    case At(0, true) => s.box.Asked?
    case At(_, _) => true
    case _ => false
  }

  predicate HasTicket(s: Saga) {
    match s.pos
    case At(1, false) => Succeeded(s.box)
    case At(2, false) => true
    case At(3, false) => s.box.Asked?
    case _ => false
  }

  /** The ticket was confirmed or undone, or its undo refused. */
  predicate GaveTicket(s: Saga) {
    match s.pos
    case At(3, false) => s.box.Answered?
    case At(4, false) => true
    case At(1, true) => !s.box.Asked?
    case _ => false
  }

  /** The undo of its ticket was refused: there is nothing left that the saga could hear. */
  predicate Stuck(s: Saga) {
    s.pos == At(1, true) && s.box == Quiet
  }

  /** A cancelling saga whose ticket is cancelled, and whose order is not yet. */
  predicate HasCancelledTicket(s: Saga) {
    s.data.kind == CancelOrder && (s.pos == At(4, false) || (s.pos == At(3, false) && s.box.Answered?))
  }

  /** Confirmations of a revision that leaves nothing out are not refused, and neither are undos, but of a ticket. */
  predicate SagaOk(items: seq<O.LineItem>, s: Saga) {
    match s.pos
    case Created => false
    case Done(compensating) => s.box.Quiet? && (LeavesOut(items, s) ==> compensating)
    case At(i, compensating) =>
      && Reachable(s.pos)
      && match s.box
         case Quiet => Stuck(s) && LeavesOut(items, s)
         case Asked(c) => c == CommandFor(RequestAt(i, compensating), s.data)
         case Answered(r) =>
           if s.pos == At(4, false) then r.outcome == Failure <==> LeavesOut(items, s)
           else if s.pos == At(1, true) then r.outcome == Failure ==> LeavesOut(items, s)
           else compensating || i == 3 ==> r.outcome == ReplyOutcome.Success
  }

  function PendingOrder(kind: Kind): O.OrderState {
    if kind == CancelOrder then O.CANCEL_PENDING else O.REVISION_PENDING
  }

  function PendingTicket(kind: Kind): T.TicketState {
    if kind == CancelOrder then T.CANCEL_PENDING else T.REVISION_PENDING
  }

  predicate TicketPending(w: World) {
    w.ticket.state == T.CANCEL_PENDING || w.ticket.state == T.REVISION_PENDING
  }

  predicate Settled(w: World) {
    && w.order.state != O.CANCEL_PENDING && w.order.state != O.REVISION_PENDING && !TicketPending(w)
    && (w.order.state == O.CANCELLED ==> w.ticket.state == T.CANCELLED)
  }

  /** The total that the order announced is known to the saga, or on its way to it. */
  predicate Quoted(order: O.OrderValue, s: Saga) {
    s.data.kind == ReviseOrder ==>
      var total := O.NewOrderTotal(order.items, s.data.revised);
      && total.Some?
      && if s.pos == At(0, false) && s.box.Answered? then
           s.box.reply.replyType == REVISE_REPLY && s.box.reply.payload == [total.value]
         else s.data.revisedOrderTotal == total
  }

  predicate PendingFor(w: World, s: Saga) {
    && s.foundTicket.Some? && s.foundTicket.value in {T.AWAITING_ACCEPTANCE, T.ACCEPTED}
    && w.ticket == T.TicketValue(PendingTicket(s.data.kind), s.foundTicket.value)
  }

  /** The ticket, when saga `s` holds the order, in a run that began in world `start`. */
  predicate TicketFor(start: World, w: World, s: Saga) {
    if HasTicket(s) then PendingFor(w, s)
    else if s.pos == At(1, true) && s.box.Asked? then
      PendingFor(w, s) || (LeavesOut(start.order.items, s) && !TicketPending(w))
    else if GaveTicket(s) then !TicketPending(w) && (HasCancelledTicket(s) ==> w.ticket.state == T.CANCELLED)
    else Settled(start) ==> !TicketPending(w)
  }

  /** The order and the ticket, when saga `s` holds the order. */
  predicate HeldBy(start: World, w: World, s: Saga) {
    && HoldsOrder(s)
    && s.foundOrder.Some? && s.foundOrder.value.state == O.APPROVED
    && w.order == s.foundOrder.value.(state := PendingOrder(s.data.kind))
    && Quoted(w.order, s)
    && TicketFor(start, w, s)
  }

  ghost predicate SagasOk(start: World, n: Net) {
    forall id :: id in n.sagas ==>
      && SagaOk(start.order.items, n.sagas[id])
      && (HoldsOrder(n.sagas[id]) ==> n.holder == Some(id))
  }

  predicate HolderIsStuck(n: Net) {
    n.holder.Some? && n.holder.value in n.sagas && Stuck(n.sagas[n.holder.value])
  }

  ghost predicate Inv(start: World, n: Net) {
    && O.Ids(n.world.order.items) == O.Ids(start.order.items)
    && SagasOk(start, n)
    && n.broken == HolderIsStuck(n)
    && match n.holder
       case None => Settled(start) ==> Settled(n.world)
       case Some(id) => id in n.sagas && HeldBy(start, n.world, n.sagas[id])
  }

  // ---------- every move keeps it ----------

  lemma StartingKeeps(start: World, n: Net, id: nat, kind: Kind, revised: seq<O.RevisedItem>)
    requires Inv(start, n) && id !in n.sagas
    ensures Inv(start, Next(n, StartSaga(id, kind, revised)))
  {
    ForwardIs(kind, 0, Data(kind, revised, None));
    hide Forward, StepsOf, NameOf, HeldBy, O.Covers, O.Ids;
    assert SagaOk(start.order.items, Started(kind, revised));
  }

  /** A saga that has heard its answer: moved as the table of positions says, or stuck. */
  function Moved(s: Saga): Saga
    requires s.pos.At? && s.box.Answered?
  {
    match NextPos(s.pos, s.box.reply.outcome)
    case None => s.(box := Quiet)
    case Some(p) =>
      var data := if s.data.kind == ReviseOrder && s.pos == At(0, false) && s.box.reply.replyType == REVISE_REPLY
        then NoteTotal(s.data, s.box.reply.payload) else s.data;
      s.(pos := p, data := data,
         box := if p.At? then Asked(CommandFor(RequestAt(p.index, p.compensating), data)) else Quiet)
  }

  lemma HearingMoves(n: Net, id: nat)
    requires CanHear(n, id)
    ensures var (s, t) := (n.sagas[id], Heard(n, id));
      t == n.(sagas := n.sagas[id := Moved(s)], broken := n.broken || NextPos(s.pos, s.box.reply.outcome).None?)
  {
    var s := n.sagas[id];
    StepsMove(s.data.kind, s.pos, s.data, s.box.reply);
    hide OnReply, StepsOf, NameOf, AfterReply, CommandFor;
  }

  /** A saga hears its answer: what it holds stays what it was. */
  lemma HearingHolds(start: World, n: Net, id: nat)
    requires CanHear(n, id) && SagaOk(start.order.items, n.sagas[id])
    ensures var (s, t) := (n.sagas[id], Heard(n, id));
      && id in t.sagas
      && t == n.(sagas := n.sagas[id := t.sagas[id]], broken := n.broken || Stuck(t.sagas[id]))
      && SagaOk(start.order.items, t.sagas[id]) && HoldsOrder(t.sagas[id]) == HoldsOrder(s)
      && (HeldBy(start, n.world, s) ==> HeldBy(start, n.world, t.sagas[id]))
  {
    HearingMoves(n, id);
    hide Heard, CommandFor, O.NewOrderTotal, Settled, TicketPending, O.Covers;
    var s, s' := n.sagas[id], Moved(n.sagas[id]);
    assert SagaOk(start.order.items, s') && HoldsOrder(s') == HoldsOrder(s);
    assert HoldsOrder(s) && Quoted(n.world.order, s) ==> Quoted(n.world.order, s');
    assert HoldsOrder(s) && TicketFor(start, n.world, s) ==> TicketFor(start, n.world, s');
  }

  lemma HearingKeeps(start: World, n: Net, id: nat)
    requires Inv(start, n) && CanHear(n, id)
    ensures Inv(start, Heard(n, id))
  {
    HearingHolds(start, n, id);
    assert Stuck(Heard(n, id).sagas[id]) ==> HoldsOrder(Heard(n, id).sagas[id]);
    hide Heard, SagaOk, HoldsOrder, HeldBy, Settled;
  }

  lemma AnsweringKeeps(start: World, n: Net, id: nat, served: (World, Reply))
    requires Inv(start, n) && CanServe(n, id)
    requires O.Ids(served.0.order.items) == O.Ids(n.world.order.items)
    requires var t := Answer(n, id, served);
      && SagaOk(start.order.items, t.sagas[id])
      && (HoldsOrder(t.sagas[id]) ==> t.holder == Some(id))
      && (t.holder != n.holder ==> n.holder == None || n.holder == Some(id))
      && match t.holder
         case None => Settled(start) ==> Settled(t.world)
         case Some(j) => j in t.sagas && HeldBy(start, t.world, t.sagas[j])
    ensures Inv(start, Answer(n, id, served))
  {
    hide SagaOk, HoldsOrder, HeldBy, Settled, O.Ids;
  }

  /** What the saga's request does, whatever the names on the wire. */
  function Outcome(n: Net, id: nat, approves: bool): (World, Reply)
    requires CanServe(n, id)
  {
    var s := n.sagas[id];
    Perform(n.world, s.data.kind, RequestAt(s.pos.index, s.pos.compensating), s.data.revised, approves)
  }

  lemma BeginOrderKeeps(start: World, n: Net, id: nat, approves: bool)
    requires Inv(start, n) && CanServe(n, id) && n.sagas[id].pos == At(0, false)
    ensures Inv(start, Answer(n, id, Outcome(n, id, approves)))
  {
    hide NameOf, O.NewOrderTotal, O.Updated, O.Covers, O.Ids;
    var t := Answer(n, id, Outcome(n, id, approves));
    if t.holder == n.holder && n.holder.Some? {
      assert n.holder.value != id ==> t.sagas[n.holder.value] == n.sagas[n.holder.value];
    }
    AnsweringKeeps(start, n, id, Outcome(n, id, approves));
  }

  /** Undoing the order is granted, and puts it back as it was found. */
  lemma UndoOrderKeeps(start: World, n: Net, id: nat, approves: bool)
    requires Inv(start, n) && CanServe(n, id) && n.sagas[id].pos == At(0, true)
    ensures Inv(start, Answer(n, id, Outcome(n, id, approves)))
    ensures Outcome(n, id, approves) == (n.world.(order := n.sagas[id].foundOrder.value), GRANTED)
  {
    hide NameOf, O.NewOrderTotal, O.Updated, O.Covers, O.Ids;
    AnsweringKeeps(start, n, id, Outcome(n, id, approves));
  }

  /** Confirming the order is granted exactly if the saga cancels or its revision leaves nothing out. */
  lemma ConfirmOrderKeeps(start: World, n: Net, id: nat, approves: bool)
    requires Inv(start, n) && CanServe(n, id) && n.sagas[id].pos == At(4, false)
    ensures Inv(start, Answer(n, id, Outcome(n, id, approves)))
    ensures var s := n.sagas[id];
      var (w, reply) := Outcome(n, id, approves);
      if LeavesOut(start.order.items, s) then w == n.world && reply == REFUSED
      else
        && reply == GRANTED && w.ticket == n.world.ticket
        && if s.data.kind == CancelOrder then
             w.order == s.foundOrder.value.(state := O.CANCELLED) && w.ticket.state == T.CANCELLED
           else
             && O.Covers(s.foundOrder.value.items, s.data.revised)
             && w.order == s.foundOrder.value.(items := O.Updated(s.foundOrder.value.items, s.data.revised))
             && s.data.revisedOrderTotal == O.NewOrderTotal(s.foundOrder.value.items, s.data.revised)
  {
    ConfirmingOrder(start, n, id, approves);
    O.DoKeepsIds(n.world.order, OrderOpFor(n.sagas[id].data.kind, ConfirmOrder, n.sagas[id].data.revised));
    assert O.Ids(Outcome(n, id, approves).0.order.items) == O.Ids(n.world.order.items) by { hide O.Ids, Inv; }
    hide NameOf, O.NewOrderTotal, O.Covers, O.Ids, O.Updated, Outcome;
    AnsweringKeeps(start, n, id, Outcome(n, id, approves));
  }

  lemma ConfirmingOrder(start: World, n: Net, id: nat, approves: bool)
    requires Inv(start, n) && CanServe(n, id) && n.sagas[id].pos == At(4, false)
    ensures n.holder == Some(id) && SagaOk(start.order.items, n.sagas[id]) && HeldBy(start, n.world, n.sagas[id])
    ensures var s := n.sagas[id];
      var (w, reply) := Outcome(n, id, approves);
      if LeavesOut(start.order.items, s) then w == n.world && reply == REFUSED
      else
        && reply == GRANTED && w.ticket == n.world.ticket
        && if s.data.kind == CancelOrder then
             w.order == s.foundOrder.value.(state := O.CANCELLED) && w.ticket.state == T.CANCELLED
           else
             && O.Covers(s.foundOrder.value.items, s.data.revised)
             && w.order == s.foundOrder.value.(items := O.Updated(s.foundOrder.value.items, s.data.revised))
             && s.data.revisedOrderTotal == O.NewOrderTotal(s.foundOrder.value.items, s.data.revised)
  {
    O.SameIds(n.world.order.items, start.order.items, n.sagas[id].data.revised);
    assert HoldsOrder(n.sagas[id]);
    hide NameOf, O.NewOrderTotal, O.Covers, O.Ids, O.Updated;
  }

  lemma BeginTicketKeeps(start: World, n: Net, id: nat, approves: bool)
    requires Inv(start, n) && CanServe(n, id) && n.sagas[id].pos == At(1, false)
    ensures Inv(start, Answer(n, id, Outcome(n, id, approves)))
  {
    hide NameOf, O.NewOrderTotal, O.Updated, O.Covers, O.Ids;
    AnsweringKeeps(start, n, id, Outcome(n, id, approves));
  }

  /** Undoing the ticket is granted exactly while it is pending, and puts its state back as it was found. */
  lemma UndoTicketKeeps(start: World, n: Net, id: nat, approves: bool)
    requires Inv(start, n) && CanServe(n, id) && n.sagas[id].pos == At(1, true)
    ensures Inv(start, Answer(n, id, Outcome(n, id, approves)))
    ensures !LeavesOut(start.order.items, n.sagas[id]) ==> TicketPending(n.world)
    ensures var (w, reply) := Outcome(n, id, approves);
      if TicketPending(n.world) then
        reply == GRANTED && w.order == n.world.order && w.ticket.state == n.sagas[id].foundTicket.value
      else w == n.world && reply == REFUSED
  {
    hide NameOf, O.NewOrderTotal, O.Updated, O.Covers, O.Ids;
    AnsweringKeeps(start, n, id, Outcome(n, id, approves));
  }

  lemma ConfirmTicketKeeps(start: World, n: Net, id: nat, approves: bool)
    requires Inv(start, n) && CanServe(n, id) && n.sagas[id].pos == At(3, false)
    ensures Inv(start, Answer(n, id, Outcome(n, id, approves)))
    ensures var (w, reply) := Outcome(n, id, approves);
      && reply == GRANTED && w.order == n.world.order
      && w.ticket.state == (if n.sagas[id].data.kind == CancelOrder then T.CANCELLED else n.sagas[id].foundTicket.value)
  {
    hide NameOf, O.NewOrderTotal, O.Updated, O.Covers, O.Ids;
    AnsweringKeeps(start, n, id, Outcome(n, id, approves));
  }

  lemma AuthorizingKeeps(start: World, n: Net, id: nat, approves: bool)
    requires Inv(start, n) && CanServe(n, id) && n.sagas[id].pos == At(2, false)
    ensures Inv(start, Answer(n, id, Outcome(n, id, approves)))
  {
    hide NameOf, O.NewOrderTotal, O.Updated, O.Covers, O.Ids;
    AnsweringKeeps(start, n, id, Outcome(n, id, approves));
  }

  /** A served command is one of the seven requests. */
  lemma ServingKeeps(start: World, n: Net, id: nat, approves: bool)
    requires Inv(start, n) && CanServe(n, id)
    ensures Reachable(n.sagas[id].pos) && Served(n, id, approves) == Outcome(n, id, approves)
    ensures Inv(start, Answer(n, id, Served(n, id, approves)))
  {
    var s := n.sagas[id];
    assert SagaOk(start.order.items, s);
    ServingIsPerforming(n.world, RequestAt(s.pos.index, s.pos.compensating), s.data, approves);
    hide NameOf, Perform, Serve, HeldBy, Settled, HoldsOrder, CommandFor, Inv;
    match s.pos {
      case At(0, false) => BeginOrderKeeps(start, n, id, approves);
      case At(0, true) => UndoOrderKeeps(start, n, id, approves);
      case At(1, false) => BeginTicketKeeps(start, n, id, approves);
      case At(1, true) => UndoTicketKeeps(start, n, id, approves);
      case At(2, _) => AuthorizingKeeps(start, n, id, approves);
      case At(3, _) => ConfirmTicketKeeps(start, n, id, approves);
      case At(4, _) => ConfirmOrderKeeps(start, n, id, approves);
    }
  }

  lemma WorkingKeeps(start: World, n: Net, m: Move)
    requires Inv(start, n) && (m.KitchenWorks? || m.OrderIsNoted?)
    ensures Inv(start, Next(n, m))
  {
    hide O.NewOrderTotal, O.Updated, O.Covers, O.Ids, SagaOk, HoldsOrder, HasTicket, NameOf;
  }

  /** In every run from any world, whatever the revisions leave out. */
  lemma {:induction false} EveryNetIsOk(w: World, moves: seq<Move>)
    ensures Inv(w, Run(w, moves))
  {
    if moves != [] {
      var k := |moves| - 1;
      var n := Run(w, moves[..k]);
      EveryNetIsOk(w, moves[..k]);
      hide Inv, Run;
      match moves[k] {
        case StartSaga(id, kind, revised) =>
          if id !in n.sagas { StartingKeeps(w, n, id, kind, revised); }
        case ParticipantServes(id, approves) =>
          if CanServe(n, id) { ServingKeeps(w, n, id, approves); }
        case SagaHears(id) =>
          if CanHear(n, id) { HearingKeeps(w, n, id); }
        case _ => WorkingKeeps(w, n, moves[k]);
      }
      assert Inv(w, Next(n, moves[k]));
    }
  }

  // ---------- every run ----------

  /**
   At any moment of any run at most one saga is between its begin and its undo or confirm;
   and while no saga is, if that was so at the start, nothing is pending and an order is
   cancelled only with its ticket.
   */
  lemma OneSagaAtATime(w: World, moves: seq<Move>, i: nat, j: nat)
    ensures var n := Run(w, moves);
      && (i in n.sagas && HoldsOrder(n.sagas[i]) && j in n.sagas && HoldsOrder(n.sagas[j]) ==> i == j)
      && (Settled(w) && (forall k :: k in n.sagas ==> !HoldsOrder(n.sagas[k])) ==> Settled(n.world))
  {
    EveryNetIsOk(w, moves);
    hide Run;
  }

  /** The undo of its ticket was refused, and its revision leaves a line item out. */
  predicate StuckWithout(items: seq<O.LineItem>, s: Saga) {
    Stuck(s) && LeavesOut(items, s)
  }

  /** In every run a compensation has failed if and only if some saga is stuck whose revision leaves an item out. */
  lemma BrokenExactlyByLeavingOut(w: World, moves: seq<Move>)
    ensures var n := Run(w, moves);
      n.broken <==> exists id :: id in n.sagas && StuckWithout(w.order.items, n.sagas[id])
  {
    EveryNetIsOk(w, moves);
    var n := Run(w, moves);
    hide Run, HeldBy, LeavesOut;
    if n.broken {
      assert SagaOk(w.order.items, n.sagas[n.holder.value]);
    }
    forall id | id in n.sagas && StuckWithout(w.order.items, n.sagas[id]) ensures n.broken {
      assert HoldsOrder(n.sagas[id]);
    }
  }

  /**
   In every run, what an undo or a confirm is answered: the undo of the order and the
   confirmation of the ticket are always granted; the confirmation of the order exactly
   if the saga's own revision leaves nothing out; the undo of the ticket exactly while the
   ticket is pending, which it is unless the saga's own revision leaves something out.
   */
  lemma UndosAndConfirmsAreGrantedExactly(w: World, moves: seq<Move>, id: nat, approves: bool)
    requires CanServe(Run(w, moves), id)
    ensures var n := Run(w, moves);
      var s := n.sagas[id];
      var (after, reply) := Served(n, id, approves);
      && (reply.outcome == Failure ==> after == n.world)
      && match RequestAt(s.pos.index, s.pos.compensating)
         case UndoOrder => reply == GRANTED
         case ConfirmTicket => reply == GRANTED
         case ConfirmOrder => reply == GRANTED <==> !LeavesOut(w.order.items, s)
         case UndoTicket =>
           && (reply == GRANTED <==> TicketPending(n.world))
           && (!LeavesOut(w.order.items, s) ==> TicketPending(n.world))
         case _ => true
  {
    var n := Run(w, moves);
    EveryNetIsOk(w, moves);
    ServingKeeps(w, n, id, approves);
    hide Run, Inv, Served, Answer, LeavesOut, TicketPending;
    match n.sagas[id].pos {
      case At(0, false) =>
      case At(0, true) => UndoOrderKeeps(w, n, id, approves);
      case At(1, true) => UndoTicketKeeps(w, n, id, approves);
      case At(3, _) => ConfirmTicketKeeps(w, n, id, approves);
      case At(4, _) => ConfirmOrderKeeps(w, n, id, approves);
      case _ =>
    }
  }

  /** So no undo and no confirm is ever refused to a saga that leaves nothing out, whatever other sagas do. */
  lemma UndosAndConfirmsAreGranted(w: World, moves: seq<Move>, id: nat, approves: bool)
    requires CanServe(Run(w, moves), id) && !LeavesOut(w.order.items, Run(w, moves).sagas[id])
    requires var s := Run(w, moves).sagas[id];
      RequestAt(s.pos.index, s.pos.compensating) in {UndoOrder, UndoTicket, ConfirmTicket, ConfirmOrder}
    ensures Served(Run(w, moves), id, approves).1 == GRANTED
  {
    UndosAndConfirmsAreGrantedExactly(w, moves, id, approves);
    hide Run, Served;
  }

  lemma RevisionsStay(n: Net, m: Move, id: nat)
    requires id in n.sagas
    ensures var (d, d') := (n.sagas[id].data, Next(n, m).sagas[id].data); d'.kind == d.kind && d'.revised == d.revised
  {
    if m.SagaHears? && CanHear(n, m.id) {
      HearingMoves(n, m.id);
    }
    hide Heard, Serve, T.Do, O.Do, Forward, StepsOf;
  }

  lemma {:induction false} SensibleSagasLeaveNothingOut(w: World, moves: seq<Move>, id: nat)
    requires AllSensible(w, moves) && id in Run(w, moves).sagas
    ensures !LeavesOut(w.order.items, Run(w, moves).sagas[id])
  {
    var k := |moves| - 1;
    var n := Run(w, moves[..k]);
    assert forall j :: 0 <= j <= k ==> moves[..k][..j] == moves[..j];
    if id in n.sagas {
      SensibleSagasLeaveNothingOut(w, moves[..k], id);
      RevisionsStay(n, moves[k], id);
      hide Next;
    } else {
      assert Sensible(n, moves[k]);
      IdsStay(w, moves[..k]);
      ForwardIs(moves[k].kind, 0, Data(moves[k].kind, moves[k].revised, None));
      O.SameIds(n.world.order.items, w.order.items, moves[k].revised);
      hide Forward, NameOf, O.Covers, O.Ids;
    }
  }

  /** And where every revision covers its order, no compensation ever fails and nothing of this is refused. */
  lemma SensibleRunsDoNotBreak(w: World, moves: seq<Move>, id: nat, approves: bool)
    requires AllSensible(w, moves)
    ensures !Run(w, moves).broken
    ensures CanServe(Run(w, moves), id) ==>
      var s := Run(w, moves).sagas[id];
      RequestAt(s.pos.index, s.pos.compensating) in {UndoOrder, UndoTicket, ConfirmTicket, ConfirmOrder} ==>
        Served(Run(w, moves), id, approves).1 == GRANTED
  {
    BrokenExactlyByLeavingOut(w, moves);
    forall i | i in Run(w, moves).sagas ensures !LeavesOut(w.order.items, Run(w, moves).sagas[i]) {
      SensibleSagasLeaveNothingOut(w, moves, i);
    }
    hide Run, AllSensible, Served, LeavesOut;
    if CanServe(Run(w, moves), id) {
      UndosAndConfirmsAreGrantedExactly(w, moves, id, approves);
    }
  }

  // ---------- how a saga that leaves an item out ends ----------

  /** It has confirmed its ticket, and can neither confirm its order nor undo its ticket. */
  predicate Doomed(items: seq<O.LineItem>, n: Net, id: nat) {
    && id in n.sagas && LeavesOut(items, n.sagas[id]) && !Succeeded(n.sagas[id].box)
    && (n.sagas[id].pos == At(4, false) || n.sagas[id].pos == At(1, true))
    && !TicketPending(n.world)
  }

  /** The moves of its own that it has still to make: two refusals to be given, and to be heard. */
  function MovesLeft(s: Saga): nat {
    match s.box
    case Asked(_) => if s.pos == At(4, false) then 4 else 2
    case Answered(_) => if s.pos == At(4, false) then 3 else 1
    case Quiet => 0
  }

  predicate Moves(n: Net, m: Move, id: nat) {
    match m
    case ParticipantServes(i, _) => i == id && CanServe(n, id)
    case SagaHears(i) => i == id && CanHear(n, id)
    case _ => false
  }

  /** Nothing that others do helps it, and each move of its own brings it nearer to being stuck. */
  lemma DoomedStays(start: World, n: Net, m: Move, id: nat)
    requires Inv(start, n) && Doomed(start.order.items, n, id)
    ensures Doomed(start.order.items, Next(n, m), id)
    ensures MovesLeft(Next(n, m).sagas[id]) ==
      if Moves(n, m, id) then MovesLeft(n.sagas[id]) - 1 else MovesLeft(n.sagas[id])
  {
    hide Inv, Heard, Moved, Served, HoldsOrder, O.Covers, O.Do, T.Do, CanHear, Started, NextPos;
    RevisionsStay(n, m, id);
    DoomedHolds(start, n, id);
    match m {
      case ParticipantServes(i, approves) =>
        if CanServe(n, i) { ServedToDoomed(start, n, i, approves, id); }
      case SagaHears(i) =>
        if CanHear(n, i) {
          HearingMoves(n, i);
          if i == id { HeardByDoomed(start, n, id); }
        }
      case StartSaga(_, _, _) =>
      case _ => OthersDoNotHelp(n, m);
    }
  }

  lemma OthersDoNotHelp(n: Net, m: Move)
    requires (m.KitchenWorks? || m.OrderIsNoted?) && !TicketPending(n.world)
    ensures !TicketPending(Next(n, m).world) && Next(n, m).sagas == n.sagas
  {
    hide O.Do;
  }

  lemma HeardByDoomed(start: World, n: Net, id: nat)
    requires Inv(start, n) && Doomed(start.order.items, n, id) && CanHear(n, id)
    ensures var s' := Heard(n, id).sagas[id];
      s'.pos == At(1, true) && !Succeeded(s'.box) && MovesLeft(s') == MovesLeft(n.sagas[id]) - 1
  {
    assert SagaOk(start.order.items, n.sagas[id]);
    HearingMoves(n, id);
    hide Heard, Inv;
  }

  lemma ServedToDoomed(start: World, n: Net, i: nat, approves: bool, id: nat)
    requires Inv(start, n) && Doomed(start.order.items, n, id) && CanServe(n, i)
    ensures var (w, reply) := Served(n, i, approves); !TicketPending(w) && (i == id ==> reply == REFUSED)
  {
    ServingKeeps(start, n, i, approves);
    DoomedHolds(start, n, id);
    assert SagaOk(start.order.items, n.sagas[i]);
    assert i != id ==> !HoldsOrder(n.sagas[i]);
    if i == id {
      if n.sagas[id].pos.index == 4 { ConfirmOrderKeeps(start, n, id, approves); }
      else { UndoTicketKeeps(start, n, id, approves); }
    }
    hide Inv, Served, O.Do, Answer;
  }

  /** How often, while `more` happened, the saga was served or heard its answer. */
  function OwnMoves(w: World, moves: seq<Move>, more: seq<Move>, id: nat): nat {
    if more == [] then 0
    else
      var k := |more| - 1;
      OwnMoves(w, moves, more[..k], id) + if Moves(Run(w, moves + more[..k]), more[k], id) then 1 else 0
  }

  /**
   In every run, a saga that has confirmed its ticket and leaves a line item out never
   ends. Whatever happens afterwards, it keeps the order, which stays pending, from all
   other sagas; one of its own moves is possible until it has made the four that remain;
   and a compensation has failed exactly when it has made them all.
   */
  lemma {:induction false} LeavingOutNeverEnds(w: World, moves: seq<Move>, more: seq<Move>, id: nat)
    requires id in Run(w, moves).sagas && Run(w, moves).sagas[id].pos == At(4, false)
    requires LeavesOut(w.order.items, Run(w, moves).sagas[id])
    ensures var n := Run(w, moves + more);
      && Doomed(w.order.items, n, id)
      && HoldsOrder(n.sagas[id]) && n.world.order.state == O.REVISION_PENDING
      && MovesLeft(n.sagas[id]) == MovesLeft(Run(w, moves).sagas[id]) - OwnMoves(w, moves, more, id)
      && (n.broken <==> MovesLeft(n.sagas[id]) == 0)
      && (MovesLeft(n.sagas[id]) > 0 ==> CanServe(n, id) || CanHear(n, id))
  {
    hide Inv, Next, Doomed, Moves, LeavesOut, MovesLeft, HoldsOrder, CanServe, CanHear;
    EveryNetIsOk(w, moves + more);
    if more == [] {
      assert moves + more == moves;
    } else {
      var k := |more| - 1;
      assert (moves + more)[..|moves + more| - 1] == moves + more[..k];
      LeavingOutNeverEnds(w, moves, more[..k], id);
      EveryNetIsOk(w, moves + more[..k]);
      DoomedStays(w, Run(w, moves + more[..k]), more[k], id);
    }
    DoomedHolds(w, Run(w, moves + more), id);
  }

  lemma DoomedHolds(start: World, n: Net, id: nat)
    requires Inv(start, n)
    requires Doomed(start.order.items, n, id)
      || (id in n.sagas && LeavesOut(start.order.items, n.sagas[id]) && n.sagas[id].pos == At(4, false))
    ensures Doomed(start.order.items, n, id)
    ensures HoldsOrder(n.sagas[id]) && n.world.order.state == O.REVISION_PENDING
    ensures n.broken <==> MovesLeft(n.sagas[id]) == 0
    ensures MovesLeft(n.sagas[id]) > 0 ==> CanServe(n, id) || CanHear(n, id)
  {
    assert SagaOk(start.order.items, n.sagas[id]);
    hide Settled, O.Covers, O.NewOrderTotal, O.Ids;
  }

  /** A revision that completed left nothing out, in any run. */
  lemma CompletedRevisionsCover(w: World, moves: seq<Move>, id: nat)
    requires id in Run(w, moves).sagas && Run(w, moves).sagas[id].pos == Done(false)
    ensures !LeavesOut(w.order.items, Run(w, moves).sagas[id])
  {
    EveryNetIsOk(w, moves);
    hide Run;
    assert SagaOk(w.order.items, Run(w, moves).sagas[id]);
  }

  // ---------- what rolling back and confirming leave ----------

  predicate Begins(n: Net, m: Move, id: nat, i: nat) {
    && m.ParticipantServes? && m.id == id && CanServe(n, id) && n.sagas[id].pos == At(i, false)
    && Served(n, id, m.approves).1.outcome == ReplyOutcome.Success
  }

  /** A saga finds the order and the ticket only at its begins. */
  lemma FindsAtBegins(n: Net, m: Move, id: nat)
    requires id in Next(n, m).sagas
    ensures var s' := Next(n, m).sagas[id];
      if id !in n.sagas then s'.foundOrder == None && s'.foundTicket == None
      else
        && (s'.foundOrder == n.sagas[id].foundOrder
            || (Begins(n, m, id, 0) && s'.foundOrder == Some(n.world.order)))
        && (s'.foundTicket == n.sagas[id].foundTicket
            || (Begins(n, m, id, 1) && s'.foundTicket == Some(n.world.ticket.state)))
  {
    hide Serve, Forward, OnReply, T.Do, O.Do, StepsOf;
  }

  /** Move `k` granted saga `id` its begin: of the order when `i` is 0, of the ticket when it is 1. */
  predicate BeganAt(w: World, moves: seq<Move>, id: nat, i: nat, k: nat)
    requires k < |moves|
  {
    Begins(Run(w, moves[..k]), moves[k], id, i)
  }

  /** What a saga found is what there was just before its begin was granted. */
  lemma {:induction false} FoundAtItsBegin(w: World, moves: seq<Move>, id: nat) returns (i: nat, j: nat)
    requires id in Run(w, moves).sagas
    ensures Run(w, moves).sagas[id].foundOrder.Some? ==>
      && i < |moves| && BeganAt(w, moves, id, 0, i)
      && Run(w, moves[..i]).world.order == Run(w, moves).sagas[id].foundOrder.value
    ensures Run(w, moves).sagas[id].foundTicket.Some? ==>
      && j < |moves| && BeganAt(w, moves, id, 1, j)
      && Run(w, moves[..j]).world.ticket.state == Run(w, moves).sagas[id].foundTicket.value
  {
    var k := |moves| - 1;
    var n := Run(w, moves[..k]);
    FindsAtBegins(n, moves[k], id);
    hide Next, Begins;
    if id in n.sagas {
      i, j := FoundAtItsBegin(w, moves[..k], id);
      assert i < k ==> moves[..k][..i] == moves[..i];
      assert j < k ==> moves[..k][..j] == moves[..j];
      var s, s' := n.sagas[id], Run(w, moves).sagas[id];
      if s'.foundOrder != s.foundOrder { i := k; }
      if s'.foundTicket != s.foundTicket { j := k; }
    } else {
      i, j := 0, 0;
    }
  }

  /**
   Rolling back restores: an undo that is granted leaves the order, or the ticket's state,
   as it was just before the saga's begin, and the other alone. Only the undo of a ticket
   that is no longer pending is refused, which does not happen to a saga that leaves
   nothing out; it changes nothing.
   */
  lemma RollbackRestores(w: World, moves: seq<Move>, id: nat, approves: bool) returns (k: nat)
    requires CanServe(Run(w, moves), id) && Run(w, moves).sagas[id].pos.compensating
    ensures var n := Run(w, moves);
      var s := n.sagas[id];
      var (after, reply) := Served(n, id, approves);
      if s.pos.index == 0 then
        && reply == GRANTED && k < |moves| && BeganAt(w, moves, id, 0, k)
        && after.order == Run(w, moves[..k]).world.order && after.ticket == n.world.ticket
      else if !LeavesOut(w.order.items, s) || TicketPending(n.world) then
        && reply == GRANTED && k < |moves| && BeganAt(w, moves, id, 1, k)
        && after.ticket.state == Run(w, moves[..k]).world.ticket.state && after.order == n.world.order
      else after == n.world && reply == REFUSED
  {
    var n := Run(w, moves);
    EveryNetIsOk(w, moves);
    ServingKeeps(w, n, id, approves);
    var i, j := FoundAtItsBegin(w, moves, id);
    FoundWhatItUndoes(w, n, id);
    hide Run, Inv, Served, Outcome, Answer, BeganAt, LeavesOut, TicketPending;
    if n.sagas[id].pos.index == 0 {
      UndoOrderKeeps(w, n, id, approves);
      k := i;
    } else {
      UndoTicketKeeps(w, n, id, approves);
      k := j;
    }
  }

  lemma FoundWhatItUndoes(start: World, n: Net, id: nat)
    requires Inv(start, n) && CanServe(n, id) && n.sagas[id].pos.compensating
    ensures n.sagas[id].foundOrder.Some?
    ensures n.sagas[id].pos.index == 1 && TicketPending(n.world) ==> n.sagas[id].foundTicket.Some?
  {
    assert SagaOk(start.order.items, n.sagas[id]);
    assert HeldBy(start, n.world, n.sagas[id]);
  }

  lemma MovesKeepIds(n: Net, m: Move)
    ensures O.Ids(Next(n, m).world.order.items) == O.Ids(n.world.order.items)
  {
    forall op
      ensures O.Do(n.world.order, op).Some? ==> O.Ids(O.Do(n.world.order, op).value.items) == O.Ids(n.world.order.items)
    {
      O.DoKeepsIds(n.world.order, op);
    }
    hide O.Do, O.Ids, T.Do, RequestOf, OrderOpFor, TicketOpFor, Started, Unflatten, RequestAt, OnReply;
  }

  /** No move changes which items an order has. */
  lemma {:induction false} IdsStay(w: World, moves: seq<Move>)
    ensures O.Ids(Run(w, moves).world.order.items) == O.Ids(w.order.items)
  {
    if moves != [] {
      IdsStay(w, moves[..|moves| - 1]);
      MovesKeepIds(Run(w, moves[..|moves| - 1]), moves[|moves| - 1]);
    }
  }

  /**
   Confirming completes: a cancelled order has a cancelled ticket; a revised order has
   the revised quantities, and its total is the one announced when the revision began if
   and only if the revision's repeated entries and the repeated line items agree, which
   they do when no menu item is repeated. A revision that leaves a line item out is
   refused, and changes nothing.
   */
  lemma ConfirmationCompletes(w: World, moves: seq<Move>, id: nat, approves: bool)
    requires CanServe(Run(w, moves), id) && Run(w, moves).sagas[id].pos == At(4, false)
    ensures var n := Run(w, moves);
      var s := n.sagas[id];
      var (after, reply) := Served(n, id, approves);
      if LeavesOut(w.order.items, s) then after == n.world && reply == REFUSED
      else if s.data.kind == CancelOrder then
        reply == GRANTED && after.order.state == O.CANCELLED && after.ticket.state == T.CANCELLED
      else
        && reply == GRANTED && after.order.state == O.APPROVED
        && O.Covers(n.world.order.items, s.data.revised)
        && after.order.items == O.Updated(n.world.order.items, s.data.revised)
        && (s.data.revisedOrderTotal == Some(O.OrderTotal(after.order.items)) <==>
             O.RepeatedEntries(n.world.order.items, s.data.revised) ==
             O.RepeatedItems(n.world.order.items, s.data.revised))
        && (O.Distinct(w.order.items, s.data.revised) ==>
             s.data.revisedOrderTotal == Some(O.OrderTotal(after.order.items)))
  {
    var n := Run(w, moves);
    var s := n.sagas[id];
    EveryNetIsOk(w, moves);
    ServingKeeps(w, n, id, approves);
    assert HeldBy(w, n.world, s);
    ConfirmOrderKeeps(w, n, id, approves);
    IdsStay(w, moves);
    O.SameIds(n.world.order.items, w.order.items, s.data.revised);
    hide Run, Inv, Served, Outcome, Answer, TicketFor, O.Ids, O.Covers, O.Distinct, O.NewOrderTotal, O.OrderTotal;
    if s.data.kind == ReviseOrder && !LeavesOut(w.order.items, s) {
      O.QuotedTotalIsFinal(n.world.order.items, s.data.revised);
    }
  }

  // ---------- a revision that leaves an item out ----------

  /** Saga 0 revises; then its participants, all willing, serve it `k` times and it hears them. */
  function Alone(revised: seq<O.RevisedItem>, k: nat): seq<Move> {
    if k == 0 then [StartSaga(0, ReviseOrder, revised)]
    else Alone(revised, k - 1) + [ParticipantServes(0, true), SagaHears(0)]
  }

  function Round(n: Net): Net {
    Next(Next(n, ParticipantServes(0, true)), SagaHears(0))
  }

  lemma RunAlone(w: World, revised: seq<O.RevisedItem>, k: nat)
    ensures Run(w, Alone(revised, k + 1)) == Round(Run(w, Alone(revised, k)))
  {
    var before, all := Alone(revised, k), Alone(revised, k + 1);
    assert all[..|all| - 1] == before + [ParticipantServes(0, true)];
    assert (before + [ParticipantServes(0, true)])[..|before|] == before;
    hide Next;
  }

  /** Saga 0 waits for the participant of a position, in this world. */
  predicate Waits(n: Net, pos: Position, d: Data, w: World) {
    && n.world == w && !n.broken
    && 0 in n.sagas && n.sagas[0].pos == pos && n.sagas[0].data == d
    && pos.At? && n.sagas[0].box == Asked(CommandFor(RequestAt(pos.index, pos.compensating), d))
  }

  lemma RoundMoves(n: Net, pos: Position, d: Data, w: World)
    requires Waits(n, pos, d, w) && Reachable(pos)
    ensures var (w', reply) := Perform(w, d.kind, RequestAt(pos.index, pos.compensating), d.revised, true);
      match NextPos(pos, reply.outcome)
      case None => Round(n).broken
      case Some(p) =>
        && !Round(n).broken && 0 in Round(n).sagas
        && if p.At? then exists total :: Waits(Round(n), p, d.(revisedOrderTotal := total), w')
           else Round(n).sagas[0].box == Quiet
  {
    ServingIsPerforming(w, RequestAt(pos.index, pos.compensating), d, true);
    var (w', reply) := Perform(w, d.kind, RequestAt(pos.index, pos.compensating), d.revised, true);
    StepsMove(d.kind, pos, d, reply);
    hide Serve, Perform, OnReply, StepsOf, NameOf, CommandFor;
    var s := Round(n).sagas[0];
    assert NextPos(pos, reply.outcome).Some? && NextPos(pos, reply.outcome).value.At? ==>
      Waits(Round(n), s.pos, d.(revisedOrderTotal := s.data.revisedOrderTotal), w');
  }

  /** Waiting, with some total noted. */
  ghost predicate WaitsAt(n: Net, pos: Position, revised: seq<O.RevisedItem>, w: World) {
    exists total :: Waits(n, pos, Data(ReviseOrder, revised, total), w)
  }

  lemma RoundMovesOn(n: Net, pos: Position, revised: seq<O.RevisedItem>, w: World)
    requires WaitsAt(n, pos, revised, w) && Reachable(pos)
    ensures var (w', reply) := Perform(w, ReviseOrder, RequestAt(pos.index, pos.compensating), revised, true);
      match NextPos(pos, reply.outcome)
      case None => Round(n).broken
      case Some(p) =>
        && !Round(n).broken && 0 in Round(n).sagas
        && if p.At? then WaitsAt(Round(n), p, revised, w') else Round(n).sagas[0].box == Quiet
  {
    var total :| Waits(n, pos, Data(ReviseOrder, revised, total), w);
    RoundMoves(n, pos, Data(ReviseOrder, revised, total), w);
    hide Perform, Waits, Round;
  }

  lemma AloneStarts(w: World, revised: seq<O.RevisedItem>)
    ensures WaitsAt(Run(w, Alone(revised, 0)), At(0, false), revised, w)
  {
    ForwardIs(ReviseOrder, 0, Data(ReviseOrder, revised, None));
    assert Run(w, []) == Net(w, map[], None, false) && Alone(revised, 0)[..0] == [];
    hide Forward, NameOf, CommandFor;
    assert Waits(Run(w, Alone(revised, 0)), At(0, false), Data(ReviseOrder, revised, None), w);
  }

  /** An accepted revision by a saga that is alone waits, four rounds on, to confirm its order. */
  lemma AloneComesToConfirm(w: World, revised: seq<O.RevisedItem>)
    requires w.order.state == O.APPROVED && w.ticket.state in {T.AWAITING_ACCEPTANCE, T.ACCEPTED}
    requires O.Do(w.order, O.Revise(O.Revision(revised, None))).Some?
    ensures WaitsAt(Run(w, Alone(revised, 4)), At(4, false), revised,
      World(w.order.(state := O.REVISION_PENDING), w.ticket.(previous := w.ticket.state)))
  {
    AloneStarts(w, revised);
    hide Run, Alone, Round, WaitsAt, O.NewOrderTotal, O.Covers;
    var held := w.(order := w.order.(state := O.REVISION_PENDING));
    var both := held.(ticket := T.TicketValue(T.REVISION_PENDING, w.ticket.state));
    RunAlone(w, revised, 0);
    RoundMovesOn(Run(w, Alone(revised, 0)), At(0, false), revised, w);
    RunAlone(w, revised, 1);
    RoundMovesOn(Run(w, Alone(revised, 1)), At(1, false), revised, held);
    RunAlone(w, revised, 2);
    RoundMovesOn(Run(w, Alone(revised, 2)), At(2, false), revised, both);
    RunAlone(w, revised, 3);
    RoundMovesOn(Run(w, Alone(revised, 3)), At(3, false), revised, both);
  }

  lemma QuietRound(n: Net)
    requires 0 in n.sagas && n.sagas[0].box == Quiet
    ensures Round(n) == n
  {
  }

  lemma AcceptedIsPriced(o: O.OrderValue, revised: seq<O.RevisedItem>)
    requires O.Do(o, O.Revise(O.Revision(revised, None))).Some?
    ensures O.NewOrderTotal(o.items, revised).Some?
  {
  }

  lemma LateRequests(w: World, revised: seq<O.RevisedItem>)
    requires w.order.state == O.REVISION_PENDING && O.NewOrderTotal(w.order.items, revised).Some?
    requires w.ticket.state in {T.AWAITING_ACCEPTANCE, T.ACCEPTED}
    ensures var (w', reply) := Perform(w, ReviseOrder, ConfirmOrder, revised, true);
      if O.Covers(w.order.items, revised) then reply == GRANTED else w' == w && reply == REFUSED
    ensures Perform(w, ReviseOrder, UndoTicket, revised, true) == (w, REFUSED)
  {
  }

  /**
   The condition is exact: an accepted revision breaks its saga (a compensation is refused
   after the ticket was confirmed) if and only if it leaves out one of the line items.
   */
  lemma BreaksExactlyWithoutCover(w: World, revised: seq<O.RevisedItem>)
    requires w.order.state == O.APPROVED && w.ticket.state in {T.AWAITING_ACCEPTANCE, T.ACCEPTED}
    requires O.Do(w.order, O.Revise(O.Revision(revised, None))).Some?
    ensures Run(w, Alone(revised, 6)).broken <==> !O.Covers(w.order.items, revised)
  {
    AcceptedIsPriced(w.order, revised);
    hide *;
    AloneComesToConfirm(w, revised);
    var last := World(w.order.(state := O.REVISION_PENDING), w.ticket.(previous := w.ticket.state));
    LateRequests(last, revised);
    RunAlone(w, revised, 4);
    RunAlone(w, revised, 5);
    FromConfirmOn(Run(w, Alone(revised, 4)), last, revised);
  }

  lemma FromConfirmOn(n: Net, w: World, revised: seq<O.RevisedItem>)
    requires WaitsAt(n, At(4, false), revised, w)
    requires var (w', reply) := Perform(w, ReviseOrder, ConfirmOrder, revised, true);
      if O.Covers(w.order.items, revised) then reply == GRANTED else w' == w && reply == REFUSED
    requires Perform(w, ReviseOrder, UndoTicket, revised, true) == (w, REFUSED)
    ensures Round(Round(n)).broken <==> !O.Covers(w.order.items, revised)
  {
    hide Round, WaitsAt, Perform, O.Covers;
    RoundMovesOn(n, At(4, false), revised, w);
    if O.Covers(w.order.items, revised) {
      QuietRound(Round(n));
    } else {
      RoundMovesOn(Round(n), At(1, true), revised, w);
    }
  }
}
