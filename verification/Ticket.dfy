/** ticket.entity.ts: the kitchen's ticket, whose pending states remember the state before. */
module Tickets {
  import opened Options

  datatype TicketState =
    | CREATE_PENDING | AWAITING_ACCEPTANCE | ACCEPTED | PREPARING | READY_FOR_PICKUP
    | PICKED_UP | CANCEL_PENDING | CANCELLED | REVISION_PENDING

  datatype TicketOp =
    | ConfirmCreate | Accept | Prepare | ReadyForPickup | PickUp
    | Cancel | ConfirmCancel | UndoCancel
    | BeginRevise | UndoBeginRevise | ConfirmRevise

  datatype TicketValue = TicketValue(state: TicketState, previous: TicketState)

  /** The ticket after an operation; None when its state does not allow it. */
  function Do(t: TicketValue, op: TicketOp): Option<TicketValue> {
    match (op, t.state)
    case (ConfirmCreate, CREATE_PENDING) => Some(t.(state := AWAITING_ACCEPTANCE))
    case (Accept, AWAITING_ACCEPTANCE) => Some(t.(state := ACCEPTED))
    case (Prepare, ACCEPTED) => Some(t.(state := PREPARING))
    case (ReadyForPickup, PREPARING) => Some(t.(state := READY_FOR_PICKUP))
    case (PickUp, READY_FOR_PICKUP) => Some(t.(state := PICKED_UP))
    case (Cancel, AWAITING_ACCEPTANCE) => Some(TicketValue(CANCEL_PENDING, t.state))
    case (Cancel, ACCEPTED) => Some(TicketValue(CANCEL_PENDING, t.state))
    case (ConfirmCancel, CANCEL_PENDING) => Some(t.(state := CANCELLED))
    case (UndoCancel, CANCEL_PENDING) => Some(t.(state := t.previous))
    case (BeginRevise, AWAITING_ACCEPTANCE) => Some(TicketValue(REVISION_PENDING, t.state))
    case (BeginRevise, ACCEPTED) => Some(TicketValue(REVISION_PENDING, t.state))
    case (UndoBeginRevise, REVISION_PENDING) => Some(t.(state := t.previous))
    case (ConfirmRevise, REVISION_PENDING) => Some(t.(state := t.previous))
    case _ => None
  }

  // ---------- what holds of every ticket ----------

  const NEW_TICKET := TicketValue(CREATE_PENDING, CREATE_PENDING)

  /** A ticket after operations, of which those that are refused change nothing. */
  function AfterAll(t: TicketValue, ops: seq<TicketOp>): TicketValue {
    if ops == [] then t
    else
      var before := AfterAll(t, ops[..|ops| - 1]);
      match Do(before, ops[|ops| - 1])
      case Some(after) => after
      case None => before
  }

  function BeginOf(state: TicketState): TicketOp {
    if state == CANCEL_PENDING then Cancel else BeginRevise
  }

  function UndoOf(state: TicketState): TicketOp {
    if state == CANCEL_PENDING then UndoCancel else UndoBeginRevise
  }

  function ConfirmOf(state: TicketState): TicketOp {
    if state == CANCEL_PENDING then ConfirmCancel else ConfirmRevise
  }

  /** A ticket that is pending remembers an open state, in every life of a ticket. */
  lemma {:induction false} PendingRemembersAnOpenState(ops: seq<TicketOp>)
    ensures var t := AfterAll(NEW_TICKET, ops);
      && t.previous in {CREATE_PENDING, AWAITING_ACCEPTANCE, ACCEPTED}
      && (t.state in {CANCEL_PENDING, REVISION_PENDING} ==> t.previous in {AWAITING_ACCEPTANCE, ACCEPTED})
  {
    if ops != [] {
      PendingRemembersAnOpenState(ops[..|ops| - 1]);
    }
  }

  /**
   Between a begin and its own undo or confirm every other operation is refused, so the
   undo, whenever it comes, restores the state that the begin found, and is granted.
   */
  lemma {:induction false} UndoRestores(t: TicketValue, state: TicketState, ops: seq<TicketOp>)
    requires state in {CANCEL_PENDING, REVISION_PENDING} && Do(t, BeginOf(state)).Some?
    requires UndoOf(state) !in ops && ConfirmOf(state) !in ops
    ensures var pending := AfterAll(Do(t, BeginOf(state)).value, ops);
      && pending.state == state
      && Do(pending, UndoOf(state)).Some? && Do(pending, UndoOf(state)).value.state == t.state
      && Do(pending, ConfirmOf(state)).Some?
    ensures AfterAll(Do(t, BeginOf(state)).value, ops) == Do(t, BeginOf(state)).value
  {
    if ops != [] {
      UndoRestores(t, state, ops[..|ops| - 1]);
    }
  }

  /** An operation that was granted is refused when it is asked again at once, in every life of a ticket. */
  lemma NothingIsGrantedTwice(ops: seq<TicketOp>, op: TicketOp)
    ensures var t := AfterAll(NEW_TICKET, ops); Do(t, op).Some? ==> Do(Do(t, op).value, op) == None
  {
    PendingRemembersAnOpenState(ops);
  }

  /** The operations that were granted, in order. */
  function Granted(t: TicketValue, ops: seq<TicketOp>): seq<TicketOp> {
    if ops == [] then []
    else
      var (before, op) := (ops[..|ops| - 1], ops[|ops| - 1]);
      Granted(t, before) + if Do(AfterAll(t, before), op).Some? then [op] else []
  }

  /** Of those, the work of the kitchen. */
  function WorkOf(ops: seq<TicketOp>): seq<TicketOp> {
    if ops == [] then []
    else
      var op := ops[|ops| - 1];
      WorkOf(ops[..|ops| - 1]) +
      if op in {TicketOp.ConfirmCreate, TicketOp.Accept, Prepare, TicketOp.ReadyForPickup, PickUp} then [op] else []
  }

  lemma WorkOfMore(ops: seq<TicketOp>, op: TicketOp)
    ensures WorkOf(ops + [op]) == WorkOf(ops) + WorkOf([op])
  {
    assert (ops + [op])[..|ops|] == ops && [op][..0] == [];
  }

  lemma WorkOfOne(op: TicketOp)
    ensures WorkOf([op]) ==
      if op in {TicketOp.ConfirmCreate, TicketOp.Accept, Prepare, TicketOp.ReadyForPickup, PickUp} then [op] else []
  {
    assert [op][..0] == [] && WorkOf([]) == [];
  }

  /** The work done on a ticket, as its state tells it. */
  function WorkAt(t: TicketValue): seq<TicketOp> {
    match t.state
    case CREATE_PENDING => []
    case AWAITING_ACCEPTANCE => [TicketOp.ConfirmCreate]
    case ACCEPTED => [TicketOp.ConfirmCreate, TicketOp.Accept]
    case PREPARING => [TicketOp.ConfirmCreate, TicketOp.Accept, Prepare]
    case READY_FOR_PICKUP => [TicketOp.ConfirmCreate, TicketOp.Accept, Prepare, TicketOp.ReadyForPickup]
    case PICKED_UP => [TicketOp.ConfirmCreate, TicketOp.Accept, Prepare, TicketOp.ReadyForPickup, PickUp]
    case _ =>
      if t.previous == AWAITING_ACCEPTANCE then [TicketOp.ConfirmCreate] else [TicketOp.ConfirmCreate, TicketOp.Accept]
  }

  lemma OneMoreIsDone(t: TicketValue, op: TicketOp)
    requires t.state in {CANCEL_PENDING, REVISION_PENDING} ==> t.previous in {AWAITING_ACCEPTANCE, ACCEPTED}
    requires Do(t, op).Some?
    ensures WorkAt(Do(t, op).value) == WorkAt(t) + WorkOf([op])
  {
    WorkOfOne(op);
    hide WorkOf;
  }

  /**
   In every life of a ticket the kitchen's work was done in the one order, each part once,
   and how much of it was done is what the state tells; a ticket that was cancelled, or is
   pending, remembers it.
   */
  lemma {:induction false} WorkIsDoneInOrder(ops: seq<TicketOp>)
    ensures WorkOf(Granted(NEW_TICKET, ops)) == WorkAt(AfterAll(NEW_TICKET, ops))
  {
    if ops != [] {
      var before, op := ops[..|ops| - 1], ops[|ops| - 1];
      var t, granted := AfterAll(NEW_TICKET, before), Granted(NEW_TICKET, before);
      WorkIsDoneInOrder(before);
      PendingRemembersAnOpenState(before);
      hide WorkOf, WorkAt;
      if Do(t, op).Some? {
        OneMoreIsDone(t, op);
        WorkOfMore(granted, op);
      } else {
        assert granted + [] == granted;
      }
    }
  }

  class Ticket {
    var state: TicketState
    var previousState: TicketState

    ghost function Value(): TicketValue
      reads this
    {
      TicketValue(state, previousState)
    }

    /** What every operation promises: it does `op`, or is refused and changes nothing. */
    twostate predicate Does(op: TicketOp, ok: bool)
      reads this
    {
      match Do(old(Value()), op)
      case Some(t) => ok && Value() == t
      case None => !ok && Value() == old(Value())
    }

    constructor ()
      ensures state == CREATE_PENDING
    {
      state, previousState := CREATE_PENDING, CREATE_PENDING;
    }

    method ConfirmCreate() returns (ok: bool)
      modifies this
      ensures Does(TicketOp.ConfirmCreate, ok)
      ensures ok <==> old(state) == CREATE_PENDING
      ensures state == (if ok then AWAITING_ACCEPTANCE else old(state)) && previousState == old(previousState)
    {
      ok := state == CREATE_PENDING;
      if ok { state := AWAITING_ACCEPTANCE; }
    }

    method Accept() returns (ok: bool)
      modifies this
      ensures Does(TicketOp.Accept, ok)
      ensures ok <==> old(state) == AWAITING_ACCEPTANCE
      ensures state == (if ok then ACCEPTED else old(state)) && previousState == old(previousState)
    {
      ok := state == AWAITING_ACCEPTANCE;
      if ok { state := ACCEPTED; }
    }

    method Preparing() returns (ok: bool)
      modifies this
      ensures Does(Prepare, ok)
      ensures ok <==> old(state) == ACCEPTED
      ensures state == (if ok then PREPARING else old(state)) && previousState == old(previousState)
    {
      ok := state == ACCEPTED;
      if ok { state := PREPARING; }
    }

    method ReadyForPickup() returns (ok: bool)
      modifies this
      ensures Does(TicketOp.ReadyForPickup, ok)
      ensures ok <==> old(state) == PREPARING
      ensures state == (if ok then READY_FOR_PICKUP else old(state)) && previousState == old(previousState)
    {
      ok := state == PREPARING;
      if ok { state := READY_FOR_PICKUP; }
    }

    method PickedUp() returns (ok: bool)
      modifies this
      ensures Does(PickUp, ok)
      ensures ok <==> old(state) == READY_FOR_PICKUP
      ensures state == (if ok then PICKED_UP else old(state)) && previousState == old(previousState)
    {
      ok := state == READY_FOR_PICKUP;
      if ok { state := PICKED_UP; }
    }

    method Cancel() returns (ok: bool)
      modifies this
      ensures Does(TicketOp.Cancel, ok)
      ensures ok <==> old(state) == AWAITING_ACCEPTANCE || old(state) == ACCEPTED
      ensures state == (if ok then CANCEL_PENDING else old(state))
      ensures previousState == (if ok then old(state) else old(previousState))
    {
      ok := state == AWAITING_ACCEPTANCE || state == ACCEPTED;
      if ok { previousState, state := state, CANCEL_PENDING; }
    }

    method ConfirmCancel() returns (ok: bool)
      modifies this
      ensures Does(TicketOp.ConfirmCancel, ok)
      ensures ok <==> old(state) == CANCEL_PENDING
      ensures state == (if ok then CANCELLED else old(state)) && previousState == old(previousState)
    {
      ok := state == CANCEL_PENDING;
      if ok { state := CANCELLED; }
    }

    method UndoCancel() returns (ok: bool)
      modifies this
      ensures Does(TicketOp.UndoCancel, ok)
      ensures ok <==> old(state) == CANCEL_PENDING
      ensures state == (if ok then old(previousState) else old(state)) && previousState == old(previousState)
    {
      ok := state == CANCEL_PENDING;
      if ok { state := previousState; }
    }

    method BeginReviseOrder() returns (ok: bool)
      modifies this
      ensures Does(BeginRevise, ok)
      ensures ok <==> old(state) == AWAITING_ACCEPTANCE || old(state) == ACCEPTED
      ensures state == (if ok then REVISION_PENDING else old(state))
      ensures previousState == (if ok then old(state) else old(previousState))
    {
      ok := state == AWAITING_ACCEPTANCE || state == ACCEPTED;
      if ok { previousState, state := state, REVISION_PENDING; }
    }

    method UndoBeginReviseOrder() returns (ok: bool)
      modifies this
      ensures Does(UndoBeginRevise, ok)
      ensures ok <==> old(state) == REVISION_PENDING
      ensures state == (if ok then old(previousState) else old(state)) && previousState == old(previousState)
    {
      ok := state == REVISION_PENDING;
      if ok { state := previousState; }
    }

    method ConfirmReviseTicket() returns (ok: bool)
      modifies this
      ensures Does(ConfirmRevise, ok)
      ensures ok <==> old(state) == REVISION_PENDING
      ensures state == (if ok then old(previousState) else old(state)) && previousState == old(previousState)
    {
      ok := state == REVISION_PENDING;
      if ok { state := previousState; }
    }
  }
}
