/** order-line-item.entity.ts, order-line-items.entity.ts and order.entity.ts, with money as integers. */
module Orders {
  import opened Options

  datatype LineItem = LineItem(menuItemId: nat, price: int, quantity: int) {
    function Total(): int {
      price * quantity
    }

    function DeltaForChangedQuantity(newQuantity: int): int {
      price * (newQuantity - quantity)
    }
  }

  datatype RevisedItem = RevisedItem(menuItemId: nat, quantity: int)
  datatype Revision = Revision(items: seq<RevisedItem>, deliveryInfo: Option<string>)

  // ---------- order-line-items.entity.ts ----------

  function OrderTotal(items: seq<LineItem>): int {
    if items == [] then 0 else OrderTotal(items[..|items| - 1]) + items[|items| - 1].Total()
  }

  function FindOne(items: seq<LineItem>, id: nat): Option<LineItem> {
    if items == [] then None else if items[0].menuItemId == id then Some(items[0]) else FindOne(items[1..], id)
  }

  function FindRevised(items: seq<RevisedItem>, id: nat): Option<RevisedItem> {
    if items == [] then None else if items[0].menuItemId == id then Some(items[0]) else FindRevised(items[1..], id)
  }

  /** The sum of the changes; None where a revised item has no line item, and the code fails. */
  function ChangeToOrderTotal(items: seq<LineItem>, revised: seq<RevisedItem>): Option<int> {
    if revised == [] then Some(0)
    else
      var last := revised[|revised| - 1];
      match (ChangeToOrderTotal(items, revised[..|revised| - 1]), FindOne(items, last.menuItemId))
      case (Some(sum), Some(item)) => Some(sum + item.DeltaForChangedQuantity(last.quantity))
      case _ => None
  }

  function NewOrderTotal(items: seq<LineItem>, revised: seq<RevisedItem>): Option<int> {
    match ChangeToOrderTotal(items, revised)
    case Some(delta) => Some(OrderTotal(items) + delta)
    case None => None
  }

  predicate Covers(items: seq<LineItem>, revised: seq<RevisedItem>) {
    forall k :: 0 <= k < |items| ==> FindRevised(revised, items[k].menuItemId).Some?
  }

  function Updated(items: seq<LineItem>, revised: seq<RevisedItem>): (r: seq<LineItem>)
    requires Covers(items, revised)
    ensures |r| == |items|
    ensures forall k :: 0 <= k < |items| ==>
      r[k] == items[k].(quantity := FindRevised(revised, items[k].menuItemId).value.quantity)
  {
    seq(|items|, k requires 0 <= k < |items| =>
      items[k].(quantity := FindRevised(revised, items[k].menuItemId).value.quantity))
  }

  /** The items as an update leaves them that stops at item `k`. */
  ghost predicate StoppedAt(was: seq<LineItem>, revised: seq<RevisedItem>, k: nat, now: seq<LineItem>)
    requires k < |was|
  {
    && Covers(was[..k], revised)
    && FindRevised(revised, was[k].menuItemId).None?
    && now == Updated(was[..k], revised) + was[k..]
  }

  class OrderLineItems {
    var lineItems: seq<LineItem>

    constructor (lineItems: seq<LineItem>)
      ensures this.lineItems == lineItems
    {
      this.lineItems := lineItems;
    }

    /** Sets the revised quantities item by item; stops, with those before it set, at an item that was not revised. */
    method Update(revised: seq<RevisedItem>) returns (ok: bool)
      modifies this
      ensures ok <==> Covers(old(lineItems), revised)
      ensures ok ==> lineItems == Updated(old(lineItems), revised)
      ensures !ok ==> exists k :: 0 <= k < |old(lineItems)| && StoppedAt(old(lineItems), revised, k, lineItems)
    {
      ghost var was := lineItems;
      for k := 0 to |lineItems|
        invariant |lineItems| == |was| && Covers(was[..k], revised)
        invariant lineItems[..k] == Updated(was[..k], revised) && lineItems[k..] == was[k..]
      {
        var item := lineItems[k];
        assert item == was[k] && was[..k + 1] == was[..k] + [item];
        var found := FindRevised(revised, item.menuItemId);
        if found.None? {
          assert lineItems == lineItems[..k] + lineItems[k..];
          assert StoppedAt(was, revised, k, lineItems);
          return false;
        }
        ghost var before := lineItems;
        lineItems := lineItems[k := item.(quantity := found.value.quantity)];
        assert lineItems[..k + 1] == before[..k] + [lineItems[k]];
        assert lineItems[k + 1..] == before[k..][1..] && was[k..][1..] == was[k + 1..];
      }
      assert was[..|was|] == was && lineItems[..|was|] == lineItems;
      return true;
    }
  }

  // ---------- order.entity.ts ----------

  datatype OrderState = APPROVAL_PENDING | APPROVED | REJECTED | CANCEL_PENDING | CANCELLED | REVISION_PENDING

  datatype OrderOp =
    | Cancel | UndoPendingCancel | NoteCancelled
    | NoteApproved | NoteRejected
    | Revise(revision: Revision) | RejectRevision | ConfirmRevision(revision: Revision)

  datatype OrderValue = OrderValue(state: OrderState, items: seq<LineItem>, deliveryInfo: string, minimum: int)

  /** The order after an operation; None when it throws, and the order is not saved. */
  function Do(o: OrderValue, op: OrderOp): Option<OrderValue> {
    match (op, o.state)
    case (Cancel, APPROVED) => Some(o.(state := CANCEL_PENDING))
    case (UndoPendingCancel, CANCEL_PENDING) => Some(o.(state := APPROVED))
    case (NoteCancelled, CANCEL_PENDING) => Some(o.(state := CANCELLED))
    case (NoteApproved, APPROVAL_PENDING) => Some(o.(state := APPROVED))
    case (NoteRejected, APPROVAL_PENDING) => Some(o.(state := REJECTED))
    case (Revise(r), APPROVED) =>
      var total := NewOrderTotal(o.items, r.items);
      if total.None? || total.value >= o.minimum then None else Some(o.(state := REVISION_PENDING))
    case (RejectRevision, REVISION_PENDING) => Some(o.(state := APPROVED))
    case (ConfirmRevision(r), REVISION_PENDING) =>
      if NewOrderTotal(o.items, r.items).None? || !Covers(o.items, r.items) then None
      else Some(o.(
        state := APPROVED,
        items := Updated(o.items, r.items),
        deliveryInfo := if r.deliveryInfo.Some? then r.deliveryInfo.value else o.deliveryInfo))
    case _ => None
  }

  class Order {
    var state: OrderState
    const lineItems: OrderLineItems
    var deliveryInfo: string
    const minimum: int

    ghost function Value(): OrderValue
      reads this, lineItems
    {
      OrderValue(state, lineItems.lineItems, deliveryInfo, minimum)
    }

    /** It does `op`; when it throws, the stored order stays as it was, whatever this object has become. */
    twostate predicate Does(op: OrderOp, ok: bool)
      reads this, lineItems
    {
      match Do(old(Value()), op)
      case Some(o) => ok && Value() == o
      case None => !ok && state == old(state)
    }

    constructor (items: seq<LineItem>, deliveryInfo: string, minimum: int)
      ensures Value() == OrderValue(APPROVAL_PENDING, items, deliveryInfo, minimum) && fresh(lineItems)
    {
      state, this.deliveryInfo, this.minimum := APPROVAL_PENDING, deliveryInfo, minimum;
      lineItems := new OrderLineItems(items);
    }

    method Cancel() returns (ok: bool)
      modifies this
      ensures Does(OrderOp.Cancel, ok)
      ensures ok <==> old(state) == APPROVED
      ensures Value() == old(Value()).(state := if ok then CANCEL_PENDING else old(state))
    {
      ok := state == APPROVED;
      if ok { state := CANCEL_PENDING; }
    }

    method UndoPendingCancel() returns (ok: bool)
      modifies this
      ensures Does(OrderOp.UndoPendingCancel, ok)
      ensures ok <==> old(state) == CANCEL_PENDING
      ensures Value() == old(Value()).(state := if ok then APPROVED else old(state))
    {
      ok := state == CANCEL_PENDING;
      if ok { state := APPROVED; }
    }

    method NoteCancelled() returns (ok: bool)
      modifies this
      ensures Does(OrderOp.NoteCancelled, ok)
      ensures ok <==> old(state) == CANCEL_PENDING
      ensures Value() == old(Value()).(state := if ok then CANCELLED else old(state))
    {
      ok := state == CANCEL_PENDING;
      if ok { state := CANCELLED; }
    }

    method NoteApproved() returns (ok: bool)
      modifies this
      ensures Does(OrderOp.NoteApproved, ok)
      ensures ok <==> old(state) == APPROVAL_PENDING
      ensures Value() == old(Value()).(state := if ok then APPROVED else old(state))
    {
      ok := state == APPROVAL_PENDING;
      if ok { state := APPROVED; }
    }

    method NoteRejected() returns (ok: bool)
      modifies this
      ensures Does(OrderOp.NoteRejected, ok)
      ensures ok <==> old(state) == APPROVAL_PENDING
      ensures Value() == old(Value()).(state := if ok then REJECTED else old(state))
    {
      ok := state == APPROVAL_PENDING;
      if ok { state := REJECTED; }
    }

    /** The new total is announced when the revision is accepted. */
    method Revise(revision: Revision) returns (announced: Option<int>)
      modifies this
      ensures Does(OrderOp.Revise(revision), announced.Some?)
      ensures announced.Some? ==> announced == NewOrderTotal(old(lineItems.lineItems), revision.items)
      ensures announced.Some? <==>
        && old(state) == APPROVED
        && var total := NewOrderTotal(old(lineItems.lineItems), revision.items);
           total.Some? && total.value < minimum
      ensures Value() == old(Value()).(state := if announced.Some? then REVISION_PENDING else old(state))
    {
      announced := None;
      if state == APPROVED {
        var total := NewOrderTotal(lineItems.lineItems, revision.items);
        if total.Some? && total.value < minimum {
          state := REVISION_PENDING;
          announced := total;
        }
      }
    }

    method RejectRevision() returns (ok: bool)
      modifies this
      ensures Does(OrderOp.RejectRevision, ok)
      ensures ok <==> old(state) == REVISION_PENDING
      ensures Value() == old(Value()).(state := if ok then APPROVED else old(state))
    {
      ok := state == REVISION_PENDING;
      if ok { state := APPROVED; }
    }

    method ConfirmRevision(revision: Revision) returns (ok: bool)
      modifies this, lineItems
      ensures Does(OrderOp.ConfirmRevision(revision), ok)
      ensures ok ==> old(state) == REVISION_PENDING && state == APPROVED
      ensures ok ==>
        deliveryInfo == if revision.deliveryInfo.Some? then revision.deliveryInfo.value else old(deliveryInfo)
    {
      ok := state == REVISION_PENDING && NewOrderTotal(lineItems.lineItems, revision.items).Some?;
      if ok {
        if revision.deliveryInfo.Some? {
          deliveryInfo := revision.deliveryInfo.value;
        }
        ok := lineItems.Update(revision.items);
        if ok {
          state := APPROVED;
        }
      }
    }
  }

  // ---------- what an order's past tells ----------

  function AfterAll(o: OrderValue, ops: seq<OrderOp>): OrderValue {
    if ops == [] then o
    else
      var before := AfterAll(o, ops[..|ops| - 1]);
      match Do(before, ops[|ops| - 1])
      case Some(after) => after
      case None => before
  }

  /** The operations that were granted, in order. */
  function Granted(o: OrderValue, ops: seq<OrderOp>): seq<OrderOp> {
    if ops == [] then []
    else
      var (before, op) := (ops[..|ops| - 1], ops[|ops| - 1]);
      Granted(o, before) + if Do(AfterAll(o, before), op).Some? then [op] else []
  }

  function NotesOf(ops: seq<OrderOp>): seq<OrderOp> {
    if ops == [] then []
    else
      var op := ops[|ops| - 1];
      NotesOf(ops[..|ops| - 1]) + if op == NoteApproved || op == NoteRejected then [op] else []
  }

  /** The delivery information of the last revision that gave some. */
  function LastDeliveryInfo(ops: seq<OrderOp>, first: string): string {
    if ops == [] then first
    else
      var op := ops[|ops| - 1];
      if op.ConfirmRevision? && op.revision.deliveryInfo.Some? then op.revision.deliveryInfo.value
      else LastDeliveryInfo(ops[..|ops| - 1], first)
  }

  /** The note that decided an order, as its state tells it. */
  function NotesAt(state: OrderState): seq<OrderOp> {
    match state
    case APPROVAL_PENDING => []
    case REJECTED => [NoteRejected]
    case _ => [NoteApproved]
  }

  lemma NotesOfMore(ops: seq<OrderOp>, op: OrderOp)
    ensures NotesOf(ops + [op]) == NotesOf(ops) + if op == NoteApproved || op == NoteRejected then [op] else []
  {
    assert (ops + [op])[..|ops|] == ops;
  }

  lemma LastDeliveryInfoMore(ops: seq<OrderOp>, op: OrderOp, first: string)
    ensures LastDeliveryInfo(ops + [op], first) ==
      if op.ConfirmRevision? && op.revision.deliveryInfo.Some? then op.revision.deliveryInfo.value
      else LastDeliveryInfo(ops, first)
  {
    assert (ops + [op])[..|ops|] == ops;
  }

  lemma OneMoreIsNoted(o: OrderValue, op: OrderOp)
    requires Do(o, op).Some?
    ensures var t := Do(o, op).value;
      && NotesAt(t.state) == NotesAt(o.state) + (if op == NoteApproved || op == NoteRejected then [op] else [])
      && t.minimum == o.minimum
      && t.deliveryInfo ==
         if op.ConfirmRevision? && op.revision.deliveryInfo.Some? then op.revision.deliveryInfo.value
         else o.deliveryInfo
  {
    hide NewOrderTotal, Updated, Covers;
  }

  /**
   In every life of an order exactly one note decides it: it is pending for approval until
   then, rejected ever after a rejection, and otherwise was approved. Its delivery information
   is what the last confirmed revision that gave some says, and its minimum never changes.
   */
  lemma {:induction false} NotesDecide(o: OrderValue, ops: seq<OrderOp>)
    requires o.state == APPROVAL_PENDING
    ensures var (t, granted) := (AfterAll(o, ops), Granted(o, ops));
      && NotesOf(granted) == NotesAt(t.state)
      && t.deliveryInfo == LastDeliveryInfo(granted, o.deliveryInfo)
      && t.minimum == o.minimum
  {
    if ops != [] {
      var before, op := ops[..|ops| - 1], ops[|ops| - 1];
      var t, granted := AfterAll(o, before), Granted(o, before);
      NotesDecide(o, before);
      hide NotesOf, NotesAt, LastDeliveryInfo, Do;
      if Do(t, op).Some? {
        OneMoreIsNoted(t, op);
        NotesOfMore(granted, op);
        LastDeliveryInfoMore(granted, op, o.deliveryInfo);
      } else {
        assert granted + [] == granted;
      }
    }
  }

  // ---------- the quoted total is the final total ----------

  /** No menu item twice, neither in the line items nor in the revision. */
  ghost predicate Distinct(items: seq<LineItem>, revised: seq<RevisedItem>) {
    && (forall i, j :: 0 <= i < j < |items| ==> items[i].menuItemId != items[j].menuItemId)
    && (forall i, j :: 0 <= i < j < |revised| ==> revised[i].menuItemId != revised[j].menuItemId)
  }

  /** The revision names each line item once, in any order, and nothing else. */
  ghost predicate Matches(items: seq<LineItem>, revised: seq<RevisedItem>) {
    Distinct(items, revised) && multiset(Ids(items)) == multiset(RevisedIds(revised))
  }

  function Ids(items: seq<LineItem>): (ids: seq<nat>)
    ensures |ids| == |items| && forall k :: 0 <= k < |ids| ==> ids[k] == items[k].menuItemId
  {
    seq(|items|, k requires 0 <= k < |items| => items[k].menuItemId)
  }

  function RevisedIds(revised: seq<RevisedItem>): (ids: seq<nat>)
    ensures |ids| == |revised| && forall k :: 0 <= k < |ids| ==> ids[k] == revised[k].menuItemId
  {
    seq(|revised|, k requires 0 <= k < |revised| => revised[k].menuItemId)
  }

  function SumOver(ids: seq<nat>, f: nat -> int): int {
    if ids == [] then 0 else SumOver(ids[..|ids| - 1], f) + f(ids[|ids| - 1])
  }

  lemma {:induction false} SumWithout(ids: seq<nat>, f: nat -> int, k: nat)
    requires k < |ids|
    ensures SumOver(ids, f) == SumOver(ids[..k] + ids[k + 1..], f) + f(ids[k])
  {
    var n := |ids| - 1;
    if k < n {
      SumWithout(ids[..n], f, k);
      var rest := ids[..k] + ids[k + 1..];
      assert rest[..n - 1] == ids[..n][..k] + ids[..n][k + 1..];
    } else {
      assert ids[..k] + ids[k + 1..] == ids[..n];
    }
  }

  /** A sum does not depend on the order of its terms. */
  lemma {:induction false} SumOfPermutation(a: seq<nat>, b: seq<nat>, f: nat -> int)
    requires multiset(a) == multiset(b)
    ensures SumOver(a, f) == SumOver(b, f)
  {
    if a == [] {
      assert |multiset(b)| == 0;
    } else {
      var n := |a| - 1;
      assert a == a[..n] + [a[n]];
      assert a[n] in multiset(b);
      var k :| 0 <= k < |b| && b[k] == a[n];
      assert b == b[..k] + [b[k]] + b[k + 1..];
      assert multiset(a) == multiset(a[..n]) + multiset{a[n]};
      assert multiset(b) == multiset(b[..k] + b[k + 1..]) + multiset{b[k]};
      assert multiset(a[..n]) == multiset(a) - multiset{a[n]};
      SumOfPermutation(a[..n], b[..k] + b[k + 1..], f);
      SumWithout(b, f, k);
    }
  }

  /** The ids in the order of their first occurrences. */
  function Firsts(ids: seq<nat>): seq<nat> {
    if ids == [] then []
    else
      var n := |ids| - 1;
      if ids[n] in ids[..n] then Firsts(ids[..n]) else Firsts(ids[..n]) + [ids[n]]
  }

  lemma {:induction false} FirstsCount(ids: seq<nat>, x: nat)
    ensures multiset(Firsts(ids))[x] == if x in ids then 1 else 0
  {
    if ids != [] {
      var n := |ids| - 1;
      FirstsCount(ids[..n], x);
      assert ids == ids[..n] + [ids[n]];
    }
  }

  lemma FirstsMore(ids: seq<nat>, x: nat, f: nat -> int)
    ensures SumOver(Firsts(ids + [x]), f) == SumOver(Firsts(ids), f) + if x in ids then 0 else f(x)
  {
    assert (ids + [x])[..|ids|] == ids;
    assert (Firsts(ids) + [x])[..|Firsts(ids)|] == Firsts(ids);
  }

  lemma {:induction false} FindOneFindsFirst(items: seq<LineItem>, k: nat)
    requires k < |items| && items[k].menuItemId !in Ids(items[..k])
    ensures FindOne(items, items[k].menuItemId) == Some(items[k])
  {
    if k > 0 {
      assert Ids(items[..k])[0] == items[0].menuItemId && Ids(items[..k])[1..] == Ids(items[1..][..k - 1]);
      FindOneFindsFirst(items[1..], k - 1);
    }
  }

  lemma {:induction false} FindRevisedFindsFirst(revised: seq<RevisedItem>, k: nat)
    requires k < |revised| && revised[k].menuItemId !in RevisedIds(revised[..k])
    ensures FindRevised(revised, revised[k].menuItemId) == Some(revised[k])
  {
    if k > 0 {
      assert RevisedIds(revised[..k])[0] == revised[0].menuItemId;
      assert RevisedIds(revised[..k])[1..] == RevisedIds(revised[1..][..k - 1]);
      FindRevisedFindsFirst(revised[1..], k - 1);
    }
  }

  lemma {:induction false} FoundExactlyIn(items: seq<LineItem>, id: nat)
    ensures FindOne(items, id).Some? <==> id in Ids(items)
  {
    if items != [] {
      FoundExactlyIn(items[1..], id);
      assert Ids(items)[0] == items[0].menuItemId && Ids(items)[1..] == Ids(items[1..]);
    }
  }

  lemma {:induction false} RevisedExactlyIn(revised: seq<RevisedItem>, id: nat)
    ensures FindRevised(revised, id).Some? <==> id in RevisedIds(revised)
  {
    if revised != [] {
      RevisedExactlyIn(revised[1..], id);
      assert RevisedIds(revised)[0] == revised[0].menuItemId && RevisedIds(revised)[1..] == RevisedIds(revised[1..]);
    }
  }

  /** The change that the revision's first entry for this id makes to the first item with it. */
  function Delta(items: seq<LineItem>, revised: seq<RevisedItem>, id: nat): int {
    match (FindOne(items, id), FindRevised(revised, id))
    case (Some(item), Some(r)) => item.DeltaForChangedQuantity(r.quantity)
    case _ => 0
  }

  function Deltas(items: seq<LineItem>, revised: seq<RevisedItem>): nat -> int {
    (id: nat) => Delta(items, revised, id)
  }

  /** What the announced change counts for entries whose menu item was revised by an earlier entry. */
  function RepeatedEntries(items: seq<LineItem>, revised: seq<RevisedItem>): int {
    if revised == [] then 0
    else
      var n := |revised| - 1;
      var found := FindOne(items, revised[n].menuItemId);
      RepeatedEntries(items, revised[..n]) +
      if revised[n].menuItemId in RevisedIds(revised[..n]) && found.Some?
      then found.value.DeltaForChangedQuantity(revised[n].quantity) else 0
  }

  /** What the update changes on line items whose menu item an earlier line item has. */
  function RepeatedItems(items: seq<LineItem>, revised: seq<RevisedItem>): int {
    if items == [] then 0
    else
      var n := |items| - 1;
      var found := FindRevised(revised, items[n].menuItemId);
      RepeatedItems(items[..n], revised) +
      if items[n].menuItemId in Ids(items[..n]) && found.Some?
      then items[n].DeltaForChangedQuantity(found.value.quantity) else 0
  }

  /** One entry more, for an item that is found. */
  lemma ChangeStep(items: seq<LineItem>, revised: seq<RevisedItem>, k: nat)
    requires k < |revised| && FindOne(items, revised[k].menuItemId).Some?
    ensures var (front, entry, f) := (revised[..k], revised[k], Deltas(items, revised));
      SumOver(Firsts(RevisedIds(revised[..k + 1])), f) + RepeatedEntries(items, revised[..k + 1]) ==
      SumOver(Firsts(RevisedIds(front)), f) + RepeatedEntries(items, front)
        + FindOne(items, entry.menuItemId).value.DeltaForChangedQuantity(entry.quantity)
  {
    var front, entry := revised[..k], revised[k];
    assert revised[..k + 1][..k] == front && revised[..k + 1][k] == entry;
    assert RevisedIds(revised[..k + 1]) == RevisedIds(front) + [entry.menuItemId];
    FirstsMore(RevisedIds(front), entry.menuItemId, Deltas(items, revised));
    hide Firsts, SumOver, FindOne, FindRevised;
    if entry.menuItemId !in RevisedIds(front) {
      FindRevisedFindsFirst(revised, k);
    }
  }

  lemma {:induction false} ChangeSplits(items: seq<LineItem>, revised: seq<RevisedItem>, n: nat)
    requires n <= |revised| && ChangeToOrderTotal(items, revised[..n]).Some?
    ensures ChangeToOrderTotal(items, revised[..n]).value ==
      SumOver(Firsts(RevisedIds(revised[..n])), Deltas(items, revised)) + RepeatedEntries(items, revised[..n])
  {
    if n > 0 {
      var k: nat := n - 1;
      assert revised[..n][..k] == revised[..k] && revised[..n][k] == revised[k];
      ChangeSplits(items, revised, k);
      hide Firsts, SumOver, FindOne, RevisedIds, RepeatedEntries, Deltas, Delta;
      ChangeStep(items, revised, k);
    }
  }

  lemma QuantityChanges(item: LineItem, quantity: int)
    ensures item.(quantity := quantity).Total() == item.Total() + item.DeltaForChangedQuantity(quantity)
  {
  }

  /** One item more, revised by the first entry for it. */
  lemma GrowthStep(items: seq<LineItem>, revised: seq<RevisedItem>, k: nat)
    requires k < |items| && FindRevised(revised, items[k].menuItemId).Some?
    ensures var (front, item, f) := (items[..k], items[k], Deltas(items, revised));
      SumOver(Firsts(Ids(items[..k + 1])), f) + RepeatedItems(items[..k + 1], revised) ==
      SumOver(Firsts(Ids(front)), f) + RepeatedItems(front, revised)
        + item.DeltaForChangedQuantity(FindRevised(revised, item.menuItemId).value.quantity)
  {
    var front, item := items[..k], items[k];
    assert items[..k + 1][..k] == front && items[..k + 1][k] == item;
    assert Ids(items[..k + 1]) == Ids(front) + [item.menuItemId];
    FirstsMore(Ids(front), item.menuItemId, Deltas(items, revised));
    hide Firsts, SumOver, FindOne, FindRevised;
    if item.menuItemId !in Ids(front) {
      FindOneFindsFirst(items, k);
    }
  }

  lemma {:induction false} GrowthSplits(items: seq<LineItem>, revised: seq<RevisedItem>, n: nat)
    requires Covers(items, revised) && n <= |items|
    ensures OrderTotal(Updated(items, revised)[..n]) == OrderTotal(items[..n])
      + SumOver(Firsts(Ids(items[..n])), Deltas(items, revised)) + RepeatedItems(items[..n], revised)
  {
    if n > 0 {
      var k: nat := n - 1;
      var after := Updated(items, revised);
      GrowthSplits(items, revised, k);
      GrowthStep(items, revised, k);
      assert after[..n][..k] == after[..k] && items[..n][..k] == items[..k];
      assert after[..n][k] == after[k] && items[..n][k] == items[k];
      QuantityChanges(items[k], FindRevised(revised, items[k].menuItemId).value.quantity);
      hide Firsts, SumOver, Covers, RepeatedItems;
    }
  }

  lemma {:induction false} AcceptedIsKnown(items: seq<LineItem>, revised: seq<RevisedItem>, k: nat)
    requires ChangeToOrderTotal(items, revised).Some? && k < |revised|
    ensures revised[k].menuItemId in Ids(items)
  {
    var n := |revised| - 1;
    if k < n {
      AcceptedIsKnown(items, revised[..n], k);
    } else {
      FoundExactlyIn(items, revised[n].menuItemId);
    }
  }

  /** A revision that is announced a total and can be confirmed names the line items' menu items, and no others. */
  lemma AcceptedAndCoveringNamesTheItems(items: seq<LineItem>, revised: seq<RevisedItem>, x: nat)
    requires NewOrderTotal(items, revised).Some? && Covers(items, revised)
    ensures x in Ids(items) <==> x in RevisedIds(revised)
  {
    if x in Ids(items) {
      var k :| 0 <= k < |items| && Ids(items)[k] == x;
      RevisedExactlyIn(revised, items[k].menuItemId);
    }
    if x in RevisedIds(revised) {
      var k :| 0 <= k < |revised| && RevisedIds(revised)[k] == x;
      AcceptedIsKnown(items, revised, k);
    }
  }

  lemma {:induction false} DistinctCount(ids: seq<nat>, x: nat)
    requires forall i, j :: 0 <= i < j < |ids| ==> ids[i] != ids[j]
    ensures multiset(ids)[x] == if x in ids then 1 else 0
  {
    if ids != [] {
      var n := |ids| - 1;
      DistinctCount(ids[..n], x);
      assert ids == ids[..n] + [ids[n]];
    }
  }

  /** So without repetitions it matches the line items. */
  lemma AcceptedAndCoveringMatches(items: seq<LineItem>, revised: seq<RevisedItem>)
    requires Distinct(items, revised) && NewOrderTotal(items, revised).Some? && Covers(items, revised)
    ensures Matches(items, revised)
  {
    forall x ensures multiset(Ids(items))[x] == multiset(RevisedIds(revised))[x] {
      DistinctCount(Ids(items), x);
      DistinctCount(RevisedIds(revised), x);
      AcceptedAndCoveringNamesTheItems(items, revised, x);
    }
  }

  /**
   For every revision that is announced a total and can be confirmed, in whatever order it
   and the line items are: the total announced differs from the total of the updated items
   by just what the announcement counts for repeated entries and the update changes on
   repeated line items. So the quoted total is final if and only if these two agree.
   */
  lemma QuotedTotalIsFinal(items: seq<LineItem>, revised: seq<RevisedItem>)
    requires NewOrderTotal(items, revised).Some? && Covers(items, revised)
    ensures var (quoted, final) := (NewOrderTotal(items, revised).value, OrderTotal(Updated(items, revised)));
      && quoted - RepeatedEntries(items, revised) == final - RepeatedItems(items, revised)
      && (quoted == final <==> RepeatedEntries(items, revised) == RepeatedItems(items, revised))
    ensures Distinct(items, revised) ==> NewOrderTotal(items, revised).value == OrderTotal(Updated(items, revised))
  {
    assert revised[..|revised|] == revised && items[..|items|] == items;
    ChangeSplits(items, revised, |revised|);
    GrowthSplits(items, revised, |items|);
    assert Updated(items, revised)[..|items|] == Updated(items, revised);
    var a, b := Firsts(Ids(items)), Firsts(RevisedIds(revised));
    forall x ensures multiset(a)[x] == multiset(b)[x] {
      FirstsCount(Ids(items), x);
      FirstsCount(RevisedIds(revised), x);
      AcceptedAndCoveringNamesTheItems(items, revised, x);
    }
    assert multiset(a) == multiset(b);
    SumOfPermutation(a, b, Deltas(items, revised));
    if Distinct(items, revised) {
      NoRepeats(items, revised);
    }
  }

  lemma {:induction false} NoRepeatedEntries(items: seq<LineItem>, revised: seq<RevisedItem>)
    requires forall i, j :: 0 <= i < j < |revised| ==> revised[i].menuItemId != revised[j].menuItemId
    ensures RepeatedEntries(items, revised) == 0
  {
    if revised != [] {
      NoRepeatedEntries(items, revised[..|revised| - 1]);
    }
  }

  lemma {:induction false} NoRepeatedItems(items: seq<LineItem>, revised: seq<RevisedItem>)
    requires forall i, j :: 0 <= i < j < |items| ==> items[i].menuItemId != items[j].menuItemId
    ensures RepeatedItems(items, revised) == 0
  {
    if items != [] {
      NoRepeatedItems(items[..|items| - 1], revised);
    }
  }

  lemma NoRepeats(items: seq<LineItem>, revised: seq<RevisedItem>)
    requires Distinct(items, revised)
    ensures RepeatedEntries(items, revised) == 0 && RepeatedItems(items, revised) == 0
  {
    NoRepeatedEntries(items, revised);
    NoRepeatedItems(items, revised);
  }

  lemma {:induction false} KnownIsAccepted(items: seq<LineItem>, revised: seq<RevisedItem>)
    requires forall k :: 0 <= k < |revised| ==> revised[k].menuItemId in Ids(items)
    ensures ChangeToOrderTotal(items, revised).Some?
  {
    if revised != [] {
      KnownIsAccepted(items, revised[..|revised| - 1]);
      FoundExactlyIn(items, revised[|revised| - 1].menuItemId);
    }
  }

  /** Revisions that name each line item once, in any order, are announced a total, can be confirmed, and give it. */
  lemma MatchingQuoteIsFinal(items: seq<LineItem>, revised: seq<RevisedItem>)
    requires Matches(items, revised)
    ensures Covers(items, revised)
    ensures NewOrderTotal(items, revised) == Some(OrderTotal(Updated(items, revised)))
  {
    forall k | 0 <= k < |items| ensures FindRevised(revised, items[k].menuItemId).Some? {
      assert Ids(items)[k] in multiset(RevisedIds(revised));
      RevisedExactlyIn(revised, items[k].menuItemId);
    }
    forall k | 0 <= k < |revised| ensures revised[k].menuItemId in Ids(items) {
      assert RevisedIds(revised)[k] in multiset(Ids(items));
    }
    KnownIsAccepted(items, revised);
    QuotedTotalIsFinal(items, revised);
  }

  /** A menu item revised twice: the announcement counts both entries, the update the first. */
  lemma QuotedTotalCanDiffer()
    ensures var items := [LineItem(1, 10, 1)];
      var revised := [RevisedItem(1, 2), RevisedItem(1, 3)];
      Covers(items, revised) && NewOrderTotal(items, revised) == Some(40) && OrderTotal(Updated(items, revised)) == 20
  {
    var items := [LineItem(1, 10, 1)];
    var revised := [RevisedItem(1, 2), RevisedItem(1, 3)];
    assert revised[..1] == [RevisedItem(1, 2)] && revised[..1][..0] == [] && items[..0] == [];
    assert ChangeToOrderTotal(items, revised[..1]) == Some(10);
    assert ChangeToOrderTotal(items, revised) == Some(30);
    assert Updated(items, revised)[0] == LineItem(1, 10, 2);
    assert Updated(items, revised)[..0] == [];
  }

  /** A repetition that does no harm: the second entry keeps the quantity that the item had. */
  lemma QuotedTotalNeedNotDiffer()
    ensures var items := [LineItem(1, 10, 1)];
      var revised := [RevisedItem(1, 2), RevisedItem(1, 1)];
      && Covers(items, revised) && NewOrderTotal(items, revised).Some? && !Distinct(items, revised)
      && RepeatedEntries(items, revised) == 0
      && NewOrderTotal(items, revised) == Some(OrderTotal(Updated(items, revised)))
  {
    var items := [LineItem(1, 10, 1)];
    var revised := [RevisedItem(1, 2), RevisedItem(1, 1)];
    assert revised[..1] == [RevisedItem(1, 2)] && revised[..1][..0] == [] && items[..0] == [];
    assert ChangeToOrderTotal(items, revised[..1]) == Some(10);
    assert RevisedIds(revised[..1])[0] == 1 && RepeatedEntries(items, revised[..1]) == 0;
    assert revised[0].menuItemId == revised[1].menuItemId;
    assert RepeatedItems(items, revised) == 0;
    QuotedTotalIsFinal(items, revised);
  }

  /** A menu item on two line items: the announcement counts the first, the update changes both. */
  lemma QuotedTotalCanDifferForRepeatedItems()
    ensures var items := [LineItem(1, 10, 1), LineItem(1, 10, 1)];
      var revised := [RevisedItem(1, 2)];
      Covers(items, revised) && NewOrderTotal(items, revised) == Some(30) && OrderTotal(Updated(items, revised)) == 40
  {
    var items := [LineItem(1, 10, 1), LineItem(1, 10, 1)];
    var revised := [RevisedItem(1, 2)];
    assert revised[..0] == [] && items[..1] == [LineItem(1, 10, 1)] && items[..1][..0] == [];
    assert OrderTotal(items[..1]) == 10 && OrderTotal(items) == 20;
    assert ChangeToOrderTotal(items, revised) == Some(10);
    var after := Updated(items, revised);
    assert after == [LineItem(1, 10, 2), LineItem(1, 10, 2)];
    assert after[..1] == [LineItem(1, 10, 2)] && after[..1][..0] == [];
    assert OrderTotal(after[..1]) == 20;
  }

  /** Updating keeps the ids, so it changes nothing about which revisions cover or match the items. */
  lemma SameIds(items: seq<LineItem>, now: seq<LineItem>, revised: seq<RevisedItem>)
    requires Ids(items) == Ids(now)
    ensures Covers(items, revised) <==> Covers(now, revised)
    ensures Distinct(items, revised) <==> Distinct(now, revised)
  {
    assert forall k :: 0 <= k < |items| ==> Ids(items)[k] == items[k].menuItemId && Ids(now)[k] == now[k].menuItemId;
  }

  /** No operation changes which items an order has. */
  lemma DoKeepsIds(o: OrderValue, op: OrderOp)
    ensures Do(o, op).Some? ==> Ids(Do(o, op).value.items) == Ids(o.items)
  {
  }

  /** An operation that was granted is refused when it is asked again at once. */
  lemma NothingIsGrantedTwice(o: OrderValue, op: OrderOp)
    ensures Do(o, op).Some? ==> Do(Do(o, op).value, op) == None
  {
  }

  // ---------- over any run of an order's operations ----------

  /** An order, and the revision last accepted with the total announced for it. */
  datatype Quote = Quote(order: OrderValue, announced: Option<(seq<RevisedItem>, int)>)

  function NextQuote(q: Quote, op: OrderOp): Quote {
    match Do(q.order, op)
    case None => q
    case Some(o) =>
      if op.Revise? && NewOrderTotal(q.order.items, op.revision.items).Some? then
        Quote(o, Some((op.revision.items, NewOrderTotal(q.order.items, op.revision.items).value)))
      else q.(order := o)
  }

  function QuoteAfter(o: OrderValue, ops: seq<OrderOp>): Quote {
    if ops == [] then Quote(o, None) else NextQuote(QuoteAfter(o, ops[..|ops| - 1]), ops[|ops| - 1])
  }

  lemma {:induction false} PendingQuoteStands(o: OrderValue, ops: seq<OrderOp>)
    requires o.state != REVISION_PENDING
    ensures var q := QuoteAfter(o, ops);
      && Ids(q.order.items) == Ids(o.items)
      && (q.order.state == REVISION_PENDING ==>
           q.announced.Some? && NewOrderTotal(q.order.items, q.announced.value.0) == Some(q.announced.value.1))
  {
    if ops != [] {
      PendingQuoteStands(o, ops[..|ops| - 1]);
      DoKeepsIds(QuoteAfter(o, ops[..|ops| - 1]).order, ops[|ops| - 1]);
      hide Ids, NewOrderTotal, Updated, Covers;
    }
  }

  lemma ConfirmingUpdates(o: OrderValue, r: Revision)
    ensures var confirmed := Do(o, ConfirmRevision(r));
      confirmed.Some? ==>
        o.state == REVISION_PENDING && Covers(o.items, r.items) && confirmed.value.items == Updated(o.items, r.items)
  {
  }

  /**
   After any operations, confirming the revision last announced gives its announced total
   if and only if its repeated entries and the repeated line items agree, and always when
   no menu item is repeated.
   */
  lemma AnnouncedTotalIsConfirmed(o: OrderValue, ops: seq<OrderOp>, r: Revision)
    requires o.state != REVISION_PENDING
    requires var q := QuoteAfter(o, ops);
      Do(q.order, ConfirmRevision(r)).Some? && q.announced.Some? && q.announced.value.0 == r.items
    ensures var q := QuoteAfter(o, ops);
      var total := OrderTotal(Do(q.order, ConfirmRevision(r)).value.items);
      && q.announced.value.1 - RepeatedEntries(q.order.items, r.items) == total - RepeatedItems(q.order.items, r.items)
      && (total == q.announced.value.1 <==>
           RepeatedEntries(q.order.items, r.items) == RepeatedItems(q.order.items, r.items))
      && (Distinct(o.items, r.items) ==> total == q.announced.value.1)
  {
    hide *;
    var q := QuoteAfter(o, ops);
    PendingQuoteStands(o, ops);
    ConfirmingUpdates(q.order, r);
    SameIds(o.items, q.order.items, r.items);
    QuotedTotalIsFinal(q.order.items, r.items);
  }
}
