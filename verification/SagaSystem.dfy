/**
 What a saga manager does, on values: its instances, the messages it has sent
 and the hooks it has called, as functions of the system before.
 */
module SagaSystem {
  import opened Options
  import opened SagaSteps

  /** destination-and-resource.ts: a target that a participant has locked for the saga. */
  datatype Destination = Destination(destination: string, resource: string)

  datatype ReplyMessage = ReplyMessage(
    sagaType: string,
    sagaId: nat,
    inReplyTo: nat,
    reply: Reply,
    locked: Option<Destination>)

  /** A reply that reached an instance before its end; not accepted when it was rejected with an error. */
  datatype Received = Received(message: ReplyMessage, accepted: bool)

  datatype Instance<+D> = Instance(
    pos: Position,
    data: D,
    lastRequestId: Option<nat>,
    destinations: seq<Destination>,
    visits: seq<Visit<D>>,
    received: seq<Received>)

  /** A message's id is its index among the messages sent. */
  datatype Sent = CommandSent(sagaId: nat, command: Command) | UnlockSent(sagaId: nat, target: Destination)

  datatype Hook<+D> =
    | Starting(sagaId: nat)
    | CompletedSuccessfully(sagaId: nat, data: D)
    | RolledBack(sagaId: nat, data: D)

  datatype System<+D> = System(instances: map<nat, Instance<D>>, sent: seq<Sent>, hooks: seq<Hook<D>>)

  datatype Rejection =
    | CannotClaimResourceLock
    | LocalException(exception: string)
    | UnknownInstance
    | UnreadableState
    | MissingStep
    | FailureWhenCompensating

  function UnlocksFor(id: nat, targets: seq<Destination>): seq<Sent> {
    seq(|targets|, i requires 0 <= i < |targets| => UnlockSent(id, targets[i]))
  }

  /** The messages that end a burst: its command, or the unlocks of a saga that ended. */
  function SentBy<D>(id: nat, b: Burst<D>, targets: seq<Destination>): seq<Sent> {
    (if b.command.Some? then [CommandSent(id, b.command.value)] else []) +
    (if b.pos.Done? then UnlocksFor(id, targets) else [])
  }

  function HooksBy<D>(id: nat, b: Burst<D>): seq<Hook<D>> {
    if !b.pos.Done? then []
    else if b.pos.compensating then [RolledBack(id, b.data)]
    else [CompletedSuccessfully(id, b.data)]
  }

  function RequestId<D>(next: nat, b: Burst<D>): Option<nat> {
    if b.command.Some? then Some(next) else None
  }

  /** What one message does to one instance, and what that instance sends out. */
  datatype Reaction<+D> = Reaction(
    instance: Instance<D>,
    sent: seq<Sent>,
    hooks: seq<Hook<D>>,
    rejection: Option<Rejection>)

  /** `next` is the id that the next message sent will have. */
  function Settle<D>(id: nat, next: nat, x: Instance<D>, b: Burst<D>): Reaction<D> {
    Reaction(
      x.(pos := b.pos, data := b.data, lastRequestId := RequestId(next, b), visits := x.visits + b.visits),
      SentBy(id, b, x.destinations),
      HooksBy(id, b),
      None)
  }

  function Lock<D>(x: Instance<D>, m: ReplyMessage): Instance<D> {
    x.(destinations := x.destinations + if m.locked.Some? then [m.locked.value] else [])
  }

  function React<D>(steps: seq<Step<D>>, next: nat, unlocked: Instance<D>, m: ReplyMessage): Reaction<D>
    requires CanWait(steps, unlocked.pos)
  {
    var x := Lock(unlocked, m);
    var refused := x.(received := x.received + [Received(m, false)]);
    match x.pos
    case Done(_) => Reaction(x, [], [], Some(MissingStep))
    case Created => Reaction(refused, [], [], Some(UnreadableState))
    case At(i, compensating) =>
      match OnReply(steps, i, compensating, x.data, m.reply)
      case None =>
        Reaction(refused.(data := AfterReply(steps[i], compensating, x.data, m.reply)), [], [],
                 Some(FailureWhenCompensating))
      case Some(b) => Settle(m.sagaId, next, x.(received := x.received + [Received(m, true)]), b)
  }

  /** A saga that was just saved. */
  function Unbegun<D>(d: D): Instance<D> {
    Instance(Created, d, None, [], [], [])
  }

  /** `claim` is the lock manager's answer, when the caller names a target. */
  function Begin<D>(steps: seq<Step<D>>, next: nat, id: nat, d: D, claim: Option<bool>): Reaction<D> {
    var x := Unbegun(d);
    if claim == Some(false) then Reaction(x, [], [], Some(CannotClaimResourceLock))
    else match FirstThrow(steps, 0, d)
      case Some(LocalResult(data, exception)) =>
        Reaction(x.(data := data), [], [], Some(LocalException(if exception.Some? then exception.value else "")))
      case None => Settle(id, next, x, Forward(steps, 0, d))
  }

  function Apply<D>(s: System<D>, id: nat, r: Reaction<D>): System<D> {
    System(s.instances[id := r.instance], s.sent + r.sent, s.hooks + r.hooks)
  }

  ghost predicate AllCanWait<D>(steps: seq<Step<D>>, s: System<D>) {
    forall id :: id in s.instances ==> CanWait(steps, s.instances[id].pos)
  }

  /** A new saga is saved under a fresh id and announced as starting. */
  function Save<D>(s: System<D>, id: nat, d: D): System<D> {
    Apply(s, id, Reaction(Unbegun(d), [], [Starting(id)], None))
  }

  function Create<D>(steps: seq<Step<D>>, s: System<D>, id: nat, d: D, claim: Option<bool>): System<D> {
    Apply(Save(s, id, d), id, Begin(steps, |s.sent|, id, d, claim))
  }

  function Handle<D>(steps: seq<Step<D>>, s: System<D>, m: ReplyMessage): System<D>
    requires AllCanWait(steps, s)
  {
    if m.sagaId !in s.instances then s
    else Apply(s, m.sagaId, React(steps, |s.sent|, s.instances[m.sagaId], m))
  }

  function Rejected<D>(steps: seq<Step<D>>, s: System<D>, m: ReplyMessage): Option<Rejection>
    requires AllCanWait(steps, s)
  {
    if m.sagaId !in s.instances then Some(UnknownInstance)
    else React(steps, |s.sent|, s.instances[m.sagaId], m).rejection
  }

  // ---------- claims ----------

  /**
   A creation is rejected for its claim if and only if the claim was refused, and then it
   leaves nothing but an unbegun instance that was announced. A claim that was granted makes
   no difference to having none.
   */
  lemma ClaimsDecide<D>(steps: seq<Step<D>>, s: System<D>, id: nat, d: D, claim: Option<bool>)
    ensures Begin(steps, |s.sent|, id, d, claim).rejection == Some(CannotClaimResourceLock) <==> claim == Some(false)
    ensures claim == Some(false) ==>
      Create(steps, s, id, d, claim) ==
      System(s.instances[id := Instance(Created, d, None, [], [], [])], s.sent, s.hooks + [Starting(id)])
    ensures claim != Some(false) ==> Create(steps, s, id, d, claim) == Create(steps, s, id, d, None)
    ensures s.hooks + [Starting(id)] <= Create(steps, s, id, d, claim).hooks
  {
    assert s.sent + [] == s.sent && s.hooks + [Starting(id)] + [] == s.hooks + [Starting(id)];
    hide Forward, FirstThrow;
  }

  // ---------- bursts end where a saga can wait ----------

  predicate Ends<D>(steps: seq<Step<D>>, b: Burst<D>) {
    CanWait(steps, b.pos) && !b.pos.Created? && b.command.Some? == b.pos.At?
  }

  lemma {:induction false} BackwardEnds<D>(steps: seq<Step<D>>, i: nat, d: D)
    requires i <= |steps|
    ensures Ends(steps, Backward(steps, i, d)) && Backward(steps, i, d).pos.compensating
    decreases i
  {
    if i > 0 {
      var step := steps[i - 1];
      if !(step.ParticipantStep? && Holds(step.compensation, d)) {
        BackwardEnds(steps, i - 1, if step.LocalStep? && step.undo.Some? then step.undo.value(d) else d);
      }
    }
  }

  lemma {:induction false} ForwardEnds<D>(steps: seq<Step<D>>, i: nat, d: D)
    requires i <= |steps|
    ensures Ends(steps, Forward(steps, i, d))
    decreases |steps| - i
  {
    if i < |steps| {
      match steps[i]
      case LocalStep(handler, _) =>
        var r := handler(d);
        if r.exception.None? { ForwardEnds(steps, i + 1, r.data); } else { BackwardEnds(steps, i, r.data); }
      case ParticipantStep(_, _, action, _) =>
        if !Holds(action, d) { ForwardEnds(steps, i + 1, d); }
    }
  }

  lemma ReactEnds<D>(steps: seq<Step<D>>, next: nat, x: Instance<D>, m: ReplyMessage)
    requires CanWait(steps, x.pos)
    ensures CanWait(steps, React(steps, next, x, m).instance.pos)
  {
    if x.pos.At? {
      var data := AfterReply(steps[x.pos.index], x.pos.compensating, x.data, m.reply);
      BackwardEnds(steps, x.pos.index, data);
      ForwardEnds(steps, x.pos.index + 1, data);
    }
  }

  lemma BeginEnds<D>(steps: seq<Step<D>>, next: nat, id: nat, d: D, claim: Option<bool>)
    ensures CanWait(steps, Begin(steps, next, id, d, claim).instance.pos)
  {
    ForwardEnds(steps, 0, d);
  }
}
