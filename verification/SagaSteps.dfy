/**
 Saga steps (local-step.ts, participant-invocation.ts, participant-invocation-step.ts)
 and the meaning of a step list: what one burst of processing does between two
 messages, by recursion along the list. `Data` is the saga's own data, `D`.
 */
module SagaSteps {
  import opened Options

  type Payload = seq<int>

  datatype Command = Command(channel: string, name: string, args: Payload, resource: Option<string>)
  datatype ReplyOutcome = Success | Failure
  datatype Reply = Reply(outcome: ReplyOutcome, replyType: string, payload: Payload)

  /** A local handler leaves data behind, and the exception if it threw. */
  datatype LocalResult<+D> = LocalResult(data: D, exception: Option<string>)

  /** A command builder receives the saga's data and may change it. */
  datatype Invocation<!D> = Invocation(isInvocable: Option<D -> bool>, createCommand: D -> (D, Command))

  type ReplyHandlers<!D> = map<string, (D, Payload) -> D>

  datatype Step<!D> =
    | LocalStep(handler: D -> LocalResult<D>, undo: Option<D -> D>)
    | ParticipantStep(
        actionReplyHandlers: ReplyHandlers<D>,
        compensationReplyHandlers: ReplyHandlers<D>,
        action: Option<Invocation<D>>,
        compensation: Option<Invocation<D>>)

  predicate Holds<D>(invocation: Option<Invocation<D>>, d: D) {
    invocation.Some? && (invocation.value.isInvocable.Some? ==> invocation.value.isInvocable.value(d))
  }

  predicate HasAction<D>(step: Step<D>, d: D) {
    step.LocalStep? || Holds(step.action, d)
  }

  /** Whether compensating the step has an effect on data `d`. */
  predicate Compensates<D>(step: Step<D>, d: D) {
    if step.LocalStep? then step.undo.Some? else Holds(step.compensation, d)
  }

  function InvocationOf<D>(step: Step<D>, compensating: bool): Option<Invocation<D>>
    requires step.ParticipantStep?
  {
    if compensating then step.compensation else step.action
  }

  /** The data after the step's handler for this type of reply, if it has one. */
  function AfterReply<D>(step: Step<D>, compensating: bool, d: D, reply: Reply): D {
    if step.LocalStep? then d
    else
      var handlers := if compensating then step.compensationReplyHandlers else step.actionReplyHandlers;
      if reply.replyType in handlers then handlers[reply.replyType](d, reply.payload) else d
  }

  predicate IsSuccessfulReply<D>(step: Step<D>, compensating: bool, reply: Reply) {
    (step.ParticipantStep? ==> InvocationOf(step, compensating).Some?) && reply.outcome == Success
  }

  // ---------- the meaning of a step list ----------

  /** One test of a step, with the data it was tested on; `effect` says whether the step took effect. */
  datatype Visit<+D> = Visit(index: nat, compensating: bool, data: D, effect: bool)

  /** Where a saga stands between messages. */
  datatype Position =
    | Created                              // saved, but its first step threw
    | At(index: nat, compensating: bool)   // a participant owes a reply
    | Done(compensating: bool)

  predicate CompensatingAt(pos: Position) {
    !pos.Created? && pos.compensating
  }

  /** A burst ends at a position, with at most one command to send. */
  datatype Burst<+D> = Burst(pos: Position, data: D, command: Option<Command>, visits: seq<Visit<D>>)

  function After<D>(visits: seq<Visit<D>>, b: Burst<D>): Burst<D> {
    b.(visits := visits + b.visits)
  }

  lemma AfterAfter<D>(v: seq<Visit<D>>, w: seq<Visit<D>>, b: Burst<D>)
    ensures After(v, After(w, b)) == After(v + w, b)
  {
    assert v + (w + b.visits) == v + w + b.visits;
  }

  lemma AfterNothing<D>(b: Burst<D>)
    ensures After([], b) == b
  {
    assert [] + b.visits == b.visits;
  }

  /** Asks the participant of step `i`. */
  function Invoke<D>(steps: seq<Step<D>>, i: nat, compensating: bool, d: D): Burst<D>
    requires i < |steps| && steps[i].ParticipantStep? && InvocationOf(steps[i], compensating).Some?
  {
    var (data, command) := InvocationOf(steps[i], compensating).value.createCommand(d);
    Burst(At(i, compensating), data, Some(command), [])
  }

  /** Undoes the steps below `i`, highest first. */
  function Backward<D>(steps: seq<Step<D>>, i: nat, d: D): Burst<D>
    requires i <= |steps|
    decreases i
  {
    if i == 0 then Burst(Done(true), d, None, [])
    else
      var step := steps[i - 1];
      After([Visit(i - 1, true, d, Compensates(step, d))],
        if step.ParticipantStep? && Holds(step.compensation, d) then Invoke(steps, i - 1, true, d)
        else Backward(steps, i - 1, if step.LocalStep? && step.undo.Some? then step.undo.value(d) else d))
  }

  /** Does the steps from `i` up; a local step that throws turns the saga around below itself. */
  function Forward<D>(steps: seq<Step<D>>, i: nat, d: D): Burst<D>
    requires i <= |steps|
    decreases |steps| - i
  {
    if i == |steps| then Burst(Done(false), d, None, [])
    else
      var step := steps[i];
      After([Visit(i, false, d, HasAction(step, d))],
        if step.LocalStep? then AfterLocal(steps, i, step.handler(d))
        else if Holds(step.action, d) then Invoke(steps, i, false, d)
        else Forward(steps, i + 1, d))
  }

  function AfterLocal<D>(steps: seq<Step<D>>, i: nat, r: LocalResult<D>): Burst<D>
    requires i < |steps|
    decreases |steps| - i, 0
  {
    if r.exception.None? then Forward(steps, i + 1, r.data) else Backward(steps, i, r.data)
  }

  /** A saga waiting at step `i` gets its reply; None when the reply is a failure to compensate. */
  function OnReply<D>(steps: seq<Step<D>>, i: nat, compensating: bool, d: D, reply: Reply): Option<Burst<D>>
    requires i < |steps|
  {
    var data := AfterReply(steps[i], compensating, d, reply);
    if reply.outcome == Success then
      Some(if compensating then Backward(steps, i, data) else Forward(steps, i + 1, data))
    else if compensating then None
    else Some(Backward(steps, i, data))
  }

  /** The local step reached first from step `i`, if it throws; nothing is undone after it. */
  function FirstThrow<D>(steps: seq<Step<D>>, i: nat, d: D): Option<LocalResult<D>>
    requires i <= |steps|
    decreases |steps| - i
  {
    if i == |steps| then None
    else if steps[i].LocalStep? then
      var r := steps[i].handler(d);
      if r.exception.Some? then Some(r) else None
    else if Holds(steps[i].action, d) then None
    else FirstThrow(steps, i + 1, d)
  }

  /** A position that a saga can wait at. */
  predicate CanWait<D>(steps: seq<Step<D>>, pos: Position) {
    pos.At? ==>
      && pos.index < |steps|
      && steps[pos.index].ParticipantStep?
      && InvocationOf(steps[pos.index], pos.compensating).Some?
  }
}
