/** step-to-execute.ts, step-outcome.ts, saga-actions.ts and nest-saga-definition.ts. */
module SagaDefinitions {
  import opened Options
  import opened ExecutionStates
  import opened SagaSteps

  datatype SagaError =
    | UnreadableState
    | MissingStep
    | FailureWhenCompensating

  /** The saga's data object, which handlers change in place; it belongs to one instance. */
  class SagaData<D> {
    var value: D
    ghost const owner: nat

    constructor (value: D, ghost owner: nat)
      ensures this.value == value && this.owner == owner
    {
      this.value := value;
      this.owner := owner;
    }
  }

  datatype SagaActions<D> = SagaActions(
    commands: seq<Command>,
    endState: bool,
    compensating: bool,
    local: bool,
    updatedSagaData: Option<SagaData<D>>,
    updatedState: Option<string>,
    localException: Option<string>)

  class SagaActionsBuilder<D> {
    var actions: SagaActions<D>

    constructor ()
      ensures actions == SagaActions([], false, false, false, None, None, None)
    {
      actions := SagaActions([], false, false, false, None, None, None);
    }

    method WithCommands(commands: seq<Command>)
      modifies this
      ensures actions == old(actions).(commands := old(actions).commands + commands)
    {
      actions := actions.(commands := actions.commands + commands);
    }

    method WithIsLocal(localException: Option<string>)
      modifies this
      ensures actions == old(actions).(local := true, localException := localException)
    {
      actions := actions.(local := true, localException := localException);
    }

    method WithUpdatedState(state: string)
      modifies this
      ensures actions == old(actions).(updatedState := Some(state))
    {
      actions := actions.(updatedState := Some(state));
    }

    method WithUpdatedSagaData(data: SagaData<D>)
      modifies this
      ensures actions == old(actions).(updatedSagaData := Some(data))
    {
      actions := actions.(updatedSagaData := Some(data));
    }

    method WithIsEndState(endState: bool)
      modifies this
      ensures actions == old(actions).(endState := endState)
    {
      actions := actions.(endState := endState);
    }

    method WithIsCompensating(compensating: bool)
      modifies this
      ensures actions == old(actions).(compensating := compensating)
    {
      actions := actions.(compensating := compensating);
    }
  }

  datatype StepOutcome =
    | LocalStepOutcome(exception: Option<string>)
    | RemoteStepOutcome(commandsToSend: seq<Command>)
  {
    method Visit<D>(builder: SagaActionsBuilder<D>)
      modifies builder
      ensures builder.actions ==
        match this
        case LocalStepOutcome(e) => old(builder.actions).(local := true, localException := e)
        case RemoteStepOutcome(cs) => old(builder.actions).(commands := old(builder.actions).commands + cs)
    {
      match this
      case LocalStepOutcome(e) => builder.WithIsLocal(e);
      case RemoteStepOutcome(cs) => builder.WithCommands(cs);
    }
  }

  /**
   Runs a local step's handler, or its compensation, or builds a participant's command.
   None where the participant step lacks the invocation, and the code throws.
   */
  method CreateStepOutcome<D>(step: Step<D>, data: SagaData<D>, compensating: bool)
    returns (outcome: Option<StepOutcome>)
    modifies data
    ensures match step
      case LocalStep(handler, undo) =>
        && outcome.Some? && outcome.value.LocalStepOutcome?
        && if compensating then
             && data.value == (if undo.Some? then undo.value(old(data.value)) else old(data.value))
             && outcome.value.exception.None?
           else handler(old(data.value)) == LocalResult(data.value, outcome.value.exception)
      case ParticipantStep(_, _, _, _) =>
        if InvocationOf(step, compensating).None? then outcome.None? && data.value == old(data.value)
        else exists c ::
          && InvocationOf(step, compensating).value.createCommand(old(data.value)) == (data.value, c)
          && outcome == Some(RemoteStepOutcome([c]))
  {
    match step
    case LocalStep(handler, undo) =>
      if compensating {
        if undo.Some? {
          data.value := undo.value(data.value);
        }
        outcome := Some(LocalStepOutcome(None));
      } else {
        var r := handler(data.value);
        data.value := r.data;
        outcome := Some(LocalStepOutcome(r.exception));
      }
    case ParticipantStep(_, _, _, _) =>
      var invocation := InvocationOf(step, compensating);
      if invocation.None? {
        outcome := None;
      } else {
        var (d, command) := invocation.value.createCommand(data.value);
        data.value := d;
        outcome := Some(RemoteStepOutcome([command]));
      }
  }

  /** The query made of a step during compensation: a local step's compensation runs, and returns nothing. */
  method HasCompensation<D>(step: Step<D>, data: SagaData<D>) returns (found: bool)
    modifies data
    ensures found <==>
      && step.ParticipantStep? && step.compensation.Some?
      && var test := step.compensation.value.isInvocable; test.None? || test.value(old(data.value))
    ensures data.value ==
      if step.LocalStep? && step.undo.Some? then step.undo.value(old(data.value)) else old(data.value)
  {
    match step
    case LocalStep(_, undo) =>
      if undo.Some? {
        data.value := undo.value(data.value);
      }
      found := false;
    case ParticipantStep(_, _, _, compensation) =>
      found := compensation.Some?;
      if found && compensation.value.isInvocable.Some? {
        found := compensation.value.isInvocable.value(data.value);
      }
  }

  /** hasAction: a local step always acts, a participant step when its invocation is there and invocable. */
  method QueryAction<D>(step: Step<D>, data: SagaData<D>) returns (found: bool)
    ensures step.LocalStep? ==> found
    ensures step.ParticipantStep? ==> (found <==>
      && step.action.Some?
      && var test := step.action.value.isInvocable; test.None? || test.value(data.value))
  {
    match step
    case LocalStep(_, _) =>
      found := true;
    case ParticipantStep(_, _, action, _) =>
      found := action.Some?;
      if found && action.value.isInvocable.Some? {
        found := action.value.isInvocable.value(data.value);
      }
  }

  /** getReply, and the handler if there is one: a participant step's for this type of reply, in this direction. */
  method InvokeReplyHandler<D>(step: Step<D>, compensating: bool, data: SagaData<D>, message: Reply)
    modifies data
    ensures match step
      case LocalStep(_, _) => data.value == old(data.value)
      case ParticipantStep(actionReplyHandlers, compensationReplyHandlers, _, _) =>
        var handlers := if compensating then compensationReplyHandlers else actionReplyHandlers;
        data.value ==
          if message.replyType in handlers then handlers[message.replyType](old(data.value), message.payload)
          else old(data.value)
  {
    match step
    case LocalStep(_, _) =>
    case ParticipantStep(actionReplyHandlers, compensationReplyHandlers, _, _) =>
      var handlers := if compensating then compensationReplyHandlers else actionReplyHandlers;
      if message.replyType in handlers {
        data.value := handlers[message.replyType](data.value, message.payload);
      }
  }

  datatype StepToExecute<!D> = StepToExecute(skipped: nat, compensating: bool, step: Option<Step<D>>) {
    function Size(): nat {
      (if step.Some? then 1 else 0) + skipped
    }

    method ExecuteStep(data: SagaData<D>, current: ExecutionState, ghost steps: seq<Step<D>>, ghost i: nat)
      returns (actions: SagaActions<D>)
      requires step.Some? && compensating == current.compensating
      requires i < |steps| && steps[i] == step.value && current.NextState(Size()).currentlyExecuting == i
      requires if step.value.LocalStep? then !compensating else InvocationOf(step.value, compensating).Some?
      modifies data
      ensures Acts(steps, actions, data, i) && !actions.endState && actions.compensating == compensating
      ensures step.value.LocalStep? ==>
        step.value.handler(old(data.value)) == LocalResult(data.value, actions.localException)
      ensures Rest(steps, actions, i, data.value) ==
        if step.value.LocalStep? then AfterLocal(steps, i, step.value.handler(old(data.value)))
        else Invoke(steps, i, compensating, old(data.value))
    {
      var newState := current.NextState(Size());
      var builder := new SagaActionsBuilder<D>();
      var outcome := CreateStepOutcome(step.value, data, compensating);
      outcome.value.Visit(builder);
      builder.WithUpdatedSagaData(data);
      builder.WithUpdatedState(Encode(newState));
      builder.WithIsEndState(newState.endState);
      builder.WithIsCompensating(current.compensating);
      actions := builder.actions;
    }
  }

  // ---------- what a set of actions leaves to do ----------

  /** The actions produced by executing step `i`, or by reaching the end. */
  ghost predicate Acts<D>(steps: seq<Step<D>>, a: SagaActions<D>, data: SagaData<D>, i: nat) {
    if a.endState then
      a == SagaActions([], true, a.compensating, false, None, Some(Encode(ExecutionState.MakeEndState())), None)
    else
      && i < |steps|
      && a.updatedSagaData == Some(data)
      && a.updatedState == Some(Encode(ExecutionState(i, a.compensating, false)))
      && a.local == steps[i].LocalStep?
      && if a.local then !a.compensating && a.commands == []
         else |a.commands| == 1 && a.localException.None? && InvocationOf(steps[i], a.compensating).Some?
  }

  /** What is left of the burst once these actions were produced at step `i`. */
  ghost function Rest<D>(steps: seq<Step<D>>, a: SagaActions<D>, i: nat, d: D): Burst<D>
    requires a.local && !a.endState ==> i < |steps|
    requires !a.local && !a.endState ==> |a.commands| > 0
  {
    if a.endState then Burst(Done(a.compensating), d, None, [])
    else if a.local then AfterLocal(steps, i, LocalResult(d, a.localException))
    else Burst(At(i, a.compensating), d, Some(a.commands[0]), [])
  }

  ghost function Thrown<D>(a: SagaActions<D>, d: D): Option<LocalResult<D>> {
    if a.localException.Some? then Some(LocalResult(d, a.localException)) else None
  }

  /** The burst that starts just after position `i`, in the direction of travel. */
  ghost function From<D>(steps: seq<Step<D>>, state: ExecutionState, d: D): Burst<D>
    requires Within(steps, state)
  {
    if state.compensating then Backward(steps, state.currentlyExecuting, d)
    else Forward(steps, state.currentlyExecuting + 1, d)
  }

  ghost predicate Within<D>(steps: seq<Step<D>>, state: ExecutionState) {
    (if state.compensating then 0 else -1) <= state.currentlyExecuting < |steps|
  }

  class NestSagaDefinition<D> {
    const sagaSteps: seq<Step<D>>

    constructor (sagaSteps: seq<Step<D>>)
      ensures this.sagaSteps == sagaSteps
    {
      this.sagaSteps := sagaSteps;
    }

    /** Searches in the direction of travel; `NextState` of the skipped count lands on the step found. */
    method NextStepToExecute(state: ExecutionState, data: SagaData<D>)
      returns (next: StepToExecute<D>, ghost found: int, ghost visits: seq<Visit<D>>)
      requires Within(sagaSteps, state)
      modifies data
      ensures next.compensating == state.compensating
      ensures next.step.Some? ==>
        && found == state.NextState(next.Size()).currentlyExecuting
        && 0 <= found < |sagaSteps| && next.step.value == sagaSteps[found]
        && (if sagaSteps[found].LocalStep? then !state.compensating
            else
              && var invocation := InvocationOf(sagaSteps[found], state.compensating);
              && invocation.Some?
              && (invocation.value.isInvocable.None? || invocation.value.isInvocable.value(data.value)))
        && From(sagaSteps, state, old(data.value)) == After(visits,
             if sagaSteps[found].LocalStep? then AfterLocal(sagaSteps, found, sagaSteps[found].handler(data.value))
             else Invoke(sagaSteps, found, state.compensating, data.value))
      ensures !state.compensating ==>
        FirstThrow(sagaSteps, state.currentlyExecuting + 1, old(data.value)) ==
        if next.step.Some? then FirstThrow(sagaSteps, found, data.value) else None
      ensures next.step.None? ==>
        From(sagaSteps, state, old(data.value)) == After(visits, Burst(Done(state.compensating), data.value, None, []))
    {
      var direction := if state.compensating then -1 else 1;
      var skipped := 0;
      var i := state.currentlyExecuting + direction;
      found := i;
      visits := [];
      AfterNothing(From(sagaSteps, state, data.value));
      while i >= 0 && i < |sagaSteps|
        invariant -1 <= i <= |sagaSteps| && skipped >= 0
        invariant i == state.currentlyExecuting + direction * (skipped + 1)
        invariant From(sagaSteps, state, old(data.value)) == After(visits,
          if state.compensating then Backward(sagaSteps, i + 1, data.value) else Forward(sagaSteps, i, data.value))
        invariant !state.compensating ==>
          FirstThrow(sagaSteps, state.currentlyExecuting + 1, old(data.value)) == FirstThrow(sagaSteps, i, data.value)
        decreases if state.compensating then i + 1 else |sagaSteps| - i
      {
        var step := sagaSteps[i];
        ghost var seen := Visit(i, state.compensating, data.value,
          if state.compensating then Compensates(step, data.value) else HasAction(step, data.value));
        ghost var rest :=
          if state.compensating then Backward(sagaSteps, i + 1, data.value) else Forward(sagaSteps, i, data.value);
        var applies: bool;
        if state.compensating {
          applies := HasCompensation(step, data);
        } else {
          applies := QueryAction(step, data);
        }
        ghost var left :=
          if applies then
            (if step.LocalStep? then AfterLocal(sagaSteps, i, step.handler(data.value))
             else Invoke(sagaSteps, i, state.compensating, data.value))
          else if state.compensating then Backward(sagaSteps, i, data.value)
          else Forward(sagaSteps, i + 1, data.value);
        assert rest == After([seen], left);
        AfterAfter(visits, [seen], left);
        visits := visits + [seen];
        if applies {
          return StepToExecute(skipped, state.compensating, Some(step)), i, visits;
        } else {
          skipped := skipped + 1;
        }
        i := i + direction;
      }
      next := StepToExecute(skipped, state.compensating, None);
    }

    method MakeEndStateSagaActions(state: ExecutionState) returns (actions: SagaActions<D>)
      ensures actions ==
        SagaActions([], true, state.compensating, false, None, Some(Encode(ExecutionState.MakeEndState())), None)
    {
      var builder := new SagaActionsBuilder<D>();
      builder.WithUpdatedState(Encode(ExecutionState.MakeEndState()));
      builder.WithIsEndState(true);
      builder.WithIsCompensating(state.compensating);
      actions := builder.actions;
    }

    method ExecuteNextStep(data: SagaData<D>, state: ExecutionState)
      returns (actions: SagaActions<D>, ghost i: nat, ghost visits: seq<Visit<D>>)
      requires Within(sagaSteps, state)
      modifies data
      ensures Acts(sagaSteps, actions, data, i)
      ensures actions.compensating == state.compensating
      ensures !state.compensating && !actions.endState ==> i > state.currentlyExecuting
      ensures !state.compensating ==>
        FirstThrow(sagaSteps, state.currentlyExecuting + 1, old(data.value)) == Thrown(actions, data.value)
      ensures From(sagaSteps, state, old(data.value)) == After(visits, Rest(sagaSteps, actions, i, data.value))
    {
      var next, j, vs := NextStepToExecute(state, data);
      visits := vs;
      if next.step.None? {
        i := 0;
        actions := MakeEndStateSagaActions(state);
      } else {
        i := j;
        actions := next.ExecuteStep(data, state, sagaSteps, i);
      }
    }

    method Start(data: SagaData<D>)
      returns (actions: SagaActions<D>, ghost i: nat, ghost visits: seq<Visit<D>>)
      modifies data
      ensures Acts(sagaSteps, actions, data, i)
      ensures FirstThrow(sagaSteps, 0, old(data.value)) == Thrown(actions, data.value)
      ensures Forward(sagaSteps, 0, old(data.value)) == After(visits, Rest(sagaSteps, actions, i, data.value))
    {
      actions, i, visits := ExecuteNextStep(data, ExecutionState(-1, false, false));
    }

    method HandleReply(currentState: string, data: SagaData<D>, message: Reply)
      returns (r: Result<SagaActions<D>, SagaError>, ghost i: nat, ghost visits: seq<Visit<D>>)
      modifies data
      ensures match Decode(currentState)
        case None => r == Err(UnreadableState) && data.value == old(data.value)
        case Some(state) =>
          if !(0 <= state.currentlyExecuting < |sagaSteps|) then r == Err(MissingStep) && data.value == old(data.value)
          else
            var step := sagaSteps[state.currentlyExecuting];
            var d := AfterReply(step, state.compensating, old(data.value), message);
            var ok := IsSuccessfulReply(step, state.compensating, message);
            if !ok && state.compensating then r == Err(FailureWhenCompensating) && data.value == d
            else
              && r.Ok? && Acts(sagaSteps, r.value, data, i)
              && r.value.compensating == (state.compensating || !ok)
              && (!r.value.compensating && !r.value.endState ==> i > state.currentlyExecuting)
              && From(sagaSteps, if ok then state else state.StartCompensating(), d)
                 == After(visits, Rest(sagaSteps, r.value, i, data.value))
    {
      i, visits := 0, [];
      var decoded := Decode(currentState);
      if decoded.None? {
        return Err(UnreadableState), i, visits;
      }
      var state := decoded.value;
      if !(0 <= state.currentlyExecuting < |sagaSteps|) {
        return Err(MissingStep), i, visits;
      }
      var currentStep := sagaSteps[state.currentlyExecuting];
      InvokeReplyHandler(currentStep, state.compensating, data, message);
      var actions;
      if IsSuccessfulReply(currentStep, state.compensating, message) {
        actions, i, visits := ExecuteNextStep(data, state);
      } else if state.compensating {
        return Err(FailureWhenCompensating), i, visits;
      } else {
        actions, i, visits := ExecuteNextStep(data, state.StartCompensating());
      }
      r := Ok(actions);
    }
  }
}
