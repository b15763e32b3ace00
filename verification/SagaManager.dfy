/** saga-instance.ts, saga-instance-repository.ts, saga-command-producer.ts and saga-manager.ts. */
module SagaManagers {
  import opened Options
  import opened ExecutionStates
  import opened SagaSteps
  import opened SagaDefinitions
  import opened SagaSystem

  const UNSTARTED := "????"

  function StateNameOf(pos: Position): string {
    match pos
    case Created => UNSTARTED
    case At(i, compensating) => Encode(ExecutionState(i, compensating, false))
    case Done(_) => Encode(ExecutionState.MakeEndState())
  }

  /** What is stored for an instance. */
  datatype Row<+D> = Row(
    stateName: string,
    endState: bool,
    compensating: bool,
    lastRequestId: Option<nat>,
    data: D,
    destinations: seq<Destination>)

  class SagaInstance<D> {
    var sagaId: nat
    var stateName: string
    var lastRequestId: Option<nat>
    var sagaData: SagaData<D>
    var destinationsAndResources: seq<Destination>
    var endState: bool
    var compensating: bool

    constructor (sagaData: SagaData<D>)
      ensures StandsAt(Created, None) && this.sagaData == sagaData && destinationsAndResources == []
    {
      sagaId, stateName, lastRequestId := 0, UNSTARTED, None;
      this.sagaData := sagaData;
      destinationsAndResources, endState, compensating := [], false, false;
    }

    ghost function AsRow(): Row<D>
      reads this, sagaData
    {
      Row(stateName, endState, compensating, lastRequestId, sagaData.value, destinationsAndResources)
    }

    ghost predicate StandsAt(pos: Position, last: Option<nat>)
      reads this
    {
      Stands(stateName, endState, compensating, lastRequestId, pos, last)
    }
  }

  ghost predicate Stands(
    stateName: string, endState: bool, compensating: bool, lastRequestId: Option<nat>, pos: Position, last: Option<nat>)
  {
    && stateName == StateNameOf(pos) && endState == pos.Done?
    && compensating == CompensatingAt(pos) && lastRequestId == last
  }

  ghost predicate RowShows<D>(row: Row<D>, x: Instance<D>) {
    && Stands(row.stateName, row.endState, row.compensating, row.lastRequestId, x.pos, x.lastRequestId)
    && row.data == x.data && row.destinations == x.destinations
  }

  ghost predicate RowsShow<D>(rows: map<nat, Row<D>>, instances: map<nat, Instance<D>>) {
    rows.Keys == instances.Keys && forall id :: id in rows ==> RowShows(rows[id], instances[id])
  }

  lemma OneRowMore<D>(rows: map<nat, Row<D>>, instances: map<nat, Instance<D>>, id: nat, row: Row<D>, x: Instance<D>)
    requires RowsShow(rows, instances) && RowShows(row, x)
    ensures RowsShow(rows[id := row], instances[id := x])
  {
    hide RowShows;
  }

  lemma NewRowShows<D>(rows: map<nat, Row<D>>, instances: map<nat, Instance<D>>, id: nat, row: Row<D>)
    requires RowsShow(rows, instances) && id !in rows
    requires Stands(row.stateName, row.endState, row.compensating, row.lastRequestId, Created, None)
    requires row.destinations == []
    ensures id !in instances && RowsShow(rows[id := row], instances[id := Unbegun(row.data)])
  {
    hide Stands;
    OneRowMore(rows, instances, id, row, Unbegun(row.data));
  }

  /** The in-memory store, with a fresh id given at the first save. */
  class SagaInstanceRepository<D> {
    var store: map<nat, SagaInstance<D>>
    var nextId: nat
    ghost var Repr: set<object>  // the instances and their data

    /** Each instance has an object and data of its own. */
    ghost predicate Apart()
      reads this, Repr
    {
      && this !in Repr
      && forall id :: id in store ==>
           && store[id] in Repr && store[id].sagaData in Repr
           && store[id].sagaId == id && store[id].sagaData.owner == id && id < nextId
    }

    ghost function Rows(): map<nat, Row<D>>
      requires Apart()
      reads this, Repr
    {
      map id | id in store :: store[id].AsRow()
    }

    /** The store holds exactly these instances. */
    ghost predicate Shows(instances: map<nat, Instance<D>>)
      reads this, Repr
    {
      Apart() && RowsShow(Rows(), instances)
    }

    twostate predicate LeftAlone(i: SagaInstance<D>)
      reads i, i.sagaData
    {
      i.sagaId == old(i.sagaId) && i.sagaData == old(i.sagaData) && i.AsRow() == old(i.AsRow())
    }

    /** One instance moved, in place; all others were left alone. */
    twostate lemma OneMoved(new id: nat)
      requires old(Apart()) && id in store
      requires store == old(store) && nextId == old(nextId) && Repr == old(Repr)
      requires forall other :: other in store && other != id ==> LeftAlone(store[other])
      requires store[id].sagaId == id && store[id].sagaData == old(store[id].sagaData)
      ensures Apart() && Rows() == old(Rows())[id := store[id].AsRow()]
    {
    }

    /** An instance was added, with data of its own; all others were left alone. */
    twostate lemma OneAdded(new instance: SagaInstance<D>)
      requires old(Apart()) && this !in Repr
      requires instance.sagaId == old(nextId) && instance.sagaData.owner == old(nextId) && nextId == old(nextId) + 1
      requires store == old(store)[instance.sagaId := instance] && Repr == old(Repr) + {instance, instance.sagaData}
      requires forall other :: other in old(store) ==> LeftAlone(old(store[other]))
      ensures Apart() && Rows() == old(Rows())[instance.sagaId := instance.AsRow()]
    {
    }

    lemma StandApart(id: nat)
      requires Apart() && id in store
      ensures store[id] in Repr && store[id].sagaData in Repr
      ensures forall other :: other in store && other != id ==>
        store[other] != store[id] && store[other].sagaData != store[id].sagaData
    {
    }

    constructor ()
      ensures store == map[] && nextId == 0 && Repr == {}
    {
      store, nextId, Repr := map[], 0, {};
    }

    method Save(instance: SagaInstance<D>, ghost instances: map<nat, Instance<D>>)
      requires Shows(instances)
      requires instance.StandsAt(Created, None) && instance.destinationsAndResources == []
      requires {instance, instance.sagaData} !! Repr + {this} && instance.sagaData.owner == nextId
      modifies this, instance`sagaId
      ensures instance.sagaId == old(nextId) && instance.sagaId !in instances
      ensures instance.sagaId in store && store[instance.sagaId] == instance
      ensures Repr == old(Repr) + {instance, instance.sagaData}
      ensures Shows(instances[instance.sagaId := Unbegun(instance.sagaData.value)])
    {
      hide Stands, Encode, Decode, RowsShow, RowShows;
      ghost var rows := Rows();
      instance.sagaId := nextId;
      nextId := nextId + 1;
      store := store[instance.sagaId := instance];
      Repr := Repr + {instance, instance.sagaData};
      OneAdded(instance);
      NewRowShows(rows, instances, instance.sagaId, instance.AsRow());
    }

    method Update(instance: SagaInstance<D>)
      modifies this`store
      ensures store == old(store)[instance.sagaId := instance]
    {
      store := store[instance.sagaId := instance];
    }
  }

  /** The outgoing channel, and the loop that sends a saga's commands over it. */
  class CommandProducer {
    var sent: seq<Sent>

    constructor ()
      ensures sent == []
    {
      sent := [];
    }

    method Send(message: Sent) returns (id: nat)
      modifies this
      ensures id == |old(sent)| && sent == old(sent) + [message]
    {
      id := |sent|;
      sent := sent + [message];
    }

    /** The id of the last command sent, if any. */
    method SendCommands(sagaId: nat, commands: seq<Command>) returns (last: Option<nat>)
      modifies this
      ensures |sent| == |old(sent)| + |commands| && sent[..|old(sent)|] == old(sent)
      ensures forall k :: 0 <= k < |commands| ==> sent[|old(sent)| + k] == CommandSent(sagaId, commands[k])
      ensures last == if commands == [] then None else Some(|sent| - 1)
    {
      last := None;
      for k := 0 to |commands|
        invariant |sent| == |old(sent)| + k && sent[..|old(sent)|] == old(sent)
        invariant forall j :: 0 <= j < k ==> sent[|old(sent)| + j] == CommandSent(sagaId, commands[j])
        invariant last == if k == 0 then None else Some(|sent| - 1)
      {
        var id := Send(CommandSent(sagaId, commands[k]));
        last := Some(id);
      }
    }
  }

  lemma Unstarted()
    ensures Decode(UNSTARTED) == None
  {
  }

  lemma Decodes(pos: Position)
    requires !pos.Created?
    ensures Decode(StateNameOf(pos)) ==
      Some(if pos.At? then ExecutionState(pos.index, pos.compensating, false) else ExecutionState.MakeEndState())
  {
    CodecInverts(if pos.At? then ExecutionState(pos.index, pos.compensating, false) else ExecutionState.MakeEndState());
  }

  class SagaManager<D> {
    const sagaType: string
    const definition: NestSagaDefinition<D>
    const repository: SagaInstanceRepository<D>
    const producer: CommandProducer
    var hooks: seq<Hook<D>>

    ghost function Steps(): seq<Step<D>> {
      definition.sagaSteps
    }

    /** The manager stands for system `s`. */
    ghost predicate Shows(s: System<D>)
      reads this, repository, producer, repository.Repr
    {
      && this !in repository.Repr && producer !in repository.Repr
      && repository.Shows(s.instances)
      && producer.sent == s.sent
      && hooks == s.hooks
      && AllCanWait(Steps(), s)
    }

    constructor (sagaType: string, steps: seq<Step<D>>)
      ensures Shows(System(map[], [], []))
      ensures this.sagaType == sagaType && Steps() == steps && fresh(repository) && fresh(producer)
    {
      this.sagaType := sagaType;
      definition := new NestSagaDefinition(steps);
      repository := new SagaInstanceRepository();
      producer := new CommandProducer();
      hooks := [];
    }

    method UpdateState(instance: SagaInstance<D>, actions: SagaActions<D>)
      modifies instance`stateName, instance`endState, instance`compensating
      ensures actions.updatedState.Some? ==>
        && instance.stateName == actions.updatedState.value
        && instance.endState == actions.endState && instance.compensating == actions.compensating
      ensures actions.updatedState.None? ==> unchanged(instance)
    {
      if actions.updatedState.Some? {
        instance.stateName := actions.updatedState.value;
        instance.endState := actions.endState;
        instance.compensating := actions.compensating;
      }
    }

    method PerformEndStateActions(instance: SagaInstance<D>, compensating: bool, data: SagaData<D>)
      modifies this`hooks, producer
      ensures producer.sent == old(producer.sent) + UnlocksFor(instance.sagaId, instance.destinationsAndResources)
      ensures hooks == old(hooks) +
        [if compensating then RolledBack(instance.sagaId, data.value)
         else CompletedSuccessfully(instance.sagaId, data.value)]
    {
      var targets := instance.destinationsAndResources;
      for k := 0 to |targets|
        invariant hooks == old(hooks)
        invariant producer.sent == old(producer.sent) + UnlocksFor(instance.sagaId, targets)[..k]
      {
        var _ := producer.Send(UnlockSent(instance.sagaId, targets[k]));
        assert UnlocksFor(instance.sagaId, targets)[..k + 1] ==
          UnlocksFor(instance.sagaId, targets)[..k] + [UnlockSent(instance.sagaId, targets[k])];
      }
      if compensating {
        hooks := hooks + [RolledBack(instance.sagaId, data.value)];
      } else {
        hooks := hooks + [CompletedSuccessfully(instance.sagaId, data.value)];
      }
    }

    /** The successful branch of the loop: send, update the instance, end it if this is the end, and store it. */
    method CarryOut(instance: SagaInstance<D>, data: SagaData<D>, actions: SagaActions<D>, ghost i: nat)
      requires Acts(Steps(), actions, data, i) && actions.localException.None?
      modifies this`hooks, producer, repository`store
      modifies instance`stateName, instance`lastRequestId, instance`sagaData, instance`endState, instance`compensating
      ensures repository.store == old(repository.store)[instance.sagaId := instance]
      ensures instance.sagaData == data
      ensures actions.local ==> producer.sent == old(producer.sent) && hooks == old(hooks)
      ensures !actions.local ==> var b := Rest(Steps(), actions, i, data.value);
        && instance.StandsAt(b.pos, RequestId(|old(producer.sent)|, b))
        && producer.sent == old(producer.sent) + SentBy(instance.sagaId, b, instance.destinationsAndResources)
        && hooks == old(hooks) + HooksBy(instance.sagaId, b)
    {
      hide Encode, Decode;
      ghost var before := producer.sent;
      var last := producer.SendCommands(instance.sagaId, actions.commands);
      assert producer.sent == before +
        if actions.commands == [] then [] else [CommandSent(instance.sagaId, actions.commands[0])];
      instance.lastRequestId := last;
      UpdateState(instance, actions);
      instance.sagaData := data;
      if actions.endState {
        PerformEndStateActions(instance, actions.compensating, data);
      }
      repository.Update(instance);
    }

    /** The saga answers itself after a local step, and goes on. */
    method AnswerLocalStep(data: SagaData<D>, actions: SagaActions<D>, outcome: ReplyOutcome, ghost i: nat)
      returns (next: SagaActions<D>, ghost j: nat, ghost visits: seq<Visit<D>>)
      requires Acts(Steps(), actions, data, i) && actions.local && !actions.endState
      requires outcome == if actions.localException.Some? then Failure else Success
      modifies data
      ensures Acts(Steps(), next, data, j) && (next.localException.Some? ==> next.local)
      ensures next.compensating == (outcome == Failure) && (!next.compensating && !next.endState ==> j > i)
      ensures Rest(Steps(), actions, i, old(data.value)) == After(visits, Rest(Steps(), next, j, data.value))
    {
      CodecInverts(ExecutionState(i, false, false));
      var r, k, vs := definition.HandleReply(actions.updatedState.value, data,
        Reply(outcome, if outcome == Success then "Success" else "Failure", []));
      next, j, visits := r.value, k, vs;
    }

    /**
     Carries out the actions and runs on through local steps, until a command
     has been sent or the saga has ended: exactly the rest of the burst.
     */
    method ProcessActions(instance: SagaInstance<D>, data: SagaData<D>, first: SagaActions<D>, ghost index: nat)
      returns (ghost visits: seq<Visit<D>>)
      requires Acts(Steps(), first, data, index) && (first.localException.Some? ==> first.local)
      modifies this`hooks, producer, repository`store, data
      modifies instance`stateName, instance`lastRequestId, instance`sagaData, instance`endState, instance`compensating
      ensures var b := Rest(Steps(), first, index, old(data.value));
        && visits == b.visits
        && data.value == b.data && instance.sagaData == data
        && instance.StandsAt(b.pos, RequestId(|old(producer.sent)|, b))
        && producer.sent == old(producer.sent) + SentBy(instance.sagaId, b, instance.destinationsAndResources)
        && hooks == old(hooks) + HooksBy(instance.sagaId, b)
      ensures repository.store == old(repository.store)[instance.sagaId := instance]
    {
      hide Encode, Decode, Forward, Backward;
      var actions := first;
      ghost var i := index;
      ghost var whole := Rest(Steps(), first, index, data.value);
      visits := [];
      AfterNothing(whole);
      while true
        invariant Acts(Steps(), actions, data, i) && (actions.localException.Some? ==> actions.local)
        invariant whole == After(visits, Rest(Steps(), actions, i, data.value))
        invariant producer.sent == old(producer.sent) && hooks == old(hooks)
        invariant repository.store == old(repository.store) ||
          repository.store == old(repository.store)[instance.sagaId := instance]
        decreases !actions.endState && !actions.compensating,
          if actions.endState then 0 else |Steps()| - i
      {
        var outcome := Success;
        if actions.localException.Some? {
          outcome := Failure;
        } else {
          CarryOut(instance, data, actions, i);
          if !actions.local {
            break;
          }
        }
        ghost var j: nat, more;
        actions, j, more := AnswerLocalStep(data, actions, outcome, i);
        AfterAfter(visits, more, Rest(Steps(), actions, j, data.value));
        i, visits := j, visits + more;
      }
    }

    /** Puts a participant's reply to the definition, read as a reply at the instance's position. */
    method AnswerParticipant(stateName: string, data: SagaData<D>, reply: Reply, ghost pos: Position)
      returns (r: Result<SagaActions<D>, SagaError>, ghost i: nat, ghost visits: seq<Visit<D>>)
      requires stateName == StateNameOf(pos) && CanWait(Steps(), pos)
      modifies data
      ensures pos.Done? ==> r == Err(SagaError.MissingStep) && data.value == old(data.value)
      ensures pos.Created? ==> r == Err(SagaError.UnreadableState) && data.value == old(data.value)
      ensures pos.At? ==>
        match OnReply(Steps(), pos.index, pos.compensating, old(data.value), reply)
        case None =>
          r == Err(SagaError.FailureWhenCompensating) &&
          data.value == AfterReply(Steps()[pos.index], pos.compensating, old(data.value), reply)
        case Some(b) =>
          r.Ok? && Acts(Steps(), r.value, data, i) && b == After(visits, Rest(Steps(), r.value, i, data.value))
    {
      if pos.Created? {
        Unstarted();
      } else {
        Decodes(pos);
      }
      r, i, visits := definition.HandleReply(stateName, data, reply);
    }

    /** One instance reacts to a reply exactly as `SagaSystem.React` says, making just these tests of its steps. */
    method HandleReplyFor(instance: SagaInstance<D>, m: ReplyMessage, ghost x: Instance<D>)
      returns (rejection: Option<Rejection>, ghost visits: seq<Visit<D>>)
      requires instance.StandsAt(x.pos, x.lastRequestId) && CanWait(Steps(), x.pos)
      requires instance.sagaData.value == x.data && instance.destinationsAndResources == x.destinations
      requires instance.sagaId == m.sagaId
      requires m.sagaId in repository.store && repository.store[m.sagaId] == instance
      modifies this`hooks, producer, repository`store, instance, instance.sagaData
      ensures instance.sagaId == m.sagaId && instance.sagaData == old(instance.sagaData)
      ensures repository.store == old(repository.store)
      ensures var r := React(Steps(), |old(producer.sent)|, x, m);
        && rejection == r.rejection && r.instance.visits == x.visits + visits
        && instance.StandsAt(r.instance.pos, r.instance.lastRequestId)
        && instance.sagaData.value == r.instance.data
        && instance.destinationsAndResources == r.instance.destinations
        && producer.sent == old(producer.sent) + r.sent && hooks == old(hooks) + r.hooks
    {
      hide Encode, Decode, Forward, Backward, AfterReply;
      if m.locked.Some? {
        instance.destinationsAndResources := instance.destinationsAndResources + [m.locked.value];
      }
      var data := instance.sagaData;
      ghost var next := |producer.sent|;
      var answer, i, vs := AnswerParticipant(instance.stateName, data, m.reply, x.pos);
      if answer.Err? {
        visits := [];
        ghost var r := React(Steps(), next, x, m);
        assert r.instance.pos == x.pos && r.sent == [] && r.hooks == [] && r.instance.visits == x.visits;
        rejection := Some(
          match answer.error
          case UnreadableState => Rejection.UnreadableState
          case MissingStep => Rejection.MissingStep
          case FailureWhenCompensating => Rejection.FailureWhenCompensating);
      } else {
        ghost var b := Rest(Steps(), answer.value, i, data.value);
        var more := ProcessActions(instance, data, answer.value, i);
        visits := vs + more;
        ghost var r := Settle(m.sagaId, next, Lock(x, m).(received := x.received + [Received(m, true)]), After(vs, b));
        rejection := None;
      }
    }

    /** Handles a reply exactly as `SagaSystem.Handle` says; a reply for another saga type is ignored. */
    method HandleReply(m: ReplyMessage, ghost s: System<D>) returns (rejection: Option<Rejection>)
      requires Shows(s)
      modifies this`hooks, producer, repository`store, repository.Repr
      ensures m.sagaType != sagaType ==> Shows(s) && rejection == None
      ensures m.sagaType == sagaType ==> Shows(Handle(Steps(), s, m)) && rejection == Rejected(Steps(), s, m)
    {
      hide Stands, Encode, Decode, React, CanWait, Lock, Settle, OnReply, Forward, Backward, SentBy, HooksBy;
      if m.sagaType != sagaType {
        return None;
      }
      if m.sagaId !in repository.store {
        return Some(UnknownInstance);
      }
      hide SagaInstanceRepository.Rows, SagaInstanceRepository.Apart, RowsShow;
      ghost var rows := repository.Rows();
      ghost var x := s.instances[m.sagaId];
      ghost var y := React(Steps(), |s.sent|, x, m).instance;
      ReactEnds(Steps(), |s.sent|, x, m);
      repository.StandApart(m.sagaId);
      ghost var visits;
      rejection, visits := HandleReplyFor(repository.store[m.sagaId], m, s.instances[m.sagaId]);
      repository.OneMoved(m.sagaId);
      OneRowMore(rows, s.instances, m.sagaId, repository.store[m.sagaId].AsRow(), y);
    }

    /** A saved instance begins exactly as `SagaSystem.Begin` says. */
    method BeginFor(instance: SagaInstance<D>, claim: Option<bool>)
      returns (rejection: Option<Rejection>, ghost visits: seq<Visit<D>>)
      requires instance.StandsAt(Created, None) && instance.destinationsAndResources == []
      requires instance.sagaId in repository.store && repository.store[instance.sagaId] == instance
      modifies this`hooks, producer, repository`store, instance, instance.sagaData
      ensures instance.sagaId == old(instance.sagaId) && instance.sagaData == old(instance.sagaData)
      ensures repository.store == old(repository.store)
      ensures var r := Begin(Steps(), |old(producer.sent)|, instance.sagaId, old(instance.sagaData.value), claim);
        && rejection == r.rejection && r.instance.visits == visits
        && instance.StandsAt(r.instance.pos, r.instance.lastRequestId)
        && instance.sagaData.value == r.instance.data
        && instance.destinationsAndResources == r.instance.destinations
        && producer.sent == old(producer.sent) + r.sent && hooks == old(hooks) + r.hooks
    {
      hide Encode, Decode;
      visits := [];
      if claim == Some(false) {
        return Some(CannotClaimResourceLock), visits;
      }
      var data := instance.sagaData;
      var actions, i, vs := definition.Start(data);
      if actions.localException.Some? {
        return Some(LocalException(actions.localException.value)), visits;
      }
      var more := ProcessActions(instance, data, actions, i);
      visits := vs + more;
      rejection := None;
    }

    /** Saves a new instance under a fresh id and announces it. */
    method SaveNew(sagaData: D, ghost s: System<D>) returns (instance: SagaInstance<D>)
      requires Shows(s)
      modifies this`hooks, repository
      ensures instance.sagaId !in s.instances && instance.StandsAt(Created, None)
      ensures instance.destinationsAndResources == [] && instance.sagaData.value == sagaData
      ensures instance.sagaId in repository.store && repository.store[instance.sagaId] == instance
      ensures fresh(repository.Repr - old(repository.Repr)) && {instance, instance.sagaData} <= repository.Repr
      ensures Shows(Save(s, instance.sagaId, sagaData))
    {
      hide Stands, Encode, Decode, SagaInstanceRepository.Rows, SagaInstanceRepository.Apart, RowsShow;
      var data := new SagaData(sagaData, repository.nextId);
      instance := new SagaInstance(data);
      repository.Save(instance, s.instances);
      hooks := hooks + [Starting(instance.sagaId)];
    }

    /** Begins an instance of a system that holds it unstarted. */
    method BeginSaved(instance: SagaInstance<D>, claim: Option<bool>, ghost s: System<D>)
      returns (rejection: Option<Rejection>)
      requires Shows(s) && instance.sagaId in repository.store && repository.store[instance.sagaId] == instance
      requires instance.StandsAt(Created, None) && instance.destinationsAndResources == []
      modifies this`hooks, producer, repository`store, repository.Repr
      ensures instance.sagaId == old(instance.sagaId) && rejection ==
        Begin(Steps(), |s.sent|, instance.sagaId, old(instance.sagaData.value), claim).rejection
      ensures Shows(Apply(s, instance.sagaId,
        Begin(Steps(), |s.sent|, instance.sagaId, old(instance.sagaData.value), claim)))
    {
      hide Stands, Encode, Decode, Begin, CanWait, FirstThrow, Settle, Forward, SentBy, HooksBy, StateNameOf;
      hide SagaInstanceRepository.Rows, SagaInstanceRepository.Apart, RowsShow;
      ghost var id := instance.sagaId;
      ghost var rows := repository.Rows();
      BeginEnds(Steps(), |s.sent|, id, instance.sagaData.value, claim);
      ghost var y := Begin(Steps(), |s.sent|, id, instance.sagaData.value, claim).instance;
      repository.StandApart(id);
      ghost var visits;
      rejection, visits := BeginFor(instance, claim);
      repository.OneMoved(id);
      OneRowMore(rows, s.instances, id, instance.AsRow(), y);
    }

    /** Saves a new instance, announces it, and begins it: `SagaSystem.Create`. */
    method Create(sagaData: D, claim: Option<bool>, ghost s: System<D>)
      returns (instance: SagaInstance<D>, rejection: Option<Rejection>)
      requires Shows(s)
      modifies this`hooks, producer, repository, repository.Repr
      ensures instance.sagaId !in s.instances
      ensures Shows(SagaSystem.Create(Steps(), s, instance.sagaId, sagaData, claim))
      ensures rejection == Begin(Steps(), |s.sent|, instance.sagaId, sagaData, claim).rejection
      ensures rejection == Some(CannotClaimResourceLock) <==> claim == Some(false)
      ensures claim == Some(false) ==> Shows(System(
        s.instances[instance.sagaId := Instance(Created, sagaData, None, [], [], [])],
        s.sent, s.hooks + [Starting(instance.sagaId)]))
    {
      hide Begin;
      instance := SaveNew(sagaData, s);
      rejection := BeginSaved(instance, claim, Save(s, instance.sagaId, sagaData));
      ClaimsDecide(Steps(), s, instance.sagaId, sagaData, claim);
    }
  }
}
