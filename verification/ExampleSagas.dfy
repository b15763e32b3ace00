/**
 conditional.saga.ts, with-reply-handlers.saga.ts and local.saga.ts of the saga DSL, and
 whole runs of them: the messages sent, the handlers called and the end hook.
 */
module ExampleSagas {
  import opened Options
  import opened SagaSteps
  import opened SagaSystem
  import opened SagaRuns

  /** `calls` records the handlers called; `throws` is the local step that throws, if one does. */
  datatype Data = Data(invoke1: bool, throws: nat, calls: seq<string>) {
    function Called(name: string): Data {
      this.(calls := calls + [name])
    }
  }

  const DO1 := Command("participant1", "Do1Command", [], None)
  const UNDO1 := Command("participant1", "Undo1Command", [], None)
  const DO2 := Command("participant2", "Do2Command", [], None)
  const UNDO2 := Command("participant2", "Undo2Command", [], None)

  function Sends(command: Command, isInvocable: Option<Data -> bool>): Option<Invocation<Data>> {
    Some(Invocation(isInvocable, (d: Data) => (d, command)))
  }

  function IsInvoke1(): Option<Data -> bool> {
    Some((d: Data) => d.invoke1)
  }

  function Handler(name: string): (Data, Payload) -> Data {
    (d: Data, payload: Payload) => d.Called(name)
  }

  function ConditionalSaga(): seq<Step<Data>> {
    [ParticipantStep(map[], map[], Sends(DO1, IsInvoke1()), Sends(UNDO1, IsInvoke1())),
     ParticipantStep(map[], map[], Sends(DO2, None), None)]
  }

  function WithReplyHandlersSaga(): seq<Step<Data>> {
    [ParticipantStep(
       map["Failure" := Handler("failure1"), "Success" := Handler("success1")],
       map["Success" := Handler("compensating")],
       Sends(DO1, IsInvoke1()), Sends(UNDO1, IsInvoke1())),
     ParticipantStep(
       map["Failure" := Handler("failure2"), "Success" := Handler("success2")], map[],
       Sends(DO2, None), None)]
  }

  function Steps(handlers: bool): seq<Step<Data>> {
    if handlers then WithReplyHandlersSaga() else ConditionalSaga()
  }

  function LocalSaga(): seq<Step<Data>> {
    [LocalStep(
       (d: Data) => LocalResult(d.Called("localStep1"), if d.throws == 1 then Some("Failed local step") else None),
       Some((d: Data) => d.Called("localStep1Compensation"))),
     ParticipantStep(map[], map[], Sends(DO2, None), Sends(UNDO2, None)),
     LocalStep((d: Data) => LocalResult(d.Called("localStep3"), if d.throws == 3 then Some("") else None), None)]
  }

  // ---------- runs ----------

  function Answer(success: bool): ReplyMessage {
    ReplyMessage("S", 0, 0,
      if success then Reply(ReplyOutcome.Success, "Success", []) else Reply(Failure, "Failure", []), None)
  }

  function Events(d: Data, answers: seq<bool>): seq<Event<Data>> {
    if answers == [] then [NewSaga(0, d, None)]
    else Events(d, answers[..|answers| - 1]) + [ReplyArrives(Answer(answers[|answers| - 1]))]
  }

  /** The system in which saga 0 was created and given these answers, one after the other. */
  function Play(steps: seq<Step<Data>>, d: Data, answers: seq<bool>): (s: System<Data>)
    ensures AllCanWait(steps, s)
  {
    Run(steps, Events(d, answers))
  }

  lemma Plays(steps: seq<Step<Data>>, d: Data, answers: seq<bool>, answer: bool)
    ensures Play(steps, d, answers + [answer]) == Handle(steps, Play(steps, d, answers), Answer(answer))
  {
    assert (answers + [answer])[..|answers|] == answers;
    var before := Events(d, answers);
    assert (before + [ReplyArrives(Answer(answer))])[..|before|] == before;
  }

  lemma Starts(steps: seq<Step<Data>>, d: Data)
    ensures Play(steps, d, []) == Create(steps, System(map[], [], []), 0, d, None)
  {
    var events := Events(d, []);
    assert events[..0] == [];
    assert Run(steps, events[..0]) == System(map[], [], []);
  }

  function SentFor(commands: seq<Command>): seq<Sent> {
    seq(|commands|, k requires 0 <= k < |commands| => CommandSent(0, commands[k]))
  }

  lemma SentMore(commands: seq<Command>, c: Command)
    ensures SentFor(commands) + [CommandSent(0, c)] == SentFor(commands + [c])
    ensures SentFor(commands) + [] == SentFor(commands)
  {
  }

  /** Saga 0 stands here, with this data, after these commands; the end hook was called, with that data, if it ended. */
  ghost predicate Stands(s: System<Data>, pos: Position, d: Data, commands: seq<Command>) {
    && 0 in s.instances && s.instances[0].pos == pos && s.instances[0].data == d && s.instances[0].destinations == []
    && s.sent == SentFor(commands)
    && s.hooks == match pos
       case Done(false) => [Starting(0), CompletedSuccessfully(0, d)]
       case Done(true) => [Starting(0), RolledBack(0, d)]
       case _ => [Starting(0)]
  }

  lemma BurstBegins(steps: seq<Step<Data>>, d: Data, b: Burst<Data>)
    requires b == Forward(steps, 0, d) && FirstThrow(steps, 0, d) == None
    ensures Stands(Play(steps, d, []), b.pos, b.data, if b.command.Some? then [b.command.value] else [])
  {
    Starts(steps, d);
    hide Forward, FirstThrow;
    assert UnlocksFor(0, []) == [];
  }

  lemma BurstFollows(
    steps: seq<Step<Data>>, s: System<Data>, pos: Position, d: Data, commands: seq<Command>, success: bool,
    b: Burst<Data>)
    requires AllCanWait(steps, s) && Stands(s, pos, d, commands) && pos.At? && pos.index < |steps|
    requires OnReply(steps, pos.index, pos.compensating, d, Answer(success).reply) == Some(b)
    ensures Stands(Handle(steps, s, Answer(success)), b.pos, b.data,
      if b.command.Some? then commands + [b.command.value] else commands)
  {
    hide OnReply, AfterReply;
    assert UnlocksFor(0, []) == [];
    if b.command.Some? { SentMore(commands, b.command.value); }
  }

  // ---------- the conditional saga, with and without reply handlers ----------

  function Noted(handlers: bool, d: Data, name: string): Data {
    if handlers then d.Called(name) else d
  }

  lemma Does(handlers: bool, i: nat, d: Data)
    requires i <= 2
    ensures var b := Forward(Steps(handlers), i, d);
      && b.data == d
      && (if i == 0 && d.invoke1 then b.pos == At(0, false) && b.command == Some(DO1)
          else if i <= 1 then b.pos == At(1, false) && b.command == Some(DO2)
          else b.pos == Done(false) && b.command == None)
    ensures FirstThrow(Steps(handlers), 0, d) == None
    decreases 2 - i
  {
    var steps := Steps(handlers);
    assert steps[1].ParticipantStep? && steps[1].action == Sends(DO2, None);
    assert steps[0].ParticipantStep? && steps[0].action == Sends(DO1, IsInvoke1());
    if i == 0 { Does(handlers, 1, d); }
  }

  lemma Undoes(handlers: bool, i: nat, d: Data)
    requires i <= 2
    ensures var b := Backward(Steps(handlers), i, d);
      && b.data == d
      && (if i > 0 && d.invoke1 then b.pos == At(0, true) && b.command == Some(UNDO1)
          else b.pos == Done(true) && b.command == None)
  {
    var steps := Steps(handlers);
    assert steps[1].ParticipantStep? && steps[1].compensation == None;
    assert steps[0].ParticipantStep? && steps[0].compensation == Sends(UNDO1, IsInvoke1());
    if i == 2 { Undoes(handlers, 1, d); }
  }

  lemma Notes(handlers: bool, i: nat, compensating: bool, d: Data, success: bool)
    requires i < 2 && (compensating ==> i == 0 && success)
    ensures AfterReply(Steps(handlers)[i], compensating, d, Answer(success).reply) ==
      Noted(handlers, d,
        if compensating then "compensating"
        else if i == 0 then (if success then "success1" else "failure1")
        else if success then "success2" else "failure2")
  {
  }

  /** One answer to the conditional saga. */
  lemma Answers(handlers: bool, s: System<Data>, pos: Position, d: Data, commands: seq<Command>, success: bool)
    requires AllCanWait(Steps(handlers), s) && Stands(s, pos, d, commands)
    requires pos in {At(0, false), At(1, false), At(0, true)} && (pos == At(0, true) ==> success)
    ensures var t := Handle(Steps(handlers), s, Answer(success));
      match pos
      case At(0, false) =>
        if success then Stands(t, At(1, false), Noted(handlers, d, "success1"), commands + [DO2])
        else Stands(t, Done(true), Noted(handlers, d, "failure1"), commands)
      case At(1, false) =>
        if success then Stands(t, Done(false), Noted(handlers, d, "success2"), commands)
        else if d.invoke1 then Stands(t, At(0, true), Noted(handlers, d, "failure2"), commands + [UNDO1])
        else Stands(t, Done(true), Noted(handlers, d, "failure2"), commands)
      case _ => Stands(t, Done(true), Noted(handlers, d, "compensating"), commands)
  {
    var steps := Steps(handlers);
    var after := AfterReply(steps[pos.index], pos.compensating, d, Answer(success).reply);
    Notes(handlers, pos.index, pos.compensating, d, success);
    Does(handlers, pos.index + 1, after);
    Undoes(handlers, pos.index, after);
    hide Forward, Backward, AfterReply, Steps, Stands, AllCanWait;
    BurstFollows(steps, s, pos, d, commands, success,
      OnReply(steps, pos.index, pos.compensating, d, Answer(success).reply).value);
    hide Handle;
  }

  function Fresh(invoke1: bool): Data {
    Data(invoke1, 0, [])
  }

  function Recorded(handlers: bool, invoke1: bool, names: seq<string>): Data {
    Data(invoke1, 0, if handlers then names else [])
  }

  lemma NotesMore(handlers: bool, invoke1: bool, names: seq<string>, name: string)
    ensures Noted(handlers, Recorded(handlers, invoke1, names), name) == Recorded(handlers, invoke1, names + [name])
  {
  }

  lemma Begins(handlers: bool, invoke1: bool)
    ensures Stands(Play(Steps(handlers), Fresh(invoke1), []),
      if invoke1 then At(0, false) else At(1, false), Fresh(invoke1), if invoke1 then [DO1] else [DO2])
  {
    Does(handlers, 0, Fresh(invoke1));
    BurstBegins(Steps(handlers), Fresh(invoke1), Forward(Steps(handlers), 0, Fresh(invoke1)));
    hide Forward, Play, FirstThrow, Steps, Stands;
  }

  /** One more answer, in a run that recorded these calls so far. */
  lemma AnsweredNext(
    handlers: bool, invoke1: bool, answers: seq<bool>, pos: Position, names: seq<string>, commands: seq<Command>,
    success: bool)
    requires Stands(Play(Steps(handlers), Fresh(invoke1), answers), pos, Recorded(handlers, invoke1, names), commands)
    requires pos in {At(0, false), At(1, false), At(0, true)} && (pos == At(0, true) ==> success)
    ensures var t := Play(Steps(handlers), Fresh(invoke1), answers + [success]);
      match pos
      case At(0, false) =>
        if success then Stands(t, At(1, false), Recorded(handlers, invoke1, names + ["success1"]), commands + [DO2])
        else Stands(t, Done(true), Recorded(handlers, invoke1, names + ["failure1"]), commands)
      case At(1, false) =>
        if success then Stands(t, Done(false), Recorded(handlers, invoke1, names + ["success2"]), commands)
        else if invoke1 then
          Stands(t, At(0, true), Recorded(handlers, invoke1, names + ["failure2"]), commands + [UNDO1])
        else Stands(t, Done(true), Recorded(handlers, invoke1, names + ["failure2"]), commands)
      case _ => Stands(t, Done(true), Recorded(handlers, invoke1, names + ["compensating"]), commands)
  {
    var d := Recorded(handlers, invoke1, names);
    assert d.invoke1 == invoke1;
    hide Stands, Play, Handle, Steps, AllCanWait, Recorded, Noted;
    Plays(Steps(handlers), Fresh(invoke1), answers, success);
    Answers(handlers, Play(Steps(handlers), Fresh(invoke1), answers), pos, d, commands, success);
    NotesMore(handlers, invoke1, names, "success1");
    NotesMore(handlers, invoke1, names, "failure1");
    NotesMore(handlers, invoke1, names, "success2");
    NotesMore(handlers, invoke1, names, "failure2");
    NotesMore(handlers, invoke1, names, "compensating");
  }

  lemma FirstStepDone(handlers: bool)
    ensures Stands(Play(Steps(handlers), Fresh(true), [true]),
      At(1, false), Recorded(handlers, true, ["success1"]), [DO1, DO2])
  {
    assert Fresh(true) == Recorded(handlers, true, []);
    hide Stands, Play, Steps, Recorded, Fresh;
    Begins(handlers, true);
    AnsweredNext(handlers, true, [], At(0, false), [], [DO1], true);
    assert [] + [true] == [true] && [DO1] + [DO2] == [DO1, DO2] && [] + ["success1"] == ["success1"];
  }

  /** With its condition true, both steps are done. */
  lemma ConditionTrueCompletes(handlers: bool)
    ensures Stands(Play(Steps(handlers), Fresh(true), [true, true]),
      Done(false), Recorded(handlers, true, ["success1", "success2"]), [DO1, DO2])
  {
    hide Stands, Play, Steps, Recorded, Fresh;
    FirstStepDone(handlers);
    AnsweredNext(handlers, true, [true], At(1, false), ["success1"], [DO1, DO2], true);
    assert [true] + [true] == [true, true] && ["success1"] + ["success2"] == ["success1", "success2"];
  }

  lemma SecondStepFailed(handlers: bool)
    ensures Stands(Play(Steps(handlers), Fresh(true), [true, false]),
      At(0, true), Recorded(handlers, true, ["success1", "failure2"]), [DO1, DO2, UNDO1])
  {
    hide Stands, Play, Steps, Recorded, Fresh;
    FirstStepDone(handlers);
    AnsweredNext(handlers, true, [true], At(1, false), ["success1"], [DO1, DO2], false);
    assert [true] + [false] == [true, false] && ["success1"] + ["failure2"] == ["success1", "failure2"];
    assert [DO1, DO2] + [UNDO1] == [DO1, DO2, UNDO1];
  }

  /** Or the second fails, and the first is undone. */
  lemma ConditionTrueRollsBack(handlers: bool)
    ensures Stands(Play(Steps(handlers), Fresh(true), [true, false, true]),
      Done(true), Recorded(handlers, true, ["success1", "failure2", "compensating"]), [DO1, DO2, UNDO1])
  {
    hide Stands, Play, Steps, Recorded, Fresh;
    SecondStepFailed(handlers);
    AnsweredNext(handlers, true, [true, false], At(0, true), ["success1", "failure2"], [DO1, DO2, UNDO1], true);
    assert [true, false] + [true] == [true, false, true];
    assert ["success1", "failure2"] + ["compensating"] == ["success1", "failure2", "compensating"];
  }

  /** Or the first fails, and nothing is undone. */
  lemma ConditionTrueFails(handlers: bool)
    ensures Stands(Play(Steps(handlers), Fresh(true), [false]),
      Done(true), Recorded(handlers, true, ["failure1"]), [DO1])
  {
    assert Fresh(true) == Recorded(handlers, true, []);
    hide Stands, Play, Steps, Recorded, Fresh;
    Begins(handlers, true);
    AnsweredNext(handlers, true, [], At(0, false), [], [DO1], false);
    assert [] + [false] == [false] && [] + ["failure1"] == ["failure1"];
  }

  /** With its condition false: the first step is neither done nor undone. */
  lemma ConditionFalse(handlers: bool)
    ensures Stands(Play(Steps(handlers), Fresh(false), [true]),
      Done(false), Recorded(handlers, false, ["success2"]), [DO2])
    ensures Stands(Play(Steps(handlers), Fresh(false), [false]),
      Done(true), Recorded(handlers, false, ["failure2"]), [DO2])
  {
    assert Fresh(false) == Recorded(handlers, false, []);
    hide Stands, Play, Steps, Recorded, Fresh;
    Begins(handlers, false);
    assert [] + [true] == [true] && [] + [false] == [false];
    assert [] + ["success2"] == ["success2"] && [] + ["failure2"] == ["failure2"];
    AnsweredNext(handlers, false, [], At(1, false), [], [DO2], true);
    AnsweredNext(handlers, false, [], At(1, false), [], [DO2], false);
  }

  // ---------- the local saga ----------

  lemma DoesLocally(i: nat, d: Data)
    requires i <= 2
    ensures var b := Forward(LocalSaga(), i, d);
      var first, third := d.Called("localStep1"), d.Called("localStep3");
      if i == 0 && d.throws == 1 then b.pos == Done(true) && b.data == first && b.command == None
      else if i < 2 then
        b.pos == At(1, false) && b.data == (if i == 0 then first else d) && b.command == Some(DO2)
      else if d.throws == 3 then b.pos == At(1, true) && b.data == third && b.command == Some(UNDO2)
      else b.pos == Done(false) && b.data == third && b.command == None
    ensures FirstThrow(LocalSaga(), 0, d) ==
      if d.throws == 1 then Some(LocalResult(d.Called("localStep1"), Some("Failed local step"))) else None
    decreases 2 - i
  {
    var steps := LocalSaga();
    var third := d.Called("localStep3");
    assert Forward(steps, 3, third) == Burst(Done(false), third, None, []);
    assert Backward(steps, 0, d.Called("localStep1")) == Burst(Done(true), d.Called("localStep1"), None, []);
    assert Holds(steps[1].compensation, third);
    if i == 0 {
      DoesLocally(1, d.Called("localStep1"));
    }
  }

  lemma UndoesLocally(d: Data)
    ensures var b := Backward(LocalSaga(), 1, d);
      b.pos == Done(true) && b.data == d.Called("localStep1Compensation") && b.command == None
  {
    var undone := d.Called("localStep1Compensation");
    assert Backward(LocalSaga(), 0, undone) == Burst(Done(true), undone, None, []);
  }

  lemma AnswersLocally(s: System<Data>, compensating: bool, d: Data, commands: seq<Command>, success: bool)
    requires AllCanWait(LocalSaga(), s) && Stands(s, At(1, compensating), d, commands)
    requires compensating ==> success
    ensures var t := Handle(LocalSaga(), s, Answer(success));
      if compensating || !success then Stands(t, Done(true), d.Called("localStep1Compensation"), commands)
      else if d.throws == 3 then Stands(t, At(1, true), d.Called("localStep3"), commands + [UNDO2])
      else Stands(t, Done(false), d.Called("localStep3"), commands)
  {
    var steps := LocalSaga();
    assert AfterReply(steps[1], compensating, d, Answer(success).reply) == d;
    DoesLocally(2, d);
    UndoesLocally(d);
    hide Forward, Backward, AfterReply, LocalSaga, Stands, AllCanWait;
    BurstFollows(steps, s, At(1, compensating), d, commands, success,
      OnReply(steps, 1, compensating, d, Answer(success).reply).value);
    hide Handle;
  }

  /** One more answer, in a run of the local saga. */
  lemma AnsweredLocally(
    start: Data, answers: seq<bool>, compensating: bool, names: seq<string>, commands: seq<Command>, success: bool)
    requires Stands(Play(LocalSaga(), start, answers), At(1, compensating), start.(calls := names), commands)
    requires compensating ==> success
    ensures var t := Play(LocalSaga(), start, answers + [success]);
      if compensating || !success then
        Stands(t, Done(true), start.(calls := names + ["localStep1Compensation"]), commands)
      else if start.throws == 3 then
        Stands(t, At(1, true), start.(calls := names + ["localStep3"]), commands + [UNDO2])
      else Stands(t, Done(false), start.(calls := names + ["localStep3"]), commands)
  {
    hide Stands, Play, Handle, LocalSaga, AllCanWait;
    Plays(LocalSaga(), start, answers, success);
    AnswersLocally(Play(LocalSaga(), start, answers), compensating, start.(calls := names), commands, success);
  }

  function FreshLocal(throws: nat): Data {
    Data(false, throws, [])
  }

  function RecordedLocally(throws: nat, names: seq<string>): Data {
    Data(false, throws, names)
  }

  /** The local saga is done; or its participant refuses, and its first step is compensated. */
  lemma LocalSagaRuns()
    ensures Stands(Play(LocalSaga(), FreshLocal(0), [true]),
      Done(false), RecordedLocally(0, ["localStep1", "localStep3"]), [DO2])
    ensures Stands(Play(LocalSaga(), FreshLocal(0), [false]),
      Done(true), RecordedLocally(0, ["localStep1", "localStep1Compensation"]), [DO2])
  {
    hide Stands, Play, LocalSaga;
    LocalBegins(FreshLocal(0));
    assert [] + [true] == [true] && [] + [false] == [false] && [] + ["localStep1"] == ["localStep1"];
    AnsweredLocally(FreshLocal(0), [], false, ["localStep1"], [DO2], true);
    AnsweredLocally(FreshLocal(0), [], false, ["localStep1"], [DO2], false);
    assert ["localStep1"] + ["localStep3"] == ["localStep1", "localStep3"];
    assert ["localStep1"] + ["localStep1Compensation"] == ["localStep1", "localStep1Compensation"];
  }

  /** Its last step throws, and the participant and then its first step are undone. */
  lemma LocalSagaTurns()
    ensures Stands(Play(LocalSaga(), FreshLocal(3), [true, true]),
      Done(true), RecordedLocally(3, ["localStep1", "localStep3", "localStep1Compensation"]), [DO2, UNDO2])
  {
    hide Stands, Play, LocalSaga;
    LocalBegins(FreshLocal(3));
    assert [] + [true] == [true] && [true] + [true] == [true, true] && [] + ["localStep1"] == ["localStep1"];
    AnsweredLocally(FreshLocal(3), [], false, ["localStep1"], [DO2], true);
    var two := ["localStep1", "localStep3"];
    assert ["localStep1"] + ["localStep3"] == two && [DO2] + [UNDO2] == [DO2, UNDO2];
    AnsweredLocally(FreshLocal(3), [true], true, two, [DO2, UNDO2], true);
    assert two + ["localStep1Compensation"] == ["localStep1", "localStep3", "localStep1Compensation"];
  }

  lemma LocalBegins(d: Data)
    requires d.throws != 1
    ensures Stands(Play(LocalSaga(), d, []), At(1, false), d.Called("localStep1"), [DO2])
  {
    DoesLocally(0, d);
    BurstBegins(LocalSaga(), d, Forward(LocalSaga(), 0, d));
    hide Forward, Play, FirstThrow, LocalSaga, Stands;
  }

  /** Its first step throws, and it is not begun: what that step had done to the data stays. */
  lemma LocalSagaIsNotBegun(d: Data)
    requires d.throws == 1
    ensures Stands(Play(LocalSaga(), d, []), Created, d.Called("localStep1"), [])
    ensures Begin(LocalSaga(), 0, 0, d, None).rejection == Some(LocalException("Failed local step"))
  {
    DoesLocally(0, d);
    Starts(LocalSaga(), d);
    hide Forward, FirstThrow, LocalSaga, Play;
  }
}
