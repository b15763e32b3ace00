/**
 What the effects of a saga are, in every run: each participant step that took effect
 sent the command it builds from the saga's data, and each step was tested on the data
 that the step before it and the replies since then had left.
 */
module SagaEffects {
  import opened Options
  import opened SagaSteps
  import opened SagaSystem
  import opened SagaRuns

  /** The command that a test sends, when its step is a participant's and takes effect. */
  function CommandOf<D>(steps: seq<Step<D>>, v: Visit<D>): Option<Command> {
    if v.effect && v.index < |steps| && steps[v.index].ParticipantStep? &&
       InvocationOf(steps[v.index], v.compensating).Some?
    then Some(InvocationOf(steps[v.index], v.compensating).value.createCommand(v.data).1)
    else None
  }

  /** The data that a test leaves: what the handler, the undo or the command builder makes of it. */
  function LeftBy<D>(steps: seq<Step<D>>, v: Visit<D>): D {
    if !v.effect || v.index >= |steps| then v.data
    else match steps[v.index]
      case LocalStep(handler, undo) =>
        if !v.compensating then handler(v.data).data else if undo.Some? then undo.value(v.data) else v.data
      case ParticipantStep(_, _, _, _) =>
        var invocation := InvocationOf(steps[v.index], v.compensating);
        if invocation.Some? then invocation.value.createCommand(v.data).0 else v.data
  }

  function One(c: Option<Command>): seq<Command> {
    if c.Some? then [c.value] else []
  }

  /** The commands of a list of tests, in order. */
  function Commands<D>(steps: seq<Step<D>>, vs: seq<Visit<D>>): seq<Command> {
    if vs == [] then []
    else Commands(steps, vs[..|vs| - 1]) + One(CommandOf(steps, vs[|vs| - 1]))
  }

  /** The commands sent for an instance, in order. */
  function CommandsOf(sent: seq<Sent>, id: nat): seq<Command> {
    if sent == [] then []
    else
      var last := sent[|sent| - 1];
      CommandsOf(sent[..|sent| - 1], id) + if last.CommandSent? && last.sagaId == id then [last.command] else []
  }

  lemma {:induction false} CommandsMore<D>(steps: seq<Step<D>>, a: seq<Visit<D>>, b: seq<Visit<D>>)
    ensures Commands(steps, a + b) == Commands(steps, a) + Commands(steps, b)
  {
    hide CommandOf;
    if b == [] {
      assert a + b == a;
    } else {
      assert (a + b)[..|a + b| - 1] == a + b[..|b| - 1];
      CommandsMore(steps, a, b[..|b| - 1]);
    }
  }

  lemma {:induction false} CommandsOfMore(a: seq<Sent>, b: seq<Sent>, id: nat)
    ensures CommandsOf(a + b, id) == CommandsOf(a, id) + CommandsOf(b, id)
  {
    if b == [] {
      assert a + b == a;
    } else {
      assert (a + b)[..|a + b| - 1] == a + b[..|b| - 1];
      CommandsOfMore(a, b[..|b| - 1], id);
    }
  }

  // ---------- one burst ----------

  /** Each test is made on the data that the one before it left, from `d` to `out`. */
  ghost predicate Chained<D>(steps: seq<Step<D>>, d: D, vs: seq<Visit<D>>, out: D) {
    if vs == [] then out == d
    else vs[0].data == d && Chained(steps, LeftBy(steps, vs[0]), vs[1..], out)
  }

  /** The step that a burst waits at is the one it tested last. */
  ghost predicate WaitsFor<D>(steps: seq<Step<D>>, last: Visit<D>, pos: Position) {
    pos == At(last.index, last.compensating) && CommandOf(steps, last).Some?
  }

  ghost predicate Effective<D>(steps: seq<Step<D>>, d: D, b: Burst<D>) {
    && Chained(steps, d, b.visits, b.data)
    && Commands(steps, b.visits) == One(b.command)
    && (b.pos.At? ==> b.visits != [] && WaitsFor(steps, b.visits[|b.visits| - 1], b.pos))
  }

  lemma NoTest<D>(steps: seq<Step<D>>)
    ensures Commands(steps, []) == []
  {
  }

  lemma OneTest<D>(steps: seq<Step<D>>, v: Visit<D>)
    ensures Commands(steps, [v]) == One(CommandOf(steps, v)) && Chained(steps, v.data, [v], LeftBy(steps, v))
  {
    hide CommandOf, LeftBy;
    assert [v][..0] == [] && [v][1..] == [];
    NoTest(steps);
  }

  lemma EffectiveAfter<D>(steps: seq<Step<D>>, v: Visit<D>, b: Burst<D>)
    requires CommandOf(steps, v) == None && Effective(steps, LeftBy(steps, v), b)
    ensures Effective(steps, v.data, After([v], b))
  {
    hide CommandOf, LeftBy;
    assert ([v] + b.visits)[1..] == b.visits;
    OneTest(steps, v);
    CommandsMore(steps, [v], b.visits);
  }

  /** A participant is asked with the command it builds, and its data is kept. */
  lemma AskingIsEffective<D>(steps: seq<Step<D>>, v: Visit<D>)
    requires v.index < |steps| && steps[v.index].ParticipantStep?
    requires InvocationOf(steps[v.index], v.compensating).Some? && v.effect
    ensures Effective(steps, v.data, After([v], Invoke(steps, v.index, v.compensating, v.data)))
  {
    var b := Invoke(steps, v.index, v.compensating, v.data);
    assert CommandOf(steps, v) == b.command && LeftBy(steps, v) == b.data;
    OneTest(steps, v);
    hide CommandOf, LeftBy, Invoke, Chained, Commands;
    assert After([v], b).visits == [v];
  }

  lemma {:induction false} BackwardIsEffective<D>(steps: seq<Step<D>>, i: nat, d: D)
    requires i <= |steps|
    ensures Effective(steps, d, Backward(steps, i, d))
    decreases i
  {
    if i > 0 {
      var step := steps[i - 1];
      var v := Visit(i - 1, true, d, Compensates(step, d));
      if step.ParticipantStep? && Holds(step.compensation, d) {
        AskingIsEffective(steps, v);
      } else {
        BackwardIsEffective(steps, i - 1, LeftBy(steps, v));
        EffectiveAfter(steps, v, Backward(steps, i - 1, LeftBy(steps, v)));
      }
    }
  }

  lemma {:induction false} ForwardIsEffective<D>(steps: seq<Step<D>>, i: nat, d: D)
    requires i <= |steps|
    ensures Effective(steps, d, Forward(steps, i, d))
    decreases |steps| - i
  {
    if i < |steps| {
      var v := Visit(i, false, d, HasAction(steps[i], d));
      var data := LeftBy(steps, v);
      if steps[i].ParticipantStep? && Holds(steps[i].action, d) {
        AskingIsEffective(steps, v);
      } else if Threw(steps, v) {
        BackwardIsEffective(steps, i, data);
        EffectiveAfter(steps, v, Backward(steps, i, data));
      } else {
        ForwardIsEffective(steps, i + 1, data);
        EffectiveAfter(steps, v, Forward(steps, i + 1, data));
      }
    }
  }

  lemma RepliesAreEffective<D>(steps: seq<Step<D>>, i: nat, compensating: bool, d: D, reply: Reply)
    requires i < |steps|
    ensures var b := OnReply(steps, i, compensating, d, reply);
      b.Some? ==> Effective(steps, AfterReply(steps[i], compensating, d, reply), b.value)
  {
    var data := AfterReply(steps[i], compensating, d, reply);
    BackwardIsEffective(steps, i, data);
    ForwardIsEffective(steps, i + 1, data);
    hide Effective, Forward, Backward, AfterReply;
  }

  // ---------- the commands of every run ----------

  lemma {:induction false} UnlocksAreNoCommands(targets: seq<Destination>, owner: nat, id: nat)
    ensures CommandsOf(UnlocksFor(owner, targets), id) == []
  {
    if targets != [] {
      var n := |targets| - 1;
      assert UnlocksFor(owner, targets)[..n] == UnlocksFor(owner, targets[..n]);
      UnlocksAreNoCommands(targets[..n], owner, id);
    }
  }

  lemma BurstSends<D>(owner: nat, b: Burst<D>, targets: seq<Destination>, id: nat)
    ensures CommandsOf(SentBy(owner, b, targets), id) == if owner == id then One(b.command) else []
  {
    var command: seq<Sent> := if b.command.Some? then [CommandSent(owner, b.command.value)] else [];
    assert command != [] ==> command[..0] == [];
    CommandsOfMore(command, if b.pos.Done? then UnlocksFor(owner, targets) else [], id);
    UnlocksAreNoCommands(targets, owner, id);
  }

  ghost predicate SendsItsCommands<D>(steps: seq<Step<D>>, s: System<D>, id: nat) {
    CommandsOf(s.sent, id) == if id in s.instances then Commands(steps, s.instances[id].visits) else []
  }

  lemma BeginningSends<D>(steps: seq<Step<D>>, next: nat, owner: nat, d: D, claim: Option<bool>, id: nat)
    ensures var r := Begin(steps, next, owner, d, claim);
      CommandsOf(r.sent, id) == if owner == id then Commands(steps, r.instance.visits) else []
  {
    hide *;
    var b := Forward(steps, 0, d);
    BeginsOrNot(steps, next, owner, d, claim);
    FirstBurstSends(steps, owner, d, id);
    NoTest(steps);
    NothingSent(id);
  }

  lemma NothingSent(id: nat)
    ensures CommandsOf([], id) == []
  {
  }

  lemma FirstBurstSends<D>(steps: seq<Step<D>>, owner: nat, d: D, id: nat)
    ensures var b := Forward(steps, 0, d);
      CommandsOf(SentBy(owner, b, []), id) == if owner == id then Commands(steps, b.visits) else []
  {
    ForwardIsEffective(steps, 0, d);
    hide Forward, SentBy, Commands, CommandsOf, One, Chained, WaitsFor;
    BurstSends(owner, Forward(steps, 0, d), [], id);
  }

  lemma BeginsOrNot<D>(steps: seq<Step<D>>, next: nat, owner: nat, d: D, claim: Option<bool>)
    ensures var (r, b) := (Begin(steps, next, owner, d, claim), Forward(steps, 0, d));
      if r.instance.pos.Created? && r.rejection.Some? then r.sent == [] && r.instance.visits == []
      else r.sent == SentBy(owner, b, []) && r.instance.visits == b.visits
  {
    hide Forward, FirstThrow, SentBy, HooksBy, RequestId;
    assert [] + Forward(steps, 0, d).visits == Forward(steps, 0, d).visits;
  }

  lemma CreationSends<D>(steps: seq<Step<D>>, s: System<D>, owner: nat, d: D, claim: Option<bool>, id: nat)
    requires SendsItsCommands(steps, s, id) && owner !in s.instances
    ensures SendsItsCommands(steps, Create(steps, s, owner, d, claim), id)
  {
    BeginningSends(steps, |s.sent|, owner, d, claim, id);
    hide Begin;
    assert s.sent + [] == s.sent;
    CommandsOfMore(s.sent, Begin(steps, |s.sent|, owner, d, claim).sent, id);
    hide Commands, CommandsOf;
  }

  lemma ReactionSends<D>(steps: seq<Step<D>>, s: System<D>, m: ReplyMessage, id: nat)
    requires AllCanWait(steps, s) && m.sagaId in s.instances && SendsItsCommands(steps, s, id)
    ensures SendsItsCommands(steps, Handle(steps, s, m), id)
  {
    var x := s.instances[m.sagaId];
    var r := React(steps, |s.sent|, x, m);
    CommandsOfMore(s.sent, r.sent, id);
    if r.rejection.None? {
      RepliesAreEffective(steps, x.pos.index, x.pos.compensating, x.data, m.reply);
      var b := OnReply(steps, x.pos.index, x.pos.compensating, x.data, m.reply).value;
      BurstSends(m.sagaId, b, Lock(x, m).destinations, id);
      CommandsMore(steps, x.visits, b.visits);
    }
    hide OnReply, AfterReply, CommandOf, SentBy, Chained, WaitsFor;
  }

  /**
   In every run, the commands sent for an instance are, in order, those that its
   participant steps built at the tests where they took effect, and no others.
   */
  lemma {:induction false} CommandsAreTheEffects<D>(steps: seq<Step<D>>, events: seq<Event<D>>, id: nat)
    ensures var s := Run(steps, events);
      CommandsOf(s.sent, id) == if id in s.instances then Commands(steps, s.instances[id].visits) else []
  {
    if events != [] {
      var n := |events| - 1;
      var s := Run(steps, events[..n]);
      CommandsAreTheEffects(steps, events[..n], id);
      match events[n] {
        case NewSaga(owner, d, claim) =>
          if owner !in s.instances {
            CreationSends(steps, s, owner, d, claim, id);
            hide Create;
          }
        case ReplyArrives(m) =>
          if m.sagaId in s.instances {
            ReactionSends(steps, s, m, id);
            hide Handle;
          }
      }
    }
  }

  // ---------- refused claims ----------

  lemma StaysUnbegun<D>(steps: seq<Step<D>>, events: seq<Event<D>>, k: nat, id: nat)
    requires k <= |events| && id in Run(steps, events[..k]).instances
    requires Run(steps, events[..k]).instances[id].pos.Created?
    ensures id in Run(steps, events).instances
    ensures Run(steps, events).instances[id].pos.Created?
    ensures Run(steps, events).instances[id].data == Run(steps, events[..k]).instances[id].data
    decreases |events|
  {
    if k == |events| {
      assert events[..k] == events;
    } else {
      var n := |events| - 1;
      assert events[..n][..k] == events[..k];
      StaysUnbegun(steps, events[..n], k, id);
      hide Begin;
    }
  }

  lemma {:induction false} SentForItsSaga(sent: seq<Sent>, id: nat, j: nat)
    requires j < |sent| && sent[j].sagaId == id
    ensures UnlocksOf(sent, id) != [] || CommandsOf(sent, id) != []
  {
    if j < |sent| - 1 { SentForItsSaga(sent[..|sent| - 1], id, j); }
  }

  lemma CreatesAsAsked<D>(steps: seq<Step<D>>, events: seq<Event<D>>, k: nat)
    requires k < |events| && events[k].NewSaga? && events[k].id !in Run(steps, events[..k]).instances
    ensures Run(steps, events[..k + 1]) ==
      Create(steps, Run(steps, events[..k]), events[k].id, events[k].data, events[k].claim)
  {
    assert events[..k + 1][..k] == events[..k] && events[..k + 1][k] == events[k];
  }

  /**
   In every run, whatever comes later, a saga whose claim was refused stays unbegun, with its
   data: nothing is sent and no end hook is called for it.
   */
  lemma RefusedSagasNeverBegin<D>(steps: seq<Step<D>>, events: seq<Event<D>>, k: nat)
    requires k < |events| && events[k].NewSaga? && events[k].claim == Some(false)
    requires events[k].id !in Run(steps, events[..k]).instances
    ensures var (s, id) := (Run(steps, events), events[k].id);
      && id in s.instances && s.instances[id].pos.Created? && s.instances[id].data == events[k].data
      && s.instances[id].visits == []
      && (forall j :: 0 <= j < |s.sent| ==> s.sent[j].sagaId != id)
      && EndHooksOf(s.hooks, id) == []
  {
    var id := events[k].id;
    CreatesAsAsked(steps, events, k);
    ClaimsDecide(steps, Run(steps, events[..k]), id, events[k].data, events[k].claim);
    StaysUnbegun(steps, events, k + 1, id);
    EveryInstanceEndsOnce(steps, events, id);
    EveryInstanceHasAHistory(steps, events, id);
    CommandsAreTheEffects(steps, events, id);
    NoTest(steps);
    hide Run, Create, CommandsOf, Commands;
    var s := Run(steps, events);
    forall j | 0 <= j < |s.sent| ensures s.sent[j].sagaId != id {
      if s.sent[j].sagaId == id { SentForItsSaga(s.sent, id, j); }
    }
  }

  // ---------- the data of every run ----------

  datatype Happening<+D> = Tested(visit: Visit<D>) | Heard(received: Received)

  function TestsOf<D>(h: seq<Happening<D>>): seq<Visit<D>> {
    if h == [] then []
    else TestsOf(h[..|h| - 1]) + if h[|h| - 1].Tested? then [h[|h| - 1].visit] else []
  }

  function RepliesOf<D>(h: seq<Happening<D>>): seq<Received> {
    if h == [] then []
    else RepliesOf(h[..|h| - 1]) + if h[|h| - 1].Heard? then [h[|h| - 1].received] else []
  }

  function LastTest<D>(h: seq<Happening<D>>): Option<Visit<D>> {
    if h == [] then None
    else if h[|h| - 1].Tested? then Some(h[|h| - 1].visit)
    else LastTest(h[..|h| - 1])
  }

  /** What the reply handler of the step tested last, for that direction and type of reply, makes of the data. */
  function AfterHearing<D>(steps: seq<Step<D>>, last: Option<Visit<D>>, d: D, reply: Reply): D {
    if last.None? || last.value.index >= |steps| then d
    else match steps[last.value.index]
      case LocalStep(_, _) => d
      case ParticipantStep(actionReplyHandlers, compensationReplyHandlers, _, _) =>
        if !last.value.compensating then
          if reply.replyType in actionReplyHandlers then actionReplyHandlers[reply.replyType](d, reply.payload) else d
        else if reply.replyType in compensationReplyHandlers then
          compensationReplyHandlers[reply.replyType](d, reply.payload)
        else d
  }

  /** The data after all that happened to a saga that began with `d`. */
  function DataAfter<D>(steps: seq<Step<D>>, d: D, h: seq<Happening<D>>): D {
    if h == [] then d
    else match h[|h| - 1]
      case Tested(v) => LeftBy(steps, v)
      case Heard(r) =>
        AfterHearing(steps, LastTest(h[..|h| - 1]), DataAfter(steps, d, h[..|h| - 1]), r.message.reply)
  }

  /** Every test is made on the data as it then is, and replies are heard by a step that sent a command. */
  ghost predicate Flows<D>(steps: seq<Step<D>>, d: D, h: seq<Happening<D>>) {
    h == [] ||
    var before := h[..|h| - 1];
    && Flows(steps, d, before)
    && match h[|h| - 1]
       case Tested(v) => v.data == DataAfter(steps, d, before)
       case Heard(_) => LastTest(before).Some? && CommandOf(steps, LastTest(before).value).Some?
  }

  function Tests<D>(vs: seq<Visit<D>>): seq<Happening<D>> {
    if vs == [] then [] else [Tested(vs[0])] + Tests(vs[1..])
  }

  /** A history of an instance that began with `d`. */
  ghost predicate Tells<D>(steps: seq<Step<D>>, d: D, h: seq<Happening<D>>, x: Instance<D>) {
    && Flows(steps, d, h)
    && TestsOf(h) == x.visits && RepliesOf(h) == x.received
    && DataAfter(steps, d, h) == x.data
    && (x.pos.At? ==> LastTest(h).Some? && WaitsFor(steps, LastTest(h).value, x.pos))
  }

  lemma OneTestMore<D>(steps: seq<Step<D>>, d: D, h: seq<Happening<D>>, v: Visit<D>)
    requires Flows(steps, d, h) && v.data == DataAfter(steps, d, h)
    ensures var more := h + [Tested(v)];
      && Flows(steps, d, more) && DataAfter(steps, d, more) == LeftBy(steps, v) && LastTest(more) == Some(v)
      && TestsOf(more) == TestsOf(h) + [v] && RepliesOf(more) == RepliesOf(h)
  {
    hide LeftBy, CommandOf, AfterHearing;
    assert (h + [Tested(v)])[..|h|] == h;
  }

  lemma OneReplyMore<D>(steps: seq<Step<D>>, d: D, h: seq<Happening<D>>, r: Received)
    requires Flows(steps, d, h) && LastTest(h).Some? && CommandOf(steps, LastTest(h).value).Some?
    ensures var more := h + [Heard(r)];
      && Flows(steps, d, more)
      && DataAfter(steps, d, more) == AfterHearing(steps, LastTest(h), DataAfter(steps, d, h), r.message.reply)
      && LastTest(more) == LastTest(h)
      && TestsOf(more) == TestsOf(h) && RepliesOf(more) == RepliesOf(h) + [r]
  {
    hide LeftBy, CommandOf, AfterHearing;
    assert (h + [Heard(r)])[..|h|] == h;
  }

  lemma {:induction false} TestsMore<D>(steps: seq<Step<D>>, d: D, h: seq<Happening<D>>, vs: seq<Visit<D>>, out: D)
    requires Flows(steps, d, h) && Chained(steps, DataAfter(steps, d, h), vs, out)
    ensures var more := h + Tests(vs);
      && Flows(steps, d, more) && DataAfter(steps, d, more) == out
      && LastTest(more) == (if vs == [] then LastTest(h) else Some(vs[|vs| - 1]))
      && TestsOf(more) == TestsOf(h) + vs && RepliesOf(more) == RepliesOf(h)
    decreases |vs|
  {
    hide Flows, DataAfter, LeftBy, LastTest, TestsOf, RepliesOf;
    if vs == [] {
      assert h + Tests(vs) == h;
    } else {
      OneTestMore(steps, d, h, vs[0]);
      var h1 := h + [Tested(vs[0])];
      TestsMore(steps, d, h1, vs[1..], out);
      assert h1 + Tests(vs[1..]) == h + Tests(vs);
      assert TestsOf(h) + [vs[0]] + vs[1..] == TestsOf(h) + vs;
    }
  }

  lemma ReactionTells<D>(steps: seq<Step<D>>, next: nat, d: D, h: seq<Happening<D>>, x: Instance<D>, m: ReplyMessage)
    returns (more: seq<Happening<D>>)
    requires CanWait(steps, x.pos) && !x.pos.Created? && Tells(steps, d, h, x)
    ensures Tells(steps, d, more, React(steps, next, x, m).instance)
  {
    hide Flows, DataAfter, LastTest, TestsOf, RepliesOf, Chained, Commands, CommandOf, OnReply;
    if x.pos.Done? {
      return h;
    }
    var i, compensating := x.pos.index, x.pos.compensating;
    var data := AfterReply(steps[i], compensating, x.data, m.reply);
    RepliesAreEffective(steps, i, compensating, x.data, m.reply);
    var b := OnReply(steps, i, compensating, x.data, m.reply);
    var r := Received(m, b.Some?);
    OneReplyMore(steps, d, h, r);
    more := h + [Heard(r)];
    if b.Some? {
      TestsMore(steps, d, more, b.value.visits, b.value.data);
      more := more + Tests(b.value.visits);
    }
  }

  lemma BeginningTells<D>(steps: seq<Step<D>>, next: nat, id: nat, d: D, claim: Option<bool>)
    returns (h: seq<Happening<D>>)
    requires !Begin(steps, next, id, d, claim).instance.pos.Created?
    ensures Tells(steps, d, h, Begin(steps, next, id, d, claim).instance)
  {
    ForwardIsEffective(steps, 0, d);
    var b := Forward(steps, 0, d);
    assert Flows(steps, d, []) && TestsOf<D>([]) == [] && RepliesOf<D>([]) == [] && [] + b.visits == b.visits;
    TestsMore(steps, d, [], b.visits, b.data);
    h := [] + Tests(b.visits);
    hide Forward, FirstThrow, Chained, Commands, CommandOf, LeftBy, Flows, DataAfter, TestsOf, RepliesOf, LastTest;
  }

  /**
   A reply that reaches a waiting saga, accepted or not, first runs the handler that its step
   has for this type of reply: one of the compensation's while compensating, one of the
   action's otherwise, and none when there is none. What follows is done on what that left.
   */
  lemma RepliesRunTheirHandlerFirst<D>(steps: seq<Step<D>>, events: seq<Event<D>>, m: ReplyMessage)
    requires m.sagaId in Run(steps, events).instances && Run(steps, events).instances[m.sagaId].pos.At?
    ensures var x := Run(steps, events).instances[m.sagaId];
      && x.pos.index < |steps| && steps[x.pos.index].ParticipantStep?
      && var step := steps[x.pos.index];
      var handlers := if x.pos.compensating then step.compensationReplyHandlers else step.actionReplyHandlers;
      var heard :=
        if m.reply.replyType in handlers then handlers[m.reply.replyType](x.data, m.reply.payload) else x.data;
      var after := Run(steps, events + [ReplyArrives(m)]);
      && m.sagaId in after.instances
      && var y := after.instances[m.sagaId];
      && x.visits <= y.visits
      && if y.visits == x.visits then y.data == heard else y.visits[|x.visits|].data == heard
  {
    var x := Run(steps, events).instances[m.sagaId];
    assert (events + [ReplyArrives(m)])[..|events|] == events;
    var data := AfterReply(steps[x.pos.index], x.pos.compensating, x.data, m.reply);
    RepliesAreEffective(steps, x.pos.index, x.pos.compensating, x.data, m.reply);
    var b := OnReply(steps, x.pos.index, x.pos.compensating, x.data, m.reply);
    assert b.Some? && b.value.visits == [] ==> b.value.data == data;
    assert b.Some? && b.value.visits != [] ==> b.value.visits[0].data == data;
    hide OnReply, Chained, WaitsFor, Commands, Run;
  }

  /**
   In every run, a saga that has begun has a history from the data it was created with:
   it makes its tests and hears its replies in order, each test on just the data that the
   steps and replies before it left, and its data now is what all of them left.
   */
  lemma {:induction false} EveryDataHasAHistory<D>(steps: seq<Step<D>>, events: seq<Event<D>>, id: nat)
    returns (created: nat, h: seq<Happening<D>>)
    requires id in Run(steps, events).instances && !Run(steps, events).instances[id].pos.Created?
    ensures created < |events| && events[created].NewSaga? && events[created].id == id
    ensures id !in Run(steps, events[..created]).instances
    ensures Tells(steps, events[created].data, h, Run(steps, events).instances[id])
  {
    var n := |events| - 1;
    var s := Run(steps, events[..n]);
    hide Tells, React, Begin;
    if id !in s.instances {
      created := n;
      h := BeginningTells(steps, |s.sent|, id, events[n].data, events[n].claim);
    } else {
      created, h := EveryDataHasAHistory(steps, events[..n], id);
      assert events[..n][..created] == events[..created];
      if events[n].ReplyArrives? && events[n].message.sagaId == id {
        h := ReactionTells(steps, |s.sent|, events[created].data, h, s.instances[id], events[n].message);
      }
    }
  }
}
