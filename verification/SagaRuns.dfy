/**
 What holds of every run of a saga manager: any step list, any data, any number
 of sagas, any replies in any order.
 */
module SagaRuns {
  import opened Options
  import opened SagaSteps
  import opened SagaSystem

  datatype Event<+D> =
    | NewSaga(id: nat, data: D, claim: Option<bool>)
    | ReplyArrives(message: ReplyMessage)

  /** The system after the events; ids that are taken are not given again. */
  function Run<D>(steps: seq<Step<D>>, events: seq<Event<D>>): (s: System<D>)
    ensures AllCanWait(steps, s)
  {
    if events == [] then System(map[], [], [])
    else
      var s := Run(steps, events[..|events| - 1]);
      match events[|events| - 1]
      case NewSaga(id, d, claim) =>
        if id in s.instances then s
        else
          BeginEnds(steps, |s.sent|, id, d, claim);
          Create(steps, s, id, d, claim)
      case ReplyArrives(m) =>
        if m.sagaId in s.instances then
          ReactEnds(steps, |s.sent|, s.instances[m.sagaId], m);
          Handle(steps, s, m)
        else s
  }

  // ---------- the tests a saga makes ----------

  /** The tests of steps `i`, `i + 1` and so on, each with its true outcome. */
  ghost predicate Up<D>(steps: seq<Step<D>>, vs: seq<Visit<D>>, i: nat) {
    i + |vs| <= |steps| &&
    forall k :: 0 <= k < |vs| ==>
      !vs[k].compensating && vs[k].index == i + k && vs[k].effect == HasAction(steps[i + k], vs[k].data)
  }

  /** The tests of steps `i - 1`, `i - 2` and so on, each with its true outcome. */
  ghost predicate Down<D>(steps: seq<Step<D>>, vs: seq<Visit<D>>, i: nat) {
    |vs| <= i <= |steps| &&
    forall k :: 0 <= k < |vs| ==>
      vs[k].compensating && vs[k].index == i - 1 - k && vs[k].effect == Compensates(steps[i - 1 - k], vs[k].data)
  }

  predicate Threw<D>(steps: seq<Step<D>>, v: Visit<D>) {
    !v.compensating && v.index < |steps| && steps[v.index].LocalStep? &&
    steps[v.index].handler(v.data).exception.Some?
  }

  ghost predicate NoneThrew<D>(steps: seq<Step<D>>, vs: seq<Visit<D>>) {
    forall k :: 0 <= k < |vs| ==> !Threw(steps, vs[k])
  }

  /** A burst that undoes the steps below `i`: it tests each once, and stops where one takes effect remotely. */
  ghost predicate Falls<D>(steps: seq<Step<D>>, b: Burst<D>, i: nat) {
    var n := |b.visits|;
    && Down(steps, b.visits, i)
    && match b.pos
       case Created => false
       case Done(compensating) => compensating && n == i
       case At(j, compensating) => compensating && n == i - j > 0 && b.visits[n - 1].effect
  }

  /**
   A path from step `i` up: without a turn it tests each step once, and stops where
   one takes effect remotely; with one, it turns at step `f`, which took effect, and falls.
   */
  ghost predicate Path<D>(steps: seq<Step<D>>, b: Burst<D>, i: nat, f: nat) {
    var n := |b.visits|;
    if b.pos.Created? then false
    else if b.pos.compensating then
      && i <= f < |steps| && f - i < n
      && Up(steps, b.visits[..f - i + 1], i) && b.visits[f - i].effect
      && Falls(steps, b.(visits := b.visits[f - i + 1..]), f)
    else
      && Up(steps, b.visits, i)
      && if b.pos.Done? then n == |steps| - i
         else n == b.pos.index + 1 - i > 0 && b.visits[n - 1].effect
  }

  /** A forward burst: it turns exactly where a local step throws. */
  ghost predicate Climbs<D>(steps: seq<Step<D>>, b: Burst<D>, i: nat, f: nat) {
    && Path(steps, b, i, f)
    && if b.pos.compensating then Threw(steps, b.visits[f - i]) else NoneThrew(steps, b.visits)
  }

  lemma UpAndUp<D>(steps: seq<Step<D>>, a: seq<Visit<D>>, b: seq<Visit<D>>, i: nat)
    requires Up(steps, a, i) && Up(steps, b, i + |a|)
    ensures Up(steps, a + b, i)
  {
    assert forall k :: |a| <= k < |a + b| ==> (a + b)[k] == b[k - |a|];
  }

  lemma DownAndDown<D>(steps: seq<Step<D>>, a: seq<Visit<D>>, b: seq<Visit<D>>, i: nat)
    requires Down(steps, a, i) && Down(steps, b, i - |a|)
    ensures Down(steps, a + b, i)
  {
    assert forall k :: |a| <= k < |a + b| ==> (a + b)[k] == b[k - |a|];
  }

  lemma NoneThrewIn<D>(steps: seq<Step<D>>, a: seq<Visit<D>>, b: seq<Visit<D>>)
    ensures NoneThrew(steps, a + b) <==> NoneThrew(steps, a) && NoneThrew(steps, b)
  {
    if NoneThrew(steps, a + b) {
      assert forall k :: 0 <= k < |a| ==> a[k] == (a + b)[k];
      assert forall k :: 0 <= k < |b| ==> b[k] == (a + b)[|a| + k];
    }
  }

  lemma FallsFurther<D>(steps: seq<Step<D>>, v: Visit<D>, b: Burst<D>, i: nat)
    requires 0 < i <= |steps| && Falls(steps, b, i - 1)
    requires v.compensating && v.index == i - 1 && v.effect == Compensates(steps[i - 1], v.data)
    ensures Falls(steps, After([v], b), i)
  {
    DownAndDown(steps, [v], b.visits, i);
  }

  lemma {:induction false} BackwardFalls<D>(steps: seq<Step<D>>, i: nat, d: D)
    requires i <= |steps|
    ensures Falls(steps, Backward(steps, i, d), i)
    decreases i
  {
    if i > 0 {
      var step := steps[i - 1];
      if !(step.ParticipantStep? && Holds(step.compensation, d)) {
        var rest := if step.LocalStep? && step.undo.Some? then step.undo.value(d) else d;
        BackwardFalls(steps, i - 1, rest);
        FallsFurther(steps, Visit(i - 1, true, d, Compensates(step, d)), Backward(steps, i - 1, rest), i);
      }
    }
  }

  /** A path after a climb is a path from where the climb began. */
  lemma PathAfter<D>(steps: seq<Step<D>>, vs: seq<Visit<D>>, b: Burst<D>, i: nat, f: nat)
    requires Up(steps, vs, i) && Path(steps, b, i + |vs|, f)
    ensures Path(steps, After(vs, b), i, f)
    ensures b.pos.compensating ==> After(vs, b).visits[f - i] == b.visits[f - i - |vs|]
  {
    var whole := vs + b.visits;
    if b.pos.compensating {
      var up := b.visits[..f - i - |vs| + 1];
      assert whole[..f - i + 1] == vs + up;
      assert whole[f - i + 1..] == b.visits[f - i - |vs| + 1..];
      UpAndUp(steps, vs, up, i);
    } else {
      UpAndUp(steps, vs, b.visits, i);
    }
  }

  lemma ClimbsFurther<D>(steps: seq<Step<D>>, vs: seq<Visit<D>>, b: Burst<D>, i: nat, f: nat)
    requires Up(steps, vs, i) && NoneThrew(steps, vs) && Climbs(steps, b, i + |vs|, f)
    ensures Climbs(steps, After(vs, b), i, f)
    ensures b.pos.compensating <==> !NoneThrew(steps, vs + b.visits)
  {
    PathAfter(steps, vs, b, i, f);
    NoneThrewIn(steps, vs, b.visits);
    if b.pos.compensating {
      assert Threw(steps, b.visits[f - i - |vs|]);
    }
  }

  lemma TurnsHere<D>(steps: seq<Step<D>>, v: Visit<D>, b: Burst<D>, i: nat)
    requires i < |steps| && Falls(steps, b, i)
    requires !v.compensating && v.index == i && v.effect && HasAction(steps[i], v.data) && Threw(steps, v)
    ensures Climbs(steps, After([v], b), i, i)
  {
    var vs := [v] + b.visits;
    assert vs[..1] == [v] && vs[1..] == b.visits;
  }

  /** A burst that tests no step, or one step that asks its participant. */
  lemma StopsHere<D>(steps: seq<Step<D>>, i: nat, d: D)
    requires i <= |steps| && (i < |steps| ==> steps[i].ParticipantStep? && Holds(steps[i].action, d))
    ensures Climbs(steps, Forward(steps, i, d), i, i)
  {
  }

  lemma PassesHere<D>(steps: seq<Step<D>>, v: Visit<D>, i: nat)
    requires i < |steps| && v == Visit(i, false, v.data, HasAction(steps[i], v.data)) && !Threw(steps, v)
    ensures Up(steps, [v], i) && NoneThrew(steps, [v])
  {
  }

  /** A forward burst turns at most once, exactly where a local step throws. */
  lemma {:induction false} ForwardClimbs<D>(steps: seq<Step<D>>, i: nat, d: D) returns (f: nat)
    requires i <= |steps|
    ensures Climbs(steps, Forward(steps, i, d), i, f)
    decreases |steps| - i
  {
    hide Climbs, Up, NoneThrew, Falls, Backward;
    f := i;
    if i == |steps| || (steps[i].ParticipantStep? && Holds(steps[i].action, d)) {
      StopsHere(steps, i, d);
    } else {
      var v := Visit(i, false, d, HasAction(steps[i], d));
      if Threw(steps, v) {
        var data := steps[i].handler(d).data;
        BackwardFalls(steps, i, data);
        TurnsHere(steps, v, Backward(steps, i, data), i);
      } else {
        var data := if steps[i].LocalStep? then steps[i].handler(d).data else d;
        PassesHere(steps, v, i);
        f := ForwardClimbs(steps, i + 1, data);
        ClimbsFurther(steps, [v], Forward(steps, i + 1, data), i, f);
      }
    }
  }

  // ---------- whole runs of one instance ----------

  function Story<D>(x: Instance<D>): Burst<D> {
    Burst(x.pos, x.data, None, x.visits)
  }

  /** The step at which a compensating instance turned around. */
  function TurnOf<D>(x: Instance<D>): nat {
    var n := |x.visits| + if x.pos.At? then x.pos.index else 0;
    if n == 0 then 0 else (n - 1) / 2
  }

  predicate RefusedBy(r: Received) {
    r.accepted && r.message.reply.outcome == Failure
  }

  ghost predicate Failed<D>(steps: seq<Step<D>>, x: Instance<D>) {
    (exists k :: 0 <= k < |x.received| && RefusedBy(x.received[k])) || !NoneThrew(steps, x.visits)
  }

  function Targets(rs: seq<Received>): seq<Destination> {
    if rs == [] then []
    else
      var last := rs[|rs| - 1].message.locked;
      Targets(rs[..|rs| - 1]) + if last.Some? then [last.value] else []
  }

  /** The history of an instance. */
  ghost predicate InstanceOk<D>(steps: seq<Step<D>>, x: Instance<D>) {
    if x.pos.Created? then
      x.visits == [] && x.destinations == Targets(x.received)
    else
      && CanWait(steps, x.pos)
      && Path(steps, Story(x), 0, TurnOf(x))
      && (x.pos.compensating <==> Failed(steps, x))
      && (x.pos.At? ==> x.destinations == Targets(x.received))
  }

  /** Turning around after a failure. */
  lemma TurnsAround<D>(steps: seq<Step<D>>, vs: seq<Visit<D>>, b: Burst<D>, f: nat)
    requires Falls(steps, b, f) && |vs| == f + 1 <= |steps| && Up(steps, vs, 0) && vs[f].effect
    ensures Path(steps, After(vs, b), 0, f)
  {
    var whole := vs + b.visits;
    assert whole[..f + 1] == vs && whole[f + 1..] == b.visits;
  }

  /** Going on downwards. */
  lemma GoesOnDown<D>(steps: seq<Step<D>>, before: Burst<D>, b: Burst<D>, f: nat)
    requires before.pos.At? && before.pos.compensating && Path(steps, before, 0, f)
    requires Falls(steps, b, before.pos.index)
    ensures Path(steps, After(before.visits, b), 0, f)
  {
    var whole := before.visits + b.visits;
    var down := before.visits[f + 1..];
    assert whole[..f + 1] == before.visits[..f + 1];
    assert whole[f + 1..] == down + b.visits;
    DownAndDown(steps, down, b.visits, f);
  }

  lemma MoreReceived(rs: seq<Received>, r: Received)
    ensures Targets(rs + [r]) ==
      Targets(rs) + if r.message.locked.Some? then [r.message.locked.value] else []
  {
    assert (rs + [r])[..|rs|] == rs;
  }

  lemma FailedIn<D>(steps: seq<Step<D>>, x: Instance<D>, r: Received, vs: seq<Visit<D>>, y: Instance<D>)
    requires y.received == x.received + [r] && y.visits == x.visits + vs
    ensures Failed(steps, y) <==> Failed(steps, x) || RefusedBy(r) || !NoneThrew(steps, vs)
  {
    NoneThrewIn(steps, x.visits, vs);
    assert y.received[|x.received|] == r;
    assert forall k :: 0 <= k < |x.received| ==> y.received[k] == x.received[k];
  }

  /** The turn of an instance can be read off the number of tests it made. */
  lemma TurnIs<D>(steps: seq<Step<D>>, x: Instance<D>, f: nat)
    requires Path(steps, Story(x), 0, f) && x.pos.compensating
    ensures TurnOf(x) == f
  {
  }

  /** An accepted reply and the burst after it extend the history. */
  lemma BurstKeepsHistory<D>(steps: seq<Step<D>>, next: nat, x: Instance<D>, m: ReplyMessage, b: Burst<D>, f: nat)
    requires InstanceOk(steps, x) && x.pos.At? && Ends(steps, b)
    requires Path(steps, After(x.visits, b), 0, f)
    requires b.pos.compensating <==>
      Failed(steps, x) || RefusedBy(Received(m, true)) || !NoneThrew(steps, b.visits)
    ensures InstanceOk(steps,
      Settle(m.sagaId, next, Lock(x, m).(received := x.received + [Received(m, true)]), b).instance)
  {
    var y := Settle(m.sagaId, next, Lock(x, m).(received := x.received + [Received(m, true)]), b).instance;
    assert Path(steps, Story(y), 0, f);
    if y.pos.compensating {
      TurnIs(steps, y, f);
    }
    FailedIn(steps, x, Received(m, true), b.visits, y);
    MoreReceived(x.received, Received(m, true));
  }

  lemma UpFits<D>(steps: seq<Step<D>>, vs: seq<Visit<D>>)
    requires Up(steps, vs, 0)
    ensures |vs| <= |steps|
  {
  }

  lemma ForwardKeepsHistory<D>(steps: seq<Step<D>>, next: nat, x: Instance<D>, m: ReplyMessage, data: D)
    requires InstanceOk(steps, x) && x.pos.At? && !x.pos.compensating && m.reply.outcome == Success
    ensures InstanceOk(steps, Settle(m.sagaId, next, Lock(x, m).(received := x.received + [Received(m, true)]),
      Forward(steps, x.pos.index + 1, data)).instance)
  {
    hide Forward, Settle, Lock, Up, Falls, Threw, CanWait, Targets;
    assert !Failed(steps, x) && Path(steps, Story(x), 0, TurnOf(x)) && |x.visits| == x.pos.index + 1;
    UpFits(steps, x.visits);
    hide InstanceOk, Failed, HasAction;
    var b := Forward(steps, x.pos.index + 1, data);
    ForwardEnds(steps, x.pos.index + 1, data);
    var f := ForwardClimbs(steps, x.pos.index + 1, data);
    ClimbsFurther(steps, x.visits, b, 0, f);
    NoneThrewIn(steps, x.visits, b.visits);
    BurstKeepsHistory(steps, next, x, m, b, f);
  }

  lemma BackwardKeepsHistory<D>(steps: seq<Step<D>>, next: nat, x: Instance<D>, m: ReplyMessage, data: D)
    requires InstanceOk(steps, x) && x.pos.At? && x.pos.compensating
    ensures InstanceOk(steps, Settle(m.sagaId, next, Lock(x, m).(received := x.received + [Received(m, true)]),
      Backward(steps, x.pos.index, data)).instance)
  {
    var b := Backward(steps, x.pos.index, data);
    BackwardEnds(steps, x.pos.index, data);
    BackwardFalls(steps, x.pos.index, data);
    hide Backward;
    GoesOnDown(steps, Story(x), b, TurnOf(x));
    BurstKeepsHistory(steps, next, x, m, b, TurnOf(x));
  }

  lemma SuccessKeepsHistory<D>(steps: seq<Step<D>>, next: nat, x: Instance<D>, m: ReplyMessage)
    requires InstanceOk(steps, x) && x.pos.At? && m.reply.outcome == Success
    ensures InstanceOk(steps, React(steps, next, x, m).instance)
  {
    var data := AfterReply(steps[x.pos.index], x.pos.compensating, x.data, m.reply);
    hide InstanceOk;
    if x.pos.compensating {
      BackwardKeepsHistory(steps, next, x, m, data);
    } else {
      ForwardKeepsHistory(steps, next, x, m, data);
    }
  }

  /** A reply that is rejected is received, and may lock a target; nothing else of the history changes. */
  lemma RejectionKeepsHistory<D>(steps: seq<Step<D>>, x: Instance<D>, m: ReplyMessage, data: D)
    requires InstanceOk(steps, x) && !x.pos.Done?
    ensures InstanceOk(steps, Lock(x, m).(received := x.received + [Received(m, false)], data := data))
  {
    hide Path, CanWait;
    var y := Lock(x, m).(received := x.received + [Received(m, false)], data := data);
    FailedIn(steps, x, Received(m, false), [], y);
    MoreReceived(x.received, Received(m, false));
    hide Failed, Targets;
    if !x.pos.Created? {
      StoryWithoutData(steps, x, y);
    }
  }

  lemma StoryWithoutData<D>(steps: seq<Step<D>>, x: Instance<D>, y: Instance<D>)
    requires Path(steps, Story(x), 0, TurnOf(x)) && x.pos == y.pos && x.visits == y.visits
    ensures Path(steps, Story(y), 0, TurnOf(y))
  {
    hide Up, Down;
  }

  lemma FailureKeepsHistory<D>(steps: seq<Step<D>>, next: nat, x: Instance<D>, m: ReplyMessage)
    requires InstanceOk(steps, x) && x.pos.At? && m.reply.outcome == Failure
    ensures InstanceOk(steps, React(steps, next, x, m).instance)
  {
    var i := x.pos.index;
    var data := AfterReply(steps[i], x.pos.compensating, x.data, m.reply);
    if x.pos.compensating {
      hide InstanceOk;
      RejectionKeepsHistory(steps, x, m, data);
    } else {
      TurnKeepsHistory(steps, next, x, m, data);
      hide InstanceOk;
    }
  }

  lemma TurnKeepsHistory<D>(steps: seq<Step<D>>, next: nat, x: Instance<D>, m: ReplyMessage, data: D)
    requires InstanceOk(steps, x) && x.pos.At? && !x.pos.compensating && m.reply.outcome == Failure
    ensures InstanceOk(steps, Settle(m.sagaId, next, Lock(x, m).(received := x.received + [Received(m, true)]),
      Backward(steps, x.pos.index, data)).instance)
  {
    var i := x.pos.index;
    var b := Backward(steps, i, data);
    BackwardEnds(steps, i, data);
    BackwardFalls(steps, i, data);
    hide Backward, Settle, Lock, HasAction, Compensates, Threw, CanWait;
    TurnsAround(steps, x.visits, b, i);
    BurstKeepsHistory(steps, next, x, m, b, i);
  }

  lemma ReplyKeepsHistory<D>(steps: seq<Step<D>>, next: nat, x: Instance<D>, m: ReplyMessage)
    requires InstanceOk(steps, x)
    ensures InstanceOk(steps, React(steps, next, x, m).instance)
  {
    if x.pos.At? {
      hide InstanceOk, React;
      if m.reply.outcome == Success {
        SuccessKeepsHistory(steps, next, x, m);
      } else {
        FailureKeepsHistory(steps, next, x, m);
      }
    } else if x.pos.Created? {
      hide InstanceOk;
      RejectionKeepsHistory(steps, x, m, x.data);
    } else {
      hide Failed, CanWait, Targets;
      StoryWithoutData(steps, x, Lock(x, m));
    }
  }

  lemma BurstMakesHistory<D>(steps: seq<Step<D>>, next: nat, id: nat, d: D, b: Burst<D>, f: nat)
    requires Ends(steps, b) && Climbs(steps, b, 0, f)
    ensures InstanceOk(steps, Settle(id, next, Unbegun(d), b).instance)
  {
    hide Path, Threw, CanWait;
    var y := Settle(id, next, Unbegun(d), b).instance;
    assert y.visits == b.visits;
    ThrowsToTurn(steps, b, f);
    hide Climbs, NoneThrew;
    StoryIs(steps, b, y, f);
    if b.pos.compensating {
      TurnIs(steps, y, f);
    }
  }

  lemma ThrowsToTurn<D>(steps: seq<Step<D>>, b: Burst<D>, f: nat)
    requires Climbs(steps, b, 0, f)
    ensures b.pos.compensating <==> !NoneThrew(steps, b.visits)
  {
  }

  /** A path depends on the position and the tests alone. */
  lemma StoryIs<D>(steps: seq<Step<D>>, b: Burst<D>, y: Instance<D>, f: nat)
    requires Path(steps, b, 0, f) && b.pos == y.pos && b.visits == y.visits
    ensures Path(steps, Story(y), 0, if y.pos.compensating then f else TurnOf(y))
  {
    hide Up, Down;
  }

  lemma BeginMakesHistory<D>(steps: seq<Step<D>>, next: nat, id: nat, d: D, claim: Option<bool>)
    ensures InstanceOk(steps, Begin(steps, next, id, d, claim).instance)
  {
    ForwardEnds(steps, 0, d);
    var f := ForwardClimbs(steps, 0, d);
    BurstMakesHistory(steps, next, id, d, Forward(steps, 0, d), f);
  }

  lemma {:induction false} EveryInstanceHasAHistory<D>(steps: seq<Step<D>>, events: seq<Event<D>>, id: nat)
    requires id in Run(steps, events).instances
    ensures InstanceOk(steps, Run(steps, events).instances[id])
  {
    var n := |events| - 1;
    var s := Run(steps, events[..n]);
    if id in s.instances {
      EveryInstanceHasAHistory(steps, events[..n], id);
    }
    hide InstanceOk, React, Begin;
    match events[n] {
      case NewSaga(id', d, claim) =>
        BeginMakesHistory(steps, |s.sent|, id', d, claim);
      case ReplyArrives(m) =>
        if m.sagaId == id {
          ReplyKeepsHistory(steps, |s.sent|, s.instances[id], m);
        }
    }
  }

  // ---------- what an instance sends ----------

  function UnlocksOf(sent: seq<Sent>, id: nat): seq<Destination> {
    if sent == [] then []
    else
      var last := sent[|sent| - 1];
      UnlocksOf(sent[..|sent| - 1], id) + if last.UnlockSent? && last.sagaId == id then [last.target] else []
  }

  /** The end hooks called for an instance: true for rolled back, false for completed successfully. */
  function EndHooksOf<D>(hooks: seq<Hook<D>>, id: nat): seq<bool> {
    if hooks == [] then []
    else
      var last := hooks[|hooks| - 1];
      EndHooksOf(hooks[..|hooks| - 1], id) + if last.Starting? || last.sagaId != id then [] else [last.RolledBack?]
  }

  lemma {:induction false} UnlocksOfMore(a: seq<Sent>, b: seq<Sent>, id: nat)
    ensures UnlocksOf(a + b, id) == UnlocksOf(a, id) + UnlocksOf(b, id)
  {
    if b == [] {
      assert a + b == a;
    } else {
      assert (a + b)[..|a + b| - 1] == a + b[..|b| - 1];
      UnlocksOfMore(a, b[..|b| - 1], id);
    }
  }

  lemma {:induction false} UnlocksOfUnlocks(targets: seq<Destination>, owner: nat, id: nat)
    ensures UnlocksOf(UnlocksFor(owner, targets), id) == if owner == id then targets else []
  {
    if targets != [] {
      var n := |targets| - 1;
      assert UnlocksFor(owner, targets)[..n] == UnlocksFor(owner, targets[..n]);
      UnlocksOfUnlocks(targets[..n], owner, id);
      assert targets == targets[..n] + [targets[n]];
    }
  }

  lemma {:induction false} EndHooksOfMore<D>(a: seq<Hook<D>>, b: seq<Hook<D>>, id: nat)
    ensures EndHooksOf(a + b, id) == EndHooksOf(a, id) + EndHooksOf(b, id)
  {
    if b == [] {
      assert a + b == a;
    } else {
      assert (a + b)[..|a + b| - 1] == a + b[..|b| - 1];
      EndHooksOfMore(a, b[..|b| - 1], id);
    }
  }

  lemma UnlocksOfOne(m: Sent, id: nat)
    ensures UnlocksOf([m], id) == if m.UnlockSent? && m.sagaId == id then [m.target] else []
  {
    assert [m][..0] == [] && UnlocksOf([], id) == [];
  }

  lemma EndHooksOfOne<D>(h: Hook<D>, id: nat)
    ensures EndHooksOf([h], id) == if h.Starting? || h.sagaId != id then [] else [h.RolledBack?]
  {
    assert [h][..0] == [] && EndHooksOf<D>([], id) == [];
  }

  /** What a burst sends and calls, as seen by instance `id`. */
  lemma SettleSends<D>(owner: nat, b: Burst<D>, targets: seq<Destination>, id: nat)
    ensures UnlocksOf(SentBy(owner, b, targets), id) == if b.pos.Done? && owner == id then targets else []
    ensures EndHooksOf(HooksBy(owner, b), id) == if b.pos.Done? && owner == id then [b.pos.compensating] else []
  {
    if b.command.Some? {
      UnlocksOfOne(CommandSent(owner, b.command.value), id);
    }
    UnlocksOfMore(if b.command.Some? then [CommandSent(owner, b.command.value)] else [],
      if b.pos.Done? then UnlocksFor(owner, targets) else [], id);
    UnlocksOfUnlocks(targets, owner, id);
    if b.pos.Done? {
      EndHooksOfOne(HooksBy(owner, b)[0], id);
    }
  }

  /** Before the end nothing is unlocked and no end hook called; at the end every target locked by a reply, in order. */
  ghost predicate SendsOk<D>(s: System<D>, id: nat) {
    if id in s.instances && s.instances[id].pos.Done? then
      && UnlocksOf(s.sent, id) == Targets(s.instances[id].received)
      && EndHooksOf(s.hooks, id) == [s.instances[id].pos.compensating]
    else
      UnlocksOf(s.sent, id) == [] && EndHooksOf(s.hooks, id) == []
  }

  lemma ApplyKeepsSends<D>(s: System<D>, owner: nat, r: Reaction<D>, id: nat)
    requires SendsOk(s, id)
    requires owner in s.instances && s.instances[owner].pos.Done? ==>
      r.instance.pos == s.instances[owner].pos && r.instance.received == s.instances[owner].received
    requires var ends := owner == id && r.instance.pos.Done? && !(id in s.instances && s.instances[id].pos.Done?);
      && UnlocksOf(r.sent, id) == (if ends then Targets(r.instance.received) else [])
      && EndHooksOf(r.hooks, id) == (if ends then [r.instance.pos.compensating] else [])
    ensures SendsOk(Apply(s, owner, r), id)
  {
    UnlocksOfMore(s.sent, r.sent, id);
    EndHooksOfMore(s.hooks, r.hooks, id);
  }

  lemma {:induction false} EveryInstanceEndsOnce<D>(steps: seq<Step<D>>, events: seq<Event<D>>, id: nat)
    ensures SendsOk(Run(steps, events), id)
  {
    if events != [] {
      var n := |events| - 1;
      var s := Run(steps, events[..n]);
      EveryInstanceEndsOnce(steps, events[..n], id);
      match events[n] {
        case NewSaga(owner, d, claim) =>
          if owner !in s.instances {
            CreationKeepsSends(steps, s, owner, d, claim, id);
          }
        case ReplyArrives(m) =>
          if m.sagaId in s.instances {
            EveryInstanceHasAHistory(steps, events[..n], m.sagaId);
            ReactionKeepsSends(steps, s, m, id);
          }
      }
    }
  }

  lemma CreationKeepsSends<D>(steps: seq<Step<D>>, s: System<D>, owner: nat, d: D, claim: Option<bool>, id: nat)
    requires SendsOk(s, id) && owner !in s.instances
    ensures SendsOk(Create(steps, s, owner, d, claim), id)
  {
    EndHooksOfOne<D>(Starting(owner), id);
    ApplyKeepsSends(s, owner, Reaction(Unbegun(d), [], [Starting(owner)], None), id);
    var r := Begin(steps, |s.sent|, owner, d, claim);
    if r.rejection.None? {
      SettleSends(owner, Forward(steps, 0, d), [], id);
    }
    ApplyKeepsSends(Save(s, owner, d), owner, r, id);
  }

  lemma ReactionKeepsSends<D>(steps: seq<Step<D>>, s: System<D>, m: ReplyMessage, id: nat)
    requires AllCanWait(steps, s) && m.sagaId in s.instances && InstanceOk(steps, s.instances[m.sagaId])
    requires SendsOk(s, id)
    ensures SendsOk(Handle(steps, s, m), id)
  {
    var x := s.instances[m.sagaId];
    var r := React(steps, |s.sent|, x, m);
    if r.rejection.None? {
      var b := OnReply(steps, x.pos.index, x.pos.compensating, x.data, m.reply).value;
      MoreReceived(x.received, Received(m, true));
      SettleSends(m.sagaId, b, Lock(x, m).destinations, id);
    }
    ApplyKeepsSends(s, m.sagaId, r, id);
  }
}
