/** The guarantees of saga orchestration, read off the histories of `SagaRuns`. */
module SagaGuarantees {
  import opened Options
  import opened SagaSteps
  import opened SagaSystem
  import opened SagaRuns

  // ---------- which effects a saga has, and in which order ----------

  /** The steps whose action (or compensation) took effect, in the order of the tests. */
  function Taken<D>(vs: seq<Visit<D>>, compensating: bool): seq<nat> {
    if vs == [] then []
    else
      var last := vs[|vs| - 1];
      Taken(vs[..|vs| - 1], compensating) +
      if last.effect && last.compensating == compensating then [last.index] else []
  }

  ghost predicate Ascending(s: seq<nat>) {
    forall i, j :: 0 <= i < j < |s| ==> s[i] < s[j]
  }

  ghost predicate Descending(s: seq<nat>) {
    forall i, j :: 0 <= i < j < |s| ==> s[i] > s[j]
  }

  lemma AscendingMore(s: seq<nat>, x: nat)
    requires Ascending(s) && forall y :: y in s ==> y < x
    ensures Ascending(s + [x])
  {
    assert forall k :: 0 <= k < |s| ==> s[k] in s;
  }

  lemma DescendingMore(s: seq<nat>, x: nat)
    requires Descending(s) && forall y :: y in s ==> y > x
    ensures Descending(s + [x])
  {
    assert forall k :: 0 <= k < |s| ==> s[k] in s;
  }

  lemma {:induction false} TakenMore<D>(a: seq<Visit<D>>, b: seq<Visit<D>>, compensating: bool)
    ensures Taken(a + b, compensating) == Taken(a, compensating) + Taken(b, compensating)
  {
    if b == [] {
      assert a + b == a;
    } else {
      assert (a + b)[..|a + b| - 1] == a + b[..|b| - 1];
      TakenMore(a, b[..|b| - 1], compensating);
    }
  }

  /** The steps a saga passed on the way up: all tests but those of the way down. */
  function Passed<D>(x: Instance<D>): nat {
    if CompensatingAt(x.pos) then TurnOf(x) + 1 else |x.visits|
  }

  /** The lowest step that a compensating saga has tested. */
  function Lowest(pos: Position): nat {
    if pos.At? then pos.index else 0
  }

  /** Step `i` was tested as the `i`th on the way up, and acts. */
  predicate Acted<D>(steps: seq<Step<D>>, up: seq<Visit<D>>, i: nat) {
    i < |up| && i < |steps| && HasAction(steps[i], up[i].data)
  }

  lemma ActedBefore<D>(steps: seq<Step<D>>, up: seq<Visit<D>>, p: nat, i: nat)
    requires p <= |up|
    ensures Acted(steps, up[..p], i) <==> i < p && Acted(steps, up, i)
  {
    hide HasAction;
  }

  /** The actions are, ascending, exactly the steps passed whose test held when passed. */
  ghost predicate ActionsInOrder<D>(steps: seq<Step<D>>, x: Instance<D>) {
    && Passed(x) <= |x.visits| && Passed(x) <= |steps|
    && Ascending(Taken(x.visits, false))
    && forall i: nat :: i in Taken(x.visits, false) <==> i < Passed(x) && Acted(steps, x.visits, i)
  }

  /** Step `i` was tested on the way down from step `f`, and compensates. */
  ghost predicate Undone<D>(steps: seq<Step<D>>, down: seq<Visit<D>>, f: nat, i: nat)
    requires f <= |steps|
  {
    f - |down| <= i < f && Compensates(steps[i], down[f - 1 - i].data)
  }

  /**
   The compensations are, descending, exactly the steps that compensate among those below
   the turn, down to the lowest tested.
   */
  ghost predicate CompensationsInOrder<D>(steps: seq<Step<D>>, x: Instance<D>) {
    var f := TurnOf(x);
    && f < |steps| && f < |x.visits|
    && |x.visits[f + 1..]| == f - Lowest(x.pos)
    && Descending(Taken(x.visits, true))
    && forall i: nat :: i in Taken(x.visits, true) <==> Undone(steps, x.visits[f + 1..], f, i)
  }

  /** What the last test adds. */
  lemma TakenLast<D>(vs: seq<Visit<D>>, compensating: bool)
    requires vs != []
    ensures var (before, last) := (vs[..|vs| - 1], vs[|vs| - 1]);
      Taken(vs, compensating) ==
      Taken(before, compensating) + if last.effect && last.compensating == compensating then [last.index] else []
  {
  }

  lemma GrowsUp(before: seq<nat>, more: seq<nat>, n: nat)
    requires Ascending(before) && (forall y :: y in before ==> y < n) && more in {[], [n]}
    ensures Ascending(before + more)
  {
    if more == [] { assert before + more == before; } else { AscendingMore(before, n); }
  }

  lemma GrowsDown(before: seq<nat>, more: seq<nat>, n: nat)
    requires Descending(before) && (forall y :: y in before ==> y > n) && more in {[], [n]}
    ensures Descending(before + more)
  {
    if more == [] { assert before + more == before; } else { DescendingMore(before, n); }
  }

  lemma {:induction false} TakenUp<D>(steps: seq<Step<D>>, vs: seq<Visit<D>>)
    requires Up(steps, vs, 0)
    ensures Taken(vs, true) == [] && Ascending(Taken(vs, false))
    ensures |vs| <= |steps|
    ensures forall i: nat :: i in Taken(vs, false) <==> Acted(steps, vs, i)
  {
    if vs == [] {
      NothingTaken(steps);
    } else {
      var n := |vs| - 1;
      var before := Taken(vs[..n], false);
      hide *;
      UpLast(steps, vs);
      TakenLast(vs, false);
      TakenLast(vs, true);
      TakenUp(steps, vs[..n]);
      var more := if vs[n].effect then [n] else [];
      assert Taken(vs, false) == before + more;
      forall i: nat
        ensures i in before <==> i < n && Acted(steps, vs, i)
        ensures Acted(steps, vs, i) ==> i <= n
      {
        ActedBefore(steps, vs, n, i);
        ActedWithin(steps, vs, i);
      }
      GrowsUp(before, more, n);
    }
  }

  lemma ActedWithin<D>(steps: seq<Step<D>>, up: seq<Visit<D>>, i: nat)
    ensures Acted(steps, up, i) ==> i < |up|
  {
  }

  /** The last of the tests on the way up. */
  lemma UpLast<D>(steps: seq<Step<D>>, vs: seq<Visit<D>>)
    requires Up(steps, vs, 0) && vs != []
    ensures var n := |vs| - 1;
      && n < |steps| && Up(steps, vs[..n], 0)
      && vs[n].index == n && !vs[n].compensating && vs[n].effect == Acted(steps, vs, n)
  {
    hide HasAction;
    var n := |vs| - 1;
    assert vs[n].index == 0 + n && vs[n].effect == HasAction(steps[0 + n], vs[n].data);
  }

  lemma NothingTaken<D>(steps: seq<Step<D>>)
    ensures forall c :: Taken<D>([], c) == []
    ensures Ascending([]) && Descending([])
  {
  }

  lemma {:induction false} TakenDown<D>(steps: seq<Step<D>>, vs: seq<Visit<D>>, f: nat)
    requires Down(steps, vs, f)
    ensures Taken(vs, false) == [] && Descending(Taken(vs, true))
    ensures forall i: nat :: i in Taken(vs, true) <==> Undone(steps, vs, f, i)
  {
    if vs == [] {
      NothingTaken(steps);
    } else {
      var n := |vs| - 1;
      var before, low := Taken(vs[..n], true), f - 1 - n;
      hide *;
      DownLast(steps, vs, f);
      TakenLast(vs, false);
      TakenLast(vs, true);
      TakenDown(steps, vs[..n], f);
      var more := if vs[n].effect then [low] else [];
      assert Taken(vs, true) == before + more;
      GrowsDown(before, more, low);
    }
  }

  /** The last of the tests on the way down, and what it adds. */
  lemma DownLast<D>(steps: seq<Step<D>>, vs: seq<Visit<D>>, f: nat)
    requires Down(steps, vs, f) && vs != []
    ensures var n := |vs| - 1;
      && n < f <= |steps| && Down(steps, vs[..n], f)
      && vs[n].index == f - 1 - n && vs[n].compensating
      && (forall i: nat :: Undone(steps, vs[..n], f, i) ==> i > f - 1 - n)
      && forall i: nat :: Undone(steps, vs, f, i) <==> Undone(steps, vs[..n], f, i) || (vs[n].effect && i == f - 1 - n)
  {
    hide Compensates;
    var n := |vs| - 1;
    forall i: nat
      ensures Undone(steps, vs, f, i) <==> Undone(steps, vs[..n], f, i) || (vs[n].effect && i == f - 1 - n)
    {
      if f - 1 - n < i < f { assert vs[..n][f - 1 - i] == vs[f - 1 - i]; }
    }
  }

  lemma ActionsOf<D>(steps: seq<Step<D>>, x: Instance<D>)
    requires InstanceOk(steps, x) && !x.pos.Created?
    ensures ActionsInOrder(steps, x)
    ensures x.pos.compensating ==> TurnOf(x) in Taken(x.visits, false)
  {
    PassedIsTheClimb(steps, x);
    TakenOnTheClimb(steps, x);
    hide InstanceOk, Passed, TurnOf, Acted, Up, Down, Ascending, Taken;
    var p := Passed(x);
    TakenUp(steps, x.visits[..p]);
    forall i: nat
      ensures i in Taken(x.visits, false) <==> i < p && Acted(steps, x.visits, i)
    {
      ActedBefore(steps, x.visits, p, i);
    }
  }

  /** No action takes effect on the way down. */
  lemma TakenOnTheClimb<D>(steps: seq<Step<D>>, x: Instance<D>)
    requires InstanceOk(steps, x) && !x.pos.Created?
    ensures Passed(x) <= |x.visits| && Taken(x.visits, false) == Taken(x.visits[..Passed(x)], false)
  {
    PassedIsTheClimb(steps, x);
    hide *;
    var up, down := x.visits[..Passed(x)], x.visits[Passed(x)..];
    assert x.visits == up + down;
    TakenMore(up, down, false);
    if x.pos.compensating {
      TakenDown(steps, down, TurnOf(x));
    } else {
      assert down == [];
      NoneTaken<D>(false);
    }
    assert Taken(up, false) + [] == Taken(up, false);
  }

  lemma NoneTaken<D>(compensating: bool)
    ensures Taken<D>([], compensating) == []
  {
  }

  /** The tests of an instance are a climb and, if it turned, a fall. */
  lemma PassedIsTheClimb<D>(steps: seq<Step<D>>, x: Instance<D>)
    requires InstanceOk(steps, x) && !x.pos.Created?
    ensures var p := Passed(x);
      && p <= |x.visits| && p <= |steps| && Up(steps, x.visits[..p], 0)
      && if x.pos.compensating then
           && p == TurnOf(x) + 1 && Down(steps, x.visits[p..], TurnOf(x))
           && Acted(steps, x.visits, p - 1)
         else p == |x.visits|
  {
    hide HasAction, Compensates, Failed, CanWait, Targets;
    if x.pos.compensating {
      var f := TurnOf(x);
      assert x.visits[..f + 1][f] == x.visits[f];
    } else {
      assert x.visits[..|x.visits|] == x.visits;
    }
  }

  lemma CompensationsOf<D>(steps: seq<Step<D>>, x: Instance<D>)
    requires InstanceOk(steps, x) && !x.pos.Created? && x.pos.compensating
    ensures CompensationsInOrder(steps, x)
  {
    hide HasAction, Compensates, Threw, CanWait, Failed, Taken, Targets;
    var f := TurnOf(x);
    var up, down := x.visits[..f + 1], x.visits[f + 1..];
    assert Path(steps, Story(x), 0, f);
    assert x.visits == up + down;
    TakenMore(up, down, true);
    TakenUp(steps, up);
    TakenDown(steps, down, f);
    assert Taken(x.visits, true) == Taken(down, true);
  }

  /**
   In every run, actions take effect in ascending order, exactly those whose test held;
   after a failure at step `f`, compensations follow in descending order, exactly those
   below `f` that compensate. A saga that completed passed every step.
   */
  lemma EffectsOfEveryRun<D>(steps: seq<Step<D>>, events: seq<Event<D>>, id: nat)
    requires id in Run(steps, events).instances && !Run(steps, events).instances[id].pos.Created?
    ensures var x := Run(steps, events).instances[id];
      && ActionsInOrder(steps, x)
      && (if x.pos.compensating then CompensationsInOrder(steps, x) && TurnOf(x) in Taken(x.visits, false)
          else Taken(x.visits, true) == [])
      && (x.pos == Done(false) ==> Passed(x) == |steps|)
      && (x.pos == Done(true) ==> Lowest(x.pos) == 0)
  {
    EveryInstanceHasAHistory(steps, events, id);
    var x := Run(steps, events).instances[id];
    ActionsOf(steps, x);
    if x.pos.compensating {
      CompensationsOf(steps, x);
    } else {
      TakenUp(steps, x.visits);
    }
  }

  lemma EveryTestIsTrue<D>(steps: seq<Step<D>>, x: Instance<D>, k: nat)
    requires InstanceOk(steps, x) && k < |x.visits|
    ensures var v := x.visits[k];
      v.index < |steps| && v.effect == (if v.compensating then Compensates(steps[v.index], v.data)
                                        else HasAction(steps[v.index], v.data))
  {
    hide HasAction, Compensates, Failed;
    if x.pos.compensating {
      var f := TurnOf(x);
      var up, down := x.visits[..f + 1], x.visits[f + 1..];
      assert Up(steps, up, 0) && Down(steps, down, f);
      if k <= f { assert up[k] == x.visits[k]; } else { assert down[k - f - 1] == x.visits[k]; }
    }
  }

  /**
   In every run, a test of a participant step finds it to take effect if and only if it has
   the invocation in question, and that has no predicate or one that is true of the data the
   test was made on. A local step's action always takes effect, its compensation if it has one.
   */
  lemma StepsTakeEffectExactlyIfInvocable<D>(steps: seq<Step<D>>, events: seq<Event<D>>, id: nat, k: nat)
    requires id in Run(steps, events).instances && k < |Run(steps, events).instances[id].visits|
    ensures var v := Run(steps, events).instances[id].visits[k];
      && v.index < |steps|
      && match steps[v.index]
         case LocalStep(_, undo) => v.effect <==> !v.compensating || undo.Some?
         case ParticipantStep(_, _, action, compensation) =>
           var invocation := if v.compensating then compensation else action;
           v.effect <==>
             && invocation.Some?
             && (invocation.value.isInvocable.None? || invocation.value.isInvocable.value(v.data))
  {
    hide *;
    var v := Run(steps, events).instances[id].visits[k];
    EveryInstanceHasAHistory(steps, events, id);
    EveryTestIsTrue(steps, Run(steps, events).instances[id], k);
    TestsAskThePredicate(steps[v.index], v.data);
  }

  /** What the two tests of a step ask. */
  lemma TestsAskThePredicate<D>(step: Step<D>, d: D)
    ensures step.LocalStep? ==> HasAction(step, d) && (Compensates(step, d) <==> step.undo.Some?)
    ensures step.ParticipantStep? ==>
      && (HasAction(step, d) <==>
           step.action.Some? && (step.action.value.isInvocable.None? || step.action.value.isInvocable.value(d)))
      && (Compensates(step, d) <==>
           && step.compensation.Some?
           && (step.compensation.value.isInvocable.None? || step.compensation.value.isInvocable.value(d)))
  {
  }

  /** A saga rolls back exactly when a step failed: an accepted reply was a failure, or a local action threw. */
  lemma CompensatesExactlyOnFailure<D>(steps: seq<Step<D>>, events: seq<Event<D>>, id: nat)
    requires id in Run(steps, events).instances && !Run(steps, events).instances[id].pos.Created?
    ensures var x := Run(steps, events).instances[id];
      x.pos.compensating <==>
        || (exists k :: 0 <= k < |x.received| &&
              x.received[k].accepted && x.received[k].message.reply.outcome == Failure)
        || (exists k :: 0 <= k < |x.visits| && Threw(steps, x.visits[k]))
  {
    EveryInstanceHasAHistory(steps, events, id);
    assert forall r: Received :: RefusedBy(r) <==> r.accepted && r.message.reply.outcome == Failure;
  }

  /**
   One end hook is called at the end and none before, the rollback hook exactly
   for a compensating saga; and at the end, and only then, every target locked by
   a reply is unlocked, once for each such reply.
   */
  lemma EndsOnceAndUnlocksAll<D>(steps: seq<Step<D>>, events: seq<Event<D>>, id: nat)
    requires id in Run(steps, events).instances
    ensures var s := Run(steps, events);
      var x := s.instances[id];
      && (x.pos.Done? ==>
           && EndHooksOf(s.hooks, id) == [x.pos.compensating]
           && multiset(UnlocksOf(s.sent, id)) == multiset(Targets(x.received)))
      && (!x.pos.Done? ==> EndHooksOf(s.hooks, id) == [] && UnlocksOf(s.sent, id) == [])
  {
    EveryInstanceEndsOnce(steps, events, id);
  }

  // ---------- how long a saga can take ----------

  /** Forward positions rank above all compensating ones. */
  function Rank(n: nat, pos: Position): int {
    match pos
    case At(i, false) => 2 * n - i
    case At(i, true) => i + 1
    case _ => 0
  }

  lemma BurstsRank<D>(steps: seq<Step<D>>, i: nat, d: D)
    requires i <= |steps|
    ensures 0 <= Rank(|steps|, Backward(steps, i, d).pos) <= i
    ensures 0 <= Rank(|steps|, Forward(steps, i, d).pos) <= 2 * |steps| - i
  {
    BackwardFalls(steps, i, d);
    var f := ForwardClimbs(steps, i, d);
    hide Forward, Backward;
  }

  function Accepted(rs: seq<Received>): nat {
    if rs == [] then 0 else Accepted(rs[..|rs| - 1]) + if rs[|rs| - 1].accepted then 1 else 0
  }

  /** Every accepted reply brings the saga strictly nearer its end. */
  lemma EveryReplyAdvances<D>(steps: seq<Step<D>>, next: nat, x: Instance<D>, m: ReplyMessage)
    requires CanWait(steps, x.pos)
    ensures var y := React(steps, next, x, m).instance;
      Accepted(y.received) + Rank(|steps|, y.pos) <= Accepted(x.received) + Rank(|steps|, x.pos)
    ensures React(steps, next, x, m).rejection.None? ==>
      Rank(|steps|, React(steps, next, x, m).instance.pos) < Rank(|steps|, x.pos)
  {
    assert forall r :: (x.received + [r])[..|x.received|] == x.received;
    if x.pos.At? {
      var data := AfterReply(steps[x.pos.index], x.pos.compensating, x.data, m.reply);
      BurstsRank(steps, x.pos.index, data);
      BurstsRank(steps, x.pos.index + 1, data);
      hide Forward, Backward;
    }
  }

  lemma {:induction false} AcceptedAndRank<D>(steps: seq<Step<D>>, events: seq<Event<D>>, id: nat)
    requires id in Run(steps, events).instances
    ensures var x := Run(steps, events).instances[id];
      Accepted(x.received) + Rank(|steps|, x.pos) <= 2 * |steps|
  {
    var n := |events| - 1;
    var s := Run(steps, events[..n]);
    if id in s.instances {
      AcceptedAndRank(steps, events[..n], id);
    }
    match events[n] {
      case NewSaga(id', d, claim) =>
        BurstsRank(steps, 0, d);
      case ReplyArrives(m) =>
        if m.sagaId == id {
          EveryReplyAdvances(steps, |s.sent|, s.instances[id], m);
        }
    }
  }

  /** With n steps, no run of a saga makes more than 2n - 1 tests or accepts more than 2n replies. */
  lemma EveryRunIsBounded<D>(steps: seq<Step<D>>, events: seq<Event<D>>, id: nat)
    requires id in Run(steps, events).instances
    ensures var x := Run(steps, events).instances[id];
      && |x.visits| <= (if steps == [] then 0 else 2 * |steps| - 1)
      && Accepted(x.received) <= 2 * |steps|
  {
    AcceptedAndRank(steps, events, id);
    EveryInstanceHasAHistory(steps, events, id);
    hide Run;
  }

  // ---------- one command outstanding ----------

  ghost predicate Answered(rs: seq<Received>, id: nat) {
    exists k :: 0 <= k < |rs| && rs[k].accepted && rs[k].message.inReplyTo == id
  }

  /** The commands sent for a saga that no accepted reply has answered. */
  ghost function Outstanding<D>(s: System<D>, id: nat): set<nat> {
    set k | 0 <= k < |s.sent| && s.sent[k].CommandSent? && s.sent[k].sagaId == id &&
            !(id in s.instances && Answered(s.instances[id].received, k))
  }

  /** The environment answers this saga's commands only while they are outstanding; others' as it likes. */
  ghost predicate Honest<D>(steps: seq<Step<D>>, events: seq<Event<D>>, id: nat) {
    events == [] ||
    var n := |events| - 1;
    && Honest(steps, events[..n], id)
    && (events[n].ReplyArrives? && events[n].message.sagaId == id ==>
         events[n].message.inReplyTo in Outstanding(Run(steps, events[..n]), id))
  }

  function Awaited<D>(s: System<D>, id: nat): set<nat> {
    if id in s.instances && s.instances[id].lastRequestId.Some? then {s.instances[id].lastRequestId.value} else {}
  }

  ghost predicate OneOutstanding<D>(s: System<D>, id: nat) {
    && Outstanding(s, id) == Awaited(s, id)
    && (id in s.instances ==> s.instances[id].lastRequestId.Some? == s.instances[id].pos.At?)
  }

  lemma CommandsSentBy<D>(owner: nat, b: Burst<D>, targets: seq<Destination>)
    ensures forall k :: 0 <= k < |SentBy(owner, b, targets)| ==>
      SentBy(owner, b, targets)[k].sagaId == owner &&
      (SentBy(owner, b, targets)[k].CommandSent? <==> k == 0 && b.command.Some?)
    ensures b.command.Some? ==> |SentBy(owner, b, targets)| > 0
  {
  }

  /** A reaction that answers the awaited command, if any, and awaits the command it sends, if any. */
  lemma ApplyKeepsOne<D>(s: System<D>, owner: nat, r: Reaction<D>, id: nat, b: Burst<D>, targets: seq<Destination>)
    requires OneOutstanding(s, id)
    requires r.sent == SentBy(owner, b, targets) && b.command.Some? == b.pos.At?
    requires r.instance.pos == b.pos && r.instance.lastRequestId == RequestId(|s.sent|, b)
    requires owner == id ==> forall k :: k in Awaited(s, id) ==> Answered(r.instance.received, k)
    requires owner in s.instances ==>
      forall k :: Answered(s.instances[owner].received, k) ==> Answered(r.instance.received, k)
    requires forall k: nat :: Answered(r.instance.received, k) ==> k < |s.sent|
    ensures OneOutstanding(Apply(s, owner, r), id)
  {
    var t := Apply(s, owner, r);
    CommandsSentBy(owner, b, targets);
    assert forall k :: 0 <= k < |s.sent| ==> t.sent[k] == s.sent[k];
    assert forall k :: |s.sent| <= k < |t.sent| ==> t.sent[k] == r.sent[k - |s.sent|];
    if id == owner {
      forall k: nat | k < |s.sent|
        ensures k !in Outstanding(t, id)
      {
        if s.sent[k].CommandSent? && s.sent[k].sagaId == id && k !in Awaited(s, id) {
          assert k !in Outstanding(s, id);
        }
      }
      assert Outstanding(t, id) == Awaited(t, id);
    } else {
      assert Outstanding(t, id) == Outstanding(s, id);
    }
  }

  lemma AnsweredMore(rs: seq<Received>, r: Received)
    ensures forall k :: Answered(rs + [r], k) <==> Answered(rs, k) || (r.accepted && r.message.inReplyTo == k)
  {
    assert (rs + [r])[|rs|] == r;
    assert forall j :: 0 <= j < |rs| ==> (rs + [r])[j] == rs[j];
  }

  /** Only messages already sent have been answered. */
  ghost predicate AnswersSent<D>(s: System<D>, id: nat) {
    id in s.instances ==> forall k: nat :: Answered(s.instances[id].received, k) ==> k < |s.sent|
  }

  lemma SilentKeepsOne<D>(s: System<D>, owner: nat, r: Reaction<D>, id: nat)
    requires OneOutstanding(s, id) && r.sent == []
    requires if owner in s.instances then
        && r.instance.pos == s.instances[owner].pos && r.instance.lastRequestId == s.instances[owner].lastRequestId
        && forall k :: Answered(s.instances[owner].received, k) <==> Answered(r.instance.received, k)
      else r.instance.pos.Created? && r.instance.lastRequestId.None? && r.instance.received == []
    ensures OneOutstanding(Apply(s, owner, r), id)
  {
    var t := Apply(s, owner, r);
    assert t.sent == s.sent;
    assert Outstanding(t, id) == Outstanding(s, id);
  }

  lemma CreationKeepsOne<D>(steps: seq<Step<D>>, s: System<D>, owner: nat, d: D, claim: Option<bool>, id: nat)
    requires OneOutstanding(s, id) && owner !in s.instances
    ensures OneOutstanding(Create(steps, s, owner, d, claim), id)
  {
    var t := Save(s, owner, d);
    SilentKeepsOne(s, owner, Reaction(Unbegun(d), [], [Starting(owner)], None), id);
    var r := Begin(steps, |s.sent|, owner, d, claim);
    if r.rejection.None? {
      var b := Forward(steps, 0, d);
      ForwardEnds(steps, 0, d);
      assert t.sent == s.sent;
      ApplyKeepsOne(t, owner, r, id, b, []);
    } else {
      SilentKeepsOne(t, owner, r, id);
    }
  }

  lemma RejectionKeepsOne<D>(steps: seq<Step<D>>, s: System<D>, m: ReplyMessage)
    requires AllCanWait(steps, s) && m.sagaId in s.instances && OneOutstanding(s, m.sagaId)
    requires Rejected(steps, s, m).Some?
    ensures OneOutstanding(Handle(steps, s, m), m.sagaId)
    ensures AnswersSent(s, m.sagaId) ==> AnswersSent(Handle(steps, s, m), m.sagaId)
  {
    var x := s.instances[m.sagaId];
    AnsweredMore(x.received, Received(m, false));
    SilentKeepsOne(s, m.sagaId, React(steps, |s.sent|, x, m), m.sagaId);
  }

  lemma AnswerKeepsOne<D>(steps: seq<Step<D>>, s: System<D>, m: ReplyMessage)
    requires AllCanWait(steps, s) && m.sagaId in s.instances && OneOutstanding(s, m.sagaId) && AnswersSent(s, m.sagaId)
    requires Rejected(steps, s, m).None? && s.instances[m.sagaId].lastRequestId == Some(m.inReplyTo)
    ensures OneOutstanding(Handle(steps, s, m), m.sagaId) && AnswersSent(Handle(steps, s, m), m.sagaId)
  {
    var x := s.instances[m.sagaId];
    assert m.inReplyTo in Outstanding(s, m.sagaId) by { assert m.inReplyTo in Awaited(s, m.sagaId); }
    AnsweredMore(x.received, Received(m, true));
    var b := OnReply(steps, x.pos.index, x.pos.compensating, x.data, m.reply).value;
    var data := AfterReply(steps[x.pos.index], x.pos.compensating, x.data, m.reply);
    BackwardEnds(steps, x.pos.index, data);
    ForwardEnds(steps, x.pos.index + 1, data);
    hide Forward, Backward, AfterReply;
    ApplyKeepsOne(s, m.sagaId, React(steps, |s.sent|, x, m), m.sagaId, b, Lock(x, m).destinations);
  }

  /** A reply that was meant for another command leaves the last command outstanding, and it is not awaited any more. */
  lemma StaleAnswerBreaksOne<D>(steps: seq<Step<D>>, s: System<D>, m: ReplyMessage)
    requires AllCanWait(steps, s) && m.sagaId in s.instances && OneOutstanding(s, m.sagaId)
    requires Rejected(steps, s, m).None? && s.instances[m.sagaId].lastRequestId != Some(m.inReplyTo)
    ensures !OneOutstanding(Handle(steps, s, m), m.sagaId)
  {
    var x := s.instances[m.sagaId];
    var t := Handle(steps, s, m);
    hide OnReply, AfterReply;
    var last := x.lastRequestId.value;
    assert last in Outstanding(s, m.sagaId) by { assert last in Awaited(s, m.sagaId); }
    AnsweredMore(x.received, Received(m, true));
    assert t.sent[last] == s.sent[last];
    assert last in Outstanding(t, m.sagaId) && last !in Awaited(t, m.sagaId);
  }

  /**
   The condition is exact: a saga that has exactly its last request outstanding is left so by
   a reply if and only if the reply is rejected or answers that request.
   */
  lemma ReplyKeepsOneExactly<D>(steps: seq<Step<D>>, s: System<D>, m: ReplyMessage)
    requires AllCanWait(steps, s) && m.sagaId in s.instances && OneOutstanding(s, m.sagaId) && AnswersSent(s, m.sagaId)
    ensures OneOutstanding(Handle(steps, s, m), m.sagaId) <==>
      Rejected(steps, s, m).Some? || s.instances[m.sagaId].lastRequestId == Some(m.inReplyTo)
    ensures OneOutstanding(Handle(steps, s, m), m.sagaId) ==> AnswersSent(Handle(steps, s, m), m.sagaId)
  {
    hide OneOutstanding, Handle, Rejected, AnswersSent;
    if Rejected(steps, s, m).Some? {
      RejectionKeepsOne(steps, s, m);
    } else if s.instances[m.sagaId].lastRequestId == Some(m.inReplyTo) {
      AnswerKeepsOne(steps, s, m);
    } else {
      StaleAnswerBreaksOne(steps, s, m);
    }
  }

  /** Replies to other sagas do not matter. */
  lemma OthersKeepOne<D>(steps: seq<Step<D>>, s: System<D>, m: ReplyMessage, id: nat)
    requires AllCanWait(steps, s) && m.sagaId in s.instances && m.sagaId != id && OneOutstanding(s, id)
    ensures OneOutstanding(Handle(steps, s, m), id)
    ensures AnswersSent(s, id) ==> AnswersSent(Handle(steps, s, m), id)
  {
    RepliesTouchOneInstance(steps, s, m, id);
    hide Handle;
    var t := Handle(steps, s, m);
    assert forall k :: 0 <= k < |s.sent| ==> t.sent[k] == s.sent[k];
    assert Outstanding(t, id) == Outstanding(s, id);
  }

  /** A reply to saga `id` that it accepts answers its last request. */
  ghost predicate TimelyLast<D>(steps: seq<Step<D>>, events: seq<Event<D>>, id: nat)
    requires events != []
  {
    var n := |events| - 1;
    var s := Run(steps, events[..n]);
    events[n].ReplyArrives? && events[n].message.sagaId == id && Rejected(steps, s, events[n].message).None? ==>
      s.instances[id].lastRequestId == Some(events[n].message.inReplyTo)
  }

  lemma EventKeepsOneExactly<D>(steps: seq<Step<D>>, events: seq<Event<D>>, id: nat)
    requires events != []
    requires var s := Run(steps, events[..|events| - 1]); OneOutstanding(s, id) && AnswersSent(s, id)
    ensures OneOutstanding(Run(steps, events), id) <==> TimelyLast(steps, events, id)
    ensures OneOutstanding(Run(steps, events), id) ==> AnswersSent(Run(steps, events), id)
  {
    var s := Run(steps, events[..|events| - 1]);
    match events[|events| - 1] {
      case NewSaga(owner, d, claim) =>
        if owner !in s.instances {
          CreationKeepsOne(steps, s, owner, d, claim, id);
          CreationAnswersNothing(steps, s, owner, d, claim, id);
        }
        hide Create, OneOutstanding, AnswersSent;
      case ReplyArrives(m) =>
        if m.sagaId in s.instances {
          if m.sagaId == id { ReplyKeepsOneExactly(steps, s, m); } else { OthersKeepOne(steps, s, m, id); }
        }
        hide Handle, OneOutstanding, AnswersSent, React;
    }
  }

  lemma CreationAnswersNothing<D>(steps: seq<Step<D>>, s: System<D>, owner: nat, d: D, claim: Option<bool>, id: nat)
    requires owner !in s.instances && AnswersSent(s, id)
    ensures AnswersSent(Create(steps, s, owner, d, claim), id)
  {
    hide Forward, FirstThrow;
  }

  lemma NothingOutstanding<D>(steps: seq<Step<D>>, id: nat)
    ensures OneOutstanding(Run(steps, []), id) && AnswersSent(Run(steps, []), id)
  {
  }

  /**
   When this saga's commands get at most one accepted reply each, then, whatever replies
   the other sagas get, it has exactly one command outstanding while it waits, the one
   named by `lastRequestId`, and none when it has ended (or never started).
   */
  lemma {:induction false} OneCommandOutstanding<D>(steps: seq<Step<D>>, events: seq<Event<D>>, id: nat)
    requires Honest(steps, events, id)
    ensures OneOutstanding(Run(steps, events), id) && AnswersSent(Run(steps, events), id)
  {
    if events == [] {
      NothingOutstanding(steps, id);
    } else {
      OneCommandOutstanding(steps, events[..|events| - 1], id);
      EventKeepsOneExactly(steps, events, id);
      hide Run, AnswersSent;
    }
  }

  ghost predicate AlwaysOne<D>(steps: seq<Step<D>>, events: seq<Event<D>>, id: nat) {
    OneOutstanding(Run(steps, events), id) && (events != [] ==> AlwaysOne(steps, events[..|events| - 1], id))
  }

  ghost predicate Timely<D>(steps: seq<Step<D>>, events: seq<Event<D>>, id: nat) {
    events == [] || (Timely(steps, events[..|events| - 1], id) && TimelyLast(steps, events, id))
  }

  /**
   For every run: a saga has at every moment exactly its last request outstanding if and
   only if each reply that it accepts answers its last request.
   */
  lemma {:induction false} OneCommandOutstandingExactly<D>(steps: seq<Step<D>>, events: seq<Event<D>>, id: nat)
    ensures AlwaysOne(steps, events, id) <==> Timely(steps, events, id)
    ensures AlwaysOne(steps, events, id) ==> AnswersSent(Run(steps, events), id)
  {
    hide OneOutstanding, AnswersSent, TimelyLast, Run;
    if events == [] {
      NothingOutstanding(steps, id);
    } else {
      OneCommandOutstandingExactly(steps, events[..|events| - 1], id);
      if AlwaysOne(steps, events[..|events| - 1], id) {
        assert OneOutstanding(Run(steps, events[..|events| - 1]), id);
        EventKeepsOneExactly(steps, events, id);
      }
    }
  }

  function AskTwice(): seq<Step<int>> {
    var ask := Invocation(None, (d: int) => (d, Command("c", "Ask", [], None)));
    var step := ParticipantStep(map[], map[], Some(ask), None);
    [step, step]
  }

  function Granted(inReplyTo: nat): Event<int> {
    ReplyArrives(ReplyMessage("S", 0, inReplyTo, Reply(Success, "Success", []), None))
  }

  lemma AsksTwice(i: nat, d: int)
    requires i <= 2
    ensures Forward(AskTwice(), i, d).pos == if i == 2 then Done(false) else At(i, false)
    ensures Forward(AskTwice(), i, d).command.Some? <==> i < 2
    ensures FirstThrow(AskTwice(), 0, d) == None
  {
    assert i < 2 ==> Holds(AskTwice()[i].action, d);
    assert Holds(AskTwice()[0].action, d);
  }

  lemma GrantedMovesOn(s: System<int>, i: nat)
    requires AllCanWait(AskTwice(), s) && 0 in s.instances && i < 2 && s.instances[0].pos == At(i, false)
    ensures var t := Handle(AskTwice(), s, Granted(0).message);
      && Rejected(AskTwice(), s, Granted(0).message) == None && 0 in t.instances
      && t.instances[0].pos == (if i == 1 then Done(false) else At(1, false))
      && t.instances[0].lastRequestId == (if i == 1 then None else Some(|s.sent|))
  {
    AsksTwice(i + 1, AfterReply(AskTwice()[i], false, s.instances[0].data, Granted(0).message.reply));
    hide Forward, AfterReply, AskTwice;
  }

  lemma FirstAsks()
    ensures var s := Create(AskTwice(), Run(AskTwice(), []), 0, 0, None);
      0 in s.instances && s.instances[0].pos == At(0, false) && s.instances[0].lastRequestId == Some(0) && |s.sent| == 1
  {
    AsksTwice(0, 0);
    hide Forward, FirstThrow, AskTwice;
  }

  /** It happens: the answer to the first command arrives twice, and is taken for that to the second. */
  lemma RepeatedAnswerBreaksOne()
    ensures var events := [NewSaga(0, 0, None), Granted(0), Granted(0)];
      && OneOutstanding(Run(AskTwice(), events[..2]), 0)
      && 0 in Run(AskTwice(), events).instances && Run(AskTwice(), events).instances[0].pos == Done(false)
      && !OneOutstanding(Run(AskTwice(), events), 0)
  {
    var events := [NewSaga(0, 0, None), Granted(0), Granted(0)];
    var steps := AskTwice();
    hide AskTwice, Create, Handle, Rejected, OneOutstanding, AnswersSent;
    assert events[..3] == events && events[..3][..2] == events[..2];
    assert events[..2][..1] == events[..1] && events[..1][..0] == [];
    FirstAsks();
    NothingOutstanding(steps, 0);
    EventKeepsOneExactly(steps, events[..1], 0);
    var s1 := Run(steps, events[..1]);
    assert s1 == Create(steps, Run(steps, []), 0, 0, None);
    GrantedMovesOn(s1, 0);
    EventKeepsOneExactly(steps, events[..2], 0);
    var s2 := Run(steps, events[..2]);
    assert s2 == Handle(steps, s1, Granted(0).message);
    GrantedMovesOn(s2, 1);
    StaleAnswerBreaksOne(steps, s2, Granted(0).message);
  }

  // ---------- one instance at a time, and nothing after the end ----------

  /** A reply changes no other instance, and every message and hook it causes is for its own. */
  lemma RepliesTouchOneInstance<D>(steps: seq<Step<D>>, s: System<D>, m: ReplyMessage, id: nat)
    requires AllCanWait(steps, s) && m.sagaId in s.instances
    ensures var t := Handle(steps, s, m);
      && t.instances.Keys == s.instances.Keys
      && (id in s.instances && id != m.sagaId ==> t.instances[id] == s.instances[id])
      && s.sent <= t.sent && (forall k :: |s.sent| <= k < |t.sent| ==> t.sent[k].sagaId == m.sagaId)
      && s.hooks <= t.hooks && (forall k :: |s.hooks| <= k < |t.hooks| ==> t.hooks[k].sagaId == m.sagaId)
  {
    hide AfterReply, Forward, Backward;
    var x := s.instances[m.sagaId];
    var r := React(steps, |s.sent|, x, m);
    var t := Handle(steps, s, m);
    if r.rejection.None? {
      CommandsSentBy(m.sagaId, OnReply(steps, x.pos.index, x.pos.compensating, x.data, m.reply).value,
        Lock(x, m).destinations);
    }
    assert forall k :: |s.sent| <= k < |t.sent| ==> t.sent[k] == r.sent[k - |s.sent|];
    assert forall k :: |s.hooks| <= k < |t.hooks| ==> t.hooks[k] == r.hooks[k - |s.hooks|];
  }

  /** A reply that comes after the end is rejected: nothing is sent, no hook called, and the saga stays ended. */
  lemma RepliesAfterTheEndAreRejected<D>(steps: seq<Step<D>>, s: System<D>, m: ReplyMessage)
    requires AllCanWait(steps, s) && m.sagaId in s.instances && s.instances[m.sagaId].pos.Done?
    ensures Rejected(steps, s, m) == Some(MissingStep)
    ensures var t := Handle(steps, s, m);
      && t.sent == s.sent && t.hooks == s.hooks
      && t.instances[m.sagaId].(destinations := []) == s.instances[m.sagaId].(destinations := [])
  {
  }
}
