/**
 Local steps are participants that answer at once: replacing any of them by a
 participant step without reply handlers, with the same effect on the data and an
 immediate reply of the same outcome, leaves every run as it was.
 */
module LocalAsRemote {
  import opened Options
  import opened SagaSteps
  import opened SagaSystem
  import opened SagaRuns
  import G = SagaGuarantees

  /** The participant that does what local step `i` does. */
  function AsParticipant<D>(step: Step<D>, i: nat): Step<D>
    requires step.LocalStep?
  {
    var command := Command("local", "step", [i], None);
    ParticipantStep(map[], map[],
      Some(Invocation(None, d => (step.handler(d).data, command))),
      if step.undo.None? then None else Some(Invocation(None, d => (step.undo.value(d), command))))
  }

  /** The local steps chosen by `chosen` replaced by participants. */
  function Convert<D>(steps: seq<Step<D>>, chosen: set<nat>): (r: seq<Step<D>>)
    ensures |r| == |steps|
  {
    seq(|steps|, i requires 0 <= i < |steps| =>
      if i in chosen && steps[i].LocalStep? then AsParticipant(steps[i], i) else steps[i])
  }

  predicate Converted<D>(steps: seq<Step<D>>, chosen: set<nat>, pos: Position) {
    pos.At? && pos.index < |steps| && pos.index in chosen && steps[pos.index].LocalStep?
  }

  /** The outcome that the local step had on the data it was tested on. */
  function OutcomeOf<D>(steps: seq<Step<D>>, v: Visit<D>): ReplyOutcome
    requires v.index < |steps| && steps[v.index].LocalStep?
  {
    if v.compensating || steps[v.index].handler(v.data).exception.None? then Success else Failure
  }

  /** A burst's last test is of the step it waits at. */
  predicate EndsAtItsTest<D>(b: Burst<D>) {
    b.pos.At? ==>
      && b.visits != []
      && b.visits[|b.visits| - 1].index == b.pos.index
      && b.visits[|b.visits| - 1].compensating == b.pos.compensating
  }

  /** A burst that a step list can wait at. */
  predicate Fits<D>(steps: seq<Step<D>>, b: Burst<D>) {
    CanWait(steps, b.pos) && EndsAtItsTest(b)
  }

  lemma BackwardFits<D>(steps: seq<Step<D>>, i: nat, d: D)
    requires i <= |steps|
    ensures Fits(steps, Backward(steps, i, d))
  {
    BackwardEnds(steps, i, d);
    BackwardFalls(steps, i, d);
    hide Backward;
  }

  lemma ForwardFits<D>(steps: seq<Step<D>>, i: nat, d: D)
    requires i <= |steps|
    ensures Fits(steps, Forward(steps, i, d))
  {
    ForwardEnds(steps, i, d);
    var f := ForwardClimbs(steps, i, d);
    hide Forward;
  }

  lemma AfterFits<D>(steps: seq<Step<D>>, vs: seq<Visit<D>>, b: Burst<D>)
    requires Fits(steps, b)
    ensures Fits(steps, After(vs, b))
  {
    hide CanWait;
    if b.pos.At? {
      var w := After(vs, b).visits;
      assert w[|w| - 1] == b.visits[|b.visits| - 1];
    }
  }

  /** Answers a converted step at once, for as long as the saga waits at one. */
  function Drive<D>(steps: seq<Step<D>>, chosen: set<nat>, b: Burst<D>): Burst<D>
    requires Fits(Convert(steps, chosen), b)
    decreases G.Rank(|steps|, b.pos)
  {
    if !Converted(steps, chosen, b.pos) then b
    else
      var remote := Convert(steps, chosen);
      var outcome := OutcomeOf(steps, b.visits[|b.visits| - 1]);
      var next := OnReply(remote, b.pos.index, b.pos.compensating, b.data, Reply(outcome, "", []));
      AnswerAdvances(remote, b.pos.index, b.pos.compensating, b.data, Reply(outcome, "", []));
      AfterFits(remote, b.visits, next.value);
      Drive(steps, chosen, After(b.visits, next.value))
  }

  lemma AnswerAdvances<D>(steps: seq<Step<D>>, i: nat, compensating: bool, d: D, reply: Reply)
    requires i < |steps| && (compensating ==> reply.outcome == Success)
    ensures var next := OnReply(steps, i, compensating, d, reply);
      next.Some? && Fits(steps, next.value) && G.Rank(|steps|, next.value.pos) < G.Rank(|steps|, At(i, compensating))
  {
    var data := AfterReply(steps[i], compensating, d, reply);
    G.BurstsRank(steps, i, data);
    G.BurstsRank(steps, i + 1, data);
    BackwardFits(steps, i, data);
    ForwardFits(steps, i + 1, data);
    hide Forward, Backward, Fits, AfterReply;
  }

  /** One answer to the step that a burst waits at. */
  function Answered<D>(steps: seq<Step<D>>, chosen: set<nat>, b: Burst<D>): (next: Burst<D>)
    requires Fits(Convert(steps, chosen), b) && Converted(steps, chosen, b.pos)
    ensures Fits(Convert(steps, chosen), next) && G.Rank(|steps|, next.pos) < G.Rank(|steps|, b.pos)
    ensures Drive(steps, chosen, b) == Drive(steps, chosen, next)
  {
    var remote := Convert(steps, chosen);
    var reply := Reply(OutcomeOf(steps, b.visits[|b.visits| - 1]), "", []);
    var next := OnReply(remote, b.pos.index, b.pos.compensating, b.data, reply);
    AnswerAdvances(remote, b.pos.index, b.pos.compensating, b.data, reply);
    AfterFits(remote, b.visits, next.value);
    After(b.visits, next.value)
  }

  lemma AnsweredAfter<D>(steps: seq<Step<D>>, chosen: set<nat>, vs: seq<Visit<D>>, b: Burst<D>)
    requires Fits(Convert(steps, chosen), b) && Converted(steps, chosen, b.pos)
    requires Fits(Convert(steps, chosen), After(vs, b))
    ensures Answered(steps, chosen, After(vs, b)) == After(vs, Answered(steps, chosen, b))
  {
    hide Convert, Drive, Forward, Backward;
    var remote := Convert(steps, chosen);
    var reply := Reply(OutcomeOf(steps, b.visits[|b.visits| - 1]), "", []);
    AnswerAdvances(remote, b.pos.index, b.pos.compensating, b.data, reply);
    var next := OnReply(remote, b.pos.index, b.pos.compensating, b.data, reply);
    hide OnReply;
    AfterAfter(vs, b.visits, next.value);
  }

  lemma {:induction false} DriveAfter<D>(steps: seq<Step<D>>, chosen: set<nat>, vs: seq<Visit<D>>, b: Burst<D>)
    requires Fits(Convert(steps, chosen), b)
    ensures Fits(Convert(steps, chosen), After(vs, b))
    ensures Drive(steps, chosen, After(vs, b)) == After(vs, Drive(steps, chosen, b))
    decreases G.Rank(|steps|, b.pos)
  {
    AfterFits(Convert(steps, chosen), vs, b);
    assert After(vs, b).pos == b.pos;
    if Converted(steps, chosen, b.pos) {
      hide *;
      AnsweredAfter(steps, chosen, vs, b);
      DriveAfter(steps, chosen, vs, Answered(steps, chosen, b));
    }
  }

  lemma DriveStops<D>(steps: seq<Step<D>>, chosen: set<nat>, b: Burst<D>)
    requires Fits(Convert(steps, chosen), b) && !Converted(steps, chosen, b.pos)
    ensures Drive(steps, chosen, b) == b
  {
  }

  /** The answer to a converted step that has just been tested. */
  function AnswerTo<D>(steps: seq<Step<D>>, chosen: set<nat>, v: Visit<D>, data: D): Burst<D>
    requires v.index < |steps| && steps[v.index].LocalStep?
  {
    var remote := Convert(steps, chosen);
    if v.compensating || OutcomeOf(steps, v) == Failure then Backward(remote, v.index, data)
    else Forward(remote, v.index + 1, data)
  }

  lemma ConvertedAnswers<D>(steps: seq<Step<D>>, chosen: set<nat>, v: Visit<D>, data: D)
    requires Converted(steps, chosen, At(v.index, v.compensating))
    ensures OnReply(Convert(steps, chosen), v.index, v.compensating, data, Reply(OutcomeOf(steps, v), "", [])) ==
      Some(AnswerTo(steps, chosen, v, data))
  {
    hide Forward, Backward;
    var reply := Reply(OutcomeOf(steps, v), "", []);
    assert AfterReply(Convert(steps, chosen)[v.index], v.compensating, data, reply) == data;
  }

  /** A converted step that waits is answered, and the drive goes on from there. */
  lemma DriveOn<D>(steps: seq<Step<D>>, chosen: set<nat>, v: Visit<D>, data: D, c: Option<Command>)
    requires Converted(steps, chosen, At(v.index, v.compensating))
    requires Fits(Convert(steps, chosen), Burst(At(v.index, v.compensating), data, c, [v]))
    ensures var next := AnswerTo(steps, chosen, v, data);
      && Fits(Convert(steps, chosen), next)
      && Drive(steps, chosen, Burst(At(v.index, v.compensating), data, c, [v])) ==
         After([v], Drive(steps, chosen, next))
  {
    var remote := Convert(steps, chosen);
    var reply := Reply(OutcomeOf(steps, v), "", []);
    AnswerAdvances(remote, v.index, v.compensating, data, reply);
    ConvertedAnswers(steps, chosen, v, data);
    var next := AnswerTo(steps, chosen, v, data);
    AfterFits(remote, [v], next);
    hide Forward, Backward, OnReply, AnswerTo, Convert, OutcomeOf, Fits, Converted;
    assert Drive(steps, chosen, Burst(At(v.index, v.compensating), data, c, [v])) ==
      Drive(steps, chosen, After([v], next));
    hide Drive;
    DriveAfter(steps, chosen, [v], next);
  }

  // ---------- backwards ----------

  function Undo<D>(step: Step<D>, d: D): D {
    if step.LocalStep? && step.undo.Some? then step.undo.value(d) else d
  }

  predicate Undone<D>(steps: seq<Step<D>>, chosen: set<nat>, k: nat) {
    k < |steps| && steps[k].LocalStep? && steps[k].undo.Some? && k in chosen
  }

  predicate Asked<D>(steps: seq<Step<D>>, k: nat, d: D) {
    k < |steps| && steps[k].ParticipantStep? && Holds(steps[k].compensation, d)
  }

  function LocalCommand(k: nat): Option<Command> {
    Some(Command("local", "step", [k], None))
  }

  function UndoVisit<D>(steps: seq<Step<D>>, k: nat, d: D): Visit<D>
    requires k < |steps|
  {
    Visit(k, true, d, Compensates(steps[k], d))
  }

  lemma UndoLocally<D>(steps: seq<Step<D>>, k: nat, d: D)
    requires k < |steps| && !Asked(steps, k, d)
    ensures Backward(steps, k + 1, d) == After([UndoVisit(steps, k, d)], Backward(steps, k, Undo(steps[k], d)))
  {
  }

  /** How the converted saga undoes step `k`. */
  lemma UndoRemotely<D>(steps: seq<Step<D>>, chosen: set<nat>, k: nat, d: D)
    requires k < |steps|
    ensures var remote := Convert(steps, chosen);
      Backward(remote, k + 1, d) ==
        if Undone(steps, chosen, k) then
          Burst(At(k, true), Undo(steps[k], d), LocalCommand(k), [UndoVisit(steps, k, d)])
        else if Asked(steps, k, d) then Backward(steps, k + 1, d)
        else After([UndoVisit(steps, k, d)], Backward(remote, k, Undo(steps[k], d)))
    ensures Asked(steps, k, d) ==> !Converted(steps, chosen, Backward(Convert(steps, chosen), k + 1, d).pos)
  {
  }

  lemma DriveUndone<D>(steps: seq<Step<D>>, chosen: set<nat>, k: nat, d: D)
    requires Undone(steps, chosen, k)
    requires Fits(Convert(steps, chosen),
      Burst(At(k, true), Undo(steps[k], d), LocalCommand(k), [UndoVisit(steps, k, d)]))
    ensures var next := Backward(Convert(steps, chosen), k, Undo(steps[k], d));
      && Fits(Convert(steps, chosen), next)
      && Drive(steps, chosen, Burst(At(k, true), Undo(steps[k], d), LocalCommand(k), [UndoVisit(steps, k, d)])) ==
         After([UndoVisit(steps, k, d)], Drive(steps, chosen, next))
  {
    hide Convert, Backward, Forward, Fits, Drive;
    DriveOn(steps, chosen, UndoVisit(steps, k, d), Undo(steps[k], d), LocalCommand(k));
  }

  lemma BottomIsDone<D>(steps: seq<Step<D>>, chosen: set<nat>, d: D)
    ensures Backward(Convert(steps, chosen), 0, d) == Backward(steps, 0, d)
    ensures !Converted(steps, chosen, Backward(steps, 0, d).pos)
  {
  }

  lemma {:induction false} DriveBackward<D>(steps: seq<Step<D>>, chosen: set<nat>, i: nat, d: D)
    requires i <= |steps|
    ensures var b := Backward(Convert(steps, chosen), i, d);
      Fits(Convert(steps, chosen), b) && Drive(steps, chosen, b) == Backward(steps, i, d)
    decreases i
  {
    var remote := Convert(steps, chosen);
    hide *;
    BackwardFits(remote, i, d);
    if i == 0 {
      BottomIsDone(steps, chosen, d);
      DriveStops(steps, chosen, Backward(remote, i, d));
    } else {
      var k: nat := i - 1;
      var data := Undo(steps[k], d);
      DriveBackward(steps, chosen, k, data);
      UndoRemotely(steps, chosen, k, d);
      if Asked(steps, k, d) {
        UndoneIsNotAsked(steps, chosen, k, d);
        DriveStops(steps, chosen, Backward(remote, i, d));
      } else {
        UndoLocally(steps, k, d);
        if Undone(steps, chosen, k) {
          DriveUndone(steps, chosen, k, d);
        } else {
          DriveAfter(steps, chosen, [UndoVisit(steps, k, d)], Backward(remote, k, data));
        }
      }
    }
  }

  lemma UndoneIsNotAsked<D>(steps: seq<Step<D>>, chosen: set<nat>, k: nat, d: D)
    ensures !(Undone(steps, chosen, k) && Asked(steps, k, d))
  {
  }

  // ---------- forwards ----------

  function DoVisit<D>(steps: seq<Step<D>>, i: nat, d: D): Visit<D>
    requires i < |steps|
  {
    Visit(i, false, d, HasAction(steps[i], d))
  }

  predicate Local<D>(steps: seq<Step<D>>, i: nat) {
    i < |steps| && steps[i].LocalStep?
  }

  predicate Acting<D>(steps: seq<Step<D>>, i: nat, d: D) {
    i < |steps| && steps[i].ParticipantStep? && Holds(steps[i].action, d)
  }

  /** What a local step leaves behind. */
  function Left<D>(steps: seq<Step<D>>, i: nat, d: D): LocalResult<D>
    requires Local(steps, i)
  {
    steps[i].handler(d)
  }

  lemma DoLocally<D>(steps: seq<Step<D>>, i: nat, d: D)
    requires i < |steps| && !Acting(steps, i, d)
    ensures Forward(steps, i, d) == After([DoVisit(steps, i, d)],
      if Local(steps, i) then AfterLocal(steps, i, Left(steps, i, d)) else Forward(steps, i + 1, d))
  {
  }

  /** How the converted saga does step `i`. */
  lemma DoRemotely<D>(steps: seq<Step<D>>, chosen: set<nat>, i: nat, d: D)
    requires i < |steps|
    ensures var remote := Convert(steps, chosen);
      Forward(remote, i, d) ==
        if Local(steps, i) && i in chosen then
          Burst(At(i, false), Left(steps, i, d).data, LocalCommand(i), [DoVisit(steps, i, d)])
        else if Acting(steps, i, d) then Forward(steps, i, d)
        else After([DoVisit(steps, i, d)],
          if Local(steps, i) then AfterLocal(remote, i, Left(steps, i, d)) else Forward(remote, i + 1, d))
    ensures Acting(steps, i, d) ==>
      !Converted(steps, chosen, Forward(Convert(steps, chosen), i, d).pos) && !Local(steps, i)
  {
  }

  lemma DriveDone<D>(steps: seq<Step<D>>, chosen: set<nat>, i: nat, d: D)
    requires Local(steps, i) && i in chosen
    requires Fits(Convert(steps, chosen),
      Burst(At(i, false), Left(steps, i, d).data, LocalCommand(i), [DoVisit(steps, i, d)]))
    ensures var next := AfterLocal(Convert(steps, chosen), i, Left(steps, i, d));
      && Fits(Convert(steps, chosen), next)
      && Drive(steps, chosen, Burst(At(i, false), Left(steps, i, d).data, LocalCommand(i), [DoVisit(steps, i, d)])) ==
         After([DoVisit(steps, i, d)], Drive(steps, chosen, next))
  {
    hide Convert, Backward, Forward, Fits, Drive;
    DriveOn(steps, chosen, DoVisit(steps, i, d), Left(steps, i, d).data, LocalCommand(i));
  }

  lemma TopIsDone<D>(steps: seq<Step<D>>, chosen: set<nat>, d: D)
    ensures Forward(Convert(steps, chosen), |steps|, d) == Forward(steps, |steps|, d)
    ensures !Converted(steps, chosen, Forward(steps, |steps|, d).pos)
  {
  }

  lemma {:induction false} DriveForward<D>(steps: seq<Step<D>>, chosen: set<nat>, i: nat, d: D)
    requires i <= |steps|
    ensures var b := Forward(Convert(steps, chosen), i, d);
      Fits(Convert(steps, chosen), b) && Drive(steps, chosen, b) == Forward(steps, i, d)
    decreases |steps| - i, 1
  {
    var remote := Convert(steps, chosen);
    hide *;
    ForwardFits(remote, i, d);
    if i == |steps| {
      TopIsDone(steps, chosen, d);
      DriveStops(steps, chosen, Forward(remote, i, d));
    } else {
      DoRemotely(steps, chosen, i, d);
      if Acting(steps, i, d) {
        DriveStops(steps, chosen, Forward(remote, i, d));
      } else {
        DoLocally(steps, i, d);
        if Local(steps, i) {
          DriveAfterLocal(steps, chosen, i, Left(steps, i, d));
          if i in chosen {
            DriveDone(steps, chosen, i, d);
          } else {
            DriveAfter(steps, chosen, [DoVisit(steps, i, d)], AfterLocal(remote, i, Left(steps, i, d)));
          }
        } else {
          DriveForward(steps, chosen, i + 1, d);
          DriveAfter(steps, chosen, [DoVisit(steps, i, d)], Forward(remote, i + 1, d));
        }
      }
    }
  }

  lemma DriveAfterLocal<D>(steps: seq<Step<D>>, chosen: set<nat>, i: nat, r: LocalResult<D>)
    requires i < |steps|
    ensures var b := AfterLocal(Convert(steps, chosen), i, r);
      Fits(Convert(steps, chosen), b) && Drive(steps, chosen, b) == AfterLocal(steps, i, r)
    decreases |steps| - i, 0
  {
    hide Forward, Backward, Drive, Fits, Convert;
    if r.exception.None? {
      DriveForward(steps, chosen, i + 1, r.data);
    } else {
      DriveBackward(steps, chosen, i, r.data);
    }
  }

  // ---------- whole runs ----------

  /** A saga's story so far, after one more reply; a reply it rejects moves it nowhere. */
  function Answer<D>(steps: seq<Step<D>>, b: Burst<D>, reply: Reply): (a: Burst<D>)
    requires Fits(steps, b)
    ensures Fits(steps, a)
  {
    if !b.pos.At? then b
    else match OnReply(steps, b.pos.index, b.pos.compensating, b.data, reply)
      case None => b.(data := AfterReply(steps[b.pos.index], b.pos.compensating, b.data, reply))
      case Some(next) =>
        AnswerAdvances(steps, b.pos.index, b.pos.compensating, b.data, reply);
        AfterFits(steps, b.visits, next);
        After(b.visits, next)
  }

  /** It is what the saga manager makes of that reply. */
  lemma AnswerIsReact<D>(steps: seq<Step<D>>, next: nat, x: Instance<D>, m: ReplyMessage)
    requires Fits(steps, Story(x))
    ensures var y := React(steps, next, x, m).instance;
      var a := Answer(steps, Story(x), m.reply);
      a.pos == y.pos && a.data == y.data && a.visits == y.visits
  {
    hide OnReply, AfterReply;
  }

  /** The story of a saga that is given these replies by its participants. */
  function Play<D>(steps: seq<Step<D>>, d: D, replies: seq<Reply>): (b: Burst<D>)
    ensures Fits(steps, b)
  {
    ForwardFits(steps, 0, d);
    if replies == [] then Forward(steps, 0, d)
    else Answer(steps, Play(steps, d, replies[..|replies| - 1]), replies[|replies| - 1])
  }

  lemma DriveFits<D>(steps: seq<Step<D>>, chosen: set<nat>, b: Burst<D>)
    requires Fits(Convert(steps, chosen), b)
    ensures Fits(Convert(steps, chosen), Drive(steps, chosen, b))
    decreases G.Rank(|steps|, b.pos)
  {
    hide Convert, Forward, Backward;
    if Converted(steps, chosen, b.pos) {
      var remote := Convert(steps, chosen);
      var reply := Reply(OutcomeOf(steps, b.visits[|b.visits| - 1]), "", []);
      AnswerAdvances(remote, b.pos.index, b.pos.compensating, b.data, reply);
      var next := OnReply(remote, b.pos.index, b.pos.compensating, b.data, reply).value;
      AfterFits(remote, b.visits, next);
      DriveFits(steps, chosen, After(b.visits, next));
    }
  }

  /** The story of the converted saga, whose converted steps are answered at once. */
  function PlayRemotely<D>(steps: seq<Step<D>>, chosen: set<nat>, d: D, replies: seq<Reply>): (b: Burst<D>)
    ensures Fits(Convert(steps, chosen), b)
  {
    var remote := Convert(steps, chosen);
    ForwardFits(remote, 0, d);
    var asked := if replies == [] then Forward(remote, 0, d)
      else Answer(remote, PlayRemotely(steps, chosen, d, replies[..|replies| - 1]), replies[|replies| - 1]);
    DriveFits(steps, chosen, asked);
    Drive(steps, chosen, asked)
  }

  /** The burst after a reply to this step. */
  lemma RepliedBy<D>(steps: seq<Step<D>>, step: Step<D>, i: nat, compensating: bool, d: D, reply: Reply)
    requires i < |steps| && steps[i] == step
    ensures var data := AfterReply(step, compensating, d, reply);
      OnReply(steps, i, compensating, d, reply) ==
        if reply.outcome == Failure && compensating then None
        else if reply.outcome == Failure || compensating then Some(Backward(steps, i, data))
        else Some(Forward(steps, i + 1, data))
  {
    hide Forward, Backward, AfterReply;
  }

  /** A reply to a step that stayed as it was. */
  lemma RepliesAlike<D>(steps: seq<Step<D>>, chosen: set<nat>, i: nat, compensating: bool, d: D, reply: Reply)
    requires i < |steps| && Convert(steps, chosen)[i] == steps[i]
    ensures var remotely := OnReply(Convert(steps, chosen), i, compensating, d, reply);
      var locally := OnReply(steps, i, compensating, d, reply);
      if locally.None? then remotely.None?
      else
        && remotely.Some?
        && Fits(Convert(steps, chosen), remotely.value)
        && Drive(steps, chosen, remotely.value) == locally.value
  {
    hide *;
    var data := AfterReply(steps[i], compensating, d, reply);
    DriveBackward(steps, chosen, i, data);
    DriveForward(steps, chosen, i + 1, data);
    RepliedBy(steps, steps[i], i, compensating, d, reply);
    RepliedBy(Convert(steps, chosen), steps[i], i, compensating, d, reply);
  }

  lemma WaitsUnconverted<D>(steps: seq<Step<D>>, chosen: set<nat>, b: Burst<D>)
    requires Fits(steps, b)
    ensures !Converted(steps, chosen, b.pos)
    ensures b.pos.At? ==> Convert(steps, chosen)[b.pos.index] == steps[b.pos.index]
  {
  }

  /** A reply of a participant that both sagas wait for. */
  lemma AnswersAlike<D>(steps: seq<Step<D>>, chosen: set<nat>, b: Burst<D>, reply: Reply)
    requires Fits(steps, b) && Fits(Convert(steps, chosen), b)
    ensures Drive(steps, chosen, Answer(Convert(steps, chosen), b, reply)) == Answer(steps, b, reply)
  {
    WaitsUnconverted(steps, chosen, b);
    if b.pos.At? {
      RepliesAlike(steps, chosen, b.pos.index, b.pos.compensating, b.data, reply);
      hide OnReply, AfterReply, Drive, Convert, Converted;
      var next := OnReply(Convert(steps, chosen), b.pos.index, b.pos.compensating, b.data, reply);
      if next.Some? {
        DriveAfter(steps, chosen, b.visits, next.value);
      } else {
        DriveStops(steps, chosen, Answer(Convert(steps, chosen), b, reply));
      }
    } else {
      DriveStops(steps, chosen, b);
    }
  }

  /**
   For every step list, choice of local steps, data and replies, the loop over local
   steps and the one-reply-per-step saga make the same tests and reach the same
   position, data, flags and command.
   */
  lemma {:induction false} LocalStepsAreImmediateParticipants<D>(
    steps: seq<Step<D>>, chosen: set<nat>, d: D, replies: seq<Reply>)
    ensures PlayRemotely(steps, chosen, d, replies) == Play(steps, d, replies)
  {
    if replies == [] {
      DriveForward(steps, chosen, 0, d);
    } else {
      var n := |replies| - 1;
      LocalStepsAreImmediateParticipants(steps, chosen, d, replies[..n]);
      AnswersAlike(steps, chosen, Play(steps, d, replies[..n]), replies[n]);
    }
  }

  /** The step that a new saga executes first. */
  function FirstExecuted<D>(steps: seq<Step<D>>, i: nat, d: D): nat
    requires i <= |steps|
    decreases |steps| - i
  {
    if i == |steps| || HasAction(steps[i], d) then i else FirstExecuted(steps, i + 1, d)
  }

  /**
   The exception: a saga whose first executed step throws locally is not begun at all.
   The converted saga is refused in just the same cases, unless that very step was converted.
   */
  lemma {:induction false} ConvertedSagasBeginAlike<D>(steps: seq<Step<D>>, chosen: set<nat>, i: nat, d: D)
    requires i <= |steps|
    ensures FirstThrow(Convert(steps, chosen), i, d) ==
      if FirstExecuted(steps, i, d) in chosen then None else FirstThrow(steps, i, d)
    decreases |steps| - i
  {
    if i < |steps| && !HasAction(steps[i], d) {
      ConvertedSagasBeginAlike(steps, chosen, i + 1, d);
    }
  }
}
