# Sagas, proved

nest-convoy runs sagas: lists of local steps and of requests to other services, with
compensations that undo them after a failure. This project models its saga orchestrator
statement by statement, proves what every run of it keeps, puts the example services
under it, and proves what those services then guarantee. Beside it stand the components
around the orchestrator whose correctness rests on an algorithm: lock manager, Kafka
offset tracker, triggering-event watermark, event upcasting and message headers.

`dafny verify dfyconfig.toml` checks everything.

## How it is built

- **A reference meaning.** `SagaSteps` says what a step list does between two messages:
  `Forward` and `Backward` recurse along the list over arbitrary data, and every test of
  a step is recorded in `visits`. `SagaSystem` says what one message does to a saga
  manager, as a function of the instances, the messages sent and the hooks called.
- **The program.** `SagaDefinitions` and `SagaManagers` are the classes of the source
  with their loops and fields, each method proved to do what the reference says.
- **All runs.** `SagaRuns` and `SagaGuarantees` prove, for any steps, data, number of
  sagas and replies in any order, which effects a run has and in which order, that it
  ends once, that it is bounded, and that one command at a time is outstanding.
  `SagaEffects` ties the effects to what is sent: the commands of a run are those that
  the effects built, each from the data that the steps and replies before it left.
  `LocalAsRemote` proves that local steps are participants that answer at once, and
  `ExampleSagas` follows the three sagas of the DSL's own tests message by message.
- **Services under it.** `Tickets`, `Orders` and `Customers` are the entities;
  `OrderSagas` and `CreateOrders` are networks in which any number of sagas, participants
  and other callers take turns in any order. A network holds a saga's position and data,
  and moves them by `Forward` and `OnReply`, which `ManagerStarts` and `ManagerHears`
  show to be the manager's own moves.
- **Neighbours.** `SagaLocks`, `KafkaOffsets`, `EtpoEventContexts`, `TriggeringEvents`,
  `SchemaUpcast` and `MessageHeaders` each hold the component as a class or a loop, a
  simple specification, and the proof that the first refines the second.

## What a reader would not guess

- A failing step's own compensation is not run, and compensation does not ask whether a
  step's action ran: every lower step with a compensation is compensated.
- A local compensation takes effect while the search for the next step asks whether there
  is one (`HasCompensation`), and the step then counts as skipped.
- If the step that acts first is local and throws, the saga is not begun and stays saved,
  unstarted, and its target, if claimed, stays claimed.
- An order revision that leaves out a line item passes the order's begin and the ticket's
  confirmation, is refused at the order's confirmation, and then cannot be undone: its saga
  never ends and keeps the order for ever, `LeavingOutNeverEnds`. Nothing else breaks a
  saga, `BrokenExactlyByLeavingOut`, and it harms no other saga's undos and confirms.
- The total announced for a revision is not always the final one: entries for a menu item
  that was revised already, and line items of a menu item that another one has, are counted
  differently. `QuotedTotalIsFinal` says by how much, for every revision.
- An order whose approval fails after its credit was reserved is rejected without a
  reason and keeps the credit, and no other rejected order does:
  `RejectedKeepsCreditExactlyIfApprovalFailed`.
- Approved orders can exceed a customer's limit, because a negative total that is granted
  gives credit: `ApprovedTotalsFitExactly`, `NegativeTotalsOverdraw`.
- Committing Kafka positions is safe exactly when messages finish oldest first:
  `FinishingIsSafeExactlyForTheOldest`.
- An event that shares its metadata object with one upcast before it is left as it was,
  because it seems to be of the current version: `ComesOutUpcastExactly`,
  `SharedMetadataIsUpcastOnce`.

## Assumptions

- Data is arbitrary, and predicates, command builders and handlers are functions of it.
  Local compensations return nothing and do not throw; reply handlers do not throw; what
  a local handler throws is not a falsy value.
- The instance repository is the one in memory, and saving gives a fresh id. One manager
  holds one saga type, so the store is keyed by the id alone. A message's id is its index
  among the messages sent.
- Creating a saga takes the lock manager's answer as a parameter. The code claims a target
  even when the caller names none; `claim` is then the answer for that target.
- A manager handles each message to its end before the next one: what the code awaits
  between reading and storing an instance is not interleaved with other messages.
- About one manager nothing else is assumed of the replies that arrive, repeated, late or for
  no command. Only a reply that it accepts and that does not answer its last request leaves
  a command outstanding that it no longer awaits (`OneCommandOutstandingExactly`).
- The networks `OrderSagas` and `CreateOrders` deliver exactly once: a command reaches its
  participant once and its answer reaches the saga once. Their results rest on that. A saga
  takes any reply while it waits, so a repeated one would count for the next command. Of
  commands that are delivered again: a ticket or order operation that was granted is refused
  when it is repeated (`NothingIsGrantedTwice`), so a repeated undo reads as a failure when
  compensating; a reservation is made again whenever the credit lasts
  (`RedeliveryReservesAgainExactlyIfItCan`), so an order could hold two, but the limits
  hold under any delivery (`LimitsSurviveRedelivery`). After its end a saga rejects every
  reply (`RepliesAfterTheEndAreRejected`).
- In `OrderSagas` handlers are atomic and refuse without effect; the order-side handlers,
  which are not part of the repository, are the entity's own transitions, and the begin
  of a revision replies with the announced total; accounting answers as it likes; the
  kitchen works on the ticket, and the order is noted approved or rejected, at any time. The
  order and ticket at the start are arbitrary, and so are the revisions. The minimum that
  `revise` tests is an arbitrary number.
- In `CreateOrders` the customer service finds, checks and saves a customer in one step, and
  a saga's local step is one step too. A local step works on the order table as it is when
  it runs; the table, the next id and a possible failure reach it through the data. An
  update that throws has written nothing. Exceptions arrive as failure replies named after
  their class.
- The lock table inserts or throws on its primary key, as the `catch` in the claim loop
  expects. A refused claim and its stash are one step, and so are an unlock and the
  re-handling of the message that it returns. Saga ids are not empty.
- Money is an integer. Nothing proved depends on rounding.

## Model

| member | source | states |
|---|---|---|
| `ExecutionStates.CodecInverts` | packages/sagas/orchestration/dsl/saga-execution-state-json-serde.ts:3-12 | decoding the JSON text of any execution state, negative indices included, gives that state back |
| `ExecutionStates.EncodeIsInjective` | packages/sagas/orchestration/dsl/saga-execution-state-json-serde.ts:10-12 | two states with the same text are the same state |
| `ExecutionStates.EncodedText` | packages/sagas/orchestration/dsl/saga-execution-state-json-serde.ts:10-12 | the text of every state, member by member, in the order of the fields |
| `ExecutionStates.MembersRoundTrip` | packages/sagas/orchestration/dsl/saga-execution-state-json-serde.ts:3-12 | printing and parsing flat JSON objects of numbers and booleans invert each other, in front of any text (sections 4 and 6 of RFC 8259) |
| `SagaDefinitions.StepOutcome.Visit` | packages/sagas/orchestration/dsl/step-outcome.ts:17-47 | a local outcome marks the actions local with its exception, a remote one adds its commands; nothing else of the actions changes |
| `SagaDefinitions.CreateStepOutcome` | packages/sagas/orchestration/dsl/local-step.ts:39-54 | executing a local step runs its handler on the data and reports its exception, or, compensating, runs its compensation; executing a participant step builds the one command of the invocation in question, and throws without one (participant-invocation-step.ts:55-66) |
| `SagaDefinitions.HasCompensation` | packages/sagas/orchestration/dsl/local-step.ts:26-30 | asking a local step for its compensation runs the compensation on the data and answers no; asking a participant step changes nothing and answers whether it has a compensation without a predicate, or with one that is true of the data (participant-invocation-step.ts:31-35) |
| `SagaDefinitions.QueryAction` | packages/sagas/orchestration/dsl/participant-invocation-step.ts:25-29 | a local step always acts; a participant step acts exactly if it has an action without a predicate, or with one that is true of the data |
| `SagaDefinitions.InvokeReplyHandler` | packages/sagas/orchestration/dsl/participant-invocation-step.ts:37-48 | runs the handler of the step for the type of the reply, from the compensation's while compensating and from the action's otherwise; without one the data stays (nest-saga-definition.ts:98-106) |
| `SagaDefinitions.SagaActionsBuilder.WithCommands` | packages/sagas/orchestration/saga-actions.ts:45-48 | adds the commands after those already there and leaves every other field |
| `SagaDefinitions.SagaActionsBuilder.WithIsLocal` | packages/sagas/orchestration/saga-actions.ts:55-59 | marks the actions local with the exception and leaves every other field |
| `SagaDefinitions.StepToExecute.ExecuteStep` | packages/sagas/orchestration/dsl/step-to-execute.ts:21-42 | the next state, the old one moved by the size, names exactly the step that was executed; the actions hold its command or its exception, and what is left to do is the rest of the reference burst from that step |
| `SagaDefinitions.NestSagaDefinition.NextStepToExecute` | packages/sagas/orchestration/dsl/nest-saga-definition.ts:21-46 | the search, up or down, finds the first step whose action acts, or whose compensation can be asked of a participant: its predicate is absent or true of the data; the skipped count moves the state onto it; with what it ran on the way it is a prefix of the reference burst |
| `SagaDefinitions.NestSagaDefinition.ExecuteNextStep` | packages/sagas/orchestration/dsl/nest-saga-definition.ts:48-57 | executing the next step, or ending, leaves exactly the rest of the reference burst; a new saga reports an exception exactly when the first step that acts is local and throws |
| `SagaDefinitions.NestSagaDefinition.MakeEndStateSagaActions` | packages/sagas/orchestration/dsl/nest-saga-definition.ts:59-67 | the actions of an end: no commands, the end state, and the direction in which it was reached |
| `SagaDefinitions.NestSagaDefinition.Start` | packages/sagas/orchestration/dsl/nest-saga-definition.ts:80-83 | starting is the forward burst from step 0 |
| `SagaDefinitions.NestSagaDefinition.HandleReply` | packages/sagas/orchestration/dsl/nest-saga-definition.ts:85-115 | all four outcomes of a reply: unreadable state, missing step, failure while compensating, or the burst that goes on after a success and turns around below a failed step, on the data as the reply handler left it |
| `SagaSystem.ForwardEnds` | packages/sagas/orchestration/dsl/nest-saga-definition.ts:21-57 | a forward burst stops only at the end or at a participant step that has the invocation asked of it, with a command exactly in the second case |
| `SagaSystem.BackwardEnds` | packages/sagas/orchestration/dsl/nest-saga-definition.ts:21-57 | the same for a burst of compensations, which always ends compensating |
| `SagaSystem.ReactEnds` | packages/sagas/orchestration/saga-manager.ts:186-216 | after any reply, accepted or rejected, an instance stands where it can take the next one |
| `SagaSystem.ClaimsDecide` | packages/sagas/orchestration/saga-manager.ts:266-284 | a creation is rejected for its claim if and only if that was refused, and then it only saves the instance and announces it; a claim that was granted makes no difference to having none; every creation is announced |
| `SagaManagers.SagaInstanceRepository.Save` | packages/sagas/orchestration/saga-instance-repository.ts:19-26 | stores the instance under a fresh id; all other instances stay as they were |
| `SagaManagers.SagaInstanceRepository.Update` | packages/sagas/orchestration/saga-instance-repository.ts:28-30 | stores the instance under its own id |
| `SagaManagers.CommandProducer.SendCommands` | packages/sagas/orchestration/saga-command-producer.ts:14-37 | sends every command in order, for this saga, after all that was sent before, and returns the id of the last one |
| `SagaManagers.SagaManager.UpdateState` | packages/sagas/orchestration/saga-manager.ts:94-103 | takes over state, end flag and direction exactly when the actions carry a state |
| `SagaManagers.SagaManager.PerformEndStateActions` | packages/sagas/orchestration/saga-manager.ts:105-132 | sends one unlock for each locked target, in order, and then calls one end hook, the rollback hook exactly when compensating |
| `SagaManagers.SagaManager.ProcessActions` | packages/sagas/orchestration/saga-manager.ts:134-179 | the loop sends, stores, ends and fires hooks exactly as the rest of the reference burst says, and terminates because forward actions rank above compensating ones and each pass moves up a step or turns around |
| `SagaManagers.SagaManager.HandleReplyFor` | packages/sagas/orchestration/saga-manager.ts:186-216 | an instance reacts to a reply exactly as the reference reaction: position, last request, data, locked targets, messages sent, hooks called, rejection |
| `SagaManagers.SagaManager.HandleReply` | packages/sagas/orchestration/saga-manager.ts:181-216 | the manager with its repository and producer goes from one abstract system to the next: a reply changes its own instance as the reaction says and no other; a reply for another saga type changes nothing |
| `SagaManagers.SagaManager.Create` | packages/sagas/orchestration/saga-manager.ts:245-287 | creating saves a fresh instance, announces it, claims the target, and runs the first burst; it is rejected for the claim exactly if the claim was refused, and then nothing but the unbegun instance is left; a first local step that throws is reported and leaves the instance unstarted |
| `SagaRuns.BackwardFalls` | packages/sagas/orchestration/dsl/nest-saga-definition.ts:25-43 | a burst of compensations tests every step below its start once, in descending order, and stops where one takes effect remotely |
| `SagaRuns.ForwardClimbs` | packages/sagas/orchestration/saga-manager.ts:139-178 | a forward burst tests every step from its start once, in ascending order, turns around at most once, exactly at a local step that throws, and then falls |
| `SagaRuns.EveryInstanceHasAHistory` | packages/sagas/orchestration/saga-manager.ts:134-287 | in every run of a manager, for any steps, data, sagas and replies, each instance made one climb and, exactly after a failure, one fall; it never turns forward again |
| `SagaRuns.EveryInstanceEndsOnce` | packages/sagas/orchestration/saga-manager.ts:105-132 | in every run, end hooks and unlocks of an instance appear only at its end |
| `SagaGuarantees.EffectsOfEveryRun` | packages/sagas/orchestration/dsl/nest-saga-definition.ts:21-57 | in every run the actions that took effect are the ascending list of exactly the steps passed whose action test held when passed; after a failure at step f the compensations are the descending list of exactly the steps below f, down to the lowest tested, that compensate, each once; a saga that ended has tested them all, and f itself acted but is not compensated. What an effect is, `SagaEffects` says |
| `SagaGuarantees.StepsTakeEffectExactlyIfInvocable` | packages/sagas/orchestration/dsl/participant-invocation-step.ts:25-35 | in every run a participant step takes effect when tested if and only if it has the invocation for that direction, and that has no predicate or one that is true of the data it was tested on; a local action always, a local compensation if there is one |
| `SagaGuarantees.CompensatesExactlyOnFailure` | packages/sagas/orchestration/dsl/nest-saga-definition.ts:108-114 | an instance is compensating if and only if it accepted a failure reply or a local action threw |
| `SagaGuarantees.EndsOnceAndUnlocksAll` | packages/sagas/orchestration/saga-manager.ts:105-132 | an ended instance has fired exactly one end hook, the rollback hook exactly when it compensated, and has sent, as a multiset, exactly one unlock for each locked target on the replies it received; one that has not ended, none of either |
| `SagaGuarantees.EveryReplyAdvances` | packages/sagas/orchestration/dsl/nest-saga-definition.ts:108-114 | every accepted reply strictly lowers a rank that puts forward positions above compensating ones; a rejected one never raises it |
| `SagaGuarantees.EveryRunIsBounded` | packages/sagas/orchestration/saga-manager.ts:139-178 | with n steps no instance makes more than 2n - 1 step tests or accepts more than 2n replies, in any run |
| `SagaGuarantees.OneCommandOutstanding` | packages/sagas/orchestration/saga-manager.ts:146-170 | when only outstanding commands of this saga are answered to it, whatever replies other sagas get, it has exactly one outstanding command while it waits, the one its last request id names, and none otherwise |
| `SagaGuarantees.ReplyKeepsOneExactly` | packages/sagas/orchestration/saga-manager.ts:186-216 | the condition is exact: a reply leaves a saga with exactly its last request outstanding if and only if it is rejected or answers that request |
| `SagaGuarantees.OneCommandOutstandingExactly` | packages/sagas/orchestration/saga-manager.ts:146-170 | for every run: at every moment exactly the last request of a saga is outstanding, if and only if each reply that the saga accepts answers its last request |
| `SagaGuarantees.RepeatedAnswerBreaksOne` | packages/sagas/orchestration/saga-manager.ts:186-216 | a run in which it is not: the answer to the first command arrives twice, is taken for that to the second, and the saga ends with a command outstanding |
| `SagaGuarantees.RepliesTouchOneInstance` | packages/sagas/orchestration/saga-manager.ts:186-216 | handling a reply changes no other instance, and all it sends and calls is for its own |
| `SagaGuarantees.RepliesAfterTheEndAreRejected` | packages/sagas/orchestration/dsl/nest-saga-definition.ts:90-96 | a reply after the end is rejected with a missing step: nothing is sent, no hook is called, position and data stay |
| `SagaEffects.ForwardIsEffective` | packages/sagas/orchestration/dsl/nest-saga-definition.ts:48-57 | a forward burst sends the one command that the step it waits at builds, and threads its data through the steps: each is tested on what the step before it left |
| `SagaEffects.BackwardIsEffective` | packages/sagas/orchestration/dsl/nest-saga-definition.ts:48-57 | the same for a burst of compensations |
| `SagaEffects.CommandsAreTheEffects` | packages/sagas/orchestration/saga-manager.ts:146-170 | in every run the commands sent for an instance are, in order, exactly those that its participant steps built, from the data recorded, at the tests where they took effect |
| `SagaEffects.EveryDataHasAHistory` | packages/sagas/orchestration/saga-manager.ts:186-287 | in every run each saga that began has a history from the data it was created with: its tests and all replies it received, in one order, in which each test is made on just the data that the handlers, command builders and reply handlers before it left, replies are heard only by a step that sent a command, and its data now is what all of them left |
| `SagaEffects.ReactionTells` | packages/sagas/orchestration/saga-manager.ts:186-216 | one reply extends that history by itself and the tests it causes |
| `SagaEffects.RepliesRunTheirHandlerFirst` | packages/sagas/orchestration/dsl/nest-saga-definition.ts:98-106 | in every run a reply to a waiting saga, accepted or not, first runs the handler for its type, of the compensation while compensating and of the action otherwise, or none; the next test is made on what that left, or, if there is none, it is the data |
| `SagaEffects.RefusedSagasNeverBegin` | packages/sagas/orchestration/saga-manager.ts:266-276 | in every run a saga whose claim was refused stays unbegun with its data whatever comes later: nothing is ever sent and no end hook called for it |
| `ExampleSagas.ConditionFalse` | packages/sagas/orchestration/dsl/e2e/conditional.saga.ts:8-17 | the conditional saga with its condition false, with and without reply handlers: only Do2 is sent, and neither Do1 nor Undo1; handlers called and end hook as in its tests |
| `ExampleSagas.ConditionTrueCompletes` | packages/sagas/orchestration/dsl/e2e/with-reply-handlers.saga.ts:19-31 | with its condition true both commands are sent, and the success handlers called in turn |
| `ExampleSagas.ConditionTrueRollsBack` | packages/sagas/orchestration/dsl/e2e/with-reply-handlers.saga.ts:19-31 | when Do2 fails Undo1 is sent; the handlers called are the first success, the second failure and then that of the compensation |
| `ExampleSagas.ConditionTrueFails` | packages/sagas/orchestration/dsl/e2e/with-reply-handlers.saga.ts:19-31 | when Do1 fails nothing is undone, and its failure handler is called |
| `ExampleSagas.LocalSagaRuns` | packages/sagas/orchestration/dsl/e2e/local.saga.ts:17-26 | the local saga completes; or Do2 fails and the first local step is compensated |
| `ExampleSagas.LocalSagaTurns` | packages/sagas/orchestration/dsl/e2e/local.saga.ts:17-26 | its last step throws: Undo2 is sent and then the first step is compensated |
| `ExampleSagas.LocalSagaIsNotBegun` | packages/sagas/orchestration/saga-manager.ts:278-282 | its first step throws: the creation reports that exception, nothing is sent, and what the step had done to the data stays |
| `LocalAsRemote.LocalStepsAreImmediateParticipants` | packages/sagas/orchestration/saga-manager.ts:139-178 | for all steps, data and replies, turning any local steps into participants that do the same to the data and answer at once with the same outcome gives the same tests, position, data, direction and command |
| `LocalAsRemote.ConvertedSagasBeginAlike` | packages/sagas/orchestration/saga-manager.ts:280-282 | the exception: creation is refused in the same cases for the converted saga, unless the very step that acts first was converted |
| `LocalAsRemote.AnswerIsReact` | packages/sagas/orchestration/saga-manager.ts:186-216 | one reply in that comparison is one reaction of the manager |
| `Tickets.Ticket.ConfirmCreate` | examples/ftgo-app/services/kitchen/entities/ticket.entity.ts:109-118 | a pending creation becomes awaiting acceptance; refused in every other state, and then nothing changes |
| `Tickets.Ticket.Accept` | examples/ftgo-app/services/kitchen/entities/ticket.entity.ts:125-142 | awaiting acceptance becomes accepted; refused otherwise |
| `Tickets.Ticket.Preparing` | examples/ftgo-app/services/kitchen/entities/ticket.entity.ts:148-158 | accepted becomes preparing; refused otherwise |
| `Tickets.Ticket.ReadyForPickup` | examples/ftgo-app/services/kitchen/entities/ticket.entity.ts:160-170 | preparing becomes ready; refused otherwise |
| `Tickets.Ticket.PickedUp` | examples/ftgo-app/services/kitchen/entities/ticket.entity.ts:172-182 | ready becomes picked up; refused otherwise |
| `Tickets.Ticket.Cancel` | examples/ftgo-app/services/kitchen/entities/ticket.entity.ts:197-208 | awaiting acceptance or accepted becomes cancel pending and is remembered; refused otherwise |
| `Tickets.Ticket.ConfirmCancel` | examples/ftgo-app/services/kitchen/entities/ticket.entity.ts:210-219 | cancel pending becomes cancelled; refused otherwise |
| `Tickets.Ticket.UndoCancel` | examples/ftgo-app/services/kitchen/entities/ticket.entity.ts:221-230 | cancel pending becomes the remembered state; refused otherwise |
| `Tickets.Ticket.BeginReviseOrder` | examples/ftgo-app/services/kitchen/entities/ticket.entity.ts:232-243 | awaiting acceptance or accepted becomes revision pending and is remembered; refused otherwise |
| `Tickets.Ticket.UndoBeginReviseOrder` | examples/ftgo-app/services/kitchen/entities/ticket.entity.ts:245-254 | revision pending becomes the remembered state; refused otherwise |
| `Tickets.Ticket.ConfirmReviseTicket` | examples/ftgo-app/services/kitchen/entities/ticket.entity.ts:256-267 | revision pending becomes the remembered state; refused otherwise |
| `Tickets.WorkIsDoneInOrder` | examples/ftgo-app/services/kitchen/entities/ticket.entity.ts:109-182 | in every life of a ticket the kitchen confirmed, accepted, prepared, readied and handed it over in that order, each once at most, and how far it came is what the state tells, or the remembered state of a ticket that is pending or cancelled |
| `Tickets.PendingRemembersAnOpenState` | examples/ftgo-app/services/kitchen/entities/ticket.entity.ts:109-267 | in every life of a ticket, whatever is asked of it, a pending ticket remembers awaiting acceptance or accepted |
| `Tickets.UndoRestores` | examples/ftgo-app/services/kitchen/entities/ticket.entity.ts:197-267 | between a begin and its own undo or confirm every other operation is refused, so the undo, whenever it comes, is granted and restores the state that the begin found |
| `Tickets.NothingIsGrantedTwice` | examples/ftgo-app/services/kitchen/entities/ticket.entity.ts:109-267 | in every life of a ticket an operation that was granted is refused when it is asked again at once |
| `Orders.OrderLineItems.Update` | examples/ftgo-app/services/order/entities/order-line-items.entity.ts:70-84 | sets each line item to its revised quantity, or stops with an error at the first item that the revision leaves out, having set those before it |
| `Orders.Order.Cancel` | examples/ftgo-app/services/order/entities/order.entity.ts:71-80 | approved becomes cancel pending; refused otherwise |
| `Orders.Order.UndoPendingCancel` | examples/ftgo-app/services/order/entities/order.entity.ts:82-91 | cancel pending becomes approved; refused otherwise |
| `Orders.Order.NoteCancelled` | examples/ftgo-app/services/order/entities/order.entity.ts:93-102 | cancel pending becomes cancelled; refused otherwise |
| `Orders.Order.NoteApproved` | examples/ftgo-app/services/order/entities/order.entity.ts:104-113 | approval pending becomes approved; refused otherwise |
| `Orders.Order.NoteRejected` | examples/ftgo-app/services/order/entities/order.entity.ts:115-124 | approval pending becomes rejected; refused otherwise |
| `Orders.Order.Revise` | examples/ftgo-app/services/order/entities/order.entity.ts:130-151 | an approved order announces the total that the revision would give and becomes revision pending, unless the total reaches the minimum or an item is unknown; refused otherwise |
| `Orders.Order.RejectRevision` | examples/ftgo-app/services/order/entities/order.entity.ts:153-162 | revision pending becomes approved; refused otherwise |
| `Orders.Order.ConfirmRevision` | examples/ftgo-app/services/order/entities/order.entity.ts:164-186 | revision pending becomes approved with the revised quantities and delivery information; refused in other states and when the revision leaves an item out |
| `Orders.NotesDecide` | examples/ftgo-app/services/order/entities/order.entity.ts:71-186 | in every life of an order it waits for approval until exactly one note decides it, is rejected ever after a rejection and otherwise was approved; its delivery information is that of the last confirmed revision that gave some |
| `Orders.SumOfPermutation` | examples/ftgo-app/services/order/entities/order-line-items.entity.ts:33-56 | a sum over ids is the same in every order of the ids |
| `Orders.QuotedTotalIsFinal` | examples/ftgo-app/services/order/entities/order-line-items.entity.ts:33-84 | for every revision that is announced a total and can be confirmed, with menu items repeated or not and in any order: the announced total less what it counts for repeated entries is the final total less what the update changes on repeated line items; so the quote is final if and only if these two agree, and always when no menu item is repeated |
| `Orders.MatchingQuoteIsFinal` | examples/ftgo-app/services/order/entities/order-line-items.entity.ts:33-84 | every revision that names each line item once, in any order, is announced a total, can be confirmed, and gives that total |
| `Orders.AcceptedAndCoveringNamesTheItems` | examples/ftgo-app/services/order/entities/order-line-items.entity.ts:46-84 | a revision that is announced a total and can be confirmed names the menu items of the line items, and no others |
| `Orders.AcceptedAndCoveringMatches` | examples/ftgo-app/services/order/entities/order-line-items.entity.ts:46-84 | without repeated menu items, every revision that is announced a total and can be confirmed names exactly the line items |
| `Orders.AnnouncedTotalIsConfirmed` | examples/ftgo-app/services/order/entities/order.entity.ts:130-186 | after any operations on an order, confirming the revision last announced gives a total that differs from the announced one by just what was counted for repetitions, so it is the announced one if and only if these agree |
| `Orders.QuotedTotalCanDiffer` | examples/ftgo-app/services/order/entities/order-line-items.entity.ts:46-84 | a revision that names an item twice: 40 is announced, 20 is final |
| `Orders.QuotedTotalCanDifferForRepeatedItems` | examples/ftgo-app/services/order/entities/order-line-items.entity.ts:46-84 | a menu item on two line items: 30 is announced, 40 is final |
| `Orders.QuotedTotalNeedNotDiffer` | examples/ftgo-app/services/order/entities/order-line-items.entity.ts:46-84 | a repeated entry that keeps the quantity the item had: the quote is final all the same |
| `Orders.NothingIsGrantedTwice` | examples/ftgo-app/services/order/entities/order.entity.ts:71-186 | an operation on an order that was granted is refused when it is asked again at once |
| `OrderSagas.StepsMove` | examples/ftgo-app/services/order/sagas/revise-order/revise-order.saga.ts:26-39 | the step list of either saga (cancel-order.saga.ts:25-37) moves a saga, from every reachable position and with every reply, to the position and command that a table of its five steps says |
| `OrderSagas.CancelOrderSends` | examples/ftgo-app/services/order/sagas/cancel-order/cancel-order.saga.ts:39-90 | the seven messages of the cancelling saga, with channel, type and arguments |
| `OrderSagas.ReviseOrderSends` | examples/ftgo-app/services/order/sagas/revise-order/revise-order.saga.ts:41-116 | the seven messages of the revising saga, with channel, type and arguments |
| `OrderSagas.ServingIsPerforming` | examples/ftgo-app/services/order/sagas/cancel-order/cancel-order.saga.ts:39-90 | a request survives its trip over the wire: what a participant does with the command is what the request asks |
| `OrderSagas.ManagerStarts` | packages/sagas/orchestration/saga-manager.ts:278-284 | the network starts a saga as the manager does, with its first command |
| `OrderSagas.ManagerHears` | packages/sagas/orchestration/saga-manager.ts:186-216 | the network moves a saga on a reply as the manager does: position, data, command sent, or failure when compensating; at the end the manager also sends the unlocks that the replies ask for |
| `OrderSagas.EveryNetIsOk` | examples/ftgo-app/services/order/sagas/cancel-order/cancel-order.saga.ts:25-37 | an invariant of every run from every world, whatever revisions leave out: who holds the order and the ticket, in which states, with which quoted total, and which requests can have been refused |
| `OrderSagas.OneSagaAtATime` | examples/ftgo-app/services/order/entities/order.entity.ts:71-102 | in every run of both sagas on one order, from any world and with any revisions, at most one saga is between its begin and its undo or confirm; while none is, if it was so at the start, nothing is pending and a cancelled order has a cancelled ticket |
| `OrderSagas.BrokenExactlyByLeavingOut` | packages/sagas/orchestration/dsl/nest-saga-definition.ts:108-114 | in every run a failure when compensating has occurred if and only if some saga is stuck undoing its ticket and its own revision leaves out a line item |
| `OrderSagas.UndosAndConfirmsAreGrantedExactly` | examples/ftgo-app/services/order/entities/order.entity.ts:82-186 | in every run from any world: the undo of the order and the confirmation of the ticket are always granted; the confirmation of the order if and only if the saga cancels or its own revision covers the line items; the undo of the ticket if and only if the ticket is pending, which it is if the own revision covers them (ticket.entity.ts:210-267) |
| `OrderSagas.SensibleRunsDoNotBreak` | examples/ftgo-app/services/order/sagas/cancel-order/cancel-order.saga.ts:25-37 | so where every revision covers the line items no failure when compensating occurs and no undo and no confirm is refused |
| `OrderSagas.LeavingOutNeverEnds` | packages/sagas/orchestration/dsl/nest-saga-definition.ts:108-114 | in every run a saga that has confirmed its ticket and leaves a line item out never ends: whatever happens afterwards it keeps the order pending and from all others, and the failure when compensating has occurred exactly when it has made its last four moves, one of which is possible until then |
| `OrderSagas.CompletedRevisionsCover` | examples/ftgo-app/services/order/entities/order.entity.ts:164-186 | in every run a revision that completed left no line item out |
| `OrderSagas.UndosAndConfirmsAreGranted` | examples/ftgo-app/services/order/entities/order.entity.ts:82-186 | in every run no undo and no confirm, of the order or of the ticket, is refused to a saga whose own revision leaves nothing out, whatever other sagas do |
| `OrderSagas.FoundAtItsBegin` | examples/ftgo-app/services/kitchen/entities/ticket.entity.ts:197-243 | what a saga found is the order, and the ticket state, at the very move that granted its begin |
| `OrderSagas.RollbackRestores` | examples/ftgo-app/services/kitchen/entities/ticket.entity.ts:221-254 | in every run from any world the undo of the order leaves the order as it was just before the saga began it, and the undo of the ticket its state, neither touching the other; only a ticket that is no longer pending is not undone, which does not happen to a saga whose own revision covers the line items |
| `OrderSagas.ConfirmationCompletes` | examples/ftgo-app/services/order/entities/order.entity.ts:93-186 | in every run from any world confirming leaves order and ticket both cancelled, or the order with the revised quantities, its total being the one announced when the revision began if and only if the repeated entries and the repeated line items agree, and always without repetitions; a revision that leaves out a line item is refused and changes nothing |
| `OrderSagas.BreaksExactlyWithoutCover` | packages/sagas/orchestration/dsl/nest-saga-definition.ts:108-114 | and it comes to that: an accepted revision whose saga runs alone with willing participants ends in failure when compensating if and only if it leaves out a line item, because the confirmation of the order is refused after that of the ticket |
| `Customers.Customer.Available` | examples/sagas-customers-orders/customers/entities/customer.entity.ts:43-51 | the loop over the reservations computes the limit less their sum |
| `Customers.Customer.ReserveCredit` | examples/sagas-customers-orders/customers/entities/customer.entity.ts:53-59 | adds the reservation exactly when the available credit is at least the total; refused otherwise, and then nothing changes |
| `Customers.CustomerService.ReserveCredit` | examples/sagas-customers-orders/customers/customer.service.ts:24-36 | an unknown customer exactly when the id is not in the table, an exceeded limit, or the table with just this reservation added to just this customer |
| `Customers.RefusalsTellWhy` | examples/sagas-customers-orders/customers/customer.service.ts:29-34 | the customer is reported missing if and only if it is not there, and the limit exceeded if and only if it is there and the limit less its reservations is below the total (customer.entity.ts:43-59) |
| `Customers.ReservingStaysWithin` | examples/sagas-customers-orders/customers/entities/customer.entity.ts:53-59 | after any reservation that is granted, the reservations add up to at most the limit, whatever the signs of the amounts |
| `Customers.ReservingSpends` | examples/sagas-customers-orders/customers/entities/customer.entity.ts:43-59 | a granted reservation lowers the available credit by just its amount, whatever its sign |
| `Customers.SumAndOutside` | examples/sagas-customers-orders/customers/entities/customer.entity.ts:43-51 | distinct orders that each hold a reservation, and the reservations for all other orders, add up to all that is reserved, whatever the signs |
| `Customers.LimitsSurviveRedelivery` | examples/sagas-customers-orders/customers/customer.service.ts:24-36 | the reservations of every customer stay within the limit under any commands, delivered in any order and any number of times |
| `Customers.RedeliveryReservesAgainExactlyIfItCan` | examples/sagas-customers-orders/customers/entities/customer.entity.ts:53-59 | a granted reservation that is asked for again is granted again if and only if the credit was enough for both |
| `CreateOrders.Starts` | examples/sagas-customers-orders/orders/sagas/create-order/create-order.saga.ts:18-33 | a new saga either creates nothing, exactly when creating throws, or has placed a pending order and asks to reserve its total |
| `CreateOrders.Hears` | examples/sagas-customers-orders/orders/sagas/create-order/create-order.saga.ts:26-33 | a reply ends the saga: approved after a reservation, unless the approval throws; otherwise rejected with the reason of the reply |
| `CreateOrders.ManagerStarts` | packages/sagas/orchestration/saga-manager.ts:278-284 | the network starts this saga as the manager does |
| `CreateOrders.ManagerHears` | packages/sagas/orchestration/saga-manager.ts:186-216 | the network ends this saga as the manager does, which also sends the unlocks that the replies ask for |
| `CreateOrders.EveryNetIsOk` | examples/sagas-customers-orders/orders/sagas/create-order/create-order.saga.ts:43-80 | an invariant of every move by any number of sagas, customers and failing services: where a saga stands tells the state of its order and whether it holds credit |
| `CreateOrders.OrdersAndTheirReservations` | examples/sagas-customers-orders/orders/sagas/create-order/create-order.saga.ts:43-80 | in every run an approved order holds exactly one reservation anywhere, with its customer and for its total, and an order rejected with a reason holds none |
| `CreateOrders.ReservationsFit` | examples/sagas-customers-orders/customers/entities/customer.entity.ts:43-59 | in every run each reservation belongs to one order, with its customer and total, and the reservations of a customer add up to at most the limit |
| `CreateOrders.ApprovedTotalsFitExactly` | examples/sagas-customers-orders/customers/entities/customer.entity.ts:43-59 | in every run, whatever the signs of the totals, any distinct approved orders of a customer and the reservations for all other orders add up to what is reserved, which is within the limit; so the approved orders fit if and only if what the others give back is at most the available credit |
| `CreateOrders.ApprovedTotalsFit` | examples/sagas-customers-orders/customers/entities/customer.entity.ts:43-59 | in every run the approved orders of a customer add up to at most the credit limit, if none of the other orders of that customer has a negative total |
| `CreateOrders.NegativeTotalsOverdraw` | examples/sagas-customers-orders/customers/entities/customer.entity.ts:43-59 | a run in which they do not: with a pending order of -5, approved orders of 10 and 5 stand against a limit of 10 |
| `CreateOrders.EndsWithCreditExactlyIfReserved` | examples/sagas-customers-orders/orders/sagas/create-order/create-order.saga.ts:69-80 | an ended saga has approved or rejected its order as its direction says; the order holds no credit if and only if the reply was a failure, one reservation for its total if it was a success, and a reason only in the first case |
| `CreateOrders.HearingDecides` | examples/sagas-customers-orders/orders/sagas/create-order/create-order.saga.ts:69-80 | in every run, the move in which a saga hears its reply approves the order if and only if the reply was a success and the update did not fail, and leaves it rejected with credit if and only if the reply was a success and the update failed |
| `CreateOrders.RejectedKeepsCreditExactlyIfApprovalFailed` | examples/sagas-customers-orders/orders/sagas/create-order/create-order.saga.ts:69-80 | so the order of an ended saga is rejected and keeps credit if and only if its credit had been granted and the update of the approval failed, at the move that ended it |
| `CreateOrders.ReasonsTellWhy` | examples/sagas-customers-orders/orders/sagas/create-order/create-order.saga.ts:45-57 | in every run a decided order is rejected as of an unknown customer if and only if its customer was not there at the move that served its command, and for insufficient credit if and only if the customer was there and the credit then was below the total |
| `CreateOrders.StartingAsksForCredit` | examples/sagas-customers-orders/orders/sagas/create-order/create-order.saga.ts:59-67 | a saga that starts has placed a pending order, and its message asks the customer service to reserve the total for it; or creating threw, and there is nothing |
| `CreateOrders.FailedApprovalKeepsCredit` | examples/sagas-customers-orders/orders/sagas/create-order/create-order.saga.ts:69-80 | a run in which that happens |
| `SagaLocks.SagaDatabaseLockManager.ClaimLock` | packages/sagas/common/saga-lock-manager.ts:54-74 | the insert-or-look-up loop, with others changing the table between its calls, ends with the table and answer of its specification |
| `SagaLocks.SagaDatabaseLockManager.StashMessage` | packages/sagas/common/saga-lock-manager.ts:76-94 | stores the message under its id, unless one is stored there |
| `SagaLocks.SagaDatabaseLockManager.Unlock` | packages/sagas/common/saga-lock-manager.ts:96-128 | not locked, or owned by another, each exactly when it is so; a free target when nothing is stashed for it; otherwise the lock handed to the type and id of the saga of a stashed message, and that message removed and returned |
| `SagaLocks.ClaimTellsTheOwner` | packages/sagas/common/saga-lock-manager.ts:54-74 | whatever others do meanwhile, a claim is granted if and only if the target is the saga's when it returns, and of the table it saw last it alters nothing but a free target |
| `SagaLocks.LocksAreExclusive` | packages/sagas/participant/saga-command-dispatcher.ts:51-118 | in every run of claim, stash, unlock and re-handle, no target is granted while another saga holds it, only the holder releases it, and the lock table names the holder |
| `SagaLocks.StashedMessagesAreConserved` | packages/sagas/common/saga-lock-manager.ts:76-128 | in every run each message stashed was returned exactly once or is still stashed, with its target locked, and no returned message is refused its own claim |
| `SagaLocks.UnlocksDrain` | packages/sagas/common/saga-lock-manager.ts:96-128 | as many unlocks by the successive owners as there are messages waiting for a target, and one more, return them all, free the target and touch no other |
| `KafkaOffsets.TopicPartitionOffsets.NoteUnprocessed` | packages/messaging/broker/kafka/topic-partition-offsets.ts:14-16 | adds the offset to those unprocessed, repeated or not |
| `KafkaOffsets.TopicPartitionOffsets.NoteProcessed` | packages/messaging/broker/kafka/topic-partition-offsets.ts:18-20 | adds the offset to those processed |
| `KafkaOffsets.TopicPartitionOffsets.NoteCommitted` | packages/messaging/broker/kafka/topic-partition-offsets.ts:26-29 | keeps exactly the offsets at or above the position, in order |
| `KafkaOffsets.FirstInFinds` | packages/messaging/broker/kafka/topic-partition-offsets.ts:22-24 | the offset to commit is the first unprocessed one, in order of delivery, that was processed; none exactly when there is no such offset |
| `KafkaOffsets.TopicPartitionOffsetTracker.NoteUnprocessed` | packages/messaging/broker/kafka/topic-partition-offset-tracker.ts:34-36 | notes the delivery for just this partition, making its entry if there was none |
| `KafkaOffsets.TopicPartitionOffsetTracker.NoteProcessed` | packages/messaging/broker/kafka/topic-partition-offset-tracker.ts:38-40 | the same for a processed message |
| `KafkaOffsets.TopicPartitionOffsetTracker.NoteCommitted` | packages/messaging/broker/kafka/topic-partition-offset-tracker.ts:42-46 | notes every position of the list, one after the other |
| `KafkaOffsets.TopicPartitionOffsetTracker.OffsetsToCommit` | packages/messaging/broker/kafka/topic-partition-offset-tracker.ts:48-62 | lists, once each and one past the offset, exactly the partitions that have something to commit |
| `KafkaOffsets.KafkaMessageProcessor.Process` | packages/messaging/broker/kafka/kafka-message-processor.ts:19-32 | a message is noted as delivered, and as processed only if its handlers succeeded |
| `KafkaOffsets.KafkaMessageProcessor.EachMessage` | packages/messaging/broker/kafka/kafka-message-consumer.ts:45-56 | after a handled message the positions of all partitions are committed, and noted exactly when the broker answered |
| `KafkaOffsets.ConsumerFollowsTracks` | packages/messaging/broker/kafka/kafka-message-consumer.ts:45-56 | in every run of the consumer each partition has the offsets, and is committed at the positions, that its own history says, in whatever order positions are listed |
| `KafkaOffsets.CommittedPositionsAreSafe` | packages/messaging/broker/kafka/topic-partition-offsets.ts:14-29 | when a partition's messages come one at a time, in order, and retried until handled, then in every run all that was delivered below a committed position has been processed, and positions never go back, with failing handlers, refused commits, lost answers and repeated notes |
| `KafkaOffsets.ConsumerCommitsSafely` | packages/messaging/broker/kafka/kafka-message-consumer.ts:45-56 | so every position of that partition that a run of the consumer sends and the broker stores is safe, whatever happens to the other partitions |
| `KafkaOffsets.HandledMessagesAreCommitted` | packages/messaging/broker/kafka/kafka-message-consumer.ts:45-56 | and while the commits after the partition's own messages are noted, each of them that is handled is committed at once |
| `KafkaOffsets.CommitsAreSafeExactlyOldestFirst` | packages/messaging/broker/kafka/topic-partition-offsets.ts:22-29 | from any state, committing until nothing is left skips no message in flight if and only if everything processed lies below everything in flight |
| `KafkaOffsets.FinishingIsSafeExactlyForTheOldest` | packages/messaging/broker/kafka/topic-partition-offsets.ts:18-24 | so a message may finish safely if and only if it is the oldest in flight |
| `KafkaOffsets.OutOfOrderSkipsAMessage` | packages/messaging/broker/kafka/topic-partition-offsets.ts:22-24 | two messages in flight, the later one processed first: the committed position skips the other |
| `EtpoEventContexts.DecodeInverts` | packages/events/aggregate/snapshot/etpo-event-context.ts:15-41 | decoding a printed token gives the context back if and only if neither its id nor its topic holds a colon |
| `EtpoEventContexts.TokenText` | packages/events/aggregate/snapshot/etpo-event-context.ts:39-41 | the text of one token |
| `TriggeringEvents.SerializedText` | packages/events/aggregate/snapshot/snapshot-triggering-events.ts:58-71 | the text of every serialized entry |
| `TriggeringEvents.SnapshotTriggeringEvents.Add` | packages/events/aggregate/snapshot/snapshot-triggering-events.ts:73-94 | raises the entry of the token's topic and partition to its offset if that is higher, and changes nothing else; refused where decoding fails |
| `TriggeringEvents.SnapshotTriggeringEvents.Create` | packages/events/aggregate/snapshot/snapshot-triggering-events.ts:34-52 | the table of the previous tokens, the triggering tokens among the events, and the context; refused where one cannot be decoded |
| `TriggeringEvents.EtpoEventsExactly` | packages/events/aggregate/snapshot/snapshot-triggering-events.ts:34-52 | of the triggers exactly those with the prefix are taken, in order; others make no difference wherever they stand |
| `TriggeringEvents.SnapshotTriggeringEvents.CheckForDuplicateEvent` | packages/events/aggregate/snapshot/snapshot-triggering-events.ts:96-107 | rejects exactly an offset at or below the entry |
| `TriggeringEvents.SnapshotTriggeringEvents.Serialize` | packages/events/aggregate/snapshot/snapshot-triggering-events.ts:58-71 | lists exactly the entries of the table as tokens, in some order |
| `TriggeringEvents.SnapshotTriggeringEvents.CheckSnapshot` | packages/events/aggregate/snapshot/snapshot-triggering-events.ts:19-32 | a snapshot without triggering events has no duplicates, whatever the context; otherwise a context that is no such token is never a duplicate, and any other is checked against the table of the stored tokens |
| `TriggeringEvents.WatermarkRefinesLog` | packages/events/aggregate/snapshot/snapshot-triggering-events.ts:73-107 | after any adds the table rejects an event if and only if some added one has its topic and partition and an offset at least as large |
| `TriggeringEvents.OrderAndRepetitionDoNotMatter` | packages/events/aggregate/snapshot/snapshot-triggering-events.ts:73-107 | adds of the same events, in any order and number, give the same answers |
| `TriggeringEvents.ReloadAnswersTheSame` | packages/events/aggregate/snapshot/snapshot-triggering-events.ts:15-17 | a table read back from its serialized tokens gives the same answers |
| `TriggeringEvents.SnapshotChainRefinesLog` | packages/events/aggregate/snapshot/snapshot-triggering-events.ts:34-71 | through any chain of snapshots the last table rejects exactly what one pass over all triggers of all snapshots would |
| `SchemaUpcast.AppliedComposes` | packages/events/aggregate/schema/aggregate-schema-version.ts:30-38 | what a list of versions means for an event, rename and then transform version by version, composes over concatenated lists |
| `SchemaUpcast.OneVersionExactly` | packages/events/aggregate/schema/aggregate-schema-version.ts:30-38 | a version gives the type of its first rename for the name of the type, or keeps it, and then applies its first transform for the new name, or none |
| `SchemaUpcast.RenamedEventsAreUpcast` | packages/events/aggregate/schema/aggregate-schema.ts:31-100 | an old event is renamed by the first rename for it and transformed under its new name in both versions, and gets the last version; one of the new name is transformed alike; one that no version names is left alone |
| `SchemaUpcast.CollectingIsApplying` | packages/events/aggregate/schema/aggregate-schema.ts:69-100 | collecting the upcasters along the rename chain and reducing them afterwards is what the versions mean |
| `SchemaUpcast.UpcastAppliesAllVersions` | packages/events/aggregate/schema/aggregate-schema.ts:31-65 | every event not of the current version gets the data that all versions together make of it and a type of the name they end at, and keeps its id; an event of the current version is left alone |
| `SchemaUpcast.UpcastIsIdempotent` | packages/events/aggregate/schema/aggregate-schema.ts:31-65 | upcasting the result again changes nothing |
| `SchemaUpcast.UpcastComposes` | packages/events/aggregate/schema/aggregate-schema.ts:31-65 | for an unversioned event, upcasting through two lists at once is upcasting through one and then the other; a list that ends at version -1, which an unversioned event counts as, is not applied, and then it holds exactly if the first list changes nothing, or makes no difference to the second |
| `SchemaUpcast.UpcastNeedNotCompose` | packages/events/aggregate/schema/aggregate-schema.ts:31-65 | two lists of which one ends at version -1: together and one after the other they give different data, in either order |
| `SchemaUpcast.AggregateSchema.FindUpcasters` | packages/events/aggregate/schema/aggregate-schema.ts:69-100 | the loop over the versions collects the end of the rename chain and the upcasters in order; what one version does, `OneVersionExactly` says |
| `SchemaUpcast.AggregateSchema.Upcast` | packages/events/aggregate/schema/aggregate-schema.ts:31-65 | the upcast of one event, writing the version into its own metadata object, or into a new one |
| `SchemaUpcast.AggregateSchema.UpcastEvents` | packages/events/aggregate/schema/aggregate-schema.ts:120-125 | every event of a list comes out upcast, except that one sharing its metadata object with an earlier event that was upcast comes out as it went in; length kept; refused without versions |
| `SchemaUpcast.ComesOutUpcastExactly` | packages/events/aggregate/schema/aggregate-schema.ts:120-125 | an event of a list comes out with the type and data of its own upcast if and only if no earlier event that is upcast shares its metadata object, or its own upcast would change neither |
| `SchemaUpcast.SharedMetadataIsUpcastOnce` | packages/events/aggregate/schema/aggregate-schema.ts:31-65 | two events with one metadata object and a version that increments the data: the second comes out as it went in, though its own upcast is not that |
| `MessageHeaders.InReplyIsInjective` | packages/commands/common/command-message-headers.ts:17-32 | different command headers have different reply names |
| `MessageHeaders.HeaderNames` | packages/commands/common/command-message-headers.ts:4-15 | the names of the headers as they stand in messages (saga-command-headers.ts:4-7) |
| `MessageHeaders.CommandHeadersHoldTheSaga` | packages/sagas/orchestration/saga-command-producer.ts:22-34 | a command carries saga type, saga id, channel, type, reply channel and, exactly if it has one, resource |
| `MessageHeaders.CorrelateMessageHeaders` | packages/commands/common/correlate-message-headers.ts:6-23 | the loop gives each command header its reply name, adds the message id, and nothing else |
| `MessageHeaders.ReplyCarriesCommandHeaders` | packages/commands/consumer/command-dispatcher.ts:42-54 | for every command header map a reply has a header under a reply name if and only if the command had it, with its value, and keeps its own outcome and type |
| `MessageHeaders.ReplyReturnsToItsSaga` | packages/sagas/orchestration/saga-command-producer.ts:22-34 | the reply to a saga's command carries the type and id of that saga, its destination, its reply channel, its resource exactly if it had one, and the id of the command |

## Left out

- SagaManagers.SagaManager.HandleReply: covers replies with the headers the manager requires; a missing header is an exception before anything happens, and is not modelled.
- SagaDefinitions.CreateStepOutcome: a local compensation does not throw here; the code would report its exception as it does a handler's.
- ExecutionStates.Decode: only flat objects of integers and booleans, written without blanks as `JSON.stringify` writes them, are read; texts with blanks, fractions, strings or nested values, which `JSON.parse` reads, are not modelled.
- SagaDefinitions.HasCompensation: does not model a local compensation that returns a truthy value or throws; its declared type is void.
- ExampleSagas.ConditionTrueCompletes: the extra header of the first command is left out, as all extra headers are.
- SagaManagers.CommandProducer.SendCommands: of a message's headers the saga id is modelled here; the saga type is the manager's one type, the reply channel is left out, and the way of these headers into a reply is in `MessageHeaders`.
- TriggeringEvents.SnapshotTriggeringEvents.Add: partitions are read as their leading decimal digits and offsets as decimal digits; signs, blanks, hexadecimal and other offsets that the number parsers of the language accept are refused here, and so is a partition that is no number, which the code accepts as NaN.
- OrderSagas.EveryNetIsOk: redelivered commands and answers are not moves of the network, and the revision's delivery information is not carried in its commands; the entity's method has it.
- CreateOrders.EveryNetIsOk: redelivered commands and answers are not moves of the network.
- KafkaOffsets.TopicPartitionOffsetTracker.OffsetsToCommit: the two-level table of topics and partitions is one table keyed by both, and the order of the list is not fixed.
- SchemaUpcast.UpcastAppliesAllVersions: starting from an event's recorded version is not modelled, because the search for it is commented out in the code.
- SchemaUpcast.AggregateSchema.Upcast: of the metadata only the schema version is kept.
- SagaManagers.SagaManager.Create: hooks are recorded with the data they are given, and do not change it.
- The database repository of saga instances: it passes the compensating and end flags in swapped positions, and depends on library calls.
- The stash path of the participant dispatcher: its base class handles the exception first, and the target it would stash for is the command type; the lock manager is driven with explicit targets instead.
- Aggregate CRUD, its store and its retries: they depend on TypeORM and on random event ids compared by order.
- Resource path placeholders, the in-memory broker and Avro schemas: easy, or spoilt by object stringification.
- NestJS modules, decorators, controllers, the DSL builders, timestamps, logging and UUIDs: wiring only; ids need only be fresh.
- Kafka client, schema registry, database producer and CDC entities: input and output of libraries that are not part of this model.
