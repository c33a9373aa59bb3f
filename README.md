# Orion runtime, modelled in Dafny

Orion is a small multi-agent runtime. A Coordinator process and three agent
processes (Planner, Worker, Critic) exchange JSON envelopes on the Redis
publish/subscribe channel `orion:bus` and share a per-task memory in Redis
hashes. Every agent validates each arriving envelope against a zod
`MsgSchema` and drops the ones that fail. On start-up each agent publishes a
`status`/`ready` handshake for the pseudo-task `boot`.

The Coordinator works like this:
- it collects readiness from the three required agents;
- once all three are ready, or a two-second timer fires, it kicks the run once by publishing a `control` envelope `start: <goal>`;
- it counts turns and exits on the first `control` envelope whose content mentions "done" in any case, or after `MAX_TURNS` turns.

The Planner answers a start instruction with a fixed plan. The Worker answers a
plan with a mocked artifact. The Critic answers work with a critique and a
`control` "done" envelope.

This project models that core as Dafny functions, classes and methods, and
proves properties of the model:

- **Envelope schemas and builders** (`Core`, `AgentKitIndex`, `PlannerLib`, `RuntimeSchema`, `Messages`).
  - Each zod schema is a total validation function over a JSON value datatype. It returns a typed envelope or a list of issues.
  - zod's semantics are written out: unknown keys are stripped, `.optional()` means the key may be absent, `.default()` fills an absent key, and a union returns its first succeeding option.
  - `buildMsg` is the JSON object it serialises to, with keys whose value is `undefined` dropped.
- **Dispatch paths.**
  - `Agent` models `defineAgent`: parse, validate, filter and handler inside one try/catch, then the handshake.
  - `RuntimeBus` models the coordinator's `Bus`, as a class.
  - A handler is modelled by its effects: memory writes and publications, in order, and whether it threw.
- **Coordinator state machine.** `Coordinator` holds a pure transition function and a class `Coordinator` whose methods update the `ready`/`started`/`turns` fields and the bus.
- **Reaction rules** (`Planner`, `Worker`, `Critic`, `MockLlm`) and the logger's pure parts (`Logger`).
- **`System`** composes the three agents and the Coordinator into one delivery loop. It proves that a run whose goal does not mention "done" ends by completion: the Critic's done envelope ends it after seven turns, with plan and artifact stored. A goal that mentions "done" ends the run on the echoed start envelope instead.

Regular expressions with an ASCII pattern and the `i` flag (`/done/i`,
`/stub/i`, `/TODO|stub/i`, `/control:done/i`) are modelled as exactly that:
substring tests after ASCII case folding (`Text.ContainsIgnoreCase`).

Two facts about the code worth stating directly:
- **Empty `taskId`.** `taskId` may be empty: `z.string()` accepts `""` (`Core.EmptyTaskIdAccepted`).
- **Unknown `meta` keys.** The coordinator's schema declares `meta` as a `z.object` of three optional numbers, so every other `meta` key is stripped and `RuntimeSchema.Msg` keeps only `cost`/`tokensIn`/`tokensOut`.

## Model

| member | source | states |
|---|---|---|
| Core.ParseType | packages/agent-kit/src/core.ts:16 | the type field parses exactly when it is one of the six enumerated strings, and then it is that name |
| Core.ParseTypeName | packages/agent-kit/src/core.ts:16 | every enumerated type parses back to itself |
| Core.Validate | packages/agent-kit/src/core.ts:10-20 | accepts exactly the objects with string id/taskId/ts/from/content, optional string to, enumerated type and optional record data/meta; every reported issue names a field that really is wrong |
| Core.ValidateStrips | packages/agent-kit/src/core.ts:10-20 | the validated message is the input with its unknown keys removed |
| Core.IssuesSound | packages/agent-kit/src/core.ts:10-20 | each field issue reported for an object names a schema field that fails its check |
| Core.IssuesComplete | packages/agent-kit/src/core.ts:10-20 | every schema field that fails its check is reported |
| Core.TypeOutsideEnumRejected | packages/agent-kit/src/core.ts:16 | a missing, non-string or unlisted type is rejected with an issue on "type" |
| Core.MissingContentRejected | packages/agent-kit/src/core.ts:17 | a missing content is rejected, since the schema has no default |
| Core.EmptyTaskIdAccepted | packages/agent-kit/src/core.ts:12 | replacing taskId by "" in a valid object keeps it valid, with taskId "" |
| Core.SerializeRoundTrip | packages/agent-kit/src/core.ts:10-22 | serialising any Msg and validating it gives the same Msg back |
| Core.SerializeInjective | packages/agent-kit/src/core.ts:10-22 | two Msgs with the same serialisation are equal |
| Core.ExactlyOneGuard | packages/agent-kit/src/core.ts:31-47 | of the six is*Msg guards exactly one holds, the one for the message's type |
| Core.BuildMsgContent | packages/agent-kit/src/core.ts:78 | the built content is the partial's content, or "" when it is absent or empty |
| Core.BuildMsgValidates | packages/agent-kit/src/core.ts:70-81 | buildMsg's output validates iff taskId, from and type were given, and then it is the partial's fields with the fresh id/ts; a missing one is reported by name |
| AgentKitIndex.Validate | packages/agent-kit/src/index.ts:14-24 | the copy of MsgSchema in index.ts gives the same result as core.ts's on every input |
| AgentKitIndex.SameAcceptance | packages/agent-kit/src/index.ts:14-24 | the copy accepts exactly core.ts's inputs and rejects an unlisted type or a missing content |
| AgentKitIndex.SameBuild | packages/agent-kit/src/index.ts:49-61 | the copy of buildMsg builds the same object as core.ts's |
| AgentKitIndex.BuildMsgValidates | packages/agent-kit/src/index.ts:49-61 | the copy's output validates against the copy's schema iff taskId, from and type were given |
| PlannerLib.Validate | packages/agents/planner/src/agentlib.ts:5-15 | the planner's copy of MsgSchema gives the same result as core.ts's on every input |
| PlannerLib.BuildMsgDropsMeta | packages/agents/planner/src/agentlib.ts:31-42 | the planner's buildMsg never writes meta, and otherwise builds what core.ts's buildMsg builds |
| PlannerLib.BuildMsgValidates | packages/agents/planner/src/agentlib.ts:31-42 | its output validates iff taskId, from and type were given, and then it has no meta |
| RuntimeSchema.Validate | packages/runtime/src/schema.ts:3-17 | accepts exactly core.ts's required fields plus a record data and a meta object whose cost/tokensIn/tokensOut are numbers when present; issues are sound |
| RuntimeSchema.IssuesSound | packages/runtime/src/schema.ts:3-17 | each reported issue names a field that fails the runtime schema |
| RuntimeSchema.AcceptsIffCore | packages/runtime/src/schema.ts:3-17 | the runtime schema accepts iff core.ts's schema does and meta has the numeric shape; both agree on every other field |
| RuntimeSchema.CoreWithoutMetaAccepted | packages/runtime/src/schema.ts:3-17 | any core-valid input without meta is accepted with the same fields |
| RuntimeSchema.NonNumberCounterRejected | packages/runtime/src/schema.ts:12-16 | a non-number cost, tokensIn or tokensOut rejects the envelope with an issue on meta |
| RuntimeSchema.NonObjectMetaRejected | packages/runtime/src/schema.ts:12-16 | a meta that is not an object rejects the envelope |
| Messages.ParseRole | packages/agent-kit/src/messages.ts:7-13 | an accepted role is the given string |
| Messages.RoleAcceptsNonEmpty | packages/agent-kit/src/messages.ts:7-13 | the role union accepts exactly the non-empty strings |
| Messages.ParseStepStatus | packages/agent-kit/src/messages.ts:80 | a step status parses iff it is pending, in-progress or done |
| Messages.ParseDoneStatus | packages/agent-kit/src/messages.ts:48 | a done status parses iff it is success, failed or cancelled |
| Messages.ParseVerdict | packages/agent-kit/src/messages.ts:155 | a verdict parses iff it is accept, revise or reject |
| Messages.ParseSender | packages/agent-kit/src/messages.ts:25-30 | an accepted sender carries the given role |
| Messages.ParseBase | packages/agent-kit/src/messages.ts:20-31 | an accepted base envelope carries the input's taskId and kind |
| Messages.BaseRejectsEmpty | packages/agent-kit/src/messages.ts:22-23 | an empty taskId or kind rejects the base envelope |
| Messages.BaseOptionalFields | packages/agent-kit/src/messages.ts:24-30 | removing timestamp and sender from an accepted envelope keeps it accepted, with both absent |
| Messages.ParseStep | packages/agent-kit/src/messages.ts:77-81 | an accepted step carries the input's string id and description |
| Messages.ParseSteps | packages/agent-kit/src/messages.ts:76-82 | a steps array is accepted iff every item is, and then item by item |
| Messages.CreatedStepDefaultsToPending | packages/agent-kit/src/messages.ts:80 | a plan:created step without status gets status pending |
| Messages.UpdatedStepNeedsStatus | packages/agent-kit/src/messages.ts:91 | a plan:updated step without status is rejected |
| Messages.KindNamesDistinct | packages/agent-kit/src/messages.ts:41-157 | the ten variant kinds are distinct literals |
| Messages.ParseVariant | packages/agent-kit/src/messages.ts:41-157 | a variant accepts only envelopes whose kind is its literal, and keeps their base |
| Messages.AtMostOneVariant | packages/agent-kit/src/messages.ts:41-157 | no input is accepted by two different variants |
| Messages.ControlStartNeedsGoal | packages/agent-kit/src/messages.ts:41-44 | control:start is accepted iff the base is, kind is exactly control:start and goal is a non-empty string |
| Messages.ControlDoneStatusEnumerated | packages/agent-kit/src/messages.ts:46-50 | an accepted control:done has status success, failed or cancelled |
| Messages.VerdictEnumerated | packages/agent-kit/src/messages.ts:153-157 | an accepted critique:provided has verdict accept, revise or reject |
| Messages.RetryableDefaultsToFalse | packages/agent-kit/src/messages.ts:124-129 | a work:failed without retryable is accepted with retryable false |
| Messages.PlanStepDefaults | packages/agent-kit/src/messages.ts:74-94 | a step without status rejects plan:updated and becomes pending in plan:created |
| Messages.FirstOf | packages/agent-kit/src/messages.ts:57-61 | a union yields the result of one of its options that accepts, and rejects iff all its options do |
| Messages.ParseOrion | packages/agent-kit/src/messages.ts:174-179 | the top-level union's result is the variant for its own kind |
| Messages.ParseOrionDispatch | packages/agent-kit/src/messages.ts:174-179 | an envelope a variant accepts is parsed by the top-level union as exactly that variant, and conversely |
| Messages.UnknownKindRejected | packages/agent-kit/src/messages.ts:174-179 | a kind outside the ten literals is rejected by the top-level union |
| RuntimeBus.Decode | packages/runtime/src/bus.ts:25-26 | a payload reaches the listener iff it parsed and the runtime schema accepts it, as the validated message |
| RuntimeBus.DeliveredOfExactlyValid | packages/runtime/src/bus.ts:23-31 | a message is delivered iff some arriving payload decodes to it |
| RuntimeBus.DeliveredOfAppend | packages/runtime/src/bus.ts:23-31 | deliveries follow arrival order: two batches deliver one after the other |
| RuntimeBus.DeliveredOfExtremes | packages/runtime/src/bus.ts:23-31 | nothing is delivered when no payload is valid, and every payload when all are |
| RuntimeBus.Bus.constructor | packages/runtime/src/bus.ts:4-7 | a new bus is unsubscribed, on channel orion:bus, with nothing arrived, delivered, dropped or published |
| RuntimeBus.Bus.Init | packages/runtime/src/bus.ts:9-35 | init subscribes, with a listener or without one, and leaves the publications unchanged |
| RuntimeBus.Bus.Receive | packages/runtime/src/bus.ts:23-34 | the listener gets the payload iff there is one and the payload decodes; an invalid payload or a throwing listener adds a drop; without a listener nothing is delivered or dropped |
| RuntimeBus.Bus.Publish | packages/runtime/src/bus.ts:37-39 | needs the publishing connection that init opens; appends the envelope on orion:bus and changes nothing else |
| Agent.ApplyEffects | packages/agent-kit/src/memory.ts:24-28 | every written (taskId, field) is present afterwards, nothing is removed, and publications alone leave memory unchanged |
| Agent.ApplyEffectsSnoc | packages/agent-kit/src/memory.ts:24-28 | one more memSet overwrites its key and nothing else; one more publication leaves memory as it was |
| Agent.ApplyEffectsGet | packages/agent-kit/src/memory.ts:24-37 | after the effects, each key holds the value of its last memSet; a key no effect writes keeps its stored value or stays absent, and memGet answers accordingly (null for an absent key) |
| Agent.Published | packages/agent-kit/src/agent.ts:81-83 | at most one envelope per effect, all on orion:bus, and a message goes out exactly when some effect publishes it |
| Agent.PublishedAppend | packages/agent-kit/src/agent.ts:81-83 | the envelopes of two consecutive effect lists are those of the first followed by those of the second, so order and repeats are kept |
| Agent.PublishedOne | packages/agent-kit/src/agent.ts:81-83 | one publication sends exactly its envelope on orion:bus; one write sends nothing |
| Agent.HandshakeValidates | packages/agent-kit/src/agent.ts:94-104 | the handshake is a valid status/ready message for task boot from the agent |
| Agent.OutcomeReports | packages/agent-kit/src/agent.ts:60-91 | invalid envelopes go to warn, parse errors and handler failures to error, filtered and handled ones are not logged; at the default level every report is emitted |
| Agent.Admit | packages/agent-kit/src/agent.ts:61-76 | malformed JSON is a parse error, a schema failure is Invalid with its issues, a valid message the filter rejects is Filtered; only a valid message the filter accepts reaches the handler |
| Agent.RunOnPrefix | packages/agent-kit/src/agent.ts:60-91 | handling one more payload extends the trace by exactly that payload's step |
| Agent.RunOnOutcomes | packages/agent-kit/src/agent.ts:60-91 | each payload's outcome is its rejection, or Handled/HandlerFailed when admitted |
| Agent.RunOnCalls | packages/agent-kit/src/agent.ts:78-87 | the handler is called with exactly the admitted messages, in order |
| Agent.RunOnContexts | packages/agent-kit/src/agent.ts:78-87 | every handler call gets the registered name and config as its context |
| Agent.RunOnChannel | packages/agent-kit/src/agent.ts:81-83 | everything a run publishes is on orion:bus |
| Agent.RunOutcomes | packages/agent-kit/src/agent.ts:60-91 | over a batch, one outcome per payload; a handler failure does not stop later payloads |
| Agent.RunCalls | packages/agent-kit/src/agent.ts:78-87 | over a batch, the handler calls are the admitted messages in arrival order, each with the registered name and config |
| Agent.AdmittedExactly | packages/agent-kit/src/agent.ts:60-91 | a message is handled iff some payload is admitted as it |
| Agent.NoFilterAdmitsValid | packages/agent-kit/src/agent.ts:73-78 | without a filter every valid message reaches the handler |
| Agent.RunChannel | packages/agent-kit/src/agent.ts:81-83 | all of a batch's publications are on orion:bus |
| Agent.StepCases | packages/agent-kit/src/agent.ts:78-90 | a rejected payload changes nothing; an admitted one applies the handler's effects and records Handled or HandlerFailed |
| Agent.Start | packages/agent-kit/src/agent.ts:57-107 | the loop publishes the handshake, then yields outcomes, memory and publications equal to the run specification |
| Coordinator.FindIndex | packages/runtime/src/index.ts:6 | the index of the first "--goal", or -1 iff there is none |
| Coordinator.ResolveGoal | packages/runtime/src/index.ts:6-10 | the words after "--goal" when non-empty, else ORION_GOAL when non-empty, else "Hello Orion"; never empty |
| Coordinator.NoFlagUsesEnv | packages/runtime/src/index.ts:6-10 | without "--goal" the arguments do not matter |
| Coordinator.FlagWords | packages/runtime/src/index.ts:6-8 | the goal is the words after the first "--goal" joined by spaces |
| Coordinator.MsgOfDefaults | packages/runtime/src/index.ts:12-24 | msg() sends from "Coordinator" unless given, content "" unless given, and validates iff taskId and type were given |
| Coordinator.StartEnvelopeValidates | packages/runtime/src/index.ts:40 | the start envelope is a valid control message from the Coordinator for the run's task with content "start: " + goal, under both schemas |
| Coordinator.OnMessageKeepsReady | packages/runtime/src/index.ts:49-55 | ready stays within required and only grows, only by the sender of a ready status; started is never reset |
| Coordinator.AllReadyStarts | packages/runtime/src/index.ts:49-54 | the ready status that completes the required set kicks the run |
| Coordinator.KickIffComplete | packages/runtime/src/index.ts:49-54 | a message kicks iff the coordinator is running, it is a ready status and it completes the required set |
| Coordinator.KickOnce | packages/runtime/src/index.ts:36-42 | kick and the timer are idempotent and leave started set |
| Coordinator.DoneExitsFirst | packages/runtime/src/index.ts:57-60 | a control message mentioning done exits with its task, sender and content, before any turn is counted |
| Coordinator.TurnCounted | packages/runtime/src/index.ts:62-65 | any other message counts a turn and halts iff the count exceeds MAX_TURNS |
| Coordinator.DoneIsNotReady | packages/runtime/src/index.ts:49-60 | no message is both a ready status and a done control |
| Coordinator.HaltsOnMessageAfterBudget | packages/runtime/src/index.ts:62-65 | with no done message, the coordinator halts exactly on message MAX_TURNS+1 |
| Coordinator.ExitIsFinal | packages/runtime/src/index.ts:57-65 | after exit, later messages change nothing |
| Coordinator.StartEchoFinishes | packages/runtime/src/index.ts:36-60 | when the goal mentions done, the echoed start envelope finishes the run as the Coordinator's |
| Coordinator.Coordinator.constructor | packages/runtime/src/index.ts:26-34 | a coordinator starts with nothing ready, not started, zero turns and a fresh bus |
| Coordinator.Coordinator.DoKick | packages/runtime/src/index.ts:36-42 | kick sets started and publishes the start envelope iff it was not started |
| Coordinator.Coordinator.HandleMessage | packages/runtime/src/index.ts:44-66 | the fields move as the transition function says, and the start envelope is published iff this message completes readiness before the start; the kept invariant is ready within required and at most one start ever published |
| Coordinator.Coordinator.FireTimer | packages/runtime/src/index.ts:68-69 | the timer kicks, publishing the start only when not started and not exited |
| Coordinator.Coordinator.Arrive | packages/runtime/src/index.ts:44-66 | an arriving payload that fails the runtime schema changes nothing and is not delivered; a valid one is delivered, moves the state as OnMessage says, and publishes the start instruction exactly when it completes the ready set |
| Logger.OrderRanks | packages/agent-kit/src/logger.ts:7-12 | debug < info < warn < error, and the ranks are distinct |
| Logger.ParseLogLevelCases | packages/agent-kit/src/logger.ts:14-26 | debug, warn and error in any case map to themselves; anything else, including absence, maps to info |
| Logger.ShouldLogThreshold | packages/agent-kit/src/logger.ts:112-114 | error is always logged, debug only at minimum debug, and logging is upward closed |
| Logger.Prefix | packages/agent-kit/src/logger.ts:117-121 | "[component]", followed by " [taskId]" exactly when the taskId is non-empty |
| Logger.Files | packages/agent-kit/src/logger.ts:154-161 | orion.log always, and <taskId>.jsonl exactly when the taskId is non-empty |
| Logger.Emit | packages/agent-kit/src/logger.ts:137-162 | an entry is emitted iff its level passes the threshold, on the level's stream, with the prefixed text and the files above |
| Logger.StreamsByLevel | packages/agent-kit/src/logger.ts:123-134 | debug and info go to console.log, warn to console.warn, error to console.error |
| Logger.ErrorData | packages/agent-kit/src/logger.ts:174-184 | error() keeps every caller key except error, which is the serialised error when one is given and untouched otherwise |
| Logger.ErrorDataShapes | packages/agent-kit/src/logger.ts:174-184 | an Error becomes {message, stack}, any other value its String() |
| MockLlm.ArtifactMentionsStub | packages/runtime/src/mockllm.ts:8 | every artifact contains "stub" |
| MockLlm.ArtifactQuotes | packages/runtime/src/mockllm.ts:8 | the artifact quotes the input prefix right after its head |
| MockLlm.AcceptScoreEnds | packages/runtime/src/mockllm.ts:14 | the accepting score contains control:done |
| MockLlm.ReviseScoreContinues | packages/runtime/src/mockllm.ts:13 | the revision score does not contain control:done, in any case |
| MockLlm.PlannerIgnoresInput | packages/runtime/src/mockllm.ts:3-5 | the Planner's reply is the fixed plan whatever the input |
| MockLlm.WorkerReply | packages/runtime/src/mockllm.ts:6-9 | the Worker's reply mentions a stub and quotes the first 40 characters of the input |
| MockLlm.CriticSignalsDone | packages/runtime/src/mockllm.ts:10-15 | the Critic's reply contains control:done iff the input mentions neither TODO nor stub |
| MockLlm.CriticRejectsWorker | packages/runtime/src/mockllm.ts:6-15 | the Critic's reply to any Worker reply asks for a revision and never says control:done |
| MockLlm.OtherRolesEcho | packages/runtime/src/mockllm.ts:16 | any other role gets "Echo(role): input" |
| Planner.PlanEnvelopeValidates | packages/agents/planner/src/index.ts:52-57 | the plan envelope is a valid plan message from the Planner carrying the plan text |
| Planner.OnlyControlReachesHandler | packages/agents/planner/src/index.ts:30-34 | the handler sees exactly the valid control envelopes |
| Planner.IgnoresOtherControl | packages/agents/planner/src/index.ts:36-38 | a message not starting with "start:" writes nothing and publishes nothing |
| Planner.StartPublishesPlan | packages/agents/planner/src/index.ts:48-58 | a start instruction stores the plan under (taskId, "plan") first, then publishes exactly one plan envelope for that task |
| Planner.PlanIgnoresGoal | packages/agents/planner/src/index.ts:11-13 | two start instructions for the same task get the same reaction whatever their goals |
| Planner.PlanValueSteps | packages/agents/planner/src/index.ts:48-50 | the stored plan is the list of the five steps, in order |
| Planner.RunSeesControlAndConfig | packages/agents/planner/src/index.ts:25-34 | over any run, every handler call is for a control message and sees name Planner and the fixed config |
| Worker.Start | packages/agents/worker/src/index.ts:13-58 | the loop publishes the Worker's handshake, then behaves as the run specification, never filtering |
| Worker.WorkEnvelopeValidates | packages/agents/worker/src/index.ts:34-39 | the work envelope is a valid work message from the Worker carrying the artifact |
| Worker.EveryValidEnvelopeAdmitted | packages/agents/worker/src/index.ts:16-24 | every parsed, valid envelope reaches the body; nothing else does |
| Worker.IgnoresNonPlan | packages/agents/worker/src/index.ts:26 | anything but a plan publishes nothing |
| Worker.PlanProducesWork | packages/agents/worker/src/index.ts:26-41 | a plan stores the artifact under (taskId, "artifact") first, then publishes it once as work; it mentions a stub and quotes the instruction's first 60 characters |
| Worker.FailuresOnError | packages/agents/worker/src/index.ts:17-44 | invalid envelopes, parse errors and failures go to console.error, nothing else is reported |
| Critic.Start | packages/agents/critic/src/index.ts:13-64 | the loop publishes the Critic's handshake, then behaves as the run specification, never filtering |
| Critic.CritiqueEnvelopeValidates | packages/agents/critic/src/index.ts:30-35 | the critique envelope is a valid critique message from the Critic carrying the review |
| Critic.DoneEnvelopeValidates | packages/agents/critic/src/index.ts:39-44 | the done envelope is a valid control message from the Critic with the done text |
| Critic.ReviewAlwaysDone | packages/agents/critic/src/index.ts:5-9 | every review contains control:done; the lower score is given exactly when the artifact mentions a stub |
| Critic.DoneTextSaysDone | packages/agents/critic/src/index.ts:43 | the done text mentions done |
| Critic.ReviewsStoredArtifact | packages/agents/critic/src/index.ts:27-28 | the stored artifact is reviewed when present, the envelope content when not |
| Critic.EveryValidEnvelopeAdmitted | packages/agents/critic/src/index.ts:16-24 | every parsed, valid envelope reaches the body; nothing else does |
| Critic.IgnoresNonWork | packages/agents/critic/src/index.ts:26 | anything but work publishes nothing |
| Critic.WorkYieldsCritiqueThenDone | packages/agents/critic/src/index.ts:26-47 | work yields exactly two valid envelopes for its task, the critique and then the done control, and writes no memory |
| Critic.FailuresOnError | packages/agents/critic/src/index.ts:17-50 | invalid envelopes, parse errors and failures go to console.error, nothing else is reported |
| System.BuiltEnvelope | packages/agent-kit/src/core.ts:70-81 | a complete partial without meta builds an envelope both core.ts's and the coordinator's schemas accept as the same message |
| System.PlannerReacts | packages/agents/planner/src/index.ts:34-58 | delivered to the Planner, a start control stores the plan and sends one plan envelope; anything else does nothing |
| System.WorkerReacts | packages/agents/worker/src/index.ts:16-45 | delivered to the Worker, a plan stores and sends the artifact; anything else does nothing |
| System.CriticReacts | packages/agents/critic/src/index.ts:16-51 | delivered to the Critic, work sends a critique and a done envelope; anything else does nothing |
| System.CoordReacts | packages/runtime/src/bus.ts:23-31 | delivered to the coordinator, a valid envelope runs its transition and sends the start iff it kicks first |
| System.DeliverEnvelope | packages/runtime/src/index.ts:44-66 | delivering a valid envelope to all four participants gives the next world by their reaction rules |
| System.HandshakeEnvelope | packages/agent-kit/src/agent.ts:94-104 | each handshake is a valid status/ready envelope under both schemas |
| System.RunEnvelopes | packages/runtime/src/schema.ts:3-17 | the start, plan, work, critique and done envelopes of a run are all valid under both schemas |
| System.StartMentionsDone | packages/runtime/src/index.ts:40 | the start content mentions done iff the goal does |
| System.CriticDoneCompletes | packages/agents/critic/src/index.ts:39-45 | the Critic's done envelope reaches the coordinator for its task and passes the completion test |
| System.StageEnvelope | packages/runtime/src/index.ts:44-66 | at each stage of the run the head of the queue is a valid envelope |
| System.StageDelivered | packages/runtime/src/index.ts:44-66 | each delivery moves the run from one stage to the next |
| System.LastStage | packages/runtime/src/index.ts:57-60 | the last stage has finished by the Critic's done text after seven turns, with the plan and the artifact stored and nothing queued |
| System.RunReachesLastStage | packages/runtime/src/index.ts:44-66 | eight deliveries from boot reach the last stage |
| System.RunFinishes | packages/runtime/src/index.ts:49-60 | with MAX_TURNS at least 7 and a goal not mentioning done, the run finishes by the Critic's done envelope after seven turns, with plan and artifact stored |
| System.StartEchoDelivered | packages/runtime/src/index.ts:36-60 | with a goal mentioning done, delivering the start envelope finishes the run as the Coordinator's |
| System.RunFinishesOnStart | packages/runtime/src/index.ts:36-60 | with a goal mentioning done, four deliveries from boot finish the run on the echoed start |
| System.TimerStartsOnce | packages/runtime/src/index.ts:68-69 | the timer queues the start at most once, not after a kick, and leaves the run started |

## Left out

- Redis, and the connection handling of `initBus`, `Bus.init` and the memory wrappers. The bus is the sequence of payloads that arrive and envelopes that are published. The task memory is a map from `(taskId, field)` to a JSON value.
- JSON text parsing and serialisation. A payload is `Malformed` or the parsed JSON value. The Planner's stored plan is written as the value `JSON.parse` gives for the plan text (`Planner.PlanValue`).
- The Worker's `JSON.stringify` of the stored plan and the Critic's `String()` of a stored non-string artifact are taken as functions given as parameters.
- packages/agents/critic/src/memory.ts is not part of this model. The Critic's `memGet` is taken to behave like agent-kit's.
- uuid and ISO timestamp generation. Each builder gets its id and ts as a `Stamp` parameter. The `uuid()` and `datetime()` checks of messages.ts are predicates given as parameters (`Messages.Formats`).
- `setTimeout` and `process.exit` are events. The timer is `OnTimer`/`FireTimer`/`System.Fire`, and exit is the `exit` field. Nothing is processed after it.
- `Number(process.env.ORION_MAX_TURNS || 10)` is a given natural number `maxTurns`. Every finite value x acts as the natural number ⌊max(x, 0)⌋: the test `turns > x` on whole turns is the same, so a negative value halts on the first counted message like 0 and a fraction acts as its floor. NaN and `Infinity`, which disable the ceiling, are not modelled.
- Concurrency and interleaving. Each envelope is handled to completion. `System` fixes one order for a run: every published envelope is delivered head-first to Planner, Worker, Critic and then the Coordinator, and the three handshakes are queued before the Coordinator sees anything. Other interleavings, lost messages and the timer racing the handshakes are not modelled end to end.
- Logger I/O: `ensureLogDir`, `appendLine`, `LOG_DIR` resolution, the clock and the JSONL line text. `Logger.Emit` gives the stream, the console text and the file names.
- The handlers' informational `log.info` calls and the agents' `console.log` "ready" lines. They change no state.
- The exact text of console messages and of zod's formatted issues. `Agent.Outcome.Invalid` keeps the model's issue list.
- `Messages.ParseOrion` rejects without an issue list. `RuntimeSchema` reports every bad `meta` as one issue on `meta`.
- `RuntimeBus.Bus.Receive`: whether the listener throws is a parameter, since the coordinator's listener is the state machine itself.
- JavaScript strings are UTF-16. `slice(0, n)` is modelled on Dafny characters (`Text.Take`), and case folding on ASCII letters only, which is what a non-unicode `i` regex does with an ASCII pattern.
