/**
 * packages/agents/worker/src/index.ts: the Worker, with its own subscriber
 * loop on "orion:bus". It runs every payload through JSON parsing and
 * MsgSchema without a filter; on a plan envelope it reads the task's stored
 * plan, drafts an artifact from it, stores the artifact and publishes it as a
 * work envelope. Invalid envelopes and failures go to console.error.
 * JSON.stringify of the stored plan is a parameter.
 */
module Worker {

  import opened Wrappers
  import opened Json
  import Core
  import Text
  import Logger
  import Agent
  import MockLlm

  const Name: string := "Worker"

  /** mockLLMWorker: the artifact frame around the first 60 characters of the input. */
  function MockWorker(input: string): string {
    MockLlm.Artifact(input, 60)
  }

  /** The instruction the Worker drafts from: the stored plan, serialised. */
  function Instruction(stringify: Json -> string, mem: Agent.Memory, taskId: string): string {
    "Using plan " + stringify(Agent.MemGet(mem, taskId, "plan"))
  }

  function WorkEnvelope(taskId: string, artifact: string, st: Core.Stamp): Json {
    Core.BuildMsg(Core.Partial(Some(taskId), Some(Name), None, Some(Core.Work), Some(artifact), None, None), st)
  }

  /** The body of the subscriber after validation: only plan envelopes are acted on. */
  function OnMessage(stringify: Json -> string, m: Core.Msg, mem: Agent.Memory, st: Agent.Stamps): Agent.Reaction {
    if m.msgType != Core.Plan then Agent.Reaction([], false)
    else
      var artifact := MockWorker(Instruction(stringify, mem, m.taskId));
      Agent.Reaction([Agent.MemSet(m.taskId, "artifact", JStr(artifact)),
                      Agent.Publish(WorkEnvelope(m.taskId, artifact, st(0)))], false)
  }

  /** The subscriber as a registration without a filter or config. */
  function Subscriber(stringify: Json -> string): Agent.Registration<()> {
    Agent.Registration(Name, (), None, (m, ctx, mem, st) => OnMessage(stringify, m, mem, st))
  }

  /** The console stream the Worker's own loop writes an outcome to. */
  function ReportFor(o: Agent.Outcome): Option<Logger.Stream> {
    if o.ParseError? || o.Invalid? || o.HandlerFailed? then Some(Logger.ConsoleError) else None
  }

  /**
   * main(): subscribe, publish the ready handshake, then handle every payload
   * to completion inside the try/catch. Nothing is filtered out.
   */
  method Start(stringify: Json -> string, mem0: Agent.Memory, ps: seq<Payload>, stamps: nat -> Agent.Stamps, boot: Core.Stamp)
    returns (outcomes: seq<Agent.Outcome>, mem: Agent.Memory, wires: seq<Wire>)
    ensures |outcomes| == |ps| && |wires| >= 1
    ensures wires[0] == Wire(Channel, Agent.Handshake(Name, boot))
    ensures outcomes == Agent.RunSpec(Subscriber(stringify), mem0, ps, stamps).outcomes
    ensures mem == Agent.RunSpec(Subscriber(stringify), mem0, ps, stamps).memory
    ensures wires == [wires[0]] + Agent.RunSpec(Subscriber(stringify), mem0, ps, stamps).published
    ensures forall i | 0 <= i < |ps| :: outcomes[i] != Agent.Filtered
  {
    outcomes, mem, wires := Agent.Start(Subscriber(stringify), mem0, ps, stamps, boot);
    forall i | 0 <= i < |ps| ensures outcomes[i] != Agent.Filtered {
      Agent.RunOutcomes(Subscriber(stringify), mem0, ps, stamps, i);
    }
  }

  // ---------------------------------------------------------------- properties

  /** The work envelope is a valid work message from the Worker carrying the artifact. */
  lemma WorkEnvelopeValidates(taskId: string, artifact: string, st: Core.Stamp)
    ensures Core.Validate(WorkEnvelope(taskId, artifact, st))
            == Success(Core.Msg(st.id, taskId, st.ts, Name, None, Core.Work, artifact, None, None))
  {
    Core.BuildMsgValidates(Core.Partial(Some(taskId), Some(Name), None, Some(Core.Work), Some(artifact), None, None), st);
  }

  /** The loop has no filter: every valid envelope reaches the handler body. */
  lemma EveryValidEnvelopeAdmitted(stringify: Json -> string, p: Payload)
    ensures Agent.Admit(Subscriber(stringify), p).Admitted? <==> p.Parsed? && Core.Validate(p.value).Success?
  {
  }

  /** Anything but a plan envelope has no effect. */
  lemma IgnoresNonPlan(stringify: Json -> string, m: Core.Msg, mem: Agent.Memory, st: Agent.Stamps)
    requires m.msgType != Core.Plan
    ensures OnMessage(stringify, m, mem, st) == Agent.Reaction([], false)
    ensures Agent.Published(OnMessage(stringify, m, mem, st).effects) == []
  {
  }

  /**
   * A plan envelope makes the Worker store an artifact under the task's
   * "artifact" field and then publish exactly that artifact as a work envelope
   * for the same task. The artifact mentions a stub and quotes the first 60
   * characters of the instruction drawn from the stored plan.
   */
  lemma PlanProducesWork(stringify: Json -> string, m: Core.Msg, mem: Agent.Memory, st: Agent.Stamps)
    requires m.msgType == Core.Plan
    ensures var artifact := MockWorker(Instruction(stringify, mem, m.taskId));
            && !OnMessage(stringify, m, mem, st).threw
            && OnMessage(stringify, m, mem, st).effects[0] == Agent.MemSet(m.taskId, "artifact", JStr(artifact))
            && Agent.MemGet(Agent.ApplyEffects(mem, OnMessage(stringify, m, mem, st).effects), m.taskId, "artifact")
               == JStr(artifact)
            && Agent.Published(OnMessage(stringify, m, mem, st).effects)
               == [Wire(Channel, WorkEnvelope(m.taskId, artifact, st(0)))]
            && Core.Validate(WorkEnvelope(m.taskId, artifact, st(0)))
               == Success(Core.Msg(st(0).id, m.taskId, st(0).ts, Name, None, Core.Work, artifact, None, None))
            && Text.ContainsIgnoreCase(artifact, "stub")
            && Text.Contains(artifact, Text.Take(Instruction(stringify, mem, m.taskId), 60))
  {
    var artifact := MockWorker(Instruction(stringify, mem, m.taskId));
    Agent.WritesThenPublishes(mem, m.taskId, "artifact", JStr(artifact), WorkEnvelope(m.taskId, artifact, st(0)));
    WorkEnvelopeValidates(m.taskId, artifact, st(0));
    MockLlm.ArtifactMentionsStub(Instruction(stringify, mem, m.taskId), 60);
    MockLlm.ArtifactQuotes(Instruction(stringify, mem, m.taskId), 60);
  }

  /** Every failure the loop catches or detects goes to console.error, unlike defineAgent's warning. */
  lemma FailuresOnError(o: Agent.Outcome)
    ensures ReportFor(o) == Some(Logger.ConsoleError) <==> o.ParseError? || o.Invalid? || o.HandlerFailed?
    ensures ReportFor(o).None? <==> o.Filtered? || o.Handled?
    ensures o.Invalid? ==> ReportFor(o) != Some(Logger.StreamFor(Agent.LogFor(o).value))
  {
  }
}
