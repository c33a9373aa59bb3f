/**
 * packages/agents/planner/src/index.ts: the Planner, built with defineAgent.
 * It sees only control envelopes; on a start instruction it stores the mocked
 * plan under the task's "plan" field and then publishes it as a plan envelope.
 */
module Planner {

  import opened Wrappers
  import opened Json
  import Core
  import Text
  import Agent
  import MockLlm

  const Name: string := "Planner"

  /** PlannerConfig: the most planning steps and the logical model identifier. */
  datatype PlannerConfig = PlannerConfig(maxSteps: nat, model: string)

  const Config: PlannerConfig := PlannerConfig(10, "mock:planner-v1")

  /** mockLLMPlanner ignores the goal and answers with the fixed plan text, the same one mockllm.ts has. */
  function MockPlanner(goal: string): string {
    MockLlm.PlanText
  }

  /** The plan steps, in order, as the plan text lists them. */
  const Steps: seq<string> :=
    ["Define requirements", "Choose services", "Design data flow", "Outline scaling", "List risks"]

  /** JSON.parse of the plan text: an object whose "plan" is the array of the steps. */
  const PlanValue: Json :=
    JObj(map["plan" := JArr(seq(|Steps|, i requires 0 <= i < |Steps| => JStr(Steps[i])))])

  /** The plan envelope for a task. */
  function PlanEnvelope(taskId: string, st: Core.Stamp): Json {
    Core.BuildMsg(Core.Partial(Some(taskId), Some(Name), None, Some(Core.Plan), Some(MockPlanner("")), None, None), st)
  }

  /** The start-instruction test of the handler. */
  predicate IsStart(m: Core.Msg) {
    Text.StartsWith(m.content, "start:")
  }

  /** onMessage: nothing unless the content starts with "start:"; then memSet, then publish. */
  function OnMessage(m: Core.Msg, ctx: Agent.Context<PlannerConfig>, mem: Agent.Memory, st: Agent.Stamps): Agent.Reaction {
    if !IsStart(m) then Agent.Reaction([], false)
    else Agent.Reaction([Agent.MemSet(m.taskId, "plan", PlanValue), Agent.Publish(PlanEnvelope(m.taskId, st(0)))], false)
  }

  /** startPlanner: the registration passed to defineAgent, filtering with isControlMsg. */
  const StartPlanner: Agent.Registration<PlannerConfig> :=
    Agent.Registration(Name, Config, Some(Core.IsControlMsg), OnMessage)

  // ---------------------------------------------------------------- properties

  /** The plan envelope is a valid plan message from the Planner carrying the plan text. */
  lemma PlanEnvelopeValidates(taskId: string, st: Core.Stamp)
    ensures Core.Validate(PlanEnvelope(taskId, st))
            == Success(Core.Msg(st.id, taskId, st.ts, Name, None, Core.Plan, MockLlm.PlanText, None, None))
  {
    Core.BuildMsgValidates(Core.Partial(Some(taskId), Some(Name), None, Some(Core.Plan), Some(MockPlanner("")), None, None), st);
  }

  /** The handler is reached by exactly the valid control envelopes. */
  lemma OnlyControlReachesHandler(p: Payload)
    ensures Agent.Admit(StartPlanner, p).Admitted? <==>
              p.Parsed? && Core.Validate(p.value).Success? && Core.Validate(p.value).value.msgType == Core.Control
    ensures Agent.Admit(StartPlanner, p).Admitted? ==> Agent.Admit(StartPlanner, p).msg.msgType == Core.Control
  {
  }

  /** A control message that is not a start instruction has no effect and does not throw. */
  lemma IgnoresOtherControl(m: Core.Msg, ctx: Agent.Context<PlannerConfig>, mem: Agent.Memory, st: Agent.Stamps)
    requires !Text.StartsWith(m.content, "start:")
    ensures OnMessage(m, ctx, mem, st) == Agent.Reaction([], false)
    ensures Agent.ApplyEffects(mem, OnMessage(m, ctx, mem, st).effects) == mem
    ensures Agent.Published(OnMessage(m, ctx, mem, st).effects) == []
  {
  }

  /**
   * A start instruction stores the plan under the task's "plan" field and then
   * publishes exactly one envelope: the plan, for the same task, from the Planner.
   */
  lemma StartPublishesPlan(m: Core.Msg, ctx: Agent.Context<PlannerConfig>, mem: Agent.Memory, st: Agent.Stamps)
    requires Text.StartsWith(m.content, "start:")
    ensures !OnMessage(m, ctx, mem, st).threw
    ensures OnMessage(m, ctx, mem, st).effects[0] == Agent.MemSet(m.taskId, "plan", PlanValue)
    ensures Agent.MemGet(Agent.ApplyEffects(mem, OnMessage(m, ctx, mem, st).effects), m.taskId, "plan") == PlanValue
    ensures Agent.Published(OnMessage(m, ctx, mem, st).effects) == [Wire(Channel, PlanEnvelope(m.taskId, st(0)))]
    ensures Core.Validate(PlanEnvelope(m.taskId, st(0)))
            == Success(Core.Msg(st(0).id, m.taskId, st(0).ts, Name, None, Core.Plan, MockLlm.PlanText, None, None))
  {
    Agent.WritesThenPublishes(mem, m.taskId, "plan", PlanValue, PlanEnvelope(m.taskId, st(0)));
    PlanEnvelopeValidates(m.taskId, st(0));
  }

  /** Two start instructions for one task produce the same reaction, whatever their goals. */
  lemma PlanIgnoresGoal(a: Core.Msg, b: Core.Msg, ctx: Agent.Context<PlannerConfig>, mem: Agent.Memory, st: Agent.Stamps)
    requires Text.StartsWith(a.content, "start:") && Text.StartsWith(b.content, "start:") && a.taskId == b.taskId
    ensures OnMessage(a, ctx, mem, st) == OnMessage(b, ctx, mem, st)
    ensures MockPlanner(a.content) == MockPlanner(b.content) == MockLlm.Reply("Planner", b.content)
  {
  }

  /** The stored plan lists the five steps as strings, in order. */
  lemma PlanValueSteps()
    ensures PlanValue.JObj? && "plan" in PlanValue.fields && PlanValue.fields["plan"].JArr?
    ensures |PlanValue.fields["plan"].items| == 5
    ensures forall i | 0 <= i < 5 :: PlanValue.fields["plan"].items[i] == JStr(Steps[i])
  {
  }

  /** Over any run, every handler call is for a control envelope and sees the fixed config. */
  lemma RunSeesControlAndConfig(mem0: Agent.Memory, ps: seq<Payload>, stamps: nat -> Agent.Stamps)
    ensures forall c | c in Agent.RunSpec(StartPlanner, mem0, ps, stamps).calls ::
              c.ctx == Agent.Context(Name, Config) && c.msg.msgType == Core.Control
  {
    var calls := Agent.RunSpec(StartPlanner, mem0, ps, stamps).calls;
    Agent.RunCalls(StartPlanner, mem0, ps, stamps);
    forall c | c in calls ensures c.ctx == Agent.Context(Name, Config) && c.msg.msgType == Core.Control {
      var k :| 0 <= k < |calls| && calls[k] == c;
      assert Agent.CallMsgs(calls)[k] == c.msg;
      Agent.AdmittedExactly(StartPlanner, ps, c.msg);
      var i :| 0 <= i < |ps| && Agent.Admit(StartPlanner, ps[i]) == Agent.Admitted(c.msg);
    }
  }
}
