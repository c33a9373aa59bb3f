/**
 * The whole run: the coordinator of packages/runtime/src/index.ts and the
 * three agents on one broker channel with one shared task memory. Every
 * publication is broadcast to all four subscribers; the model delivers the
 * oldest pending payload to the Planner, the Worker, the Critic and the
 * coordinator, in that order, and queues what they publish in the same order.
 * Ids, timestamps and the two serialisation functions of the agents come from
 * the environment.
 */
module System {

  import opened Wrappers
  import opened Json
  import Core
  import Text
  import RuntimeSchema
  import RuntimeBus
  import Agent
  import Coordinator
  import Planner
  import Worker
  import Critic
  import MockLlm

  /** The stamps a participant draws while handling delivery n. */
  type Clock = (nat, string) -> Agent.Stamps

  datatype Env = Env(
    taskId: string,
    goal: string,
    maxTurns: nat,
    stringify: Json -> string,
    toText: Json -> string,
    boot: string -> Core.Stamp,
    clock: Clock)

  datatype World = World(queue: seq<Json>, mem: Agent.Memory, coord: Coordinator.State, count: nat)

  /** What one participant did with a delivery: the memory afterwards and what it published. */
  datatype Out = Out(mem: Agent.Memory, sent: seq<Json>)

  function Payloads(ws: seq<Wire>): (r: seq<Json>)
    ensures |r| == |ws| && forall i | 0 <= i < |ws| :: r[i] == ws[i].payload
  {
    seq(|ws|, i requires 0 <= i < |ws| => ws[i].payload)
  }

  /** An agent's subscriber on one delivered payload. */
  function React<C>(reg: Agent.Registration<C>, mem: Agent.Memory, j: Json, st: Agent.Stamps): Out {
    var s := Agent.StepOf(reg, mem, Agent.Admit(reg, Parsed(j)), st);
    Out(s.memory, Payloads(s.published))
  }

  /** The coordinator's listener on one delivered payload: its new state and whether it publishes the start. */
  function CoordReact(e: Env, s: Coordinator.State, j: Json, st: Core.Stamp): (Coordinator.State, seq<Json>) {
    match RuntimeBus.Decode(Parsed(j))
    case None => (s, [])
    case Some(m) =>
      (Coordinator.OnMessage(s, m, e.maxTurns),
       if Coordinator.StartsOn(s, m) then [Coordinator.StartEnvelope(e.taskId, e.goal, st)] else [])
  }

  /** Deliver the oldest pending payload to every subscriber. */
  function Deliver(e: Env, w: World): World
    requires w.queue != []
  {
    var j := w.queue[0];
    var n := w.count;
    var p := React(Planner.StartPlanner, w.mem, j, e.clock(n, Planner.Name));
    var wk := React(Worker.Subscriber(e.stringify), p.mem, j, e.clock(n, Worker.Name));
    var cr := React(Critic.Subscriber(e.toText), wk.mem, j, e.clock(n, Critic.Name));
    var co := CoordReact(e, w.coord, j, e.clock(n, "Coordinator")(0));
    World(w.queue[1..] + p.sent + wk.sent + cr.sent + co.1, cr.mem, co.0, n + 1)
  }

  /** The fallback timer of the coordinator: kick, publishing the start if it was not yet published. */
  function Fire(e: Env, w: World, st: Core.Stamp): World {
    var starts := w.coord.exit.None? && !w.coord.started;
    w.(coord := Coordinator.OnTimer(w.coord),
       queue := w.queue + if starts then [Coordinator.StartEnvelope(e.taskId, e.goal, st)] else [])
  }

  /** Up to k deliveries. */
  function RunWorld(e: Env, w: World, k: nat): World
    decreases k
  {
    if k == 0 || w.queue == [] then w else RunWorld(e, Deliver(e, w), k - 1)
  }

  /** All three agents have published their handshakes; the coordinator has seen nothing yet. */
  function Boot(e: Env, mem0: Agent.Memory): World {
    World([Agent.Handshake(Planner.Name, e.boot(Planner.Name)),
           Agent.Handshake(Worker.Name, e.boot(Worker.Name)),
           Agent.Handshake(Critic.Name, e.boot(Critic.Name))], mem0, Coordinator.Initial, 0)
  }

  // ---------------------------------------------------------------- one participant at a time

  /** An envelope both schemas accept as the same message. */
  predicate Envelope(j: Json, m: Core.Msg) {
    Core.Validate(j) == Success(m) && RuntimeSchema.Validate(j) == Success(RuntimeSchema.FromCore(m, None))
  }

  lemma BuiltEnvelope(p: Core.Partial, st: Core.Stamp)
    requires p.taskId.Some? && p.from.Some? && p.msgType.Some? && p.meta.None?
    ensures Envelope(Core.BuildMsg(p, st), Core.Built(p, st))
  {
    Core.BuildMsgValidates(p, st);
    assert "meta" !in Core.BuildMsg(p, st).fields;
    RuntimeSchema.CoreWithoutMetaAccepted(Core.BuildMsg(p, st));
  }

  /** A payload the registration admits as m has the effects of the handler on m. */
  lemma ReactAdmitted<C>(reg: Agent.Registration<C>, mem: Agent.Memory, j: Json, m: Core.Msg, st: Agent.Stamps)
    requires Agent.Admit(reg, Parsed(j)) == Agent.Admitted(m)
    ensures var re := reg.onMessage(m, Agent.Context(reg.name, reg.config), mem, st);
            React(reg, mem, j, st) == Out(Agent.ApplyEffects(mem, re.effects), Payloads(Agent.Published(re.effects)))
  {
  }

  /** A write followed by a publication, as the bus carries it. */
  lemma WriteThenPublish(mem: Agent.Memory, taskId: string, field: string, v: Json, x: Json)
    ensures Agent.ApplyEffects(mem, [Agent.MemSet(taskId, field, v), Agent.Publish(x)]) == mem[(taskId, field) := v]
    ensures Payloads(Agent.Published([Agent.MemSet(taskId, field, v), Agent.Publish(x)])) == [x]
  {
    Agent.WritesThenPublishes(mem, taskId, field, v, x);
  }

  /** Two publications, as the bus carries them. */
  lemma PublishTwo(mem: Agent.Memory, x: Json, y: Json)
    ensures Agent.ApplyEffects(mem, [Agent.Publish(x), Agent.Publish(y)]) == mem
    ensures Payloads(Agent.Published([Agent.Publish(x), Agent.Publish(y)])) == [x, y]
  {
    Agent.PublishesTwo(mem, x, y);
  }

  /** The Planner writes the plan and publishes it on a start instruction, and does nothing otherwise. */
  lemma PlannerReacts(mem: Agent.Memory, j: Json, m: Core.Msg, st: Agent.Stamps)
    requires Core.Validate(j) == Success(m)
    ensures m.msgType == Core.Control && Planner.IsStart(m) ==>
              React(Planner.StartPlanner, mem, j, st)
              == Out(mem[(m.taskId, "plan") := Planner.PlanValue], [Planner.PlanEnvelope(m.taskId, st(0))])
    ensures !(m.msgType == Core.Control && Planner.IsStart(m)) ==> React(Planner.StartPlanner, mem, j, st) == Out(mem, [])
  {
    var reg := Planner.StartPlanner;
    if m.msgType == Core.Control {
      assert Agent.Admit(reg, Parsed(j)) == Agent.Admitted(m);
      ReactAdmitted(reg, mem, j, m, st);
      if Planner.IsStart(m) {
        WriteThenPublish(mem, m.taskId, "plan", Planner.PlanValue, Planner.PlanEnvelope(m.taskId, st(0)));
      }
    } else {
      assert Agent.Admit(reg, Parsed(j)) == Agent.Rejected(Agent.Filtered);
    }
  }

  /** The Worker writes and publishes an artifact on a plan envelope, and does nothing otherwise. */
  lemma WorkerReacts(stringify: Json -> string, mem: Agent.Memory, j: Json, m: Core.Msg, st: Agent.Stamps)
    requires Core.Validate(j) == Success(m)
    ensures m.msgType == Core.Plan ==>
              var a := Worker.MockWorker(Worker.Instruction(stringify, mem, m.taskId));
              React(Worker.Subscriber(stringify), mem, j, st)
              == Out(mem[(m.taskId, "artifact") := JStr(a)], [Worker.WorkEnvelope(m.taskId, a, st(0))])
    ensures m.msgType != Core.Plan ==> React(Worker.Subscriber(stringify), mem, j, st) == Out(mem, [])
  {
    var reg := Worker.Subscriber(stringify);
    Agent.NoFilterAdmitsValid(reg, Parsed(j));
    ReactAdmitted(reg, mem, j, m, st);
    assert reg.onMessage(m, Agent.Context(reg.name, reg.config), mem, st) == Worker.OnMessage(stringify, m, mem, st);
    if m.msgType == Core.Plan {
      var a := Worker.MockWorker(Worker.Instruction(stringify, mem, m.taskId));
      WriteThenPublish(mem, m.taskId, "artifact", JStr(a), Worker.WorkEnvelope(m.taskId, a, st(0)));
    }
  }

  /** The Critic publishes the critique and the done message on a work envelope, and does nothing otherwise. */
  lemma CriticReacts(toText: Json -> string, mem: Agent.Memory, j: Json, m: Core.Msg, st: Agent.Stamps)
    requires Core.Validate(j) == Success(m)
    ensures m.msgType == Core.Work ==>
              React(Critic.Subscriber(toText), mem, j, st)
              == Out(mem, [Critic.CritiqueEnvelope(m.taskId, Critic.Review(toText, mem, m), st(0)),
                           Critic.DoneEnvelope(m.taskId, st(1))])
    ensures m.msgType != Core.Work ==> React(Critic.Subscriber(toText), mem, j, st) == Out(mem, [])
  {
    var reg := Critic.Subscriber(toText);
    Agent.NoFilterAdmitsValid(reg, Parsed(j));
    ReactAdmitted(reg, mem, j, m, st);
    assert reg.onMessage(m, Agent.Context(reg.name, reg.config), mem, st) == Critic.OnMessage(toText, m, mem, st);
    if m.msgType == Core.Work {
      Critic.ReviewAlwaysDone(Critic.ReviewInput(toText, Agent.MemGet(mem, m.taskId, "artifact"), m.content));
      PublishTwo(mem, Critic.CritiqueEnvelope(m.taskId, Critic.Review(toText, mem, m), st(0)), Critic.DoneEnvelope(m.taskId, st(1)));
    }
  }

  lemma CoordReacts(e: Env, s: Coordinator.State, j: Json, m: Core.Msg, st: Core.Stamp)
    requires Envelope(j, m)
    ensures CoordReact(e, s, j, st)
            == (Coordinator.OnMessage(s, RuntimeSchema.FromCore(m, None), e.maxTurns),
                if Coordinator.StartsOn(s, RuntimeSchema.FromCore(m, None))
                then [Coordinator.StartEnvelope(e.taskId, e.goal, st)] else [])
  {
  }

  /** What the Planner does with a valid message. */
  function PlannerOut(mem: Agent.Memory, m: Core.Msg, st: Agent.Stamps): Out {
    if m.msgType == Core.Control && Planner.IsStart(m) then
      Out(mem[(m.taskId, "plan") := Planner.PlanValue], [Planner.PlanEnvelope(m.taskId, st(0))])
    else Out(mem, [])
  }

  function WorkerOut(stringify: Json -> string, mem: Agent.Memory, m: Core.Msg, st: Agent.Stamps): Out {
    if m.msgType == Core.Plan then
      var a := Worker.MockWorker(Worker.Instruction(stringify, mem, m.taskId));
      Out(mem[(m.taskId, "artifact") := JStr(a)], [Worker.WorkEnvelope(m.taskId, a, st(0))])
    else Out(mem, [])
  }

  function CriticOut(toText: Json -> string, mem: Agent.Memory, m: Core.Msg, st: Agent.Stamps): Out {
    if m.msgType == Core.Work then
      Out(mem, [Critic.CritiqueEnvelope(m.taskId, Critic.Review(toText, mem, m), st(0)), Critic.DoneEnvelope(m.taskId, st(1))])
    else Out(mem, [])
  }

  /** The world after delivering a valid envelope carrying m, computed on the typed message alone. */
  function NextWorld(e: Env, w: World, m: Core.Msg): World
    requires w.queue != []
  {
    var n := w.count;
    var rm := RuntimeSchema.FromCore(m, None);
    var p := PlannerOut(w.mem, m, e.clock(n, Planner.Name));
    var wk := WorkerOut(e.stringify, p.mem, m, e.clock(n, Worker.Name));
    var cr := CriticOut(e.toText, wk.mem, m, e.clock(n, Critic.Name));
    var start := if Coordinator.StartsOn(w.coord, rm)
                 then [Coordinator.StartEnvelope(e.taskId, e.goal, e.clock(n, "Coordinator")(0))] else [];
    World(w.queue[1..] + p.sent + wk.sent + cr.sent + start, cr.mem, Coordinator.OnMessage(w.coord, rm, e.maxTurns), n + 1)
  }

  /** Delivering a valid envelope depends on the message it carries only. */
  lemma DeliverEnvelope(e: Env, w: World, m: Core.Msg)
    requires w.queue != [] && Envelope(w.queue[0], m)
    ensures Deliver(e, w) == NextWorld(e, w, m)
  {
    var j := w.queue[0];
    var n := w.count;
    PlannerReacts(w.mem, j, m, e.clock(n, Planner.Name));
    var p := PlannerOut(w.mem, m, e.clock(n, Planner.Name));
    WorkerReacts(e.stringify, p.mem, j, m, e.clock(n, Worker.Name));
    var wk := WorkerOut(e.stringify, p.mem, m, e.clock(n, Worker.Name));
    CriticReacts(e.toText, wk.mem, j, m, e.clock(n, Critic.Name));
    CoordReacts(e, w.coord, j, m, e.clock(n, "Coordinator")(0));
  }

  // ---------------------------------------------------------------- the envelopes of a run

  function HandshakeMsg(e: Env, name: string): Core.Msg {
    Core.Msg(e.boot(name).id, "boot", e.boot(name).ts, name, None, Core.Status, "ready", None, None)
  }

  lemma HandshakeEnvelope(e: Env, name: string)
    ensures Envelope(Agent.Handshake(name, e.boot(name)), HandshakeMsg(e, name))
  {
    BuiltEnvelope(Core.Partial(Some("boot"), Some(name), None, Some(Core.Status), Some("ready"), None, None), e.boot(name));
  }

  /** The start is published while the third handshake is delivered. */
  function StartStamp(e: Env): Core.Stamp { e.clock(2, "Coordinator")(0) }

  function Start(e: Env): Json { Coordinator.StartEnvelope(e.taskId, e.goal, StartStamp(e)) }

  function PlanJson(e: Env): Json { Planner.PlanEnvelope(e.taskId, e.clock(3, Planner.Name)(0)) }

  function PlanMsg(e: Env): Core.Msg {
    var st := e.clock(3, Planner.Name)(0);
    Core.Msg(st.id, e.taskId, st.ts, Planner.Name, None, Core.Plan, Planner.MockPlanner(""), None, None)
  }

  /** The artifact the Worker drafts from the stored plan. */
  function ArtifactOf(e: Env): string {
    Worker.MockWorker("Using plan " + e.stringify(Planner.PlanValue))
  }

  function WorkJson(e: Env): Json { Worker.WorkEnvelope(e.taskId, ArtifactOf(e), e.clock(4, Worker.Name)(0)) }

  function WorkMsg(e: Env): Core.Msg {
    var st := e.clock(4, Worker.Name)(0);
    Core.Msg(st.id, e.taskId, st.ts, Worker.Name, None, Core.Work, ArtifactOf(e), None, None)
  }

  function CritiqueJson(e: Env): Json {
    Critic.CritiqueEnvelope(e.taskId, Critic.AcceptableScore, e.clock(5, Critic.Name)(0))
  }

  function CritiqueMsg(e: Env): Core.Msg {
    var st := e.clock(5, Critic.Name)(0);
    Core.Msg(st.id, e.taskId, st.ts, Critic.Name, None, Core.Critique, Critic.AcceptableScore, None, None)
  }

  function DoneJson(e: Env): Json { Critic.DoneEnvelope(e.taskId, e.clock(5, Critic.Name)(1)) }

  function DoneMsg(e: Env): Core.Msg {
    var st := e.clock(5, Critic.Name)(1);
    Core.Msg(st.id, e.taskId, st.ts, Critic.Name, None, Core.Control, Critic.DoneText, None, None)
  }

  lemma StartEnvelopeValid(e: Env)
    ensures Envelope(Start(e), Coordinator.StartMsg(e.taskId, e.goal, StartStamp(e)))
  {
    BuiltEnvelope(Core.Partial(Some(e.taskId), Some("Coordinator"), None, Some(Core.Control),
                               Some("start: " + e.goal), None, None), StartStamp(e));
  }

  lemma PlanEnvelopeValid(e: Env)
    ensures Envelope(PlanJson(e), PlanMsg(e))
  {
    BuiltEnvelope(Core.Partial(Some(e.taskId), Some(Planner.Name), None, Some(Core.Plan),
                               Some(Planner.MockPlanner("")), None, None), e.clock(3, Planner.Name)(0));
  }

  lemma WorkEnvelopeValid(e: Env)
    ensures Envelope(WorkJson(e), WorkMsg(e))
  {
    BuiltEnvelope(Core.Partial(Some(e.taskId), Some(Worker.Name), None, Some(Core.Work),
                               Some(ArtifactOf(e)), None, None), e.clock(4, Worker.Name)(0));
  }

  lemma CritiqueEnvelopeValid(e: Env)
    ensures Envelope(CritiqueJson(e), CritiqueMsg(e))
  {
    BuiltEnvelope(Core.Partial(Some(e.taskId), Some(Critic.Name), None, Some(Core.Critique),
                               Some(Critic.AcceptableScore), None, None), e.clock(5, Critic.Name)(0));
  }

  lemma DoneEnvelopeValid(e: Env)
    ensures Envelope(DoneJson(e), DoneMsg(e))
  {
    BuiltEnvelope(Core.Partial(Some(e.taskId), Some(Critic.Name), None, Some(Core.Control),
                               Some(Critic.DoneText), None, None), e.clock(5, Critic.Name)(1));
  }

  lemma RunEnvelopes(e: Env)
    ensures Envelope(Start(e), Coordinator.StartMsg(e.taskId, e.goal, StartStamp(e)))
    ensures Envelope(PlanJson(e), PlanMsg(e))
    ensures Envelope(WorkJson(e), WorkMsg(e))
    ensures Envelope(CritiqueJson(e), CritiqueMsg(e))
    ensures Envelope(DoneJson(e), DoneMsg(e))
  {
    StartEnvelopeValid(e);
    PlanEnvelopeValid(e);
    WorkEnvelopeValid(e);
    CritiqueEnvelopeValid(e);
    DoneEnvelopeValid(e);
  }

  /** "start: " holds no d, so the start content mentions done exactly when the goal does. */
  lemma StartMentionsDone(goal: string)
    ensures Text.ContainsIgnoreCase("start: " + goal, "done") <==> Text.ContainsIgnoreCase(goal, "done")
  {
    var s := "start: " + goal;
    assert Text.Lower("done") == "done";
    if Text.ContainsIgnoreCase(goal, "done") {
      Text.ContainsIgnoreCaseRight("start: ", goal, "done");
    }
    if Text.ContainsIgnoreCase(s, "done") {
      var i := Text.ContainsWitness(Text.Lower(s), "done");
      assert Text.Lower(s)[i] == 'd';
      assert forall k | 0 <= k < 7 :: Text.Lower(s)[k] == Text.LowerChar("start: "[k]) != 'd';
      assert i >= 7;
      assert Text.Lower(s)[i..i + 4] == Text.Lower(goal)[i - 7..i - 7 + 4];
      Text.ContainsAt(Text.Lower(goal), "done", i - 7);
    }
  }

  /** The Critic's done envelope reaches the coordinator as a message that passes its completion test. */
  lemma CriticDoneCompletes(taskId: string, st: Core.Stamp)
    ensures RuntimeBus.Decode(Parsed(Critic.DoneEnvelope(taskId, st))).Some?
    ensures Coordinator.IsDone(RuntimeBus.Decode(Parsed(Critic.DoneEnvelope(taskId, st))).value)
    ensures RuntimeBus.Decode(Parsed(Critic.DoneEnvelope(taskId, st))).value.taskId == taskId
  {
    BuiltEnvelope(Core.Partial(Some(taskId), Some(Critic.Name), None, Some(Core.Control),
                               Some(Critic.DoneText), None, None), st);
    Critic.DoneTextSaysDone();
  }

  // ---------------------------------------------------------------- the run, delivery by delivery

  /** The pending queue, the memory and the coordinator after k deliveries of a run whose goal does not say done. */
  function Stage(e: Env, mem0: Agent.Memory, k: nat): World
    requires k <= 8
  {
    var ready1 := {Planner.Name};
    var ready2 := {Planner.Name, Worker.Name};
    var mem4 := mem0[(e.taskId, "plan") := Planner.PlanValue];
    var mem5 := mem4[(e.taskId, "artifact") := JStr(ArtifactOf(e))];
    if k == 0 then Boot(e, mem0)
    else if k == 1 then
      World([Agent.Handshake(Worker.Name, e.boot(Worker.Name)), Agent.Handshake(Critic.Name, e.boot(Critic.Name))],
            mem0, Coordinator.State(ready1, false, 1, None), 1)
    else if k == 2 then
      World([Agent.Handshake(Critic.Name, e.boot(Critic.Name))], mem0, Coordinator.State(ready2, false, 2, None), 2)
    else if k == 3 then World([Start(e)], mem0, Coordinator.State(Coordinator.Required, true, 3, None), 3)
    else if k == 4 then World([PlanJson(e)], mem4, Coordinator.State(Coordinator.Required, true, 4, None), 4)
    else if k == 5 then World([WorkJson(e)], mem5, Coordinator.State(Coordinator.Required, true, 5, None), 5)
    else if k == 6 then
      World([CritiqueJson(e), DoneJson(e)], mem5, Coordinator.State(Coordinator.Required, true, 6, None), 6)
    else if k == 7 then World([DoneJson(e)], mem5, Coordinator.State(Coordinator.Required, true, 7, None), 7)
    else
      World([], mem5, Coordinator.State(Coordinator.Required, true, 7,
                                        Some(Coordinator.Finished(e.taskId, Critic.Name, Critic.DoneText))), 8)
  }

  /** The message the k-th delivery of such a run carries. */
  function StageMsg(e: Env, k: nat): Core.Msg
    requires k < 8
  {
    if k == 0 then HandshakeMsg(e, Planner.Name)
    else if k == 1 then HandshakeMsg(e, Worker.Name)
    else if k == 2 then HandshakeMsg(e, Critic.Name)
    else if k == 3 then Coordinator.StartMsg(e.taskId, e.goal, StartStamp(e))
    else if k == 4 then PlanMsg(e)
    else if k == 5 then WorkMsg(e)
    else if k == 6 then CritiqueMsg(e)
    else DoneMsg(e)
  }

  lemma StageEnvelope(e: Env, mem0: Agent.Memory, k: nat)
    requires k < 8
    ensures Stage(e, mem0, k).queue != [] && Envelope(Stage(e, mem0, k).queue[0], StageMsg(e, k))
  {
    var w, m := Stage(e, mem0, k), StageMsg(e, k);
    if k == 0 {
      assert w.queue[0] == Agent.Handshake(Planner.Name, e.boot(Planner.Name)) && m == HandshakeMsg(e, Planner.Name);
      HandshakeEnvelope(e, Planner.Name);
    } else if k == 1 {
      assert w.queue[0] == Agent.Handshake(Worker.Name, e.boot(Worker.Name)) && m == HandshakeMsg(e, Worker.Name);
      HandshakeEnvelope(e, Worker.Name);
    } else if k == 2 {
      assert w.queue[0] == Agent.Handshake(Critic.Name, e.boot(Critic.Name)) && m == HandshakeMsg(e, Critic.Name);
      HandshakeEnvelope(e, Critic.Name);
    } else if k == 3 {
      assert w.queue[0] == Start(e) && m == Coordinator.StartMsg(e.taskId, e.goal, StartStamp(e));
      StartEnvelopeValid(e);
    } else if k == 4 {
      assert w.queue[0] == PlanJson(e) && m == PlanMsg(e);
      PlanEnvelopeValid(e);
    } else if k == 5 {
      assert w.queue[0] == WorkJson(e) && m == WorkMsg(e);
      WorkEnvelopeValid(e);
    } else if k == 6 {
      assert w.queue[0] == CritiqueJson(e) && m == CritiqueMsg(e);
      CritiqueEnvelopeValid(e);
    } else {
      assert w.queue[0] == DoneJson(e) && m == DoneMsg(e);
      DoneEnvelopeValid(e);
    }
  }

  lemma PlannerReadyStep(e: Env, mem0: Agent.Memory)
    requires e.maxTurns >= 3
    ensures NextWorld(e, Stage(e, mem0, 0), StageMsg(e, 0)) == Stage(e, mem0, 1)
  {
  }

  lemma WorkerReadyStep(e: Env, mem0: Agent.Memory)
    requires e.maxTurns >= 3
    ensures NextWorld(e, Stage(e, mem0, 1), StageMsg(e, 1)) == Stage(e, mem0, 2)
  {
  }

  lemma CriticReadyStep(e: Env, mem0: Agent.Memory)
    requires e.maxTurns >= 3
    ensures NextWorld(e, Stage(e, mem0, 2), StageMsg(e, 2)) == Stage(e, mem0, 3)
  {
    assert {Planner.Name, Worker.Name} + {Critic.Name} == Coordinator.Required;
  }

  lemma StartStep(e: Env, mem0: Agent.Memory)
    requires e.maxTurns >= 4 && !Text.ContainsIgnoreCase(e.goal, "done")
    ensures NextWorld(e, Stage(e, mem0, 3), StageMsg(e, 3)) == Stage(e, mem0, 4)
  {
    assert ("start: " + e.goal)[..6] == "start:";
    StartMentionsDone(e.goal);
  }

  lemma PlanStep(e: Env, mem0: Agent.Memory)
    requires e.maxTurns >= 5
    ensures NextWorld(e, Stage(e, mem0, 4), StageMsg(e, 4)) == Stage(e, mem0, 5)
  {
    assert Agent.MemGet(Stage(e, mem0, 4).mem, e.taskId, "plan") == Planner.PlanValue;
  }

  lemma WorkStep(e: Env, mem0: Agent.Memory)
    requires e.maxTurns >= 6
    ensures NextWorld(e, Stage(e, mem0, 5), StageMsg(e, 5)) == Stage(e, mem0, 6)
  {
    var w := Stage(e, mem0, 5);
    assert Agent.MemGet(w.mem, e.taskId, "artifact") == JStr(ArtifactOf(e));
    MockLlm.ArtifactMentionsStub("Using plan " + e.stringify(Planner.PlanValue), 60);
    assert Critic.Review(e.toText, w.mem, WorkMsg(e)) == Critic.AcceptableScore;
  }

  lemma CritiqueStep(e: Env, mem0: Agent.Memory)
    requires e.maxTurns >= 7
    ensures NextWorld(e, Stage(e, mem0, 6), StageMsg(e, 6)) == Stage(e, mem0, 7)
  {
  }

  lemma DoneStep(e: Env, mem0: Agent.Memory)
    requires e.maxTurns >= 7
    ensures NextWorld(e, Stage(e, mem0, 7), StageMsg(e, 7)) == Stage(e, mem0, 8)
  {
    assert Critic.DoneText[0] != 's';
    assert !Planner.IsStart(DoneMsg(e));
    Critic.DoneTextSaysDone();
  }

  lemma HandshakeStep(e: Env, mem0: Agent.Memory, k: nat)
    requires k < 3 && e.maxTurns >= 3
    ensures Stage(e, mem0, k).queue != [] && NextWorld(e, Stage(e, mem0, k), StageMsg(e, k)) == Stage(e, mem0, k + 1)
  {
    if k == 0 {
      PlannerReadyStep(e, mem0);
    } else if k == 1 {
      WorkerReadyStep(e, mem0);
    } else {
      CriticReadyStep(e, mem0);
    }
  }

  /** The step of stage k by the typed message of that stage. */
  lemma StageStep(e: Env, mem0: Agent.Memory, k: nat)
    requires k < 8 && e.maxTurns >= 7 && !Text.ContainsIgnoreCase(e.goal, "done")
    ensures Stage(e, mem0, k).queue != [] && NextWorld(e, Stage(e, mem0, k), StageMsg(e, k)) == Stage(e, mem0, k + 1)
  {
    if k == 0 {
      PlannerReadyStep(e, mem0);
    } else if k == 1 {
      WorkerReadyStep(e, mem0);
    } else if k == 2 {
      CriticReadyStep(e, mem0);
    } else if k == 3 {
      StartStep(e, mem0);
    } else if k == 4 {
      PlanStep(e, mem0);
    } else if k == 5 {
      WorkStep(e, mem0);
    } else if k == 6 {
      CritiqueStep(e, mem0);
    } else {
      DoneStep(e, mem0);
    }
  }

  /** The three handshake deliveries move the run through its first stages whatever the goal. */
  lemma HandshakeDelivered(e: Env, mem0: Agent.Memory, k: nat)
    requires k < 3 && e.maxTurns >= 3
    ensures Stage(e, mem0, k).queue != [] && Deliver(e, Stage(e, mem0, k)) == Stage(e, mem0, k + 1)
  {
    StageEnvelope(e, mem0, k);
    DeliverEnvelope(e, Stage(e, mem0, k), StageMsg(e, k));
    HandshakeStep(e, mem0, k);
  }

  /** Each delivery of a run whose goal does not say done moves it to the next stage. */
  lemma StageDelivered(e: Env, mem0: Agent.Memory, k: nat)
    requires k < 8 && e.maxTurns >= 7 && !Text.ContainsIgnoreCase(e.goal, "done")
    ensures Stage(e, mem0, k).queue != [] && Deliver(e, Stage(e, mem0, k)) == Stage(e, mem0, k + 1)
  {
    StageEnvelope(e, mem0, k);
    DeliverEnvelope(e, Stage(e, mem0, k), StageMsg(e, k));
    StageStep(e, mem0, k);
  }

  /** A chain of deliveries is what the run computes. */
  lemma {:induction false} RunChain(e: Env, ws: seq<World>)
    requires |ws| >= 1
    requires forall i | 0 <= i < |ws| - 1 :: ws[i].queue != [] && Deliver(e, ws[i]) == ws[i + 1]
    ensures RunWorld(e, ws[0], |ws| - 1) == ws[|ws| - 1]
    decreases |ws|
  {
    if |ws| > 1 {
      assert Deliver(e, ws[0]) == ws[1];
      assert forall i | 0 <= i < |ws| - 1 :: ws[1..][i] == ws[i + 1];
      RunChain(e, ws[1..]);
    }
  }

  function Stages(e: Env, mem0: Agent.Memory, n: nat): (r: seq<World>)
    requires n <= 9
    ensures |r| == n && forall i | 0 <= i < n :: r[i] == Stage(e, mem0, i)
  {
    seq(n, i requires 0 <= i < n => Stage(e, mem0, i))
  }

  function StageMsgs(e: Env, n: nat): (r: seq<Core.Msg>)
    requires n <= 8
    ensures |r| == n && forall i | 0 <= i < n :: r[i] == StageMsg(e, i)
  {
    seq(n, i requires 0 <= i < n => StageMsg(e, i))
  }

  // ---------------------------------------------------------------- end to end

  /** A run whose goal does not say done reaches the last stage in eight deliveries. */
  lemma RunReachesLastStage(e: Env, mem0: Agent.Memory)
    requires e.maxTurns >= 7 && !Text.ContainsIgnoreCase(e.goal, "done")
    ensures RunWorld(e, Boot(e, mem0), 8) == Stage(e, mem0, 8)
  {
    var ws := Stages(e, mem0, 9);
    forall i | 0 <= i < 8 ensures ws[i].queue != [] && Deliver(e, ws[i]) == ws[i + 1] {
      StageDelivered(e, mem0, i);
    }
    RunChain(e, ws);
  }

  lemma LastStage(e: Env, mem0: Agent.Memory)
    ensures Stage(e, mem0, 8).coord.exit == Some(Coordinator.Finished(e.taskId, Critic.Name, Critic.DoneText))
    ensures Stage(e, mem0, 8).coord.turns == 7 && Stage(e, mem0, 8).queue == []
    ensures Agent.MemGet(Stage(e, mem0, 8).mem, e.taskId, "plan") == Planner.PlanValue
    ensures Agent.MemGet(Stage(e, mem0, 8).mem, e.taskId, "artifact") == JStr(ArtifactOf(e))
  {
  }

  /**
   * With a turn budget of at least seven, a run whose goal does not say done
   * ends after eight deliveries: the plan and the artifact are stored, nothing
   * is pending, and the coordinator has exited on the Critic's done message
   * for its task after seven counted turns.
   */
  lemma RunFinishes(e: Env, mem0: Agent.Memory)
    requires e.maxTurns >= 7 && !Text.ContainsIgnoreCase(e.goal, "done")
    ensures RunWorld(e, Boot(e, mem0), 8).coord.exit == Some(Coordinator.Finished(e.taskId, Critic.Name, Critic.DoneText))
    ensures RunWorld(e, Boot(e, mem0), 8).coord.turns == 7 && RunWorld(e, Boot(e, mem0), 8).queue == []
    ensures Agent.MemGet(RunWorld(e, Boot(e, mem0), 8).mem, e.taskId, "plan") == Planner.PlanValue
    ensures Agent.MemGet(RunWorld(e, Boot(e, mem0), 8).mem, e.taskId, "artifact") == JStr(ArtifactOf(e))
  {
    RunReachesLastStage(e, mem0);
    LastStage(e, mem0);
  }

  /** The coordinator exits on its own start envelope when the goal says done. */
  lemma StartEchoDelivered(e: Env, mem0: Agent.Memory)
    requires e.maxTurns >= 3 && Text.ContainsIgnoreCase(e.goal, "done")
    ensures Stage(e, mem0, 3).queue != []
    ensures Deliver(e, Stage(e, mem0, 3)).coord.exit
            == Some(Coordinator.Finished(e.taskId, "Coordinator", "start: " + e.goal))
  {
    StageEnvelope(e, mem0, 3);
    DeliverEnvelope(e, Stage(e, mem0, 3), StageMsg(e, 3));
    Coordinator.StartEchoFinishes(Stage(e, mem0, 3).coord, e.taskId, e.goal, StartStamp(e), e.maxTurns);
  }

  /** Three deliveries, each to the next world, followed by a fourth. */
  lemma FourDeliveries(e: Env, w0: World, w1: World, w2: World, w3: World)
    requires w0.queue != [] && Deliver(e, w0) == w1
    requires w1.queue != [] && Deliver(e, w1) == w2
    requires w2.queue != [] && Deliver(e, w2) == w3
    requires w3.queue != []
    ensures RunWorld(e, w0, 4) == Deliver(e, w3)
  {
    assert RunWorld(e, w3, 1) == RunWorld(e, Deliver(e, w3), 0);
    assert RunWorld(e, w2, 2) == RunWorld(e, w3, 1);
    assert RunWorld(e, w1, 3) == RunWorld(e, w2, 2);
    assert RunWorld(e, w0, 4) == RunWorld(e, w1, 3);
  }

  /** When the goal itself says done, the coordinator exits on its own start envelope, the fourth delivery. */
  lemma RunFinishesOnStart(e: Env, mem0: Agent.Memory)
    requires e.maxTurns >= 3 && Text.ContainsIgnoreCase(e.goal, "done")
    ensures RunWorld(e, Boot(e, mem0), 4).coord.exit
            == Some(Coordinator.Finished(e.taskId, "Coordinator", "start: " + e.goal))
  {
    HandshakeDelivered(e, mem0, 0);
    HandshakeDelivered(e, mem0, 1);
    HandshakeDelivered(e, mem0, 2);
    StartEchoDelivered(e, mem0);
    assert Stage(e, mem0, 0) == Boot(e, mem0);
    FourDeliveries(e, Stage(e, mem0, 0), Stage(e, mem0, 1), Stage(e, mem0, 2), Stage(e, mem0, 3));
  }

  /** The timer publishes the start at most once, and not after the handshakes already did. */
  lemma TimerStartsOnce(e: Env, w: World, st1: Core.Stamp, st2: Core.Stamp)
    ensures Fire(e, Fire(e, w, st1), st2).queue == Fire(e, w, st1).queue
    ensures w.coord.started ==> Fire(e, w, st1).queue == w.queue
    ensures w.coord.exit.None? ==> Fire(e, w, st1).coord.started
  {
  }
}
