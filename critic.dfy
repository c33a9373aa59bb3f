/**
 * packages/agents/critic/src/index.ts: the Critic, with its own subscriber
 * loop on "orion:bus". On a work envelope it reviews the task's stored
 * artifact (or the envelope's content when none is stored), publishes the
 * review as a critique envelope and, when the review says control:done, a
 * control envelope declaring the run done. String() of a stored value that is
 * not a string is a parameter.
 */
module Critic {

  import opened Wrappers
  import opened Json
  import Core
  import Text
  import Logger
  import Agent

  const Name: string := "Critic"

  /** The marker both mocked reviews end with. */
  const DoneMark: string := "control:done"
  const AcceptableScore: string := "Score: 8/10. Acceptable. " + DoneMark
  const SolidScore: string := "Score: 9/10. " + DoneMark
  const DoneText: string := "done: artifact meets acceptance"

  /** mockLLMCritic: a lower score when the artifact mentions a stub (/stub/i); both end with control:done. */
  function MockCritic(artifact: string): string {
    if Text.ContainsIgnoreCase(artifact, "stub") then AcceptableScore else SolidScore
  }

  /** latest ?? m.content, as the text the regular expression reads. */
  function ReviewInput(toText: Json -> string, latest: Json, content: string): string {
    match latest
    case JNull => content
    case JStr(s) => s
    case _ => toText(latest)
  }

  function Review(toText: Json -> string, mem: Agent.Memory, m: Core.Msg): string {
    MockCritic(ReviewInput(toText, Agent.MemGet(mem, m.taskId, "artifact"), m.content))
  }

  function CritiqueEnvelope(taskId: string, review: string, st: Core.Stamp): Json {
    Core.BuildMsg(Core.Partial(Some(taskId), Some(Name), None, Some(Core.Critique), Some(review), None, None), st)
  }

  function DoneEnvelope(taskId: string, st: Core.Stamp): Json {
    Core.BuildMsg(Core.Partial(Some(taskId), Some(Name), None, Some(Core.Control), Some(DoneText), None, None), st)
  }

  /** The body of the subscriber after validation: only work envelopes are acted on. */
  function OnMessage(toText: Json -> string, m: Core.Msg, mem: Agent.Memory, st: Agent.Stamps): Agent.Reaction {
    if m.msgType != Core.Work then Agent.Reaction([], false)
    else
      var review := Review(toText, mem, m);
      var critique := Agent.Publish(CritiqueEnvelope(m.taskId, review, st(0)));
      if Text.ContainsIgnoreCase(review, "control:done") then
        Agent.Reaction([critique, Agent.Publish(DoneEnvelope(m.taskId, st(1)))], false)
      else Agent.Reaction([critique], false)
  }

  /** The subscriber as a registration without a filter or config. */
  function Subscriber(toText: Json -> string): Agent.Registration<()> {
    Agent.Registration(Name, (), None, (m, ctx, mem, st) => OnMessage(toText, m, mem, st))
  }

  /** The console stream the Critic's own loop writes an outcome to. */
  function ReportFor(o: Agent.Outcome): Option<Logger.Stream> {
    if o.ParseError? || o.Invalid? || o.HandlerFailed? then Some(Logger.ConsoleError) else None
  }

  /**
   * main(): subscribe, publish the ready handshake, then handle every payload
   * to completion inside the try/catch. Nothing is filtered out.
   */
  method Start(toText: Json -> string, mem0: Agent.Memory, ps: seq<Payload>, stamps: nat -> Agent.Stamps, boot: Core.Stamp)
    returns (outcomes: seq<Agent.Outcome>, mem: Agent.Memory, wires: seq<Wire>)
    ensures |outcomes| == |ps| && |wires| >= 1
    ensures wires[0] == Wire(Channel, Agent.Handshake(Name, boot))
    ensures outcomes == Agent.RunSpec(Subscriber(toText), mem0, ps, stamps).outcomes
    ensures mem == Agent.RunSpec(Subscriber(toText), mem0, ps, stamps).memory
    ensures wires == [wires[0]] + Agent.RunSpec(Subscriber(toText), mem0, ps, stamps).published
    ensures forall i | 0 <= i < |ps| :: outcomes[i] != Agent.Filtered
  {
    outcomes, mem, wires := Agent.Start(Subscriber(toText), mem0, ps, stamps, boot);
    forall i | 0 <= i < |ps| ensures outcomes[i] != Agent.Filtered {
      Agent.RunOutcomes(Subscriber(toText), mem0, ps, stamps, i);
    }
  }

  // ---------------------------------------------------------------- properties

  lemma CritiqueEnvelopeValidates(taskId: string, review: string, st: Core.Stamp)
    ensures Core.Validate(CritiqueEnvelope(taskId, review, st))
            == Success(Core.Msg(st.id, taskId, st.ts, Name, None, Core.Critique, review, None, None))
  {
    Core.BuildMsgValidates(Core.Partial(Some(taskId), Some(Name), None, Some(Core.Critique), Some(review), None, None), st);
  }

  lemma DoneEnvelopeValidates(taskId: string, st: Core.Stamp)
    ensures Core.Validate(DoneEnvelope(taskId, st))
            == Success(Core.Msg(st.id, taskId, st.ts, Name, None, Core.Control, DoneText, None, None))
  {
    Core.BuildMsgValidates(Core.Partial(Some(taskId), Some(Name), None, Some(Core.Control), Some(DoneText), None, None), st);
  }

  /** Both scores say control:done, so every review does; the score is lower exactly when a stub is mentioned. */
  lemma ReviewAlwaysDone(artifact: string)
    ensures Text.ContainsIgnoreCase(MockCritic(artifact), "control:done")
    ensures MockCritic(artifact) == AcceptableScore <==> Text.ContainsIgnoreCase(artifact, "stub")
  {
    assert DoneMark[0..|DoneMark|] == DoneMark;
    Text.ContainsAt(DoneMark, DoneMark, 0);
    Text.ContainsThenIgnoreCase(DoneMark, DoneMark);
    Text.ContainsIgnoreCaseRight("Score: 8/10. Acceptable. ", DoneMark, DoneMark);
    Text.ContainsIgnoreCaseRight("Score: 9/10. ", DoneMark, DoneMark);
    assert AcceptableScore != SolidScore by { assert AcceptableScore[7] != SolidScore[7]; }
  }

  /** The done text passes the coordinator's /done/i test. */
  lemma DoneTextSaysDone()
    ensures Text.ContainsIgnoreCase(DoneText, "done")
  {
    assert DoneText[..4] == "done";
    Text.ContainsAt(DoneText, "done", 0);
    Text.ContainsThenIgnoreCase(DoneText, "done");
  }

  /** The stored artifact is what gets reviewed; the envelope content only when nothing is stored. */
  lemma ReviewsStoredArtifact(toText: Json -> string, mem: Agent.Memory, m: Core.Msg, s: string)
    ensures (m.taskId, "artifact") in mem && mem[(m.taskId, "artifact")] == JStr(s) ==> Review(toText, mem, m) == MockCritic(s)
    ensures (m.taskId, "artifact") !in mem ==> Review(toText, mem, m) == MockCritic(m.content)
  {
  }

  /** The loop has no filter: every valid envelope reaches the handler body. */
  lemma EveryValidEnvelopeAdmitted(toText: Json -> string, p: Payload)
    ensures Agent.Admit(Subscriber(toText), p).Admitted? <==> p.Parsed? && Core.Validate(p.value).Success?
  {
  }

  /** Anything but a work envelope has no effect. */
  lemma IgnoresNonWork(toText: Json -> string, m: Core.Msg, mem: Agent.Memory, st: Agent.Stamps)
    requires m.msgType != Core.Work
    ensures OnMessage(toText, m, mem, st) == Agent.Reaction([], false)
    ensures Agent.Published(OnMessage(toText, m, mem, st).effects) == []
  {
  }

  /**
   * A work envelope makes the Critic publish two envelopes for the same task,
   * in order: the review as a critique, then the done control message. It
   * writes no memory.
   */
  lemma WorkYieldsCritiqueThenDone(toText: Json -> string, m: Core.Msg, mem: Agent.Memory, st: Agent.Stamps)
    requires m.msgType == Core.Work
    ensures var review := Review(toText, mem, m);
            && !OnMessage(toText, m, mem, st).threw
            && Agent.ApplyEffects(mem, OnMessage(toText, m, mem, st).effects) == mem
            && Agent.Published(OnMessage(toText, m, mem, st).effects)
               == [Wire(Channel, CritiqueEnvelope(m.taskId, review, st(0))), Wire(Channel, DoneEnvelope(m.taskId, st(1)))]
            && Core.Validate(CritiqueEnvelope(m.taskId, review, st(0)))
               == Success(Core.Msg(st(0).id, m.taskId, st(0).ts, Name, None, Core.Critique, review, None, None))
            && Core.Validate(DoneEnvelope(m.taskId, st(1)))
               == Success(Core.Msg(st(1).id, m.taskId, st(1).ts, Name, None, Core.Control, DoneText, None, None))
  {
    var review := Review(toText, mem, m);
    ReviewAlwaysDone(ReviewInput(toText, Agent.MemGet(mem, m.taskId, "artifact"), m.content));
    var c, d := CritiqueEnvelope(m.taskId, review, st(0)), DoneEnvelope(m.taskId, st(1));
    assert OnMessage(toText, m, mem, st) == Agent.Reaction([Agent.Publish(c), Agent.Publish(d)], false);
    Agent.PublishesTwo(mem, c, d);
    CritiqueEnvelopeValidates(m.taskId, review, st(0));
    DoneEnvelopeValidates(m.taskId, st(1));
  }

  /** Every failure the loop catches or detects goes to console.error. */
  lemma FailuresOnError(o: Agent.Outcome)
    ensures ReportFor(o) == Some(Logger.ConsoleError) <==> o.ParseError? || o.Invalid? || o.HandlerFailed?
    ensures ReportFor(o).None? <==> o.Filtered? || o.Handled?
  {
  }
}
