/**
 * packages/runtime/src/index.ts: the coordinator. It resolves the goal,
 * listens on the bus, collects ready handshakes from the three agents, kicks
 * the run off once (when all are ready, or when the fallback timer fires), and
 * exits on the first control message that mentions "done" or once the turn
 * budget is spent. process.exit becomes the exit field; the timer is the
 * OnTimer event; uuids and timestamps are supplied stamps.
 */
module Coordinator {

  import opened Wrappers
  import opened Json
  import Text
  import Core
  import RuntimeSchema
  import RuntimeBus

  // ---------------------------------------------------------------- goal

  /** findIndex(a => a === x), or -1. */
  function FindIndex(args: seq<string>, x: string): (r: int)
    ensures r == -1 <==> x !in args
    ensures r != -1 ==> 0 <= r < |args| && args[r] == x && x !in args[..r]
    decreases |args|
  {
    if args == [] then -1
    else if args[0] == x then 0
    else
      var r := FindIndex(args[1..], x);
      assert forall k | 0 <= k < |args| - 1 :: args[1..][k] == args[k + 1];
      if r == -1 then -1
      else
        assert args[..r + 1] == [args[0]] + args[1..][..r];
        r + 1
  }

  /** The words after the first "--goal", joined by spaces; "" when there is no such flag. */
  function GoalArg(argv: seq<string>): string {
    var i := FindIndex(argv, "--goal");
    if i >= 0 then Text.Join(argv[i + 1..], " ") else ""
  }

  /** The goal: the --goal words, else ORION_GOAL when non-empty, else "Hello Orion". */
  function ResolveGoal(argv: seq<string>, env: Option<string>): (r: string)
    ensures GoalArg(argv) != "" ==> r == GoalArg(argv)
    ensures GoalArg(argv) == "" && env.Some? && env.value != "" ==> r == env.value
    ensures GoalArg(argv) == "" && (env.None? || env.value == "") ==> r == "Hello Orion"
    ensures r != ""
  {
    if GoalArg(argv) != "" then GoalArg(argv)
    else if env.Some? && env.value != "" then env.value
    else "Hello Orion"
  }

  /** Without a --goal flag the command line plays no part. */
  lemma NoFlagUsesEnv(argv: seq<string>, env: Option<string>)
    requires "--goal" !in argv
    ensures ResolveGoal(argv, env) == ResolveGoal([], env)
  {
  }

  /** "--goal" with words after it takes those words. */
  lemma FlagWords(before: seq<string>, words: seq<string>, env: Option<string>)
    requires "--goal" !in before && words != [] && words[0] != ""
    ensures ResolveGoal(before + ["--goal"] + words, env) == Text.Join(words, " ")
  {
    var argv := before + ["--goal"] + words;
    assert argv[..|before|] == before;
    assert argv[|before|] == "--goal";
    assert FindIndex(argv, "--goal") == |before| by {
      assert "--goal" in argv;
      assert argv[..|before|] == before;
    }
    assert argv[|before| + 1..] == words;
    if |words| > 1 {
      assert Text.Join(words, " ") == words[0] + " " + Text.Join(words[1..], " ");
    }
  }

  // ---------------------------------------------------------------- msg()

  /** partial.from || "Coordinator" */
  function FromOr(f: Option<string>): string {
    if f.Some? && f.value != "" then f.value else "Coordinator"
  }

  /** msg(partial), as the object it serialises to; to, data and meta are passed through. */
  function MsgOf(p: Core.Partial, st: Core.Stamp): Json {
    Core.BuildMsg(p.(from := Some(FromOr(p.from))), st)
  }

  /** from defaults to "Coordinator" and content to "", and a typed partial with a taskId validates. */
  lemma MsgOfDefaults(p: Core.Partial, st: Core.Stamp)
    ensures MsgOf(p, st).fields["from"] == JStr(FromOr(p.from))
    ensures p.from.None? ==> MsgOf(p, st).fields["from"] == JStr("Coordinator")
    ensures MsgOf(p, st).fields["content"] == JStr(p.content.GetOr(""))
    ensures Core.Validate(MsgOf(p, st)).Success? <==> p.taskId.Some? && p.msgType.Some?
  {
    Core.BuildMsgContent(p.(from := Some(FromOr(p.from))), st);
    Core.BuildMsgValidates(p.(from := Some(FromOr(p.from))), st);
  }

  /** The start envelope kick publishes. */
  function StartEnvelope(taskId: string, goal: string, st: Core.Stamp): Json {
    MsgOf(Core.Partial(Some(taskId), Some("Coordinator"), None, Some(Core.Control), Some("start: " + goal), None, None), st)
  }

  /** The typed start message: the run's taskId, from Coordinator, type control, content "start: " + goal. */
  function StartMsg(taskId: string, goal: string, st: Core.Stamp): Core.Msg {
    Core.Msg(st.id, taskId, st.ts, "Coordinator", None, Core.Control, "start: " + goal, None, None)
  }

  /** Both the agents' schema and the coordinator's accept the start envelope as that message. */
  lemma StartEnvelopeValidates(taskId: string, goal: string, st: Core.Stamp)
    ensures Core.Validate(StartEnvelope(taskId, goal, st)) == Success(StartMsg(taskId, goal, st))
    ensures RuntimeSchema.Validate(StartEnvelope(taskId, goal, st))
            == Success(RuntimeSchema.FromCore(StartMsg(taskId, goal, st), None))
  {
    var p := Core.Partial(Some(taskId), Some("Coordinator"), None, Some(Core.Control), Some("start: " + goal), None, None);
    Core.BuildMsgValidates(p, st);
    assert "meta" !in StartEnvelope(taskId, goal, st).fields;
    RuntimeSchema.CoreWithoutMetaAccepted(StartEnvelope(taskId, goal, st));
  }

  // ---------------------------------------------------------------- the state machine

  const Required: set<string> := {"Planner", "Worker", "Critic"}

  /** Why the coordinator process exited. */
  datatype Exit = Finished(taskId: string, from: string, content: string) | MaxTurnsReached(limit: nat)

  datatype State = State(ready: set<string>, started: bool, turns: nat, exit: Option<Exit>)

  const Initial: State := State({}, false, 0, None)

  /** kick's effect on the state; it publishes exactly when started was false. */
  function Kick(s: State): State {
    s.(started := true)
  }

  /** A ready handshake from one of the required agents. */
  predicate IsReady(m: RuntimeSchema.Msg) {
    m.msgType == Core.Status && m.content == "ready" && m.from in Required
  }

  /** The completion test /done/i on a control message. */
  predicate IsDone(m: RuntimeSchema.Msg) {
    m.msgType == Core.Control && Text.ContainsIgnoreCase(m.content, "done")
  }

  /** Does one message make the handler call kick? */
  predicate KicksOn(s: State, m: RuntimeSchema.Msg) {
    s.exit.None? && IsReady(m) && |s.ready + {m.from}| == |Required|
  }

  /** Does one message publish the start envelope? */
  predicate StartsOn(s: State, m: RuntimeSchema.Msg) {
    KicksOn(s, m) && !s.started
  }

  /** The readiness step of the handler. */
  function AfterReady(s: State, m: RuntimeSchema.Msg): State {
    if IsReady(m) then
      var s1 := s.(ready := s.ready + {m.from});
      if |s1.ready| == |Required| then Kick(s1) else s1
    else s
  }

  /** The whole handler: readiness, then the done check, then the turn check. After an exit nothing happens. */
  function OnMessage(s: State, m: RuntimeSchema.Msg, maxTurns: nat): State {
    if s.exit.Some? then s
    else
      var s1 := AfterReady(s, m);
      if IsDone(m) then s1.(exit := Some(Finished(m.taskId, m.from, m.content)))
      else if s1.turns + 1 > maxTurns then s1.(turns := s1.turns + 1, exit := Some(MaxTurnsReached(maxTurns)))
      else s1.(turns := s1.turns + 1)
  }

  /** The 2 s fallback timer: kick, unless the process has already exited. */
  function OnTimer(s: State): State {
    if s.exit.Some? then s else Kick(s)
  }

  predicate Inv(s: State) {
    s.ready <= Required
  }

  /** A subset of the required set that has as many names is the whole set. */
  lemma FullSubsetIsAll(r: set<string>)
    requires r <= Required && |r| == |Required|
    ensures r == Required
  {
    if r != Required {
      var x :| x in Required && x !in r;
      assert r <= Required - {x};
      assert |Required - {x}| == |Required| - 1;
      CardMono(r, Required - {x});
      assert false;
    }
  }

  lemma CardMono(a: set<string>, b: set<string>)
    requires a <= b
    ensures |a| <= |b|
  {
    if a != {} {
      var x :| x in a;
      CardMono(a - {x}, b - {x});
    }
  }

  /**
   * A name enters ready only from a ready handshake of a required agent, so
   * ready stays within the required set and only grows; started is a latch.
   */
  lemma OnMessageKeepsReady(s: State, m: RuntimeSchema.Msg, maxTurns: nat)
    requires Inv(s)
    ensures Inv(OnMessage(s, m, maxTurns))
    ensures s.ready <= OnMessage(s, m, maxTurns).ready
    ensures s.started ==> OnMessage(s, m, maxTurns).started
    ensures OnMessage(s, m, maxTurns).ready != s.ready ==>
              s.exit.None? && IsReady(m) && m.from !in s.ready && OnMessage(s, m, maxTurns).ready == s.ready + {m.from}
  {
  }

  /** Once every required agent is ready, the handler has kicked: the run is started. */
  lemma AllReadyStarts(s: State, m: RuntimeSchema.Msg, maxTurns: nat)
    requires Inv(s) && s.exit.None? && IsReady(m) && s.ready + {m.from} == Required
    ensures KicksOn(s, m) && OnMessage(s, m, maxTurns).started
  {
  }

  /** kick is called exactly when the message completes the ready set (or it was already complete). */
  lemma KickIffComplete(s: State, m: RuntimeSchema.Msg)
    requires Inv(s)
    ensures KicksOn(s, m) <==> s.exit.None? && IsReady(m) && s.ready + {m.from} == Required
  {
    if KicksOn(s, m) {
      FullSubsetIsAll(s.ready + {m.from});
    }
  }

  /** A later kick is a no-op: the start envelope is published at most once. */
  lemma KickOnce(s: State)
    ensures Kick(Kick(s)) == Kick(s) && Kick(s).started
    ensures OnTimer(OnTimer(s)) == OnTimer(s)
  {
  }

  /** A done control message exits with success, and before the turn counter moves. */
  lemma DoneExitsFirst(s: State, m: RuntimeSchema.Msg, maxTurns: nat)
    requires s.exit.None? && IsDone(m)
    ensures OnMessage(s, m, maxTurns).exit == Some(Finished(m.taskId, m.from, m.content))
    ensures OnMessage(s, m, maxTurns).turns == s.turns
  {
  }

  /** Any other message moves the counter, and halts exactly when it passes the budget. */
  lemma TurnCounted(s: State, m: RuntimeSchema.Msg, maxTurns: nat)
    requires s.exit.None? && !IsDone(m)
    ensures OnMessage(s, m, maxTurns).turns == s.turns + 1
    ensures OnMessage(s, m, maxTurns).exit.Some? <==> s.turns + 1 > maxTurns
    ensures OnMessage(s, m, maxTurns).exit.Some? ==> OnMessage(s, m, maxTurns).exit == Some(MaxTurnsReached(maxTurns))
  {
  }

  /** Readiness is handled before the done check: a control message is never a ready handshake. */
  lemma DoneIsNotReady(m: RuntimeSchema.Msg)
    requires IsDone(m)
    ensures !IsReady(m)
  {
  }

  /** The handler over a sequence of messages. */
  function Run(s: State, ms: seq<RuntimeSchema.Msg>, maxTurns: nat): State
    decreases |ms|
  {
    if ms == [] then s else Run(OnMessage(s, ms[0], maxTurns), ms[1..], maxTurns)
  }

  /**
   * Without a done message, a fresh coordinator is still running after
   * maxTurns messages and halts with the turn limit on message maxTurns + 1.
   */
  lemma {:induction false} HaltsOnMessageAfterBudget(s: State, ms: seq<RuntimeSchema.Msg>, maxTurns: nat)
    requires s.exit.None? && s.turns <= maxTurns && s.turns + |ms| <= maxTurns + 1
    requires forall i | 0 <= i < |ms| :: !IsDone(ms[i])
    ensures Run(s, ms, maxTurns).turns == s.turns + |ms|
    ensures Run(s, ms, maxTurns).exit.None? <==> s.turns + |ms| <= maxTurns
    ensures s.turns + |ms| == maxTurns + 1 ==> Run(s, ms, maxTurns).exit == Some(MaxTurnsReached(maxTurns))
    decreases |ms|
  {
    if ms != [] {
      var s1 := OnMessage(s, ms[0], maxTurns);
      TurnCounted(s, ms[0], maxTurns);
      assert Run(s, ms, maxTurns) == Run(s1, ms[1..], maxTurns);
      if s1.exit.Some? {
        assert |ms| == 1;
        assert ms[1..] == [];
      } else {
        assert forall i | 0 <= i < |ms| - 1 :: ms[1..][i] == ms[i + 1];
        HaltsOnMessageAfterBudget(s1, ms[1..], maxTurns);
      }
    }
  }

  /** After an exit, nothing changes any more. */
  lemma {:induction false} ExitIsFinal(s: State, ms: seq<RuntimeSchema.Msg>, maxTurns: nat)
    requires s.exit.Some?
    ensures Run(s, ms, maxTurns) == s
    decreases |ms|
  {
    if ms != [] {
      assert OnMessage(s, ms[0], maxTurns) == s;
      ExitIsFinal(s, ms[1..], maxTurns);
    }
  }

  /** When the goal mentions done, the coordinator's own start envelope, echoed back, finishes the run. */
  lemma StartEchoFinishes(s: State, taskId: string, goal: string, st: Core.Stamp, maxTurns: nat)
    requires s.exit.None? && Text.ContainsIgnoreCase(goal, "done")
    ensures OnMessage(s, RuntimeSchema.FromCore(StartMsg(taskId, goal, st), None), maxTurns).exit
            == Some(Finished(taskId, "Coordinator", "start: " + goal))
  {
    Text.ContainsIgnoreCaseRight("start: ", goal, "done");
  }

  // ---------------------------------------------------------------- the process

  class Coordinator {
    const bus: RuntimeBus.Bus
    const taskId: string
    const goal: string
    const maxTurns: nat
    var ready: set<string>
    var started: bool
    var turns: nat
    var exit: Option<Exit>
    /** The stamp the start envelope was built with, once kick has published it. */
    var startStamp: Core.Stamp

    function Snapshot(): State
      reads this
    {
      State(ready, started, turns, exit)
    }

    /** ready within required, and the bus has carried the start envelope iff started. */
    predicate Valid()
      reads this, bus
    {
      && bus.Valid() && bus.subscribed && bus.listening
      && ready <= Required
      && bus.published == (if started then [Wire(Channel, StartEnvelope(taskId, goal, startStamp))] else [])
    }

    /** main(): a fresh bus initialised with the handler, an empty ready set, not started, no turns. */
    constructor(taskId: string, goal: string, maxTurns: nat)
      ensures Valid() && fresh(bus)
      ensures Snapshot() == Initial
      ensures this.taskId == taskId && this.goal == goal && this.maxTurns == maxTurns
      ensures bus.arrived == [] && bus.delivered == []
    {
      var b := new RuntimeBus.Bus();
      b.Init(true);
      bus := b;
      this.taskId := taskId;
      this.goal := goal;
      this.maxTurns := maxTurns;
      ready := {};
      started := false;
      turns := 0;
      exit := None;
      startStamp := Core.Stamp("", "");
    }

    /** kick: sets started before publishing, and publishes only the first time. */
    method DoKick(st: Core.Stamp)
      requires Valid()
      modifies this, bus
      ensures Valid() && Snapshot() == Kick(old(Snapshot()))
      ensures bus.published == old(bus.published)
                               + (if old(started) then [] else [Wire(Channel, StartEnvelope(taskId, goal, st))])
      ensures bus.arrived == old(bus.arrived) && bus.delivered == old(bus.delivered)
    {
      if started {
        return;
      }
      started := true;
      startStamp := st;
      bus.Publish(StartEnvelope(taskId, goal, st));
    }

    /** The bus handler for one delivered message; st stamps the start envelope if this call kicks. */
    method HandleMessage(m: RuntimeSchema.Msg, st: Core.Stamp)
      requires Valid()
      modifies this, bus
      ensures Valid() && Snapshot() == OnMessage(old(Snapshot()), m, maxTurns)
      ensures bus.published == old(bus.published)
                               + (if StartsOn(old(Snapshot()), m) then [Wire(Channel, StartEnvelope(taskId, goal, st))] else [])
      ensures bus.arrived == old(bus.arrived) && bus.delivered == old(bus.delivered)
    {
      if exit.Some? {
        return;
      }
      ghost var s0 := Snapshot();
      ghost var pub0 := bus.published;
      if m.msgType == Core.Status && m.content == "ready" && m.from in Required {
        ready := ready + {m.from};
        if |ready| == |Required| {
          DoKick(st);
        }
      }
      assert Snapshot() == AfterReady(s0, m);
      assert bus.published == pub0 + (if StartsOn(s0, m) then [Wire(Channel, StartEnvelope(taskId, goal, st))] else []);
      if m.msgType == Core.Control && Text.ContainsIgnoreCase(m.content, "done") {
        exit := Some(Finished(m.taskId, m.from, m.content));
        return;
      }
      turns := turns + 1;
      if turns > maxTurns {
        exit := Some(MaxTurnsReached(maxTurns));
      }
    }

    /** The fallback timer; a no-op once the process has exited. */
    method FireTimer(st: Core.Stamp)
      requires Valid()
      modifies this, bus
      ensures Valid() && Snapshot() == OnTimer(old(Snapshot()))
      ensures bus.published == old(bus.published)
                               + (if old(exit).None? && !old(started) then [Wire(Channel, StartEnvelope(taskId, goal, st))] else [])
      ensures bus.arrived == old(bus.arrived) && bus.delivered == old(bus.delivered)
    {
      if exit.None? {
        DoKick(st);
      }
    }

    /** One payload on the channel: the bus validates it and, if valid, runs the handler. */
    method Arrive(p: Payload, st: Core.Stamp)
      requires Valid()
      modifies this, bus
      ensures Valid()
      ensures bus.arrived == old(bus.arrived) + [p]
      ensures RuntimeBus.Decode(p).None? ==> Snapshot() == old(Snapshot()) && bus.published == old(bus.published)
      ensures RuntimeBus.Decode(p).Some? ==>
                Snapshot() == OnMessage(old(Snapshot()), RuntimeBus.Decode(p).value, maxTurns)
      ensures RuntimeBus.Decode(p).Some? ==>
                bus.published == old(bus.published)
                                 + (if StartsOn(old(Snapshot()), RuntimeBus.Decode(p).value)
                                    then [Wire(Channel, StartEnvelope(taskId, goal, st))] else [])
      ensures bus.delivered == old(bus.delivered) + RuntimeBus.Decode(p).ToSeq()
    {
      var m := bus.Receive(p, false);
      if m.Some? {
        HandleMessage(m.value, st);
      }
    }
  }
}
