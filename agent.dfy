/**
 * packages/agent-kit/src/agent.ts: defineAgent. The registration fixes a
 * name, a config, an optional filter and a handler; starting the agent
 * subscribes to "orion:bus", publishes the ready handshake, and then runs
 * every arriving payload through JSON parsing, MsgSchema, the filter and the
 * handler, inside one try/catch. A handler is modelled as the effects it has
 * before it returns or throws: memory writes and publications, in order.
 */
module Agent {

  import opened Wrappers
  import opened Json
  import Core
  import Logger

  /** The shared task memory: (taskId, field) to the stored JSON value. */
  type Memory = map<(string, string), Json>

  /** The ids and timestamps a handler's builders draw, by call number. */
  type Stamps = nat -> Core.Stamp

  datatype Effect = MemSet(taskId: string, field: string, value: Json) | Publish(msg: Json)

  /** What one handler invocation did before it returned (threw false) or threw. */
  datatype Reaction = Reaction(effects: seq<Effect>, threw: bool)

  /** AgentContext without the logger: the name and the config the handler sees. */
  datatype Context<C> = Context(name: string, config: C)

  datatype Registration<!C> = Registration(
    name: string,
    config: C,
    filter: Option<Core.Msg -> bool>,
    onMessage: (Core.Msg, Context<C>, Memory, Stamps) -> Reaction)

  /** memGet: the stored value, or null when the field was never written. */
  function MemGet(mem: Memory, taskId: string, field: string): Json {
    if (taskId, field) in mem then mem[(taskId, field)] else JNull
  }

  /** The memory after the writes among the effects, in order. */
  function ApplyEffects(mem: Memory, effects: seq<Effect>): (r: Memory)
    ensures forall e | e in effects && e.MemSet? :: (e.taskId, e.field) in r
    ensures (forall e | e in effects :: e.Publish?) ==> r == mem
    ensures forall key | key in mem :: key in r
    decreases |effects|
  {
    if effects == [] then mem
    else
      var e0, rest := effects[0], effects[1..];
      var mem1 := if e0.MemSet? then mem[(e0.taskId, e0.field) := e0.value] else mem;
      var r := ApplyEffects(mem1, rest);
      assert forall e | e in rest :: e in effects;
      assert forall e | e in effects :: e == e0 || e in rest;
      assert forall key | key in mem :: key in mem1;
      assert e0.MemSet? ==> (e0.taskId, e0.field) in mem1;
      assert e0 in effects;
      assert (forall e | e in effects :: e.Publish?) ==> mem1 == mem && forall e | e in rest :: e.Publish?;
      r
  }

  /** ctx.publish: the serialised envelopes on the bus channel, in order. */
  function Published(effects: seq<Effect>): (r: seq<Wire>)
    ensures |r| <= |effects|
    ensures forall w | w in r :: w.channel == Channel
    ensures forall j :: Wire(Channel, j) in r <==> Publish(j) in effects
    decreases |effects|
  {
    if effects == [] then []
    else
      var rest := Published(effects[1..]);
      assert forall e :: e in effects <==> e == effects[0] || e in effects[1..];
      (if effects[0].Publish? then [Wire(Channel, effects[0].msg)] else []) + rest
  }

  /** The value of the last write to a key among the effects, if any. */
  function LastWrite(effects: seq<Effect>, key: (string, string)): Option<Json>
    decreases |effects|
  {
    if effects == [] then None
    else
      var e := effects[|effects| - 1];
      if e.MemSet? && (e.taskId, e.field) == key then Some(e.value) else LastWrite(effects[..|effects| - 1], key)
  }

  /** Applying one more effect after the others. */
  lemma {:induction false} ApplyEffectsSnoc(mem: Memory, effects: seq<Effect>, e: Effect)
    ensures ApplyEffects(mem, effects + [e])
            == if e.MemSet? then ApplyEffects(mem, effects)[(e.taskId, e.field) := e.value] else ApplyEffects(mem, effects)
    decreases |effects|
  {
    if effects != [] {
      var e0 := effects[0];
      var mem1 := if e0.MemSet? then mem[(e0.taskId, e0.field) := e0.value] else mem;
      assert (effects + [e])[0] == e0 && (effects + [e])[1..] == effects[1..] + [e];
      ApplyEffectsSnoc(mem1, effects[1..], e);
    } else {
      assert ([] + [e])[1..] == [];
    }
  }

  /**
   * memSet then memGet: a key holds the value of its last write, and a key no
   * effect writes keeps what it had (present or absent).
   */
  lemma {:induction false} ApplyEffectsGet(mem: Memory, effects: seq<Effect>, key: (string, string))
    ensures LastWrite(effects, key).Some? ==>
              key in ApplyEffects(mem, effects) && ApplyEffects(mem, effects)[key] == LastWrite(effects, key).value
    ensures LastWrite(effects, key).None? ==>
              (key in ApplyEffects(mem, effects) <==> key in mem)
              && (key in mem ==> ApplyEffects(mem, effects)[key] == mem[key])
    ensures MemGet(ApplyEffects(mem, effects), key.0, key.1)
            == if LastWrite(effects, key).Some? then LastWrite(effects, key).value else MemGet(mem, key.0, key.1)
    decreases |effects|
  {
    if effects != [] {
      var init, last := effects[..|effects| - 1], effects[|effects| - 1];
      assert effects == init + [last];
      ApplyEffectsGet(mem, init, key);
      ApplyEffectsSnoc(mem, init, last);
    }
  }

  /** Publications of consecutive effect lists go out in order, the first list's first. */
  lemma {:induction false} PublishedAppend(a: seq<Effect>, b: seq<Effect>)
    ensures Published(a + b) == Published(a) + Published(b)
    decreases |a|
  {
    if a == [] {
      assert [] + b == b;
    } else {
      assert (a + b)[0] == a[0] && (a + b)[1..] == a[1..] + b;
      PublishedAppend(a[1..], b);
    }
  }

  /** One effect: a publication sends its envelope, a write sends nothing. */
  lemma PublishedOne(e: Effect)
    ensures Published([e]) == if e.Publish? then [Wire(Channel, e.msg)] else []
  {
    assert [e][1..] == [];
  }

  /** Two publications write nothing and go out in order. */
  lemma PublishesTwo(mem: Memory, x: Json, y: Json)
    ensures ApplyEffects(mem, [Publish(x), Publish(y)]) == mem
    ensures Published([Publish(x), Publish(y)]) == [Wire(Channel, x), Wire(Channel, y)]
  {
    var es := [Publish(x), Publish(y)];
    assert es[1..] == [Publish(y)];
    assert es[1..][1..] == [];
  }

  /** A write followed by a publication. */
  lemma WritesThenPublishes(mem: Memory, taskId: string, field: string, v: Json, x: Json)
    ensures ApplyEffects(mem, [MemSet(taskId, field, v), Publish(x)]) == mem[(taskId, field) := v]
    ensures Published([MemSet(taskId, field, v), Publish(x)]) == [Wire(Channel, x)]
  {
    var es := [MemSet(taskId, field, v), Publish(x)];
    assert es[1..] == [Publish(x)];
    assert es[1..][1..] == [];
  }

  /** The ready handshake: taskId boot, from the agent's name, type status, content ready. */
  function Handshake(name: string, st: Core.Stamp): Json {
    Core.BuildMsg(Core.Partial(Some("boot"), Some(name), None, Some(Core.Status), Some("ready"), None, None), st)
  }

  /** Every agent receives the handshake as a valid status envelope from boot. */
  lemma HandshakeValidates(name: string, st: Core.Stamp)
    ensures Core.Validate(Handshake(name, st))
            == Success(Core.Msg(st.id, "boot", st.ts, name, None, Core.Status, "ready", None, None))
  {
    Core.BuildMsgValidates(Core.Partial(Some("boot"), Some(name), None, Some(Core.Status), Some("ready"), None, None), st);
  }

  // ---------------------------------------------------------------- one payload

  /** What the subscriber did with one payload. */
  datatype Outcome = ParseError | Invalid(issues: seq<Core.Issue>) | Filtered | Handled | HandlerFailed

  /** The log call the subscriber itself makes for an outcome. */
  function LogFor(o: Outcome): Option<Logger.Level> {
    match o
    case ParseError => Some(Logger.Error)
    case Invalid(_) => Some(Logger.Warn)
    case Filtered => None
    case Handled => None
    case HandlerFailed => Some(Logger.Error)
  }

  /**
   * At the default threshold (info) an invalid envelope is reported through
   * console.warn, a parse failure or a throwing handler through console.error,
   * and a filtered or handled message is not reported by the subscriber.
   */
  lemma OutcomeReports(o: Outcome)
    ensures LogFor(o).Some? <==> !o.Filtered? && !o.Handled?
    ensures LogFor(o).Some? ==> Logger.ShouldLog(Logger.ParseLogLevel(None), LogFor(o).value)
    ensures o.Invalid? ==> Logger.StreamFor(LogFor(o).value) == Logger.ConsoleWarn
    ensures o.ParseError? || o.HandlerFailed? ==> Logger.StreamFor(LogFor(o).value) == Logger.ConsoleError
  {
  }

  /** Why a payload does not reach the handler, or the validated message it reaches it with. */
  datatype Admission = Rejected(outcome: Outcome) | Admitted(msg: Core.Msg)

  /** Parse, validate, filter. */
  function Admit<C>(reg: Registration<C>, p: Payload): (r: Admission)
    ensures r.Rejected? ==> r.outcome.ParseError? || r.outcome.Invalid? || r.outcome.Filtered?
    ensures r.Rejected? && r.outcome.ParseError? <==> p.Malformed?
    ensures r.Rejected? && r.outcome.Invalid? <==> p.Parsed? && Core.Validate(p.value).Failure?
    ensures r.Rejected? && r.outcome.Invalid? ==> r.outcome.issues == Core.Validate(p.value).error
    ensures r.Admitted? ==> p.Parsed? && Core.Validate(p.value) == Success(r.msg)
    ensures r.Admitted? ==> reg.filter.None? || reg.filter.value(r.msg)
    ensures r.Rejected? && r.outcome.Filtered? <==>
              p.Parsed? && Core.Validate(p.value).Success? && reg.filter.Some?
              && !reg.filter.value(Core.Validate(p.value).value)
  {
    match p
    case Malformed => Rejected(ParseError)
    case Parsed(j) =>
      match Core.Validate(j)
      case Failure(issues) => Rejected(Invalid(issues))
      case Success(m) =>
        if reg.filter.Some? && !reg.filter.value(m) then Rejected(Filtered) else Admitted(m)
  }

  /** The admissions of a sequence of payloads. */
  function Admissions<C>(reg: Registration<C>, ps: seq<Payload>): (r: seq<Admission>)
    ensures |r| == |ps| && forall i | 0 <= i < |ps| :: r[i] == Admit(reg, ps[i])
  {
    seq(|ps|, i requires 0 <= i < |ps| => Admit(reg, ps[i]))
  }

  /** One handler call: the message and the context it was given. */
  datatype Call<C> = Call(msg: Core.Msg, ctx: Context<C>)

  datatype Step<C> = Step(outcome: Outcome, call: Option<Call<C>>, memory: Memory, published: seq<Wire>)

  /** The subscriber callback on one admitted-or-rejected payload, given the memory it finds. */
  function StepOf<C>(reg: Registration<C>, mem: Memory, a: Admission, st: Stamps): Step<C> {
    match a
    case Rejected(o) => Step(o, None, mem, [])
    case Admitted(m) =>
      var ctx := Context(reg.name, reg.config);
      var re := reg.onMessage(m, ctx, mem, st);
      Step(if re.threw then HandlerFailed else Handled, Some(Call(m, ctx)),
           ApplyEffects(mem, re.effects), Published(re.effects))
  }

  // ---------------------------------------------------------------- a run

  datatype Trace<C> = Trace(outcomes: seq<Outcome>, calls: seq<Call<C>>, memory: Memory, published: seq<Wire>)

  /** The subscriber over a sequence of admissions, the i-th drawing its stamps from stamps(i). */
  function RunOn<C>(reg: Registration<C>, mem0: Memory, ads: seq<Admission>, stamps: nat -> Stamps): (t: Trace<C>)
    ensures |t.outcomes| == |ads| && |t.calls| <= |ads|
    decreases |ads|
  {
    if ads == [] then Trace([], [], mem0, [])
    else
      var t := RunOn(reg, mem0, ads[..|ads| - 1], stamps);
      Extend(t, StepOf(reg, t.memory, ads[|ads| - 1], stamps(|ads| - 1)))
  }

  function Extend<C>(t: Trace<C>, s: Step<C>): Trace<C> {
    Trace(t.outcomes + [s.outcome], t.calls + s.call.ToSeq(), s.memory, t.published + s.published)
  }

  lemma RunOnPrefix<C>(reg: Registration<C>, mem0: Memory, ads: seq<Admission>, stamps: nat -> Stamps, i: nat)
    requires i < |ads|
    ensures RunOn(reg, mem0, ads[..i + 1], stamps)
            == Extend(RunOn(reg, mem0, ads[..i], stamps),
                      StepOf(reg, RunOn(reg, mem0, ads[..i], stamps).memory, ads[i], stamps(i)))
  {
    assert ads[..i + 1][..i] == ads[..i];
  }

  /** The subscriber over a sequence of payloads. */
  function RunSpec<C>(reg: Registration<C>, mem0: Memory, ps: seq<Payload>, stamps: nat -> Stamps): Trace<C> {
    RunOn(reg, mem0, Admissions(reg, ps), stamps)
  }

  /** The messages that get through, in order. */
  function MsgsOf(ads: seq<Admission>): seq<Core.Msg> {
    Somes(seq(|ads|, i requires 0 <= i < |ads| => if ads[i].Admitted? then Some(ads[i].msg) else None))
  }

  function AdmittedMsgs<C>(reg: Registration<C>, ps: seq<Payload>): seq<Core.Msg> {
    MsgsOf(Admissions(reg, ps))
  }

  function CallMsgs<C>(calls: seq<Call<C>>): seq<Core.Msg> {
    seq(|calls|, i requires 0 <= i < |calls| => calls[i].msg)
  }

  lemma MsgsOfSnoc(ads: seq<Admission>, a: Admission)
    ensures MsgsOf(ads + [a]) == MsgsOf(ads) + (if a.Admitted? then [a.msg] else [])
  {
    var os := seq(|ads|, i requires 0 <= i < |ads| => if ads[i].Admitted? then Some(ads[i].msg) else None);
    var o: Option<Core.Msg> := if a.Admitted? then Some(a.msg) else None;
    assert seq(|ads + [a]|, i requires 0 <= i < |ads + [a]| =>
                 if (ads + [a])[i].Admitted? then Some((ads + [a])[i].msg) else None) == os + [o];
    SomesSnoc(os, o);
  }

  lemma {:induction false} RunOnOutcomes<C>(reg: Registration<C>, mem0: Memory, ads: seq<Admission>, stamps: nat -> Stamps, i: nat)
    requires i < |ads|
    ensures ads[i].Rejected? ==> RunOn(reg, mem0, ads, stamps).outcomes[i] == ads[i].outcome
    ensures ads[i].Admitted? ==> RunOn(reg, mem0, ads, stamps).outcomes[i] in {Handled, HandlerFailed}
    decreases |ads|
  {
    var init := ads[..|ads| - 1];
    if i < |ads| - 1 {
      assert init[i] == ads[i];
      RunOnOutcomes(reg, mem0, init, stamps, i);
    }
  }

  lemma {:induction false} RunOnCalls<C>(reg: Registration<C>, mem0: Memory, ads: seq<Admission>, stamps: nat -> Stamps)
    ensures CallMsgs(RunOn(reg, mem0, ads, stamps).calls) == MsgsOf(ads)
    decreases |ads|
  {
    if ads == [] {
      assert CallMsgs<C>([]) == [];
      assert MsgsOf([]) == [];
    } else {
      var init := ads[..|ads| - 1];
      var last := ads[|ads| - 1];
      assert ads == init + [last];
      RunOnCalls(reg, mem0, init, stamps);
      MsgsOfSnoc(init, last);
      var t := RunOn(reg, mem0, init, stamps);
      StepCases(reg, t.memory, last, stamps(|ads| - 1));
      var s := StepOf(reg, t.memory, last, stamps(|ads| - 1));
      assert RunOn(reg, mem0, ads, stamps).calls == t.calls + s.call.ToSeq();
      if last.Admitted? {
        assert s.call.ToSeq() == [Call(last.msg, Context(reg.name, reg.config))];
        CallMsgsSnoc(t.calls, Call(last.msg, Context(reg.name, reg.config)));
      } else {
        assert t.calls + s.call.ToSeq() == t.calls;
      }
    }
  }

  lemma CallMsgsSnoc<C>(calls: seq<Call<C>>, c: Call<C>)
    ensures CallMsgs(calls + [c]) == CallMsgs(calls) + [c.msg]
  {
  }

  lemma {:induction false} RunOnContexts<C>(reg: Registration<C>, mem0: Memory, ads: seq<Admission>, stamps: nat -> Stamps)
    ensures forall c | c in RunOn(reg, mem0, ads, stamps).calls :: c.ctx == Context(reg.name, reg.config)
    decreases |ads|
  {
    if ads != [] {
      var init := ads[..|ads| - 1];
      RunOnContexts(reg, mem0, init, stamps);
      var t := RunOn(reg, mem0, init, stamps);
      StepCases(reg, t.memory, ads[|ads| - 1], stamps(|ads| - 1));
    }
  }

  lemma {:induction false} RunOnChannel<C>(reg: Registration<C>, mem0: Memory, ads: seq<Admission>, stamps: nat -> Stamps)
    ensures forall w | w in RunOn(reg, mem0, ads, stamps).published :: w.channel == Channel
    decreases |ads|
  {
    if ads != [] {
      RunOnChannel(reg, mem0, ads[..|ads| - 1], stamps);
    }
  }

  /**
   * The outcome of every payload is fixed by parsing, validation and the
   * filter alone: a payload that does not get through is recorded as why, one
   * that does is Handled or HandlerFailed, whatever earlier handlers did.
   */
  lemma RunOutcomes<C>(reg: Registration<C>, mem0: Memory, ps: seq<Payload>, stamps: nat -> Stamps, i: nat)
    requires i < |ps|
    ensures |RunSpec(reg, mem0, ps, stamps).outcomes| == |ps|
    ensures Admit(reg, ps[i]).Rejected? ==> RunSpec(reg, mem0, ps, stamps).outcomes[i] == Admit(reg, ps[i]).outcome
    ensures Admit(reg, ps[i]).Admitted? ==> RunSpec(reg, mem0, ps, stamps).outcomes[i] in {Handled, HandlerFailed}
  {
    RunOnOutcomes(reg, mem0, Admissions(reg, ps), stamps, i);
  }

  /**
   * The handler is called exactly with the admitted messages, in arrival
   * order, always with the registration's name and config; a handler that
   * throws does not stop later messages being dispatched.
   */
  lemma RunCalls<C>(reg: Registration<C>, mem0: Memory, ps: seq<Payload>, stamps: nat -> Stamps)
    ensures CallMsgs(RunSpec(reg, mem0, ps, stamps).calls) == AdmittedMsgs(reg, ps)
    ensures forall c | c in RunSpec(reg, mem0, ps, stamps).calls :: c.ctx == Context(reg.name, reg.config)
  {
    RunOnCalls(reg, mem0, Admissions(reg, ps), stamps);
    RunOnContexts(reg, mem0, Admissions(reg, ps), stamps);
  }

  /** A message gets through a sequence of admissions iff one of them admits it. */
  lemma MsgsOfMember(ads: seq<Admission>, m: Core.Msg)
    ensures m in MsgsOf(ads) <==> exists i | 0 <= i < |ads| :: ads[i] == Admitted(m)
  {
    var os := seq(|ads|, i requires 0 <= i < |ads| => if ads[i].Admitted? then Some(ads[i].msg) else None);
    SomesMember(os, m);
    if m in MsgsOf(ads) {
      var i :| 0 <= i < |os| && os[i] == Some(m);
      assert ads[i] == Admitted(m);
    }
    if exists i | 0 <= i < |ads| :: ads[i] == Admitted(m) {
      var i :| 0 <= i < |ads| && ads[i] == Admitted(m);
      assert os[i] == Some(m);
    }
  }

  /** A message is handled iff some payload is admitted with it. */
  lemma AdmittedExactly<C>(reg: Registration<C>, ps: seq<Payload>, m: Core.Msg)
    ensures m in AdmittedMsgs(reg, ps) <==> exists i | 0 <= i < |ps| :: Admit(reg, ps[i]) == Admitted(m)
  {
    var ads := Admissions(reg, ps);
    MsgsOfMember(ads, m);
    if m in AdmittedMsgs(reg, ps) {
      var i :| 0 <= i < |ads| && ads[i] == Admitted(m);
      assert Admit(reg, ps[i]) == Admitted(m);
    }
    if exists i | 0 <= i < |ps| :: Admit(reg, ps[i]) == Admitted(m) {
      var i :| 0 <= i < |ps| && Admit(reg, ps[i]) == Admitted(m);
      assert ads[i] == Admitted(m);
    }
  }

  /** Without a filter, every valid message reaches the handler. */
  lemma NoFilterAdmitsValid<C>(reg: Registration<C>, p: Payload)
    requires reg.filter.None? && p.Parsed? && Core.Validate(p.value).Success?
    ensures Admit(reg, p) == Admitted(Core.Validate(p.value).value)
  {
  }

  /** Everything the subscriber publishes goes out on "orion:bus". */
  lemma RunChannel<C>(reg: Registration<C>, mem0: Memory, ps: seq<Payload>, stamps: nat -> Stamps)
    ensures forall w | w in RunSpec(reg, mem0, ps, stamps).published :: w.channel == Channel
  {
    RunOnChannel(reg, mem0, Admissions(reg, ps), stamps);
  }

  /** StepOf spelled out for the subscriber's two paths. */
  lemma StepCases<C>(reg: Registration<C>, mem: Memory, a: Admission, st: Stamps)
    ensures a.Rejected? ==> StepOf(reg, mem, a, st) == Step(a.outcome, None, mem, [])
    ensures a.Admitted? ==>
              var ctx := Context(reg.name, reg.config);
              var re := reg.onMessage(a.msg, ctx, mem, st);
              StepOf(reg, mem, a, st)
              == Step(if re.threw then HandlerFailed else Handled, Some(Call(a.msg, ctx)),
                      ApplyEffects(mem, re.effects), Published(re.effects))
  {
  }

  /**
   * The entry point returned by defineAgent, over the payloads that arrive:
   * the handshake goes out first, then each payload is handled in turn and
   * nothing ever stops the loop.
   */
  method Start<C>(reg: Registration<C>, mem0: Memory, ps: seq<Payload>, stamps: nat -> Stamps, boot: Core.Stamp)
    returns (outcomes: seq<Outcome>, mem: Memory, wires: seq<Wire>)
    ensures |outcomes| == |ps| && |wires| >= 1
    ensures wires[0] == Wire(Channel, Handshake(reg.name, boot))
    ensures outcomes == RunSpec(reg, mem0, ps, stamps).outcomes
    ensures mem == RunSpec(reg, mem0, ps, stamps).memory
    ensures wires == [wires[0]] + RunSpec(reg, mem0, ps, stamps).published
  {
    var sent: seq<Wire> := [];
    outcomes := [];
    mem := mem0;
    ghost var ads := Admissions(reg, ps);
    ghost var calls: seq<Call<C>> := [];
    var i := 0;
    while i < |ps|
      invariant 0 <= i <= |ps|
      invariant RunOn(reg, mem0, ads[..i], stamps) == Trace(outcomes, calls, mem, sent)
    {
      RunOnPrefix(reg, mem0, ads, stamps, i);
      var adm := Admit(reg, ps[i]);
      assert adm == ads[i];
      StepCases(reg, mem, adm, stamps(i));
      if adm.Rejected? {
        outcomes := outcomes + [adm.outcome];
      } else {
        var ctx := Context(reg.name, reg.config);
        var re := reg.onMessage(adm.msg, ctx, mem, stamps(i));
        mem := ApplyEffects(mem, re.effects);
        sent := sent + Published(re.effects);
        calls := calls + [Call(adm.msg, ctx)];
        outcomes := outcomes + [if re.threw then HandlerFailed else Handled];
      }
      i := i + 1;
    }
    wires := [Wire(Channel, Handshake(reg.name, boot))] + sent;
    assert ads[..|ps|] == ads;
  }
}
