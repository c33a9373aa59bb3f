/**
 * packages/agent-kit/src/messages.ts: the kind-discriminated Orion protocol.
 * A base envelope (uuid id, non-empty taskId and kind, optional datetime
 * timestamp, optional sender) is extended by ten variants, each fixing kind to
 * a literal; the variants are grouped into four unions and those into
 * OrionMessageSchema. The uuid and datetime format checks are parameters.
 */
module Messages {

  import opened Wrappers
  import opened Json

  /** The string formats zod checks for z.string().uuid() and z.string().datetime(). */
  datatype Formats = Formats(isUuid: string -> bool, isDatetime: string -> bool)

  // ---------------------------------------------------------------- roles

  const BuiltinRoles: seq<string> := ["planner", "worker", "critic"]

  /** AgentRoleSchema: one of the three literals, or else any string of length at least one. */
  function ParseRole(j: Json): (r: Option<string>)
    ensures r.Some? ==> j == JStr(r.value)
  {
    if j.JStr? && (j.s in BuiltinRoles || |j.s| >= 1) then Some(j.s) else None
  }

  /** The custom-role alternative makes the role schema accept exactly the non-empty strings. */
  lemma RoleAcceptsNonEmpty(j: Json)
    ensures ParseRole(j).Some? <==> j.JStr? && j.s != ""
  {
    if j.JStr? && j.s in BuiltinRoles {
      assert j.s == "planner" || j.s == "worker" || j.s == "critic";
    }
  }

  // ---------------------------------------------------------------- enumerations

  datatype StepStatus = Pending | InProgress | Done
  datatype DoneStatus = Succeeded | FailedRun | Cancelled
  datatype Verdict = Accept | Revise | Reject

  function StepStatusName(s: StepStatus): string {
    match s
    case Pending => "pending"
    case InProgress => "in-progress"
    case Done => "done"
  }

  function DoneStatusName(s: DoneStatus): string {
    match s
    case Succeeded => "success"
    case FailedRun => "failed"
    case Cancelled => "cancelled"
  }

  function VerdictName(v: Verdict): string {
    match v
    case Accept => "accept"
    case Revise => "revise"
    case Reject => "reject"
  }

  /** z.enum(["pending", "in-progress", "done"]). */
  function ParseStepStatus(j: Json): (r: Option<StepStatus>)
    ensures r.Some? <==> j.JStr? && j.s in {"pending", "in-progress", "done"}
    ensures r.Some? ==> j == JStr(StepStatusName(r.value))
  {
    if j == JStr("pending") then Some(Pending)
    else if j == JStr("in-progress") then Some(InProgress)
    else if j == JStr("done") then Some(Done)
    else None
  }

  /** z.enum(["success", "failed", "cancelled"]). */
  function ParseDoneStatus(j: Json): (r: Option<DoneStatus>)
    ensures r.Some? <==> j.JStr? && j.s in {"success", "failed", "cancelled"}
    ensures r.Some? ==> j == JStr(DoneStatusName(r.value))
  {
    if j == JStr("success") then Some(Succeeded)
    else if j == JStr("failed") then Some(FailedRun)
    else if j == JStr("cancelled") then Some(Cancelled)
    else None
  }

  /** z.enum(["accept", "revise", "reject"]). */
  function ParseVerdict(j: Json): (r: Option<Verdict>)
    ensures r.Some? <==> j.JStr? && j.s in {"accept", "revise", "reject"}
    ensures r.Some? ==> j == JStr(VerdictName(r.value))
  {
    if j == JStr("accept") then Some(Accept)
    else if j == JStr("revise") then Some(Revise)
    else if j == JStr("reject") then Some(Reject)
    else None
  }

  // ---------------------------------------------------------------- base envelope

  datatype Sender = Sender(role: string, name: Option<string>)

  datatype Base = Base(
    id: string,
    taskId: string,
    kind: string,
    timestamp: Option<string>,
    sender: Option<Sender>)

  predicate NonEmptyStr(o: map<string, Json>, k: string) {
    k in o && o[k].JStr? && o[k].s != ""
  }

  /** The sender object: a role, and a name that is a non-empty string when present. */
  function ParseSender(j: Json): (r: Option<Sender>)
    ensures r.Some? ==> j.JObj? && "role" in j.fields && j.fields["role"] == JStr(r.value.role)
  {
    if j.JObj? && "role" in j.fields && ParseRole(j.fields["role"]).Some?
       && ("name" !in j.fields || NonEmptyStr(j.fields, "name"))
    then Some(Sender(j.fields["role"].s, if "name" in j.fields then Some(j.fields["name"].s) else None))
    else None
  }

  /** BaseMessageSchema; unknown keys are stripped. */
  function ParseBase(f: Formats, j: Json): (r: Option<Base>)
    ensures r.Some? ==> j.JObj? && "taskId" in j.fields && "kind" in j.fields
    ensures r.Some? ==> j.fields["taskId"] == JStr(r.value.taskId) && j.fields["kind"] == JStr(r.value.kind)
  {
    if !j.JObj? then None
    else
      var o := j.fields;
      if && StrField(o, "id") && f.isUuid(o["id"].s)
         && NonEmptyStr(o, "taskId")
         && NonEmptyStr(o, "kind")
         && ("timestamp" !in o || (o["timestamp"].JStr? && f.isDatetime(o["timestamp"].s)))
         && ("sender" !in o || ParseSender(o["sender"]).Some?)
      then
        Some(Base(o["id"].s, o["taskId"].s, o["kind"].s,
                  if "timestamp" in o then Some(o["timestamp"].s) else None,
                  if "sender" in o then ParseSender(o["sender"]) else None))
      else None
  }

  /** taskId and kind must be non-empty strings. */
  lemma BaseRejectsEmpty(f: Formats, j: Json, k: string)
    requires j.JObj? && k in {"taskId", "kind"} && k in j.fields && j.fields[k] == JStr("")
    ensures ParseBase(f, j).None?
  {
  }

  /** timestamp and sender are optional: removing both from an accepted base keeps it accepted. */
  lemma BaseOptionalFields(f: Formats, j: Json)
    requires ParseBase(f, j).Some?
    ensures ParseBase(f, JObj(j.fields - {"timestamp", "sender"}))
            == Some(ParseBase(f, j).value.(timestamp := None, sender := None))
  {
    var o := j.fields - {"timestamp", "sender"};
    assert o["id"] == j.fields["id"] && o["taskId"] == j.fields["taskId"] && o["kind"] == j.fields["kind"];
  }

  // ---------------------------------------------------------------- plan steps

  datatype Step = Step(id: string, description: string, status: StepStatus)

  /**
   * One element of steps: id and description strings and a status. With
   * defaulted (plan:created), an absent status becomes "pending".
   */
  function ParseStep(j: Json, defaulted: bool): (r: Option<Step>)
    ensures r.Some? ==> j.JObj? && StrField(j.fields, "id") && StrField(j.fields, "description")
    ensures r.Some? ==> r.value.id == j.fields["id"].s && r.value.description == j.fields["description"].s
  {
    if j.JObj? && StrField(j.fields, "id") && StrField(j.fields, "description") then
      var o := j.fields;
      if "status" !in o then
        if defaulted then Some(Step(o["id"].s, o["description"].s, Pending)) else None
      else
        match ParseStepStatus(o["status"])
        case None => None
        case Some(st) => Some(Step(o["id"].s, o["description"].s, st))
    else None
  }

  /** z.array(step): every element must parse, and the result lists them in order. */
  function ParseSteps(items: seq<Json>, defaulted: bool): (r: Option<seq<Step>>)
    ensures r.Some? <==> forall i | 0 <= i < |items| :: ParseStep(items[i], defaulted).Some?
    ensures r.Some? ==> |r.value| == |items|
                        && forall i | 0 <= i < |items| :: ParseStep(items[i], defaulted) == Some(r.value[i])
    decreases |items|
  {
    if items == [] then Some([])
    else
      match ParseStep(items[0], defaulted)
      case None => None
      case Some(s) =>
        match ParseSteps(items[1..], defaulted)
        case None =>
          var i :| 0 <= i < |items[1..]| && ParseStep(items[1..][i], defaulted).None?;
          assert items[1..][i] == items[i + 1];
          None
        case Some(rest) => Some([s] + rest)
  }

  /** plan:created's default: a step without status is accepted as pending. */
  lemma CreatedStepDefaultsToPending(o: map<string, Json>)
    requires StrField(o, "id") && StrField(o, "description") && "status" !in o
    ensures ParseStep(JObj(o), true) == Some(Step(o["id"].s, o["description"].s, Pending))
  {
  }

  /** plan:updated has no default: a step without status is rejected. */
  lemma UpdatedStepNeedsStatus(o: map<string, Json>)
    requires "status" !in o
    ensures ParseStep(JObj(o), false).None?
  {
  }

  // ---------------------------------------------------------------- variants

  datatype Kind =
    | ControlStartKind | ControlDoneKind | ControlReadyKind
    | PlanCreatedKind | PlanUpdatedKind
    | WorkRequestedKind | WorkCompletedKind | WorkFailedKind
    | CritiqueRequestedKind | CritiqueProvidedKind

  function KindName(k: Kind): string {
    match k
    case ControlStartKind => "control:start"
    case ControlDoneKind => "control:done"
    case ControlReadyKind => "control:ready"
    case PlanCreatedKind => "plan:created"
    case PlanUpdatedKind => "plan:updated"
    case WorkRequestedKind => "work:requested"
    case WorkCompletedKind => "work:completed"
    case WorkFailedKind => "work:failed"
    case CritiqueRequestedKind => "critique:requested"
    case CritiqueProvidedKind => "critique:provided"
  }

  const KindNames: set<string> := {
    "control:start", "control:done", "control:ready", "plan:created", "plan:updated",
    "work:requested", "work:completed", "work:failed", "critique:requested", "critique:provided"}

  /** Every variant has its own literal kind. */
  lemma KindNamesDistinct(a: Kind, b: Kind)
    ensures KindName(a) in KindNames
    ensures KindName(a) == KindName(b) ==> a == b
  {
  }

  /** An OrionMessage: the base envelope plus the fields of its variant. */
  datatype OrionMessage =
    | ControlStart(base: Base, goal: string)
    | ControlDone(base: Base, status: DoneStatus, summary: Option<string>)
    | ControlReady(base: Base, agent: string)
    | PlanCreated(base: Base, steps: seq<Step>)
    | PlanUpdated(base: Base, steps: seq<Step>)
    | WorkRequested(base: Base, stepId: string, input: Option<Json>)
    | WorkCompleted(base: Base, stepId: string, artifact: Option<Json>, notes: Option<string>)
    | WorkFailed(base: Base, stepId: string, error: string, retryable: bool)
    | CritiqueRequested(base: Base, artifactSummary: Option<string>)
    | CritiqueProvided(base: Base, verdict: Verdict, rationale: Option<string>)

  function KindOf(m: OrionMessage): Kind {
    match m
    case ControlStart(_, _) => ControlStartKind
    case ControlDone(_, _, _) => ControlDoneKind
    case ControlReady(_, _) => ControlReadyKind
    case PlanCreated(_, _) => PlanCreatedKind
    case PlanUpdated(_, _) => PlanUpdatedKind
    case WorkRequested(_, _, _) => WorkRequestedKind
    case WorkCompleted(_, _, _, _) => WorkCompletedKind
    case WorkFailed(_, _, _, _) => WorkFailedKind
    case CritiqueRequested(_, _) => CritiqueRequestedKind
    case CritiqueProvided(_, _, _) => CritiqueProvidedKind
  }

  /** A z.any() field: absent stays absent, any present value (null included) is kept. */
  function AnyField(o: map<string, Json>, k: string): Option<Json> {
    if k in o then Some(o[k]) else None
  }

  /** The schema of one variant: the base envelope with kind fixed to its literal, plus its own fields. */
  function ParseVariant(f: Formats, k: Kind, j: Json): (r: Option<OrionMessage>)
    ensures r.Some? ==> KindOf(r.value) == k && ParseBase(f, j) == Some(r.value.base)
    ensures r.Some? ==> j.JObj? && j.fields["kind"] == JStr(KindName(k))
  {
    match ParseBase(f, j)
    case None => None
    case Some(b) =>
      if b.kind != KindName(k) then None
      else
        var o := j.fields;
        match k
        case ControlStartKind =>
          if NonEmptyStr(o, "goal") then Some(ControlStart(b, o["goal"].s)) else None
        case ControlDoneKind =>
          if "status" in o && ParseDoneStatus(o["status"]).Some? && OptStrField(o, "summary")
          then Some(ControlDone(b, ParseDoneStatus(o["status"]).value, OptStr(o, "summary")))
          else None
        case ControlReadyKind =>
          if "agent" in o && ParseRole(o["agent"]).Some? then Some(ControlReady(b, o["agent"].s)) else None
        case PlanCreatedKind =>
          if "steps" in o && o["steps"].JArr? && ParseSteps(o["steps"].items, true).Some?
          then Some(PlanCreated(b, ParseSteps(o["steps"].items, true).value))
          else None
        case PlanUpdatedKind =>
          if "steps" in o && o["steps"].JArr? && ParseSteps(o["steps"].items, false).Some?
          then Some(PlanUpdated(b, ParseSteps(o["steps"].items, false).value))
          else None
        case WorkRequestedKind =>
          if StrField(o, "stepId") then Some(WorkRequested(b, o["stepId"].s, AnyField(o, "input"))) else None
        case WorkCompletedKind =>
          if StrField(o, "stepId") && OptStrField(o, "notes")
          then Some(WorkCompleted(b, o["stepId"].s, AnyField(o, "artifact"), OptStr(o, "notes")))
          else None
        case WorkFailedKind =>
          if StrField(o, "stepId") && StrField(o, "error") && ("retryable" !in o || o["retryable"].JBool?)
          then Some(WorkFailed(b, o["stepId"].s, o["error"].s, "retryable" in o && o["retryable"].b))
          else None
        case CritiqueRequestedKind =>
          if OptStrField(o, "artifactSummary") then Some(CritiqueRequested(b, OptStr(o, "artifactSummary"))) else None
        case CritiqueProvidedKind =>
          if "verdict" in o && ParseVerdict(o["verdict"]).Some? && OptStrField(o, "rationale")
          then Some(CritiqueProvided(b, ParseVerdict(o["verdict"]).value, OptStr(o, "rationale")))
          else None
  }

  /** Distinct literal kinds: at most one variant accepts a given input. */
  lemma AtMostOneVariant(f: Formats, j: Json, a: Kind, b: Kind)
    requires ParseVariant(f, a, j).Some? && ParseVariant(f, b, j).Some?
    ensures a == b
  {
    KindNamesDistinct(a, b);
  }

  /** control:start needs a base envelope with kind "control:start" and a non-empty goal. */
  lemma ControlStartNeedsGoal(f: Formats, j: Json)
    ensures ParseVariant(f, ControlStartKind, j).Some?
            <==> ParseBase(f, j).Some? && j.fields["kind"] == JStr("control:start") && NonEmptyStr(j.fields, "goal")
  {
  }

  /** control:done's status is one of success, failed and cancelled. */
  lemma ControlDoneStatusEnumerated(f: Formats, j: Json)
    requires ParseVariant(f, ControlDoneKind, j).Some?
    ensures "status" in j.fields && j.fields["status"] in {JStr("success"), JStr("failed"), JStr("cancelled")}
  {
  }

  /** critique:provided's verdict is one of accept, revise and reject. */
  lemma VerdictEnumerated(f: Formats, j: Json)
    requires ParseVariant(f, CritiqueProvidedKind, j).Some?
    ensures "verdict" in j.fields && j.fields["verdict"] in {JStr("accept"), JStr("revise"), JStr("reject")}
  {
  }

  /** work:failed without retryable is accepted with retryable false. */
  lemma RetryableDefaultsToFalse(f: Formats, j: Json)
    requires ParseBase(f, j).Some? && j.fields["kind"] == JStr("work:failed")
    requires StrField(j.fields, "stepId") && StrField(j.fields, "error") && "retryable" !in j.fields
    ensures ParseVariant(f, WorkFailedKind, j)
            == Some(WorkFailed(ParseBase(f, j).value, j.fields["stepId"].s, j.fields["error"].s, false))
  {
  }

  /** plan:created accepts steps without status as pending; plan:updated rejects them. */
  lemma PlanStepDefaults(f: Formats, j: Json, i: nat)
    requires ParseBase(f, j).Some? && "steps" in j.fields && j.fields["steps"].JArr?
    requires i < |j.fields["steps"].items| && j.fields["steps"].items[i].JObj?
    requires "status" !in j.fields["steps"].items[i].fields
    ensures ParseVariant(f, PlanUpdatedKind, j).None?
    ensures ParseVariant(f, PlanCreatedKind, j).Some? ==> ParseVariant(f, PlanCreatedKind, j).value.steps[i].status == Pending
  {
    var items := j.fields["steps"].items;
    UpdatedStepNeedsStatus(items[i].fields);
    if ParseVariant(f, PlanCreatedKind, j).Some? {
      var steps := ParseSteps(items, true).value;
      assert ParseStep(items[i], true) == Some(steps[i]);
    }
  }

  // ---------------------------------------------------------------- unions

  const ControlKinds: seq<Kind> := [ControlStartKind, ControlDoneKind, ControlReadyKind]
  const PlanKinds: seq<Kind> := [PlanCreatedKind, PlanUpdatedKind]
  const WorkKinds: seq<Kind> := [WorkRequestedKind, WorkCompletedKind, WorkFailedKind]
  const CritiqueKinds: seq<Kind> := [CritiqueRequestedKind, CritiqueProvidedKind]

  /** z.union over the variants ks: the first one, in order, that accepts. */
  function FirstOf(f: Formats, j: Json, ks: seq<Kind>): (r: Option<OrionMessage>)
    ensures r.Some? ==> KindOf(r.value) in ks && ParseVariant(f, KindOf(r.value), j) == r
    ensures r.None? <==> forall i | 0 <= i < |ks| :: ParseVariant(f, ks[i], j).None?
    decreases |ks|
  {
    if ks == [] then None
    else
      match ParseVariant(f, ks[0], j)
      case Some(m) => Some(m)
      case None =>
        var r := FirstOf(f, j, ks[1..]);
        assert forall i | 1 <= i < |ks| :: ks[i] == ks[1..][i - 1];
        r
  }

  function ParseControl(f: Formats, j: Json): Option<OrionMessage> { FirstOf(f, j, ControlKinds) }
  function ParsePlan(f: Formats, j: Json): Option<OrionMessage> { FirstOf(f, j, PlanKinds) }
  function ParseWork(f: Formats, j: Json): Option<OrionMessage> { FirstOf(f, j, WorkKinds) }
  function ParseCritique(f: Formats, j: Json): Option<OrionMessage> { FirstOf(f, j, CritiqueKinds) }

  /** OrionMessageSchema: the union of the four group unions, in declaration order. */
  function ParseOrion(f: Formats, j: Json): (r: Option<OrionMessage>)
    ensures r.Some? ==> ParseVariant(f, KindOf(r.value), j) == r
  {
    match ParseControl(f, j)
    case Some(m) => Some(m)
    case None =>
      match ParsePlan(f, j)
      case Some(m) => Some(m)
      case None =>
        match ParseWork(f, j)
        case Some(m) => Some(m)
        case None => ParseCritique(f, j)
  }

  lemma InSomeGroup(k: Kind)
    ensures k in ControlKinds || k in PlanKinds || k in WorkKinds || k in CritiqueKinds
  {
  }

  /**
   * The union is a dispatch on kind: it yields exactly what the one variant
   * whose literal matches yields, and nothing when none accepts.
   */
  lemma ParseOrionDispatch(f: Formats, j: Json, k: Kind)
    ensures ParseVariant(f, k, j).Some? ==> ParseOrion(f, j) == ParseVariant(f, k, j)
    ensures ParseOrion(f, j).Some? && KindOf(ParseOrion(f, j).value) == k ==> ParseVariant(f, k, j).Some?
  {
    if ParseVariant(f, k, j).Some? {
      InSomeGroup(k);
      var r := ParseOrion(f, j);
      assert r.Some? by {
        if k in ControlKinds {
          var i :| 0 <= i < |ControlKinds| && ControlKinds[i] == k;
        } else if k in PlanKinds {
          var i :| 0 <= i < |PlanKinds| && PlanKinds[i] == k;
        } else if k in WorkKinds {
          var i :| 0 <= i < |WorkKinds| && WorkKinds[i] == k;
        } else {
          var i :| 0 <= i < |CritiqueKinds| && CritiqueKinds[i] == k;
        }
      }
      AtMostOneVariant(f, j, KindOf(r.value), k);
    }
  }

  /** A kind outside the ten literals (or no string kind at all) is rejected. */
  lemma UnknownKindRejected(f: Formats, j: Json)
    requires !j.JObj? || "kind" !in j.fields || !j.fields["kind"].JStr? || j.fields["kind"].s !in KindNames
    ensures ParseOrion(f, j).None?
  {
    if ParseOrion(f, j).Some? {
      KindNamesDistinct(KindOf(ParseOrion(f, j).value), KindOf(ParseOrion(f, j).value));
      assert false;
    }
  }
}
