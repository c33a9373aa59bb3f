/**
 * The canonical envelope of packages/agent-kit/src/core.ts: the MsgType
 * enumeration, the validated Msg, MsgSchema as a total validation function,
 * the six is*Msg guards and buildMsg.
 */
module Core {

  import opened Wrappers
  import opened Json

  datatype MsgType = Control | Plan | Work | Critique | Status | Tool

  /** The wire spelling of each enumeration member. */
  function TypeName(t: MsgType): string {
    match t
    case Control => "control"
    case Plan => "plan"
    case Work => "work"
    case Critique => "critique"
    case Status => "status"
    case Tool => "tool"
  }

  const TypeNames: set<string> := {"control", "plan", "work", "critique", "status", "tool"}

  /** z.enum(["control", "plan", "work", "critique", "status", "tool"]) applied to one value. */
  function ParseType(j: Json): (r: Option<MsgType>)
    ensures r.Some? <==> j.JStr? && j.s in TypeNames
    ensures r.Some? ==> j == JStr(TypeName(r.value))
  {
    if !j.JStr? then None
    else if j.s == "control" then Some(Control)
    else if j.s == "plan" then Some(Plan)
    else if j.s == "work" then Some(Work)
    else if j.s == "critique" then Some(Critique)
    else if j.s == "status" then Some(Status)
    else if j.s == "tool" then Some(Tool)
    else None
  }

  lemma ParseTypeName(t: MsgType)
    ensures ParseType(JStr(TypeName(t))) == Some(t)
  {
  }

  /** A validated envelope: what MsgSchema.parse returns. */
  datatype Msg = Msg(
    id: string,
    taskId: string,
    ts: string,
    from: string,
    to: Option<string>,
    msgType: MsgType,
    content: string,
    data: Option<map<string, Json>>,
    meta: Option<map<string, Json>>)

  /** One validation issue: the input is not an object, or a named key fails its schema. */
  datatype Issue = NotAnObject | BadField(key: string)

  /** The keys of the schema, in declaration order. */
  const FieldOrder: seq<string> := ["id", "taskId", "ts", "from", "to", "type", "content", "data", "meta"]
  const FieldNames: set<string> := {"id", "taskId", "ts", "from", "to", "type", "content", "data", "meta"}

  predicate TypeField(o: map<string, Json>) {
    "type" in o && ParseType(o["type"]).Some?
  }

  /** What the schema asks of the value under key k. */
  predicate FieldOk(o: map<string, Json>, k: string) {
    if k == "to" then OptStrField(o, k)
    else if k == "type" then TypeField(o)
    else if k == "data" || k == "meta" then OptRecordField(o, k)
    else if k in FieldNames then StrField(o, k)
    else true
  }

  /**
   * The reading of MsgSchema in words: an object whose id, taskId, ts, from and
   * content are strings, whose type is one of the six names, whose to is absent
   * or a string and whose data and meta are absent or string-keyed records.
   */
  predicate Accepts(j: Json) {
    && j.JObj?
    && StrField(j.fields, "id")
    && StrField(j.fields, "taskId")
    && StrField(j.fields, "ts")
    && StrField(j.fields, "from")
    && OptStrField(j.fields, "to")
    && "type" in j.fields && j.fields["type"].JStr? && j.fields["type"].s in TypeNames
    && StrField(j.fields, "content")
    && OptRecordField(j.fields, "data")
    && OptRecordField(j.fields, "meta")
  }

  /** An issue is reported truthfully. */
  predicate Reports(j: Json, issue: Issue) {
    match issue
    case NotAnObject => !j.JObj?
    case BadField(k) => j.JObj? && k in FieldNames && !FieldOk(j.fields, k)
  }

  function Check(ok: bool, k: string): seq<Issue> {
    if ok then [] else [BadField(k)]
  }

  /** The issues zod reports for an object, one per failing key, in declaration order. */
  function FieldIssues(o: map<string, Json>): seq<Issue> {
    Check(FieldOk(o, "id"), "id") + Check(FieldOk(o, "taskId"), "taskId")
    + Check(FieldOk(o, "ts"), "ts") + Check(FieldOk(o, "from"), "from")
    + Check(FieldOk(o, "to"), "to") + Check(FieldOk(o, "type"), "type")
    + Check(FieldOk(o, "content"), "content") + Check(FieldOk(o, "data"), "data")
    + Check(FieldOk(o, "meta"), "meta")
  }

  /** The input restricted to the schema's keys: z.object drops unknown keys. */
  function Strip(j: Json): Json
    requires j.JObj?
  {
    JObj(map k | k in j.fields && k in FieldNames :: j.fields[k])
  }

  /** The value JSON.stringify writes under key k for a validated envelope; None when it writes nothing. */
  function Value(m: Msg, k: string): Option<Json> {
    if k == "id" then Some(JStr(m.id))
    else if k == "taskId" then Some(JStr(m.taskId))
    else if k == "ts" then Some(JStr(m.ts))
    else if k == "from" then Some(JStr(m.from))
    else if k == "to" then StrOpt(m.to)
    else if k == "type" then Some(JStr(TypeName(m.msgType)))
    else if k == "content" then Some(JStr(m.content))
    else if k == "data" then RecordOpt(m.data)
    else if k == "meta" then RecordOpt(m.meta)
    else None
  }

  /** JSON.stringify of a validated envelope; absent optional keys are not written. */
  function Serialize(m: Msg): Json {
    JObj(map k | k in FieldNames && Value(m, k).Some? :: Value(m, k).value)
  }

  /** The envelope of an object whose every key passes. */
  function FromFields(o: map<string, Json>): Msg
    requires FieldIssues(o) == []
  {
    IssuesNil(o);
    Msg(Str(o, "id"), Str(o, "taskId"), Str(o, "ts"), Str(o, "from"), OptStr(o, "to"),
        ParseType(o["type"]).value, Str(o, "content"), OptRecord(o, "data"), OptRecord(o, "meta"))
  }

  /**
   * MsgSchema.safeParse. A success carries the typed envelope (see
   * ValidateStrips); a failure lists true issues.
   */
  function Validate(j: Json): (r: Result<Msg, seq<Issue>>)
    ensures r.Success? <==> Accepts(j)
    ensures r.Failure? ==> r.error != [] && forall i :: 0 <= i < |r.error| ==> Reports(j, r.error[i])
  {
    if !j.JObj? then Failure([NotAnObject])
    else
      IssuesNil(j.fields);
      IssuesSound(j.fields);
      if FieldIssues(j.fields) != [] then Failure(FieldIssues(j.fields))
      else Success(FromFields(j.fields))
  }

  /** The envelope a success carries is the input with its unknown keys stripped. */
  lemma ValidateStrips(j: Json)
    requires Validate(j).Success?
    ensures Serialize(Validate(j).value) == Strip(j)
  {
    IssuesNil(j.fields);
    FromFieldsStrips(j.fields);
  }

  lemma IssuesNil(o: map<string, Json>)
    ensures FieldIssues(o) == [] <==> Accepts(JObj(o))
    ensures FieldIssues(o) == [] <==> forall k | k in FieldNames :: FieldOk(o, k)
  {
  }

  lemma IssuesSound(o: map<string, Json>)
    ensures forall i :: 0 <= i < |FieldIssues(o)| ==> Reports(JObj(o), FieldIssues(o)[i])
  {
    var issues := FieldIssues(o);
    assert forall x | x in issues :: x.BadField? && x.key in FieldNames && !FieldOk(o, x.key);
    forall i | 0 <= i < |issues| ensures Reports(JObj(o), issues[i]) {
      assert issues[i] in issues;
    }
  }

  lemma FromFieldsStrips(o: map<string, Json>)
    requires FieldIssues(o) == []
    ensures Serialize(FromFields(o)) == Strip(JObj(o))
  {
    IssuesNil(o);
    var m := FromFields(o);
    forall k | k in FieldNames
      ensures (k in o) == Value(m, k).Some? && (k in o ==> o[k] == Value(m, k).value)
    {
      assert FieldOk(o, k);
      if k == "type" { ParseTypeName(m.msgType); }
    }
  }

  /** Every key that fails its schema is reported. */
  lemma IssuesComplete(j: Json, k: string)
    requires j.JObj? && k in FieldNames && !FieldOk(j.fields, k)
    ensures Validate(j).Failure? && BadField(k) in Validate(j).error
  {
    assert BadField(k) in FieldIssues(j.fields);
  }

  /** A type outside the six-value enumeration, or no type at all, is rejected. */
  lemma TypeOutsideEnumRejected(j: Json)
    requires j.JObj?
    requires "type" !in j.fields || !j.fields["type"].JStr? || j.fields["type"].s !in TypeNames
    ensures Validate(j).Failure? && BadField("type") in Validate(j).error
  {
    IssuesComplete(j, "type");
  }

  /** content has no schema default: a missing content is rejected. */
  lemma MissingContentRejected(j: Json)
    requires j.JObj? && "content" !in j.fields
    ensures Validate(j).Failure? && BadField("content") in Validate(j).error
  {
    IssuesComplete(j, "content");
  }

  /** z.string() has no minimum length: setting taskId to "" keeps a valid envelope valid. */
  lemma EmptyTaskIdAccepted(j: Json)
    requires Validate(j).Success?
    ensures Validate(JObj(j.fields["taskId" := JStr("")])) == Success(Validate(j).value.(taskId := ""))
  {
    var o := j.fields;
    var o2 := o["taskId" := JStr("")];
    IssuesNil(o);
    forall k | k in FieldNames ensures FieldOk(o2, k) {
      assert FieldOk(o, k);
      if k != "taskId" {
        assert (k in o2) == (k in o) && (k in o ==> o2[k] == o[k]);
      }
    }
    IssuesNil(o2);
    assert FromFields(o2) == FromFields(o).(taskId := "");
  }

  /** What a subscriber receives for a serialised envelope is that same envelope. */
  lemma SerializeRoundTrip(m: Msg)
    ensures Validate(Serialize(m)) == Success(m)
  {
    var j := Serialize(m);
    SerializeAccepted(m);
    var r := Validate(j).value;
    ValidateStrips(j);
    SerializeInjective(r, m);
  }

  /** A serialised envelope passes the schema and has no unknown keys. */
  lemma SerializeAccepted(m: Msg)
    ensures Accepts(Serialize(m)) && Strip(Serialize(m)) == Serialize(m)
  {
    var j := Serialize(m);
    assert forall k | k in j.fields :: k in FieldNames;
    assert j.fields["type"] == JStr(TypeName(m.msgType));
  }

  lemma SerializeInjective(a: Msg, b: Msg)
    requires Serialize(a) == Serialize(b)
    ensures a == b
  {
    forall k | k in FieldNames ensures Value(a, k) == Value(b, k) {
      assert (k in Serialize(a).fields) == Value(a, k).Some?;
      assert (k in Serialize(b).fields) == Value(b, k).Some?;
    }
    assert Value(a, "type") == Value(b, "type");
    ParseTypeName(a.msgType);
    ParseTypeName(b.msgType);
    assert Value(a, "to") == Value(b, "to");
    assert Value(a, "data") == Value(b, "data");
    assert Value(a, "meta") == Value(b, "meta");
  }

  // The six type guards of core.ts.
  predicate IsControlMsg(m: Msg) { m.msgType == Control }
  predicate IsPlanMsg(m: Msg) { m.msgType == Plan }
  predicate IsWorkMsg(m: Msg) { m.msgType == Work }
  predicate IsCritiqueMsg(m: Msg) { m.msgType == Critique }
  predicate IsStatusMsg(m: Msg) { m.msgType == Status }
  predicate IsToolMsg(m: Msg) { m.msgType == Tool }

  /** The guard core.ts exports for each enumeration member. */
  predicate Guard(t: MsgType, m: Msg) {
    match t
    case Control => IsControlMsg(m)
    case Plan => IsPlanMsg(m)
    case Work => IsWorkMsg(m)
    case Critique => IsCritiqueMsg(m)
    case Status => IsStatusMsg(m)
    case Tool => IsToolMsg(m)
  }

  function GuardsHolding(m: Msg): set<MsgType> {
    set t: MsgType | Guard(t, m)
  }

  /** Exactly one guard accepts a valid envelope: the one named by its type. */
  lemma ExactlyOneGuard(m: Msg)
    ensures GuardsHolding(m) == {m.msgType}
  {
  }

  /**
   * The fields of a Partial<Msg> that buildMsg reads (it ignores id and ts,
   * which it always generates). Absent fields are None.
   */
  datatype Partial = Partial(
    taskId: Option<string>,
    from: Option<string>,
    to: Option<string>,
    msgType: Option<MsgType>,
    content: Option<string>,
    data: Option<map<string, Json>>,
    meta: Option<map<string, Json>>)

  /** The uuid and ISO timestamp a builder generates, supplied from outside. */
  datatype Stamp = Stamp(id: string, ts: string)

  function TypeOpt(t: Option<MsgType>): Option<Json> {
    if t.Some? then Some(JStr(TypeName(t.value))) else None
  }

  /** partial.content || "" */
  function ContentOr(c: Option<string>): string {
    if c.Some? && c.value != "" then c.value else ""
  }

  /**
   * The value the object literal of buildMsg produces under key k, as
   * JSON.stringify writes it: the non-null assertions on taskId, from and type
   * check nothing, so a missing one is a missing key.
   */
  function BuildValue(p: Partial, st: Stamp, k: string): Option<Json> {
    if k == "id" then Some(JStr(st.id))
    else if k == "taskId" then StrOpt(p.taskId)
    else if k == "ts" then Some(JStr(st.ts))
    else if k == "from" then StrOpt(p.from)
    else if k == "to" then StrOpt(p.to)
    else if k == "type" then TypeOpt(p.msgType)
    else if k == "content" then Some(JStr(ContentOr(p.content)))
    else if k == "data" then RecordOpt(p.data)
    else if k == "meta" then RecordOpt(p.meta)
    else None
  }

  /** buildMsg, as the object it serialises to. */
  function BuildMsg(p: Partial, st: Stamp): Json {
    JObj(map k | k in FieldNames && BuildValue(p, st, k).Some? :: BuildValue(p, st, k).value)
  }

  /** The envelope buildMsg means to produce from a partial with taskId, from and type. */
  function Built(p: Partial, st: Stamp): Msg
    requires p.taskId.Some? && p.from.Some? && p.msgType.Some?
  {
    Msg(st.id, p.taskId.value, st.ts, p.from.value, p.to, p.msgType.value,
        p.content.GetOr(""), p.data, p.meta)
  }

  /** content becomes "" when it is absent or empty and is kept otherwise. */
  lemma BuildMsgContent(p: Partial, st: Stamp)
    ensures BuildMsg(p, st).fields["content"] == JStr(p.content.GetOr(""))
    ensures p.content.None? ==> BuildMsg(p, st).fields["content"] == JStr("")
  {
  }

  /**
   * Round trip: the output of buildMsg passes MsgSchema exactly when taskId,
   * from and type were given, and then it carries them, to, data and meta
   * unchanged, content defaulted to "" and the generated id and ts.
   */
  lemma BuildMsgValidates(p: Partial, st: Stamp)
    ensures Validate(BuildMsg(p, st)).Success? <==> p.taskId.Some? && p.from.Some? && p.msgType.Some?
    ensures Validate(BuildMsg(p, st)).Success? ==> Validate(BuildMsg(p, st)).value == Built(p, st)
    ensures p.taskId.None? ==> BadField("taskId") in Validate(BuildMsg(p, st)).error
    ensures p.from.None? ==> BadField("from") in Validate(BuildMsg(p, st)).error
    ensures p.msgType.None? ==> BadField("type") in Validate(BuildMsg(p, st)).error
  {
    var j := BuildMsg(p, st);
    if p.taskId.Some? && p.from.Some? && p.msgType.Some? {
      assert j == Serialize(Built(p, st)) by {
        forall k | k in FieldNames ensures BuildValue(p, st, k) == Value(Built(p, st), k) { }
      }
      SerializeRoundTrip(Built(p, st));
    } else {
      assert "taskId" in j.fields <==> p.taskId.Some?;
      assert "from" in j.fields <==> p.from.Some?;
      assert "type" in j.fields <==> p.msgType.Some?;
      if p.taskId.None? { IssuesComplete(j, "taskId"); }
      if p.from.None? { IssuesComplete(j, "from"); }
      if p.msgType.None? { IssuesComplete(j, "type"); }
    }
  }
}
