/**
 * packages/runtime/src/schema.ts: the coordinator's envelope schema. It has
 * the same keys as core.ts's, but data is a record of any values and meta, when
 * present, is an object whose cost, tokensIn and tokensOut are optional numbers
 * (its other keys are stripped).
 */
module RuntimeSchema {

  import opened Wrappers
  import opened Json
  import Core

  datatype Meta = Meta(cost: Option<real>, tokensIn: Option<real>, tokensOut: Option<real>)

  /** A validated envelope of the runtime schema. */
  datatype Msg = Msg(
    id: string,
    taskId: string,
    ts: string,
    from: string,
    to: Option<string>,
    msgType: Core.MsgType,
    content: string,
    data: Option<map<string, Json>>,
    meta: Option<Meta>)

  /** z.object({cost, tokensIn, tokensOut: z.number().optional()}) on meta's value. */
  predicate MetaShape(j: Json) {
    j.JObj? && OptNumField(j.fields, "cost") && OptNumField(j.fields, "tokensIn")
    && OptNumField(j.fields, "tokensOut")
  }

  predicate MetaOk(o: map<string, Json>) {
    "meta" !in o || MetaShape(o["meta"])
  }

  predicate FieldOk(o: map<string, Json>, k: string) {
    if k == "meta" then MetaOk(o) else Core.FieldOk(o, k)
  }

  /**
   * The reading of this schema in words: Core's required strings and type,
   * an optional string to, an optional record data whatever its values, and an
   * optional meta whose three counters are numbers when present.
   */
  predicate Accepts(j: Json) {
    && j.JObj?
    && StrField(j.fields, "id")
    && StrField(j.fields, "taskId")
    && StrField(j.fields, "ts")
    && StrField(j.fields, "from")
    && OptStrField(j.fields, "to")
    && "type" in j.fields && j.fields["type"].JStr? && j.fields["type"].s in Core.TypeNames
    && StrField(j.fields, "content")
    && OptRecordField(j.fields, "data")
    && MetaOk(j.fields)
  }

  predicate Reports(j: Json, issue: Core.Issue) {
    match issue
    case NotAnObject => !j.JObj?
    case BadField(k) => j.JObj? && k in Core.FieldNames && !FieldOk(j.fields, k)
  }

  function FieldIssues(o: map<string, Json>): seq<Core.Issue> {
    Core.Check(FieldOk(o, "id"), "id") + Core.Check(FieldOk(o, "taskId"), "taskId")
    + Core.Check(FieldOk(o, "ts"), "ts") + Core.Check(FieldOk(o, "from"), "from")
    + Core.Check(FieldOk(o, "to"), "to") + Core.Check(FieldOk(o, "type"), "type")
    + Core.Check(FieldOk(o, "content"), "content") + Core.Check(FieldOk(o, "data"), "data")
    + Core.Check(FieldOk(o, "meta"), "meta")
  }

  function ParseMeta(j: Json): Meta
    requires MetaShape(j)
  {
    Meta(OptNum(j.fields, "cost"), OptNum(j.fields, "tokensIn"), OptNum(j.fields, "tokensOut"))
  }

  function FromFields(o: map<string, Json>): Msg
    requires FieldIssues(o) == []
  {
    assert FieldOk(o, "type") && FieldOk(o, "meta");
    Msg(Str(o, "id"), Str(o, "taskId"), Str(o, "ts"), Str(o, "from"), OptStr(o, "to"),
        Core.ParseType(o["type"]).value, Str(o, "content"), OptRecord(o, "data"),
        if "meta" in o then Some(ParseMeta(o["meta"])) else None)
  }

  lemma IssuesNil(o: map<string, Json>)
    ensures FieldIssues(o) == [] <==> Accepts(JObj(o))
  {
  }

  lemma IssuesSound(o: map<string, Json>)
    ensures forall i :: 0 <= i < |FieldIssues(o)| ==> Reports(JObj(o), FieldIssues(o)[i])
  {
    var issues := FieldIssues(o);
    assert forall x | x in issues :: x.BadField? && x.key in Core.FieldNames && !FieldOk(o, x.key);
    forall i | 0 <= i < |issues| ensures Reports(JObj(o), issues[i]) {
      assert issues[i] in issues;
    }
  }

  /** MsgSchema.safeParse of schema.ts; a failure lists true issues (a bad meta counter is reported under meta). */
  function Validate(j: Json): (r: Result<Msg, seq<Core.Issue>>)
    ensures r.Success? <==> Accepts(j)
    ensures r.Failure? ==> r.error != [] && forall i :: 0 <= i < |r.error| ==> Reports(j, r.error[i])
  {
    if !j.JObj? then Failure([Core.NotAnObject])
    else
      IssuesNil(j.fields);
      IssuesSound(j.fields);
      if FieldIssues(j.fields) != [] then Failure(FieldIssues(j.fields))
      else Success(FromFields(j.fields))
  }

  /** The runtime envelope carrying the same fields as a Core envelope with the given meta. */
  function FromCore(m: Core.Msg, meta: Option<Meta>): Msg {
    Msg(m.id, m.taskId, m.ts, m.from, m.to, m.msgType, m.content, m.data, meta)
  }

  /**
   * This schema accepts exactly the inputs core.ts's schema accepts whose meta
   * is absent or has numeric counters; it then yields the same fields, with
   * meta narrowed to its three counters.
   */
  lemma AcceptsIffCore(j: Json)
    ensures Validate(j).Success? <==> Core.Validate(j).Success? && MetaOk(j.fields)
    ensures Validate(j).Success? ==>
              Validate(j).value == FromCore(Core.Validate(j).value,
                                            if "meta" in j.fields then Some(ParseMeta(j.fields["meta"])) else None)
  {
  }

  /** Every input core.ts accepts without a meta key is accepted here, with the same fields. */
  lemma CoreWithoutMetaAccepted(j: Json)
    requires Core.Validate(j).Success? && "meta" !in j.fields
    ensures Validate(j) == Success(FromCore(Core.Validate(j).value, None))
  {
    AcceptsIffCore(j);
  }

  /** A meta counter that is present but not a number is rejected, and meta is reported. */
  lemma NonNumberCounterRejected(j: Json, k: string)
    requires j.JObj? && "meta" in j.fields && k in {"cost", "tokensIn", "tokensOut"}
    requires j.fields["meta"].JObj? && k in j.fields["meta"].fields && !j.fields["meta"].fields[k].JNum?
    ensures Validate(j).Failure? && Core.BadField("meta") in Validate(j).error
  {
    assert Core.BadField("meta") in FieldIssues(j.fields);
  }

  /** meta's value must be an object: a string, number, array, boolean or null is rejected. */
  lemma NonObjectMetaRejected(j: Json)
    requires j.JObj? && "meta" in j.fields && !j.fields["meta"].JObj?
    ensures Validate(j).Failure? && Core.BadField("meta") in Validate(j).error
  {
    assert Core.BadField("meta") in FieldIssues(j.fields);
  }
}
