/**
 * packages/agents/planner/src/agentlib.ts: the planner's private copy of
 * MsgSchema, and a buildMsg whose object literal has no meta key.
 */
module PlannerLib {

  import opened Wrappers
  import opened Json
  import opened Core

  /** The issues of agentlib.ts's MsgSchema, key by key. */
  function SchemaIssues(o: map<string, Json>): seq<Issue> {
    Check(StrField(o, "id"), "id") + Check(StrField(o, "taskId"), "taskId")
    + Check(StrField(o, "ts"), "ts") + Check(StrField(o, "from"), "from")
    + Check(OptStrField(o, "to"), "to") + Check(TypeField(o), "type")
    + Check(StrField(o, "content"), "content") + Check(OptRecordField(o, "data"), "data")
    + Check(OptRecordField(o, "meta"), "meta")
  }

  /** MsgSchema.safeParse of agentlib.ts. */
  function Validate(j: Json): (r: Result<Msg, seq<Issue>>)
    ensures r == Core.Validate(j)
  {
    if !j.JObj? then Failure([NotAnObject])
    else if SchemaIssues(j.fields) != [] then Failure(SchemaIssues(j.fields))
    else Success(FromFields(j.fields))
  }

  /** buildMsg of agentlib.ts, key by key: the literal stops after data. */
  function BuildValue(p: Partial, st: Stamp, k: string): Option<Json> {
    if k == "id" then Some(JStr(st.id))
    else if k == "taskId" then StrOpt(p.taskId)
    else if k == "ts" then Some(JStr(st.ts))
    else if k == "from" then StrOpt(p.from)
    else if k == "to" then StrOpt(p.to)
    else if k == "type" then TypeOpt(p.msgType)
    else if k == "content" then Some(JStr(ContentOr(p.content)))
    else if k == "data" then RecordOpt(p.data)
    else None
  }

  function BuildMsg(p: Partial, st: Stamp): Json {
    JObj(map k | k in FieldNames && BuildValue(p, st, k).Some? :: BuildValue(p, st, k).value)
  }

  /** The output never has a meta key, even when the partial has one; otherwise it is core.ts's buildMsg. */
  lemma BuildMsgDropsMeta(p: Partial, st: Stamp)
    ensures "meta" !in BuildMsg(p, st).fields
    ensures BuildMsg(p, st) == Core.BuildMsg(p.(meta := None), st)
  {
    assert forall k :: BuildValue(p, st, k) == Core.BuildValue(p.(meta := None), st, k);
  }

  /**
   * Round trip: with taskId, from and type given the output validates, copies
   * taskId, from, to, type and data, defaults content to "" and has no meta.
   */
  lemma BuildMsgValidates(p: Partial, st: Stamp)
    ensures Validate(BuildMsg(p, st)).Success? <==> p.taskId.Some? && p.from.Some? && p.msgType.Some?
    ensures Validate(BuildMsg(p, st)).Success? ==>
              Validate(BuildMsg(p, st)).value == Built(p, st).(meta := None)
  {
    BuildMsgDropsMeta(p, st);
    Core.BuildMsgValidates(p.(meta := None), st);
  }
}
