/**
 * packages/agent-kit/src/index.ts: the package entry point re-declares
 * MsgSchema and buildMsg instead of re-exporting those of core.ts. Both copies
 * are written out here as declared and proved to agree with core.ts's.
 */
module AgentKitIndex {

  import opened Wrappers
  import opened Json
  import opened Core

  /** The issues of index.ts's MsgSchema: its own key-by-key declaration. */
  function SchemaIssues(o: map<string, Json>): seq<Issue> {
    Check(StrField(o, "id"), "id") + Check(StrField(o, "taskId"), "taskId")
    + Check(StrField(o, "ts"), "ts") + Check(StrField(o, "from"), "from")
    + Check(OptStrField(o, "to"), "to") + Check(TypeField(o), "type")
    + Check(StrField(o, "content"), "content") + Check(OptRecordField(o, "data"), "data")
    + Check(OptRecordField(o, "meta"), "meta")
  }

  /** MsgSchema.safeParse of index.ts. */
  function Validate(j: Json): (r: Result<Msg, seq<Issue>>)
    ensures r == Core.Validate(j)
  {
    if !j.JObj? then Failure([NotAnObject])
    else if SchemaIssues(j.fields) != [] then Failure(SchemaIssues(j.fields))
    else Success(FromFields(j.fields))
  }

  /** buildMsg of index.ts, key by key. */
  function BuildValue(p: Partial, st: Stamp, k: string): Option<Json> {
    if k == "id" then Some(JStr(st.id))
    else if k == "taskId" then StrOpt(p.taskId)
    else if k == "ts" then Some(JStr(st.ts))
    else if k == "from" then StrOpt(p.from)
    else if k == "to" then StrOpt(p.to)
    else if k == "type" then TypeOpt(p.msgType)
    else if k == "content" then Some(JStr(ContentOr(p.content)))
    else if k == "data" then RecordOpt(p.data)
    else if k == "meta" then RecordOpt(p.meta)
    else None
  }

  function BuildMsg(p: Partial, st: Stamp): Json {
    JObj(map k | k in FieldNames && BuildValue(p, st, k).Some? :: BuildValue(p, st, k).value)
  }

  /** Builds exactly what core.ts's buildMsg builds. */
  lemma SameBuild(p: Partial, st: Stamp)
    ensures BuildMsg(p, st) == Core.BuildMsg(p, st)
  {
    assert forall k :: BuildValue(p, st, k) == Core.BuildValue(p, st, k);
  }

  /** Accepts exactly what core.ts's MsgSchema accepts: in particular the six-value type enumeration. */
  lemma SameAcceptance(j: Json)
    ensures Validate(j).Success? <==> Core.Accepts(j)
    ensures j.JObj? && ("type" !in j.fields || !j.fields["type"].JStr? || j.fields["type"].s !in TypeNames)
            ==> Validate(j).Failure?
    ensures j.JObj? && "content" !in j.fields ==> Validate(j).Failure?
  {
    if j.JObj? && ("type" !in j.fields || !j.fields["type"].JStr? || j.fields["type"].s !in TypeNames) {
      TypeOutsideEnumRejected(j);
    }
  }

  /** Round trip: buildMsg's output validates exactly when taskId, from and type were given. */
  lemma BuildMsgValidates(p: Partial, st: Stamp)
    ensures Validate(BuildMsg(p, st)).Success? <==> p.taskId.Some? && p.from.Some? && p.msgType.Some?
    ensures Validate(BuildMsg(p, st)).Success? ==> Validate(BuildMsg(p, st)).value == Built(p, st)
  {
    SameBuild(p, st);
    Core.BuildMsgValidates(p, st);
  }
}
