/**
 * The tool catalogue the agent offers its model (runtime/agentic/tools.py): file tools
 * always, the four task-management tools with the "spawn" capability, and the shell tool
 * with "shell". Each tool is an OpenAI function-calling schema; `Tool` holds its parts and
 * `Schema` renders the JSON object sent to the model. The descriptive sentences are
 * supplied by `Descriptions`; names, types, enums and required lists are exact.
 */
module Tools {
  import opened Json

  /** One parameter of a tool: its name, JSON type, description and, when non-empty, the
      values it is restricted to. */
  datatype Param = Param(name: string, kind: string, description: string, choices: seq<string>)

  /** A tool: its name, description, parameters and the names of the required ones. */
  datatype Tool = Tool(name: string, description: string, params: seq<Param>, required: seq<string>)

  function ParamSchema(p: Param): (r: Json)
    ensures r.JObj? && "type" in r.fields && r.fields["type"] == JStr(p.kind)
    ensures "enum" in r.fields <==> p.choices != []
    ensures p.choices != [] ==> r.fields["enum"] == JArr(Texts(p.choices))
  {
    var base := map["type" := JStr(p.kind), "description" := JStr(p.description)];
    JObj(if p.choices != [] then base["enum" := JArr(Texts(p.choices))] else base)
  }

  /** The "properties" object: each parameter's schema under its name. */
  function Properties(ps: seq<Param>): (r: Dict)
    ensures forall n :: n in r <==> exists k :: 0 <= k < |ps| && ps[k].name == n
  {
    if ps == [] then map[]
    else
      var rest := Properties(ps[..|ps| - 1]);
      assert forall k :: 0 <= k < |ps| - 1 ==> ps[..|ps| - 1][k] == ps[k];
      rest[ps[|ps| - 1].name := ParamSchema(ps[|ps| - 1])]
  }

  /** The OpenAI function-calling schema of a tool. */
  function Schema(t: Tool): (r: Json)
    ensures r.JObj? && "type" in r.fields && r.fields["type"] == JStr("function") && "function" in r.fields
    ensures var f := r.fields["function"];
            f.JObj? && "name" in f.fields && f.fields["name"] == JStr(t.name) &&
            "parameters" in f.fields && f.fields["parameters"].JObj? &&
            "required" in f.fields["parameters"].fields && f.fields["parameters"].fields["required"] == JArr(Texts(t.required)) &&
            "properties" in f.fields["parameters"].fields && f.fields["parameters"].fields["properties"] == JObj(Properties(t.params))
  {
    JObj(map[
      "type" := JStr("function"),
      "function" := JObj(map[
        "name" := JStr(t.name),
        "description" := JStr(t.description),
        "parameters" := JObj(map[
          "type" := JStr("object"),
          "properties" := JObj(Properties(t.params)),
          "required" := JArr(Texts(t.required))])])])
  }

  /** The tools the runtime can offer. */
  datatype ToolId = ReadFile | WriteFile | SpawnTask | CheckStatus | GetResult | CancelTask | RunShell

  /** The name the model calls each tool by. */
  function Name(id: ToolId): string
  {
    match id
    case ReadFile => "read_file"
    case WriteFile => "write_file"
    case SpawnTask => "spawn_task"
    case CheckStatus => "check_status"
    case GetResult => "get_result"
    case CancelTask => "cancel_task"
    case RunShell => "run_shell"
  }

  /** The descriptive sentences of the schemas, which are not modelled word for word:
      `say(t, "")` is tool `t`'s description and `say(t, p)` that of its parameter `p`. */
  type Descriptions = (ToolId, string) -> string

  function Arg(id: ToolId, name: string, kind: string, say: Descriptions): Param
  {
    Param(name, kind, say(id, name), [])
  }

  /** The `_tool_*` constructors: each tool's definition. */
  function Definition(id: ToolId, say: Descriptions): (t: Tool)
    ensures t.name == Name(id)
  {
    match id
    case SpawnTask => SpawnTaskTool(say)
    case CheckStatus => Tool(Name(id), say(id, ""), [Arg(id, "task_name", "string", say)], ["task_name"])
    case GetResult => Tool(Name(id), say(id, ""), [Arg(id, "task_name", "string", say)], ["task_name"])
    case CancelTask => Tool(Name(id), say(id, ""), [Arg(id, "task_name", "string", say)], ["task_name"])
    case RunShell =>
      Tool(Name(id), say(id, ""), [Arg(id, "command", "string", say), Arg(id, "timeout", "integer", say)], ["command"])
    case ReadFile => Tool(Name(id), say(id, ""), [Arg(id, "path", "string", say)], ["path"])
    case WriteFile =>
      Tool(Name(id), say(id, ""), [Arg(id, "path", "string", say), Arg(id, "content", "string", say)], ["path", "content"])
  }

  /** `_tool_spawn_task`: five parameters, only the prompt required, the tier an enum. */
  function SpawnTaskTool(say: Descriptions): (t: Tool)
    ensures t.required == ["prompt"] && |t.params| == 5
    ensures t.params[0].name == "prompt" && t.params[1].name == "role" && t.params[2].name == "tier" &&
            t.params[3].name == "capabilities" && t.params[4].name == "wait"
    ensures t.params[2].choices == ["centurion", "legionary"]
  {
    Tool(
      Name(SpawnTask), say(SpawnTask, ""),
      [Arg(SpawnTask, "prompt", "string", say),
       Arg(SpawnTask, "role", "string", say),
       Param("tier", "string", say(SpawnTask, "tier"), ["centurion", "legionary"]),
       Arg(SpawnTask, "capabilities", "string", say),
       Arg(SpawnTask, "wait", "boolean", say)],
      ["prompt"])
  }

  /** The tools offered for a capability list: the file tools first, then the task tools
      when "spawn" is granted, then the shell tool when "shell" is. */
  function Catalog(capabilities: seq<string>): (r: seq<ToolId>)
    ensures |r| == 2 + (if "spawn" in capabilities then 4 else 0) + (if "shell" in capabilities then 1 else 0)
    ensures forall id :: id in r <==>
              id == ReadFile || id == WriteFile || (id == RunShell && "shell" in capabilities) ||
              ((id == SpawnTask || id == CheckStatus || id == GetResult || id == CancelTask) && "spawn" in capabilities)
  {
    var files := [] + [ReadFile] + [WriteFile];
    var tasks := if "spawn" in capabilities then files + [SpawnTask] + [CheckStatus] + [GetResult] + [CancelTask] else files;
    if "shell" in capabilities then tasks + [RunShell] else tasks
  }

  /** The rendering of one tool. */
  function SchemaFn(say: Descriptions): ToolId -> Json
  {
    id => Schema(Definition(id, say))
  }

  /** The renderings of a list of tools under `f`, in order. */
  function SchemasBy(ids: seq<ToolId>, f: ToolId -> Json): (r: seq<Json>)
    ensures |r| == |ids|
  {
    if ids == [] then [] else [f(ids[0])] + SchemasBy(ids[1..], f)
  }

  /** The schemas of a list of tools, in order. */
  function Schemas(ids: seq<ToolId>, say: Descriptions): (r: seq<Json>)
    ensures |r| == |ids|
    ensures forall k :: 0 <= k < |ids| ==> r[k] == Schema(Definition(ids[k], say))
  {
    SchemasByAt(ids, SchemaFn(say));
    SchemasBy(ids, SchemaFn(say))
  }

  /** Entry k of the rendering is tool k rendered. */
  lemma {:induction false} SchemasByAt(ids: seq<ToolId>, f: ToolId -> Json)
    ensures forall k :: 0 <= k < |ids| ==> SchemasBy(ids, f)[k] == f(ids[k])
  {
    if ids != [] {
      SchemasByAt(ids[1..], f);
    }
  }

  lemma {:induction false} SchemasAppend(ids: seq<ToolId>, id: ToolId, f: ToolId -> Json)
    ensures SchemasBy(ids + [id], f) == SchemasBy(ids, f) + [f(id)]
  {
    if ids != [] {
      assert (ids + [id])[1..] == ids[1..] + [id];
      SchemasAppend(ids[1..], id, f);
    }
  }

  /** One append of `build_tools`: the tool's schema joins the list. */
  method Offer(tools: seq<Json>, ghost ids: seq<ToolId>, id: ToolId, say: Descriptions) returns (tools': seq<Json>, ghost ids': seq<ToolId>)
    requires tools == Schemas(ids, say)
    ensures ids' == ids + [id] && tools' == Schemas(ids', say)
  {
    SchemasAppend(ids, id, SchemaFn(say));
    tools', ids' := tools + [SchemaFn(say)(id)], ids + [id];
  }

  /** `build_tools`: the list it fills, one append per offered tool. The task name and
      namespace are accepted and not used, as in the source. */
  method BuildTools(capabilities: seq<string>, taskName: string, taskNs: string, say: Descriptions) returns (tools: seq<Json>)
    ensures tools == Schemas(Catalog(capabilities), say)
  {
    ghost var ids: seq<ToolId> := [];
    tools := [];
    tools, ids := Offer(tools, ids, ReadFile, say);
    tools, ids := Offer(tools, ids, WriteFile, say);
    if "spawn" in capabilities {
      tools, ids := Offer(tools, ids, SpawnTask, say);
      tools, ids := Offer(tools, ids, CheckStatus, say);
      tools, ids := Offer(tools, ids, GetResult, say);
      tools, ids := Offer(tools, ids, CancelTask, say);
    }
    if "shell" in capabilities {
      tools, ids := Offer(tools, ids, RunShell, say);
    }
  }

  /** Different tools have different names, so no tool is offered twice under one name. */
  lemma NamesDistinct(a: ToolId, b: ToolId)
    requires a != b
    ensures Name(a) != Name(b)
  {
    var x, y := Name(a), Name(b);
    assert |x| != |y| || x[0] != y[0] || x[1] != y[1];
  }

  /** No tool is offered twice. */
  lemma CatalogNamesUnique(capabilities: seq<string>, i: int, j: int)
    requires 0 <= i < j < |Catalog(capabilities)|
    ensures Name(Catalog(capabilities)[i]) != Name(Catalog(capabilities)[j])
  {
    NamesDistinct(Catalog(capabilities)[i], Catalog(capabilities)[j]);
  }

  /** The executor's checkpoint and role tools are not in the catalogue: no tool it can
      offer carries their names. */
  lemma HiddenToolsNeverOffered(id: ToolId)
    ensures Name(id) != "checkpoint_and_wait" && Name(id) != "list_roles" && Name(id) != "describe_role"
  {
    var n := Name(id);
    assert |n| != 19 && |n| != 13 && (|n| != 10 || n[0] != 'l');
  }

  /** The file tools come first, the task tools follow in their fixed order when "spawn"
      is granted, and the shell tool is last when "shell" is. */
  lemma CatalogOrder(capabilities: seq<string>)
    ensures Catalog(capabilities)[0] == ReadFile && Catalog(capabilities)[1] == WriteFile
    ensures "spawn" in capabilities ==>
              Catalog(capabilities)[2] == SpawnTask && Catalog(capabilities)[3] == CheckStatus &&
              Catalog(capabilities)[4] == GetResult && Catalog(capabilities)[5] == CancelTask
    ensures "shell" in capabilities ==> Catalog(capabilities)[|Catalog(capabilities)| - 1] == RunShell
  {}

  /** The "properties" entry of a parameter whose name no later parameter repeats. */
  lemma {:induction false} PropertiesLookup(ps: seq<Param>, k: int)
    requires 0 <= k < |ps|
    requires forall m :: k < m < |ps| ==> ps[m].name != ps[k].name
    ensures ps[k].name in Properties(ps) && Properties(ps)[ps[k].name] == ParamSchema(ps[k])
  {
    if k < |ps| - 1 {
      var init := ps[..|ps| - 1];
      assert init[k] == ps[k];
      assert forall m :: k < m < |init| ==> init[m] == ps[m];
      PropertiesLookup(init, k);
    }
  }

  /** spawn_task demands only a prompt, and its tier can only be centurion or legionary. */
  lemma SpawnTaskSchema(say: Descriptions)
    ensures var f := Schema(Definition(SpawnTask, say)).fields["function"].fields["parameters"].fields;
            f["required"] == JArr([JStr("prompt")]) &&
            f["properties"].JObj? && "tier" in f["properties"].fields &&
            f["properties"].fields["tier"].JObj? && "enum" in f["properties"].fields["tier"].fields &&
            f["properties"].fields["tier"].fields["enum"] == JArr([JStr("centurion"), JStr("legionary")])
  {
    var t := SpawnTaskTool(say);
    assert t.params[3].name != "tier" && t.params[4].name != "tier" by {
      assert t.params[3].name[0] == 'c' && t.params[4].name[0] == 'w';
    }
    PropertiesLookup(t.params, 2);
    assert Texts(["prompt"]) == [JStr("prompt")];
    assert Texts(["centurion", "legionary"]) == [JStr("centurion"), JStr("legionary")];
  }
}
