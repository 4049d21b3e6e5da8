/**
 * The tool registry: a map from tool name to tool, kept in first-registration order (the
 * order a JavaScript `Map` iterates in). A tool's handler is a function from its arguments
 * to a string, a JSON value, or a failure.
 */
module ToolProvider {
  import opened Wrappers
  import opened Seqs
  import StructuredOutput

  type Args = map<string, StructuredOutput.Json>

  /** What a handler produces: a string, or any other value (a JSON value). */
  datatype ToolValue = StringValue(text: string) | OtherValue(value: StructuredOutput.Json)

  datatype Tool = Tool(name: string, description: string, invoke: Args -> Result<ToolValue, string>)

  /** The error `executeTool` throws for an unregistered name. */
  function NotFound(name: string): (m: string)
    ensures m == "Tool not found: " + name
  {
    "Tool not found: " + name
  }

  /** `typeof result === 'string' ? result : JSON.stringify(result)`. */
  function Render(v: ToolValue, stringify: StructuredOutput.Json -> string): (r: string)
    ensures v.StringValue? ==> r == v.text
    ensures v.OtherValue? ==> r == stringify(v.value)
  {
    match v
    case StringValue(text) => text
    case OtherValue(value) => stringify(value)
  }

  /** The tools of `names`, looked up in order. */
  function ToolsOf(names: seq<string>, tools: map<string, Tool>): (r: seq<Tool>)
    requires forall n :: n in names ==> n in tools
    ensures |r| == |names|
    ensures forall i :: 0 <= i < |names| ==> r[i] == tools[names[i]]
  {
    if names == [] then [] else [tools[names[0]]] + ToolsOf(names[1..], tools)
  }

  class ToolProviderService {
    var tools: map<string, Tool>
    /** The registered names, in first-registration order. */
    var names: seq<string>

    /** Every tool is filed under its own name, and `names` lists each key once. */
    ghost predicate Valid()
      reads this
    {
      && NoDuplicates(names)
      && (forall n :: n in names <==> n in tools)
      && (forall n :: n in tools ==> tools[n].name == n)
    }

    /** The constructor registers the built-in code-question tool. */
    constructor (codeQuestionTool: Tool)
      ensures Valid()
      ensures tools == map[codeQuestionTool.name := codeQuestionTool]
      ensures names == [codeQuestionTool.name]
    {
      tools := map[];
      names := [];
      new;
      RegisterTool(codeQuestionTool);
    }

    /**
     * `registerTool`: file `tool` under its name, replacing any earlier tool of that name; a
     * new name goes to the end of the order, a replaced one keeps its place.
     */
    method RegisterTool(tool: Tool)
      requires Valid()
      modifies this
      ensures Valid()
      ensures tools == old(tools)[tool.name := tool]
      ensures names == if tool.name in old(tools) then old(names) else old(names) + [tool.name]
    {
      if tool.name !in tools {
        names := names + [tool.name];
      }
      tools := tools[tool.name := tool];
    }

    /**
     * `executeTool`: an unknown name fails with `Tool not found: <name>` and runs nothing;
     * otherwise the tool's result is returned, rendered as a string, and its failure is
     * passed on unchanged.
     */
    method ExecuteTool(name: string, args: Args, stringify: StructuredOutput.Json -> string)
      returns (r: Result<string, string>)
      ensures name !in tools ==> r == Failure(NotFound(name))
      ensures name in tools && tools[name].invoke(args).Failure? ==> r == Failure(tools[name].invoke(args).error)
      ensures name in tools && tools[name].invoke(args).Success? ==>
                r == Success(Render(tools[name].invoke(args).value, stringify))
    {
      if name !in tools {
        return Failure(NotFound(name));
      }
      var tool := tools[name];
      var result := tool.invoke(args);
      match result
      case Failure(err) =>
        r := Failure(err);
      case Success(value) =>
        r := Success(Render(value, stringify));
    }

    /** `getAllTools`: every registered tool once, in first-registration order. */
    method GetAllTools() returns (r: seq<Tool>)
      requires Valid()
      ensures |r| == |names|
      ensures forall i :: 0 <= i < |r| ==> r[i] == tools[names[i]] && r[i].name == names[i]
      ensures forall n :: n in tools <==> exists i :: 0 <= i < |r| && r[i].name == n
    {
      r := ToolsOf(names, tools);
      assert forall n :: n in tools ==> n == r[IndexOf(names, n)].name;
    }
  }
}
