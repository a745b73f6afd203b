/**
  The tool registry of the HTTP tool server: a table from tool name to
  descriptor plus handler that keeps the order in which names were first
  registered (a Python dictionary), filled by registration at module load.
  Tool bodies (clock, expression evaluation, directory listing) are opaque.
*/
module Registry {
  import opened Json

  /** What calling a Python tool function with `**params` does: it returns a
      value, or raises a `TypeError` (for one, when the keyword arguments do
      not fit its signature), or raises some other exception. */
  datatype Invocation =
    | Returned(value: Value)
    | RaisedTypeError(message: string)
    | RaisedOther(message: string)

  type Handler = map<string, Value> -> Invocation

  /** One registry entry: the descriptor fields and the registered function. */
  datatype Entry = Entry(name: string, description: string, inputSchema: Value, handler: Handler)

  /** A tool as advertised to clients: an entry without its function. */
  datatype Descriptor = Descriptor(name: string, description: string, inputSchema: Value)

  function Describe(e: Entry): Descriptor {
    Descriptor(e.name, e.description, e.inputSchema)
  }

  /** The dictionary form of a descriptor, as it travels over the wire. */
  function DescriptorValue(d: Descriptor): Value {
    Obj(map["name" := Str(d.name), "description" := Str(d.description), "input_schema" := d.inputSchema])
  }

  /** The schema stored for a tool registered without one: an object with no properties. */
  const DefaultSchema: Value :=
    Obj(map["type" := Str("object"), "properties" := Obj(map[]), "required" := Arr([])])

  /** `input_schema or {...}`: a missing schema, and also an empty (falsy) one, is replaced by the default. */
  function StoredSchema(inputSchema: Option<Value>): (r: Value)
    ensures Truthy(r)
    ensures inputSchema.Some? && Truthy(inputSchema.value) ==> r == inputSchema.value
    ensures !(inputSchema.Some? && Truthy(inputSchema.value)) ==> r == DefaultSchema
  {
    if inputSchema.Some? && Truthy(inputSchema.value) then inputSchema.value
    else assert "type" in DefaultSchema.fields; DefaultSchema
  }

  class ToolRegistry {
    /** Registered names, in the order they were first registered. */
    var order: seq<string>
    var entries: map<string, Entry>

    ghost predicate Valid()
      reads this
    {
      && (forall i, j :: 0 <= i < j < |order| ==> order[i] != order[j])
      && (forall name :: name in entries <==> name in order)
      && (forall name :: name in entries ==> entries[name].name == name)
    }

    constructor ()
      ensures Valid() && order == [] && entries == map[]
    {
      order := [];
      entries := map[];
    }

    /** The `register_tool(name, description, input_schema)` decorator applied to `function`:
        the entry for `name` is replaced (the last registration wins) while a
        name seen before keeps its place, and the handler comes back unchanged. */
    method RegisterTool(name: string, description: string, inputSchema: Option<Value>, handler: Handler)
      returns (decorated: Handler)
      requires Valid()
      modifies this
      ensures Valid()
      ensures decorated == handler
      ensures entries == old(entries)[name := Entry(name, description, StoredSchema(inputSchema), handler)]
      ensures order == if name in old(entries) then old(order) else old(order) + [name]
    {
      if name !in entries {
        order := order + [name];
      }
      entries := entries[name := Entry(name, description, StoredSchema(inputSchema), handler)];
      decorated := handler;
    }

    /** A registration of a name not yet registered, with a non-empty schema:
        the entry is stored as given and the name goes to the end of the order. */
    method RegisterNew(entry: Entry)
      requires Valid() && entry.name !in entries && Truthy(entry.inputSchema)
      modifies this
      ensures Valid()
      ensures entries == old(entries)[entry.name := entry]
      ensures order == old(order) + [entry.name]
    {
      var _ := RegisterTool(entry.name, entry.description, Some(entry.inputSchema), entry.handler);
    }

    /** `get_tools_list`: one descriptor per entry, in registration order. */
    function GetToolsList(): (r: seq<Descriptor>)
      reads this
      requires Valid()
      ensures |r| == |order|
      ensures forall i :: 0 <= i < |order| ==> order[i] in entries && r[i] == Describe(entries[order[i]])
      ensures forall i :: 0 <= i < |order| ==> r[i].name == order[i]
    {
      seq(|order|, i requires 0 <= i < |order| && order[i] in entries reads this => Describe(entries[order[i]]))
    }

    /** `call_tool`: an unknown name and a `TypeError` become `{"error": ...}`
        values; any other exception of the tool function escapes unchanged. */
    function CallTool(name: string, params: map<string, Value>): (r: Invocation)
      reads this
      ensures !r.RaisedTypeError?
      ensures name !in entries ==> r == Returned(ErrorObj("Unknown tool: " + name))
      ensures name in entries && !entries[name].handler(params).RaisedTypeError? ==>
                r == entries[name].handler(params)
      ensures name in entries && entries[name].handler(params).RaisedTypeError? ==>
                r == Returned(ErrorObj("Invalid parameters: " + entries[name].handler(params).message))
    {
      if name !in entries then
        Returned(ErrorObj("Unknown tool: " + name))
      else
        match entries[name].handler(params)
        case RaisedTypeError(message) => Returned(ErrorObj("Invalid parameters: " + message))
        case other => other
    }
  }

  // ---- The three tools registered at module load ----

  /** The tool bodies: they read the clock, evaluate an expression and list a
      directory, and report their own failures as `{"error": ...}` values. */
  datatype ToolBodies = ToolBodies(currentTime: () -> Value, calculate: Value -> Value, listFiles: Value -> Value)

  /** The text CPython gives the `TypeError` raised when keyword arguments do not
      fit a function's signature (function name, arguments given). */
  type BindErrorText = (string, map<string, Value>) -> string

  /** `get_current_time()` called with `**params`. */
  function CurrentTimeHandler(body: () -> Value, bindError: BindErrorText): Handler {
    (params: map<string, Value>) =>
      if params == map[] then Returned(body()) else RaisedTypeError(bindError("get_current_time", params))
  }

  /** `calculate(expression)` called with `**params`. */
  function CalculateHandler(body: Value -> Value, bindError: BindErrorText): Handler {
    (params: map<string, Value>) =>
      if params.Keys == {"expression"} then Returned(body(params["expression"]))
      else RaisedTypeError(bindError("calculate", params))
  }

  /** `list_files(directory=".")` called with `**params`. */
  function ListFilesHandler(body: Value -> Value, bindError: BindErrorText): Handler {
    (params: map<string, Value>) =>
      if params.Keys <= {"directory"} then
        Returned(body(if "directory" in params then params["directory"] else Str(".")))
      else RaisedTypeError(bindError("list_files", params))
  }

  /** The time tool takes no argument: only the empty mapping binds, and any
      keyword is reported with CPython's binding error. */
  lemma CurrentTimeBinding(body: () -> Value, bindError: BindErrorText, params: map<string, Value>)
    ensures var r := CurrentTimeHandler(body, bindError)(params);
            && (r.Returned? <==> params == map[])
            && (r.Returned? ==> r.value == body())
            && (!r.Returned? ==> r == RaisedTypeError(bindError("get_current_time", params)))
  {
  }

  /** `calculate` binds exactly when `expression` is the only keyword, and then
      evaluates it; a missing or an extra keyword is a `TypeError`. */
  lemma CalculateBinding(body: Value -> Value, bindError: BindErrorText, params: map<string, Value>)
    ensures var r := CalculateHandler(body, bindError)(params);
            && (r.Returned? <==> "expression" in params && |params| == 1)
            && (r.Returned? ==> r.value == body(params["expression"]))
            && (!r.Returned? ==> r == RaisedTypeError(bindError("calculate", params)))
  {
    if "expression" in params && |params| == 1 {
      assert params.Keys == {"expression"} by {
        var rest := params.Keys - {"expression"};
        assert |params.Keys| == |rest| + 1;
      }
    }
  }

  /** `list_files` binds when no keyword other than `directory` is given, and
      lists the current directory when `directory` is absent. */
  lemma ListFilesBinding(body: Value -> Value, bindError: BindErrorText, params: map<string, Value>)
    ensures var r := ListFilesHandler(body, bindError)(params);
            && (r.Returned? <==> forall key | key in params :: key == "directory")
            && (r.Returned? && "directory" in params ==> r.value == body(params["directory"]))
            && (r.Returned? && "directory" !in params ==> r.value == body(Str(".")))
            && (!r.Returned? ==> r == RaisedTypeError(bindError("list_files", params)))
  {
  }

  const BuiltinNames: seq<string> := ["get_current_time", "calculate", "list_files"]

  const CurrentTimeDescription := "Get the current date and time in the server's timezone."
  const CalculateDescription :=
    "Evaluate a mathematical expression and return the result. Supports basic arithmetic operations (+, -, *, /, **, %)."
  const ListFilesDescription := "List all files and directories in the specified directory path."

  const CurrentTimeSchema: Value :=
    Obj(map["type" := Str("object"), "properties" := Obj(map[]), "required" := Arr([])])
  const CalculateSchema: Value :=
    Obj(map[
      "type" := Str("object"),
      "properties" := Obj(map["expression" := Obj(map[
        "type" := Str("string"),
        "description" := Str("The mathematical expression to evaluate (e.g., '2 + 2', '10 * 5', '2 ** 8')")])]),
      "required" := Arr([Str("expression")])])
  const ListFilesSchema: Value :=
    Obj(map[
      "type" := Str("object"),
      "properties" := Obj(map["directory" := Obj(map[
        "type" := Str("string"),
        "description" := Str("The directory path to list files from. Defaults to current directory."),
        "default" := Str(".")])]),
      "required" := Arr([])])

  /** The catalog the registry advertises once the module is loaded. */
  const BuiltinCatalog: seq<Descriptor> := [
    Descriptor("get_current_time", CurrentTimeDescription, CurrentTimeSchema),
    Descriptor("calculate", CalculateDescription, CalculateSchema),
    Descriptor("list_files", ListFilesDescription, ListFilesSchema)]

  /** The table the module holds once loaded, the handlers bound from the given bodies. */
  function BuiltinEntries(bodies: ToolBodies, bindError: BindErrorText): map<string, Entry> {
    map[
      "get_current_time" := Entry("get_current_time", CurrentTimeDescription, CurrentTimeSchema,
                                  CurrentTimeHandler(bodies.currentTime, bindError)),
      "calculate" := Entry("calculate", CalculateDescription, CalculateSchema,
                           CalculateHandler(bodies.calculate, bindError)),
      "list_files" := Entry("list_files", ListFilesDescription, ListFilesSchema,
                            ListFilesHandler(bodies.listFiles, bindError))]
  }

  lemma SchemasStoredAsGiven()
    ensures StoredSchema(Some(CurrentTimeSchema)) == CurrentTimeSchema
    ensures StoredSchema(Some(CalculateSchema)) == CalculateSchema
    ensures StoredSchema(Some(ListFilesSchema)) == ListFilesSchema
  {
  }

  /** Three registrations in a row of distinct names, each with a non-empty schema. */
  method RegisterInOrder(first: Entry, second: Entry, third: Entry) returns (registry: ToolRegistry)
    requires first.name != second.name && first.name != third.name && second.name != third.name
    requires Truthy(first.inputSchema) && Truthy(second.inputSchema) && Truthy(third.inputSchema)
    ensures fresh(registry) && registry.Valid()
    ensures registry.order == [first.name, second.name, third.name]
    ensures registry.entries == map[first.name := first, second.name := second, third.name := third]
  {
    registry := new ToolRegistry();
    registry.RegisterNew(first);
    registry.RegisterNew(second);
    registry.RegisterNew(third);
  }

  /** Loading the module: the three decorated definitions register in source order. */
  method LoadTools(bodies: ToolBodies, bindError: BindErrorText) returns (registry: ToolRegistry)
    ensures fresh(registry) && registry.Valid()
    ensures registry.order == BuiltinNames
    ensures registry.entries == BuiltinEntries(bodies, bindError)
  {
    var entries := BuiltinEntries(bodies, bindError);
    assert "type" in CurrentTimeSchema.fields && "type" in CalculateSchema.fields && "type" in ListFilesSchema.fields;
    registry := RegisterInOrder(entries["get_current_time"], entries["calculate"], entries["list_files"]);
  }

  /** After module load, the listing is the three built-in descriptors in source order. */
  lemma BuiltinListing(registry: ToolRegistry, bodies: ToolBodies, bindError: BindErrorText)
    requires registry.Valid()
    requires registry.order == BuiltinNames
    requires registry.entries == BuiltinEntries(bodies, bindError)
    ensures registry.GetToolsList() == BuiltinCatalog
  {
  }
}
