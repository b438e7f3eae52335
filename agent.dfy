/** The file-tool agent: its message history, the tool declarations it
    hands to the model, and the step that answers the first function call
    of a model response by running the matching tool. */
module Agent {
  import opened Text
  import opened Os
  import opened FileTools

  datatype Role = System | User

  /** The `arguments` of a function call once `json.loads` has run on them:
      a JSON object of strings, or text that does not parse. */
  datatype Args = Object(fields: map<string, string>) | Malformed

  /** One entry of the history: a role/content message, or one of the items
      a model response carries in its `output`, or the answer to a call. */
  datatype Message =
    | Chat(role: Role, content: string)
    | AssistantText(parts: seq<string>)                     // type 'message'
    | FunctionCall(name: string, arguments: Args, callId: string)
    | FunctionCallOutput(callId: string, output: ToolResult) // type 'function_call_output'
    | OtherItem(kind: string)                                // e.g. 'reasoning'

  const SystemPrompt := "Eres un asistente útil que habla español, eres muy amable y conciso en tus respuestas."

  /** A declared parameter of a tool: its name and description (every
      parameter is declared with type "string"). */
  datatype Property = Property(name: string, description: string)

  /** A tool declaration as handed to the model: a function tool with an
      object schema of string properties, some of them required. */
  datatype ToolDef = ToolDef(name: string, description: string, properties: seq<Property>, required: seq<string>)

  function PropertyNames(props: seq<Property>): seq<string> {
    seq(|props|, i requires 0 <= i < |props| => props[i].name)
  }

  /** The declarations `setup_tools` builds, one per tool. */
  const ListFilesDecl := ToolDef("list_files_in_dir",
    "Lista los archivos que existen en un directorio dado (por defecto es el directorio actual)",
    [Property("directory", "Directorio para listar (opcional). Por defecto es el directorio actual")],
    [])
  const ReadFileDecl := ToolDef("read_file",
    "Lee el contenido de un archivo en una ruta especificada",
    [Property("path", "La ruta del archivo a leer")],
    ["path"])
  const EditFileDecl := ToolDef("edit_file",
    "Edita el contenido de un archivo reemplazando previous_text por new_text. Crea el archivo si no existe.",
    [Property("path", "La ruta del archivo a editar"),
     Property("previous_text", "El texto que se va a buscar para reemplazar (puede ser vacío para archivos nuevos)"),
     Property("new_text", "El texto que reemplazará a previous_text (o el texto para un archivo nuevo)")],
    ["path", "new_text"])

  /** The tool list of `setup_tools`. Its names are distinct and every
      required parameter is a declared one. */
  function Registry(): (tools: seq<ToolDef>)
    ensures |tools| == 3
    ensures forall i, j :: 0 <= i < j < |tools| ==> tools[i].name != tools[j].name
    ensures forall i, n :: 0 <= i < |tools| && n in tools[i].required ==> n in PropertyNames(tools[i].properties)
  {
    assert PropertyNames(ReadFileDecl.properties) == ["path"];
    assert PropertyNames(EditFileDecl.properties) == ["path", "previous_text", "new_text"];
    [ListFilesDecl, ReadFileDecl, EditFileDecl]
  }

  /** The model may send arguments that the declaration allows: only
      declared properties, every required one present. */
  predicate SchemaAccepts(t: ToolDef, args: map<string, string>) {
    (forall n :: n in args ==> n in PropertyNames(t.properties)) &&
    (forall n :: n in t.required ==> n in args)
  }

  /** A parameter of the Python method behind a tool, and whether it has a
      default value. */
  datatype Param = Param(name: string, hasDefault: bool)

  /** The Python signatures of the tool methods. `edit_file` gives
      `previous_text` no default, although its declaration does not
      require it. */
  function Signature(tool: string): seq<Param> {
    if tool == "list_files_in_dir" then [Param("directory", true)]
    else if tool == "read_file" then [Param("path", false)]
    else if tool == "edit_file" then [Param("path", false), Param("new_text", false), Param("previous_text", false)]
    else []
  }

  function ParamNames(sig: seq<Param>): seq<string> {
    seq(|sig|, i requires 0 <= i < |sig| => sig[i].name)
  }

  /** `f(**args)` binds: every key names a parameter and every parameter
      without a default gets a value; otherwise Python raises `TypeError`. */
  predicate Binds(sig: seq<Param>, args: map<string, string>) {
    (forall n :: n in args ==> n in ParamNames(sig)) &&
    (forall i :: 0 <= i < |sig| && !sig[i].hasDefault ==> sig[i].name in args)
  }

  /** Binding to `read_file` supplies `path`. */
  lemma ReadFileBinding(args: map<string, string>)
    requires Binds(Signature("read_file"), args)
    ensures "path" in args
  {
    var s := Signature("read_file");
    assert s[0].name == "path" && !s[0].hasDefault;
  }

  /** Binding to `edit_file` supplies all three of its parameters. */
  lemma EditFileBinding(args: map<string, string>)
    requires Binds(Signature("edit_file"), args)
    ensures "path" in args && "new_text" in args && "previous_text" in args
  {
    var s := Signature("edit_file");
    assert s[0].name == "path" && !s[0].hasDefault;
    assert s[1].name == "new_text" && !s[1].hasDefault;
    assert s[2].name == "previous_text" && !s[2].hasDefault;
  }

  function Lookup(args: map<string, string>, key: string, default: string): string {
    if key in args then args[key] else default
  }

  predicate IsTool(name: string) {
    name == "list_files_in_dir" || name == "read_file" || name == "edit_file"
  }

  function UnknownToolMessage(name: string): string {
    "Función desconocida: " + name
  }

  /** Exceptions that escape the dispatch step uncaught: `json.loads`
      rejecting the arguments, and `TypeError` from `**arguments`. */
  datatype Fault = MalformedArguments | BadArguments

  /** What running one function call does: raise, or give the tool's
      result and the file system after it. */
  datatype Invocation = Threw(fault: Fault) | Ran(fs: FileSystem, result: ToolResult)

  /** Running the function call `name(arguments)` against `fs`: parse the
      arguments, pick the tool by name, bind and run it; an unknown name is
      answered with an error text. Only `edit_file` changes the file
      system. */
  function Invoke(fs: FileSystem, name: string, arguments: Args): (r: Invocation)
    ensures r.Threw? <==> arguments.Malformed? || (IsTool(name) && !Binds(Signature(name), arguments.fields))
    ensures r.Ran? && name != "edit_file" ==> r.fs == fs
    ensures r.Ran? && !IsTool(name) ==> r.result == Str(UnknownToolMessage(name))
    ensures r.Ran? && name == "list_files_in_dir" ==>
              r.result == ListFilesInDir(fs, Lookup(arguments.fields, "directory", "."))
    ensures r.Ran? && name == "read_file" ==>
              "path" in arguments.fields && r.result == Str(ReadFile(fs, arguments.fields["path"]))
    ensures r.Ran? && name == "edit_file" ==>
              var args := arguments.fields;
              "path" in args && "new_text" in args && "previous_text" in args &&
              var e := Edit(fs, args["path"], args["new_text"], args["previous_text"]);
              r.fs == e.fs && r.result == Str(EditMessage(args["path"], args["previous_text"], e.status))
  {
    match arguments
    case Malformed => Threw(MalformedArguments)
    case Object(args) =>
      if !IsTool(name) then Ran(fs, Str(UnknownToolMessage(name)))
      else if !Binds(Signature(name), args) then Threw(BadArguments)
      else if name == "list_files_in_dir" then Ran(fs, ListFilesInDir(fs, Lookup(args, "directory", ".")))
      else if name == "read_file" then
        ReadFileBinding(args);
        Ran(fs, Str(ReadFile(fs, args["path"])))
      else
        EditFileBinding(args);
        var e := Edit(fs, args["path"], args["new_text"], args["previous_text"]);
        Ran(e.fs, Str(EditMessage(args["path"], args["previous_text"], e.status)))
  }

  /** The index of the first function call among `items`, or `|items|` when
      there is none. */
  function FirstCall(items: seq<Message>): (k: nat)
    ensures k <= |items|
    ensures forall j :: 0 <= j < k ==> !items[j].FunctionCall?
    ensures k < |items| ==> items[k].FunctionCall?
    ensures k < |items| <==> exists j :: 0 <= j < |items| && items[j].FunctionCall?
    decreases |items|
  {
    if |items| == 0 then 0
    else if items[0].FunctionCall? then 0
    else 1 + FirstCall(items[1..])
  }

  /** What `process_response` does: return whether a tool was called, or
      let an exception escape. */
  datatype Outcome = Returned(calledTool: bool) | Propagated(fault: Fault)

  /** What running one function call gives back to `process_response`: the
      exception it raises, or the tool's result. */
  datatype Answer = Raised(fault: Fault) | Answered(result: ToolResult)

  class Agent {
    var messages: seq<Message>
    var tools: seq<ToolDef>
    /** The file system the tools act on. */
    var fs: FileSystem

    /** The history starts with the system message, and the declarations
        never change. */
    ghost predicate Valid()
      reads this
    {
      |messages| >= 1 && messages[0] == Chat(System, SystemPrompt) && tools == Registry()
    }

    /** `__init__`: the three declarations, and a history holding only the
        system message. */
    constructor (world: FileSystem)
      ensures Valid()
      ensures messages == [Chat(System, SystemPrompt)] && tools == Registry() && fs == world
    {
      tools := Registry();
      messages := [Chat(System, SystemPrompt)];
      fs := world;
    }

    /** The tool `edit_file`, changing the file system in place. */
    method EditFile(path: string, newText: string, previousText: string) returns (msg: string)
      modifies this`fs
      ensures var e := Edit(old(fs), path, newText, previousText);
              fs == e.fs && msg == EditMessage(path, previousText, e.status)
    {
      var existed := Exists(fs, path);
      var content;
      if existed && previousText != "" {
        content := ReadFile(fs, path);
        if !Contains(content, previousText) {
          return EditMessage(path, previousText, Mismatch);
        }
        content := ReplaceAll(content, previousText, newText);
      } else {
        var dirName := DirName(path);
        if dirName != "" {
          var made := MakeDirs(fs, dirName);
          fs := made.fs;
          if !made.ok {
            return EditMessage(path, previousText, Failed);
          }
        }
        content := newText;
      }
      var written := Write(fs, path, content);
      if !written.ok {
        return EditMessage(path, previousText, Failed);
      }
      fs := written.fs;
      var action := if existed && previousText != "" then Edited else Created;
      msg := EditMessage(path, previousText, action);
    }

    /** One function call of a response: parse its arguments, pick the
        tool by name, bind the arguments to it and run it. An unknown name
        is answered with an error text; malformed arguments and a failed
        binding raise. */
    method CallFunction(name: string, arguments: Args) returns (answer: Answer)
      modifies this`fs
      ensures match Invoke(old(fs), name, arguments)
              case Threw(f) => answer == Raised(f) && fs == old(fs)
              case Ran(after, result) => answer == Answered(result) && fs == after
    {
      if arguments.Malformed? {
        return Raised(MalformedArguments);
      }
      var args := arguments.fields;
      if name == "list_files_in_dir" {
        if !Binds(Signature(name), args) {
          return Raised(BadArguments);
        }
        answer := Answered(ListFilesInDir(fs, Lookup(args, "directory", ".")));
      } else if name == "read_file" {
        if !Binds(Signature(name), args) {
          return Raised(BadArguments);
        }
        ReadFileBinding(args);
        answer := Answered(Str(ReadFile(fs, args["path"])));
      } else if name == "edit_file" {
        if !Binds(Signature(name), args) {
          return Raised(BadArguments);
        }
        EditFileBinding(args);
        var text := EditFile(args["path"], args["new_text"], args["previous_text"]);
        answer := Answered(Str(text));
      } else {
        answer := Answered(Str(UnknownToolMessage(name)));
      }
    }

    /** `process_response`: append every output item to the history, then
        answer the first function call, if any, with one
        `function_call_output` carrying its `call_id`, and report whether a
        tool was called. Nothing earlier in the history changes. */
    method ProcessResponse(output: seq<Message>) returns (r: Outcome)
      requires Valid()
      modifies this
      ensures Valid() && tools == old(tools)
      ensures var k := FirstCall(output);
              if k == |output| then
                messages == old(messages) + output && fs == old(fs) && r == Returned(false)
              else
                var call := output[k];
                match Invoke(old(fs), call.name, call.arguments)
                case Threw(f) =>
                  messages == old(messages) + output && fs == old(fs) && r == Propagated(f)
                case Ran(after, result) =>
                  messages == old(messages) + output + [FunctionCallOutput(call.callId, result)] &&
                  fs == after && r == Returned(true)
    {
      messages := messages + output;
      var i := 0;
      while i < |output|
        invariant 0 <= i <= |output|
        invariant forall j :: 0 <= j < i ==> !output[j].FunctionCall?
        invariant messages == old(messages) + output && fs == old(fs) && tools == old(tools)
      {
        var item := output[i];
        if item.FunctionCall? {
          assert FirstCall(output) == i;
          var answer := CallFunction(item.name, item.arguments);
          if answer.Raised? {
            return Propagated(answer.fault);
          }
          messages := messages + [FunctionCallOutput(item.callId, answer.result)];
          return Returned(true);
        }
        // An item of type 'message' is only printed.
        i := i + 1;
      }
      return Returned(false);
    }
  }

  // ---------------------------------------------------------------------
  // Properties of the declarations and of dispatch

  /** The declarations name the three tools, in order, and require `path`
      of `read_file` and `path` and `new_text` of `edit_file`. */
  lemma RegistryNamesAndRequirements()
    ensures var t := Registry();
            t[0].name == "list_files_in_dir" && t[1].name == "read_file" && t[2].name == "edit_file" &&
            t[0].required == [] && t[1].required == ["path"] && t[2].required == ["path", "new_text"]
  {
  }

  /** Arguments the declarations allow always bind to `list_files_in_dir`
      and `read_file`; for `edit_file` they bind exactly when
      `previous_text` is present, so an allowed call without it raises. */
  lemma SchemaVersusSignature(i: int, args: map<string, string>)
    requires 0 <= i < 3
    requires SchemaAccepts(Registry()[i], args)
    ensures var name := Registry()[i].name;
            Binds(Signature(name), args) <==> (name != "edit_file" || "previous_text" in args)
  {
    var t := Registry()[i];
    if i == 0 {
      assert PropertyNames(t.properties) == ["directory"];
      assert ParamNames(Signature(t.name)) == ["directory"];
    } else if i == 1 {
      assert PropertyNames(t.properties) == ["path"];
      assert ParamNames(Signature(t.name)) == ["path"];
    } else {
      var s := Signature(t.name);
      assert PropertyNames(t.properties) == ["path", "previous_text", "new_text"];
      assert ParamNames(s) == ["path", "new_text", "previous_text"];
      assert t.required[0] == s[0].name && t.required[1] == s[1].name;
      assert s[2].name == "previous_text" && !s[2].hasDefault;
    }
  }

  /** The call the declaration invites for a new file, `edit_file` with
      `path` and `new_text` only, escapes `process_response` as a
      `TypeError`. */
  lemma EditWithoutPreviousTextRaises(fs: FileSystem, path: string, newText: string)
    ensures Invoke(fs, "edit_file", Object(map["path" := path, "new_text" := newText])) == Threw(BadArguments)
  {
    var s := Signature("edit_file");
    assert s[2].name == "previous_text" && !s[2].hasDefault;
    assert "previous_text" !in map["path" := path, "new_text" := newText];
  }

  /** Only the first function call of a response is answered: with two
      calls, the one appended answer carries the first call's `call_id`. */
  lemma OnlyFirstCallAnswered(fs: FileSystem, before: seq<Message>, after: seq<Message>,
                              first: Message, second: Message)
    requires first.FunctionCall? && second.FunctionCall?
    requires forall j :: 0 <= j < |before| ==> !before[j].FunctionCall?
    ensures var output := before + [first] + after + [second];
            FirstCall(output) == |before| && output[FirstCall(output)] == first
  {
    var output := before + [first] + after + [second];
    assert output[|before|] == first;
    assert forall j :: 0 <= j < |before| ==> output[j] == before[j];
  }
}
