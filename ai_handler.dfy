/**
 * The tool-calling turn of src/aiHandler.js: the table of tool handlers
 * (`availableFunctions`), `processMessage` with its capped loop over the
 * model's function calls and its per-user history, and `clearHistory`.
 *
 * The Gemini chat is a script: the k-th `sendMessage` of a turn receives
 * `script(k)`, the model's reply parts or the error the call threw. The
 * Drive and Linear client functions are an oracle from the call a handler
 * makes (its positional arguments) to what the awaited call returned or threw.
 */
module AiHandler {
  import opened Base
  import opened JsStrings
  import opened JsArrays
  import LinearOps
  import LinearResolve

  // ---------------------------------------------------------------- values and arguments

  /** A JSON value as tool arguments carry it (nested objects are not modelled). */
  datatype Value = Undefined | Null | Bool(b: bool) | Num(n: int) | Str(s: string) | Arr(items: seq<Value>)

  /** JavaScript truthiness. */
  predicate Truthy(v: Value) {
    match v
    case Undefined => false
    case Null => false
    case Bool(b) => b
    case Num(n) => n != 0
    case Str(s) => s != ""
    case Arr(_) => true
  }

  /** The `args` object of a call. */
  type Args = map<string, Value>

  /** `args.key`: `undefined` when the key is missing. */
  function Get(args: Args, key: string): Value {
    if key in args then args[key] else Undefined
  }

  /** `v ?? d`. */
  function OrElse(v: Value, d: Value): Value {
    if v.Undefined? || v.Null? then d else v
  }

  // ---------------------------------------------------------------- the tool table

  datatype Tool =
    | ListDriveFiles | SearchDriveFiles | CreateDriveFolder | GetFileMetadata | ShareDriveFile | DeleteDriveFile
    | CreateDoc | ReadDoc | WriteToDoc | ReplaceTextInDoc | SearchDocs | ListDocs
    | ListLinearTeams | ListLinearProjects | ListLinearIssueStates | SearchLinearIssues | GetLinearIssue
    | CreateLinearIssue | UpdateLinearIssueStatus

  /** The key of each tool in `availableFunctions`. */
  function ToolName(t: Tool): string {
    match t
    case ListDriveFiles => "list_google_drive_files"
    case SearchDriveFiles => "search_google_drive_files"
    case CreateDriveFolder => "create_google_drive_folder"
    case GetFileMetadata => "get_file_metadata"
    case ShareDriveFile => "share_google_drive_file"
    case DeleteDriveFile => "delete_google_drive_file"
    case CreateDoc => "create_google_doc"
    case ReadDoc => "read_google_doc"
    case WriteToDoc => "write_to_google_doc"
    case ReplaceTextInDoc => "replace_text_in_google_doc"
    case SearchDocs => "search_google_docs"
    case ListDocs => "list_google_docs"
    case ListLinearTeams => "list_linear_teams"
    case ListLinearProjects => "list_linear_projects"
    case ListLinearIssueStates => "list_linear_issue_states"
    case SearchLinearIssues => "search_linear_issues"
    case GetLinearIssue => "get_linear_issue"
    case CreateLinearIssue => "create_linear_issue"
    case UpdateLinearIssueStatus => "update_linear_issue_status"
  }

  /** The tools in the order the object literal declares them, which is the order of `Object.keys`. */
  const Tools: seq<Tool> := [
    ListDriveFiles, SearchDriveFiles, CreateDriveFolder, GetFileMetadata, ShareDriveFile, DeleteDriveFile,
    CreateDoc, ReadDoc, WriteToDoc, ReplaceTextInDoc, SearchDocs, ListDocs,
    ListLinearTeams, ListLinearProjects, ListLinearIssueStates, SearchLinearIssues, GetLinearIssue,
    CreateLinearIssue, UpdateLinearIssueStatus]

  /** `Object.keys(availableFunctions)`. */
  function ToolNames(): (names: seq<string>)
    ensures |names| == |Tools|
    ensures forall i :: 0 <= i < |Tools| ==> names[i] == ToolName(Tools[i])
  {
    NamesOf(Tools)
  }

  /** The keys of a table of tools, in order. */
  function NamesOf(tools: seq<Tool>): (names: seq<string>)
    ensures |names| == |tools|
    ensures forall i :: 0 <= i < |tools| ==> names[i] == ToolName(tools[i])
  {
    seq(|tools|, i requires 0 <= i < |tools| => ToolName(tools[i]))
  }

  /** Every tool is in the table. */
  lemma ToolsComplete(t: Tool)
    ensures t in Tools
  {
  }

  /** The own-property lookup `Object.hasOwn(availableFunctions, name)`. */
  function Lookup(tools: seq<Tool>, name: string): Option<Tool> {
    LookupFrom(tools, ToolName, name, 0)
  }

  /** The first tool at or after position `i` of the table whose name, under `nameOf`, is `name`. */
  function LookupFrom(tools: seq<Tool>, nameOf: Tool -> string, name: string, i: nat): Option<Tool>
    requires i <= |tools|
    decreases |tools| - i
  {
    if i == |tools| then None
    else if nameOf(tools[i]) == name then Some(tools[i])
    else LookupFrom(tools, nameOf, name, i + 1)
  }

  lemma {:induction false} LookupFromIff(tools: seq<Tool>, nameOf: Tool -> string, name: string, i: nat)
    requires i <= |tools|
    ensures LookupFrom(tools, nameOf, name, i).Some? <==> exists j :: i <= j < |tools| && nameOf(tools[j]) == name
    ensures LookupFrom(tools, nameOf, name, i).Some? ==> nameOf(LookupFrom(tools, nameOf, name, i).value) == name
    decreases |tools| - i
  {
    if i < |tools| {
      LookupFromIff(tools, nameOf, name, i + 1);
      if exists j :: i <= j < |tools| && nameOf(tools[j]) == name {
        var j :| i <= j < |tools| && nameOf(tools[j]) == name;
        if j > i {
          assert i + 1 <= j;
        }
      }
    }
  }

  /** Different tools have different names. */
  lemma ToolNameInjective(a: Tool, b: Tool)
    requires ToolName(a) == ToolName(b)
    ensures a == b
  {
  }

  /** The registered names are pairwise distinct, and the i-th of them finds the i-th tool. */
  lemma ToolNamesDistinct()
    ensures forall i, j :: 0 <= i < j < |ToolNames()| ==> ToolNames()[i] != ToolNames()[j]
    ensures forall i :: 0 <= i < |ToolNames()| ==> Lookup(Tools, ToolNames()[i]) == Some(Tools[i])
  {
    forall i, j | 0 <= i < j < |ToolNames()| ensures ToolNames()[i] != ToolNames()[j] {
      if ToolNames()[i] == ToolNames()[j] {
        ToolNameInjective(Tools[i], Tools[j]);
        assert false;
      }
    }
    forall i | 0 <= i < |ToolNames()| ensures Lookup(Tools, ToolNames()[i]) == Some(Tools[i]) {
      LookupOfToolName(Tools[i]);
    }
  }

  /** Each tool's own name finds that tool. */
  lemma LookupOfToolName(t: Tool)
    ensures Lookup(Tools, ToolName(t)) == Some(t)
  {
    ToolsComplete(t);
    var i :| 0 <= i < |Tools| && Tools[i] == t;
    LookupFromIff(Tools, ToolName, ToolName(t), 0);
    ToolNameInjective(Lookup(Tools, ToolName(t)).value, t);
  }

  /** A name finds a tool exactly when it is one of the registered names, and then the tool of that name. */
  lemma LookupIff(name: string)
    ensures Lookup(Tools, name).Some? <==> name in ToolNames()
    ensures Lookup(Tools, name).Some? ==> ToolName(Lookup(Tools, name).value) == name
  {
    LookupFromIff(Tools, ToolName, name, 0);
    if name in ToolNames() {
      var i :| 0 <= i < |ToolNames()| && ToolNames()[i] == name;
      assert ToolName(Tools[i]) == name;
    }
    if Lookup(Tools, name).Some? {
      var j :| 0 <= j < |Tools| && ToolName(Tools[j]) == name;
      assert ToolNames()[j] == name;
    }
  }

  // ---------------------------------------------------------------- the lookup as written

  /** The properties every object literal inherits from `Object.prototype`. */
  const ObjectPrototypeNames: seq<string> := [
    "constructor", "__defineGetter__", "__defineSetter__", "hasOwnProperty", "__lookupGetter__",
    "__lookupSetter__", "isPrototypeOf", "propertyIsEnumerable", "toString", "valueOf", "__proto__",
    "toLocaleString"]

  /** What `availableFunctions[name]` yields: a tool, an inherited member, or `undefined`. */
  datatype Binding = Own(tool: Tool) | Inherited(name: string) | Missing

  /** `availableFunctions[functionName]` as written: the lookup walks the prototype chain. */
  function LookupAsWritten(name: string): Binding {
    match Lookup(Tools, name)
    case Some(t) => Own(t)
    case None => if name in ObjectPrototypeNames then Inherited(name) else Missing
  }

  /** The guard `if (!fn)` as written fires only when the lookup yields `undefined`. */
  predicate GuardFiresAsWritten(name: string) {
    LookupAsWritten(name).Missing?
  }

  /**
   * An inherited name such as "toString", "valueOf" or "hasOwnProperty" is
   * not a registered tool, yet the guard as written lets it through: the
   * inherited member is called with the arguments instead of the turn
   * reporting an unknown function.
   */
  lemma InheritedNameBypassesGuard(name: string)
    requires name in ObjectPrototypeNames
    ensures name !in ToolNames()
    ensures !GuardFiresAsWritten(name)
  {
    if name in ToolNames() {
      var i :| 0 <= i < |ToolNames()| && ToolNames()[i] == name;
      ToolNameNotInherited(Tools[i]);
      assert false;
    }
    LookupIff(name);
  }

  /** No registered name is one of the inherited ones. */
  lemma ToolNameNotInherited(t: Tool)
    ensures ToolName(t) !in ObjectPrototypeNames
  {
  }

  /** With the own-property lookup the turn uses, the guard fires for exactly the unregistered names. */
  lemma OwnLookupGuard(name: string)
    ensures Lookup(Tools, name).None? <==> name !in ToolNames()
    ensures name !in ObjectPrototypeNames ==> (GuardFiresAsWritten(name) <==> Lookup(Tools, name).None?)
  {
    LookupIff(name);
  }

  // ---------------------------------------------------------------- handlers

  /** A reply sent back to the model as a function response. */
  datatype ToolResult = ToolResult(success: bool, message: string, fields: Args)

  /** A call of a Drive or Linear client function, with its positional arguments as passed. */
  datatype ClientCall =
    | ListFiles(maxResults: Value)
    | SearchFiles(query: Value)
    | CreateFolder(folderName: Value, parentFolderId: Value)
    | FileMetadata(fileId: Value)
    | ShareFile(fileId: Value, email: Value, role: Value)
    | DeleteFile(fileId: Value)
    | NewDoc(title: Value)
    | ReadDocument(documentId: Value)
    | WriteDocument(documentId: Value, text: Value, location: Value)
    | ReplaceText(documentId: Value, searchText: Value, replacementText: Value)
    | FindDocs(query: Value)
    | ListDocuments(maxResults: Value)
    | ListTeams
    | ListProjects(teamId: Value)
    | ListIssueStates(teamId: Value)
    | SearchIssues(query: Value, first: Value)
    | GetIssue(issueIdOrKey: Value)
    | CreateIssue(title: Value, description: Value, teamId: Value, projectId: Value, stateId: Value,
                  assigneeId: Value, labelIds: Value)
    | UpdateIssueStatus(issueIdOrKey: Value, stateId: Value)

  /** What a handler does with its `args`: answer at once, or await one client call. */
  datatype Action = Respond(result: ToolResult) | Invoke(call: ClientCall)

  const DeleteConfirmation :=
    "Delete is a destructive action. Reply again with: `delete <fileId> confirm` (or provide confirm: true) to proceed."

  /**
   * The handler of each tool. `create_linear_issue` passes its arguments in
   * the order the handler writes them, which is not the order `createIssue`
   * declares: the call's title is `args.teamId`, its description `args.title`
   * and its team `args.description ?? null`.
   */
  function Handle(t: Tool, args: Args): Action {
    match t
    case ListDriveFiles => Invoke(ListFiles(Get(args, "maxResults")))
    case SearchDriveFiles => Invoke(SearchFiles(Get(args, "query")))
    case CreateDriveFolder => Invoke(CreateFolder(Get(args, "folderName"), Get(args, "parentFolderId")))
    case GetFileMetadata => Invoke(FileMetadata(Get(args, "fileId")))
    case ShareDriveFile => Invoke(ShareFile(Get(args, "fileId"), Get(args, "email"), Get(args, "role")))
    case DeleteDriveFile =>
      if !Truthy(Get(args, "confirm")) then Respond(ToolResult(false, DeleteConfirmation, map[]))
      else Invoke(DeleteFile(Get(args, "fileId")))
    case CreateDoc => Invoke(NewDoc(Get(args, "title")))
    case ReadDoc => Invoke(ReadDocument(Get(args, "documentId")))
    case WriteToDoc =>
      Invoke(WriteDocument(Get(args, "documentId"), Get(args, "text"), OrElse(Get(args, "location"), Str("end"))))
    case ReplaceTextInDoc =>
      Invoke(ReplaceText(Get(args, "documentId"), Get(args, "searchText"), Get(args, "replacementText")))
    case SearchDocs => Invoke(FindDocs(Get(args, "query")))
    case ListDocs => Invoke(ListDocuments(Get(args, "maxResults")))
    case ListLinearTeams => Invoke(ListTeams)
    case ListLinearProjects => Invoke(ListProjects(OrElse(Get(args, "teamId"), Null)))
    case ListLinearIssueStates => Invoke(ListIssueStates(Get(args, "teamId")))
    case SearchLinearIssues => Invoke(SearchIssues(Get(args, "query"), OrElse(Get(args, "first"), Num(10))))
    case GetLinearIssue => Invoke(GetIssue(Get(args, "issueIdOrKey")))
    case CreateLinearIssue =>
      Invoke(CreateIssue(Get(args, "teamId"), Get(args, "title"), OrElse(Get(args, "description"), Null),
                         OrElse(Get(args, "projectId"), Null), OrElse(Get(args, "stateId"), Null),
                         OrElse(Get(args, "assigneeId"), Null), OrElse(Get(args, "labelIds"), Null)))
    case UpdateLinearIssueStatus => Invoke(UpdateIssueStatus(Get(args, "issueIdOrKey"), Get(args, "stateId")))
  }

  /**
   * The delete guard: without a truthy `confirm` the handler answers with the
   * confirmation text and calls nothing; with one it deletes the given file.
   */
  lemma DeleteGuard(args: Args)
    ensures !Truthy(Get(args, "confirm")) <==> Handle(DeleteDriveFile, args).Respond?
    ensures Handle(DeleteDriveFile, args).Respond? ==>
              Handle(DeleteDriveFile, args).result == ToolResult(false, DeleteConfirmation, map[])
    ensures Handle(DeleteDriveFile, args).Invoke? ==> Handle(DeleteDriveFile, args).call == DeleteFile(Get(args, "fileId"))
  {
  }

  /** Only the delete handler ever answers by itself, and a client deletion only comes from a confirmed request. */
  lemma DeleteOnlyWhenConfirmed(t: Tool, args: Args)
    ensures Handle(t, args).Respond? ==> t == DeleteDriveFile
    ensures Handle(t, args).Invoke? && Handle(t, args).call.DeleteFile? ==>
              t == DeleteDriveFile && Truthy(Get(args, "confirm"))
  {
  }

  /** The defaults the handlers apply: the write location, the project team and the page size are never left missing. */
  lemma HandlerDefaults(args: Args)
    ensures var c := Handle(WriteToDoc, args).call; !c.location.Undefined? && !c.location.Null?
    ensures !Get(args, "location").Undefined? && !Get(args, "location").Null? ==>
              Handle(WriteToDoc, args).call.location == Get(args, "location")
    ensures "location" !in args ==> Handle(WriteToDoc, args).call.location == Str("end")
    ensures "first" !in args ==> Handle(SearchLinearIssues, args).call.first == Num(10)
    ensures !Handle(ListLinearProjects, args).call.teamId.Undefined?
  {
  }

  /** The string a client function sees in a string parameter: `null` and `undefined` read as absent. */
  function StringOf(v: Value): string {
    if v.Str? then v.s else ""
  }

  /**
   * How the rotated `create_linear_issue` arguments play out in `createIssue`
   * of src/linear.js: with no `description` in the arguments the team is
   * `null`, so the call is refused with "Team not found" and sends no
   * mutation, whatever team the model named.
   */
  lemma RotatedCreateIssueArgs(args: Args, teams: Result<seq<LinearResolve.Team>>,
                               create: LinearOps.IssueInput -> Result<LinearOps.CreateReply>)
    requires "description" !in args
    ensures var c := Handle(CreateLinearIssue, args).call;
            c.title == Get(args, "teamId") && c.description == Get(args, "title") && c.teamId == Null &&
            LinearOps.CreateIssue(StringOf(c.title), StringOf(c.description), StringOf(c.teamId), StringOf(c.projectId),
                                  StringOf(c.stateId), StringOf(c.assigneeId), None, teams, create) ==
            LinearOps.Outcome(Refused(LinearOps.TeamNotFound), None)
  {
  }

  /** The result of the unknown-function guard. */
  function UnknownFunction(tools: seq<Tool>, name: string): ToolResult {
    ToolResult(false, "Unknown function: " + name + ". Available: " + Join(NamesOf(tools), ", "), map[])
  }

  /** The guard's message names the unknown function and lists every registered name. */
  lemma UnknownFunctionMessage(name: string)
    ensures var m := UnknownFunction(Tools, name).message;
            !UnknownFunction(Tools, name).success &&
            m[..|"Unknown function: " + name|] == "Unknown function: " + name &&
            forall k :: 0 <= k < |ToolNames()| ==> Includes(m, ToolNames()[k])
  {
    var m := UnknownFunction(Tools, name).message;
    var prefix := "Unknown function: " + name + ". Available: ";
    assert m == prefix + Join(ToolNames(), ", ");
    forall k | 0 <= k < |ToolNames()| ensures Includes(m, ToolNames()[k]) {
      JoinIncludesEach(ToolNames(), ", ", k);
      IncludesInContext(prefix, Join(ToolNames(), ", "), "", ToolNames()[k]);
      assert prefix + Join(ToolNames(), ", ") + "" == m;
    }
  }

  // ---------------------------------------------------------------- chat contents

  datatype FunctionCall = FunctionCall(name: string, args: Option<Args>)

  datatype Part = TextPart(text: string) | CallPart(call: FunctionCall) | ResponsePart(name: string, response: ToolResult)

  datatype Role = UserRole | ModelRole | FunctionRole

  datatype Turn = Turn(role: Role, parts: seq<Part>)

  /** `response.functionCalls()`: the calls among the reply parts, in order (an empty list is `undefined`). */
  function Calls(parts: seq<Part>): (calls: seq<FunctionCall>)
    ensures |calls| <= |parts|
  {
    if parts == [] then []
    else (if parts[0].CallPart? then [parts[0].call] else []) + Calls(parts[1..])
  }

  /** The calls are exactly the call parts of the reply. */
  lemma {:induction false} CallsAreCallParts(parts: seq<Part>)
    ensures forall c :: c in Calls(parts) <==> CallPart(c) in parts
  {
    if parts != [] {
      CallsAreCallParts(parts[1..]);
      assert parts == [parts[0]] + parts[1..];
    }
  }

  /** `response.text()`: the text parts, concatenated. */
  function TextOf(parts: seq<Part>): string {
    if parts == [] then "" else (if parts[0].TextPart? then parts[0].text else "") + TextOf(parts[1..])
  }

  /** The `call.args || {}` a handler receives. */
  function ArgsOf(call: FunctionCall): Args {
    if call.args.Some? then call.args.value else map[]
  }

  /** The turn sent back with a call's result. */
  function ResponseTurn(name: string, result: ToolResult): Turn {
    Turn(FunctionRole, [ResponsePart(name, result)])
  }

  // ---------------------------------------------------------------- the turn as a function

  /** The state of a turn in flight: sends made, chat history, current reply, and client calls made. */
  datatype Flight = Flight(sent: nat, log: seq<Turn>, response: seq<Part>, invoked: seq<ClientCall>)

  /** One `chat.sendMessage`: the next scripted reply is appended with what was sent, or the send throws. */
  function Send(f: Flight, content: Turn, script: nat -> Result<seq<Part>>): Result<Flight> {
    match script(f.sent)
    case Err(m) => Err(m)
    case Ok(parts) => Ok(Flight(f.sent + 1, f.log + [content, Turn(ModelRole, parts)], parts, f.invoked))
  }

  /** The function response for one call, and the client calls it made (at most one). */
  function Dispatch(tools: seq<Tool>, call: FunctionCall, clients: ClientCall -> Result<ToolResult>)
    : Result<(ToolResult, seq<ClientCall>)>
  {
    match Lookup(tools, call.name)
    case None => Ok((UnknownFunction(tools, call.name), []))
    case Some(t) =>
      match Handle(t, ArgsOf(call))
      case Respond(r) => Ok((r, []))
      case Invoke(c) =>
        match clients(c)
        case Err(m) => Err(m)
        case Ok(r) => Ok((r, [c]))
  }

  /** How a turn answers each call: the function response and the client calls made, or the error thrown. */
  type Dispatcher = FunctionCall -> Result<(ToolResult, seq<ClientCall>)>

  /** The dispatcher of src/aiHandler.js over the given clients. */
  function DispatchWith(tools: seq<Tool>, clients: ClientCall -> Result<ToolResult>): Dispatcher {
    call => Dispatch(tools, call, clients)
  }

  /** One pass of the inner loop: dispatch the call, then send its result. */
  function CallStep(f: Flight, call: FunctionCall, script: nat -> Result<seq<Part>>,
                    dispatch: Dispatcher): Result<Flight> {
    match dispatch(call)
    case Err(m) => Err(m)
    case Ok(d) => Send(f.(invoked := f.invoked + d.1), ResponseTurn(call.name, d.0), script)
  }

  /** The inner `for` loop over a captured batch of calls. */
  function RunBatch(f: Flight, calls: seq<FunctionCall>, script: nat -> Result<seq<Part>>,
                    dispatch: Dispatcher): Result<Flight>
    decreases |calls|
  {
    if calls == [] then Ok(f)
    else match CallStep(f, calls[0], script, dispatch)
      case Err(m) => Err(m)
      case Ok(g) => RunBatch(g, calls[1..], script, dispatch)
  }

  /** Where the outer loop stopped, and the value `toolIterations` had then. */
  datatype LoopEnd = LoopEnd(flight: Flight, counter: nat)

  const MaxToolIterations: nat := 5

  /**
   * The outer `while (response.functionCalls?.() && toolIterations++ < 5)`:
   * the counter is read and incremented only when calls are pending, so it
   * ends at 6 exactly when the cap stops the loop.
   */
  function RunLoop(f: Flight, counter: nat, script: nat -> Result<seq<Part>>,
                   dispatch: Dispatcher): Result<LoopEnd>
    requires counter <= MaxToolIterations
    decreases MaxToolIterations - counter
  {
    var calls := Calls(f.response);
    if calls == [] then Ok(LoopEnd(f, counter))
    else if counter < MaxToolIterations then
      match RunBatch(f, calls, script, dispatch)
      case Err(m) => Err(m)
      case Ok(g) => RunLoop(g, counter + 1, script, dispatch)
    else Ok(LoopEnd(f, counter + 1))
  }

  datatype TurnOutcome = Completed(end: LoopEnd) | Aborted(message: string)

  /** A whole turn from the stored history: the user's message, then the loop. */
  function TurnSpec(stored: seq<Turn>, userMessage: string, script: nat -> Result<seq<Part>>,
                    dispatch: Dispatcher): TurnOutcome {
    match Send(Flight(0, stored, [], []), Turn(UserRole, [TextPart(userMessage)]), script)
    case Err(m) => Aborted(m)
    case Ok(f) =>
      match RunLoop(f, 0, script, dispatch)
      case Err(m) => Aborted(m)
      case Ok(end) => Completed(end)
  }

  /** The `{ success, message }` object `processMessage` and `clearHistory` return. */
  datatype Reply = Reply(success: bool, message: string)

  const ErrorPrefix := "Sorry, I encountered an error: "

  function TurnReply(outcome: TurnOutcome): Reply {
    match outcome
    case Completed(end) => Reply(true, TextOf(end.flight.response))
    case Aborted(m) => Reply(false, ErrorPrefix + m)
  }

  const HistoryLimit: nat := 40

  /** `history.length > 40 ? history.slice(-40) : history`. */
  function Last40(log: seq<Turn>): (r: seq<Turn>)
    ensures |r| <= HistoryLimit && |r| <= |log|
    ensures r == log[|log| - |r|..]
    ensures |log| <= HistoryLimit ==> r == log
    ensures |log| > HistoryLimit ==> |r| == HistoryLimit
  {
    if |log| > HistoryLimit then log[|log| - HistoryLimit..] else log
  }

  /** The history a user's turn starts from: the stored one, or `[]` for a new user. */
  function StoredHistory(h: map<string, seq<Turn>>, userId: string): seq<Turn> {
    if userId in h then h[userId] else []
  }

  /** The map once `if (!conversationHistory[userId]) conversationHistory[userId] = []` has run. */
  function Initialized(h: map<string, seq<Turn>>, userId: string): map<string, seq<Turn>> {
    if userId in h then h else h[userId := []]
  }

  /** The map after a turn: a completed turn stores the last 40 entries of the chat history. */
  function HistoryAfter(h: map<string, seq<Turn>>, userId: string, outcome: TurnOutcome): map<string, seq<Turn>> {
    match outcome
    case Completed(end) => Initialized(h, userId)[userId := Last40(end.flight.log)]
    case Aborted(_) => Initialized(h, userId)
  }

  // ---------------------------------------------------------------- properties of the turn

  /** A send appends exactly what was sent and the model's reply, and consumes one scripted reply. */
  lemma SendAppends(f: Flight, content: Turn, script: nat -> Result<seq<Part>>)
    requires Send(f, content, script).Ok?
    ensures var g := Send(f, content, script).value;
            g.sent == f.sent + 1 && g.log == f.log + [content, Turn(ModelRole, g.response)] &&
            Ok(g.response) == script(f.sent) && g.invoked == f.invoked
  {
  }

  /** The client calls a batch makes: one per registered call whose handler invokes a client. */
  function InvokedBy(calls: seq<FunctionCall>, dispatch: Dispatcher): seq<ClientCall> {
    if calls == [] then []
    else
      var first := match dispatch(calls[0])
        case Ok(d) => d.1
        case Err(_) => [];
      first + InvokedBy(calls[1..], dispatch)
  }

  /** The history entry `{ role: "function", parts: [{ functionResponse: { name, ... } }] }` answering `name`. */
  predicate AnswersCall(t: Turn, name: string) {
    t.role == FunctionRole && |t.parts| == 1 && t.parts[0].ResponsePart? && t.parts[0].name == name
  }

  /**
   * A batch that completes sends exactly one message per call, in the order
   * of the batch: the k-th function turn added to the history answers the
   * k-th call, the reply at the end is the model's answer to the last call,
   * and the client calls are those of the batch's handlers, in order.
   */
  lemma {:induction false} BatchInOrder(f: Flight, calls: seq<FunctionCall>, script: nat -> Result<seq<Part>>,
                                        dispatch: Dispatcher)
    requires RunBatch(f, calls, script, dispatch).Ok?
    ensures var g := RunBatch(f, calls, script, dispatch).value;
            g.sent == f.sent + |calls| &&
            |g.log| == |f.log| + 2 * |calls| && g.log[..|f.log|] == f.log &&
            (forall k :: 0 <= k < |calls| ==> AnswersCall(g.log[|f.log| + 2 * k], calls[k].name)) &&
            (calls != [] ==> Ok(g.response) == script(g.sent - 1)) &&
            (calls == [] ==> g == f) &&
            g.invoked == f.invoked + InvokedBy(calls, dispatch)
    decreases |calls|
  {
    if calls != [] {
      var h := CallStep(f, calls[0], script, dispatch).value;
      var d := dispatch(calls[0]).value;
      assert h.log == f.log + [ResponseTurn(calls[0].name, d.0), Turn(ModelRole, h.response)];
      assert h.sent == f.sent + 1 && h.invoked == f.invoked + d.1;
      BatchInOrder(h, calls[1..], script, dispatch);
      var g := RunBatch(h, calls[1..], script, dispatch).value;
      assert RunBatch(f, calls, script, dispatch) == Ok(g);
      AnswersShift(f.log, h.log, g.log, calls);
      AppendAssoc(f.invoked, d.1, InvokedBy(calls[1..], dispatch));
    }
  }

  /** The answers of a batch's tail, behind the first call's answer, answer the whole batch. */
  lemma AnswersShift(before: seq<Turn>, mid: seq<Turn>, after: seq<Turn>, calls: seq<FunctionCall>)
    requires calls != [] && |mid| == |before| + 2 && mid[..|before|] == before
    requires AnswersCall(mid[|before|], calls[0].name)
    requires |after| == |mid| + 2 * |calls[1..]| && after[..|mid|] == mid
    requires forall k :: 0 <= k < |calls[1..]| ==> AnswersCall(after[|mid| + 2 * k], calls[1..][k].name)
    ensures after[..|before|] == before
    ensures forall k :: 0 <= k < |calls| ==> AnswersCall(after[|before| + 2 * k], calls[k].name)
  {
    forall k | 0 <= k < |calls| ensures AnswersCall(after[|before| + 2 * k], calls[k].name) {
      if k == 0 {
        assert after[|before|] == after[..|mid|][|before|];
      } else {
        assert |before| + 2 * k == |mid| + 2 * (k - 1);
        assert calls[1..][k - 1] == calls[k];
      }
    }
    assert after[..|before|] == after[..|mid|][..|before|];
  }

  /** An unregistered name never reaches a handler or a client: it is answered by the guard. */
  lemma UnknownNeverInvoked(call: FunctionCall, clients: ClientCall -> Result<ToolResult>)
    requires call.name !in ToolNames()
    ensures Dispatch(Tools, call, clients) == Ok((UnknownFunction(Tools, call.name), []))
  {
    LookupIff(call.name);
  }

  /** Missing arguments are the empty object: a call without `args` is dispatched like one with `{}`. */
  lemma MissingArgsAreEmpty(name: string, clients: ClientCall -> Result<ToolResult>)
    ensures Dispatch(Tools, FunctionCall(name, None), clients) == Dispatch(Tools, FunctionCall(name, Some(map[])), clients)
  {
  }

  /** A registered call hands its whole `args` object to its handler, and its client call to the clients. */
  lemma RegisteredCallDispatch(call: FunctionCall, t: Tool, clients: ClientCall -> Result<ToolResult>)
    requires call.name == ToolName(t)
    ensures Lookup(Tools, call.name) == Some(t)
    ensures Handle(Lookup(Tools, call.name).value, ArgsOf(call)) == Handle(t, ArgsOf(call))
  {
    LookupOfToolName(t);
  }

  /**
   * The loop's counter: it never passes 6; it ends at most at 5 exactly when
   * no calls are pending, and at 6 exactly when calls are still pending and
   * the cap stopped the loop.
   */
  lemma {:induction false} LoopBound(f: Flight, counter: nat, script: nat -> Result<seq<Part>>,
                                     dispatch: Dispatcher)
    requires counter <= MaxToolIterations
    requires RunLoop(f, counter, script, dispatch).Ok?
    ensures var e := RunLoop(f, counter, script, dispatch).value;
            counter <= e.counter <= MaxToolIterations + 1 &&
            (e.counter <= MaxToolIterations <==> Calls(e.flight.response) == [])
    decreases MaxToolIterations - counter
  {
    var calls := Calls(f.response);
    if calls == [] {
      LoopStopsWithoutCalls(f, counter, script, dispatch);
    } else if counter < MaxToolIterations {
      assert RunBatch(f, calls, script, dispatch).Ok?;
      var g := RunBatch(f, calls, script, dispatch).value;
      LoopContinues(f, counter, script, dispatch);
      LoopBound(g, counter + 1, script, dispatch);
    } else {
      LoopStopsAtCap(f, script, dispatch);
    }
  }

  /** A first reply without calls never enters the loop: nothing else is sent and the counter stays 0. */
  lemma NoCallsNoLoop(f: Flight, script: nat -> Result<seq<Part>>, dispatch: Dispatcher)
    requires Calls(f.response) == []
    ensures RunLoop(f, 0, script, dispatch) == Ok(LoopEnd(f, 0))
  {
  }

  /** The k-th scripted reply arrives and asks for at least one call. */
  ghost predicate RepliesWithCalls(script: nat -> Result<seq<Part>>, k: nat) {
    script(k).Ok? && Calls(script(k).value) != []
  }

  /** Every scripted reply asks for at least one call. */
  ghost predicate AlwaysCalling(script: nat -> Result<seq<Part>>) {
    forall k: nat :: RepliesWithCalls(script, k)
  }

  /** Every call is answered: no handler throws. */
  ghost predicate AlwaysAnswers(dispatch: Dispatcher) {
    forall call :: Answered(dispatch, call)
  }

  ghost predicate Answered(dispatch: Dispatcher, call: FunctionCall) {
    dispatch(call).Ok?
  }

  /** With every dispatch answering, a batch completes. */
  lemma {:induction false} BatchCompletes(f: Flight, calls: seq<FunctionCall>, script: nat -> Result<seq<Part>>,
                                          dispatch: Dispatcher)
    requires AlwaysCalling(script) && AlwaysAnswers(dispatch)
    ensures RunBatch(f, calls, script, dispatch).Ok?
    ensures RunBatch(f, calls, script, dispatch).value.sent == f.sent + |calls|
    ensures calls != [] ==> Ok(RunBatch(f, calls, script, dispatch).value.response) ==
                            script(RunBatch(f, calls, script, dispatch).value.sent - 1)
    decreases |calls|
  {
    if calls != [] {
      assert Answered(dispatch, calls[0]);
      var d := dispatch(calls[0]).value;
      assert RepliesWithCalls(script, f.sent);
      var h := CallStep(f, calls[0], script, dispatch).value;
      assert h.sent == f.sent + 1 && Ok(h.response) == script(f.sent);
      BatchCompletes(h, calls[1..], script, dispatch);
      assert RunBatch(f, calls, script, dispatch) == RunBatch(h, calls[1..], script, dispatch);
    }
  }

  /** From any counter, a model that always asks for calls runs batches until the cap stops it. */
  lemma {:induction false} AlwaysCallingHitsCap(f: Flight, counter: nat, script: nat -> Result<seq<Part>>,
                                                dispatch: Dispatcher)
    requires counter <= MaxToolIterations
    requires AlwaysCalling(script) && AlwaysAnswers(dispatch)
    requires Calls(f.response) != []
    ensures RunLoop(f, counter, script, dispatch).Ok?
    ensures var e := RunLoop(f, counter, script, dispatch).value;
            e.counter == MaxToolIterations + 1 && e.flight.sent >= f.sent + (MaxToolIterations - counter)
    decreases MaxToolIterations - counter
  {
    if counter < MaxToolIterations {
      var g := CallingStep(f, counter, script, dispatch);
      AlwaysCallingHitsCap(g, counter + 1, script, dispatch);
    } else {
      LoopStopsAtCap(f, script, dispatch);
    }
  }

  /** One iteration of a loop whose model always asks for calls: the next flight asks for calls again. */
  lemma CallingStep(f: Flight, counter: nat, script: nat -> Result<seq<Part>>, dispatch: Dispatcher)
    returns (g: Flight)
    requires counter < MaxToolIterations
    requires AlwaysCalling(script) && AlwaysAnswers(dispatch)
    requires Calls(f.response) != []
    ensures Calls(g.response) != [] && g.sent >= f.sent + 1
    ensures RunLoop(f, counter, script, dispatch) == RunLoop(g, counter + 1, script, dispatch)
  {
    var calls := Calls(f.response);
    BatchCompletes(f, calls, script, dispatch);
    g := RunBatch(f, calls, script, dispatch).value;
    assert RepliesWithCalls(script, g.sent - 1);
    LoopContinues(f, counter, script, dispatch);
  }

  /** With every client call returning, every call is answered. */
  lemma DispatchAnswers(tools: seq<Tool>, clients: ClientCall -> Result<ToolResult>)
    requires forall c :: clients(c).Ok?
    ensures AlwaysAnswers(DispatchWith(tools, clients))
  {
    forall call ensures Answered(DispatchWith(tools, clients), call) {
      match Lookup(tools, call.name)
      case None =>
      case Some(t) =>
        var a := Handle(t, ArgsOf(call));
        if a.Invoke? {
          assert clients(a.call).Ok?;
        }
    }
  }

  /**
   * A model that asks for a tool after every message is stopped by the cap:
   * the turn completes with the counter at 6, after the user's message and
   * five batches, so at least six sends.
   */
  lemma CapStopsEndlessCalls(tools: seq<Tool>, stored: seq<Turn>, userMessage: string, script: nat -> Result<seq<Part>>,
                             clients: ClientCall -> Result<ToolResult>)
    requires AlwaysCalling(script) && forall c :: clients(c).Ok?
    ensures var o := TurnSpec(stored, userMessage, script, DispatchWith(tools, clients));
            o.Completed? && o.end.counter == MaxToolIterations + 1 && o.end.flight.sent >= MaxToolIterations + 1 &&
            Calls(o.end.flight.response) != []
  {
    assert RepliesWithCalls(script, 0);
    var f := Send(Flight(0, stored, [], []), Turn(UserRole, [TextPart(userMessage)]), script).value;
    DispatchAnswers(tools, clients);
    AlwaysCallingHitsCap(f, 0, script, DispatchWith(tools, clients));
    LoopBound(f, 0, script, DispatchWith(tools, clients));
  }

  /**
   * The stored history after a turn: other users' histories are unchanged; a
   * completed turn stores at most 40 entries, the newest of the chat's
   * history in their order; an aborted turn leaves the user's history as it
   * was, or empty for a new user.
   */
  lemma HistoryAfterTurn(h: map<string, seq<Turn>>, userId: string, outcome: TurnOutcome)
    ensures var h2 := HistoryAfter(h, userId, outcome);
            userId in h2 &&
            (forall v :: v != userId ==> (v in h2 <==> v in h) && (v in h ==> h2[v] == h[v])) &&
            (outcome.Completed? ==>
               var log := outcome.end.flight.log;
               |h2[userId]| <= HistoryLimit && h2[userId] == log[|log| - |h2[userId]|..] &&
               |h2[userId]| == (if |log| < HistoryLimit then |log| else HistoryLimit)) &&
            (outcome.Aborted? ==> h2[userId] == StoredHistory(h, userId))
  {
  }

  /** A completed turn's chat history starts with the stored history and grows by pairs of sent and received turns. */
  lemma CompletedLogExtendsStored(stored: seq<Turn>, userMessage: string, script: nat -> Result<seq<Part>>,
                                  dispatch: Dispatcher)
    requires TurnSpec(stored, userMessage, script, dispatch).Completed?
    ensures var e := TurnSpec(stored, userMessage, script, dispatch).end;
            e.flight.sent >= 1 && |e.flight.log| == |stored| + 2 * e.flight.sent && e.flight.log[..|stored|] == stored &&
            e.flight.log[|stored|] == Turn(UserRole, [TextPart(userMessage)])
  {
    var f := Send(Flight(0, stored, [], []), Turn(UserRole, [TextPart(userMessage)]), script).value;
    LoopLog(f, 0, script, dispatch);
    var e := TurnSpec(stored, userMessage, script, dispatch).end;
    assert e.flight.log[..|stored|] == e.flight.log[..|f.log|][..|stored|];
    assert e.flight.log[|stored|] == e.flight.log[..|f.log|][|stored|];
  }

  /** The loop only appends to the chat history, two entries per send. */
  lemma {:induction false} LoopLog(f: Flight, counter: nat, script: nat -> Result<seq<Part>>,
                                   dispatch: Dispatcher)
    requires counter <= MaxToolIterations
    requires RunLoop(f, counter, script, dispatch).Ok?
    ensures var e := RunLoop(f, counter, script, dispatch).value;
            |e.flight.log| - |f.log| == 2 * (e.flight.sent - f.sent) && e.flight.sent >= f.sent &&
            e.flight.log[..|f.log|] == f.log
    decreases MaxToolIterations - counter
  {
    var calls := Calls(f.response);
    if calls != [] && counter < MaxToolIterations {
      BatchInOrder(f, calls, script, dispatch);
      var g := RunBatch(f, calls, script, dispatch).value;
      LoopContinues(f, counter, script, dispatch);
      LoopLog(g, counter + 1, script, dispatch);
      var e := RunLoop(g, counter + 1, script, dispatch).value;
      assert e.flight.log[..|f.log|] == e.flight.log[..|g.log|][..|f.log|];
    }
  }

  /** Any error thrown during the turn becomes the apology envelope, carrying the error's message. */
  lemma AbortedReply(outcome: TurnOutcome)
    ensures !TurnReply(outcome).success <==> outcome.Aborted?
    ensures outcome.Aborted? ==>
              TurnReply(outcome).message == ErrorPrefix + outcome.message &&
              TurnReply(outcome).message[|ErrorPrefix|..] == outcome.message
  {
  }

  // ---------------------------------------------------------------- steps of the turn, one at a time

  /** A batch whose first step throws throws the same error. */
  lemma BatchAborts(f: Flight, calls: seq<FunctionCall>, script: nat -> Result<seq<Part>>, dispatch: Dispatcher)
    requires calls != [] && CallStep(f, calls[0], script, dispatch).Err?
    ensures RunBatch(f, calls, script, dispatch) == Err(CallStep(f, calls[0], script, dispatch).message)
  {
  }

  /** A batch whose first step completes continues from that step's flight. */
  lemma BatchSteps(f: Flight, calls: seq<FunctionCall>, script: nat -> Result<seq<Part>>, dispatch: Dispatcher)
    requires calls != [] && CallStep(f, calls[0], script, dispatch).Ok?
    ensures RunBatch(f, calls, script, dispatch) == RunBatch(CallStep(f, calls[0], script, dispatch).value, calls[1..], script, dispatch)
  {
  }

  /** A loop iteration whose batch throws ends the loop with that error. */
  lemma LoopAborts(f: Flight, counter: nat, script: nat -> Result<seq<Part>>, dispatch: Dispatcher)
    requires counter < MaxToolIterations && Calls(f.response) != []
    requires RunBatch(f, Calls(f.response), script, dispatch).Err?
    ensures RunLoop(f, counter, script, dispatch) == Err(RunBatch(f, Calls(f.response), script, dispatch).message)
  {
  }

  /** A loop iteration whose batch completes continues from the batch's flight with the counter one higher. */
  lemma LoopContinues(f: Flight, counter: nat, script: nat -> Result<seq<Part>>, dispatch: Dispatcher)
    requires counter < MaxToolIterations && Calls(f.response) != []
    requires RunBatch(f, Calls(f.response), script, dispatch).Ok?
    ensures RunLoop(f, counter, script, dispatch) ==
            RunLoop(RunBatch(f, Calls(f.response), script, dispatch).value, counter + 1, script, dispatch)
  {
  }

  /** The turn of a first send that throws. */
  lemma TurnAbortsAtFirstSend(stored: seq<Turn>, userMessage: string, script: nat -> Result<seq<Part>>,
                              dispatch: Dispatcher)
    requires script(0).Err?
    ensures TurnSpec(stored, userMessage, script, dispatch) == Aborted(script(0).message)
  {
  }

  /** The turn, once the first send has produced the flight `f`, is decided by the loop from `f`. */
  lemma TurnFromFirstReply(stored: seq<Turn>, userMessage: string, script: nat -> Result<seq<Part>>,
                           dispatch: Dispatcher, f: Flight)
    requires Send(Flight(0, stored, [], []), Turn(UserRole, [TextPart(userMessage)]), script) == Ok(f)
    ensures TurnSpec(stored, userMessage, script, dispatch) ==
            match RunLoop(f, 0, script, dispatch)
            case Err(m) => Aborted(m)
            case Ok(end) => Completed(end)
  {
  }

  /** The loop stops where no calls are pending. */
  lemma LoopStopsWithoutCalls(f: Flight, counter: nat, script: nat -> Result<seq<Part>>, dispatch: Dispatcher)
    requires counter <= MaxToolIterations && Calls(f.response) == []
    ensures RunLoop(f, counter, script, dispatch) == Ok(LoopEnd(f, counter))
  {
  }

  /** The loop stops at the cap with the counter incremented past it. */
  lemma LoopStopsAtCap(f: Flight, script: nat -> Result<seq<Part>>, dispatch: Dispatcher)
    requires Calls(f.response) != []
    ensures RunLoop(f, MaxToolIterations, script, dispatch) == Ok(LoopEnd(f, MaxToolIterations + 1))
  {
  }

  /** One step of a batch whose call is answered with `r` after making the client calls `made`. */
  lemma CallStepSends(f: Flight, call: FunctionCall, script: nat -> Result<seq<Part>>, dispatch: Dispatcher,
                      r: ToolResult, made: seq<ClientCall>)
    requires dispatch(call) == Ok((r, made))
    ensures CallStep(f, call, script, dispatch) ==
            match script(f.sent)
            case Err(m) => Err(m)
            case Ok(parts) =>
              Ok(Flight(f.sent + 1, f.log + [ResponseTurn(call.name, r), Turn(ModelRole, parts)], parts, f.invoked + made))
  {
  }

  /** Storing a history and then its last 40 entries stores the last 40 entries. */
  lemma StoreThenTruncate(h: map<string, seq<Turn>>, userId: string, log: seq<Turn>)
    ensures h[userId := log][userId := log[|log| - HistoryLimit..]] == h[userId := log[|log| - HistoryLimit..]]
    requires |log| > HistoryLimit
  {
  }

  // ---------------------------------------------------------------- the imperative turn

  /** The Gemini chat session of one turn. */
  class ChatSession {
    const script: nat -> Result<seq<Part>>
    var sent: nat
    var history: seq<Turn>

    /** `model.startChat({ history })`. */
    constructor(script: nat -> Result<seq<Part>>, history: seq<Turn>)
      ensures this.script == script && sent == 0 && this.history == history
    {
      this.script := script;
      sent := 0;
      this.history := history;
    }

    /** `chat.sendMessage(content)`: the next scripted reply, recorded with what was sent. */
    method SendMessage(content: Turn) returns (r: Result<seq<Part>>)
      modifies this
      ensures sent == old(sent) + 1 && r == script(old(sent))
      ensures history == if r.Ok? then old(history) + [content, Turn(ModelRole, r.value)] else old(history)
    {
      r := script(sent);
      if r.Ok? {
        history := history + [content, Turn(ModelRole, r.value)];
      }
      sent := sent + 1;
    }
  }

  /**
   * One call of the `for` loop: `availableFunctions[call.name]`, the guard for
   * an unknown name, and the awaited handler.
   */
  method DispatchCall(availableFunctions: seq<Tool>, call: FunctionCall, clients: ClientCall -> Result<ToolResult>)
    returns (r: Result<(ToolResult, seq<ClientCall>)>)
    ensures DispatchWith(availableFunctions, clients)(call) == r
  {
    var functionArgs := ArgsOf(call);
    var fn := Lookup(availableFunctions, call.name);
    if fn.None? {
      return Ok((UnknownFunction(availableFunctions, call.name), []));
    }
    var action := Handle(fn.value, functionArgs);
    if action.Respond? {
      return Ok((action.result, []));
    }
    var awaited := clients(action.call);
    if awaited.Err? {
      return Err(awaited.message);
    }
    r := Ok((awaited.value, [action.call]));
  }

  /**
   * The `for (const call of functionCalls)` loop of one iteration: look up
   * each call's handler, await it, and send its result back, in order. It
   * ends with the model's last reply, or with the first error thrown.
   */
  method AnswerCalls(availableFunctions: seq<Tool>, chat: ChatSession, functionCalls: seq<FunctionCall>, clients: ClientCall -> Result<ToolResult>,
                     response: seq<Part>, ghost invoked: seq<ClientCall>)
    returns (answered: Result<seq<Part>>, ghost invokedAfter: seq<ClientCall>)
    modifies chat
    ensures RunBatch(Flight(old(chat.sent), old(chat.history), response, invoked), functionCalls, chat.script,
                     DispatchWith(availableFunctions, clients)) ==
            match answered
            case Err(m) => Err(m)
            case Ok(parts) => Ok(Flight(chat.sent, chat.history, parts, invokedAfter))
  {
    ghost var start := Flight(chat.sent, chat.history, response, invoked);
    ghost var dispatch := DispatchWith(availableFunctions, clients);
    ghost var script0 := chat.script;
    var current := response;
    invokedAfter := invoked;
    var i := 0;
    while i < |functionCalls|
      invariant 0 <= i <= |functionCalls| && chat.script == script0
      invariant RunBatch(Flight(chat.sent, chat.history, current, invokedAfter), functionCalls[i..], chat.script, dispatch) ==
                RunBatch(start, functionCalls, chat.script, dispatch)
    {
      ghost var before := Flight(chat.sent, chat.history, current, invokedAfter);
      var call := functionCalls[i];
      var dispatched := DispatchCall(availableFunctions, call, clients);
      if dispatched.Err? {
        BatchAborts(before, functionCalls[i..], chat.script, dispatch);
        return Err(dispatched.message), invokedAfter;
      }
      var (functionResponse, made) := dispatched.value;
      CallStepSends(before, call, chat.script, dispatch, functionResponse, made);
      invokedAfter := invokedAfter + made;
      var result := chat.SendMessage(ResponseTurn(call.name, functionResponse));
      if result.Err? {
        BatchAborts(before, functionCalls[i..], chat.script, dispatch);
        return Err(result.message), invokedAfter;
      }
      current := result.value;
      BatchSteps(before, functionCalls[i..], chat.script, dispatch);
      assert functionCalls[i..][1..] == functionCalls[i + 1..];
      i := i + 1;
    }
    answered := Ok(current);
  }

  /**
   * The `while (response.functionCalls?.() && toolIterations++ < 5)` loop:
   * answer each batch of calls until a reply asks for none or the counter
   * reaches the cap. It ends with the model's last reply, or with the first
   * error thrown.
   */
  method CallTools(availableFunctions: seq<Tool>, chat: ChatSession, clients: ClientCall -> Result<ToolResult>,
                   response: seq<Part>)
    returns (answered: Result<seq<Part>>, ghost ended: LoopEnd)
    modifies chat
    ensures RunLoop(Flight(old(chat.sent), old(chat.history), response, []), 0, chat.script,
                    DispatchWith(availableFunctions, clients)) ==
            match answered
            case Err(m) => Err(m)
            case Ok(_) => Ok(ended)
    ensures answered.Ok? ==> ended.flight.log == chat.history && ended.flight.response == answered.value
  {
    ghost var dispatch := DispatchWith(availableFunctions, clients);
    ghost var script := chat.script;
    ghost var invoked: seq<ClientCall> := [];
    ghost var f1 := Flight(chat.sent, chat.history, response, invoked);
    var current := response;
    var toolIterations := 0;
    ended := LoopEnd(f1, 0);
    while true
      invariant chat.script == script && toolIterations <= MaxToolIterations
      invariant RunLoop(Flight(chat.sent, chat.history, current, invoked), toolIterations, script, dispatch) ==
                RunLoop(f1, 0, script, dispatch)
      decreases MaxToolIterations - toolIterations
    {
      var functionCalls := Calls(current);
      if functionCalls == [] {
        LoopStopsWithoutCalls(Flight(chat.sent, chat.history, current, invoked), toolIterations, script, dispatch);
        ended := LoopEnd(Flight(chat.sent, chat.history, current, invoked), toolIterations);
        break;
      }
      var belowCap := toolIterations < MaxToolIterations;
      toolIterations := toolIterations + 1;
      if !belowCap {
        LoopStopsAtCap(Flight(chat.sent, chat.history, current, invoked), script, dispatch);
        ended := LoopEnd(Flight(chat.sent, chat.history, current, invoked), toolIterations);
        break;
      }
      ghost var start := Flight(chat.sent, chat.history, current, invoked);
      var batch;
      batch, invoked := AnswerCalls(availableFunctions, chat, functionCalls, clients, current, invoked);
      if batch.Err? {
        LoopAborts(start, toolIterations - 1, script, dispatch);
        answered := Err(batch.message);
        return;
      }
      current := batch.value;
      LoopContinues(start, toolIterations - 1, script, dispatch);
    }
    answered := Ok(current);
  }

  /**
   * The body of `processMessage`'s `try`: start a chat on the stored history,
   * send the user's message and answer the model's calls. It ends with the
   * model's last reply and the chat's history, or with the first error thrown.
   */
  method RunTurn(availableFunctions: seq<Tool>, stored: seq<Turn>, userMessage: string,
                 script: nat -> Result<seq<Part>>, clients: ClientCall -> Result<ToolResult>)
    returns (answered: Result<seq<Part>>, history: seq<Turn>)
    ensures var outcome := TurnSpec(stored, userMessage, script, DispatchWith(availableFunctions, clients));
            match answered
            case Err(m) => outcome == Aborted(m)
            case Ok(p) => outcome.Completed? && outcome.end.flight.response == p && outcome.end.flight.log == history
  {
    ghost var dispatch := DispatchWith(availableFunctions, clients);
    var chat := new ChatSession(script, stored);
    var userTurn := Turn(UserRole, [TextPart(userMessage)]);
    var first := chat.SendMessage(userTurn);
    if first.Err? {
      TurnAbortsAtFirstSend(stored, userMessage, script, dispatch);
      return Err(first.message), [];
    }
    var response := first.value;
    ghost var f1 := Flight(chat.sent, chat.history, response, []);
    assert Send(Flight(0, stored, [], []), userTurn, script) == Ok(f1);
    TurnFromFirstReply(stored, userMessage, script, dispatch, f1);
    ghost var ended;
    answered, ended := CallTools(availableFunctions, chat, clients, response);
    history := chat.history;
  }

  /** The module-level state of src/aiHandler.js: each user's stored chat history. */
  class Assistant {
    const availableFunctions: seq<Tool>
    var conversationHistory: map<string, seq<Turn>>

    constructor()
      ensures availableFunctions == Tools && conversationHistory == map[]
    {
      availableFunctions := Tools;
      conversationHistory := map[];
    }

    /**
     * `processMessage`: run one turn against the scripted chat and the
     * clients, and store the history of a completed turn.
     */
    method ProcessMessage(userId: string, userMessage: string, script: nat -> Result<seq<Part>>,
                          clients: ClientCall -> Result<ToolResult>) returns (reply: Reply)
      modifies this
      ensures reply == TurnReply(TurnSpec(StoredHistory(old(conversationHistory), userId), userMessage, script,
                                          DispatchWith(availableFunctions, clients)))
      ensures conversationHistory ==
              HistoryAfter(old(conversationHistory), userId,
                           TurnSpec(StoredHistory(old(conversationHistory), userId), userMessage, script,
                                    DispatchWith(availableFunctions, clients)))
    {
      ghost var stored := StoredHistory(conversationHistory, userId);
      if userId !in conversationHistory {
        conversationHistory := conversationHistory[userId := []];
      }
      ghost var initialized := conversationHistory;
      assert initialized == Initialized(old(conversationHistory), userId);
      var answered, history := RunTurn(availableFunctions, conversationHistory[userId], userMessage, script, clients);
      if answered.Err? {
        return Reply(false, ErrorPrefix + answered.message);
      }
      conversationHistory := conversationHistory[userId := history];
      if |conversationHistory[userId]| > HistoryLimit {
        conversationHistory := conversationHistory[userId := conversationHistory[userId][|history| - HistoryLimit..]];
        StoreThenTruncate(initialized, userId, history);
      }
      reply := Reply(true, TextOf(answered.value));
    }

    /** `clearHistory`: forget one user's history. */
    method ClearHistory(userId: string) returns (reply: Reply)
      modifies this
      ensures conversationHistory == old(conversationHistory) - {userId}
      ensures reply == Reply(true, "Conversation history cleared")
    {
      conversationHistory := conversationHistory - {userId};
      reply := Reply(true, "Conversation history cleared");
    }
  }

  /** Clearing removes exactly the one user's history and keeps every other user's. */
  lemma ClearKeepsOthers(h: map<string, seq<Turn>>, userId: string)
    ensures userId !in h - {userId}
    ensures forall v :: v != userId ==> (v in h - {userId} <==> v in h) && (v in h ==> (h - {userId})[v] == h[v])
  {
  }
}
