/** The values the AI services exchange: the chat messages, context and model
    listings of the service interface, the messages sent to a provider, the
    values JavaScript code throws, and the context files the development
    server serves. */
module AiTypes {
  import opened Wrappers
  import opened JsStrings

  datatype Role = User | Assistant

  function RoleName(r: Role): string {
    match r
    case User => "user"
    case Assistant => "assistant"
  }

  /** `ChatMessage`; its timestamp is not modelled. */
  datatype ChatMessage = ChatMessage(role: Role, content: string)

  /** `ContextOptions`: the names of the available contexts of each kind. */
  datatype ContextOptions = ContextOptions(roles: seq<string>, personas: seq<string>, scenarios: seq<string>)

  /** `ModelOption`. */
  datatype ModelOption = ModelOption(id: string, name: string, description: string)

  /** `models.some(model => model.id === id)`. */
  predicate HasModel(models: seq<ModelOption>, id: string) {
    exists k :: 0 <= k < |models| && models[k].id == id
  }

  /** A model of a joined list is a model of one of its parts. */
  lemma HasModelJoined(a: seq<ModelOption>, b: seq<ModelOption>, id: string)
    ensures HasModel(a + b, id) <==> HasModel(a, id) || HasModel(b, id)
  {
    if HasModel(a + b, id) {
      var k :| 0 <= k < |a + b| && (a + b)[k].id == id;
      if k >= |a| {
        assert b[k - |a|].id == id;
      }
    }
    if HasModel(a, id) {
      var k :| 0 <= k < |a| && a[k].id == id;
      assert (a + b)[k].id == id;
    }
    if HasModel(b, id) {
      var k :| 0 <= k < |b| && b[k].id == id;
      assert (a + b)[|a| + k].id == id;
    }
  }

  /** A message as a provider's API receives it: `{role, content}`. */
  datatype ApiMessage = ApiMessage(role: string, content: string)

  /** `{role: msg.role, content: msg.content}`. */
  function ToApi(m: ChatMessage): ApiMessage {
    ApiMessage(RoleName(m.role), m.content)
  }

  /** A thrown value: an `Error` object with its `name` and `message`, or any
      other value, known by the text `String(value)` gives. */
  datatype Thrown = ErrorObject(name: string, message: string) | OtherValue(text: string)

  /** `new Error(message)`. */
  function NewError(message: string): Thrown {
    ErrorObject("Error", message)
  }

  /** `error.toString()`, which for an error object is
      `Error.prototype.toString`: the name and the message joined by `": "`,
      or whichever of the two is not empty. */
  function ErrorText(e: Thrown): (t: string)
    ensures e.ErrorObject? && e.name != "" && e.message != "" ==> t == e.name + ": " + e.message
    ensures e.ErrorObject? && e.name == "" ==> t == e.message
    ensures e.ErrorObject? && e.message == "" ==> t == e.name
  {
    match e
    case OtherValue(text) => text
    case ErrorObject(name, message) =>
      if name == "" then message else if message == "" then name else name + ": " + message
  }

  /** `error instanceof Error ? error.message : 'Unknown error'`. */
  function MessageOfError(e: Thrown): string {
    match e
    case ErrorObject(_, message) => message
    case OtherValue(_) => "Unknown error"
  }

  /** `error.message || 'Unknown error'`: an empty message counts as absent. */
  function MessageOrUnknown(e: Thrown): (m: string)
    ensures m != ""
  {
    if e.ErrorObject? && e.message != "" then e.message else "Unknown error"
  }

  /** A script with its first entry consumed. */
  function Rest<T>(s: seq<T>): seq<T> {
    if |s| > 0 then s[1..] else []
  }

  /** The error `fetch` rejects with when nothing answers. */
  const FetchFailed: Thrown := ErrorObject("TypeError", "Failed to fetch")

  /** The files served under `/context/` (path to text) and the answer of
      `/api/list-contexts` (`None` when that request fails). A path that is
      not served answers with an error status. */
  datatype ContextServer = ContextServer(files: map<string, string>, listing: Option<ContextOptions>)

  /** `fetch(path)` followed by `response.text()`: `None` when the response is
      not `ok` or the request fails. */
  function Fetch(server: ContextServer, path: string): Option<string> {
    if path in server.files then Some(server.files[path]) else None
  }

  const GeneralInstructionsPath: string := "/context/general_instructions.md"

  /** The three kinds of context, each served from its own directory. */
  datatype ContextKind = Roles | Personas | Scenarios

  /** `/context/roles/${name}.md` and its persona and scenario counterparts. */
  function ContextPath(kind: ContextKind, name: string): string {
    var dir := match kind
      case Roles => "roles"
      case Personas => "personas"
      case Scenarios => "scenarios";
    "/context/" + dir + "/" + name + ".md"
  }

  /** The text a slot holds after a load of `path`: the file's text, or
      `''` when it could not be fetched. */
  function SlotText(server: ContextServer, path: string): (t: string)
    ensures Fetch(server, path).Some? ==> t == Fetch(server, path).value
    ensures Fetch(server, path).None? ==> t == ""
  {
    Fetch(server, path).GetOr("")
  }

  /** The fixed context names every service falls back on. */
  const FallbackOptions: ContextOptions := ContextOptions(
    ["system_manager", "meraki_expert"],
    ["entry_network_admin", "network_designer"],
    ["high_cpu_load", "corporate_campus"])

  /** `if (name || available.length > 0) load(name || available[0])`: the
      context to load for one slot, where `''` stands for an omitted name. */
  function ContextToLoad(name: string, available: seq<string>): (r: Option<string>)
    ensures r.Some? <==> name != "" || |available| > 0
    ensures name != "" ==> r == Some(name)
    ensures name == "" && |available| > 0 ==> r == Some(available[0])
  {
    if name != "" then Some(name)
    else if |available| > 0 then Some(available[0])
    else None
  }

  /** A slot's text after `loadContextFiles` chose which context, if any,
      to load into it. */
  function SlotAfterLoad(previous: string, server: ContextServer, kind: ContextKind, choice: Option<string>): (t: string)
    ensures choice.None? ==> t == previous
    ensures choice.Some? ==> t == SlotText(server, ContextPath(kind, choice.value))
  {
    match choice
    case None => previous
    case Some(name) => SlotText(server, ContextPath(kind, name))
  }
}
