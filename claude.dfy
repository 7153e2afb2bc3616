/** `ClaudeService` and the adapter that puts it behind the service
    interface: three context slots over fixed context lists, the chart
    instructions appended to the system prompt, and API failures returned
    as text. */
module Claude {
  import opened Wrappers
  import opened JsStrings
  import opened AiTypes

  const ClaudeModel: string := "claude-3-opus-20240229"
  const MaxTokens: int := 1024
  const MissingApiKey: string := "VITE_ANTHROPIC_API_KEY is not defined in environment variables"
  const FailurePrefix: string := "Error: Unable to get response from Claude API. "

  /** The workspace instructions that close every system prompt: the
      `{{chart:TYPE ...}}` syntax, the chart types and two examples. */
  const ChartInstructions: string :=
    "\n"
    + "Workspace Capabilities:\n"
    + "You can create interactive charts in the workspace panel using the following syntax:\n"
    + "\n"
    + "{{chart:TYPE\n"
    + "  title: Chart Title\n"
    + "  xAxis: X-Axis Label\n"
    + "  yAxis: Y-Axis Label\n"
    + "  data: [\n"
    + "    {name: \"Series 1\", values: [10, 20, 30, 40, 50]},\n"
    + "    {name: \"Series 2\", values: [15, 25, 35, 45, 55]}\n"
    + "  ]\n"
    + "}}\n"
    + "\n"
    + "Chart types available: line, bar, column, pie, area, scatter\n"
    + "\n"
    + "Examples:\n"
    + "1. For a line chart showing CPU usage:\n"
    + "{{chart:line\n"
    + "  title: CPU Usage Over Time\n"
    + "  xAxis: Time (minutes)\n"
    + "  yAxis: CPU Usage (%)\n"
    + "  data: [\n"
    + "    {name: \"Web Server\", values: [65, 72, 78, 85, 92]},\n"
    + "    {name: \"Database\", values: [42, 48, 53, 60, 65]}\n"
    + "  ]\n"
    + "}}\n"
    + "\n"
    + "2. For a bar chart showing memory allocation:\n"
    + "{{chart:bar\n"
    + "  title: Memory Allocation by Service\n"
    + "  xAxis: Services\n"
    + "  yAxis: Memory (GB)\n"
    + "  data: [\n"
    + "    {name: \"Allocated\", values: [8, 12, 15, 6, 9]},\n"
    + "    {name: \"Used\", values: [6, 11, 12, 5, 7]}\n"
    + "  ]\n"
    + "}}\n"
    + "\n"
    + "Use these charts when presenting data visualizations would be helpful to the user.\n"

  /** A block of an answer's `content`: text, or any other kind. */
  datatype ContentBlock = TextBlock(text: string) | OtherBlock(kind: string)

  /** What `anthropic.messages.create` resolves or rejects with. */
  datatype MessagesReply = Replied(content: seq<ContentBlock>) | MessagesFailed(error: Thrown)

  /** The request `sendMessage` makes. */
  datatype MessagesRequest = MessagesRequest(model: string, maxTokens: int, system: string, messages: seq<ApiMessage>)

  /** The Messages API, with scripted replies (a failed request once they run
      out) and a log of the requests made. */
  class MessagesEndpoint {
    var replies: seq<MessagesReply>
    var requests: seq<MessagesRequest>

    constructor (replies: seq<MessagesReply>)
      ensures this.replies == replies && requests == []
    {
      this.replies := replies;
      requests := [];
    }

    function Next(): MessagesReply
      reads this
    {
      if |replies| > 0 then replies[0] else MessagesFailed(FetchFailed)
    }

    method Create(request: MessagesRequest) returns (r: MessagesReply)
      modifies this
      ensures r == old(Next())
      ensures requests == old(requests) + [request]
      ensures replies == Rest(old(replies))
    {
      r := Next();
      if |replies| > 0 {
        replies := replies[1..];
      }
      requests := requests + [request];
    }
  }

  /** `response.content[0]` and the `'text' in content` test: the text of a
      first text block; another first block is an unexpected format; an
      empty `content` makes the `in` test throw a `TypeError`. */
  function ReplyText(reply: MessagesReply): (r: Result<string, Thrown>)
    ensures r.Success? <==> reply.Replied? && |reply.content| > 0 && reply.content[0].TextBlock?
    ensures r.Success? ==> r.value == reply.content[0].text
    ensures reply.MessagesFailed? ==> r == Failure(reply.error)
    ensures reply.Replied? && |reply.content| > 0 && reply.content[0].OtherBlock? ==>
              r == Failure(NewError("Unexpected response format from Claude API"))
  {
    match reply
    case MessagesFailed(e) => Failure(e)
    case Replied(content) =>
      if |content| == 0 then Failure(ErrorObject("TypeError", "Cannot use 'in' operator to search for 'text' in undefined"))
      else if content[0].TextBlock? then Success(content[0].text)
      else Failure(NewError("Unexpected response format from Claude API"))
  }

  /** The text returned in place of an answer: the fixed prefix, then the
      error's message, or `Unknown error` when it has none. */
  function FailureReply(e: Thrown): (m: string)
    ensures StartsWith(m, FailurePrefix) && |m| > |FailurePrefix|
    ensures e.ErrorObject? && e.message != "" ==> EndsWith(m, e.message) && |m| == |FailurePrefix| + |e.message|
    ensures !(e.ErrorObject? && e.message != "") ==> m == FailurePrefix + "Unknown error"
  {
    JoinedEnds(FailurePrefix, MessageOrUnknown(e));
    FailurePrefix + MessageOrUnknown(e)
  }

  /** What `sendMessage` returns for the endpoint's reply `reply`: without
      an API key, the missing-key failure and nothing else; otherwise the
      text of the answer, or its failure as text. */
  function AnswerFor(apiKey: string, reply: MessagesReply): (m: string)
    ensures apiKey == "" ==> m == FailureReply(NewError(MissingApiKey))
    ensures apiKey != "" && ReplyText(reply).Success? ==> m == ReplyText(reply).value
    ensures apiKey != "" && ReplyText(reply).Failure? ==> m == FailureReply(ReplyText(reply).error)
  {
    if apiKey == "" then FailureReply(NewError(MissingApiKey))
    else match ReplyText(reply)
         case Success(text) => text
         case Failure(e) => FailureReply(e)
  }

  /** The messages sent for a conversation: a lone `Hello` from the user
      when it is empty, otherwise each message with its role and content,
      in order. */
  function ClaudeMessages(history: seq<ChatMessage>): (messages: seq<ApiMessage>)
    ensures |history| == 0 ==> messages == [ApiMessage("user", "Hello")]
    ensures |history| > 0 ==> |messages| == |history|
    ensures |history| > 0 ==> forall k :: 0 <= k < |history| ==> messages[k] == ToApi(history[k])
  {
    if |history| == 0 then [ApiMessage("user", "Hello")]
    else seq(|history|, k requires 0 <= k < |history| => ToApi(history[k]))
  }

  /** The template of `buildSystemPrompt()`: the role, the persona under
      `User Persona:`, the scenario under `Current Scenario:`, then the
      closing instructions (the chart instructions in the service). */
  function ClaudePrompt(instructions: string, role: string, persona: string, scenario: string): string {
    "\n" + role + "\n\nUser Persona:\n" + persona + "\n\nCurrent Scenario:\n" + scenario + "\n\n" + instructions + "\n"
  }

  /** The three contexts stand in the prompt verbatim, in the order role,
      persona, scenario, each under its heading, and the instructions come
      last. */
  lemma ClaudePromptOrder(instructions: string, role: string, persona: string, scenario: string)
    ensures var p := ClaudePrompt(instructions, role, persona, scenario);
            var pe := 1 + |role| + 16;
            var sc := pe + |persona| + 20;
            var ch := sc + |scenario| + 2;
            && |p| == ch + |instructions| + 1
            && p[1..1 + |role|] == role
            && p[1 + |role|..pe] == "\n\nUser Persona:\n"
            && p[pe..pe + |persona|] == persona
            && p[pe + |persona|..sc] == "\n\nCurrent Scenario:\n"
            && p[sc..sc + |scenario|] == scenario
            && p[ch..ch + |instructions|] == instructions
  {
    var p := ClaudePrompt(instructions, role, persona, scenario);
    var pe := 1 + |role| + 16;
    var sc := pe + |persona| + 20;
    var ch := sc + |scenario| + 2;
    var a := "\n" + role + "\n\nUser Persona:\n";
    var b := a + persona + "\n\nCurrent Scenario:\n";
    var c := b + scenario + "\n\n";
    assert p == c + instructions + "\n";
    assert |a| == pe && |b| == sc && |c| == ch;
    assert p[..ch] == c;
    assert c[..sc] == b;
    assert b[..pe] == a;
  }

  class ClaudeService {
    var roleContext: string
    var personaContext: string
    var scenarioContext: string
    var availableRoles: seq<string>
    var availablePersonas: seq<string>
    var availableScenarios: seq<string>
    var isInitialized: bool
    /** `VITE_ANTHROPIC_API_KEY`, `''` when unset. */
    const apiKey: string
    const api: MessagesEndpoint

    constructor (apiKey: string, api: MessagesEndpoint)
      ensures this.apiKey == apiKey && this.api == api
      ensures roleContext == "" && personaContext == "" && scenarioContext == ""
      ensures availableRoles == [] && availablePersonas == [] && availableScenarios == []
      ensures !isInitialized
    {
      this.apiKey := apiKey;
      this.api := api;
      roleContext := "";
      personaContext := "";
      scenarioContext := "";
      availableRoles := [];
      availablePersonas := [];
      availableScenarios := [];
      isInitialized := false;
    }

    /** `loadAvailableContexts()`: always the fixed lists; nothing is
        fetched. */
    method LoadAvailableContexts() returns (options: ContextOptions)
      modifies this`availableRoles, this`availablePersonas, this`availableScenarios
      ensures options == FallbackOptions
      ensures availableRoles == options.roles && availablePersonas == options.personas
      ensures availableScenarios == options.scenarios
    {
      options := FallbackOptions;
      availableRoles := options.roles;
      availablePersonas := options.personas;
      availableScenarios := options.scenarios;
    }

    /** `loadRoleContext(name)`: a fetched file fills the role slot and marks
        the service initialized; a failure empties the slot. */
    method LoadRoleContext(server: ContextServer, name: string) returns (text: string)
      modifies this`roleContext, this`isInitialized
      ensures text == roleContext == SlotText(server, ContextPath(Roles, name))
      ensures isInitialized == (old(isInitialized) || Fetch(server, ContextPath(Roles, name)).Some?)
    {
      var fetched := Fetch(server, ContextPath(Roles, name));
      if fetched.Some? {
        roleContext := fetched.value;
        isInitialized := true;
      } else {
        roleContext := "";
      }
      text := roleContext;
    }

    /** `loadPersonaContext(name)`, the same for the persona slot. */
    method LoadPersonaContext(server: ContextServer, name: string) returns (text: string)
      modifies this`personaContext, this`isInitialized
      ensures text == personaContext == SlotText(server, ContextPath(Personas, name))
      ensures isInitialized == (old(isInitialized) || Fetch(server, ContextPath(Personas, name)).Some?)
    {
      var fetched := Fetch(server, ContextPath(Personas, name));
      if fetched.Some? {
        personaContext := fetched.value;
        isInitialized := true;
      } else {
        personaContext := "";
      }
      text := personaContext;
    }

    /** `loadScenarioContext(name)`, the same for the scenario slot. */
    method LoadScenarioContext(server: ContextServer, name: string) returns (text: string)
      modifies this`scenarioContext, this`isInitialized
      ensures text == scenarioContext == SlotText(server, ContextPath(Scenarios, name))
      ensures isInitialized == (old(isInitialized) || Fetch(server, ContextPath(Scenarios, name)).Some?)
    {
      var fetched := Fetch(server, ContextPath(Scenarios, name));
      if fetched.Some? {
        scenarioContext := fetched.value;
        isInitialized := true;
      } else {
        scenarioContext := "";
      }
      text := scenarioContext;
    }

    /** `loadContextFiles(roleName, personaName, scenarioName)`, `''` standing
        for an omitted name: the fixed lists, then for each slot the named
        context or else the first of its list. */
    method LoadContextFiles(server: ContextServer, roleName: string, personaName: string, scenarioName: string)
      modifies this`availableRoles, this`availablePersonas, this`availableScenarios
      modifies this`roleContext, this`personaContext, this`scenarioContext, this`isInitialized
      ensures availableRoles == FallbackOptions.roles && availablePersonas == FallbackOptions.personas
      ensures availableScenarios == FallbackOptions.scenarios
      ensures roleContext == SlotText(server, ContextPath(Roles, if roleName != "" then roleName else "system_manager"))
      ensures personaContext == SlotText(server, ContextPath(Personas, if personaName != "" then personaName else "entry_network_admin"))
      ensures scenarioContext == SlotText(server, ContextPath(Scenarios, if scenarioName != "" then scenarioName else "high_cpu_load"))
      ensures isInitialized
    {
      var contexts := LoadAvailableContexts();
      var role := ContextToLoad(roleName, availableRoles);
      if role.Some? {
        var _ := LoadRoleContext(server, role.value);
      }
      var persona := ContextToLoad(personaName, availablePersonas);
      if persona.Some? {
        var _ := LoadPersonaContext(server, persona.value);
      }
      var scenario := ContextToLoad(scenarioName, availableScenarios);
      if scenario.Some? {
        var _ := LoadScenarioContext(server, scenario.value);
      }
      isInitialized := true;
    }

    /** The context state `loadContextFiles()` leaves when given no names:
        initialized, the fixed lists, and the `system_manager`,
        `entry_network_admin` and `high_cpu_load` contexts in the slots. */
    predicate LoadedDefaults(server: ContextServer)
      reads this`availableRoles, this`availablePersonas, this`availableScenarios
      reads this`roleContext, this`personaContext, this`scenarioContext, this`isInitialized
    {
      && isInitialized
      && availableRoles == FallbackOptions.roles && availablePersonas == FallbackOptions.personas
      && availableScenarios == FallbackOptions.scenarios
      && roleContext == SlotText(server, ContextPath(Roles, "system_manager"))
      && personaContext == SlotText(server, ContextPath(Personas, "entry_network_admin"))
      && scenarioContext == SlotText(server, ContextPath(Scenarios, "high_cpu_load"))
    }

    /** None of the context state changed. */
    twostate predicate ContextsKept()
      reads this`availableRoles, this`availablePersonas, this`availableScenarios
      reads this`roleContext, this`personaContext, this`scenarioContext, this`isInitialized
    {
      && availableRoles == old(availableRoles) && availablePersonas == old(availablePersonas)
      && availableScenarios == old(availableScenarios)
      && roleContext == old(roleContext) && personaContext == old(personaContext)
      && scenarioContext == old(scenarioContext) && isInitialized == old(isInitialized)
    }

    /** The context state once `sendMessage` has made sure it is loaded:
        unchanged when the service was initialized, else what
        `loadContextFiles()` loads. */
    twostate predicate ContextsReady(server: ContextServer)
      reads this`availableRoles, this`availablePersonas, this`availableScenarios
      reads this`roleContext, this`personaContext, this`scenarioContext, this`isInitialized
    {
      if old(isInitialized) then ContextsKept() else LoadedDefaults(server)
    }

    /** `buildSystemPrompt()`. */
    function BuildSystemPrompt(): string
      reads this
    {
      ClaudePrompt(ChartInstructions, roleContext, personaContext, scenarioContext)
    }

    /** `sendMessage(messages)`: the contexts are loaded first if the service
        is not initialized; without an API key nothing is sent; otherwise the
        prompt and the conversation are sent to `claude-3-opus-20240229`. The
        answer's text is returned, and any failure is returned as text. */
    method SendMessage(server: ContextServer, history: seq<ChatMessage>) returns (reply: string)
      modifies this`availableRoles, this`availablePersonas, this`availableScenarios
      modifies this`roleContext, this`personaContext, this`scenarioContext, this`isInitialized, api
      ensures isInitialized
      ensures old(isInitialized) ==>
                roleContext == old(roleContext) && personaContext == old(personaContext)
                && scenarioContext == old(scenarioContext)
      ensures ContextsReady(server)
      ensures reply == AnswerFor(apiKey, old(api.Next()))
      ensures apiKey == "" ==> api.requests == old(api.requests)
      ensures apiKey != "" ==>
                api.requests == old(api.requests) + [MessagesRequest(ClaudeModel, MaxTokens, BuildSystemPrompt(), ClaudeMessages(history))]
    {
      if !isInitialized {
        LoadContextFiles(server, "", "", "");
      }
      var prompt := BuildSystemPrompt();
      var messages := ClaudeMessages(history);
      if apiKey == "" {
        return FailureReply(NewError(MissingApiKey));
      }
      var answer := api.Create(MessagesRequest(ClaudeModel, MaxTokens, prompt, messages));
      var text := ReplyText(answer);
      reply := if text.Success? then text.value else FailureReply(text.error);
    }
  }

  /** `ClaudeServiceAdapter`. `ClaudeService` as it stands has no model list,
      no model selection, no `hasLoadedContexts` and no `streamMessage`; the
      adapter here keeps the model list it is given and the selected id, and
      answers `hasLoadedContexts` as the other services do. The rest of the
      adapter only forwards its calls to `service`. */
  class ClaudeServiceAdapter {
    const service: ClaudeService
    const models: seq<ModelOption>
    var selectedModel: string

    constructor (models: seq<ModelOption>, service: ClaudeService)
      ensures this.models == models && this.service == service
      ensures selectedModel == if |models| > 0 then models[0].id else ""
    {
      this.models := models;
      this.service := service;
      selectedModel := if |models| > 0 then models[0].id else "";
    }

    /** `setModel(modelId)`: only an offered model is selected. */
    method SetModel(modelId: string)
      modifies this`selectedModel
      ensures selectedModel == if HasModel(models, modelId) then modelId else old(selectedModel)
    {
      if HasModel(models, modelId) {
        selectedModel := modelId;
      }
    }

    /** `hasLoadedContexts()`: initialized, and the three slots hold text. */
    predicate HasLoadedContexts()
      reads this, service
    {
      service.isInitialized && |service.roleContext| > 0 && |service.personaContext| > 0
      && |service.scenarioContext| > 0
    }

    /** `streamMessage(...)`: `ClaudeService` has no `streamMessage`, so the
        call throws a `TypeError` before any chunk. */
    method StreamMessage(history: seq<ChatMessage>) returns (chunks: seq<string>, completions: seq<string>, rejected: Option<Thrown>)
      ensures chunks == [] && completions == []
      ensures rejected == Some(ErrorObject("TypeError", "this.claudeService.streamMessage is not a function"))
    {
      return [], [], Some(ErrorObject("TypeError", "this.claudeService.streamMessage is not a function"));
    }
  }
}
