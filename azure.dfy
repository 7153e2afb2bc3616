/** `AzureOpenAIService`: the OpenAI models served through Azure, reached
    with a token from the OAuth endpoint; the answers and the user-facing
    error messages. */
module Azure {
  import opened Wrappers
  import opened JsStrings
  import opened AiTypes
  import opened OpenAiCommon

  /** The models this service offers, `gpt-4` first. */
  const AzureModels: seq<ModelOption> := [
    ModelOption("gpt-4", "GPT-4", "Most advanced model (Azure)"),
    ModelOption("gpt-35-turbo", "GPT-3.5 Turbo", "Fast and efficient (Azure)")
  ]

  const DefaultApiVersion: string := "2023-05-15"

  const MissingClientId: string := "VITE_AZURE_OPENAI_CLIENT_ID is missing or empty in environment variables"
  const MissingClientSecret: string := "VITE_AZURE_OPENAI_CLIENT_SECRET is missing or empty in environment variables"

  /** Which message the `catch` of `sendMessage`/`streamMessage` shows. */
  datatype Diagnosis = AuthFailure | NotFound | RateLimited | OtherFailure

  /** The tests on `error.toString()`, in the order the source makes them:
      `401` or `auth` first, then `404`, then `429`. */
  function Diagnose(e: Thrown): (d: Diagnosis)
    ensures d == AuthFailure <==> IsAuthError(e)
    ensures d == NotFound <==> !IsAuthError(e) && Contains(ErrorText(e), "404")
    ensures d == RateLimited <==> !IsAuthError(e) && !Contains(ErrorText(e), "404") && Contains(ErrorText(e), "429")
  {
    if IsAuthError(e) then AuthFailure
    else if Contains(ErrorText(e), "404") then NotFound
    else if Contains(ErrorText(e), "429") then RateLimited
    else OtherFailure
  }

  /** The warning sign that opens every message. */
  const Warning: string := "\U{26A0}\U{FE0F} "

  function Heading(d: Diagnosis): string {
    match d
    case AuthFailure => "Authentication Error: "
    case NotFound => "Not Found Error: "
    case RateLimited => "Rate Limit Error: "
    case OtherFailure => "Azure OpenAI API Error: "
  }

  /** What follows the heading of each message. */
  function Details(d: Diagnosis, e: Thrown, model: string): (t: string)
    ensures d == NotFound ==> EndsWith(t, "- Selected model: " + model)
    ensures d == OtherFailure ==> t == MessageOfError(e) + ConsoleHint
  {
    match d
    case AuthFailure => AuthDetails
    case NotFound =>
      JoinedEnds(NotFoundLead, "- Selected model: " + model);
      NotFoundLead + ("- Selected model: " + model)
    case RateLimited => RateLimitDetails
    case OtherFailure => MessageOfError(e) + ConsoleHint
  }

  const AuthDetails: string :=
    "Could not authenticate with Azure OpenAI. \n"
    + "        Please check your API credentials in the .env file:\n"
    + "        - VITE_AZURE_OPENAI_CLIENT_ID\n"
    + "        - VITE_AZURE_OPENAI_CLIENT_SECRET\n"
    + "        - VITE_AZURE_OPENAI_APP_KEY"

  const NotFoundLead: string :=
    "The Azure OpenAI API endpoint or model was not found. \n"
    + "        Please check your API endpoint and model ID:\n"
    + "        - VITE_AZURE_OPENAI_ENDPOINT\n"
    + "        "

  const RateLimitDetails: string :=
    "Too many requests to Azure OpenAI API. \n"
    + "        Please wait a moment and try again."

  const ConsoleHint: string := "\n        \n        Please check the console logs for more details."

  /** The message returned (or streamed) in place of an answer for the
      failure `e` diagnosed as `d`: the warning sign, the heading of the
      diagnosis, then its details. */
  function ErrorMessage(d: Diagnosis, e: Thrown, model: string): (m: string)
    ensures StartsWith(m, Warning + Heading(d))
    ensures d == NotFound ==> EndsWith(m, "- Selected model: " + model)
    ensures d == OtherFailure ==> Contains(m, MessageOfError(e))
  {
    var head := Warning + Heading(d);
    var details := Details(d, e, model);
    MessageParts(head, details, d, e, model);
    head + details
  }

  /** The facts `ErrorMessage` promises, about a heading followed by
      details that end as those of the diagnosis `d` do. */
  lemma MessageParts(head: string, details: string, d: Diagnosis, e: Thrown, model: string)
    requires d == NotFound ==> EndsWith(details, "- Selected model: " + model)
    requires d == OtherFailure ==> details == MessageOfError(e) + ConsoleHint
    ensures StartsWith(head + details, head)
    ensures d == NotFound ==> EndsWith(head + details, "- Selected model: " + model)
    ensures d == OtherFailure ==> Contains(head + details, MessageOfError(e))
  {
    JoinedEnds(head, details);
    if d == NotFound {
      EndsWithJoined(head, details, "- Selected model: " + model);
    }
    if d == OtherFailure {
      ContainsLead(head, details, MessageOfError(e), ConsoleHint);
    }
  }

  /** What the retries throw as written: the names of the `try` block are
      out of scope in its `catch`. */
  const OutOfScope: Thrown := ErrorObject("ReferenceError", "openaiMessages is not defined")

  /** What `sendMessage` returns for the outcome of its request: the answer,
      or the message for the failure, whose heading names its diagnosis. */
  function ReplyFor(outcome: Result<string, Thrown>, model: string): (m: string)
    ensures outcome.Success? ==> m == outcome.value
    ensures outcome.Failure? ==> StartsWith(m, Warning + Heading(Diagnose(outcome.error)))
    ensures outcome.Failure? && IsAuthError(outcome.error) ==> StartsWith(m, Warning + "Authentication Error: ")
  {
    match outcome
    case Success(answer) => answer
    case Failure(e) => ErrorMessage(Diagnose(e), e, model)
  }

  /** What `streamMessage` passes to `onChunk` for the reply `s` of its
      request: the chunks with text, then the error message if the stream
      failed. */
  function StreamChunks(s: StreamReply, model: string): seq<string> {
    match StreamError(s)
    case None => StreamedChunks(s)
    case Some(e) => StreamedChunks(s) + [ErrorMessage(Diagnose(e), e, model)]
  }

  /** What `streamMessage` passes to `onComplete` for the reply `s`: the
      chunks joined, or the error message. */
  function StreamCompletion(s: StreamReply, model: string): string {
    match StreamError(s)
    case None => Concat(StreamedChunks(s))
    case Some(e) => ErrorMessage(Diagnose(e), e, model)
  }

  /** The completion is the last chunks joined: all of them after a stream
      that ended well; after a failure, the error message alone, which
      follows the chunks streamed before it and names its diagnosis. */
  lemma StreamReported(s: StreamReply, model: string)
    ensures JoinsLastChunks(StreamChunks(s, model), StreamCompletion(s, model))
    ensures StreamError(s).None? ==>
              StreamChunks(s, model) == StreamedChunks(s) && StreamCompletion(s, model) == Concat(StreamChunks(s, model))
    ensures StreamError(s).Some? ==>
              StreamChunks(s, model) == StreamedChunks(s) + [StreamCompletion(s, model)]
              && StartsWith(StreamCompletion(s, model), Warning + Heading(Diagnose(StreamError(s).value)))
  {
    var chunks := StreamChunks(s, model);
    var full := StreamCompletion(s, model);
    if StreamError(s).None? {
      CompletesAll(chunks, full);
    } else {
      CompletesSuffix(StreamedChunks(s), [full], full);
    }
  }

  class AzureOpenAIService {
    /** The key the OpenAI client was made with; `None` before the first. */
    var client: Option<string>
    var accessToken: string
    var tokenExpiryTime: int
    const clientId: string
    const clientSecret: string
    const appKey: string
    const endpoint: string
    const apiVersion: string
    const availableModels: seq<ModelOption>
    var selectedModelId: string
    var roleContext: string
    var personaContext: string
    var scenarioContext: string
    var generalInstructions: string
    var availableRoles: seq<string>
    var availablePersonas: seq<string>
    var availableScenarios: seq<string>
    var isInitialized: bool
    const tokens: TokenEndpoint
    const chat: ChatEndpoint

    /** The credentials come from the environment, `''` when unset; the
        API version defaults to `2023-05-15`. */
    constructor (clientId: string, clientSecret: string, appKey: string, endpoint: string, apiVersion: string,
                 tokens: TokenEndpoint, chat: ChatEndpoint)
      ensures this.clientId == clientId && this.clientSecret == clientSecret && this.appKey == appKey
      ensures this.endpoint == endpoint
      ensures this.apiVersion == if apiVersion == "" then DefaultApiVersion else apiVersion
      ensures this.tokens == tokens && this.chat == chat
      ensures availableModels == AzureModels && selectedModelId == "gpt-4"
      ensures client.None? && accessToken == "" && tokenExpiryTime == 0
      ensures roleContext == "" && personaContext == "" && scenarioContext == "" && generalInstructions == ""
      ensures availableRoles == [] && availablePersonas == [] && availableScenarios == []
      ensures !isInitialized
    {
      this.clientId := clientId;
      this.clientSecret := clientSecret;
      this.appKey := appKey;
      this.endpoint := endpoint;
      this.apiVersion := if apiVersion == "" then DefaultApiVersion else apiVersion;
      this.tokens := tokens;
      this.chat := chat;
      availableModels := AzureModels;
      selectedModelId := AzureModels[0].id;
      client := None;
      accessToken := "";
      tokenExpiryTime := 0;
      roleContext := "";
      personaContext := "";
      scenarioContext := "";
      generalInstructions := "";
      availableRoles := [];
      availablePersonas := [];
      availableScenarios := [];
      isInitialized := false;
    }

    /** `getAccessToken()`: the cached token while it is reusable, otherwise
        a new one from the endpoint, which is cached with its expiry; missing
        credentials fail before any request. */
    method GetAccessToken(now: int) returns (r: Result<string, Thrown>)
      modifies this`accessToken, this`tokenExpiryTime, tokens
      ensures r == old(TokenOutcome(now))
      ensures r.Success? ==> r.value == accessToken
      ensures TokenReusable(old(accessToken), old(tokenExpiryTime), now) ==>
                r == Success(old(accessToken)) && unchanged(tokens)
                && accessToken == old(accessToken) && tokenExpiryTime == old(tokenExpiryTime)
      ensures !TokenReusable(old(accessToken), old(tokenExpiryTime), now) && clientId == "" ==>
                r == Failure(NewError(MissingClientId)) && unchanged(tokens)
                && accessToken == old(accessToken) && tokenExpiryTime == old(tokenExpiryTime)
      ensures !TokenReusable(old(accessToken), old(tokenExpiryTime), now) && clientId != "" && clientSecret == "" ==>
                r == Failure(NewError(MissingClientSecret)) && unchanged(tokens)
                && accessToken == old(accessToken) && tokenExpiryTime == old(tokenExpiryTime)
      ensures !TokenReusable(old(accessToken), old(tokenExpiryTime), now) && clientId != "" && clientSecret != "" ==>
                tokens.requests == old(tokens.requests) + [(clientId, clientSecret)]
                && tokens.replies == Rest(old(tokens.replies))
                && match TokenFrom(old(tokens.Next()), now)
                   case Success(granted) =>
                     r == Success(granted.0) && accessToken == granted.0 && tokenExpiryTime == granted.1
                   case Failure(e) =>
                     r == Failure(e) && accessToken == old(accessToken) && tokenExpiryTime == old(tokenExpiryTime)
    {
      if TokenReusable(accessToken, tokenExpiryTime, now) {
        return Success(accessToken);
      }
      if clientId == "" {
        return Failure(NewError(MissingClientId));
      }
      if clientSecret == "" {
        return Failure(NewError(MissingClientSecret));
      }
      var reply := tokens.Post(clientId, clientSecret);
      match TokenFrom(reply, now)
      case Failure(e) =>
        r := Failure(e);
      case Success(granted) =>
        accessToken := granted.0;
        tokenExpiryTime := granted.1;
        r := Success(accessToken);
    }

    /** What `getAccessToken` yields at `now`: the cached token while it is
        reusable; otherwise the error for a missing credential, or what the
        endpoint's next reply makes of it. */
    function TokenOutcome(now: int): Result<string, Thrown>
      reads this`accessToken, this`tokenExpiryTime, tokens
    {
      if TokenReusable(accessToken, tokenExpiryTime, now) then Success(accessToken)
      else if clientId == "" then Failure(NewError(MissingClientId))
      else if clientSecret == "" then Failure(NewError(MissingClientSecret))
      else match TokenFrom(tokens.Next(), now)
           case Success(granted) => Success(granted.0)
           case Failure(e) => Failure(e)
    }

    /** A client can be made at time `now`: the cached token is reusable, or
        the credentials are set and the endpoint's next reply grants one. */
    predicate ClientReady(now: int)
      reads this`accessToken, this`tokenExpiryTime, tokens
    {
      TokenOutcome(now).Success?
    }

    /** The token requests `getAccessToken` makes at `now`: one with the
        credentials, unless the cached token is reusable or one of them is
        missing. */
    function Asked(now: int): seq<(string, string)>
      reads this`accessToken, this`tokenExpiryTime
    {
      if TokenReusable(accessToken, tokenExpiryTime, now) then [] else Credentials()
    }

    /** The credentials of a token request, none when one of them is unset. */
    function Credentials(): seq<(string, string)> {
      if clientId != "" && clientSecret != "" then [(clientId, clientSecret)] else []
    }

    /** `ensureClient()` as written: a new client is made with the token when
        there is none; an existing client is kept with the key it was made
        with, because `getAccessToken` has already stored the token that
        `this.accessToken !== token` compares against. */
    method EnsureClient(now: int) returns (r: Result<string, Thrown>)
      modifies this`client, this`accessToken, this`tokenExpiryTime, tokens
      ensures r.Success? <==> old(ClientReady(now))
      ensures r.Failure? ==> r == old(TokenOutcome(now)) && client == old(client)
      ensures r.Success? ==> client.Some? && r.value == client.value
      ensures old(client).Some? ==> client == old(client)
      ensures old(client).None? && r.Success? ==> client == Some(accessToken) && r == old(TokenOutcome(now))
      ensures r.Success? ==> r.value == old(KeyAt(now))
      ensures TokenReusable(old(accessToken), old(tokenExpiryTime), now) ==> unchanged(tokens)
      ensures TokenRefreshed(now)
    {
      var token := GetAccessToken(now);
      if token.Failure? {
        return token;
      }
      client := Some(ClientKeyAsWritten(client, accessToken, token.value));
      r := Success(client.value);
    }

    /** The key of the client `ensureClient` returns at `now`: an existing
        client's own key, whatever the token; otherwise the token
        `getAccessToken` yields. */
    function KeyAt(now: int): string
      reads this`client, this`accessToken, this`tokenExpiryTime, tokens
    {
      match client
      case Some(key) => key
      case None => if TokenOutcome(now).Success? then TokenOutcome(now).value else ""
    }

    /** `setModel(modelId)`: only an offered model is selected; any other id
        leaves the selection as it is. */
    method SetModel(modelId: string)
      modifies this`selectedModelId
      ensures selectedModelId == if HasModel(availableModels, modelId) then modelId else old(selectedModelId)
    {
      if HasModel(availableModels, modelId) {
        selectedModelId := modelId;
      }
    }

    /** `loadGeneralInstructions()`: the file's text, or `''` on failure. */
    method LoadGeneralInstructions(server: ContextServer) returns (text: string)
      modifies this`generalInstructions
      ensures text == generalInstructions == SlotText(server, GeneralInstructionsPath)
    {
      var fetched := Fetch(server, GeneralInstructionsPath);
      if fetched.Some? {
        generalInstructions := fetched.value;
      } else {
        generalInstructions := "";
      }
      text := generalInstructions;
    }

    /** `loadAvailableContexts()`: the server's listing, or the fixed
        fallback lists when it cannot be had. */
    method LoadAvailableContexts(server: ContextServer) returns (options: ContextOptions)
      modifies this`availableRoles, this`availablePersonas, this`availableScenarios
      ensures options == server.listing.GetOr(FallbackOptions)
      ensures availableRoles == options.roles && availablePersonas == options.personas
      ensures availableScenarios == options.scenarios
    {
      if server.listing.Some? {
        options := server.listing.value;
      } else {
        options := FallbackOptions;
      }
      availableRoles := options.roles;
      availablePersonas := options.personas;
      availableScenarios := options.scenarios;
    }

    /** `loadRoleContext(name)`: a fetched file fills the role slot and marks
        the service initialized; a failure empties the slot. */
    method LoadRoleContext(server: ContextServer, name: string) returns (text: string)
      modifies this`roleContext, this`isInitialized
      ensures text == roleContext == SlotText(server, ContextPath(Roles, name))
      ensures isInitialized == (old(isInitialized) || Fetch(server, ContextPath(Roles, name)).Some?)
    {
      var fetched := Fetch(server, ContextPath(Roles, name));
      if fetched.Some? {
        roleContext := fetched.value;
        isInitialized := true;
      } else {
        roleContext := "";
      }
      text := roleContext;
    }

    /** `loadPersonaContext(name)`, the same for the persona slot. */
    method LoadPersonaContext(server: ContextServer, name: string) returns (text: string)
      modifies this`personaContext, this`isInitialized
      ensures text == personaContext == SlotText(server, ContextPath(Personas, name))
      ensures isInitialized == (old(isInitialized) || Fetch(server, ContextPath(Personas, name)).Some?)
    {
      var fetched := Fetch(server, ContextPath(Personas, name));
      if fetched.Some? {
        personaContext := fetched.value;
        isInitialized := true;
      } else {
        personaContext := "";
      }
      text := personaContext;
    }

    /** `loadScenarioContext(name)`, the same for the scenario slot. */
    method LoadScenarioContext(server: ContextServer, name: string) returns (text: string)
      modifies this`scenarioContext, this`isInitialized
      ensures text == scenarioContext == SlotText(server, ContextPath(Scenarios, name))
      ensures isInitialized == (old(isInitialized) || Fetch(server, ContextPath(Scenarios, name)).Some?)
    {
      var fetched := Fetch(server, ContextPath(Scenarios, name));
      if fetched.Some? {
        scenarioContext := fetched.value;
        isInitialized := true;
      } else {
        scenarioContext := "";
      }
      text := scenarioContext;
    }

    /** `loadContextFiles(roleName, personaName, scenarioName)`, `''` standing
        for an omitted name: the general instructions, the listing, then for
        each slot the named context or else the first available one. Every
        step catches its own failures, so the service ends initialized. */
    method LoadContextFiles(server: ContextServer, roleName: string, personaName: string, scenarioName: string)
      modifies this`generalInstructions, this`availableRoles, this`availablePersonas, this`availableScenarios
      modifies this`roleContext, this`personaContext, this`scenarioContext, this`isInitialized
      ensures generalInstructions == SlotText(server, GeneralInstructionsPath)
      ensures var o := server.listing.GetOr(FallbackOptions);
              && availableRoles == o.roles && availablePersonas == o.personas && availableScenarios == o.scenarios
              && roleContext == SlotAfterLoad(old(roleContext), server, Roles, ContextToLoad(roleName, o.roles))
              && personaContext == SlotAfterLoad(old(personaContext), server, Personas, ContextToLoad(personaName, o.personas))
              && scenarioContext == SlotAfterLoad(old(scenarioContext), server, Scenarios, ContextToLoad(scenarioName, o.scenarios))
      ensures isInitialized
    {
      var _ := LoadGeneralInstructions(server);
      var contexts := LoadAvailableContexts(server);
      var role := ContextToLoad(roleName, contexts.roles);
      if role.Some? {
        var _ := LoadRoleContext(server, role.value);
      }
      var persona := ContextToLoad(personaName, contexts.personas);
      if persona.Some? {
        var _ := LoadPersonaContext(server, persona.value);
      }
      var scenario := ContextToLoad(scenarioName, contexts.scenarios);
      if scenario.Some? {
        var _ := LoadScenarioContext(server, scenario.value);
      }
      isInitialized := true;
    }

    /** The context state `loadContextFiles()` leaves when given no names:
        initialized, the general instructions, the listing or else the
        fallback lists, and in each slot the first available context (the
        slot keeps its text when its list is empty). */
    twostate predicate LoadedDefaults(server: ContextServer)
      reads this`generalInstructions, this`availableRoles, this`availablePersonas, this`availableScenarios
      reads this`roleContext, this`personaContext, this`scenarioContext, this`isInitialized
    {
      var o := server.listing.GetOr(FallbackOptions);
      && isInitialized
      && generalInstructions == SlotText(server, GeneralInstructionsPath)
      && availableRoles == o.roles && availablePersonas == o.personas && availableScenarios == o.scenarios
      && roleContext == SlotAfterLoad(old(roleContext), server, Roles, ContextToLoad("", o.roles))
      && personaContext == SlotAfterLoad(old(personaContext), server, Personas, ContextToLoad("", o.personas))
      && scenarioContext == SlotAfterLoad(old(scenarioContext), server, Scenarios, ContextToLoad("", o.scenarios))
    }

    /** None of the context state changed. */
    twostate predicate ContextsKept()
      reads this`generalInstructions, this`availableRoles, this`availablePersonas, this`availableScenarios
      reads this`roleContext, this`personaContext, this`scenarioContext, this`isInitialized
    {
      && generalInstructions == old(generalInstructions)
      && availableRoles == old(availableRoles) && availablePersonas == old(availablePersonas)
      && availableScenarios == old(availableScenarios)
      && roleContext == old(roleContext) && personaContext == old(personaContext)
      && scenarioContext == old(scenarioContext) && isInitialized == old(isInitialized)
    }

    /** The context state once `sendMessage` or `streamMessage` has made sure
        it is loaded: unchanged when the service was initialized, else what
        `loadContextFiles()` loads. */
    twostate predicate ContextsReady(server: ContextServer)
      reads this`generalInstructions, this`availableRoles, this`availablePersonas, this`availableScenarios
      reads this`roleContext, this`personaContext, this`scenarioContext, this`isInitialized
    {
      if old(isInitialized) then ContextsKept() else LoadedDefaults(server)
    }

    /** `hasLoadedContexts()`: initialized, and all four slots hold text. */
    predicate HasLoadedContexts()
      reads this
    {
      isInitialized && |roleContext| > 0 && |personaContext| > 0 && |scenarioContext| > 0
      && |generalInstructions| > 0
    }

    /** `buildSystemPrompt()`. */
    function BuildSystemPrompt(): string
      reads this`generalInstructions, this`roleContext, this`personaContext, this`scenarioContext
    {
      SystemPrompt(generalInstructions, roleContext, personaContext, scenarioContext)
    }

    /** What one attempt at `now` comes to: the error `ensureClient` throws
        when no client can be made, otherwise the content of the next
        completion. */
    function AttemptOutcome(now: int): Result<string, Thrown>
      reads this`accessToken, this`tokenExpiryTime, tokens, chat
    {
      match TokenOutcome(now)
      case Failure(e) => Failure(e)
      case Success(_) => ContentOf(chat.NextCompletion())
    }

    /** The same for a streamed attempt: when no client can be made, the
        stream fails before its first chunk. */
    function StreamAttempt(now: int): StreamReply
      reads this`accessToken, this`tokenExpiryTime, tokens, chat
    {
      match TokenOutcome(now)
      case Failure(e) => StreamFailed(e)
      case Success(_) => chat.NextStream()
    }

    /** The request `sendMessage` or `streamMessage` makes with `key`. */
    function Request(key: string, messages: seq<ApiMessage>, stream: bool): ChatRequest
      reads this`selectedModelId
    {
      ChatRequest(key, selectedModelId, messages, UserInfo(appKey), stream)
    }

    /** One request: a client, then the request on the client's key; the
        answer's content, or what was thrown on the way (by `ensureClient`
        when no request could be made). */
    method Attempt(messages: seq<ApiMessage>, now: int) returns (r: Result<string, Thrown>)
      modifies this`client, this`accessToken, this`tokenExpiryTime, tokens, chat
      ensures r == old(AttemptOutcome(now))
      ensures TokenRefreshed(now)
      ensures old(client).Some? ==> client == old(client)
      ensures old(ClientReady(now)) ==> client == Some(old(KeyAt(now)))
      ensures chat.requests == if old(ClientReady(now)) then old(chat.requests) + [Request(old(KeyAt(now)), messages, false)]
                              else old(chat.requests)
    {
      var key := EnsureClient(now);
      if key.Failure? {
        return Failure(key.error);
      }
      r := CompleteOnce(chat, Request(key.value, messages, false));
    }

    /** Between the old and the new state, exactly the token requests of
        `getAccessToken` were made. */
    twostate predicate TokenRefreshed(now: int)
      reads this, tokens
    {
      tokens.requests == old(tokens.requests) + old(Asked(now))
    }

    /** The retry in the `catch` of `sendMessage` as it is meant to work:
        the cached token is dropped, a fresh one is requested, and with it
        the same messages are sent once more, on the client's key. */
    method Retry(messages: seq<ApiMessage>, now: int) returns (r: Result<string, Thrown>)
      modifies this`client, this`accessToken, this`tokenExpiryTime, tokens, chat
      ensures tokens.requests == old(tokens.requests) + Credentials()
      ensures old(client).Some? ==> client == old(client)
      ensures Credentials() != [] && TokenFrom(old(tokens.Next()), now).Success? ==>
                client.Some? && chat.requests == old(chat.requests) + [Request(client.value, messages, false)]
                && r == ContentOf(old(chat.NextCompletion()))
      ensures !(Credentials() != [] && TokenFrom(old(tokens.Next()), now).Success?) ==>
                chat.requests == old(chat.requests) && r.Failure?
    {
      accessToken := "";
      tokenExpiryTime := 0;
      r := Attempt(messages, now);
    }

    /** The retry as written: `openaiMessages` and `userInfo` are declared
        inside the `try` block, so the `catch` cannot see them. A fresh token
        is requested, then building the request throws a `ReferenceError`,
        which the inner `catch` swallows: nothing is sent again, and the
        retry never recovers. */
    method RetryAsWritten(now: int) returns (r: Result<string, Thrown>)
      modifies this`client, this`accessToken, this`tokenExpiryTime, tokens
      ensures tokens.requests == old(tokens.requests) + Credentials()
      ensures old(client).Some? ==> client == old(client)
      ensures r.Failure?
      ensures Credentials() != [] && TokenFrom(old(tokens.Next()), now).Success? ==> r == Failure(OutOfScope)
    {
      accessToken := "";
      tokenExpiryTime := 0;
      var key := EnsureClient(now);
      if key.Failure? {
        return Failure(key.error);
      }
      r := Failure(OutOfScope);
    }

    /** The start of `sendMessage` and `streamMessage`: the contexts are
        loaded first if the service is not initialized, then the system
        prompt and the conversation become `openaiMessages`. */
    method PrepareMessages(server: ContextServer, history: seq<ChatMessage>) returns (messages: seq<ApiMessage>)
      modifies this`generalInstructions, this`availableRoles, this`availablePersonas, this`availableScenarios
      modifies this`roleContext, this`personaContext, this`scenarioContext, this`isInitialized
      ensures messages == OpenAiMessages(BuildSystemPrompt(), history)
      ensures isInitialized
      ensures ContextsReady(server)
      ensures old(isInitialized) ==>
                roleContext == old(roleContext) && personaContext == old(personaContext)
                && scenarioContext == old(scenarioContext) && generalInstructions == old(generalInstructions)
    {
      if !isInitialized {
        LoadContextFiles(server, "", "", "");
      }
      messages := BuildMessages(BuildSystemPrompt(), history);
    }

    /** The `try`/`catch` of `sendMessage` once the messages are built, as
        written: one request when a client can be made; the answer, or the
        error message for the first failure, since the retry after an
        authentication failure only requests a fresh token. */
    method Exchange(messages: seq<ApiMessage>, now: int) returns (reply: string)
      modifies this`client, this`accessToken, this`tokenExpiryTime, tokens, chat
      ensures reply == ReplyFor(old(AttemptOutcome(now)), selectedModelId)
      ensures old(client).Some? ==> client == old(client)
      ensures old(ClientReady(now)) ==> client == Some(old(KeyAt(now)))
      ensures chat.requests == if old(ClientReady(now)) then old(chat.requests) + [Request(old(KeyAt(now)), messages, false)]
                              else old(chat.requests)
      ensures tokens.requests == if old(AttemptOutcome(now)).Failure? && IsAuthError(old(AttemptOutcome(now)).error)
                then old(tokens.requests) + old(Asked(now)) + Credentials() else old(tokens.requests) + old(Asked(now))
    {
      var first := Attempt(messages, now);
      if first.Failure? && IsAuthError(first.error) {
        var _ := RetryAsWritten(now);
      }
      reply := ReplyFor(first, selectedModelId);
    }

    /** `sendMessage(messages)`: the contexts are loaded first if the service
        is not initialized; the system prompt and the conversation are sent
        at most once; and every failure becomes a message returned in place
        of the answer, never an exception. */
    method SendMessage(server: ContextServer, history: seq<ChatMessage>, now: int) returns (reply: string)
      modifies this`generalInstructions, this`availableRoles, this`availablePersonas, this`availableScenarios
      modifies this`roleContext, this`personaContext, this`scenarioContext, this`isInitialized
      modifies this`client, this`accessToken, this`tokenExpiryTime, tokens, chat
      ensures isInitialized
      ensures old(isInitialized) ==>
                roleContext == old(roleContext) && personaContext == old(personaContext)
                && scenarioContext == old(scenarioContext) && generalInstructions == old(generalInstructions)
      ensures ContextsReady(server)
      ensures reply == ReplyFor(old(AttemptOutcome(now)), selectedModelId)
      ensures old(client).Some? ==> client == old(client)
      ensures old(ClientReady(now)) ==> client == Some(old(KeyAt(now)))
      ensures chat.requests == if old(ClientReady(now))
                then old(chat.requests) + [Request(old(KeyAt(now)), OpenAiMessages(BuildSystemPrompt(), history), false)]
                else old(chat.requests)
      ensures tokens.requests == if old(AttemptOutcome(now)).Failure? && IsAuthError(old(AttemptOutcome(now)).error)
                then old(tokens.requests) + old(Asked(now)) + Credentials() else old(tokens.requests) + old(Asked(now))
    {
      ghost var ready, key, outcome, asked := ClientReady(now), KeyAt(now), AttemptOutcome(now), Asked(now);
      var messages := PrepareMessages(server, history);
      assert ClientReady(now) == ready && KeyAt(now) == key && AttemptOutcome(now) == outcome && Asked(now) == asked;
      reply := Exchange(messages, now);
    }

    /** One streamed request: the chunks passed to `onChunk`, and the whole
        answer if the stream ended without an error, or what was thrown. */
    method AttemptStream(messages: seq<ApiMessage>, now: int) returns (chunks: seq<string>, full: Result<string, Thrown>)
      modifies this`client, this`accessToken, this`tokenExpiryTime, tokens, chat
      ensures StreamAnswer(old(StreamAttempt(now)), chunks, full)
      ensures chunks == StreamedChunks(old(StreamAttempt(now)))
      ensures full.Success? <==> StreamError(old(StreamAttempt(now))).None?
      ensures full.Failure? ==> full.error == StreamError(old(StreamAttempt(now))).value
      ensures TokenRefreshed(now)
      ensures old(client).Some? ==> client == old(client)
      ensures old(ClientReady(now)) ==> client == Some(old(KeyAt(now)))
      ensures chat.requests == if old(ClientReady(now)) then old(chat.requests) + [Request(old(KeyAt(now)), messages, true)]
                              else old(chat.requests)
    {
      var key := EnsureClient(now);
      if key.Failure? {
        return [], Failure(key.error);
      }
      chunks, full := StreamOnce(chat, Request(key.value, messages, true));
    }

    /** The streaming retry as it is meant to work: the token is dropped and
        the same request is streamed once more. */
    method RetryStream(messages: seq<ApiMessage>, now: int) returns (chunks: seq<string>, full: Result<string, Thrown>)
      modifies this`client, this`accessToken, this`tokenExpiryTime, tokens, chat
      ensures tokens.requests == old(tokens.requests) + Credentials()
      ensures old(client).Some? ==> client == old(client)
      ensures Credentials() != [] && TokenFrom(old(tokens.Next()), now).Success? ==>
                client.Some? && chat.requests == old(chat.requests) + [Request(client.value, messages, true)]
                && StreamAnswer(old(chat.NextStream()), chunks, full)
      ensures !(Credentials() != [] && TokenFrom(old(tokens.Next()), now).Success?) ==>
                chat.requests == old(chat.requests) && chunks == [] && full.Failure?
    {
      accessToken := "";
      tokenExpiryTime := 0;
      chunks, full := AttemptStream(messages, now);
    }

    /** The streaming retry as written: as in `RetryAsWritten`, a fresh
        token is requested and the request then throws before it is made, so
        nothing is streamed. */
    method RetryStreamAsWritten(now: int) returns (chunks: seq<string>, full: Result<string, Thrown>)
      modifies this`client, this`accessToken, this`tokenExpiryTime, tokens
      ensures tokens.requests == old(tokens.requests) + Credentials()
      ensures old(client).Some? ==> client == old(client)
      ensures chunks == [] && full.Failure?
      ensures Credentials() != [] && TokenFrom(old(tokens.Next()), now).Success? ==> full == Failure(OutOfScope)
    {
      accessToken := "";
      tokenExpiryTime := 0;
      var key := EnsureClient(now);
      if key.Failure? {
        return [], Failure(key.error);
      }
      chunks, full := [], Failure(OutOfScope);
    }

    /** The `catch` of `streamMessage` for the failure `error`, as written:
        after an authentication failure a fresh token is requested and the
        retry fails unseen; the error message is then streamed as the last
        chunk and is the completion. */
    method RecoverStream(now: int, error: Thrown) returns (chunks: seq<string>, completion: string)
      modifies this`client, this`accessToken, this`tokenExpiryTime, tokens
      ensures completion == ErrorMessage(Diagnose(error), error, selectedModelId) && chunks == [completion]
      ensures tokens.requests == if IsAuthError(error) then old(tokens.requests) + Credentials() else old(tokens.requests)
      ensures old(client).Some? ==> client == old(client)
    {
      if IsAuthError(error) {
        var _, _ := RetryStreamAsWritten(now);
      }
      completion := ErrorMessage(Diagnose(error), error, selectedModelId);
      chunks := [completion];
    }

    /** The `try`/`catch` of `streamMessage` once the messages are built,
        with the arguments of the `onChunk` calls and of the `onComplete`
        calls as results: one request when a client can be made, and
        exactly one completion, the chunks joined or the error message,
        which is then also the last chunk. */
    method ExchangeStream(messages: seq<ApiMessage>, now: int) returns (chunks: seq<string>, completions: seq<string>)
      modifies this`client, this`accessToken, this`tokenExpiryTime, tokens, chat
      ensures chunks == StreamChunks(old(StreamAttempt(now)), selectedModelId)
      ensures completions == [StreamCompletion(old(StreamAttempt(now)), selectedModelId)]
      ensures old(client).Some? ==> client == old(client)
      ensures old(ClientReady(now)) ==> client == Some(old(KeyAt(now)))
      ensures chat.requests == if old(ClientReady(now)) then old(chat.requests) + [Request(old(KeyAt(now)), messages, true)]
                              else old(chat.requests)
      ensures tokens.requests == if StreamError(old(StreamAttempt(now))).Some? && IsAuthError(StreamError(old(StreamAttempt(now))).value)
                then old(tokens.requests) + old(Asked(now)) + Credentials() else old(tokens.requests) + old(Asked(now))
    {
      var full;
      chunks, full := AttemptStream(messages, now);
      if full.Success? {
        return chunks, [full.value];
      }
      var more, completion := RecoverStream(now, full.error);
      chunks := chunks + more;
      completions := [completion];
    }

    /** `streamMessage(messages, onChunk, onComplete)`: the contexts are
        loaded first if the service is not initialized, then the system
        prompt and the conversation are streamed at most once. */
    method StreamMessage(server: ContextServer, history: seq<ChatMessage>, now: int)
      returns (chunks: seq<string>, completions: seq<string>)
      modifies this`generalInstructions, this`availableRoles, this`availablePersonas, this`availableScenarios
      modifies this`roleContext, this`personaContext, this`scenarioContext, this`isInitialized
      modifies this`client, this`accessToken, this`tokenExpiryTime, tokens, chat
      ensures isInitialized
      ensures old(isInitialized) ==>
                roleContext == old(roleContext) && personaContext == old(personaContext)
                && scenarioContext == old(scenarioContext) && generalInstructions == old(generalInstructions)
      ensures ContextsReady(server)
      ensures chunks == StreamChunks(old(StreamAttempt(now)), selectedModelId)
      ensures completions == [StreamCompletion(old(StreamAttempt(now)), selectedModelId)]
      ensures old(client).Some? ==> client == old(client)
      ensures old(ClientReady(now)) ==> client == Some(old(KeyAt(now)))
      ensures chat.requests == if old(ClientReady(now))
                then old(chat.requests) + [Request(old(KeyAt(now)), OpenAiMessages(BuildSystemPrompt(), history), true)]
                else old(chat.requests)
    {
      ghost var ready, key, attempt := ClientReady(now), KeyAt(now), StreamAttempt(now);
      var messages := PrepareMessages(server, history);
      assert ClientReady(now) == ready && KeyAt(now) == key && StreamAttempt(now) == attempt;
      chunks, completions := ExchangeStream(messages, now);
    }
  }
}
