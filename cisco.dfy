/** `CiscoOpenAIService`: the OpenAI models served by Cisco's gateway,
    reached with a token from Cisco's OAuth endpoint. Unlike the Azure
    service it rejects when no client can be made, and a failed request
    rejects with its original error. */
module Cisco {
  import opened Wrappers
  import opened JsStrings
  import opened AiTypes
  import opened OpenAiCommon

  /** The models this service offers, `gpt-4o` first. */
  const CiscoModels: seq<ModelOption> := [
    ModelOption("gpt-4o", "GPT-4o", "Most advanced model with 120K context"),
    ModelOption("gpt-4o-mini", "GPT-4o Mini", "Fast and efficient with 120K context")
  ]

  const StreamFailurePrefix: string := "Error: Unable to get response from Cisco OpenAI API. "

  /** The text streamed in place of an answer after a failure. */
  function StreamFailureMessage(e: Thrown): (m: string)
    ensures StartsWith(m, StreamFailurePrefix) && EndsWith(m, MessageOfError(e))
  {
    JoinedEnds(StreamFailurePrefix, MessageOfError(e));
    StreamFailurePrefix + MessageOfError(e)
  }

  /** Whether `sendMessage`, once its client is made, sends its request a
      second time, for the first answer and whether the retry gets a token:
      after an authentication failure that the retry gets a token for. */
  predicate Resent(first: Completion, granted: bool) {
    ContentOf(first).Failure? && IsAuthError(ContentOf(first).error) && granted
  }

  /** What `sendMessage` resolves or rejects with once its client is made,
      for the first answer, whether the retry gets a token, and the retried
      answer: a failure is always the first one, thrown again, and the
      retried content is used only after an authentication failure. */
  function SendReport(first: Completion, granted: bool, second: Completion): (r: Result<string, Thrown>)
    ensures r.Failure? ==> r == ContentOf(first)
    ensures r != ContentOf(first) ==> Resent(first, granted) && r.Success? && r == ContentOf(second)
    ensures !Resent(first, granted) ==> r == ContentOf(first)
  {
    var c := ContentOf(first);
    if Resent(first, granted) && ContentOf(second).Success? then ContentOf(second) else c
  }

  /** Whether `streamMessage`, once its client is made, streams its request
      a second time: after an authentication failure that the retry gets a
      token for. */
  predicate StreamResent(s: StreamReply, granted: bool) {
    StreamError(s).Some? && IsAuthError(StreamError(s).value) && granted
  }

  /** The `catch` of `streamMessage` for the failure `error`, with the
      chunks it passes on and its completion: a retried stream that
      completes, or else the failure text as the last chunk and the
      completion. */
  function Recovery(error: Thrown, granted: bool, retried: StreamReply): (seq<string>, string) {
    var msg := StreamFailureMessage(error);
    if IsAuthError(error) && granted then
      if StreamError(retried).None? then (StreamedChunks(retried), Concat(StreamedChunks(retried)))
      else (StreamedChunks(retried) + [msg], msg)
    else ([msg], msg)
  }

  /** What `streamMessage` passes to `onChunk` and to `onComplete` once its
      client is made, for the first stream, whether a retry gets a token,
      and the retried stream. */
  function StreamReport(s: StreamReply, granted: bool, retried: StreamReply): (seq<string>, string) {
    match StreamError(s)
    case None => (StreamedChunks(s), Concat(StreamedChunks(s)))
    case Some(e) =>
      var rest := Recovery(e, granted, retried);
      (StreamedChunks(s) + rest.0, rest.1)
  }

  /** The `catch` of `streamMessage` ends with one completion, the last
      chunks joined: the retried stream's chunks when it completes, else the
      failure text, which only then is a chunk of its own. */
  lemma RecoveryJoins(error: Thrown, granted: bool, retried: StreamReply)
    ensures var report := Recovery(error, granted, retried);
            && JoinsLastChunks(report.0, report.1)
            && (report.1 == StreamFailureMessage(error)
                || (IsAuthError(error) && granted && StreamError(retried).None? && report.1 == Concat(report.0)))
            && (!(IsAuthError(error) && granted) ==> report.0 == [report.1])
  {
    var report := Recovery(error, granted, retried);
    if IsAuthError(error) && granted && StreamError(retried).None? {
      CompletesAll(report.0, report.1);
    } else if IsAuthError(error) && granted {
      CompletesSuffix(StreamedChunks(retried), [report.1], report.1);
    } else {
      CompletesSuffix([], [report.1], report.1);
    }
  }

  /** What `streamMessage` reports: the first stream's chunks always come
      first, the completion is the last chunks joined, and a failure that is
      not an authentication failure ends with its text. */
  lemma StreamReportJoins(s: StreamReply, granted: bool, retried: StreamReply)
    ensures var report := StreamReport(s, granted, retried);
            && JoinsLastChunks(report.0, report.1)
            && |StreamedChunks(s)| <= |report.0| && report.0[..|StreamedChunks(s)|] == StreamedChunks(s)
            && (StreamError(s).None? ==> report == (StreamedChunks(s), Concat(StreamedChunks(s))))
            && (StreamError(s).Some? && !IsAuthError(StreamError(s).value) ==>
                  report.1 == StreamFailureMessage(StreamError(s).value) && report.0 == StreamedChunks(s) + [report.1])
  {
    var report := StreamReport(s, granted, retried);
    match StreamError(s)
    case None =>
      CompletesAll(report.0, report.1);
      assert report.0[..|StreamedChunks(s)|] == StreamedChunks(s);
    case Some(e) =>
      var rest := Recovery(e, granted, retried);
      RecoveryJoins(e, granted, retried);
      CompletesAfter(StreamedChunks(s), rest.0, rest.1);
      assert (StreamedChunks(s) + rest.0)[..|StreamedChunks(s)|] == StreamedChunks(s);
  }

  class CiscoOpenAIService {
    /** The key the OpenAI client was made with; `None` before the first. */
    var client: Option<string>
    var accessToken: string
    var tokenExpiryTime: int
    const clientId: string
    const clientSecret: string
    const appKey: string
    const availableModels: seq<ModelOption>
    var selectedModelId: string
    var roleContext: string
    var personaContext: string
    var scenarioContext: string
    var generalInstructions: string
    var availableRoles: seq<string>
    var availablePersonas: seq<string>
    var availableScenarios: seq<string>
    var isInitialized: bool
    const tokens: TokenEndpoint
    const chat: ChatEndpoint

    /** The credentials come from the environment, `''` when unset. */
    constructor (clientId: string, clientSecret: string, appKey: string, tokens: TokenEndpoint, chat: ChatEndpoint)
      ensures this.clientId == clientId && this.clientSecret == clientSecret && this.appKey == appKey
      ensures this.tokens == tokens && this.chat == chat
      ensures availableModels == CiscoModels && selectedModelId == "gpt-4o"
      ensures client.None? && accessToken == "" && tokenExpiryTime == 0
      ensures roleContext == "" && personaContext == "" && scenarioContext == "" && generalInstructions == ""
      ensures availableRoles == [] && availablePersonas == [] && availableScenarios == []
      ensures !isInitialized
    {
      this.clientId := clientId;
      this.clientSecret := clientSecret;
      this.appKey := appKey;
      this.tokens := tokens;
      this.chat := chat;
      availableModels := CiscoModels;
      selectedModelId := CiscoModels[0].id;
      client := None;
      accessToken := "";
      tokenExpiryTime := 0;
      roleContext := "";
      personaContext := "";
      scenarioContext := "";
      generalInstructions := "";
      availableRoles := [];
      availablePersonas := [];
      availableScenarios := [];
      isInitialized := false;
    }

    /** `getAccessToken()`: the cached token while it is reusable, otherwise
        a new one from the endpoint (the credentials are sent whatever they
        are), cached with its expiry. */
    method GetAccessToken(now: int) returns (r: Result<string, Thrown>)
      modifies this`accessToken, this`tokenExpiryTime, tokens
      ensures r == old(TokenOutcome(now))
      ensures r.Success? ==> r.value == accessToken
      ensures TokenReusable(old(accessToken), old(tokenExpiryTime), now) ==>
                r == Success(old(accessToken)) && unchanged(tokens)
                && accessToken == old(accessToken) && tokenExpiryTime == old(tokenExpiryTime)
      ensures !TokenReusable(old(accessToken), old(tokenExpiryTime), now) ==>
                tokens.requests == old(tokens.requests) + [(clientId, clientSecret)]
                && tokens.replies == Rest(old(tokens.replies))
                && match TokenFrom(old(tokens.Next()), now)
                   case Success(granted) =>
                     r == Success(granted.0) && accessToken == granted.0 && tokenExpiryTime == granted.1
                   case Failure(e) =>
                     r == Failure(e) && accessToken == old(accessToken) && tokenExpiryTime == old(tokenExpiryTime)
    {
      if TokenReusable(accessToken, tokenExpiryTime, now) {
        return Success(accessToken);
      }
      var reply := tokens.Post(clientId, clientSecret);
      match TokenFrom(reply, now)
      case Failure(e) =>
        r := Failure(e);
      case Success(granted) =>
        accessToken := granted.0;
        tokenExpiryTime := granted.1;
        r := Success(accessToken);
    }

    /** What `getAccessToken` yields at `now`: the cached token while it is
        reusable, else what the endpoint's next reply makes of it. */
    function TokenOutcome(now: int): Result<string, Thrown>
      reads this`accessToken, this`tokenExpiryTime, tokens
    {
      if TokenReusable(accessToken, tokenExpiryTime, now) then Success(accessToken)
      else match TokenFrom(tokens.Next(), now)
           case Success(granted) => Success(granted.0)
           case Failure(e) => Failure(e)
    }

    /** A client can be made at time `now`: the cached token is reusable, or
        the endpoint's next reply grants one. */
    predicate ClientReady(now: int)
      reads this`accessToken, this`tokenExpiryTime, tokens
    {
      TokenOutcome(now).Success?
    }

    /** The token reply the retry gets, when `ensureClient` at `now` came
        first: the endpoint's next reply if the cached token was reused, the
        one after it otherwise. */
    function RetryTokenReply(now: int): TokenReply
      reads this`accessToken, this`tokenExpiryTime, tokens
    {
      if TokenReusable(accessToken, tokenExpiryTime, now) then tokens.Next() else tokens.SecondReply()
    }

    /** Between the old and the new state, a token was asked for exactly
        when the cached one was not reusable. */
    twostate predicate TokenRefreshed(now: int)
      reads this, tokens
    {
      if TokenReusable(old(accessToken), old(tokenExpiryTime), now)
      then tokens.requests == old(tokens.requests) && tokens.replies == old(tokens.replies)
      else tokens.requests == old(tokens.requests) + [(clientId, clientSecret)]
           && tokens.replies == Rest(old(tokens.replies))
    }

    /** `ensureClient()` as written: a new client is made with the token when
        there is none; an existing client is kept with the key it was made
        with, because `getAccessToken` has already stored the token that
        `this.accessToken !== token` compares against. When no token can be
        had, the token endpoint's error is thrown. */
    method EnsureClient(now: int) returns (r: Result<string, Thrown>)
      modifies this`client, this`accessToken, this`tokenExpiryTime, tokens
      ensures r.Success? <==> old(ClientReady(now))
      ensures r.Failure? ==> r == old(TokenOutcome(now)) && client == old(client)
      ensures r.Success? ==> client.Some? && r.value == client.value
      ensures old(client).Some? ==> client == old(client)
      ensures old(client).None? && r.Success? ==> client == Some(accessToken) && r == old(TokenOutcome(now))
      ensures r.Success? ==> r.value == old(KeyAt(now))
      ensures TokenRefreshed(now)
    {
      var token := GetAccessToken(now);
      if token.Failure? {
        return token;
      }
      client := Some(ClientKeyAsWritten(client, accessToken, token.value));
      r := Success(client.value);
    }

    /** The key of the client `ensureClient` returns at `now`: an existing
        client's own key, whatever the token; otherwise the token
        `getAccessToken` yields. */
    function KeyAt(now: int): string
      reads this`client, this`accessToken, this`tokenExpiryTime, tokens
    {
      match client
      case Some(key) => key
      case None => if TokenOutcome(now).Success? then TokenOutcome(now).value else ""
    }

    /** `setModel(modelId)`: only an offered model is selected; any other id
        leaves the selection as it is. */
    method SetModel(modelId: string)
      modifies this`selectedModelId
      ensures selectedModelId == if HasModel(availableModels, modelId) then modelId else old(selectedModelId)
    {
      if HasModel(availableModels, modelId) {
        selectedModelId := modelId;
      }
    }

    /** `loadGeneralInstructions()`: the file's text, or `''` on failure. */
    method LoadGeneralInstructions(server: ContextServer) returns (text: string)
      modifies this`generalInstructions
      ensures text == generalInstructions == SlotText(server, GeneralInstructionsPath)
    {
      var fetched := Fetch(server, GeneralInstructionsPath);
      if fetched.Some? {
        generalInstructions := fetched.value;
      } else {
        generalInstructions := "";
      }
      text := generalInstructions;
    }

    /** `loadAvailableContexts()`: the server's listing, or the fixed
        fallback lists when it cannot be had. */
    method LoadAvailableContexts(server: ContextServer) returns (options: ContextOptions)
      modifies this`availableRoles, this`availablePersonas, this`availableScenarios
      ensures options == server.listing.GetOr(FallbackOptions)
      ensures availableRoles == options.roles && availablePersonas == options.personas
      ensures availableScenarios == options.scenarios
    {
      if server.listing.Some? {
        options := server.listing.value;
      } else {
        options := FallbackOptions;
      }
      availableRoles := options.roles;
      availablePersonas := options.personas;
      availableScenarios := options.scenarios;
    }

    /** `loadRoleContext(name)`: a fetched file fills the role slot and marks
        the service initialized; a failure empties the slot. */
    method LoadRoleContext(server: ContextServer, name: string) returns (text: string)
      modifies this`roleContext, this`isInitialized
      ensures text == roleContext == SlotText(server, ContextPath(Roles, name))
      ensures isInitialized == (old(isInitialized) || Fetch(server, ContextPath(Roles, name)).Some?)
    {
      var fetched := Fetch(server, ContextPath(Roles, name));
      if fetched.Some? {
        roleContext := fetched.value;
        isInitialized := true;
      } else {
        roleContext := "";
      }
      text := roleContext;
    }

    /** `loadPersonaContext(name)`, the same for the persona slot. */
    method LoadPersonaContext(server: ContextServer, name: string) returns (text: string)
      modifies this`personaContext, this`isInitialized
      ensures text == personaContext == SlotText(server, ContextPath(Personas, name))
      ensures isInitialized == (old(isInitialized) || Fetch(server, ContextPath(Personas, name)).Some?)
    {
      var fetched := Fetch(server, ContextPath(Personas, name));
      if fetched.Some? {
        personaContext := fetched.value;
        isInitialized := true;
      } else {
        personaContext := "";
      }
      text := personaContext;
    }

    /** `loadScenarioContext(name)`, the same for the scenario slot. */
    method LoadScenarioContext(server: ContextServer, name: string) returns (text: string)
      modifies this`scenarioContext, this`isInitialized
      ensures text == scenarioContext == SlotText(server, ContextPath(Scenarios, name))
      ensures isInitialized == (old(isInitialized) || Fetch(server, ContextPath(Scenarios, name)).Some?)
    {
      var fetched := Fetch(server, ContextPath(Scenarios, name));
      if fetched.Some? {
        scenarioContext := fetched.value;
        isInitialized := true;
      } else {
        scenarioContext := "";
      }
      text := scenarioContext;
    }

    /** `loadContextFiles(roleName, personaName, scenarioName)`, `''` standing
        for an omitted name: the general instructions, the listing, then for
        each slot the named context or else the first available one. */
    method LoadContextFiles(server: ContextServer, roleName: string, personaName: string, scenarioName: string)
      modifies this`generalInstructions, this`availableRoles, this`availablePersonas, this`availableScenarios
      modifies this`roleContext, this`personaContext, this`scenarioContext, this`isInitialized
      ensures generalInstructions == SlotText(server, GeneralInstructionsPath)
      ensures var o := server.listing.GetOr(FallbackOptions);
              && availableRoles == o.roles && availablePersonas == o.personas && availableScenarios == o.scenarios
              && roleContext == SlotAfterLoad(old(roleContext), server, Roles, ContextToLoad(roleName, o.roles))
              && personaContext == SlotAfterLoad(old(personaContext), server, Personas, ContextToLoad(personaName, o.personas))
              && scenarioContext == SlotAfterLoad(old(scenarioContext), server, Scenarios, ContextToLoad(scenarioName, o.scenarios))
      ensures isInitialized
    {
      var _ := LoadGeneralInstructions(server);
      var contexts := LoadAvailableContexts(server);
      var role := ContextToLoad(roleName, contexts.roles);
      if role.Some? {
        var _ := LoadRoleContext(server, role.value);
      }
      var persona := ContextToLoad(personaName, contexts.personas);
      if persona.Some? {
        var _ := LoadPersonaContext(server, persona.value);
      }
      var scenario := ContextToLoad(scenarioName, contexts.scenarios);
      if scenario.Some? {
        var _ := LoadScenarioContext(server, scenario.value);
      }
      isInitialized := true;
    }

    /** The context state `loadContextFiles()` leaves when given no names:
        initialized, the general instructions, the listing or else the
        fallback lists, and in each slot the first available context (the
        slot keeps its text when its list is empty). */
    twostate predicate LoadedDefaults(server: ContextServer)
      reads this`generalInstructions, this`availableRoles, this`availablePersonas, this`availableScenarios
      reads this`roleContext, this`personaContext, this`scenarioContext, this`isInitialized
    {
      var o := server.listing.GetOr(FallbackOptions);
      && isInitialized
      && generalInstructions == SlotText(server, GeneralInstructionsPath)
      && availableRoles == o.roles && availablePersonas == o.personas && availableScenarios == o.scenarios
      && roleContext == SlotAfterLoad(old(roleContext), server, Roles, ContextToLoad("", o.roles))
      && personaContext == SlotAfterLoad(old(personaContext), server, Personas, ContextToLoad("", o.personas))
      && scenarioContext == SlotAfterLoad(old(scenarioContext), server, Scenarios, ContextToLoad("", o.scenarios))
    }

    /** None of the context state changed. */
    twostate predicate ContextsKept()
      reads this`generalInstructions, this`availableRoles, this`availablePersonas, this`availableScenarios
      reads this`roleContext, this`personaContext, this`scenarioContext, this`isInitialized
    {
      && generalInstructions == old(generalInstructions)
      && availableRoles == old(availableRoles) && availablePersonas == old(availablePersonas)
      && availableScenarios == old(availableScenarios)
      && roleContext == old(roleContext) && personaContext == old(personaContext)
      && scenarioContext == old(scenarioContext) && isInitialized == old(isInitialized)
    }

    /** The context state once `sendMessage` or `streamMessage` has made sure
        it is loaded: unchanged when the service was initialized, else what
        `loadContextFiles()` loads. */
    twostate predicate ContextsReady(server: ContextServer)
      reads this`generalInstructions, this`availableRoles, this`availablePersonas, this`availableScenarios
      reads this`roleContext, this`personaContext, this`scenarioContext, this`isInitialized
    {
      if old(isInitialized) then ContextsKept() else LoadedDefaults(server)
    }

    /** `hasLoadedContexts()`: initialized, and all four slots hold text. */
    predicate HasLoadedContexts()
      reads this
    {
      isInitialized && |roleContext| > 0 && |personaContext| > 0 && |scenarioContext| > 0
      && |generalInstructions| > 0
    }

    /** `buildSystemPrompt()`. */
    function BuildSystemPrompt(): string
      reads this`generalInstructions, this`roleContext, this`personaContext, this`scenarioContext
    {
      SystemPrompt(generalInstructions, roleContext, personaContext, scenarioContext)
    }

    /** The request `sendMessage` or `streamMessage` makes with `key`. */
    function Request(key: string, messages: seq<ApiMessage>, stream: bool): ChatRequest
      reads this`selectedModelId
    {
      ChatRequest(key, selectedModelId, messages, UserInfo(appKey), stream)
    }

    /** Between the old and the new state, the request on `key` with
        `messages` for the selected model was made once, or `twice`. */
    twostate predicate Sent(key: string, messages: seq<ApiMessage>, stream: bool, twice: bool)
      reads this, chat
    {
      chat.requests == old(chat.requests)
        + if twice then [Request(key, messages, stream), Request(key, messages, stream)] else [Request(key, messages, stream)]
    }

    /** The start of `sendMessage` and `streamMessage`: the contexts are
        loaded first if the service is not initialized, then the system
        prompt and the conversation become `openaiMessages`. The source
        builds them after `ensureClient`, which does not touch the contexts
        they are built from. */
    method PrepareMessages(server: ContextServer, history: seq<ChatMessage>) returns (messages: seq<ApiMessage>)
      modifies this`generalInstructions, this`availableRoles, this`availablePersonas, this`availableScenarios
      modifies this`roleContext, this`personaContext, this`scenarioContext, this`isInitialized
      ensures messages == OpenAiMessages(BuildSystemPrompt(), history)
      ensures isInitialized
      ensures ContextsReady(server)
      ensures old(isInitialized) ==>
                roleContext == old(roleContext) && personaContext == old(personaContext)
                && scenarioContext == old(scenarioContext) && generalInstructions == old(generalInstructions)
    {
      if !isInitialized {
        LoadContextFiles(server, "", "", "");
      }
      messages := BuildMessages(BuildSystemPrompt(), history);
    }

    /** The retry in the `catch` of `sendMessage`: the cached token is
        dropped and a fresh one requested; as written, `ensureClient` keeps
        the existing client, so with a token the same messages are sent again
        on the old key. */
    method Retry(messages: seq<ApiMessage>, now: int) returns (r: Result<string, Thrown>)
      requires client.Some?
      modifies this`client, this`accessToken, this`tokenExpiryTime, tokens, chat
      ensures client == old(client)
      ensures tokens.requests == old(tokens.requests) + [(clientId, clientSecret)]
      ensures TokenFrom(old(tokens.Next()), now).Success? ==>
                chat.requests == old(chat.requests) + [Request(client.value, messages, false)]
                && r == ContentOf(old(chat.NextCompletion()))
      ensures TokenFrom(old(tokens.Next()), now).Failure? ==>
                chat.requests == old(chat.requests) && r == Failure(TokenFrom(old(tokens.Next()), now).error)
    {
      accessToken := "";
      tokenExpiryTime := 0;
      var key := EnsureClient(now);
      if key.Failure? {
        return Failure(key.error);
      }
      r := CompleteOnce(chat, Request(key.value, messages, false));
    }

    /** The `try`/`catch` of `sendMessage`, with the client on `key` made
        before it: the outcome `SendReport` gives for the first answer, the
        token the retry gets and the retried answer; every request is made on
        `key`. */
    method Exchange(key: string, messages: seq<ApiMessage>, now: int) returns (r: Result<string, Thrown>)
      requires client == Some(key)
      modifies this`client, this`accessToken, this`tokenExpiryTime, tokens, chat
      ensures client == old(client)
      ensures r == SendReport(old(chat.NextCompletion()), TokenFrom(old(tokens.Next()), now).Success?, old(chat.SecondCompletion()))
      ensures Sent(key, messages, false, Resent(old(chat.NextCompletion()), TokenFrom(old(tokens.Next()), now).Success?))
      ensures tokens.requests == old(tokens.requests)
                + if ContentOf(old(chat.NextCompletion())).Failure? && IsAuthError(ContentOf(old(chat.NextCompletion())).error)
                  then [(clientId, clientSecret)] else []
    {
      r := CompleteOnce(chat, Request(key, messages, false));
      if r.Success? || !IsAuthError(r.error) {
        return;
      }
      var retried := Retry(messages, now);
      if retried.Success? {
        r := retried;
      }
    }

    /** `sendMessage` once the messages are built: a client is made, which
        rejects when no token can be had; then the messages are sent, once
        or, after an authentication failure, twice, always on the client's
        key. */
    method SendWithClient(messages: seq<ApiMessage>, now: int) returns (r: Result<string, Thrown>)
      modifies this`client, this`accessToken, this`tokenExpiryTime, tokens, chat
      ensures client == if old(ClientReady(now)) then Some(old(KeyAt(now))) else old(client)
      ensures !old(ClientReady(now)) ==>
                chat.requests == old(chat.requests) && r == Failure(old(TokenOutcome(now)).error)
      ensures old(ClientReady(now)) ==>
                r == SendReport(old(chat.NextCompletion()), TokenFrom(old(RetryTokenReply(now)), now).Success?,
                                old(chat.SecondCompletion()))
                && Sent(old(KeyAt(now)), messages, false,
                        Resent(old(chat.NextCompletion()), TokenFrom(old(RetryTokenReply(now)), now).Success?))
    {
      ghost var retryReply := RetryTokenReply(now);
      var key := EnsureClient(now);
      if key.Failure? {
        return Failure(key.error);
      }
      assert tokens.Next() == retryReply;
      r := Exchange(key.value, messages, now);
    }

    /** `sendMessage(messages)`: the contexts are loaded first if the service
        is not initialized; a client is made, which rejects when no token
        can be had; then the system prompt and the conversation are sent,
        once or, after an authentication failure, twice, always on the
        client's key. */
    method SendMessage(server: ContextServer, history: seq<ChatMessage>, now: int) returns (r: Result<string, Thrown>)
      modifies this`generalInstructions, this`availableRoles, this`availablePersonas, this`availableScenarios
      modifies this`roleContext, this`personaContext, this`scenarioContext, this`isInitialized
      modifies this`client, this`accessToken, this`tokenExpiryTime, tokens, chat
      ensures isInitialized
      ensures old(isInitialized) ==>
                roleContext == old(roleContext) && personaContext == old(personaContext)
                && scenarioContext == old(scenarioContext) && generalInstructions == old(generalInstructions)
      ensures ContextsReady(server)
      ensures client == if old(ClientReady(now)) then Some(old(KeyAt(now))) else old(client)
      ensures !old(ClientReady(now)) ==>
                chat.requests == old(chat.requests) && r == Failure(old(TokenOutcome(now)).error)
      ensures old(ClientReady(now)) ==>
                r == SendReport(old(chat.NextCompletion()), TokenFrom(old(RetryTokenReply(now)), now).Success?,
                                old(chat.SecondCompletion()))
                && Sent(old(KeyAt(now)), OpenAiMessages(BuildSystemPrompt(), history), false,
                        Resent(old(chat.NextCompletion()), TokenFrom(old(RetryTokenReply(now)), now).Success?))
    {
      ghost var ready, key, outcome, retryReply := ClientReady(now), KeyAt(now), TokenOutcome(now), RetryTokenReply(now);
      var messages := PrepareMessages(server, history);
      assert ClientReady(now) == ready && KeyAt(now) == key && TokenOutcome(now) == outcome && RetryTokenReply(now) == retryReply;
      r := SendWithClient(messages, now);
    }

    /** The retry in the `catch` of `streamMessage`: a fresh token, then, on
        the client's old key, the same messages streamed again; its chunks
        and its whole answer, or the failure that ends it. */
    method RetryStream(messages: seq<ApiMessage>, now: int) returns (chunks: seq<string>, full: Result<string, Thrown>)
      requires client.Some?
      modifies this`client, this`accessToken, this`tokenExpiryTime, tokens, chat
      ensures client == old(client)
      ensures tokens.requests == old(tokens.requests) + [(clientId, clientSecret)]
      ensures TokenFrom(old(tokens.Next()), now).Success? ==>
                chat.requests == old(chat.requests) + [Request(client.value, messages, true)]
                && chunks == StreamedChunks(old(chat.NextStream()))
                && (full.Success? <==> StreamError(old(chat.NextStream())).None?)
                && StreamAnswer(old(chat.NextStream()), chunks, full)
      ensures TokenFrom(old(tokens.Next()), now).Failure? ==>
                chat.requests == old(chat.requests) && chunks == [] && full.Failure?
    {
      accessToken := "";
      tokenExpiryTime := 0;
      var key := EnsureClient(now);
      if key.Failure? {
        return [], Failure(key.error);
      }
      chunks, full := StreamOnce(chat, Request(key.value, messages, true));
    }

    /** The `catch` of `streamMessage` for the failure `error`: what
        `Recovery` gives for the token the retry gets and the retried
        stream, which is made only after an authentication failure. */
    method RecoverStream(messages: seq<ApiMessage>, now: int, error: Thrown) returns (chunks: seq<string>, completion: string)
      requires client.Some?
      modifies this`client, this`accessToken, this`tokenExpiryTime, tokens, chat
      ensures client == old(client)
      ensures (chunks, completion) == Recovery(error, TokenFrom(old(tokens.Next()), now).Success?, old(chat.NextStream()))
      ensures tokens.requests == old(tokens.requests) + if IsAuthError(error) then [(clientId, clientSecret)] else []
      ensures chat.requests == old(chat.requests)
                + if IsAuthError(error) && TokenFrom(old(tokens.Next()), now).Success?
                  then [Request(client.value, messages, true)] else []
    {
      ghost var granted, again := TokenFrom(tokens.Next(), now).Success?, chat.NextStream();
      if IsAuthError(error) {
        var full;
        chunks, full := RetryStream(messages, now);
        if full.Success? {
          assert granted && StreamError(again).None? && full.value == Concat(chunks);
          assert Recovery(error, granted, again) == (chunks, full.value);
          return chunks, full.value;
        }
        assert chunks == if granted then StreamedChunks(again) else [];
        assert granted ==> StreamError(again).Some?;
      } else {
        chunks := [];
      }
      assert chunks == if IsAuthError(error) && granted then StreamedChunks(again) else [];
      completion := StreamFailureMessage(error);
      chunks := chunks + [completion];
      if IsAuthError(error) && granted {
        assert StreamError(again).Some?;
        assert chunks == StreamedChunks(again) + [completion];
        assert Recovery(error, granted, again) == (StreamedChunks(again) + [completion], completion);
      } else {
        assert chunks == [completion];
        assert Recovery(error, granted, again) == ([completion], completion);
      }
    }

    /** The `try`/`catch` of `streamMessage`, with the client on `key` made
        before it, with the arguments of the `onChunk` calls and of the
        `onComplete` calls as results: exactly one completion, and what
        `StreamReport` gives for the first stream, the token the retry gets
        and the retried stream. */
    method ExchangeStream(key: string, messages: seq<ApiMessage>, now: int) returns (chunks: seq<string>, completions: seq<string>)
      requires client == Some(key)
      modifies this`client, this`accessToken, this`tokenExpiryTime, tokens, chat
      ensures client == old(client)
      ensures |completions| == 1
      ensures (chunks, completions[0]) == StreamReport(old(chat.NextStream()), TokenFrom(old(tokens.Next()), now).Success?, old(chat.SecondStream()))
      ensures Sent(key, messages, true, StreamResent(old(chat.NextStream()), TokenFrom(old(tokens.Next()), now).Success?))
    {
      ghost var first, again := chat.NextStream(), chat.SecondStream();
      ghost var granted := TokenFrom(tokens.Next(), now).Success?;
      var full;
      chunks, full := StreamOnce(chat, Request(key, messages, true));
      if full.Success? {
        assert StreamReport(first, granted, again) == (chunks, full.value);
        return chunks, [full.value];
      }
      assert chat.NextStream() == again && full.error == StreamError(first).value;
      ghost var rest := Recovery(full.error, granted, again);
      assert StreamReport(first, granted, again) == (chunks + rest.0, rest.1);
      var more, completion := RecoverStream(messages, now, full.error);
      assert (more, completion) == rest;
      chunks := chunks + more;
      completions := [completion];
    }

    /** `streamMessage` once the messages are built: a client is made, and
        when none can be had the call rejects (`rejected`) before any chunk;
        otherwise the messages are streamed, always on the client's key. */
    method StreamWithClient(messages: seq<ApiMessage>, now: int)
      returns (chunks: seq<string>, completions: seq<string>, rejected: Option<Thrown>)
      modifies this`client, this`accessToken, this`tokenExpiryTime, tokens, chat
      ensures client == if old(ClientReady(now)) then Some(old(KeyAt(now))) else old(client)
      ensures rejected.Some? <==> !old(ClientReady(now))
      ensures rejected.Some? ==>
                chat.requests == old(chat.requests) && chunks == [] && completions == []
                && rejected.value == old(TokenOutcome(now)).error
      ensures rejected.None? ==>
                |completions| == 1
                && (chunks, completions[0]) == StreamReport(old(chat.NextStream()), TokenFrom(old(RetryTokenReply(now)), now).Success?,
                                                            old(chat.SecondStream()))
                && Sent(old(KeyAt(now)), messages, true,
                        StreamResent(old(chat.NextStream()), TokenFrom(old(RetryTokenReply(now)), now).Success?))
    {
      ghost var retryReply := RetryTokenReply(now);
      var key := EnsureClient(now);
      if key.Failure? {
        return [], [], Some(key.error);
      }
      assert tokens.Next() == retryReply;
      chunks, completions := ExchangeStream(key.value, messages, now);
      rejected := None;
    }

    /** `streamMessage(messages, onChunk, onComplete)`: the contexts are
        loaded first if the service is not initialized; a client is made,
        and when none can be had the call rejects (`rejected`) before any
        chunk; otherwise the system prompt and the conversation are
        streamed, always on the client's key. */
    method StreamMessage(server: ContextServer, history: seq<ChatMessage>, now: int)
      returns (chunks: seq<string>, completions: seq<string>, rejected: Option<Thrown>)
      modifies this`generalInstructions, this`availableRoles, this`availablePersonas, this`availableScenarios
      modifies this`roleContext, this`personaContext, this`scenarioContext, this`isInitialized
      modifies this`client, this`accessToken, this`tokenExpiryTime, tokens, chat
      ensures isInitialized
      ensures old(isInitialized) ==>
                roleContext == old(roleContext) && personaContext == old(personaContext)
                && scenarioContext == old(scenarioContext) && generalInstructions == old(generalInstructions)
      ensures ContextsReady(server)
      ensures client == if old(ClientReady(now)) then Some(old(KeyAt(now))) else old(client)
      ensures rejected.Some? <==> !old(ClientReady(now))
      ensures rejected.Some? ==>
                chat.requests == old(chat.requests) && chunks == [] && completions == []
                && rejected.value == old(TokenOutcome(now)).error
      ensures rejected.None? ==>
                |completions| == 1
                && (chunks, completions[0]) == StreamReport(old(chat.NextStream()), TokenFrom(old(RetryTokenReply(now)), now).Success?,
                                                            old(chat.SecondStream()))
                && Sent(old(KeyAt(now)), OpenAiMessages(BuildSystemPrompt(), history), true,
                        StreamResent(old(chat.NextStream()), TokenFrom(old(RetryTokenReply(now)), now).Success?))
    {
      ghost var ready, key, outcome, retryReply := ClientReady(now), KeyAt(now), TokenOutcome(now), RetryTokenReply(now);
      var messages := PrepareMessages(server, history);
      assert ClientReady(now) == ready && KeyAt(now) == key && TokenOutcome(now) == outcome && RetryTokenReply(now) == retryReply;
      chunks, completions, rejected := StreamWithClient(messages, now);
    }
  }
}
