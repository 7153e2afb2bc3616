/** `AIServiceManager`: one service over the Claude adapter and the Azure
    service. The model id decides which of the two answers; context loads go
    to both. */
module Manager {
  import opened Wrappers
  import opened JsStrings
  import opened AiTypes
  import opened OpenAiCommon
  import opened Azure
  import opened Claude

  datatype Provider = ClaudeProvider | AzureProvider

  /** `getServiceForModel(modelId)`: ids starting with `claude-` go to
      Claude, every other id to Azure. */
  function ServiceForModel(modelId: string): (p: Provider)
    ensures p == ClaudeProvider <==> StartsWith(modelId, "claude-")
  {
    if StartsWith(modelId, "claude-") then ClaudeProvider else AzureProvider
  }

  class AIServiceManager {
    const claude: ClaudeServiceAdapter
    const azure: AzureOpenAIService
    var current: Provider
    var currentModelId: string

    /** Claude's models, then Azure's; Claude answers first, with the first
        model's id, or `''` when there are no models. */
    constructor (claude: ClaudeServiceAdapter, azure: AzureOpenAIService)
      ensures this.claude == claude && this.azure == azure
      ensures AllModels() == claude.models + azure.availableModels
      ensures current == ClaudeProvider
      ensures currentModelId == if |AllModels()| > 0 then AllModels()[0].id else ""
    {
      this.claude := claude;
      this.azure := azure;
      current := ClaudeProvider;
      currentModelId := if |claude.models + azure.availableModels| > 0 then (claude.models + azure.availableModels)[0].id else "";
    }

    /** `allModels`: Claude's models, then Azure's, as the two services
        offer them. */
    function AllModels(): (models: seq<ModelOption>)
      ensures |models| == |claude.models| + |azure.availableModels|
      ensures forall id :: HasModel(models, id) <==> HasModel(claude.models, id) || HasModel(azure.availableModels, id)
    {
      var models := claude.models + azure.availableModels;
      forall id
        ensures HasModel(models, id) <==> HasModel(claude.models, id) || HasModel(azure.availableModels, id)
      {
        HasModelJoined(claude.models, azure.availableModels, id);
      }
      models
    }

    /** The model lists agree with the routing rule: every Claude model id
        starts with `claude-` and no Azure model id does. */
    predicate PrefixRouted() {
      (forall k :: 0 <= k < |claude.models| ==> StartsWith(claude.models[k].id, "claude-"))
      && (forall k :: 0 <= k < |azure.availableModels| ==> !StartsWith(azure.availableModels[k].id, "claude-"))
    }

    /** The model the answering service has selected. */
    function SelectedOf(p: Provider): string
      reads claude, azure
    {
      if p == ClaudeProvider then claude.selectedModel else azure.selectedModelId
    }

    /** `hasLoadedContexts()` of the service `p`. */
    predicate LoadedIn(p: Provider)
      reads claude, claude.service, azure
    {
      if p == ClaudeProvider then claude.HasLoadedContexts() else azure.HasLoadedContexts()
    }

    /** `hasLoadedContexts()`: the answering service's. */
    predicate HasLoadedContexts()
      reads this, claude, claude.service, azure
    {
      LoadedIn(current)
    }

    /** `getAvailableRoles()`, `getAvailablePersonas()` and
        `getAvailableScenarios()`: the answering service's lists. */
    function CurrentOptions(): ContextOptions
      reads this, claude.service, azure
    {
      if current == ClaudeProvider
      then ContextOptions(claude.service.availableRoles, claude.service.availablePersonas, claude.service.availableScenarios)
      else ContextOptions(azure.availableRoles, azure.availablePersonas, azure.availableScenarios)
    }

    /** `setModel(modelId)`: an id no service offers throws before anything
        changes. Otherwise the id becomes the current model, the service
        that the routing rule picks answers from now on, and the id is passed
        to its `setModel`; when that switched the service and the new one
        has not loaded its contexts, they are loaded (`loaded`). */
    method SetModel(server: ContextServer, modelId: string) returns (thrown: Option<Thrown>, loaded: bool)
      modifies this`current, this`currentModelId, claude`selectedModel, azure`selectedModelId
      modifies claude.service`availableRoles, claude.service`availablePersonas, claude.service`availableScenarios
      modifies claude.service`roleContext, claude.service`personaContext, claude.service`scenarioContext
      modifies claude.service`isInitialized
      modifies azure`generalInstructions, azure`availableRoles, azure`availablePersonas, azure`availableScenarios
      modifies azure`roleContext, azure`personaContext, azure`scenarioContext, azure`isInitialized
      ensures !HasModel(AllModels(), modelId) ==>
                thrown == Some(NewError("Model " + modelId + " not found")) && !loaded
                && current == old(current) && currentModelId == old(currentModelId)
                && unchanged(claude) && unchanged(claude.service) && unchanged(azure)
      ensures HasModel(AllModels(), modelId) ==>
                thrown.None? && currentModelId == modelId && current == ServiceForModel(modelId)
      ensures HasModel(AllModels(), modelId) && current == ClaudeProvider ==>
                claude.selectedModel == (if HasModel(claude.models, modelId) then modelId else old(claude.selectedModel))
                && azure.selectedModelId == old(azure.selectedModelId)
      ensures HasModel(AllModels(), modelId) && current == AzureProvider ==>
                azure.selectedModelId == (if HasModel(azure.availableModels, modelId) then modelId else old(azure.selectedModelId))
                && claude.selectedModel == old(claude.selectedModel)
      ensures loaded <==> HasModel(AllModels(), modelId) && ServiceForModel(modelId) != old(current)
                          && !old(LoadedIn(ServiceForModel(modelId)))
      ensures !loaded ==> unchanged(claude.service) && azure.roleContext == old(azure.roleContext)
                          && azure.personaContext == old(azure.personaContext)
                          && azure.scenarioContext == old(azure.scenarioContext)
                          && azure.generalInstructions == old(azure.generalInstructions)
      ensures loaded && current == ClaudeProvider ==> claude.service.isInitialized
      ensures loaded && current == AzureProvider ==> azure.isInitialized
      ensures !loaded ==> azure.ContextsKept()
      ensures loaded && current == ClaudeProvider ==> claude.service.LoadedDefaults(server) && azure.ContextsKept()
      ensures loaded && current == AzureProvider ==> azure.LoadedDefaults(server) && unchanged(claude.service)
      ensures PrefixRouted() && HasModel(AllModels(), modelId) ==> SelectedOf(current) == currentModelId
    {
      if !HasModel(AllModels(), modelId) {
        return Some(NewError("Model " + modelId + " not found")), false;
      }
      var newService := ServiceForModel(modelId);
      var switched := current != newService;
      currentModelId := modelId;
      current := newService;
      if current == ClaudeProvider {
        claude.SetModel(modelId);
      } else {
        azure.SetModel(modelId);
      }
      thrown := None;
      loaded := switched && !LoadedIn(current);
      if loaded {
        if current == ClaudeProvider {
          claude.service.LoadContextFiles(server, "", "", "");
        } else {
          azure.LoadContextFiles(server, "", "", "");
        }
      }
    }

    /** `loadContextFiles(roleName, personaName, scenarioName)`: both services
        load. The lists answered are then the current service's: the fixed
        ones for Claude, the server's listing for Azure. A context named
        explicitly is the same file for both. */
    method LoadContextFiles(server: ContextServer, roleName: string, personaName: string, scenarioName: string)
      modifies claude.service`availableRoles, claude.service`availablePersonas, claude.service`availableScenarios
      modifies claude.service`roleContext, claude.service`personaContext, claude.service`scenarioContext
      modifies claude.service`isInitialized
      modifies azure`generalInstructions, azure`availableRoles, azure`availablePersonas, azure`availableScenarios
      modifies azure`roleContext, azure`personaContext, azure`scenarioContext, azure`isInitialized
      ensures claude.service.isInitialized && azure.isInitialized
      ensures CurrentOptions() == if current == ClaudeProvider then FallbackOptions else server.listing.GetOr(FallbackOptions)
      ensures claude.service.availableRoles == FallbackOptions.roles
              && claude.service.availablePersonas == FallbackOptions.personas
              && claude.service.availableScenarios == FallbackOptions.scenarios
      ensures var o := server.listing.GetOr(FallbackOptions);
              && azure.availableRoles == o.roles && azure.availablePersonas == o.personas && azure.availableScenarios == o.scenarios
              && azure.roleContext == SlotAfterLoad(old(azure.roleContext), server, Roles, ContextToLoad(roleName, o.roles))
              && azure.personaContext == SlotAfterLoad(old(azure.personaContext), server, Personas, ContextToLoad(personaName, o.personas))
              && azure.scenarioContext == SlotAfterLoad(old(azure.scenarioContext), server, Scenarios, ContextToLoad(scenarioName, o.scenarios))
      ensures claude.service.roleContext == SlotText(server, ContextPath(Roles, if roleName != "" then roleName else "system_manager"))
      ensures claude.service.personaContext
              == SlotText(server, ContextPath(Personas, if personaName != "" then personaName else "entry_network_admin"))
      ensures claude.service.scenarioContext
              == SlotText(server, ContextPath(Scenarios, if scenarioName != "" then scenarioName else "high_cpu_load"))
      ensures azure.generalInstructions == SlotText(server, GeneralInstructionsPath)
      ensures roleName != "" ==> claude.service.roleContext == azure.roleContext == SlotText(server, ContextPath(Roles, roleName))
      ensures personaName != "" ==>
                claude.service.personaContext == azure.personaContext == SlotText(server, ContextPath(Personas, personaName))
      ensures scenarioName != "" ==>
                claude.service.scenarioContext == azure.scenarioContext == SlotText(server, ContextPath(Scenarios, scenarioName))
    {
      claude.service.LoadContextFiles(server, roleName, personaName, scenarioName);
      azure.LoadContextFiles(server, roleName, personaName, scenarioName);
    }

    /** `loadAvailableContexts()`: the current service's. */
    method LoadAvailableContexts(server: ContextServer) returns (options: ContextOptions)
      modifies claude.service`availableRoles, claude.service`availablePersonas, claude.service`availableScenarios
      modifies azure`availableRoles, azure`availablePersonas, azure`availableScenarios
      ensures options == if current == ClaudeProvider then FallbackOptions else server.listing.GetOr(FallbackOptions)
      ensures CurrentOptions() == options
      ensures current == ClaudeProvider ==> unchanged(azure)
      ensures current == AzureProvider ==> unchanged(claude.service)
    {
      if current == ClaudeProvider {
        options := claude.service.LoadAvailableContexts();
      } else {
        options := azure.LoadAvailableContexts(server);
      }
    }

    /** `loadRoleContext(roleName)`: both services load the role; the current
        one's text is returned, and both hold the same text. */
    method LoadRoleContext(server: ContextServer, roleName: string) returns (text: string)
      modifies claude.service`roleContext, claude.service`isInitialized, azure`roleContext, azure`isInitialized
      ensures text == claude.service.roleContext == azure.roleContext == SlotText(server, ContextPath(Roles, roleName))
      ensures claude.service.isInitialized == (old(claude.service.isInitialized) || Fetch(server, ContextPath(Roles, roleName)).Some?)
      ensures azure.isInitialized == (old(azure.isInitialized) || Fetch(server, ContextPath(Roles, roleName)).Some?)
    {
      var claudeResult := claude.service.LoadRoleContext(server, roleName);
      var azureResult := azure.LoadRoleContext(server, roleName);
      text := if current == ClaudeProvider then claudeResult else azureResult;
    }

    /** `loadPersonaContext(personaName)`, the same for the persona. */
    method LoadPersonaContext(server: ContextServer, personaName: string) returns (text: string)
      modifies claude.service`personaContext, claude.service`isInitialized, azure`personaContext, azure`isInitialized
      ensures text == claude.service.personaContext == azure.personaContext == SlotText(server, ContextPath(Personas, personaName))
      ensures claude.service.isInitialized == (old(claude.service.isInitialized) || Fetch(server, ContextPath(Personas, personaName)).Some?)
      ensures azure.isInitialized == (old(azure.isInitialized) || Fetch(server, ContextPath(Personas, personaName)).Some?)
    {
      var claudeResult := claude.service.LoadPersonaContext(server, personaName);
      var azureResult := azure.LoadPersonaContext(server, personaName);
      text := if current == ClaudeProvider then claudeResult else azureResult;
    }

    /** `loadScenarioContext(scenarioName)`, the same for the scenario. */
    method LoadScenarioContext(server: ContextServer, scenarioName: string) returns (text: string)
      modifies claude.service`scenarioContext, claude.service`isInitialized, azure`scenarioContext, azure`isInitialized
      ensures text == claude.service.scenarioContext == azure.scenarioContext == SlotText(server, ContextPath(Scenarios, scenarioName))
      ensures claude.service.isInitialized == (old(claude.service.isInitialized) || Fetch(server, ContextPath(Scenarios, scenarioName)).Some?)
      ensures azure.isInitialized == (old(azure.isInitialized) || Fetch(server, ContextPath(Scenarios, scenarioName)).Some?)
    {
      var claudeResult := claude.service.LoadScenarioContext(server, scenarioName);
      var azureResult := azure.LoadScenarioContext(server, scenarioName);
      text := if current == ClaudeProvider then claudeResult else azureResult;
    }

    /** `sendMessage(messages)`: answered by the current service alone. */
    method SendMessage(server: ContextServer, history: seq<ChatMessage>, now: int) returns (reply: string)
      modifies if current == ClaudeProvider then {claude.service, claude.service.api} else {azure, azure.tokens, azure.chat}
      ensures current == ClaudeProvider ==>
                claude.service.isInitialized && reply == AnswerFor(claude.service.apiKey, old(claude.service.api.Next()))
      ensures current == ClaudeProvider && claude.service.apiKey != "" ==>
                claude.service.api.requests
                == old(claude.service.api.requests) + [MessagesRequest(ClaudeModel, MaxTokens, claude.service.BuildSystemPrompt(), ClaudeMessages(history))]
      ensures current == ClaudeProvider ==>
                claude.service.ContextsReady(server) && unchanged(azure, azure.tokens, azure.chat)
      ensures current == ClaudeProvider && claude.service.apiKey == "" ==>
                claude.service.api.requests == old(claude.service.api.requests)
      ensures current == AzureProvider ==>
                azure.selectedModelId == old(azure.selectedModelId) && azure.ContextsReady(server)
                && unchanged(claude.service, claude.service.api)
      ensures current == AzureProvider ==>
                (old(azure.client).Some? ==> azure.client == old(azure.client))
                && (old(azure.ClientReady(now)) ==> azure.client == Some(old(azure.KeyAt(now))))
      ensures current == AzureProvider ==>
                azure.isInitialized && reply == ReplyFor(old(azure.AttemptOutcome(now)), azure.selectedModelId)
                && azure.chat.requests == if old(azure.ClientReady(now))
                       then old(azure.chat.requests)
                            + [azure.Request(old(azure.KeyAt(now)), OpenAiMessages(azure.BuildSystemPrompt(), history), false)]
                       else old(azure.chat.requests)
    {
      if current == ClaudeProvider {
        reply := claude.service.SendMessage(server, history);
      } else {
        ghost var model := azure.selectedModelId;
        reply := azure.SendMessage(server, history, now);
        assert azure.selectedModelId == model;
      }
    }

    /** `streamMessage(messages, onChunk, onComplete)`: answered by the
        current service alone; Claude's rejects. */
    method StreamMessage(server: ContextServer, history: seq<ChatMessage>, now: int)
      returns (chunks: seq<string>, completions: seq<string>, rejected: Option<Thrown>)
      modifies if current == ClaudeProvider then {} else {azure, azure.tokens, azure.chat}
      ensures current == ClaudeProvider ==> rejected.Some? && chunks == [] && completions == []
      ensures current == AzureProvider ==>
                azure.selectedModelId == old(azure.selectedModelId) && azure.ContextsReady(server)
      ensures current == AzureProvider ==>
                (old(azure.client).Some? ==> azure.client == old(azure.client))
                && (old(azure.ClientReady(now)) ==> azure.client == Some(old(azure.KeyAt(now))))
      ensures current == AzureProvider ==>
                rejected.None? && chunks == StreamChunks(old(azure.StreamAttempt(now)), azure.selectedModelId)
                && completions == [StreamCompletion(old(azure.StreamAttempt(now)), azure.selectedModelId)]
                && JoinsLastChunks(chunks, completions[0])
                && azure.chat.requests == if old(azure.ClientReady(now))
                       then old(azure.chat.requests)
                            + [azure.Request(old(azure.KeyAt(now)), OpenAiMessages(azure.BuildSystemPrompt(), history), true)]
                       else old(azure.chat.requests)
    {
      if current == ClaudeProvider {
        chunks, completions, rejected := claude.StreamMessage(history);
      } else {
        ghost var attempt, model := azure.StreamAttempt(now), azure.selectedModelId;
        StreamReported(attempt, model);
        chunks, completions := azure.StreamMessage(server, history, now);
        assert azure.selectedModelId == model;
        rejected := None;
      }
    }
  }
}
