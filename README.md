# Story Teller: chart directives and AI services, modelled in Dafny

Story Teller is a browser chat application in which a language model plays a
networking role (a role, a persona and a scenario, each a Markdown context
file) and can draw charts in the conversation. This project models its
service layer:

- **Chart directives** (`ChartParserService`). An assistant reply may contain
  `{{chart:<type> ... }}` blocks. The parser finds them with one regular
  expression, reads each body line by line (`title:`, `xAxis:`, `yAxis:`,
  `categories:` and a multi-line `data: [ ... ]` block, the last two through
  a key-quoting rewrite and `JSON.parse`), and replaces every block with a
  fixed placeholder. Modules `ChartPattern` (the expression as a scanner),
  `ChartConfigParser` (the line loop), `Json` (the JSON grammar the parser
  needs), `Charts` (the chart record) and `ChartParser` (the three public
  operations).
- **OpenAI-compatible services** (`AzureOpenAIService`,
  `CiscoOpenAIService`). Each keeps an OAuth access token with its expiry.
  It reuses the token until five minutes before expiry. It makes a chat
  client with the token when it has none; an existing client keeps the key
  it was made with, whatever the token (see Findings). Each keeps a
  selected model from a fixed list and loads context files into four
  prompt slots. It sends the conversation behind a system prompt and
  streams replies chunk by chunk. After an authentication failure it asks
  for a fresh token and retries once: the Cisco service resends on the
  existing client's key, while the Azure retry, as written, fails before it
  sends anything (see Findings). Modules `OpenAiCommon` (what the two
  share), `Azure` and `Cisco`.
- **Claude service** (`ClaudeService` and the adapter the manager holds).
  It uses fixed fallback context lists and a chart-instruction system
  prompt. It sends a `Hello` message when the history is empty, and turns
  every failure into the error reply `Error: Unable to get response from
  Claude API. …`. Module `Claude`.
- **Service manager** (`AIServiceManager`). It joins the model lists of
  both providers. A model id that starts with `claude-` is routed to Claude
  and anything else to Azure. On a switch to a provider that has not
  loaded its contexts, it reloads them. Loads are broadcast to both providers, and messages go to the
  current one. Module `Manager`.
- **Selection storage** (`StorageService`). It saves the selected role,
  persona and scenario in local storage. Reading one back gives the saved
  name when it is still available, and otherwise the first available name.
  Module `Storage`.

`Wrappers`, `JsStrings` and `AiTypes` hold the shared vocabulary: `Option`
and `Result`, and the JavaScript string operations the code relies on
(`trim`, `split`, `indexOf`, `includes`, `startsWith`, `endsWith`,
`join('')`). They also hold the chat, context and model records, thrown
values with `Error.prototype.toString`, and the development server's
context files.

**Environment.** Network peers are scripted objects: `TokenEndpoint`,
`ChatEndpoint` and `MessagesEndpoint`. Each hands out its next reply and
logs every request. The context files are a `ContextServer` value. The
clock is a `now` parameter in milliseconds. The random chart id is a
parameter `ids: nat -> string`, which gives the id of the k-th chart.
Each stateful service is a `class` whose methods update its fields under
`modifies` clauses.

## Model

| member | source | states |
|---|---|---|
| JsStrings.Trim | src/services/ChartParserService.ts:62 | the trimmed line neither starts nor ends with white space and is no longer than the line |
| JsStrings.TrimShape | src/services/ChartParserService.ts:62 | a line is its leading white space, then its trimmed text, then only white space |
| JsStrings.Split | src/services/ChartParserService.ts:56 | `split('\n')` gives at least one piece, no piece holds the separator, and joining the pieces with it gives back the text |
| JsStrings.SplitCons | src/services/ChartParserService.ts:56 | a text with no separator before its first separator splits into that prefix followed by the split of the rest |
| JsStrings.ContainsChar | src/services/ChartParserService.ts:96 | `includes(':')` holds exactly when the character occurs in the line |
| JsStrings.IndexOf | src/services/ChartParserService.ts:4 | the result is the first occurrence at or after the start position, and `None` means there is none |
| JsStrings.ConcatAppend | src/services/AzureOpenAIService.ts:557-568 | joining two lists of text pieces equals joining each and appending the results |
| Json.LastIndex | src/services/ChartParserService.ts:81-84 | the member found is the last one with the key, so a repeated key yields its last value, as `JSON.parse` does |
| Json.ParseValue | src/services/ChartParserService.ts:80 | a parsed JSON value ends strictly after its start and within the text |
| ChartPattern.KeywordUnique | src/services/ChartParserService.ts:4 | when the text after `{{chart:` spells one of the six alternatives, the alternation picks exactly that type |
| ChartPattern.SeparatorShape | src/services/ChartParserService.ts:4 | the separator `(?:\s*\n\|\s+)` is white space only, and the body starts just after a newline of the run or where the run ends |
| ChartPattern.FindCloseIsIndexOf | src/services/ChartParserService.ts:4 | the lazy body `([\s\S]*?)}}` ends at the first `}}` after the separator |
| ChartPattern.MatchShape | src/services/ChartParserService.ts:4 | a directive is `{{chart:`, a keyword, a white-space separator, a body without `}}`, then `}}` |
| ChartPattern.MatchWhenHead | src/services/ChartParserService.ts:4 | a directive head with a `}}` after it always matches, ending no later than that `}}` |
| ChartPattern.FirstMatch | src/services/ChartParserService.ts:17 | one `exec` step from `lastIndex` returns a match that starts at or after that index |
| ChartPattern.FirstMatchBefore | src/services/ChartParserService.ts:17 | if a directive starts at some position, the search finds a match no later than that position |
| ChartPattern.FirstMatchSkipsNothing | src/services/ChartParserService.ts:17 | no directive starts between `lastIndex` and the match found |
| ChartPattern.MatchesInOrder | src/services/ChartParserService.ts:17 | the global scan yields well-formed matches inside the text, in increasing order and without overlap |
| ChartPattern.MatchesCover | src/services/ChartParserService.ts:17 | every position where a directive starts lies within some match of the global scan |
| ChartPattern.SourceIsWoven | src/services/ChartParserService.ts:129-133 | the text is its gaps between matches interleaved with the matched directives |
| ChartPattern.ReplaceIsWoven | src/services/ChartParserService.ts:129-133 | the replacement keeps every gap and puts the placeholder where each directive was |
| ChartPattern.ReplacedHasNoDirective | src/services/ChartParserService.ts:129-133 | after replacement no position of the text starts a directive |
| ChartPattern.ReplaceIdempotent | src/services/ChartParserService.ts:129-133 | the replaced text has no matches, and replacing again changes nothing |
| ChartPattern.TimeseriesNotMatched | src/services/ChartParserService.ts:4 | a `{{chart:timeseries` block is never matched, because that type is absent from the alternation |
| ChartPattern.KeywordNeedsSeparator | src/services/ChartParserService.ts:4 | `{{chart:bar}}` with no white space after the keyword is not a directive |
| ChartConfigParser.WordRun | src/services/ChartParserService.ts:80 | `\w+` takes the longest run of word characters |
| ChartConfigParser.QuoteKeysOnlyAddsQuotes | src/services/ChartParserService.ts:80 | the rewrite `/(\w+):/g` only inserts double quotes: removing all double quotes from its output gives the input with its double quotes removed |
| ChartConfigParser.QuoteKeysWithoutColon | src/services/ChartParserService.ts:113 | a text without a colon passes through the rewrite unchanged |
| ChartConfigParser.ItemData | src/services/ChartParserService.ts:81-84 | an item yields a `{name, values}` record unless it is `null`, whose property access throws |
| ChartConfigParser.MapItems | src/services/ChartParserService.ts:81-84 | the data array maps to one record per item in order, and fails exactly when some item is `null` |
| ChartConfigParser.CategoriesText | src/services/ChartParserService.ts:110-112 | the categories value is kept when it is already bracketed, and otherwise wrapped in `[` and `]` |
| ChartConfigParser.ParseChartConfig | src/services/ChartParserService.ts:47-122 | the loop over trimmed lines computes the configuration `ConfigOf` defines from the defaults and the line-step function |
| ChartConfigParser.RunFromAppend | src/services/ChartParserService.ts:61-119 | processing two runs of lines is processing the first and then the second from where it left off |
| ChartConfigParser.StepMode | src/services/ChartParserService.ts:67-93 | after a line the parser is inside a data block exactly when the line opens one, or it was inside and the line does not end with `]` |
| ChartConfigParser.NoColonKeepsDefaults | src/services/ChartParserService.ts:96 | a body without any colon yields the default configuration |
| ChartConfigParser.OtherKeysIgnored | src/services/ChartParserService.ts:101-117 | a key other than `title`, `xAxis`, `yAxis` and `categories` changes nothing |
| ChartConfigParser.LaterKeyOverwrites | src/services/ChartParserService.ts:101-106 | a later `title`, `xAxis` or `yAxis` line replaces the earlier value |
| ChartConfigParser.KeyValueSplit | src/services/ChartParserService.ts:97-99 | `split(':', 2)` takes the trimmed key before the first colon and the trimmed value up to the second colon |
| ChartConfigParser.TitleStopsAtSecondColon | src/services/ChartParserService.ts:97-102 | `title: A: B` sets the title to `A` and drops `: B` |
| ChartConfigParser.OneLineDataIgnored | src/services/ChartParserService.ts:68-117 | a `data:` line that does not exactly open a block changes nothing |
| ChartConfigParser.DataLinesGather | src/services/ChartParserService.ts:89-91 | inside a block, lines that do not end with `]` are appended to the buffer without separators |
| ChartConfigParser.DataBlockRun | src/services/ChartParserService.ts:68-88 | opener, middle lines and a closing line leave the block with the data parsed from `[`, the middle lines and the closing line |
| ChartConfigParser.UnclosedBlockIgnored | src/services/ChartParserService.ts:74-93 | a data block that never closes leaves the configuration as it was |
| ChartConfigParser.BareCategoriesRejected | src/services/ChartParserService.ts:110-116 | `categories: Q1, Q2` (unquoted names) is not valid JSON, so no categories are set |
| ChartConfigParser.ColonInCategoryRejected | src/services/ChartParserService.ts:113 | a quoted category with a colon, `["Q1:"]`, is broken by the key rewrite and rejected |
| ChartConfigParser.QuotedCategoriesAccepted | src/services/ChartParserService.ts:110-113 | `categories: "Q1"` parses to the one-element array `["Q1"]` |
| ChartParser.ChartOf | src/services/ChartParserService.ts:19-32 | a chart takes the given id and the matched keyword's type, and the match starts with `{{chart:` and that keyword |
| ChartParser.ChartsMatchAll | src/services/ChartParserService.ts:28-32 | the k-th chart is built from the k-th match with the k-th id |
| ChartParser.ScanAdvance | src/services/ChartParserService.ts:17-32 | one loop step moves `lastIndex` strictly forward and extends the charts by the chart of the match found |
| ChartParser.ParseChartCommands | src/services/ChartParserService.ts:12-39 | the `exec` loop yields one chart per match of the global scan, in order, each built from its match and its id |
| ChartParser.ReplaceChartCommands | src/services/ChartParserService.ts:129-133 | the output is the text's gaps with the placeholder in place of each directive, and it holds no directive |
| ChartParser.ProcessMessage | src/services/ChartParserService.ts:140-151 | the processed text is the replacement, the charts are those of the parse, and the processed text holds no directive |
| ChartParser.ReprocessingIsInert | src/services/ChartParserService.ts:140-151 | processing an already processed message finds no charts and changes nothing |
| AiTypes.HasModelJoined | src/services/AIServiceManager.ts:19-22 | a model is in a joined list exactly when it is in one of the parts |
| AiTypes.MessageOrUnknown | src/services/ClaudeService.ts:345 | `error.message \|\| 'Unknown error'` is never empty |
| AiTypes.ContextToLoad | src/services/AzureOpenAIService.ts:259-272 | a slot is loaded exactly when a name is given or a context is available, and the given name is preferred to the first available one |
| OpenAiCommon.TokenEndpoint.Post | src/services/AzureOpenAIService.ts:129-133 | a token request is logged with the client credentials and answered with the next scripted reply |
| OpenAiCommon.LifetimeSeconds | src/services/AzureOpenAIService.ts:166 | `expires_in \|\| 3600`: the granted lifetime, or an hour when it is absent or zero |
| OpenAiCommon.ReuseWindow | src/services/AzureOpenAIService.ts:86-167 | a token obtained at `now` is reused exactly while less than its lifetime minus five minutes has passed, so one that lives five minutes or less is never reused |
| OpenAiCommon.TokenFrom | src/services/AzureOpenAIService.ts:129-167 | a grant yields its token with the expiry `now + lifetime`, and a failure yields the thrown error |
| OpenAiCommon.ClientKey | src/services/AzureOpenAIService.ts:185-207 | the client is keyed with the current token (corrected) |
| OpenAiCommon.ClientKeptAsWritten | src/services/AzureOpenAIService.ts:189 | as written, an existing client keeps its key whatever the token |
| OpenAiCommon.StaleClientKey | src/services/AzureOpenAIService.ts:86-207 | a token expired after 3400000 ms leaves the as-written client on the old key, while the corrected client takes the new one |
| OpenAiCommon.ChatEndpoint.Complete | src/services/AzureOpenAIService.ts:431-438 | a completion request is logged and answered with the next scripted completion, leaving the streams alone |
| OpenAiCommon.ChatEndpoint.Stream | src/services/AzureOpenAIService.ts:548-555 | a streaming request is logged and answered with the next scripted stream, leaving the completions alone |
| OpenAiCommon.ContentOf | src/services/AzureOpenAIService.ts:440-447 | a reply succeeds exactly when its first choice has non-empty content, which is the answer; a failed call yields its error |
| OpenAiCommon.SystemPromptOrder | src/services/AzureOpenAIService.ts:387-399 | the system prompt holds the general instructions, role, persona and scenario verbatim under their headings, in that order |
| OpenAiCommon.OpenAiMessages | src/services/AzureOpenAIService.ts:415-425 | the messages sent are the system prompt followed by the history, one `{role, content}` each, in order |
| OpenAiCommon.BuildMessages | src/services/AzureOpenAIService.ts:415-425 | the loop that builds the request messages yields `OpenAiMessages` |
| OpenAiCommon.Emitted | src/services/AzureOpenAIService.ts:559-565 | only non-empty deltas are passed to `onChunk`, and a single delta is passed exactly when it is non-empty |
| OpenAiCommon.EmittedSplits | src/services/AzureOpenAIService.ts:559-565 | the chunks of two runs of deltas are the chunks of the first followed by those of the second, so the chunks are the non-empty deltas in order |
| OpenAiCommon.EmittedKeepsAllText | src/services/AzureOpenAIService.ts:557-568 | skipping empty deltas loses no text: the chunks join to all the delta contents |
| OpenAiCommon.CompletesSuffix | src/services/AzureOpenAIService.ts:557-611 | chunks of a failed attempt followed by those of the retry still end in the full retried response |
| OpenAiCommon.Accumulate | src/services/AzureOpenAIService.ts:557-568 | the streaming loop emits the non-empty deltas and its full response is their concatenation |
| OpenAiCommon.CompleteOnce | src/services/AzureOpenAIService.ts:431-447 | one completion call sends the request once and yields the content check of the reply |
| OpenAiCommon.StreamOnce | src/services/AzureOpenAIService.ts:548-568 | one streaming call sends the request once, emits the reply's chunks, and fails exactly when the stream breaks |
| Azure.Diagnose | src/services/AzureOpenAIService.ts:488-509 | the error is classified as an authentication failure, a 404 or a 429 when its text matches, in that order of precedence, and otherwise as another failure |
| Azure.Details | src/services/AzureOpenAIService.ts:494-509 | the 404 text names the selected model, and any other failure shows the error's message and the console hint |
| Azure.ErrorMessage | src/services/AzureOpenAIService.ts:488-511 | every error reply starts with the warning and its heading, and it names the model on a 404 or shows the error's message on other failures |
| Azure.ReplyFor | src/services/AzureOpenAIService.ts:441-512 | a good reply is returned as it is; a failure becomes the message whose heading names its diagnosis, `Authentication Error` for an error mentioning `401` or `auth` |
| Azure.StreamReported | src/services/AzureOpenAIService.ts:557-638 | the completion is what the last chunks join to: all chunks of an unbroken stream, or, after a break, the error message, which follows the chunks streamed so far and names its diagnosis |
| Azure.AzureOpenAIService.constructor | src/services/AzureOpenAIService.ts:28-84 | a new service has the credentials, the default API version when none is given, the two models with `gpt-4` selected, no client or token, and empty contexts |
| Azure.AzureOpenAIService.GetAccessToken | src/services/AzureOpenAIService.ts:86-183 | the result is `TokenOutcome`: a reusable token is returned untouched; a missing client id or secret fails without a request; otherwise one token request is made and its grant is cached with its expiry |
| Azure.AzureOpenAIService.EnsureClient | src/services/AzureOpenAIService.ts:185-207 | a client exists afterwards exactly when a token was obtained; an existing client keeps the key it was made with (as written), a new one takes the token, and a failure leaves the client untouched and carries the token error |
| Azure.AzureOpenAIService.SetModel | src/services/AzureOpenAIService.ts:218-232 | a listed model becomes the selected one, and an unknown id changes nothing |
| Azure.AzureOpenAIService.LoadGeneralInstructions | src/services/AzureOpenAIService.ts:286-299 | the general instructions become the served file, or `''` |
| Azure.AzureOpenAIService.LoadAvailableContexts | src/services/AzureOpenAIService.ts:301-329 | the lists become the server's listing, or the fallback names when the listing fails |
| Azure.AzureOpenAIService.LoadRoleContext | src/services/AzureOpenAIService.ts:331-345 | the role slot becomes the role file, or `''`; a successful fetch marks the service initialised |
| Azure.AzureOpenAIService.LoadPersonaContext | src/services/AzureOpenAIService.ts:347-361 | the persona slot becomes the persona file, or `''`; a successful fetch marks the service initialised |
| Azure.AzureOpenAIService.LoadScenarioContext | src/services/AzureOpenAIService.ts:363-377 | the scenario slot becomes the scenario file, or `''`; a successful fetch marks the service initialised |
| Azure.AzureOpenAIService.LoadContextFiles | src/services/AzureOpenAIService.ts:247-284 | instructions and lists are loaded, each slot gets the given name or the first available one (or keeps its text when there is neither), and the service is initialised |
| Azure.AzureOpenAIService.Attempt | src/services/AzureOpenAIService.ts:405-450 | the first try sends exactly when a client can be had, on the existing client's key or else the new token, and yields the reply's content check, or the error of the token step |
| Azure.AzureOpenAIService.Retry | src/services/AzureOpenAIService.ts:461-486 | the retry (corrected): the token is dropped, a fresh one requested, and with it the same messages are resent on the client's key, yielding that reply's content check; without one nothing is sent |
| Azure.AzureOpenAIService.RetryAsWritten | src/services/AzureOpenAIService.ts:461-486 | the retry as written requests a fresh token and then fails with the out-of-scope `ReferenceError`, sending nothing |
| Azure.AzureOpenAIService.Exchange | src/services/AzureOpenAIService.ts:405-512 | as written: one request when a client can be had, on the existing client's key; the reply is the answer or the message for the first failure; an authentication failure adds one token request and no second send |
| Azure.AzureOpenAIService.PrepareMessages | src/services/AzureOpenAIService.ts:401-425 | `ContextsReady`: when not initialised, the instructions, the listing or fallback lists and each slot's first available context are loaded, and otherwise every list, slot and flag is kept; the messages are the system prompt of that state followed by the history |
| Azure.AzureOpenAIService.SendMessage | src/services/AzureOpenAIService.ts:401-513 | `ContextsReady`: when not initialised, the instructions, lists and first available contexts are loaded, and otherwise all of them are kept; the prompt of that state and the history are sent once when a client can be had, on the existing client's key; the reply is the answer or the message for the failure, and an authentication failure only refreshes the token |
| Azure.AzureOpenAIService.AttemptStream | src/services/AzureOpenAIService.ts:521-568 | the first streaming try sends exactly when a client can be had, on the existing client's key, and emits the stream's chunks with its full text, or fails with the stream's or the token step's error |
| Azure.AzureOpenAIService.RetryStream | src/services/AzureOpenAIService.ts:579-611 | the streaming retry (corrected): a fresh token, then the same messages streamed again on the client's key, emitting the new stream; without a token nothing is sent |
| Azure.AzureOpenAIService.RetryStreamAsWritten | src/services/AzureOpenAIService.ts:579-611 | the streaming retry as written requests a fresh token and then fails with the out-of-scope `ReferenceError`, streaming nothing |
| Azure.AzureOpenAIService.RecoverStream | src/services/AzureOpenAIService.ts:569-638 | as written: the error message for the failure is the one further chunk and the completion; an authentication error adds one token request and nothing is sent again |
| Azure.AzureOpenAIService.ExchangeStream | src/services/AzureOpenAIService.ts:521-638 | one request when a client can be had, on the existing client's key; the chunks and the single completion are those of the first stream, the completion being its full text or, after a break, the error message as last chunk; an authentication break adds one token request |
| Azure.AzureOpenAIService.StreamMessage | src/services/AzureOpenAIService.ts:515-639 | `ContextsReady`: when not initialised, the instructions, lists and first available contexts are loaded, and otherwise all of them are kept; the prompt of that state and the history are streamed once when a client can be had, on the existing client's key; `onComplete` runs once, with the full text or the error message |
| Cisco.StreamFailureMessage | src/services/CiscoOpenAIService.ts:558-560 | the stream failure reply is the fixed prefix followed by the error's message |
| Cisco.SendReport | src/services/CiscoOpenAIService.ts:401-464 | a failure is the first answer's error; the reply differs from the first answer's content only when an authentication failure was retried with a token and the retry succeeded, and then it is the retried content |
| Cisco.RecoveryJoins | src/services/CiscoOpenAIService.ts:521-561 | after a break the completion is what the last chunks join to: the retried stream in full when it succeeds, otherwise the failure message, the only chunk when nothing was retried |
| Cisco.StreamReportJoins | src/services/CiscoOpenAIService.ts:496-561 | the first stream's chunks come first and the completion is what the last chunks join to; an unbroken stream completes with its full text, and a break that is not an authentication error completes with the failure message |
| Cisco.CiscoOpenAIService.constructor | src/services/CiscoOpenAIService.ts:26-73 | a new service has the credentials, the Cisco models with `gpt-4o` selected, no client or token, and empty contexts |
| Cisco.CiscoOpenAIService.GetAccessToken | src/services/CiscoOpenAIService.ts:75-156 | the result is `TokenOutcome`: a reusable token is returned untouched; otherwise one token request is made and its grant is cached with its expiry |
| Cisco.CiscoOpenAIService.EnsureClient | src/services/CiscoOpenAIService.ts:158-182 | a client exists afterwards exactly when a token was obtained; an existing client keeps the key it was made with (as written), a new one takes the token, and a failure carries the token error |
| Cisco.CiscoOpenAIService.SetModel | src/services/CiscoOpenAIService.ts:193-207 | a listed model becomes the selected one, and an unknown id changes nothing |
| Cisco.CiscoOpenAIService.LoadGeneralInstructions | src/services/CiscoOpenAIService.ts:261-274 | the general instructions become the served file, or `''` |
| Cisco.CiscoOpenAIService.LoadAvailableContexts | src/services/CiscoOpenAIService.ts:276-304 | the lists become the server's listing, or the fallback names |
| Cisco.CiscoOpenAIService.LoadRoleContext | src/services/CiscoOpenAIService.ts:306-320 | the role slot becomes the role file, or `''`; a successful fetch marks the service initialised |
| Cisco.CiscoOpenAIService.LoadPersonaContext | src/services/CiscoOpenAIService.ts:322-336 | the persona slot becomes the persona file, or `''`; a successful fetch marks the service initialised |
| Cisco.CiscoOpenAIService.LoadScenarioContext | src/services/CiscoOpenAIService.ts:338-352 | the scenario slot becomes the scenario file, or `''`; a successful fetch marks the service initialised |
| Cisco.CiscoOpenAIService.LoadContextFiles | src/services/CiscoOpenAIService.ts:222-259 | instructions and lists are loaded, each slot gets the given or first available context, and the service is initialised |
| Cisco.CiscoOpenAIService.Retry | src/services/CiscoOpenAIService.ts:436-461 | the retry requests a fresh token and, with one, resends the same messages on the existing client's key, yielding that reply's content check; without one it sends nothing and yields the token error |
| Cisco.CiscoOpenAIService.Exchange | src/services/CiscoOpenAIService.ts:401-464 | the reply is `SendReport` of the first answer, the retry's token and the retried answer; every request is on the client's key, the second exactly when an authentication failure is retried with a token, and a token request follows exactly an authentication failure |
| Cisco.CiscoOpenAIService.SendWithClient | src/services/CiscoOpenAIService.ts:382-464 | without a token the call rejects with the token error and sends nothing; otherwise the `SendReport` reply, every request on the existing client's key or else the new token |
| Cisco.CiscoOpenAIService.SendMessage | src/services/CiscoOpenAIService.ts:376-465 | `ContextsReady`: when not initialised, the instructions, lists and first available contexts are loaded, and otherwise all of them are kept; without a token the call rejects and sends nothing; otherwise the prompt and history are sent on the client's key, and the reply is the `SendReport` outcome |
| Cisco.CiscoOpenAIService.PrepareMessages | src/services/CiscoOpenAIService.ts:376-399 | `ContextsReady`: when not initialised, the instructions, the listing or fallback lists and each slot's first available context are loaded, and otherwise every list, slot and flag is kept; the messages are the system prompt of that state followed by the history |
| Cisco.CiscoOpenAIService.RetryStream | src/services/CiscoOpenAIService.ts:524-556 | the streaming retry requests a fresh token and, with one, streams the same messages again on the existing client's key, emitting the new stream; without one nothing is sent |
| Cisco.CiscoOpenAIService.RecoverStream | src/services/CiscoOpenAIService.ts:521-561 | the chunks and the completion are `Recovery` of the error, the retry's token and the retried stream; the retry's request is on the client's key and made only after an authentication error |
| Cisco.CiscoOpenAIService.ExchangeStream | src/services/CiscoOpenAIService.ts:496-561 | `onComplete` runs once, and the chunks and completion are `StreamReport` of the first stream, the retry's token and the retried stream; every request is on the client's key |
| Cisco.CiscoOpenAIService.StreamWithClient | src/services/CiscoOpenAIService.ts:477-562 | the call rejects exactly when no token can be had, before any chunk; otherwise the `StreamReport` outcome, every request on the existing client's key or else the new token |
| Cisco.CiscoOpenAIService.StreamMessage | src/services/CiscoOpenAIService.ts:467-562 | `ContextsReady`: when not initialised, the instructions, lists and first available contexts are loaded, and otherwise all of them are kept; the call rejects exactly when no token can be had; otherwise `onComplete` runs once with the `StreamReport` outcome, every request on the client's key |
| Claude.MessagesEndpoint.Create | src/services/ClaudeService.ts:328-333 | a request is logged and answered with the next scripted reply |
| Claude.ReplyText | src/services/ClaudeService.ts:336-341 | the answer is the first content block's text; an empty or non-text first block is an error, and a failed call yields its error |
| Claude.FailureReply | src/services/ClaudeService.ts:342-346 | every failure becomes the error reply: the `Error: Unable to get response from Claude API.` prefix followed by the error's message when it has one, and otherwise by `Unknown error` |
| Claude.AnswerFor | src/services/ClaudeService.ts:251-347 | without an API key the reply is the error reply for the missing key; otherwise it is the first text block's text, or the error reply for the failure |
| Claude.ClaudeMessages | src/services/ClaudeService.ts:287-302 | an empty history is sent as one `Hello` user message, and otherwise the history is sent as it is |
| Claude.ClaudePromptOrder | src/services/ClaudeService.ts:194-249 | the system prompt holds the role, persona and scenario under their headings, in that order, with the chart instructions last |
| Claude.ClaudeService.constructor | src/services/ClaudeService.ts:26-39 | a new service has empty contexts and lists and is not initialised |
| Claude.ClaudeService.LoadAvailableContexts | src/services/ClaudeService.ts:84-126 | the lists always become the fallback names |
| Claude.ClaudeService.LoadRoleContext | src/services/ClaudeService.ts:128-148 | the role slot becomes the role file, or `''` |
| Claude.ClaudeService.LoadPersonaContext | src/services/ClaudeService.ts:150-170 | the persona slot becomes the persona file, or `''` |
| Claude.ClaudeService.LoadScenarioContext | src/services/ClaudeService.ts:172-192 | the scenario slot becomes the scenario file, or `''` |
| Claude.ClaudeService.LoadContextFiles | src/services/ClaudeService.ts:41-82 | each slot gets the given name or the first fallback name, and the service is initialised |
| Claude.ClaudeService.SendMessage | src/services/ClaudeService.ts:251-347 | `ContextsReady`: when not initialised, the fixed lists and the `system_manager`, `entry_network_admin` and `high_cpu_load` contexts are loaded, and otherwise all of them are kept; the reply is `AnswerFor` the key and the next reply; without an API key nothing is sent, otherwise one request is made |
| Claude.ClaudeServiceAdapter.constructor | src/services/ClaudeServiceAdapter.ts:8-15 | the adapter lists the Claude models and selects the first |
| Claude.ClaudeServiceAdapter.SetModel | src/services/ClaudeServiceAdapter.ts:21-23 | a listed model becomes the selected one, and an unknown id changes nothing |
| Claude.ClaudeServiceAdapter.StreamMessage | src/services/ClaudeServiceAdapter.ts:67-73 | streaming through Claude rejects with a `TypeError` and emits nothing |
| Manager.ServiceForModel | src/services/AIServiceManager.ts:31-38 | a model id goes to Claude exactly when it starts with `claude-` |
| Manager.AIServiceManager.constructor | src/services/AIServiceManager.ts:13-29 | the manager lists Claude's models before Azure's, starts on Claude, and selects the first model |
| Manager.AIServiceManager.AllModels | src/services/AIServiceManager.ts:19-22 | the joined list has a model exactly when one of the providers has it |
| Manager.AIServiceManager.SetModel | src/services/AIServiceManager.ts:49-81 | an unknown model throws and changes nothing; a known one selects its provider and the model there; contexts are reloaded exactly on a switch to a provider that has not loaded its contexts, and then hold what `loadContextFiles()` loads (`LoadedDefaults`) while the other provider's stay as they were; without a reload neither provider's lists, slots or flags change |
| Manager.AIServiceManager.LoadContextFiles | src/services/AIServiceManager.ts:96-102 | both providers load and become initialised: Claude's lists are the fixed ones and its slots the named or default contexts, Azure's the listing and the named or first available contexts; a named context lands in both |
| Manager.AIServiceManager.LoadAvailableContexts | src/services/AIServiceManager.ts:104-106 | the lists come from the current provider only, and the other provider is untouched |
| Manager.AIServiceManager.LoadRoleContext | src/services/AIServiceManager.ts:108-116 | both providers' role slots become the same role file, and each becomes initialised when the fetch succeeds |
| Manager.AIServiceManager.LoadPersonaContext | src/services/AIServiceManager.ts:118-126 | both providers' persona slots become the same persona file, and each becomes initialised when the fetch succeeds |
| Manager.AIServiceManager.LoadScenarioContext | src/services/AIServiceManager.ts:128-136 | both providers' scenario slots become the same scenario file, and each becomes initialised when the fetch succeeds |
| Manager.AIServiceManager.SendMessage | src/services/AIServiceManager.ts:143-145 | a message goes to the current provider alone, and the other provider is unchanged; the reply is that provider's answer: Claude's `AnswerFor`, with no request without an API key, or Azure's `ReplyFor` its attempt for the model selected before the call, with the request on the existing client's key; the provider's contexts are `ContextsReady` |
| Manager.AIServiceManager.StreamMessage | src/services/AIServiceManager.ts:147-153 | streaming goes to the current provider: through Claude it rejects; through Azure the chunks and the one completion are those of the first stream for the model selected before the call, the completion is what the last chunks join to, an existing client keeps its key, and the contexts are `ContextsReady` |
| Storage.LocalStorage.GetItem | src/services/StorageService.ts:23 | a stored key gives its value, and any other key gives `null` |
| Storage.LocalStorage.SetItem | src/services/StorageService.ts:10 | storing a value replaces that key and leaves every other key |
| Storage.SaveSelectedRole | src/services/StorageService.ts:9-11 | saving a role stores it under the role key and leaves the persona and scenario selections as they were |
| Storage.SaveSelectedPersona | src/services/StorageService.ts:13-15 | saving a persona stores it under the persona key and leaves the role and scenario selections as they were |
| Storage.SaveSelectedScenario | src/services/StorageService.ts:17-19 | saving a scenario stores it under the scenario key and leaves the role and persona selections as they were |
| Storage.SavedOrFirst | src/services/StorageService.ts:22-42 | the selection is the saved name when it is non-empty and available, otherwise the first available name, or `''` when none is available |
| Storage.SelectionIsAvailable | src/services/StorageService.ts:22-28 | with any context available, the selection shown is always one of them |
| Storage.SaveThenGetRole | src/services/StorageService.ts:9-28 | saving a role that is available makes it the role shown |

## Left out

- Network, SDKs and `fetch`: scripted endpoint objects and a `ContextServer` value stand for them; HTTP headers, URLs other than the context paths, `temperature: 0.7` and `max_tokens` are not modelled.
- `Date.now()` and `Math.random()`: the clock is the `now` parameter and chart ids come from the `ids` parameter.
- Concurrency: every `async` method runs to completion in order; `Promise.all` over the two providers' loads runs them one after the other (they touch disjoint state); the `initPromise` coalescing and the constructors' eager `loadContextFiles` call are not modelled (a service starts uninitialised and loads on first use).
- Manager.AIServiceManager.SetModel: the fire-and-forget `loadContextFiles()` after a provider switch is modelled as completing before `setModel` returns.
- The Azure service's `sendMessage` and `streamMessage` follow the retry as written; the corrected `Retry` and `RetryStream` are stated beside them and are not called by them.
- The services' `ensureClient` is modelled as written throughout: an existing client keeps its key; the corrected key is stated by ClientKey alone.
- Cisco.CiscoOpenAIService.PrepareMessages builds the messages before the client is made, where the source makes the client first; building them reads only the contexts, which making the client does not touch.
- Console logging and the `console.error` inside each `catch` are not modelled.
- Regular expressions: only `CHART_PATTERN` and the key rewrite `/(\w+):/g` are modelled, as scanners; `\s` is JavaScript's WhiteSpace and LineTerminator characters, as `trim` uses them, and `\w` is ASCII letters, digits and `_`.
- `JSON.parse`: strings are sequences of `char`, which are Unicode scalar values rather than UTF-16 code units, so `\u` escapes in the surrogate range D800–DFFF are rejected, lone or paired; numbers are kept exactly as an integer mantissa with a decimal exponent, not rounded to floating point.
- Json.ParseValue: states only that a parsed value ends inside the text; the grammar itself is given by the definition.
- Chart rendering, tables (`TableComponent`) and every React component are not modelled; `Charts` keeps only the chart record's fields.
- ClaudeService has no `AVAILABLE_MODELS`, `getSelectedModel`, `setModel`, `hasLoadedContexts` or `streamMessage`, although the adapter calls them. As written, `new AIServiceManager()` throws a `TypeError` when it spreads the undefined `ClaudeService.AVAILABLE_MODELS` (src/services/AIServiceManager.ts:19-22 via src/services/ClaudeServiceAdapter.ts:14), and the adapter's `setModel` and `hasLoadedContexts` would throw as well; nothing in the application constructs the manager. The Manager and adapter members therefore model the adapter as intended: its model list is a constructor parameter and its model selection behaves like the other services'; `streamMessage` rejects with the `TypeError` the missing method gives.
- Claude.ClaudeService.SendMessage: always sends `claude-3-opus-20240229`, whatever model the adapter selected, as the code does.
- `UserInfo` (`JSON.stringify({appkey})`) does not escape the application key.
- `ChatMessage.timestamp` is not modelled.
- `AIServiceInterface.ts` contributes only the shapes of `ChatMessage`, `ContextOptions` and `ModelOption`.
- The getters (`getAvailableModels`, `getSelectedModel`, `getAvailableRoles` and the like) are fields or functions of the classes and carry no separate contract.
- HasLoadedContexts and BuildSystemPrompt of each service are functions of the service's fields; their properties are stated by `SystemPromptOrder`, `ClaudePromptOrder` and the `isInitialized` clauses of the loaders.

## Findings

| source | as written | input that shows it | evidently intended | confidence | as-written member | corrected member |
|---|---|---|---|---|---|---|
| src/services/AzureOpenAIService.ts:461-486 | the retry after an authentication error (here, and again in `streamMessage` at lines 579-611) refers to `openaiMessages` and `userInfo`, which are declared with `const` inside the `try` block; in the `catch` block the names are out of scope, so the retry throws a `ReferenceError` (a compile error under a type-checking build), which the inner `catch` swallows, and nothing is resent | any send whose first reply is a 401 error: a fresh token is fetched, but the retry fails before sending and the authentication error message is returned | resend the same messages with the fresh token, as `CiscoOpenAIService.ts` does by declaring them before the `try` | high; not executed | Azure.AzureOpenAIService.RetryAsWritten, Azure.AzureOpenAIService.RetryStreamAsWritten | Azure.AzureOpenAIService.Retry, Azure.AzureOpenAIService.RetryStream |
| src/services/AzureOpenAIService.ts:185-207 | `ensureClient` (here, and in `CiscoOpenAIService.ts` at lines 158-182) stores the token in `this.accessToken` inside `getAccessToken` and then compares `this.accessToken !== token`, which is always false, so an existing client keeps the key it was built with | token `A` granted at time 0 for 3600 s, then a send at 3400000 ms: a new token `B` is fetched but the client still sends `A` | rebuild the client whenever the token changed | high; not executed | OpenAiCommon.ClientKeyAsWritten, OpenAiCommon.StaleClientKey | OpenAiCommon.ClientKey |
