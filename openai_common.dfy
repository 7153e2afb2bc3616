/** What `AzureOpenAIService` and `CiscoOpenAIService` share: the OAuth token
    endpoint and the chat completions endpoint (both scripted, with a log of
    the requests made), the token cache rule, the client kept by
    `ensureClient`, the system prompt, the outgoing message list, and the
    accumulation of a streamed answer. */
module OpenAiCommon {
  import opened Wrappers
  import opened JsStrings
  import opened AiTypes

  // ----- The token endpoint -----

  /** What `POST https://id.cisco.com/oauth2/default/v1/token` answers: a
      token with its `expires_in` (`None` when absent), an error status, or a
      failure of the request itself. */
  datatype TokenReply =
    | Granted(accessToken: string, expiresIn: Option<int>)
    | Refused(status: int, statusText: string, body: string)
    | Unreachable(error: Thrown)

  /** The token endpoint: it answers requests with its scripted replies in
      order (a failed request once they run out) and logs the
      `client_id:client_secret` pair each request was made with. */
  class TokenEndpoint {
    var replies: seq<TokenReply>
    var requests: seq<(string, string)>

    constructor (replies: seq<TokenReply>)
      ensures this.replies == replies && requests == []
    {
      this.replies := replies;
      requests := [];
    }

    function Next(): TokenReply
      reads this
    {
      if |replies| > 0 then replies[0] else Unreachable(FetchFailed)
    }

    /** The reply after the next one: what a second request gets. */
    function SecondReply(): TokenReply
      reads this
    {
      if |replies| > 1 then replies[1] else Unreachable(FetchFailed)
    }

    method Post(clientId: string, clientSecret: string) returns (r: TokenReply)
      modifies this
      ensures r == old(Next())
      ensures requests == old(requests) + [(clientId, clientSecret)]
      ensures replies == Rest(old(replies))
    {
      r := Next();
      if |replies| > 0 {
        replies := replies[1..];
      }
      requests := requests + [(clientId, clientSecret)];
    }
  }

  /** Five minutes, in milliseconds: a cached token is not used this close to
      its expiry. */
  const ExpiryMarginMs: int := 5 * 60 * 1000

  /** `this.accessToken && now < this.tokenExpiryTime - 5 * 60 * 1000`: the
      cached token is used instead of asking for a new one. */
  predicate TokenReusable(token: string, expiry: int, now: int) {
    token != "" && now < expiry - ExpiryMarginMs
  }

  /** `tokenData.expires_in || 3600`: an absent or zero lifetime is an hour. */
  function LifetimeSeconds(expiresIn: Option<int>): (s: int)
    ensures expiresIn.Some? && expiresIn.value != 0 ==> s == expiresIn.value
    ensures expiresIn.None? || expiresIn.value == 0 ==> s == 3600
  {
    if expiresIn.Some? && expiresIn.value != 0 then expiresIn.value else 3600
  }

  /** `now + expiresIn * 1000`: when a token obtained at `now` expires. */
  function ExpiryAfter(now: int, expiresIn: Option<int>): int {
    now + LifetimeSeconds(expiresIn) * 1000
  }

  /** A token obtained at `now` is reused exactly until five minutes before
      its lifetime ends; one that lives five minutes or less is never reused. */
  lemma ReuseWindow(token: string, now: int, expiresIn: Option<int>, later: int)
    requires token != ""
    ensures TokenReusable(token, ExpiryAfter(now, expiresIn), later)
            <==> later - now < LifetimeSeconds(expiresIn) * 1000 - ExpiryMarginMs
    ensures LifetimeSeconds(expiresIn) <= 300 && now <= later
            ==> !TokenReusable(token, ExpiryAfter(now, expiresIn), later)
  {
  }

  /** What `getAccessToken` makes of the endpoint's reply at `now`: the new
      token and its expiry, or the error it throws. */
  function TokenFrom(reply: TokenReply, now: int): (r: Result<(string, int), Thrown>)
    ensures reply.Granted? <==> r.Success?
    ensures reply.Granted? ==> r.value == (reply.accessToken, ExpiryAfter(now, reply.expiresIn))
    ensures reply.Unreachable? ==> r == Failure(reply.error)
  {
    match reply
    case Granted(token, expiresIn) => Success((token, ExpiryAfter(now, expiresIn)))
    case Refused(status, statusText, body) =>
      Failure(NewError("Failed to get access token: " + IntToString(status) + " " + statusText
                       + ". Response: " + body))
    case Unreachable(e) => Failure(e)
  }

  // ----- The client kept by `ensureClient` -----

  /** The key of the client `ensureClient` returns, as written: a new client
      is made when there is none or when `this.accessToken !== token`, where
      `cached` is `this.accessToken` at that point. */
  function ClientKeyAsWritten(client: Option<string>, cached: string, token: string): string {
    if client.None? || cached != token then token else client.value
  }

  /** What `ensureClient` is meant to do ("always create a new client with
      fresh token"): the client returned carries the token just obtained. */
  function ClientKey(client: Option<string>, token: string): (key: string)
    ensures key == token
  {
    if client.None? || client.value != token then token else client.value
  }

  /** `getAccessToken` has just stored `token` in `this.accessToken`, so the
      comparison of the source never holds: an existing client is kept,
      whatever its key. */
  lemma ClientKeptAsWritten(client: Option<string>, token: string)
    requires client.Some?
    ensures ClientKeyAsWritten(client, token, token) == client.value
  {
  }

  /** A client made with token "A" obtained at time 0 (an hour's lifetime):
      at 3 400 000 ms the token is inside the five-minute margin, so a new
      token "B" is obtained, and as written the request still carries "A". */
  lemma StaleClientKey()
    ensures !TokenReusable("A", ExpiryAfter(0, None), 3400000)
    ensures ClientKeyAsWritten(Some("A"), "B", "B") == "A"
    ensures ClientKey(Some("A"), "B") == "B"
  {
  }

  // ----- The chat completions endpoint -----

  /** `client.chat.completions.create(...)`: the client's key, the model, the
      messages, the `user` field and whether the answer is streamed; the
      temperature (0.7) and the token limit are the same in every request. */
  datatype ChatRequest = ChatRequest(apiKey: string, model: string, messages: seq<ApiMessage>, user: string, stream: bool)

  /** The answer to a request that is not streamed:
      `choices[0]?.message?.content`, or the error the call throws. */
  datatype Completion = Answered(content: Option<string>) | CallFailed(error: Thrown)

  /** The answer to a streamed request: the `choices[0]?.delta?.content` of
      each chunk, and the error that ends the stream early, if any; or the
      error the call itself throws. */
  datatype StreamReply = Streamed(deltas: seq<Option<string>>, broken: Option<Thrown>) | StreamFailed(error: Thrown)

  /** The chat completions endpoint, with scripted answers for plain and for
      streamed requests and a log of every request. */
  class ChatEndpoint {
    var completions: seq<Completion>
    var streams: seq<StreamReply>
    var requests: seq<ChatRequest>

    constructor (completions: seq<Completion>, streams: seq<StreamReply>)
      ensures this.completions == completions && this.streams == streams && requests == []
    {
      this.completions := completions;
      this.streams := streams;
      requests := [];
    }

    function NextCompletion(): Completion
      reads this
    {
      if |completions| > 0 then completions[0] else CallFailed(FetchFailed)
    }

    function NextStream(): StreamReply
      reads this
    {
      if |streams| > 0 then streams[0] else StreamFailed(FetchFailed)
    }

    /** The answers after the next ones: what a second request gets. */
    function SecondCompletion(): Completion
      reads this
    {
      if |completions| > 1 then completions[1] else CallFailed(FetchFailed)
    }

    function SecondStream(): StreamReply
      reads this
    {
      if |streams| > 1 then streams[1] else StreamFailed(FetchFailed)
    }

    method Complete(request: ChatRequest) returns (r: Completion)
      modifies this
      ensures r == old(NextCompletion())
      ensures requests == old(requests) + [request]
      ensures completions == Rest(old(completions))
      ensures streams == old(streams)
    {
      r := NextCompletion();
      if |completions| > 0 {
        completions := completions[1..];
      }
      requests := requests + [request];
    }

    method Stream(request: ChatRequest) returns (r: StreamReply)
      modifies this
      ensures r == old(NextStream())
      ensures requests == old(requests) + [request]
      ensures streams == Rest(old(streams))
      ensures completions == old(completions)
    {
      r := NextStream();
      if |streams| > 0 {
        streams := streams[1..];
      }
      requests := requests + [request];
    }
  }

  /** `JSON.stringify({ appkey: appKey })`, for an app key without characters
      that JSON escapes. */
  function UserInfo(appKey: string): string {
    "{\"appkey\":\"" + appKey + "\"}"
  }

  /** `choices[0]?.message?.content`, and the `No content in response` error
      thrown when it is missing or empty. */
  function ContentOf(c: Completion): (r: Result<string, Thrown>)
    ensures r.Success? <==> c.Answered? && c.content.Some? && c.content.value != ""
    ensures r.Success? ==> r.value == c.content.value
    ensures c.CallFailed? ==> r == Failure(c.error)
  {
    match c
    case CallFailed(e) => Failure(e)
    case Answered(content) =>
      if content.Some? && content.value != "" then Success(content.value)
      else Failure(NewError("No content in response"))
  }

  /** The error a streamed request ends with, if any. */
  function StreamError(s: StreamReply): Option<Thrown> {
    match s
    case StreamFailed(e) => Some(e)
    case Streamed(_, broken) => broken
  }

  // ----- The system prompt and the message list -----

  /** `buildSystemPrompt()`: the general instructions, the role, the persona
      under `User Persona:` and the scenario under `Current Scenario:`. */
  function SystemPrompt(general: string, role: string, persona: string, scenario: string): string {
    "\n" + general + "\n\n" + role + "\n\nUser Persona:\n" + persona + "\n\nCurrent Scenario:\n" + scenario + "\n"
  }

  /** The four contexts stand in the prompt verbatim, in the order general
      instructions, role, persona, scenario, each under its heading. */
  lemma SystemPromptOrder(general: string, role: string, persona: string, scenario: string)
    ensures var p := SystemPrompt(general, role, persona, scenario);
            var r := 3 + |general|;
            var pe := r + |role| + 16;
            var sc := pe + |persona| + 20;
            && |p| == sc + |scenario| + 1
            && p[1..1 + |general|] == general
            && p[r..r + |role|] == role
            && p[r + |role|..pe] == "\n\nUser Persona:\n"
            && p[pe..pe + |persona|] == persona
            && p[pe + |persona|..sc] == "\n\nCurrent Scenario:\n"
            && p[sc..sc + |scenario|] == scenario
  {
    var p := SystemPrompt(general, role, persona, scenario);
    var r := 3 + |general|;
    var pe := r + |role| + 16;
    var sc := pe + |persona| + 20;
    var a := "\n" + general + "\n\n";
    var b := a + role + "\n\nUser Persona:\n";
    var c := b + persona + "\n\nCurrent Scenario:\n";
    assert p == c + scenario + "\n";
    assert |a| == r && |b| == pe && |c| == sc;
    assert p[..sc] == c;
    assert c[..pe] == b;
    assert b[..r] == a;
  }

  /** `openaiMessages`: the system prompt as a `system` message, then the
      conversation in order, each message with its role and content. */
  function OpenAiMessages(prompt: string, history: seq<ChatMessage>): (messages: seq<ApiMessage>)
    ensures |messages| == |history| + 1
    ensures messages[0] == ApiMessage("system", prompt)
    ensures forall k :: 0 <= k < |history| ==> messages[k + 1] == ToApi(history[k])
  {
    [ApiMessage("system", prompt)] + seq(|history|, k requires 0 <= k < |history| => ToApi(history[k]))
  }

  /** The loop that builds `openaiMessages`, one `push` per message of the
      conversation. */
  method BuildMessages(prompt: string, history: seq<ChatMessage>) returns (messages: seq<ApiMessage>)
    ensures messages == OpenAiMessages(prompt, history)
  {
    messages := [ApiMessage("system", prompt)];
    for i := 0 to |history|
      invariant |messages| == i + 1 && messages[0] == ApiMessage("system", prompt)
      invariant forall k :: 0 <= k < i ==> messages[k + 1] == ToApi(history[k])
    {
      messages := messages + [ToApi(history[i])];
    }
    assert messages == OpenAiMessages(prompt, history);
  }

  // ----- Accumulating a stream -----

  /** The deltas that `if (content)` passes to `onChunk`, in order: those
      that are present and not empty. */
  function Emitted(deltas: seq<Option<string>>): (chunks: seq<string>)
    ensures |chunks| <= |deltas|
    ensures forall k :: 0 <= k < |chunks| ==> chunks[k] != ""
    ensures |deltas| == 1 ==> chunks == if deltas[0].Some? && deltas[0].value != "" then [deltas[0].value] else []
  {
    if |deltas| == 0 then []
    else
      var last := deltas[|deltas| - 1];
      var init := Emitted(deltas[..|deltas| - 1]);
      if last.Some? && last.value != "" then init + [last.value] else init
  }

  /** The chunks keep the order of the deltas: those of a stream are the
      chunks of its first part, then those of the rest. With the single
      delta case of `Emitted`, this says the chunks are exactly the deltas
      with text, in order. */
  lemma {:induction false} EmittedSplits(front: seq<Option<string>>, back: seq<Option<string>>)
    ensures Emitted(front + back) == Emitted(front) + Emitted(back)
    decreases |back|
  {
    if |back| == 0 {
      assert front + back == front;
    } else {
      var init := back[..|back| - 1];
      EmittedSplits(front, init);
      assert (front + back)[..|front + back| - 1] == front + init;
      assert (front + back)[|front + back| - 1] == back[|back| - 1];
    }
  }

  /** The text every delta carries, `''` for one that carries none. */
  function DeltaTexts(deltas: seq<Option<string>>): (texts: seq<string>)
    ensures |texts| == |deltas|
    ensures forall k :: 0 <= k < |deltas| ==> texts[k] == deltas[k].GetOr("")
  {
    seq(|deltas|, k requires 0 <= k < |deltas| => deltas[k].GetOr(""))
  }

  /** Leaving the empty deltas out loses nothing: the accumulated answer is
      all the text the stream carried. */
  lemma {:induction false} EmittedKeepsAllText(deltas: seq<Option<string>>)
    ensures Concat(Emitted(deltas)) == Concat(DeltaTexts(deltas))
    decreases |deltas|
  {
    if |deltas| > 0 {
      var init := deltas[..|deltas| - 1];
      EmittedKeepsAllText(init);
      assert DeltaTexts(deltas)[..|deltas| - 1] == DeltaTexts(init);
      var last := deltas[|deltas| - 1];
      if last.Some? && last.value != "" {
        ConcatAppend(Emitted(init), [last.value]);
      }
    }
  }

  /** `full` is the last chunks joined: what `onComplete` receives after the
      chunks of the attempt that completed. */
  predicate JoinsLastChunks(chunks: seq<string>, full: string) {
    exists k :: 0 <= k <= |chunks| && Concat(chunks[k..]) == full
  }

  lemma CompletesAll(chunks: seq<string>, full: string)
    requires full == Concat(chunks)
    ensures JoinsLastChunks(chunks, full)
  {
    assert chunks[0..] == chunks;
  }

  lemma CompletesSuffix(before: seq<string>, chunks: seq<string>, full: string)
    requires full == Concat(chunks)
    ensures JoinsLastChunks(before + chunks, full)
  {
    assert (before + chunks)[|before|..] == chunks;
  }

  /** Chunks streamed earlier do not change which last chunks join up. */
  lemma CompletesAfter(before: seq<string>, chunks: seq<string>, full: string)
    requires JoinsLastChunks(chunks, full)
    ensures JoinsLastChunks(before + chunks, full)
  {
    var k :| 0 <= k <= |chunks| && Concat(chunks[k..]) == full;
    assert (before + chunks)[|before| + k..] == chunks[k..];
  }

  /** What one streamed request yields for the reply `s`: the chunks with
      text, and the whole answer when the stream ends without an error, or
      the error. */
  predicate StreamAnswer(s: StreamReply, chunks: seq<string>, full: Result<string, Thrown>) {
    match s
    case StreamFailed(e) => chunks == [] && full == Failure(e)
    case Streamed(deltas, broken) =>
      chunks == Emitted(deltas)
      && full == (if broken.None? then Success(Concat(chunks)) else Failure(broken.value))
  }

  /** The chunks a streamed request passes to `onChunk` before it ends,
      with or without an error. */
  function StreamedChunks(s: StreamReply): seq<string> {
    match s
    case StreamFailed(_) => []
    case Streamed(deltas, _) => Emitted(deltas)
  }

  /** `client.chat.completions.create({...stream: false})` and the content
      of its answer. */
  method CompleteOnce(chat: ChatEndpoint, request: ChatRequest) returns (r: Result<string, Thrown>)
    modifies chat
    ensures chat.requests == old(chat.requests) + [request]
    ensures r == ContentOf(old(chat.NextCompletion()))
    ensures chat.completions == Rest(old(chat.completions)) && chat.streams == old(chat.streams)
  {
    var answer := chat.Complete(request);
    r := ContentOf(answer);
  }

  /** `client.chat.completions.create({...stream: true})` and the loop over
      the stream: the chunks, and the whole answer or the error the stream
      ended with. */
  method StreamOnce(chat: ChatEndpoint, request: ChatRequest) returns (chunks: seq<string>, full: Result<string, Thrown>)
    modifies chat
    ensures chat.requests == old(chat.requests) + [request]
    ensures StreamAnswer(old(chat.NextStream()), chunks, full)
    ensures chunks == StreamedChunks(old(chat.NextStream()))
    ensures full.Success? <==> StreamError(old(chat.NextStream())).None?
    ensures full.Failure? ==> full.error == StreamError(old(chat.NextStream())).value
    ensures chat.streams == Rest(old(chat.streams)) && chat.completions == old(chat.completions)
  {
    var stream := chat.Stream(request);
    if stream.StreamFailed? {
      return [], Failure(stream.error);
    }
    var text;
    text, chunks := Accumulate(stream.deltas);
    full := if stream.broken.None? then Success(text) else Failure(stream.broken.value);
  }

  /** The `for await` loop: each delta with text is appended to the answer
      and passed to `onChunk`; the answer passed to `onComplete` is all the
      chunks joined. */
  method Accumulate(deltas: seq<Option<string>>) returns (full: string, chunks: seq<string>)
    ensures chunks == Emitted(deltas)
    ensures full == Concat(chunks)
  {
    full := "";
    chunks := [];
    for i := 0 to |deltas|
      invariant chunks == Emitted(deltas[..i])
      invariant full == Concat(chunks)
    {
      assert deltas[..i + 1][..i] == deltas[..i];
      var content := deltas[i];
      if content.Some? && content.value != "" {
        full := full + content.value;
        chunks := chunks + [content.value];
        assert chunks[..|chunks| - 1] == Emitted(deltas[..i]);
      }
    }
    assert deltas[..|deltas|] == deltas;
  }

  /** `error.toString().includes('401') || error.toString().includes('auth')`:
      the errors after which the token is refreshed and the request retried. */
  predicate IsAuthError(e: Thrown) {
    Contains(ErrorText(e), "401") || Contains(ErrorText(e), "auth")
  }
}
