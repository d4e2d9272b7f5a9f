/**
 * The LLM adapters and their selection (src/modeling/llm.py). An adapter is a
 * value that holds its provider's record; `call` builds a request, hands it to
 * the outside world (a subprocess or an HTTP POST, both parameters here) and
 * classifies what comes back into summary text or an exception message.
 */
module Modeling {
  import opened Wrappers
  import opened Text
  import opened ConfigLoader

  // ---------------------------------------------------------------- adapters

  /** `OllamaLLM`, `HuggingFaceLLM` (with the `api_url` its constructor fixes) and `OpenRouterLLM`. */
  datatype LLM =
    | OllamaLLM(ollamaConfig: OllamaConfig)
    | HuggingFaceLLM(huggingFaceConfig: HuggingFaceConfig, apiUrl: string)
    | OpenRouterLLM(openRouterConfig: OpenRouterConfig)
  {
    function Provider(): LLMProvider {
      match this
      case OllamaLLM(_) => Ollama
      case HuggingFaceLLM(_, _) => HuggingFace
      case OpenRouterLLM(_) => OpenRouter
    }

    /** The record the adapter was built from (`self.config`). */
    function Record(): ProviderConfig {
      match this
      case OllamaLLM(c) => OllamaRecord(c)
      case HuggingFaceLLM(c, _) => HuggingFaceRecord(c)
      case OpenRouterLLM(c) => OpenRouterRecord(c)
    }
  }

  /** How an f-string renders an optional string: `None` becomes the text "None". */
  function RenderOptional(o: Option<string>): string {
    match o
    case Some(s) => s
    case None => "None"
  }

  /** `HuggingFaceLLM.api_url`: the base URL, a slash, then the model name. */
  function ApiUrl(c: HuggingFaceConfig): (url: string)
    ensures var base := RenderOptional(c.baseUrl);
      |url| == |base| + 1 + |c.model|
      && url[..|base|] == base && url[|base|] == '/' && url[|base| + 1..] == c.model
  {
    RenderOptional(c.baseUrl) + "/" + c.model
  }

  /**
   * `LLMSelector.create_llm_from_config`: the adapter for the selected
   * provider, holding exactly that provider's record. With nothing selected
   * `get_selected_llm_config` fails first, so the "Unsupported LLM provider"
   * branch is never taken (its `assert false` is proved).
   */
  function CreateLLMFromConfig(c: LLMsConfig): (r: Result<LLM, string>)
    ensures r.Failure? <==> GetSelectedLLM(c).None?
    ensures r.Failure? ==> r.error == NoProviderSelectedMessage
    ensures r.Success? ==> r.value.Provider() == GetSelectedLLM(c).value
    ensures r.Success? ==> Success(r.value.Record()) == GetSelectedLLMConfig(c)
    ensures r.Success? && r.value.HuggingFaceLLM? ==> r.value.apiUrl == ApiUrl(r.value.huggingFaceConfig)
  {
    var provider := GetSelectedLLM(c);
    var llmConfig := GetSelectedLLMConfig(c);
    if llmConfig.Failure? then Failure(llmConfig.error)
    else
      match provider
      case Some(Ollama) => Success(OllamaLLM(llmConfig.value.ollama))
      case Some(HuggingFace) =>
        var hf := llmConfig.value.huggingFace;
        Success(HuggingFaceLLM(hf, ApiUrl(hf)))
      case Some(OpenRouter) => Success(OpenRouterLLM(llmConfig.value.openRouter))
      case None => assert false; Failure("Unsupported LLM provider: None")
  }

  /** Whatever the configuration, the adapter built is for an enabled provider. */
  lemma CreatedAdapterIsEnabled(c: LLMsConfig)
    requires CreateLLMFromConfig(c).Success?
    ensures IsEnabled(c, CreateLLMFromConfig(c).value.Provider())
    ensures CreateLLMFromConfig(c).value.Record().Enabled()
  {
  }

  // ---------------------------------------------------------------- prompts

  const WebsiteContentsSeparator := "\nThe contents of this website is as follows:\n"

  /** `full_prompt` of the Ollama and OpenRouter adapters: prompt, separator, page content. */
  function FullPrompt(prompt: string, content: string): (s: string)
    ensures |s| == |prompt| + |WebsiteContentsSeparator| + |content|
    ensures s[..|prompt|] == prompt
    ensures s[|prompt|..|prompt| + |WebsiteContentsSeparator|] == WebsiteContentsSeparator
    ensures s[|prompt| + |WebsiteContentsSeparator|..] == content
  {
    prompt + WebsiteContentsSeparator + content
  }

  /**
   * When the prompt is one line, both parts can be read back from the full
   * prompt: the prompt ends at the first line break, the content follows the
   * separator.
   */
  lemma FullPromptSplits(prompt: string, content: string)
    requires '\n' !in prompt
    ensures var s := FullPrompt(prompt, content); var i := FirstIndexOf(s, '\n');
      s[..i] == prompt && s[i + |WebsiteContentsSeparator|..] == content
  {
    var rest := WebsiteContentsSeparator[1..] + content;
    assert WebsiteContentsSeparator == ['\n'] + WebsiteContentsSeparator[1..];
    assert FullPrompt(prompt, content) == prompt + ['\n'] + rest;
    FirstIndexOfAfter(prompt, '\n', rest);
  }

  // ---------------------------------------------------------------- the outside world

  /** A subprocess invocation: argument vector and what is written to standard input. */
  datatype ProcessRequest = ProcessRequest(argv: seq<string>, stdin: string)

  /** What `subprocess.run` gives back, or the `FileNotFoundError` of a missing binary. */
  datatype ProcessOutcome = BinaryNotFound | Exited(returnCode: int, stdout: string, stderr: string)

  /** The JSON body of a POST. */
  datatype ChatMessage = ChatMessage(role: string, content: string)
  datatype Payload =
    | InferencePayload(inputs: string)
    | ChatPayload(model: string, messages: seq<ChatMessage>)

  /** `requests.post(url, headers=..., json=...)`; `url` is `None` when the configured URL is. */
  datatype HttpRequest = HttpRequest(url: Option<string>, headers: map<string, string>, json: Payload)

  /**
   * What `requests.post` gives back: a `RequestException` with its text, or a
   * response with its status, its raw text and the field of the decoded JSON
   * body the adapter reads.
   */
  datatype HttpOutcome<B> = RequestException(reason: string) | Response(status: int, text: string, body: B)

  /**
   * Everything outside the adapters: `os.getenv`, the subprocess runner, and
   * the two POST endpoints. HuggingFace's body is the `summary_text` of the
   * first array element (`None` when that key is missing); OpenRouter's is
   * `choices[0].message.content`.
   */
  datatype Environment = Environment(
    getenv: string -> Option<string>,
    run: ProcessRequest -> ProcessOutcome,
    postInference: HttpRequest -> HttpOutcome<Option<string>>,
    postChat: HttpRequest -> HttpOutcome<string>)

  // ---------------------------------------------------------------- requests

  /** Runs `ollama run <model>` with the full prompt on standard input. */
  function OllamaRequest(c: OllamaConfig, content: string, prompt: string): (req: ProcessRequest)
    ensures req.argv == ["ollama", "run", c.model]
    ensures req.stdin == FullPrompt(prompt, content)
    ensures IsPrefix(prompt, req.stdin) && IsSuffix(content, req.stdin)
  {
    ProcessRequest(["ollama", "run", c.model], FullPrompt(prompt, content))
  }

  function BearerHeader(apiKey: Option<string>): string {
    "Bearer " + RenderOptional(apiKey)
  }

  /** POSTs only the page content to `api_url`; the prompt is not sent. */
  function HuggingFaceRequest(apiUrl: string, content: string, prompt: string, apiKey: Option<string>): (req: HttpRequest)
    ensures req.url == Some(apiUrl) && req.json == InferencePayload(content)
    ensures req.headers.Keys == {"Authorization"} && req.headers["Authorization"] == "Bearer " + RenderOptional(apiKey)
  {
    HttpRequest(Some(apiUrl), map["Authorization" := BearerHeader(apiKey)], InferencePayload(content))
  }

  /** POSTs one user message holding the full prompt, for the configured model, to `base_url`. */
  function OpenRouterRequest(c: OpenRouterConfig, content: string, prompt: string, apiKey: Option<string>): (req: HttpRequest)
    ensures req.url == c.baseUrl
    ensures req.json.ChatPayload? && req.json.model == c.model
    ensures |req.json.messages| == 1 && req.json.messages[0].role == "user"
    ensures req.json.messages[0].content == FullPrompt(prompt, content)
    ensures IsPrefix(prompt, req.json.messages[0].content) && IsSuffix(content, req.json.messages[0].content)
    ensures req.headers.Keys == {"Authorization", "Content-Type"}
    ensures req.headers["Authorization"] == "Bearer " + RenderOptional(apiKey)
    ensures req.headers["Content-Type"] == "application/json"
  {
    HttpRequest(
      c.baseUrl,
      map["Authorization" := BearerHeader(apiKey), "Content-Type" := "application/json"],
      ChatPayload(c.model, [ChatMessage("user", FullPrompt(prompt, content))]))
  }

  // ---------------------------------------------------------------- failures

  /** Why a `call` raised. */
  datatype CallError =
    | NotInstalled
    | ProcessFailed(stderr: string)
    | RateLimited
    | HttpError(status: int, text: string)
    | RequestFailed(reason: string)

  /** The failures each adapter can raise. */
  predicate CanRaise(p: LLMProvider, e: CallError) {
    match p
    case Ollama => e.NotInstalled? || e.ProcessFailed?
    case HuggingFace => e.HttpError? || e.RequestFailed?
    case OpenRouter => e.RateLimited? || e.HttpError? || e.RequestFailed?
  }

  function ProviderLabel(p: LLMProvider): string {
    match p
    case Ollama => "Ollama"
    case HuggingFace => "HuggingFace"
    case OpenRouter => "OpenRouter"
  }

  const OllamaNotFoundMessage := ProviderLabel(Ollama) + " not found. Make sure Ollama is installed"

  const DailyLimitPhrase := "daily request limit"

  /** The fixed rate-limit text OpenRouter's adapter raises on status 429. */
  const RateLimitMessage := "\U{1F6A7} Oops! The " + DailyLimitPhrase + " for OpenRouter has been reached.\n\nDon't worry, it just means *a lot of people* used the service today.\n\nPlease try again tomorrow.\n\nEven AI needs a nap sometimes... \U{1F4A4}"

  /**
   * The text of the exception the adapter raises. Every message but the
   * rate-limit one starts with the provider's name.
   */
  function ErrorMessage(p: LLMProvider, e: CallError): (msg: string)
    requires CanRaise(p, e)
    ensures IsPrefix(ProviderLabel(p), msg) <==> !e.RateLimited?
  {
    var name := ProviderLabel(p);
    match e
    case NotInstalled =>
      PrefixOfConcat(name, " not found. Make sure Ollama is installed");
      assert p == Ollama;
      OllamaNotFoundMessage
    case ProcessFailed(stderr) =>
      PrefixOfConcat(name, " error: ");
      PrefixExtends(name, name + " error: ", stderr);
      "Ollama error: " + stderr
    case RateLimited =>
      assert RateLimitMessage[0] != name[0];
      RateLimitMessage
    case HttpError(status, text) =>
      PrefixOfConcat(name, " error: ");
      PrefixExtends(name, name + " error: ", IntToString(status) + " - " + text);
      name + " error: " + (IntToString(status) + " - " + text)
    case RequestFailed(reason) =>
      PrefixOfConcat(name, " request failed: ");
      PrefixExtends(name, name + " request failed: ", reason);
      name + " request failed: " + reason
  }

  /**
   * What a caller can tell from an exception message alone: which failure it
   * was, with its status code, response text, standard error or reason.
   */
  function ParseErrorMessage(p: LLMProvider, m: string): Option<CallError> {
    var errorPrefix := ProviderLabel(p) + " error: ";
    var failedPrefix := ProviderLabel(p) + " request failed: ";
    if p == Ollama then
      if m == OllamaNotFoundMessage then Some(NotInstalled)
      else if IsPrefix(errorPrefix, m) then Some(ProcessFailed(m[|errorPrefix|..]))
      else None
    else if p == OpenRouter && m == RateLimitMessage then Some(RateLimited)
    else if IsPrefix(errorPrefix, m) then ParseHttpError(m[|errorPrefix|..])
    else if IsPrefix(failedPrefix, m) then Some(RequestFailed(m[|failedPrefix|..]))
    else None
  }

  /** Reads "<status> - <text>". */
  function ParseHttpError(rest: string): Option<CallError> {
    var i := FirstIndexOf(rest, ' ');
    var status := ParseInt(rest[..i]);
    if status.Some? && IsPrefix(" - ", rest[i..]) then Some(HttpError(status.value, rest[i + 3..]))
    else None
  }

  /** Every exception message an adapter raises is told apart from the others and gives back its cause. */
  lemma ErrorMessageRoundTrip(p: LLMProvider, e: CallError)
    requires CanRaise(p, e)
    ensures ParseErrorMessage(p, ErrorMessage(p, e)) == Some(e)
  {
    match e
    case NotInstalled =>
    case ProcessFailed(stderr) => ProcessFailedRoundTrip(stderr);
    case RateLimited =>
    case HttpError(status, text) => HttpErrorRoundTrip(p, status, text);
    case RequestFailed(reason) => RequestFailedRoundTrip(p, reason);
  }

  lemma ProcessFailedRoundTrip(stderr: string)
    ensures ParseErrorMessage(Ollama, ErrorMessage(Ollama, ProcessFailed(stderr))) == Some(ProcessFailed(stderr))
  {
    var m := ErrorMessage(Ollama, ProcessFailed(stderr));
    assert m[7] == 'e' != OllamaNotFoundMessage[7];
    assert m[..|"Ollama error: "|] == "Ollama error: ";
  }

  lemma HttpErrorRoundTrip(p: LLMProvider, status: int, text: string)
    requires p != Ollama
    ensures ParseErrorMessage(p, ErrorMessage(p, HttpError(status, text))) == Some(HttpError(status, text))
  {
    var rest := IntToString(status) + " - " + text;
    assert ErrorMessage(p, HttpError(status, text)) == ProviderLabel(p) + " error: " + rest;
    HttpErrorMessageParsesAsHttpError(p, rest);
    ParseHttpErrorRoundTrip(status, text);
  }

  /** A message "<Provider> error: <rest>" is handed to `ParseHttpError` with `rest`. */
  lemma HttpErrorMessageParsesAsHttpError(p: LLMProvider, rest: string)
    requires p != Ollama
    ensures ParseErrorMessage(p, ProviderLabel(p) + " error: " + rest) == ParseHttpError(rest)
  {
    var errorPrefix := ProviderLabel(p) + " error: ";
    var m := errorPrefix + rest;
    assert m == ProviderLabel(p) + (" error: " + rest);
    LabelledMessageIsNotRateLimit(p, " error: " + rest);
    PrefixOfConcat(errorPrefix, rest);
  }

  lemma PrefixExtends(a: string, b: string, c: string)
    requires IsPrefix(a, b)
    ensures IsPrefix(a, b + c)
  {
    assert (b + c)[..|a|] == b[..|a|];
  }

  lemma PrefixOfConcat(a: string, b: string)
    ensures IsPrefix(a, a + b) && (a + b)[|a|..] == b
  {
    assert (a + b)[..|a|] == a;
  }

  lemma ParseHttpErrorRoundTrip(status: int, text: string)
    ensures ParseHttpError(IntToString(status) + " - " + text) == Some(HttpError(status, text))
  {
    var digits := IntToString(status);
    var rest := digits + " - " + text;
    assert rest == digits + [' '] + ("- " + text);
    IntToStringHasNoSpace(status);
    FirstIndexOfAfter(digits, ' ', "- " + text);
    assert rest[..|digits|] == digits;
    IntToStringRoundTrip(status);
    assert rest[|digits|..] == " - " + text;
    assert rest[|digits| + 3..] == text;
  }

  /** A message that starts with a provider's name is not the rate-limit message, which starts with an emoji. */
  lemma LabelledMessageIsNotRateLimit(p: LLMProvider, tail: string)
    ensures ProviderLabel(p) + tail != RateLimitMessage
  {
    assert RateLimitMessage[0] == '\U{1F6A7}';
    assert (ProviderLabel(p) + tail)[0] == ProviderLabel(p)[0];
    match p
    case Ollama => assert ProviderLabel(p)[0] == 'O';
    case HuggingFace => assert ProviderLabel(p)[0] == 'H';
    case OpenRouter => assert ProviderLabel(p)[0] == 'O';
  }

  lemma RequestFailedRoundTrip(p: LLMProvider, reason: string)
    requires p != Ollama
    ensures ParseErrorMessage(p, ErrorMessage(p, RequestFailed(reason))) == Some(RequestFailed(reason))
  {
    var failedPrefix := ProviderLabel(p) + " request failed: ";
    var m := failedPrefix + reason;
    assert ErrorMessage(p, RequestFailed(reason)) == m;
    assert m == ProviderLabel(p) + (" request failed: " + reason);
    LabelledMessageIsNotRateLimit(p, " request failed: " + reason);
    RequestFailedIsNotHttpError(p, reason);
    PrefixOfConcat(failedPrefix, reason);
  }

  /** "<Provider> request failed: ..." does not start with "<Provider> error: ". */
  lemma RequestFailedIsNotHttpError(p: LLMProvider, reason: string)
    ensures !IsPrefix(ProviderLabel(p) + " error: ", ProviderLabel(p) + " request failed: " + reason)
  {
    var errorPrefix := ProviderLabel(p) + " error: ";
    var m := ProviderLabel(p) + " request failed: " + reason;
    var n := |ProviderLabel(p)|;
    assert m[n + 1] == 'r' && errorPrefix[n + 1] == 'e';
    assert m[..|errorPrefix|][n + 1] != errorPrefix[n + 1];
  }

  /** The rate-limit message carries the phrase "daily request limit". */
  lemma RateLimitMessageMentionsDailyLimit()
    ensures Contains(RateLimitMessage, DailyLimitPhrase)
  {
    assert RateLimitMessage[12..][..|DailyLimitPhrase|] == DailyLimitPhrase;
  }

  // ---------------------------------------------------------------- classification

  /** `OllamaLLM.call` after the subprocess: exit code 0 gives stripped standard output. */
  function ClassifyProcessOutcome(o: ProcessOutcome): (r: Result<string, CallError>)
    ensures r.Success? <==> o.Exited? && o.returnCode == 0
    ensures r.Success? ==> r.value == Strip(o.stdout)
    ensures o.BinaryNotFound? ==> r == Failure(NotInstalled)
    ensures o.Exited? && o.returnCode != 0 ==> r == Failure(ProcessFailed(o.stderr))
  {
    match o
    case BinaryNotFound => Failure(NotInstalled)
    case Exited(code, stdout, stderr) =>
      if code != 0 then Failure(ProcessFailed(stderr)) else Success(Strip(stdout))
  }

  /** `HuggingFaceLLM.call` after the POST: status 200 gives the stripped `summary_text`, "" when missing. */
  function ClassifyInferenceOutcome(o: HttpOutcome<Option<string>>): (r: Result<string, CallError>)
    ensures r.Success? <==> o.Response? && o.status == 200
    ensures r.Success? && o.body.Some? ==> r.value == Strip(o.body.value)
    ensures r.Success? && o.body.None? ==> r.value == ""
    ensures o.Response? && o.status != 200 ==> r == Failure(HttpError(o.status, o.text))
    ensures o.RequestException? ==> r == Failure(RequestFailed(o.reason))
  {
    match o
    case RequestException(reason) => Failure(RequestFailed(reason))
    case Response(status, text, summary) =>
      if status == 200 then Success(Strip(match summary case Some(s) => s case None => ""))
      else Failure(HttpError(status, text))
  }

  /** `OpenRouterLLM.call` after the POST: 200 gives the stripped reply, 429 the rate-limit failure. */
  function ClassifyChatOutcome(o: HttpOutcome<string>): (r: Result<string, CallError>)
    ensures r.Success? <==> o.Response? && o.status == 200
    ensures r.Success? ==> r.value == Strip(o.body)
    ensures o.Response? && o.status == 429 ==> r == Failure(RateLimited)
    ensures o.Response? && o.status != 200 && o.status != 429 ==> r == Failure(HttpError(o.status, o.text))
    ensures o.RequestException? ==> r == Failure(RequestFailed(o.reason))
  {
    match o
    case RequestException(reason) => Failure(RequestFailed(reason))
    case Response(status, text, content) =>
      if status == 200 then Success(Strip(content))
      else if status == 429 then Failure(RateLimited)
      else Failure(HttpError(status, text))
  }

  /**
   * Raises the classified failure as the provider's exception message; the
   * message reads back to the failure it reports.
   */
  function Report(p: LLMProvider, r: Result<string, CallError>): (out: Result<string, string>)
    requires r.Failure? ==> CanRaise(p, r.error)
    ensures out.Success? <==> r.Success?
    ensures r.Success? ==> out.value == r.value
    ensures r.Failure? ==> ParseErrorMessage(p, out.error) == Some(r.error)
  {
    match r
    case Success(text) => Success(text)
    case Failure(e) =>
      ErrorMessageRoundTrip(p, e);
      Failure(ErrorMessage(p, e))
  }

  /**
   * `BaseLLM.call(content, prompt)` for whichever adapter `llm` is. A summary
   * never has whitespace at either end; a failure message always names its
   * cause in a form `ParseErrorMessage` reads back.
   */
  function Call(llm: LLM, content: string, prompt: string, env: Environment): (r: Result<string, string>)
    ensures r.Success? ==> Trimmed(r.value)
    ensures r.Failure? ==> ParseErrorMessage(llm.Provider(), r.error).Some?
  {
    var outcome := match llm
      case OllamaLLM(c) =>
        ClassifyProcessOutcome(env.run(OllamaRequest(c, content, prompt)))
      case HuggingFaceLLM(_, apiUrl) =>
        ClassifyInferenceOutcome(env.postInference(
          HuggingFaceRequest(apiUrl, content, prompt, env.getenv("HUGGINGFACE_API_KEY"))))
      case OpenRouterLLM(c) =>
        ClassifyChatOutcome(env.postChat(
          OpenRouterRequest(c, content, prompt, env.getenv("OPENROUTER_API_KEY"))));
    Report(llm.Provider(), outcome)
  }

  /** The HuggingFace adapter sends only the content: its result does not depend on the prompt. */
  lemma HuggingFaceIgnoresPrompt(llm: LLM, content: string, prompt1: string, prompt2: string, env: Environment)
    requires llm.HuggingFaceLLM?
    ensures Call(llm, content, prompt1, env) == Call(llm, content, prompt2, env)
  {
  }

  /** An OpenRouter reply with status 429 raises exactly the rate-limit message. */
  lemma OpenRouterRateLimit(llm: LLM, content: string, prompt: string, env: Environment)
    requires llm.OpenRouterLLM?
    requires var req := OpenRouterRequest(llm.openRouterConfig, content, prompt, env.getenv("OPENROUTER_API_KEY"));
      env.postChat(req).Response? && env.postChat(req).status == 429
    ensures Call(llm, content, prompt, env) == Failure(RateLimitMessage)
  {
  }
}
