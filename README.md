# Webpage summarizer: provider selection and adapters, in Dafny

This project models the decision logic of a small webpage-summarizing tool.
The tool fetches a page, strips it to text and asks one of three LLM providers
to summarize it. The providers are Ollama (a local subprocess), the HuggingFace
inference API and the OpenRouter chat-completion API. The model covers:

- **Configuration records and provider selection** (`ConfigLoader`,
  `config_loader.dfy`). The provider records and their defaults are datatypes.
  The provider name constants of `src/utils/schema.py` become the datatype
  `LLMProvider`. `GetSelectedLLM` picks the enabled provider of highest
  priority: Ollama, then HuggingFace, then OpenRouter. `GetSelectedLLMConfig`
  fails with "No LLM provider is selected" when nothing is enabled, and
  otherwise returns the selected provider's own record.
- **Adapters** (`Modeling`, `llm.dfy`). An adapter is a datatype value holding
  its provider's record. `CreateLLMFromConfig` builds the adapter for the
  selected provider. Its final "Unsupported LLM provider" branch is proved
  unreachable with `assert false`. Each adapter's `call` is split into three
  parts:
  - the request it builds (subprocess argv and stdin, or HTTP URL, headers and
    JSON payload);
  - the outside world's answer, which is a parameter (`Environment`);
  - a total classification of that answer into summary text or an exception
    message.

  `ParseErrorMessage` reads an exception message back into its cause. It is
  proved to invert every message an adapter can raise, so a caller can tell a
  rate limit, an HTTP error (with its status and body), a request failure, a
  failed process or a missing binary apart by the text alone.
- **Page text shown and logged, and the log-once guards** (`App`, `app.dfy`).
  The preview keeps the first 3000 characters and adds `...`. The log excerpt
  keeps the first 300. Four `st.session_state` flags make each startup
  milestone be logged at most once per session. Each guard is a pure `Guard`
  step on a snapshot of the session. A run ends early when `load_config` or
  `init_llm` raises (`RunEnd`, `RunEndOf`); the guards after that point are
  not reached. The class `Session` runs the same steps in place on its `state`
  map and `log` sequence, and its methods are proved equal to `Guard` and
  `Startup`.
- **Python string behaviour** (`Text`, `text.dfy`). This module models
  `str.strip()` with Python's `str.isspace` character set (as two index
  scans, one from each end), the clamped slice
  `s[:n]` and how an f-string renders an int. The last has a parser, and the
  round trip is proved.

Behaviour of the code worth knowing:

- Ollama and OpenRouter both receive the prompt, then
  `"\nThe contents of this website is as follows:\n"`, then the page content.
- HuggingFace receives only the page content; a reply without
  `summary_text` gives the summary `""`, not an error.
- A configuration that enables several providers is accepted; the priority
  order decides which one is used.
- A rate limit raises a plain `Exception`; only its fixed message tells it
  apart from the other failures.
- With no provider enabled, every run of the script stops at `init_llm`, so
  the "LLM initialized" milestone is never logged in that session.

## Model

| member | source | states |
|---|---|---|
| `ConfigLoader.Section` | src/config_loader/config_loader.py:24-26 | a provider's section is present exactly when its field is, and is then that field's own record, tagged with that provider |
| `ConfigLoader.ProviderMap` | src/config_loader/config_loader.py:46-50 | every provider tag is a key of `provider_map` and maps to that provider's section |
| `ConfigLoader.GetSelectedLLM` | src/config_loader/config_loader.py:28-38 | the result is enabled, and no provider of higher priority is; `None` exactly when no section is both present and enabled |
| `ConfigLoader.GetSelectedLLMConfig` | src/config_loader/config_loader.py:40-52 | fails with "No LLM provider is selected" exactly when the selection is `None`; otherwise returns the selected provider's own record, which is present and enabled |
| `ConfigLoader.SelectionIsFirstEnabled` | src/config_loader/config_loader.py:28-38 | the selection is the head of the enabled providers listed in priority order (Ollama, HuggingFace, OpenRouter) |
| `ConfigLoader.OllamaWins` | src/config_loader/config_loader.py:30-31 | an enabled Ollama section is selected whatever the other two say, and its record is returned |
| `ConfigLoader.SelectionDependsOnlyOnEnabled` | src/config_loader/config_loader.py:28-38 | two configurations with the same present-and-enabled providers select the same provider: models and URLs never influence the choice |
| `ConfigLoader.DefaultsSelectNothing` | src/config_loader/config_loader.py:9-21 | sections built from the defaults are disabled, so any mix of defaulted or absent sections selects nothing and the record lookup fails |
| `Modeling.ApiUrl` | src/modeling/llm.py:51 | `api_url` is the base URL ("None" when unset) as its first characters, as many as the base has, then `/`, then the model name; the split needs the base's length, since a base URL and a model name may both contain `/` |
| `Modeling.CreateLLMFromConfig` | src/modeling/llm.py:130-142 | fails with "No LLM provider is selected" exactly when nothing is selected; otherwise the adapter's variant is the selected provider and it holds exactly that provider's record; the unsupported-provider branch is unreachable |
| `Modeling.CreatedAdapterIsEnabled` | src/modeling/llm.py:132-140 | a built adapter belongs to an enabled provider and holds an enabled record |
| `Modeling.FullPrompt` | src/modeling/llm.py:28 | the prompt is a prefix, the separator follows it, and the page content is the suffix |
| `Modeling.FullPromptSplits` | src/modeling/llm.py:87 | for a one-line prompt, prompt and content are recovered from the full prompt at its first line break |
| `Modeling.OllamaRequest` | src/modeling/llm.py:31-35 | argv is exactly `["ollama", "run", <model>]`; standard input is the full prompt, so it starts with the prompt and ends with the content |
| `Modeling.HuggingFaceRequest` | src/modeling/llm.py:55-68 | POSTs to `api_url` a payload carrying only the content, with one header, Authorization, set to `Bearer ` and the API key ("None" when unset) |
| `Modeling.OpenRouterRequest` | src/modeling/llm.py:89-104 | POSTs to `base_url`, for the configured model, one user message whose content is the full prompt (prompt first, page content last); headers are exactly Authorization (`Bearer ` and the API key) and Content-Type `application/json` |
| `Modeling.ClassifyProcessOutcome` | src/modeling/llm.py:37-44 | succeeds exactly on exit code 0 with stripped stdout; a non-zero code fails with stderr; a missing binary fails as not installed |
| `Modeling.ClassifyInferenceOutcome` | src/modeling/llm.py:70-77 | succeeds exactly on status 200 with the stripped `summary_text` or `""` when missing; other statuses fail with status and text; request exceptions fail with their reason |
| `Modeling.ClassifyChatOutcome` | src/modeling/llm.py:106-122 | succeeds exactly on status 200 with the stripped reply; 429 is the rate limit; other statuses fail with status and text; request exceptions fail with their reason |
| `Modeling.ErrorMessage` | src/modeling/llm.py:38-122 | exactly the texts the adapters raise at lines 38, 44, 74, 77, 111-116, 119 and 122; every one but the rate-limit text starts with the provider's name; `ErrorMessageRoundTrip` is its inverse |
| `Modeling.Report` | src/modeling/llm.py:37-122 | a classified failure is raised as `Exception(<message>)`, and that message reads back to the very failure it reports; a summary passes through unchanged |
| `Modeling.ErrorMessageRoundTrip` | src/modeling/llm.py:37-122 | every exception message an adapter can raise is parsed back into exactly its cause |
| `Modeling.ProcessFailedRoundTrip` | src/modeling/llm.py:37-38 | "Ollama error: <stderr>" is told apart from the not-found message and gives back stderr |
| `Modeling.HttpErrorRoundTrip` | src/modeling/llm.py:118-119 | "<Provider> error: <status> - <text>" gives back the status and the text |
| `Modeling.HttpErrorMessageParsesAsHttpError` | src/modeling/llm.py:73-74 | for HuggingFace and OpenRouter, a message with the provider's error prefix goes to the HTTP-error parser, so it is never read as the rate limit or a request failure (the parser itself answers nothing when the rest is not "<status> - <text>") |
| `Modeling.ParseHttpErrorRoundTrip` | src/modeling/llm.py:119 | "<status> - <text>" gives back the status and the text, whatever the text holds |
| `Modeling.RequestFailedRoundTrip` | src/modeling/llm.py:121-122 | "<Provider> request failed: <reason>" is told apart from the HTTP error and the rate limit and gives back the reason |
| `Modeling.LabelledMessageIsNotRateLimit` | src/modeling/llm.py:109-119 | no message starting with a provider name equals the rate-limit message |
| `Modeling.RateLimitMessageMentionsDailyLimit` | src/modeling/llm.py:109-116 | the rate-limit message contains "daily request limit" |
| `Modeling.Call` | src/modeling/llm.py:16 | a summary never has whitespace at either end, and a failure message always parses back to a cause the provider can raise |
| `Modeling.HuggingFaceIgnoresPrompt` | src/modeling/llm.py:53-61 | the HuggingFace adapter's result does not depend on the prompt |
| `Modeling.OpenRouterRateLimit` | src/modeling/llm.py:109-116 | an OpenRouter reply with status 429 raises exactly the rate-limit message |
| `Text.SkipWhitespace` | src/modeling/llm.py:41 | the scan from the left stops at the first non-whitespace character at or after its start, or at the end |
| `Text.SkipWhitespaceBack` | src/modeling/llm.py:41 | the scan from the right stops just after the last non-whitespace character above its lower bound, or at that bound |
| `Text.SkipWhitespaceUnique` | src/modeling/llm.py:41 | any index with the scan's property is the index the scan returns |
| `Text.SkipWhitespaceBackUnique` | src/modeling/llm.py:41 | any index with the backward scan's property is the index it returns |
| `Text.Strip` | src/modeling/llm.py:41 | the result has no whitespace at either end |
| `Text.StripIsSlice` | src/modeling/llm.py:41 | the result is the slice between the two scans, and everything removed before and after it is whitespace |
| `Text.StripRecoversCore` | src/modeling/llm.py:107 | whitespace around a trimmed core is removed and the core comes back unchanged |
| `Text.StripIdempotent` | src/modeling/llm.py:72 | stripping twice is stripping once |
| `Text.Head` | main.py:65 | `s[:n]` has length `min(len(s), n)` and is a prefix of `s` |
| `Text.NatToString` | src/modeling/llm.py:74 | decimal digits only, non-empty, starting with `0` exactly for zero, and a single digit whenever it starts with `0` (no leading zeros, so zero is `"0"`) |
| `Text.IntToString` | src/modeling/llm.py:74 | the rendered int is non-empty, starts with `-` exactly when negative, and is otherwise all digits |
| `Text.IntToStringHasNoSpace` | src/modeling/llm.py:119 | the rendered status code has no space, so the first space of "<status> - <text>" ends it |
| `Text.IntToStringRoundTrip` | src/modeling/llm.py:119 | the rendered status code parses back to the same int |
| `App.Preview` | main.py:70 | text of up to 3000 characters is shown unchanged; longer text is cut to 3000 characters followed by `...`; at most 3003 characters; starts with the first min(len, 3000) characters |
| `App.LogExcerpt` | main.py:65 | at most 300 characters, a prefix of the page text, all of it when shorter |
| `App.LogExcerptStartsPreview` | main.py:65-70 | the logged excerpt is a prefix of the preview |
| `App.SessionKey` | main.py:33-54 | each milestone's session key maps back to that milestone, so distinct milestones use distinct keys |
| `App.Guard` | main.py:33-54 | the test-and-insert on `st.session_state` of each of the four guards: afterwards the key is set, and the log gains the milestone exactly when the key was missing; `GuardEffect` and `GuardConsistent` state the rest |
| `App.GuardEffect` | main.py:33-35 | a guard adds only its own key, keeps every existing entry, and logs its milestone exactly when the key was missing |
| `App.GuardConsistent` | main.py:40-42 | a guard preserves the invariant: if, before it, every milestone appears in the log once when its key is set and not at all otherwise, the same holds after it |
| `App.RunEndOf` | main.py:37-54 | a run stops at `load_config` exactly when the configuration did not load, and completes exactly when it loaded and some provider is enabled; otherwise it stops at `init_llm` |
| `App.Startup` | main.py:33-54 | one run of the startup guards up to the step that raises: the first key is always set, the LLM key is set when the run completes, and the log is only appended to; `StartupRunsReached`, `StartupRecordsReached` and `StartupLogsUnrecorded` state it exactly |
| `App.Reached` | main.py:33-54 | the guards a run reaches are a prefix of the startup order, always include the first one, and include the LLM guard exactly when the run completes |
| `App.StartupRunsReached` | main.py:33-54 | a run is exactly the guards it reaches, run in order, and no guard is reached twice |
| `App.UnloggedMembers` | main.py:33-54 | `Unlogged` keeps exactly the milestones of the order whose key is not yet recorded |
| `App.StartupConsistent` | main.py:33-54 | a startup run, wherever it stops, keeps the log and the recorded keys in step |
| `App.StartupRecordsReached` | main.py:33-54 | a run records the keys of the guards it reaches, adds no other key and changes no existing entry |
| `App.StartupRecordsAll` | main.py:46-54 | with the configuration loaded and a provider enabled, a run records all four keys |
| `App.StartupLogsUnrecorded` | main.py:33-54 | a run logs, in startup order, exactly the reached milestones whose keys were missing |
| `App.StartupRerunChangesNothing` | main.py:33-54 | a second run in the same session with the same configuration changes nothing, and each reached milestone is logged exactly once |
| `App.StartupLogsEachOnce` | main.py:33-54 | with a provider enabled, each of the four milestones is logged exactly once in the session |
| `App.NoProviderNeverLogsLLM` | main.py:50-54 | with no provider enabled, `init_llm` raises: the LLM key stays unset, the LLM milestone is never logged, and reruns change nothing |
| `App.Session.LogOnce` | main.py:33-35 | the in-place guard: reports whether it logged, keeps the session consistent, and its new state is `Guard` of the old |
| `App.Session.RunStartup` | main.py:33-54 | the in-place guards up to the step that raises: the new state is `Startup` of the old, for the run end the configuration gives |

## Left out

- HTTP requests, the `ollama` subprocess and `os.getenv` are not executed. They are the parameters of `Environment`, and their results are plain values (`ProcessOutcome`, `HttpOutcome`).
- The bytes `encode()`/`decode()` around the subprocess are treated as the identity on strings. UTF-8 is not modelled.
- JSON decoding is not modelled. A response arrives with the one field the adapter reads already extracted. A body that lacks `choices` or the first array element makes Python raise `IndexError`/`KeyError`/`TypeError`, which the adapters do not catch. A body that is not JSON makes `response.json()` raise `requests.exceptions.JSONDecodeError`. That exception is a `RequestException` (requests 2.27 and later), so the adapters turn it into "<Provider> request failed: ...". None of these cases is modelled.
- `subprocess.run` can raise other `OSError`s besides `FileNotFoundError`, such as `PermissionError` when `ollama` is not executable. src/modeling/llm.py:43 does not catch them, so they propagate with their own message. `ProcessOutcome` does not include them.
- The page scraper (src/web_scraper/web_scraper.py) is not part of this model. It consists of an HTTP GET and BeautifulSoup HTML parsing, both foreign code.
- Reading and validating the JSON configuration file (src/config_loader/config_loader.py:59-65) is file I/O and pydantic validation. The records are built directly.
- `load_prompt` (src/utils/toolbox.py) is a file read plus `str.format`, and is left out.
- The following are I/O or UI and are not modelled:
  - logging setup and the text of the logged messages (only which milestone was logged is kept);
  - the Streamlit widgets;
  - `@st.cache_resource` caching;
  - the `print` on the no-provider path;
  - the `EmailSchema` e-mail header names of src/utils/schema.py:6-9, which the core never reads;
  - the `SessionStateSchema` class of src/utils/schema.py:11-17. main.py writes its first four key strings literally, and `SessionKey` uses those same strings. Its `SUMMARY` and `SEND_EMAIL_CLICKED` keys belong to code outside this model.
- `LLMSelector` is modelled as the function `CreateLLMFromConfig` over its configuration, because the object only stores that configuration once.
- `Modeling.Call`: its contract states only the properties common to the three adapters (trimmed summary, parseable failure). The per-status results are stated by the three `Classify*` functions it applies. "A failure message always parses back" holds for the modelled outcomes only; the uncaught exceptions listed above are outside it.
- `load_config` failing is one case (`RunEnd.ConfigLoadFailed`). Which exception it raises, and how `@st.cache_resource` keeps a successful result across runs, are not modelled. Reruns are taken to see the same configuration.
- `init_web_scraper` is taken never to raise, because `WebScraper.__init__` only stores the timeout.
