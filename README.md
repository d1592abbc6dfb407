# AI code-review action: options, token limits and chat bots

This project models the configuration and chat core of a GitHub Action that
reviews pull requests with a large language model. It covers:

- **Token limits** (`Limits`). The per-provider tables give each model its
  context window (`maxTokens`), the share kept for the answer
  (`responseTokens`) and the share left for the request
  (`requestTokens = maxTokens - responseTokens - 100`). They also fix a
  knowledge cut-off date and a one-line description.
- **Options** (`Options`). This covers the path filter built from a list of
  glob rules (a leading `!` marks an exclude rule) and its verdict on a path.
  It also covers the run-wide `Options` object, which picks the OpenAI or
  Gemini limit table by mode for the light and heavy models. Finally it covers
  the per-provider option records that default their limits from a table.
- **Chat bots** (`OpenAi`, `Anthropic`, `Gemini`, sharing `BotCommon`). Each
  bot needs an API key in the environment and refuses to be built without
  one. It precomputes a system preamble (system message, knowledge cut-off,
  current date, answer language). Each `chat` call for a non-empty message sends one retried request,
  normalises the answer and never lets an error escape.

Three external pieces are inputs of the model:

- The glob matcher (`minimatch`) is a parameter `matches(path, pattern)`.
- The MD5 hex digest of a message is a function `md5Hex` fixed with each bot.
- The network together with its retry wrapper is a `Client` object. The
  client holds the sequence of outcomes its successive calls yield and logs
  every request it is given.

A thrown error is a `Failure` of a `Result`. A constructor that throws is a
static `Create` factory returning a `Result`.

Where the code and its surrounding description differ, the model follows the
code:

- The request's `max_tokens` (or `maxOutputTokens`) is the model's whole
  window, `tokenLimits.maxTokens`, not its response share.
- `AnthropicAIOptions` defaults its limits from the *Gemini* table. Its
  default model `claude-3-5-sonnet` is not in any table, so it gets the
  Gemini default bucket (1048576 tokens).
- Every mode other than `openai` selects the Gemini table.
- A non-empty message that gets no response still yields a parent message id
  (the MD5 of the message). Only the conversation id is absent.

## Model

| member | source | states |
|---|---|---|
| Limits.Derive | src/limits.ts:35 | the request share is the window less the response share and the 100-token margin; the result is consistent exactly when the response share is positive and leaves room for the margin and a positive request share |
| Limits.OpenAITokenLimits | src/limits.ts:16-36 | the limits are consistent (request share = window − response share − 100, both shares positive and below the window); the cut-off is 2023-10-1; the response share is 3000 exactly for the four listed models |
| Limits.GeminiTokenLimits | src/limits.ts:49-66 | consistent limits; cut-off 2025-05-11; response share 3000 exactly for the three listed models |
| Limits.AnthropicTokenLimits | src/limits.ts:79-96 | consistent limits; cut-off 2024-06-20; response share 3000 exactly for the three listed models |
| Limits.DefaultBuckets | src/limits.ts:30-95 | an unlisted model gets 128000/125900/2000 (OpenAI), 1048576/1047476/1000 (Gemini) or 200000/198900/1000 (Anthropic) |
| Limits.LargeWindows | src/limits.ts:18-92 | gpt-4.1 has a 1047576-token window and gemini-1.5-pro a 2097152-token one; every other listed model has its provider's usual window (128000 for OpenAI, 1048576 for Gemini, 200000 for Anthropic) |
| Limits.DefaultModelsRecognised | src/limits.ts:16-81 | each table's default constructor argument is one of its listed models |
| Limits.Describe | src/limits.ts:38-40 | the `max_tokens=…, request_tokens=…, response_tokens=…` line; no contract of its own, its inverse is stated by Limits.DescribeRoundTrip |
| Limits.DescribeRoundTrip | src/limits.ts:38-40 | the description `max_tokens=…, request_tokens=…, response_tokens=…` parses back to the three numbers |
| Limits.DescribeInjective | src/limits.ts:38-40 | two limits with the same description agree on all three numbers |
| Limits.ReadFieldRoundTrip | src/limits.ts:39 | a `key=` field followed by a decimal integer reads back as that integer and the rest of the text |
| Decimal.ReadNumberRoundTrip | src/limits.ts:39 | the decimal rendering of any integer (with `-` when negative) reads back as that integer, whatever non-digit text follows |
| Text.Trim | src/options.ts:114 | the result has no leading or trailing whitespace and is no longer than the input; Text.TrimIsSlice states that it is the input with a blank prefix and a blank suffix removed |
| Text.TrimIsSlice | src/options.ts:114 | the trimmed string is a contiguous slice of the input, and everything cut off on either side is whitespace |
| Text.TrimEmptyIff | src/options.ts:114-115 | a trimmed rule is empty (falsy) exactly when the raw rule is all whitespace |
| Text.TrimIdempotent | src/options.ts:114-117 | a property of the `trim` model used on both lines: trimming a trimmed string changes nothing |
| Options.PathFilter.constructor | src/options.ts:110-124 | the rules are the parsed non-blank raw rules in order, and none when the list is absent |
| Options.ParseRule | src/options.ts:114-120 | a rule string is dropped exactly when it is blank; a kept rule has a trimmed pattern, and an include pattern is non-empty and does not start with `!`; Options.PaddedInclude, Options.PaddedExclude and Options.PaddedLoneBang give the pattern kept for every non-blank form |
| Options.PaddedInclude | src/options.ts:114-119 | an include rule with blanks around it keeps exactly its trimmed pattern |
| Options.PaddedExclude | src/options.ts:114-117 | `!` with blanks around it and before the pattern gives an exclude rule with exactly the trimmed pattern |
| Options.PaddedLoneBang | src/options.ts:114-117 | `!` surrounded only by blanks gives an exclude rule with an empty pattern |
| Options.ParseRules | src/options.ts:113-122 | the kept rules in input order; no contract of its own, its properties are stated by Options.ParseRulesAppend, Options.ParseRulesEmptyIff, Options.ParseRulesWellFormed and Options.RulesRoundTrip, and each element's pattern by Options.PaddedInclude, Options.PaddedExclude and Options.PaddedLoneBang |
| Options.ParseRulesWellFormed | src/options.ts:113-122 | every rule a filter keeps is well formed |
| Options.ParseRulesAppend | src/options.ts:113-122 | rules are parsed one raw rule at a time, preserving order: the rules of a concatenation are the concatenation of the rules |
| Options.ParseRulesEmptyIff | src/options.ts:112-123 | a filter has no rules exactly when every raw rule is blank |
| Options.BlankRulesGiveNoRules | src/options.ts:113-115 | blank raw rules are dropped |
| Options.LoneBang | src/options.ts:116-117 | `!` alone (or followed by blanks) becomes an exclude rule with an empty pattern |
| Options.RuleRoundTrip | src/options.ts:114-120 | writing a well-formed rule (with `!` for exclude) and parsing it gives the rule back |
| Options.RulesRoundTrip | src/options.ts:110-124 | parsing inverts writing for any list of well-formed rules |
| Options.Admits | src/options.ts:148 | the declarative verdict: some include rule matches or none exists, and no exclude rule matches; Options.PathFilter.Check is proved equal to it |
| Options.PathFilter.Check | src/options.ts:126-149 | the loop's verdict is the declarative one: some include rule matches or none exists, and no exclude rule matches; no rules admits everything |
| Options.EmptyAdmitsAll | src/options.ts:127-129 | a filter without rules admits every path |
| Options.ExcludeWins | src/options.ts:137-148 | a matching exclude rule rejects the path whatever else matches |
| Options.IncludeRequired | src/options.ts:143-148 | when include rules exist and none matches, the path is rejected |
| Options.OnlyExcludes | src/options.ts:143-148 | with only exclude rules, a path none of them matches is admitted |
| Options.AdmitsOrderIndependent | src/options.ts:135-148 | the verdict depends only on which rules are present, not on their order or repetition |
| Options.SelectTokenLimits | src/options.ts:68-74 | both selected limits are consistent |
| Options.ModeSelection | src/options.ts:68-74 | mode `openai` uses the OpenAI table for both models; any other mode uses the Gemini table |
| Options.Options.constructor | src/options.ts:33-76 | every field is the given value; the path filter is built from the rule list; the light and heavy limits are selected by mode |
| Options.Options.CheckPath | src/options.ts:100-104 | the answer is the path filter's verdict |
| Options.NewOpenAIOptions | src/options.ts:156-166 | keeps the model; given limits are kept, otherwise the OpenAI table's limits for the model; the result is consistent when the input is |
| Options.NewGeminiAIOptions | src/options.ts:173-183 | the same, with the Gemini table |
| Options.NewAnthropicAIOptions | src/options.ts:190-200 | the same, and the default comes from the Gemini table, not the Anthropic one |
| Options.AnthropicOptionsUseGeminiTable | src/options.ts:186-200 | Anthropic options get the Gemini cut-off; the default model gets a 1048576-token window where the Anthropic table would give 200000 |
| BotCommon.Truthy | src/bot/open-ai.ts:25 | the key test: the variable is set and not the empty string; no contract of its own, the factories' contracts use it |
| BotCommon.TurnIds | src/bot/open-ai.ts:117-121 | the parent id is the message digest and the conversation id is the response's; no contract of its own |
| BotCommon.Preamble | src/bot/open-ai.ts:27-32 | the system preamble template shared by the three bots; no contract of its own, its content is stated by BotCommon.PreambleMentions |
| BotCommon.Client.Send | src/bot/open-ai.ts:80-93 | one retried call: the request and the `retries` setting passed to the retry wrapper are logged; the answer is the next scripted outcome (none once they run out) |
| BotCommon.StripWithPrefix | src/bot/open-ai.ts:110-113 | text starting with "with " loses exactly that prefix; any other text is unchanged |
| BotCommon.StripRoundTrip | src/bot/open-ai.ts:110-113 | "with " followed by any text strips back to the text |
| BotCommon.StripOnce | src/bot/open-ai.ts:110-113 | only one prefix is removed, so stripping is not idempotent |
| BotCommon.Guard | src/bot/open-ai.ts:43-54 | a normal result passes through; any thrown error becomes `['', {}]` |
| BotCommon.PreambleMentions | src/bot/open-ai.ts:27-32 | the preamble starts with the system message and contains the cut-off, the date and the language |
| OpenAi.ResponseText | src/bot/open-ai.ts:104-109 | throws (the TypeError of reading `message` of `undefined`) exactly when a completion has no choices |
| OpenAi.Respond | src/bot/open-ai.ts:56-122 | an empty message resolves to `['', {}]`; otherwise it throws exactly when a completion has no choices, and on success the parent id is the message digest |
| OpenAi.OpenAIBot.constructor | src/bot/open-ai.ts:21-41 | with a key, the bot keeps its options, builds the preamble from the OpenAI options' cut-off and opens a fresh client with that key |
| OpenAi.OpenAIBot.Create | src/bot/open-ai.ts:21-41 | fails with the exact missing-key message exactly when `OPENAI_API_KEY` is unset or empty; otherwise gives the constructed bot |
| OpenAi.OpenAIBot.Request | src/bot/open-ai.ts:66-78 | the request is the system preamble then the user message, the model, the temperature, and `max_tokens` = the model's window |
| OpenAi.OpenAIBot.ChatInner | src/bot/open-ai.ts:56-123 | an empty message makes no call; otherwise exactly one retried call with the request; the result is the normalised reply or the thrown error |
| OpenAi.OpenAIBot.Chat | src/bot/open-ai.ts:43-54 | the same call, with any error turned into `['', {}]` |
| OpenAi.EmptyMessage | src/bot/open-ai.ts:59-61 | an empty message gets `['', {}]` |
| OpenAi.NoResponse | src/bot/open-ai.ts:104-122 | no response gives empty text with the message digest as parent id and no conversation id |
| OpenAi.Answered | src/bot/open-ai.ts:104-122 | the reply is the first choice's content (or `""`) less one "with ", with the completion id as conversation id |
| OpenAi.NoChoices | src/bot/open-ai.ts:105-106 | a completion without choices throws inside, and `chat` answers `['', {}]` |
| OpenAi.ParentIdStable | src/bot/open-ai.ts:117-121 | the parent id is the message digest, whatever the response |
| Anthropic.ResponseText | src/bot/anthropic.ts:103-109 | throws (the TypeError of reading `type` of `undefined`) exactly when a message has no content blocks |
| Anthropic.Respond | src/bot/anthropic.ts:58-125 | an empty message resolves to `['', {}]`; otherwise it throws exactly when a message has no content blocks, and on success the parent id is the message digest |
| Anthropic.AnthropicAIBot.constructor | src/bot/anthropic.ts:21-43 | with a key, the bot keeps its options, builds the preamble from the Anthropic options' cut-off and opens a fresh client with that key |
| Anthropic.AnthropicAIBot.Create | src/bot/anthropic.ts:21-43 | fails with the exact missing-key message exactly when `ANTHROPIC_API_KEY` is unset or empty |
| Anthropic.AnthropicAIBot.Request | src/bot/anthropic.ts:68-80 | one user turn, the preamble as `system`, the model, the temperature, and `max_tokens` = the model's window |
| Anthropic.AnthropicAIBot.ChatInner | src/bot/anthropic.ts:58-126 | an empty message makes no call; otherwise exactly one retried call; the result is the normalised reply or the thrown error |
| Anthropic.AnthropicAIBot.Chat | src/bot/anthropic.ts:45-56 | the same call, with any error turned into `['', {}]` |
| Anthropic.EmptyMessage | src/bot/anthropic.ts:61-63 | an empty message gets `['', {}]` |
| Anthropic.NoResponse | src/bot/anthropic.ts:103-125 | no response gives empty text with the message digest as parent id and no conversation id |
| Anthropic.Answered | src/bot/anthropic.ts:103-125 | the reply is the first block's text when it is a text block (else `""`) less one "with ", with the message id as conversation id |
| Anthropic.NoContentBlocks | src/bot/anthropic.ts:104-106 | a message without content blocks throws inside, and `chat` answers `['', {}]` |
| Anthropic.ParentIdStable | src/bot/anthropic.ts:117-124 | the parent id is the message digest, whatever the response |
| Gemini.ResponseText | src/bot/gemini.ts:101-106 | the response text, `""` when it is absent and `""` without a response; no contract of its own, stated through Gemini.Answered and Gemini.NoResponse |
| Gemini.Respond | src/bot/gemini.ts:56-122 | never throws; an empty message resolves to `['', {}]`, otherwise the parent id is the message digest |
| Gemini.GeminiAIBot.constructor | src/bot/gemini.ts:21-41 | with a key, the bot keeps its options, builds the preamble from the Gemini options' cut-off and opens a fresh client with that key |
| Gemini.GeminiAIBot.Create | src/bot/gemini.ts:21-41 | fails with the exact missing-key message exactly when `GOOGLE_API_KEY` is unset or empty |
| Gemini.GeminiAIBot.Request | src/bot/gemini.ts:66-79 | the message as contents, the preamble as system instruction, the model, the temperature, and `maxOutputTokens` = the model's window |
| Gemini.GeminiAIBot.ChatInner | src/bot/gemini.ts:56-123 | an empty message makes no call; otherwise exactly one retried call; the result is the normalised reply |
| Gemini.GeminiAIBot.Chat | src/bot/gemini.ts:43-54 | the same call, with any error turned into `['', {}]` |
| Gemini.NeverThrows | src/bot/gemini.ts:101-122 | Gemini's normalisation never throws |
| Gemini.EmptyMessage | src/bot/gemini.ts:59-61 | an empty message gets `['', {}]` |
| Gemini.NoResponse | src/bot/gemini.ts:101-121 | no response gives empty text with the message digest as parent id and no conversation id |
| Gemini.Answered | src/bot/gemini.ts:101-121 | the reply is the response text (`""` when absent) less one "with ", with the response id (possibly absent) as conversation id |
| Gemini.ParentIdStable | src/bot/gemini.ts:114-121 | the parent id is the message digest, whatever the response |

## Left out

- `src/main.ts` (reading the action's inputs and wiring options to bots) is not part of this model.
- `Options.print` and all `info`/`warning`/`setFailed` logging, including the debug echo of responses, only write to the log.
- Glob matching: `minimatch` is a parameter of `Check` and `CheckPath`, so the verdicts are proved for any matcher.
- MD5: the digest is a function fixed with each bot, so the ids are proved for any digest function.
- The network clients and `p-retry`: one scripted outcome stands for the whole retried call, and `None` stands for the case where every attempt failed. The `retries` setting passed to the retry wrapper is logged with each call; attempts are not simulated.
- Reading the environment and the clock: the API key and today's date are constructor arguments.
- Number parsing: `parseInt`/`parseFloat` of the option strings is outside the model. The constructor takes the parsed values, with the temperature as a `real`, and `NaN` is not represented.
- Default argument values: those of the three token-limit constructors and of `AnthropicAIOptions` are recorded as constants only (`Limits.DefaultOpenAIModel` and its siblings, `Options.DefaultAnthropicOptionsModel`). The defaults of the `Options` constructor (`mode = 'openai'`, `retries = '3'`, `language = 'en-US'` and the rest) and the default models of `OpenAIOptions` and `GeminiAIOptions` are not recorded at all. No member applies a default: callers pass every argument, and an absent path-filter list or absent limits are `None`.
- Token counts are unbounded integers, not JavaScript doubles. `Limits.Describe` renders them in plain decimal, which matches JavaScript only below 10^21 (larger numbers print in exponent form). Every table value is far below that.
- Non-string or nullish entries inside the raw rule list (the `rule?.trim()` guard) are not represented. Rules are strings.
- Whitespace for `trim` is the fixed set JavaScript trims. There is no Unicode normalisation.
- The `api == null` branch of each `chat_` cannot be reached once construction succeeded, so it is not modelled.
- The `instanceof` tests in the `catch` blocks only choose whether to log. Every caught error is treated alike.
- The response-time measurement is not modelled.
- `Anthropic.AnthropicAIBot` and `Gemini.GeminiAIBot`: the source types their preamble as possibly `undefined`. The model always holds the string the constructor builds.
- `Gemini.GeminiAIBot.ChatInner`: `response.text` is taken as an optional string field. The SDK getter that assembles it from parts is not modelled.
