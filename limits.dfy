/** Per-model token budgets for the three chat providers (src/limits.ts). */
module Limits {
  import opened Wrappers
  import opened Text
  import opened Decimal

  /** The safety margin kept out of the request allowance for framing overhead. */
  const RequestMargin := 100

  /** A token budget: the model's context window, the part of it kept for the
      response, the part left for the request, and the knowledge cutoff the
      provider reports. */
  datatype TokenLimits = TokenLimits(
    maxTokens: int,
    requestTokens: int,
    responseTokens: int,
    knowledgeCutOff: string)
  {
    /** The request allowance is what remains of the window after the response
        allowance and the margin, and every allowance is positive. */
    predicate Valid() {
      && requestTokens == maxTokens - responseTokens - RequestMargin
      && 0 < responseTokens < maxTokens
      && 0 < requestTokens < maxTokens
    }
  }

  /** A budget whose request allowance is derived, never given. It is
      consistent exactly when the response allowance is positive and leaves
      room for the margin and a positive request allowance. */
  function Derive(maxTokens: int, responseTokens: int, knowledgeCutOff: string): (t: TokenLimits)
    ensures t.maxTokens == maxTokens && t.responseTokens == responseTokens && t.knowledgeCutOff == knowledgeCutOff
    ensures t.Valid() <==> 0 < responseTokens && responseTokens + RequestMargin < maxTokens
  {
    TokenLimits(maxTokens, maxTokens - responseTokens - RequestMargin, responseTokens, knowledgeCutOff)
  }

  const OpenAIKnowledgeCutOff := "2023-10-1"
  const GeminiKnowledgeCutOff := "2025-05-11"
  const AnthropicKnowledgeCutOff := "2024-06-20"

  /** The models each table recognises; every other name gets the default bucket. */
  const OpenAIModels := {"gpt-4o-mini", "gpt-4.1-mini", "gpt-4o", "gpt-4.1"}
  const GeminiModels := {"gemini-1.5-flash", "gemini-1.5-pro", "gemini-2.0-flash"}
  const AnthropicModels := {"claude-3-opus-20240229", "claude-3-5-haiku-20241022", "claude-3-5-sonnet-20241022"}

  /** The model each constructor uses when called without an argument. */
  const DefaultOpenAIModel := "gpt-4o-mini"
  const DefaultGeminiModel := "gemini-1.5-flash"
  const DefaultAnthropicModel := "claude-3-opus-20240229"

  /** `new OpenAITokenLimits(model)`. */
  function OpenAITokenLimits(model: string): (t: TokenLimits)
    ensures t.Valid()
    ensures t.knowledgeCutOff == OpenAIKnowledgeCutOff
    ensures t.responseTokens == 3000 <==> model in OpenAIModels
  {
    if model == "gpt-4o-mini" then Derive(128000, 3000, OpenAIKnowledgeCutOff)
    else if model == "gpt-4.1-mini" then Derive(128000, 3000, OpenAIKnowledgeCutOff)
    else if model == "gpt-4o" then Derive(128000, 3000, OpenAIKnowledgeCutOff)
    else if model == "gpt-4.1" then Derive(1047576, 3000, OpenAIKnowledgeCutOff)
    else Derive(128000, 2000, OpenAIKnowledgeCutOff)
  }

  /** `new GeminiTokenLimits(model)`. */
  function GeminiTokenLimits(model: string): (t: TokenLimits)
    ensures t.Valid()
    ensures t.knowledgeCutOff == GeminiKnowledgeCutOff
    ensures t.responseTokens == 3000 <==> model in GeminiModels
  {
    if model == "gemini-1.5-flash" then Derive(1048576, 3000, GeminiKnowledgeCutOff)
    else if model == "gemini-1.5-pro" then Derive(2097152, 3000, GeminiKnowledgeCutOff)
    else if model == "gemini-2.0-flash" then Derive(1048576, 3000, GeminiKnowledgeCutOff)
    else Derive(1048576, 1000, GeminiKnowledgeCutOff)
  }

  /** `new AnthropicTokenLimits(model)`. */
  function AnthropicTokenLimits(model: string): (t: TokenLimits)
    ensures t.Valid()
    ensures t.knowledgeCutOff == AnthropicKnowledgeCutOff
    ensures t.responseTokens == 3000 <==> model in AnthropicModels
  {
    if model == "claude-3-opus-20240229" then Derive(200000, 3000, AnthropicKnowledgeCutOff)
    else if model == "claude-3-5-haiku-20241022" then Derive(200000, 3000, AnthropicKnowledgeCutOff)
    else if model == "claude-3-5-sonnet-20241022" then Derive(200000, 3000, AnthropicKnowledgeCutOff)
    else Derive(200000, 1000, AnthropicKnowledgeCutOff)
  }

  /** An unrecognised model falls into each provider's default bucket. */
  lemma DefaultBuckets(model: string)
    ensures model !in OpenAIModels ==>
      OpenAITokenLimits(model) == TokenLimits(128000, 125900, 2000, OpenAIKnowledgeCutOff)
    ensures model !in GeminiModels ==>
      GeminiTokenLimits(model) == TokenLimits(1048576, 1047476, 1000, GeminiKnowledgeCutOff)
    ensures model !in AnthropicModels ==>
      AnthropicTokenLimits(model) == TokenLimits(200000, 198900, 1000, AnthropicKnowledgeCutOff)
  {
  }

  /** The window of every listed model: the provider's usual one, except for
      the two entries with a larger window. */
  lemma LargeWindows()
    ensures OpenAITokenLimits("gpt-4.1").maxTokens == 1047576
    ensures GeminiTokenLimits("gemini-1.5-pro").maxTokens == 2097152
    ensures forall m :: m in OpenAIModels && m != "gpt-4.1" ==> OpenAITokenLimits(m).maxTokens == 128000
    ensures forall m :: m in GeminiModels && m != "gemini-1.5-pro" ==> GeminiTokenLimits(m).maxTokens == 1048576
    ensures forall m :: m in AnthropicModels ==> AnthropicTokenLimits(m).maxTokens == 200000
  {
  }

  /** Each constructor's default argument is one of the models its table recognises. */
  lemma DefaultModelsRecognised()
    ensures DefaultOpenAIModel in OpenAIModels
    ensures DefaultGeminiModel in GeminiModels
    ensures DefaultAnthropicModel in AnthropicModels
  {
  }

  /** `limits.string()`: the three allowances as
      `max_tokens=<m>, request_tokens=<q>, response_tokens=<r>`. */
  function Describe(t: TokenLimits): string {
    "max_tokens=" + NumberToString(t.maxTokens)
    + ", request_tokens=" + NumberToString(t.requestTokens)
    + ", response_tokens=" + NumberToString(t.responseTokens)
  }

  /** Reads `key` followed by a number at the front of `s`. */
  function ReadField(key: string, s: string): Option<(int, string)> {
    if StartsWith(s, key) then ReadNumber(s[|key|..]) else None
  }

  /** Reads back the three allowances from a description. */
  function ParseDescription(s: string): Option<(int, int, int)> {
    match ReadField("max_tokens=", s)
    case None => None
    case Some((m, s1)) =>
      match ReadField(", request_tokens=", s1)
      case None => None
      case Some((q, s2)) =>
        match ReadField(", response_tokens=", s2)
        case None => None
        case Some((r, s3)) => if s3 == [] then Some((m, q, r)) else None
  }

  lemma ReadFieldRoundTrip(key: string, n: int, rest: string)
    requires rest == [] || !IsDigit(rest[0])
    ensures ReadField(key, key + NumberToString(n) + rest) == Some((n, rest))
  {
    var s := key + NumberToString(n) + rest;
    assert s[..|key|] == key;
    assert s[|key|..] == NumberToString(n) + rest;
    ReadNumberRoundTrip(n, rest);
  }

  /** The description renders each allowance losslessly: parsing it gives back
      exactly the three numbers. */
  lemma DescribeRoundTrip(t: TokenLimits)
    ensures ParseDescription(Describe(t)) == Some((t.maxTokens, t.requestTokens, t.responseTokens))
  {
    var m, q, r := NumberToString(t.maxTokens), NumberToString(t.requestTokens), NumberToString(t.responseTokens);
    var s3: string := [];
    var s2 := ", response_tokens=" + r + s3;
    var s1 := ", request_tokens=" + q + s2;
    assert Describe(t) == "max_tokens=" + m + s1;
    ReadFieldRoundTrip("max_tokens=", t.maxTokens, s1);
    ReadFieldRoundTrip(", request_tokens=", t.requestTokens, s2);
    ReadFieldRoundTrip(", response_tokens=", t.responseTokens, s3);
  }

  /** Two budgets with the same description have the same allowances. */
  lemma DescribeInjective(a: TokenLimits, b: TokenLimits)
    requires Describe(a) == Describe(b)
    ensures a.maxTokens == b.maxTokens
    ensures a.requestTokens == b.requestTokens
    ensures a.responseTokens == b.responseTokens
  {
    DescribeRoundTrip(a);
    DescribeRoundTrip(b);
  }
}
