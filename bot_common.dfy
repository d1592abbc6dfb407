/** What the three chat bots share: the continuation identifiers and reply of
    one turn (src/bot/abc.ts), the retried network call, the removal of a
    leading "with ", the system preamble, and the fail-soft guard. */
module BotCommon {
  import opened Wrappers
  import opened Text

  /** `Ids`: continuation identifiers of a turn; both absent is `{}`. */
  datatype Ids = Ids(parentMessageId: Option<string>, conversationId: Option<string>)

  const NoIds := Ids(None, None)

  /** What `chat` resolves to: the response text and the identifiers. */
  datatype Reply = Reply(text: string, ids: Ids)

  /** `['', {}]`: the reply to an empty message and to a failed turn. */
  const EmptyReply := Reply("", NoIds)

  /** An exception thrown by the normalisation code itself. */
  datatype JsError = TypeError(message: string)

  /** JavaScript truthiness of an environment variable: set and non-empty. */
  predicate Truthy(env: Option<string>) {
    env.Some? && env.value != ""
  }

  /** One call of the retried request: what was sent and the retry setting
      passed to the retry wrapper. */
  datatype Call<Req> = Call(request: Req, retries: int)

  /** The outcome of the next call: the first scripted outcome, or no
      response once the script is used up. */
  function NextOutcome<Resp>(outcomes: seq<Option<Resp>>): Option<Resp> {
    if outcomes == [] then None else outcomes[0]
  }

  function RemainingOutcomes<Resp>(outcomes: seq<Option<Resp>>): seq<Option<Resp>> {
    if outcomes == [] then [] else outcomes[1..]
  }

  /** A provider client together with the retry wrapper around it. The network
      is an oracle: `outcomes` lists what successive retried calls yield,
      `None` standing for retries exhausted or a swallowed error; `calls`
      records every call made. */
  class Client<Req, Resp> {
    const apiKey: string
    var outcomes: seq<Option<Resp>>
    var calls: seq<Call<Req>>

    constructor(apiKey: string, outcomes: seq<Option<Resp>>)
      ensures this.apiKey == apiKey && this.outcomes == outcomes && calls == []
    {
      this.apiKey := apiKey;
      this.outcomes := outcomes;
      calls := [];
    }

    /** `pRetry(() => create(request), {retries})`, with every failure caught. */
    method Send(request: Req, retries: int) returns (response: Option<Resp>)
      modifies this
      ensures calls == old(calls) + [Call(request, retries)]
      ensures response == NextOutcome(old(outcomes))
      ensures outcomes == RemainingOutcomes(old(outcomes))
    {
      calls := calls + [Call(request, retries)];
      if outcomes == [] {
        response := None;
      } else {
        response := outcomes[0];
        outcomes := outcomes[1..];
      }
    }
  }

  const WithPrefix := "with "

  /** The response text with one leading "with " removed; other text is kept. */
  function StripWithPrefix(s: string): (r: string)
    ensures StartsWith(s, WithPrefix) ==> WithPrefix + r == s
    ensures !StartsWith(s, WithPrefix) ==> r == s
  {
    if StartsWith(s, WithPrefix) then s[5..] else s
  }

  /** Putting the prefix back and stripping it again gives the text back. */
  lemma StripRoundTrip(s: string)
    ensures StripWithPrefix(WithPrefix + s) == s
  {
    assert (WithPrefix + s)[..5] == WithPrefix;
  }

  /** Only one prefix goes: stripping is not idempotent. */
  lemma StripOnce(s: string)
    ensures StripWithPrefix(WithPrefix + WithPrefix + s) == WithPrefix + s
    ensures StripWithPrefix(StripWithPrefix("with with x")) != StripWithPrefix("with with x")
  {
    assert WithPrefix + WithPrefix + s == WithPrefix + (WithPrefix + s);
    StripRoundTrip(WithPrefix + s);
    StripRoundTrip("with x");
    StripRoundTrip("x");
    assert "with with x" == WithPrefix + "with x";
    assert "with x" == WithPrefix + "x";
  }

  /** The identifiers of a turn that reached the normalisation step: the
      message's digest as parent, the provider's id (if any) as conversation. */
  function TurnIds(message: string, conversationId: Option<string>, md5Hex: string -> string): Ids {
    Ids(Some(md5Hex(message)), conversationId)
  }

  /** The outer `try`/`catch` of `chat`: a thrown error becomes `['', {}]`. */
  function Guard(r: Result<Reply, JsError>): (reply: Reply)
    ensures r.Success? ==> reply == r.value
    ensures r.Failure? ==> reply == EmptyReply
  {
    match r
    case Success(v) => v
    case Failure(_) => EmptyReply
  }

  const CutOffLabel := " \n        Knowledge cutoff: "
  const DateLabel := "\n        Current date: "
  const LanguageLabel := "\n\n        IMPORTANT: Entire response must be in the language with ISO code: "
  const PreambleEnd := "\n      "

  /** The system preamble each bot precomputes at construction. */
  function Preamble(systemMessage: string, knowledgeCutOff: string, currentDate: string, language: string): string {
    systemMessage + CutOffLabel + knowledgeCutOff + DateLabel + currentDate
    + LanguageLabel + language + PreambleEnd
  }

  /** `x` occurs in `s` at index `k`. */
  predicate OccursAt(s: string, x: string, k: int) {
    0 <= k <= |s| - |x| && s[k..k + |x|] == x
  }

  /** `x` occurs in `s`. */
  ghost predicate Contains(s: string, x: string) {
    exists k :: OccursAt(s, x, k)
  }

  lemma ContainsSuffix(a: string, x: string)
    ensures Contains(a + x, x)
  {
    assert OccursAt(a + x, x, |a|);
  }

  lemma ContainsExtend(s: string, x: string, b: string)
    requires Contains(s, x)
    ensures Contains(s + b, x)
  {
    var k :| OccursAt(s, x, k);
    assert (s + b)[k..k + |x|] == s[k..k + |x|];
    assert OccursAt(s + b, x, k);
  }

  /** The preamble starts with the base system message and mentions the
      knowledge cutoff, the date and the output language. */
  lemma PreambleMentions(systemMessage: string, knowledgeCutOff: string, currentDate: string, language: string)
    ensures var p := Preamble(systemMessage, knowledgeCutOff, currentDate, language);
      StartsWith(p, systemMessage) && Contains(p, knowledgeCutOff)
      && Contains(p, currentDate) && Contains(p, language)
  {
    var s1 := systemMessage + CutOffLabel + knowledgeCutOff;
    var s2 := s1 + DateLabel + currentDate;
    var s3 := s2 + LanguageLabel + language;
    ContainsSuffix(systemMessage + CutOffLabel, knowledgeCutOff);
    ContainsExtend(s1, knowledgeCutOff, DateLabel);
    ContainsExtend(s1 + DateLabel, knowledgeCutOff, currentDate);
    ContainsSuffix(s1 + DateLabel, currentDate);
    ContainsExtend(s2, knowledgeCutOff, LanguageLabel);
    ContainsExtend(s2, currentDate, LanguageLabel);
    ContainsExtend(s2 + LanguageLabel, knowledgeCutOff, language);
    ContainsExtend(s2 + LanguageLabel, currentDate, language);
    ContainsSuffix(s2 + LanguageLabel, language);
    ContainsExtend(s3, knowledgeCutOff, PreambleEnd);
    ContainsExtend(s3, currentDate, PreambleEnd);
    ContainsExtend(s3, language, PreambleEnd);
    var p := s3 + PreambleEnd;
    assert p[..|systemMessage|] == systemMessage;
  }
}
