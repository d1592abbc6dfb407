/** The Gemini chat bot (src/bot/gemini.ts). */
module Gemini {
  import opened Wrappers
  import opened Text
  import opened Options
  import opened BotCommon

  /** `GenerateContentConfig`: the fields the bot sets. */
  datatype GenerateContentConfig = GenerateContentConfig(
    systemInstruction: string,
    temperature: real,
    maxOutputTokens: int)

  /** The argument of `models.generateContent`. */
  datatype GenerateContentRequest = GenerateContentRequest(
    model: string,
    contents: string,
    config: GenerateContentConfig)

  /** `GenerateContentResponse`: the fields the bot reads, both optional. */
  datatype GenerateContentResponse = GenerateContentResponse(text: Option<string>, responseId: Option<string>)

  const KeyMissing := "Unable to initialize the Gemini API, both 'GOOGLE_API_KEY' environment variable are not available"

  /** The text of a response: `response.text || ''`, and `""` when there is
      no response. */
  function ResponseText(response: Option<GenerateContentResponse>): string {
    match response
    case None => ""
    case Some(g) => g.text.GetOr("")
  }

  /** What `chat_` resolves to for `message` when the retried call yields
      `response`. */
  function Respond(message: string, response: Option<GenerateContentResponse>, md5Hex: string -> string): (r: Result<Reply, JsError>)
    ensures r.Success?
    ensures message == "" ==> r.value == EmptyReply
    ensures message != "" ==> r.value.ids.parentMessageId == Some(md5Hex(message))
  {
    if message == "" then Success(EmptyReply)
    else
      Success(Reply(StripWithPrefix(ResponseText(response)),
                    TurnIds(message, if response.Some? then response.value.responseId else None, md5Hex)))
  }

  /** `GeminiAIBot`: the client and the preamble are fixed at construction;
      `md5Hex` is the hex MD5 digest (RFC 1321) of a message. */
  class GeminiAIBot {
    const options: Options
    const geminiOptions: ModelOptions
    const systemMessage: string
    const api: Client<GenerateContentRequest, GenerateContentResponse>
    const md5Hex: string -> string

    /** The successful branch of `new GeminiAIBot(options, geminiOptions)`:
        `apiKey` is `GOOGLE_API_KEY`, `currentDate` today's date and
        `outcomes` what the network will answer. */
    constructor(options: Options, geminiOptions: ModelOptions, apiKey: Option<string>,
                currentDate: string, outcomes: seq<Option<GenerateContentResponse>>, md5Hex: string -> string)
      requires Truthy(apiKey)
      ensures this.options == options && this.geminiOptions == geminiOptions && this.md5Hex == md5Hex
      ensures systemMessage == Preamble(options.systemMessage, geminiOptions.tokenLimits.knowledgeCutOff, currentDate, options.language)
      ensures fresh(api) && api.apiKey == apiKey.value && api.outcomes == outcomes && api.calls == []
    {
      this.options := options;
      this.geminiOptions := geminiOptions;
      this.md5Hex := md5Hex;
      systemMessage := Preamble(options.systemMessage, geminiOptions.tokenLimits.knowledgeCutOff, currentDate, options.language);
      api := new Client(apiKey.value, outcomes);
    }

    /** `new GeminiAIBot(options, geminiOptions)`, which throws when the key is
        unset or empty. */
    static method Create(options: Options, geminiOptions: ModelOptions, apiKey: Option<string>,
                         currentDate: string, outcomes: seq<Option<GenerateContentResponse>>, md5Hex: string -> string)
      returns (r: Result<GeminiAIBot, string>)
      ensures r.Failure? <==> !Truthy(apiKey)
      ensures r.Failure? ==> r.error == KeyMissing
      ensures r.Success? ==>
        && fresh(r.value) && fresh(r.value.api)
        && r.value.options == options && r.value.geminiOptions == geminiOptions && r.value.md5Hex == md5Hex
        && r.value.systemMessage == Preamble(options.systemMessage, geminiOptions.tokenLimits.knowledgeCutOff, currentDate, options.language)
        && r.value.api.apiKey == apiKey.value && r.value.api.outcomes == outcomes && r.value.api.calls == []
    {
      if Truthy(apiKey) {
        var bot := new GeminiAIBot(options, geminiOptions, apiKey, currentDate, outcomes, md5Hex);
        r := Success(bot);
      } else {
        r := Failure(KeyMissing);
      }
    }

    /** The request `chat_` sends for `message`: the message as contents, the
        preamble as system instruction, capped at the model's whole window. */
    function Request(message: string): (req: GenerateContentRequest)
      ensures req.contents == message && req.config.systemInstruction == systemMessage
      ensures req.config.maxOutputTokens == geminiOptions.tokenLimits.maxTokens
      ensures req.model == geminiOptions.model && req.config.temperature == options.modelTemperature
    {
      GenerateContentRequest(geminiOptions.model, message,
        GenerateContentConfig(systemMessage, options.modelTemperature, geminiOptions.tokenLimits.maxTokens))
    }

    /** `chat_(message)`: no call for an empty message, otherwise exactly one
        retried call, then normalisation of its outcome. */
    method ChatInner(message: string) returns (r: Result<Reply, JsError>)
      modifies api
      ensures message == "" ==> api.calls == old(api.calls) && api.outcomes == old(api.outcomes)
      ensures message != "" ==>
        && api.calls == old(api.calls) + [Call(Request(message), options.retries)]
        && api.outcomes == RemainingOutcomes(old(api.outcomes))
      ensures r == Respond(message, NextOutcome(old(api.outcomes)), md5Hex)
    {
      if message == "" {
        return Success(EmptyReply);
      }
      var response: Option<GenerateContentResponse> := None;
      var config := GenerateContentConfig(systemMessage, options.modelTemperature, geminiOptions.tokenLimits.maxTokens);
      response := api.Send(GenerateContentRequest(geminiOptions.model, message, config), options.retries);
      var responseText := "";
      if response.Some? {
        responseText := response.value.text.GetOr("");
      }
      if StartsWith(responseText, "with ") {
        responseText := responseText[5..];
      }
      var parentMessageId := md5Hex(message);
      var newIds := Ids(Some(parentMessageId), if response.Some? then response.value.responseId else None);
      return Success(Reply(responseText, newIds));
    }

    /** `chat(message)`: `chat_` under a guard that turns any thrown error into
        `['', {}]`. */
    method Chat(message: string) returns (res: Reply)
      modifies api
      ensures message == "" ==> api.calls == old(api.calls) && api.outcomes == old(api.outcomes)
      ensures message != "" ==>
        && api.calls == old(api.calls) + [Call(Request(message), options.retries)]
        && api.outcomes == RemainingOutcomes(old(api.outcomes))
      ensures res == Guard(Respond(message, NextOutcome(old(api.outcomes)), md5Hex))
    {
      res := EmptyReply;
      var r := ChatInner(message);
      if r.Success? {
        res := r.value;
      }
    }
  }

  /** Nothing in Gemini's normalisation throws: `chat_` always resolves. */
  lemma NeverThrows(message: string, response: Option<GenerateContentResponse>, md5Hex: string -> string)
    ensures Respond(message, response, md5Hex).Success?
  {
  }

  /** An empty message gets `['', {}]`, whatever the network would answer. */
  lemma EmptyMessage(response: Option<GenerateContentResponse>, md5Hex: string -> string)
    ensures Guard(Respond("", response, md5Hex)) == EmptyReply
  {
  }

  /** With no response the text is empty, yet the parent id is still the
      message digest; only the conversation id is absent. */
  lemma NoResponse(message: string, md5Hex: string -> string)
    requires message != ""
    ensures Guard(Respond(message, None, md5Hex)) == Reply("", Ids(Some(md5Hex(message)), None))
  {
  }

  /** With a response, the text is its text (`""` when absent) less one
      leading "with ", and the conversation id is its response id, absent when
      the response has none. */
  lemma Answered(message: string, g: GenerateContentResponse, md5Hex: string -> string)
    requires message != ""
    ensures Guard(Respond(message, Some(g), md5Hex)) ==
      Reply(StripWithPrefix(g.text.GetOr("")), Ids(Some(md5Hex(message)), g.responseId))
  {
  }

  /** The parent id depends on the message only. */
  lemma ParentIdStable(message: string, r1: Option<GenerateContentResponse>, r2: Option<GenerateContentResponse>, md5Hex: string -> string)
    requires message != ""
    ensures Respond(message, r1, md5Hex).value.ids.parentMessageId == Some(md5Hex(message))
    ensures Respond(message, r1, md5Hex).value.ids.parentMessageId == Respond(message, r2, md5Hex).value.ids.parentMessageId
  {
  }
}
