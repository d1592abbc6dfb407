/** The OpenAI chat bot (src/bot/open-ai.ts). */
module OpenAi {
  import opened Wrappers
  import opened Text
  import opened Options
  import opened BotCommon

  datatype Role = System | User

  datatype ChatMessage = ChatMessage(role: Role, content: string)

  /** `ChatCompletionCreateParamsNonStreaming`: the fields the bot sets. */
  datatype ChatRequest = ChatRequest(
    model: string,
    messages: seq<ChatMessage>,
    maxTokens: int,
    temperature: real)

  /** One choice of a completion; its content may be `null`. */
  datatype Choice = Choice(content: Option<string>)

  /** `ChatCompletion`: the fields the bot reads. */
  datatype ChatCompletion = ChatCompletion(id: string, choices: seq<Choice>)

  const KeyMissing := "Unable to initialize the OpenAI API, both 'OPENAI_API_KEY' environment variable are not available"

  /** `response.choices[0]` on an empty list is `undefined`; reading its
      `message` throws. */
  const NoChoice := TypeError("Cannot read properties of undefined (reading 'message')")

  /** The text of a completion: the first choice's content, `""` when it is
      `null` or when there is no completion. */
  function ResponseText(response: Option<ChatCompletion>): (r: Result<string, JsError>)
    ensures r.Failure? <==> response.Some? && response.value.choices == []
    ensures r.Failure? ==> r.error == NoChoice
  {
    match response
    case None => Success("")
    case Some(c) => if |c.choices| == 0 then Failure(NoChoice) else Success(c.choices[0].content.GetOr(""))
  }

  /** What `chat_` resolves to (or throws) for `message` when the retried call
      yields `response`. */
  function Respond(message: string, response: Option<ChatCompletion>, md5Hex: string -> string): (r: Result<Reply, JsError>)
    ensures message == "" ==> r == Success(EmptyReply)
    ensures message != "" ==> (r.Failure? <==> response.Some? && response.value.choices == [])
    ensures message != "" && r.Success? ==> r.value.ids.parentMessageId == Some(md5Hex(message))
  {
    if message == "" then Success(EmptyReply)
    else
      match ResponseText(response)
      case Failure(e) => Failure(e)
      case Success(text) =>
        Success(Reply(StripWithPrefix(text), TurnIds(message, if response.Some? then Some(response.value.id) else None, md5Hex)))
  }

  /** `OpenAIBot`: the client and the preamble are fixed at construction;
      `md5Hex` is the hex MD5 digest (RFC 1321) of a message. */
  class OpenAIBot {
    const options: Options
    const openaiOptions: ModelOptions
    const systemMessage: string
    const api: Client<ChatRequest, ChatCompletion>
    const md5Hex: string -> string

    /** The successful branch of `new OpenAIBot(options, openaiOptions)`:
        `apiKey` is `OPENAI_API_KEY`, `currentDate` today's date and `outcomes`
        what the network will answer. */
    constructor(options: Options, openaiOptions: ModelOptions, apiKey: Option<string>,
                currentDate: string, outcomes: seq<Option<ChatCompletion>>, md5Hex: string -> string)
      requires Truthy(apiKey)
      ensures this.options == options && this.openaiOptions == openaiOptions && this.md5Hex == md5Hex
      ensures systemMessage == Preamble(options.systemMessage, openaiOptions.tokenLimits.knowledgeCutOff, currentDate, options.language)
      ensures fresh(api) && api.apiKey == apiKey.value && api.outcomes == outcomes && api.calls == []
    {
      this.options := options;
      this.openaiOptions := openaiOptions;
      this.md5Hex := md5Hex;
      systemMessage := Preamble(options.systemMessage, openaiOptions.tokenLimits.knowledgeCutOff, currentDate, options.language);
      api := new Client(apiKey.value, outcomes);
    }

    /** `new OpenAIBot(options, openaiOptions)`, which throws when the key is
        unset or empty. */
    static method Create(options: Options, openaiOptions: ModelOptions, apiKey: Option<string>,
                         currentDate: string, outcomes: seq<Option<ChatCompletion>>, md5Hex: string -> string)
      returns (r: Result<OpenAIBot, string>)
      ensures r.Failure? <==> !Truthy(apiKey)
      ensures r.Failure? ==> r.error == KeyMissing
      ensures r.Success? ==>
        && fresh(r.value) && fresh(r.value.api)
        && r.value.options == options && r.value.openaiOptions == openaiOptions && r.value.md5Hex == md5Hex
        && r.value.systemMessage == Preamble(options.systemMessage, openaiOptions.tokenLimits.knowledgeCutOff, currentDate, options.language)
        && r.value.api.apiKey == apiKey.value && r.value.api.outcomes == outcomes && r.value.api.calls == []
    {
      if Truthy(apiKey) {
        var bot := new OpenAIBot(options, openaiOptions, apiKey, currentDate, outcomes, md5Hex);
        r := Success(bot);
      } else {
        r := Failure(KeyMissing);
      }
    }

    /** The request `chat_` sends for `message`: the preamble as the system
        message, then the user's message, capped at the model's whole window. */
    function Request(message: string): (req: ChatRequest)
      ensures req.messages == [ChatMessage(System, systemMessage), ChatMessage(User, message)]
      ensures req.maxTokens == openaiOptions.tokenLimits.maxTokens
      ensures req.model == openaiOptions.model && req.temperature == options.modelTemperature
    {
      ChatRequest(openaiOptions.model, [ChatMessage(System, systemMessage), ChatMessage(User, message)],
                  openaiOptions.tokenLimits.maxTokens, options.modelTemperature)
    }

    /** `chat_(message)`: no call for an empty message, otherwise exactly one
        retried call, then normalisation of its outcome. */
    method ChatInner(message: string) returns (r: Result<Reply, JsError>)
      modifies api
      ensures message == "" ==> api.calls == old(api.calls) && api.outcomes == old(api.outcomes)
      ensures message != "" ==>
        && api.calls == old(api.calls) + [Call(Request(message), options.retries)]
        && api.outcomes == RemainingOutcomes(old(api.outcomes))
      ensures r == Respond(message, NextOutcome(old(api.outcomes)), md5Hex)
    {
      if message == "" {
        return Success(EmptyReply);
      }
      var response: Option<ChatCompletion> := None;
      var params := ChatRequest(openaiOptions.model, [ChatMessage(System, systemMessage), ChatMessage(User, message)],
                                openaiOptions.tokenLimits.maxTokens, options.modelTemperature);
      response := api.Send(params, options.retries);
      var responseText := "";
      if response.Some? {
        if |response.value.choices| == 0 {
          return Failure(NoChoice);
        }
        responseText := response.value.choices[0].content.GetOr("");
      }
      if StartsWith(responseText, "with ") {
        responseText := responseText[5..];
      }
      var messageHash := md5Hex(message);
      var newIds := Ids(Some(messageHash), if response.Some? then Some(response.value.id) else None);
      return Success(Reply(responseText, newIds));
    }

    /** `chat(message)`: `chat_` under a guard that turns any thrown error into
        `['', {}]`. */
    method Chat(message: string) returns (res: Reply)
      modifies api
      ensures message == "" ==> api.calls == old(api.calls) && api.outcomes == old(api.outcomes)
      ensures message != "" ==>
        && api.calls == old(api.calls) + [Call(Request(message), options.retries)]
        && api.outcomes == RemainingOutcomes(old(api.outcomes))
      ensures res == Guard(Respond(message, NextOutcome(old(api.outcomes)), md5Hex))
    {
      res := EmptyReply;
      var r := ChatInner(message);
      if r.Success? {
        res := r.value;
      }
    }
  }

  /** An empty message gets `['', {}]`, whatever the network would answer. */
  lemma EmptyMessage(response: Option<ChatCompletion>, md5Hex: string -> string)
    ensures Guard(Respond("", response, md5Hex)) == EmptyReply
  {
  }

  /** With no response the text is empty, yet the parent id is still the
      message digest; only the conversation id is absent. */
  lemma NoResponse(message: string, md5Hex: string -> string)
    requires message != ""
    ensures Guard(Respond(message, None, md5Hex)) == Reply("", Ids(Some(md5Hex(message)), None))
  {
  }

  /** With a completion that has a choice, the text is that choice's content
      (`""` for `null`) less one leading "with ", and the conversation id is the
      completion's id. */
  lemma Answered(message: string, c: ChatCompletion, md5Hex: string -> string)
    requires message != "" && |c.choices| > 0
    ensures Guard(Respond(message, Some(c), md5Hex)) ==
      Reply(StripWithPrefix(c.choices[0].content.GetOr("")), Ids(Some(md5Hex(message)), Some(c.id)))
  {
  }

  /** A completion without choices makes `chat_` throw, and `chat` answers
      `['', {}]`. */
  lemma NoChoices(message: string, c: ChatCompletion, md5Hex: string -> string)
    requires message != "" && c.choices == []
    ensures Respond(message, Some(c), md5Hex).Failure?
    ensures Guard(Respond(message, Some(c), md5Hex)) == EmptyReply
  {
  }

  /** The parent id depends on the message only: two turns with the same
      message get the same one, whatever their responses. */
  lemma ParentIdStable(message: string, r1: Option<ChatCompletion>, r2: Option<ChatCompletion>, md5Hex: string -> string)
    requires message != ""
    requires Respond(message, r1, md5Hex).Success? && Respond(message, r2, md5Hex).Success?
    ensures Respond(message, r1, md5Hex).value.ids.parentMessageId == Some(md5Hex(message))
    ensures Respond(message, r1, md5Hex).value.ids.parentMessageId == Respond(message, r2, md5Hex).value.ids.parentMessageId
  {
  }
}
