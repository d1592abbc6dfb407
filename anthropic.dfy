/** The Anthropic chat bot (src/bot/anthropic.ts). */
module Anthropic {
  import opened Wrappers
  import opened Text
  import opened Options
  import opened BotCommon

  /** A user turn of the request. */
  datatype MessageParam = UserMessage(content: string)

  /** `MessageCreateParamsNonStreaming`: the fields the bot sets. */
  datatype MessageRequest = MessageRequest(
    model: string,
    messages: seq<MessageParam>,
    system: string,
    temperature: real,
    maxTokens: int)

  /** One block of a response; `text` is meaningful when `kind` is "text". */
  datatype ContentBlock = ContentBlock(kind: string, text: string)

  /** `Message`: the fields the bot reads. */
  datatype Message = Message(id: string, content: seq<ContentBlock>)

  const KeyMissing := "Unable to initialize the OpenAI API, both 'ANTHROPIC_API_KEY' environment variable are not available"

  /** `response.content[0]` on an empty list is `undefined`; reading its
      `type` throws. */
  const NoContent := TypeError("Cannot read properties of undefined (reading 'type')")

  /** The text of a message: its first block's text when that block is a text
      block, `""` otherwise or when there is no message. */
  function ResponseText(response: Option<Message>): (r: Result<string, JsError>)
    ensures r.Failure? <==> response.Some? && response.value.content == []
    ensures r.Failure? ==> r.error == NoContent
  {
    match response
    case None => Success("")
    case Some(m) =>
      if |m.content| == 0 then Failure(NoContent)
      else Success(if m.content[0].kind == "text" then m.content[0].text else "")
  }

  /** What `chat_` resolves to (or throws) for `message` when the retried call
      yields `response`. */
  function Respond(message: string, response: Option<Message>, md5Hex: string -> string): (r: Result<Reply, JsError>)
    ensures message == "" ==> r == Success(EmptyReply)
    ensures message != "" ==> (r.Failure? <==> response.Some? && response.value.content == [])
    ensures message != "" && r.Success? ==> r.value.ids.parentMessageId == Some(md5Hex(message))
  {
    if message == "" then Success(EmptyReply)
    else
      match ResponseText(response)
      case Failure(e) => Failure(e)
      case Success(text) =>
        Success(Reply(StripWithPrefix(text), TurnIds(message, if response.Some? then Some(response.value.id) else None, md5Hex)))
  }

  /** `AnthropicAIBot`: the client and the preamble are fixed at construction;
      `md5Hex` is the hex MD5 digest (RFC 1321) of a message. */
  class AnthropicAIBot {
    const options: Options
    const anthropicOptions: ModelOptions
    const systemMessage: string
    const api: Client<MessageRequest, Message>
    const md5Hex: string -> string

    /** The successful branch of `new AnthropicAIBot(options, anthropicOptions)`:
        `apiKey` is `ANTHROPIC_API_KEY`, `currentDate` today's date and
        `outcomes` what the network will answer. */
    constructor(options: Options, anthropicOptions: ModelOptions, apiKey: Option<string>,
                currentDate: string, outcomes: seq<Option<Message>>, md5Hex: string -> string)
      requires Truthy(apiKey)
      ensures this.options == options && this.anthropicOptions == anthropicOptions && this.md5Hex == md5Hex
      ensures systemMessage == Preamble(options.systemMessage, anthropicOptions.tokenLimits.knowledgeCutOff, currentDate, options.language)
      ensures fresh(api) && api.apiKey == apiKey.value && api.outcomes == outcomes && api.calls == []
    {
      this.options := options;
      this.anthropicOptions := anthropicOptions;
      this.md5Hex := md5Hex;
      systemMessage := Preamble(options.systemMessage, anthropicOptions.tokenLimits.knowledgeCutOff, currentDate, options.language);
      api := new Client(apiKey.value, outcomes);
    }

    /** `new AnthropicAIBot(options, anthropicOptions)`, which throws when the
        key is unset or empty. */
    static method Create(options: Options, anthropicOptions: ModelOptions, apiKey: Option<string>,
                         currentDate: string, outcomes: seq<Option<Message>>, md5Hex: string -> string)
      returns (r: Result<AnthropicAIBot, string>)
      ensures r.Failure? <==> !Truthy(apiKey)
      ensures r.Failure? ==> r.error == KeyMissing
      ensures r.Success? ==>
        && fresh(r.value) && fresh(r.value.api)
        && r.value.options == options && r.value.anthropicOptions == anthropicOptions && r.value.md5Hex == md5Hex
        && r.value.systemMessage == Preamble(options.systemMessage, anthropicOptions.tokenLimits.knowledgeCutOff, currentDate, options.language)
        && r.value.api.apiKey == apiKey.value && r.value.api.outcomes == outcomes && r.value.api.calls == []
    {
      if Truthy(apiKey) {
        var bot := new AnthropicAIBot(options, anthropicOptions, apiKey, currentDate, outcomes, md5Hex);
        r := Success(bot);
      } else {
        r := Failure(KeyMissing);
      }
    }

    /** The request `chat_` sends for `message`: one user turn, the preamble as
        `system`, capped at the model's whole window. */
    function Request(message: string): (req: MessageRequest)
      ensures req.messages == [UserMessage(message)] && req.system == systemMessage
      ensures req.maxTokens == anthropicOptions.tokenLimits.maxTokens
      ensures req.model == anthropicOptions.model && req.temperature == options.modelTemperature
    {
      MessageRequest(anthropicOptions.model, [UserMessage(message)], systemMessage,
                     options.modelTemperature, anthropicOptions.tokenLimits.maxTokens)
    }

    /** `chat_(message)`: no call for an empty message, otherwise exactly one
        retried call, then normalisation of its outcome. */
    method ChatInner(message: string) returns (r: Result<Reply, JsError>)
      modifies api
      ensures message == "" ==> api.calls == old(api.calls) && api.outcomes == old(api.outcomes)
      ensures message != "" ==>
        && api.calls == old(api.calls) + [Call(Request(message), options.retries)]
        && api.outcomes == RemainingOutcomes(old(api.outcomes))
      ensures r == Respond(message, NextOutcome(old(api.outcomes)), md5Hex)
    {
      if message == "" {
        return Success(EmptyReply);
      }
      var response: Option<Message> := None;
      var config := MessageRequest(anthropicOptions.model, [UserMessage(message)], systemMessage,
                                   options.modelTemperature, anthropicOptions.tokenLimits.maxTokens);
      response := api.Send(config, options.retries);
      var responseText := "";
      if response.Some? {
        if |response.value.content| == 0 {
          return Failure(NoContent);
        }
        responseText := if response.value.content[0].kind == "text" then response.value.content[0].text else "";
      }
      if StartsWith(responseText, "with ") {
        responseText := responseText[5..];
      }
      var parentMessageId := md5Hex(message);
      var newIds := Ids(Some(parentMessageId), if response.Some? then Some(response.value.id) else None);
      return Success(Reply(responseText, newIds));
    }

    /** `chat(message)`: `chat_` under a guard that turns any thrown error into
        `['', {}]`. */
    method Chat(message: string) returns (res: Reply)
      modifies api
      ensures message == "" ==> api.calls == old(api.calls) && api.outcomes == old(api.outcomes)
      ensures message != "" ==>
        && api.calls == old(api.calls) + [Call(Request(message), options.retries)]
        && api.outcomes == RemainingOutcomes(old(api.outcomes))
      ensures res == Guard(Respond(message, NextOutcome(old(api.outcomes)), md5Hex))
    {
      res := EmptyReply;
      var r := ChatInner(message);
      if r.Success? {
        res := r.value;
      }
    }
  }

  /** An empty message gets `['', {}]`, whatever the network would answer. */
  lemma EmptyMessage(response: Option<Message>, md5Hex: string -> string)
    ensures Guard(Respond("", response, md5Hex)) == EmptyReply
  {
  }

  /** With no response the text is empty, yet the parent id is still the
      message digest; only the conversation id is absent. */
  lemma NoResponse(message: string, md5Hex: string -> string)
    requires message != ""
    ensures Guard(Respond(message, None, md5Hex)) == Reply("", Ids(Some(md5Hex(message)), None))
  {
  }

  /** With a non-empty message, the text is the first block's text if it is a
      text block (else `""`) less one leading "with ", and the conversation id
      is the message id. */
  lemma Answered(message: string, m: Message, md5Hex: string -> string)
    requires message != "" && |m.content| > 0
    ensures Guard(Respond(message, Some(m), md5Hex)) ==
      Reply(StripWithPrefix(if m.content[0].kind == "text" then m.content[0].text else ""),
            Ids(Some(md5Hex(message)), Some(m.id)))
  {
  }

  /** A message without content blocks makes `chat_` throw, and `chat`
      answers `['', {}]`. */
  lemma NoContentBlocks(message: string, m: Message, md5Hex: string -> string)
    requires message != "" && m.content == []
    ensures Respond(message, Some(m), md5Hex).Failure?
    ensures Guard(Respond(message, Some(m), md5Hex)) == EmptyReply
  {
  }

  /** The parent id depends on the message only. */
  lemma ParentIdStable(message: string, r1: Option<Message>, r2: Option<Message>, md5Hex: string -> string)
    requires message != ""
    requires Respond(message, r1, md5Hex).Success? && Respond(message, r2, md5Hex).Success?
    ensures Respond(message, r1, md5Hex).value.ids.parentMessageId == Some(md5Hex(message))
    ensures Respond(message, r1, md5Hex).value.ids.parentMessageId == Respond(message, r2, md5Hex).value.ids.parentMessageId
  {
  }
}
