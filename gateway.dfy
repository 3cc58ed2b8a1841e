/**
 * The model runtime the chat services call, as an oracle: it records every call,
 * and its reply to the n-th call is an arbitrary fixed function of n and the call.
 */
module Gateway {
  import opened Common

  datatype Call =
    | OllamaChat(model: string, messages: seq<Message>)  // `ollama.chat(model=..., messages=...)`
    | SendChat(messages: seq<Message>)                   // `send_chat_to_ollama(messages)`
    | ChatTitle(messages: seq<Message>)                  // `generate_chat_title(messages)`

  /** The content of the reply message, or the failure the call raised. */
  datatype Reply = Answer(content: string) | Failure(reason: string)

  class Runtime {
    var calls: seq<Call>
    const answer: (nat, Call) -> Reply

    constructor (answer: (nat, Call) -> Reply)
      ensures calls == [] && this.answer == answer
    {
      this.answer := answer;
      calls := [];
    }

    /** `ollama.chat(model=model, messages=messages)` and `response["message"]["content"]`. */
    method Chat(model: string, messages: seq<Message>) returns (r: Reply)
      modifies this
      ensures calls == old(calls) + [OllamaChat(model, messages)]
      ensures r == answer(|old(calls)|, OllamaChat(model, messages))
    {
      r := answer(|calls|, OllamaChat(model, messages));
      calls := calls + [OllamaChat(model, messages)];
    }

    /** `send_chat_to_ollama(messages)`: the reply text; a failure propagates as an exception. */
    method SendChatToOllama(messages: seq<Message>) returns (r: Result<string>)
      modifies this
      ensures calls == old(calls) + [SendChat(messages)]
      ensures r == SentReply(answer(|old(calls)|, SendChat(messages)))
    {
      r := SentReply(answer(|calls|, SendChat(messages)));
      calls := calls + [SendChat(messages)];
    }

    /** `generate_chat_title(messages)`: a title, or None. */
    method GenerateChatTitle(messages: seq<Message>) returns (title: Option<string>)
      modifies this
      ensures calls == old(calls) + [ChatTitle(messages)]
      ensures title == GeneratedTitle(answer(|old(calls)|, ChatTitle(messages)))
    {
      title := GeneratedTitle(answer(|calls|, ChatTitle(messages)));
      calls := calls + [ChatTitle(messages)];
    }
  }

  function SentReply(reply: Reply): Result<string> {
    match reply
    case Answer(content) => Ok(content)
    case Failure(reason) => Err(Raised(reason))
  }

  function GeneratedTitle(reply: Reply): Option<string> {
    match reply
    case Answer(content) => Some(content)
    case Failure(_) => None
  }
}
