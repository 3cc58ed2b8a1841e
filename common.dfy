/** Values shared by the chat and authentication services. */
module Common {

  datatype Option<+T> = None | Some(value: T)

  /** What a service operation raises instead of returning. */
  datatype Error =
    | HttpException(status: nat, detail: string)  // FastAPI's HTTPException
    | IndexError                                  // `messages_dict[-1]` on an empty list
    | Raised(reason: string)                      // an exception from a helper whose code is not part of this model

  datatype Result<+T> = Ok(value: T) | Err(error: Error)

  /** One chat turn, `{"role": ..., "content": ...}`; the role is free text. */
  datatype Message = Message(role: string, content: string)

  const UserRole: string := "user"
  const AssistantRole: string := "assistant"

  /** The 400 both completion services raise when the last message is not the user's. */
  const LastMessageNotFromUser: Error := HttpException(400, "Last message must be from the user")

  /** `settings.DEFAULT_MODEL`. */
  const DefaultModel: string := "llama3"

  /** Python truthiness of an optional string: both None and "" are false. */
  predicate Truthy(s: Option<string>) {
    s.Some? && s.value != ""
  }

  /** `s or fallback` (equivalently `s if s else fallback`) for an optional string. */
  function OrElse(s: Option<string>, fallback: string): (r: string)
    ensures Truthy(s) ==> r == s.value
    ensures s == None || s == Some("") ==> r == fallback
    ensures r == "" ==> fallback == ""
  {
    if Truthy(s) then s.value else fallback
  }

  /** `str(s)` for an optional string: None is rendered as "None". */
  function PyStr(s: Option<string>): (r: string)
    ensures s.Some? ==> r == s.value
    ensures s.None? ==> r == "None"
  {
    if s.Some? then s.value else "None"
  }

  function Last(messages: seq<Message>): Message
    requires |messages| > 0
  {
    messages[|messages| - 1]
  }

  /** `messages_dict.append({"role": "assistant", "content": content})`: the conversation with the reply appended. */
  function WithReply(messages: seq<Message>, content: string): (r: seq<Message>)
    ensures |r| == |messages| + 1
    ensures r[..|messages|] == messages
    ensures Last(r) == Message(AssistantRole, content)
  {
    messages + [Message(AssistantRole, content)]
  }
}
