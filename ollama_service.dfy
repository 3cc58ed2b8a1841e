/**
 * app/services/ollama_service.py: chat completion through the model runtime, the
 * title rule, and the conversation table operations.
 */
module OllamaService {
  import opened Common
  import opened ChatStore
  import opened Gateway
  import Ids

  /** The synthetic turn appended, on a copy, to ask the model for a title. */
  const TitlePrompt: Message := Message(UserRole, "give a shortest title for this conversation under 8 words")

  function Unavailable(reason: string): Error {
    HttpException(503, "Failed to communicate with Ollama service: " + reason)
  }

  datatype ChatResponse = ChatResponse(chatId: string, title: Option<string>, response: string)
  datatype RenameResponse = RenameResponse(chatId: string, title: string, success: bool)
  datatype UserChatList = UserChatList(userId: string, chats: seq<ChatSection>)

  // ---------------------------------------------------------------------------
  // The title rule

  /** `s.replace('"', "")`: `s` with every double quote removed and nothing else changed. */
  function StripQuotes(s: string): (r: string)
    ensures forall i :: 0 <= i < |r| ==> r[i] != '"'
    ensures forall c :: c != '"' ==> (c in r <==> c in s)
    ensures |r| <= |s|
    ensures multiset(r) == multiset(s)['"' := 0]
  {
    if s == [] then [] else
      assert s == [s[0]] + s[1..];
      (if s[0] == '"' then [] else [s[0]]) + StripQuotes(s[1..])
  }

  /** Stripping works piece by piece, so every other character keeps its place in the order. */
  lemma {:induction false} StripQuotesAppend(a: string, b: string)
    ensures StripQuotes(a + b) == StripQuotes(a) + StripQuotes(b)
  {
    if a == [] {
      assert a + b == b;
    } else {
      assert (a + b)[1..] == a[1..] + b;
      StripQuotesAppend(a[1..], b);
    }
  }

  /** A string without double quotes is left as it is. */
  lemma {:induction false} StripQuotesKeepsQuoteFree(s: string)
    requires forall i :: 0 <= i < |s| ==> s[i] != '"'
    ensures StripQuotes(s) == s
  {
    if s != [] {
      StripQuotesKeepsQuoteFree(s[1..]);
    }
  }

  lemma StripQuotesIdempotent(s: string)
    ensures StripQuotes(StripQuotes(s)) == StripQuotes(s)
  {
    StripQuotesKeepsQuoteFree(StripQuotes(s));
  }

  /**
   * The request naming_chat_section sends, if it sends one: the conversation plus the
   * title prompt, only when the last message is the assistant's and the extended list
   * holds at most four messages, i.e. the conversation holds at most three.
   */
  function TitleRequest(messages: seq<Message>): (r: Option<seq<Message>>)
    requires |messages| > 0
    ensures r.Some? <==> Last(messages).role == AssistantRole && |messages| <= 3
    ensures r.Some? ==> r.value == messages + [TitlePrompt]
  {
    if Last(messages).role != AssistantRole then None
    else
      var prompted := messages + [TitlePrompt];
      if |prompted| > 4 then None else Some(prompted)
  }

  /** The calls naming_chat_section makes: the title request, if any, to the default model. */
  function TitleCalls(messages: seq<Message>): (r: seq<Call>)
    requires |messages| > 0
    ensures |r| == if Last(messages).role == AssistantRole && |messages| <= 3 then 1 else 0
    ensures forall i :: 0 <= i < |r| ==> r[i] == OllamaChat(DefaultModel, messages + [TitlePrompt])
  {
    match TitleRequest(messages)
    case None => []
    case Some(request) => [OllamaChat(DefaultModel, request)]
  }

  /** The title made of the model's reply: quotes stripped; a failed call gives None. */
  function TitleFromReply(reply: Reply): (r: Option<string>)
    ensures r.Some? <==> reply.Answer?
    ensures r.Some? ==> forall i :: 0 <= i < |r.value| ==> r.value[i] != '"'
    ensures reply.Answer? ==> r == Some(StripQuotes(reply.content))
  {
    match reply
    case Answer(content) => Some(StripQuotes(content))
    case Failure(_) => None
  }

  /** The title naming_chat_section returns when its request, if any, is the runtime's `n`-th call. */
  function TitleOutcome(answer: (nat, Call) -> Reply, n: nat, messages: seq<Message>): (r: Option<string>)
    requires |messages| > 0
    ensures r.Some? ==> TitleRequest(messages).Some?
    ensures r.Some? ==> forall i :: 0 <= i < |r.value| ==> r.value[i] != '"'
    ensures var reply := answer(n, OllamaChat(DefaultModel, messages + [TitlePrompt]));
      TitleRequest(messages).Some? ==> r == TitleFromReply(reply) && (r.Some? <==> reply.Answer?)
    ensures var reply := answer(n, OllamaChat(DefaultModel, messages + [TitlePrompt]));
      TitleRequest(messages).Some? && reply.Answer? ==> r == Some(StripQuotes(reply.content))
  {
    match TitleRequest(messages)
    case None => None
    case Some(request) => TitleFromReply(answer(n, OllamaChat(DefaultModel, request)))
  }

  /**
   * After a reply is appended, the conversation ends with the assistant, so a title is
   * requested exactly when the conversation sent to the model held at most two messages.
   */
  lemma TitleRequestedForShortChats(messages: seq<Message>, content: string)
    ensures TitleRequest(WithReply(messages, content)).Some? <==> |messages| <= 2
    ensures |TitleCalls(WithReply(messages, content))| == if |messages| <= 2 then 1 else 0
  {
  }

  /** `naming_chat_section(user_id, chat_id, messages)`; the ids only label a log line. */
  method NamingChatSection(runtime: Runtime, userId: string, chatId: Option<string>, messages: seq<Message>)
    returns (title: Option<string>)
    requires |messages| > 0
    modifies runtime
    ensures runtime.calls == old(runtime.calls) + TitleCalls(messages)
    ensures title == TitleOutcome(runtime.answer, |old(runtime.calls)|, messages)
    ensures title.Some? ==> forall i :: 0 <= i < |title.value| ==> title.value[i] != '"'
  {
    if Last(messages).role != AssistantRole {
      return None;
    }
    var prompted := messages + [TitlePrompt];
    if |prompted| > 4 {
      return None;
    }
    var reply := runtime.Chat(DefaultModel, prompted);
    match reply
    case Answer(content) =>
      title := Some(StripQuotes(content));
    case Failure(_) =>
      title := None;
  }

  // ---------------------------------------------------------------------------
  // Completion

  /**
   * `chat_with_ollama(user_id, chat_id, messages, model)`. The clock reading used if a
   * new conversation is inserted is `now`; `freshId` is the id it is inserted under.
   */
  method ChatWithOllama(chats: ChatsCollection, runtime: Runtime, userId: string, chatId: Option<string>,
                        messages: seq<Message>, model: string := DefaultModel, now: int)
    returns (r: Result<ChatResponse>, ghost freshId: string)
    requires chats.Valid()
    modifies chats, runtime
    ensures chats.Valid()
    ensures r.Err? ==> chats.documents == old(chats.documents)
    ensures |messages| == 0 ==> r == Err(IndexError) && runtime.calls == old(runtime.calls)
    ensures |messages| > 0 && Last(messages).role != UserRole ==>
      r == Err(LastMessageNotFromUser) && runtime.calls == old(runtime.calls)
    ensures |messages| > 0 && Last(messages).role == UserRole ==>
      var n, request := |old(runtime.calls)|, OllamaChat(model, messages);
      match runtime.answer(n, request)
      case Failure(reason) =>
        r == Err(Unavailable(reason)) && runtime.calls == old(runtime.calls) + [request]
      case Answer(content) =>
        var working := WithReply(messages, content);
        && r.Ok? && r.value.response == content
        && runtime.calls == old(runtime.calls) + [request] + TitleCalls(working)
        && r.value.title == TitleOutcome(runtime.answer, n + 1, working)
        && (if userId != "" && !Truthy(chatId) then Ids.IsId(r.value.chatId, Ids.DefaultLength)
            else r.value.chatId == PyStr(chatId))
        && chats.documents == if userId == "" then old(chats.documents)
                              else Upsert(old(chats.documents), userId, r.value.chatId, model, r.value.title,
                                          working, now, freshId)
    ensures r.Ok? && userId != "" && ChatKey(userId, r.value.chatId) !in old(chats.documents) ==>
      Ids.IsId(freshId, Ids.DefaultLength)
  {
    freshId := "";
    if |messages| == 0 {
      return Err(IndexError), freshId;
    }
    if Last(messages).role != UserRole {
      return Err(LastMessageNotFromUser), freshId;
    }
    var reply := runtime.Chat(model, messages);
    if reply.Failure? {
      return Err(Unavailable(reply.reason)), freshId;
    }
    var working := WithReply(messages, reply.content);
    var resolved := chatId;
    if !Truthy(chatId) && userId != "" {
      var id := Ids.GenerateId();
      resolved := Some(id);
    }
    var title := NamingChatSection(runtime, userId, resolved, working);
    if userId != "" {
      freshId := SaveChatSection(chats, working, userId, resolved.value, model, title, now);
    }
    r := Ok(ChatResponse(PyStr(resolved), title, reply.content));
  }

  // ---------------------------------------------------------------------------
  // The conversation table

  /** `save_chat_section(messages_dict, user_id, chat_id, model, chat_title)`. */
  method SaveChatSection(chats: ChatsCollection, messages: seq<Message>, userId: string, chatId: string,
                         model: string, title: Option<string> := None, now: int)
    returns (ghost freshId: string)
    requires chats.Valid()
    modifies chats
    ensures chats.Valid()
    ensures chats.documents == Upsert(old(chats.documents), userId, chatId, model, title, messages, now, freshId)
    ensures ChatKey(userId, chatId) !in old(chats.documents) ==> Ids.IsId(freshId, Ids.DefaultLength)
  {
    var found := chats.FindOne(userId, chatId);
    if found.Some? {
      chats.SetMessagesAndTitle(userId, chatId, messages, OrElse(title, found.value.title));
      freshId := "";
    } else {
      var id := Ids.GenerateId();
      chats.InsertOne(ChatSection(userId, id, OrElse(title, Untitled), now, model, messages));
      freshId := id;
    }
  }

  /** `rename_chat_section(user_id, chat_id, title)`. */
  method RenameChatSection(chats: ChatsCollection, userId: string, chatId: string, title: string)
    returns (r: Result<RenameResponse>)
    requires chats.Valid()
    modifies chats
    ensures chats.Valid()
    ensures var k := ChatKey(userId, chatId);
      if k in old(chats.documents) then
        r == Ok(RenameResponse(chatId, title, true)) && chats.documents == Retitle(old(chats.documents), k, title)
      else
        r == Err(NotFound(userId, chatId)) && chats.documents == old(chats.documents)
  {
    var found := chats.FindOne(userId, chatId);
    if found.Some? {
      chats.SetTitle(userId, chatId, title);
      r := Ok(RenameResponse(chatId, title, true));
    } else {
      r := Err(NotFound(userId, chatId));
    }
  }

  /** `get_chat_section(user_id, chat_id)`. */
  method GetChatSection(chats: ChatsCollection, userId: string, chatId: string) returns (r: Result<ChatSection>)
    ensures r == Lookup(chats.documents, userId, chatId)
  {
    var found := chats.FindOne(userId, chatId);
    if found.Some? {
      r := Ok(found.value);
    } else {
      r := Err(NotFound(userId, chatId));
    }
  }

  /** `get_user_chats(user_id)`: the user's conversations, newest first, with their messages emptied. */
  method GetUserChats(chats: ChatsCollection, userId: string) returns (r: UserChatList)
    requires chats.Valid()
    ensures r.userId == userId
    ensures Lists(chats.documents, userId, r.chats, true)
  {
    var found := chats.FindSortedByNewest(userId);
    var sections: seq<ChatSection> := [];
    for i := 0 to |found|
      invariant |sections| == i
      invariant forall j :: 0 <= j < i ==> sections[j] == Metadata(found[j])
    {
      sections := sections + [Metadata(found[i])];
    }
    MetadataListing(chats.documents, userId, found, sections);
    r := UserChatList(userId, sections);
  }

  /** `delete_chat_section(user_id, chat_id)`: True when exactly one document was deleted, else 404. */
  method DeleteChatSection(chats: ChatsCollection, userId: string, chatId: string) returns (r: Result<bool>)
    requires chats.Valid()
    modifies chats
    ensures chats.Valid()
    ensures chats.documents == old(chats.documents) - {ChatKey(userId, chatId)}
    ensures r == if ChatKey(userId, chatId) in old(chats.documents) then Ok(true) else Err(NotFound(userId, chatId))
  {
    var deletedCount := chats.DeleteOne(userId, chatId);
    if deletedCount == 1 {
      r := Ok(true);
    } else {
      r := Err(NotFound(userId, chatId));
    }
  }
}
