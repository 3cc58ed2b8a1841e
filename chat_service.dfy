/**
 * app/services/chat_service.py: the later revision of the chat service. It reaches the
 * model through the helpers `send_chat_to_ollama` and `generate_chat_title`, and it
 * performs the same table operations as app/services/ollama_service.py.
 */
module ChatService {
  import opened Common
  import opened ChatStore
  import opened Gateway
  import Ids

  /** Chat id and title are present only for a signed-in user. */
  datatype ChatCompletionResponse = ChatCompletionResponse(chatId: Option<string>, title: Option<string>, response: string)
  datatype ChatRenameResponse = ChatRenameResponse(chatId: string, title: string, success: bool)
  datatype UserChatsCollection = UserChatsCollection(userId: string, chats: seq<ChatSection>)

  /**
   * `create_chat_completion(user_id, chat_id, messages, model)`. The clock reading used if
   * a new conversation is inserted is `now`; `freshId` is the id it is inserted under.
   */
  method CreateChatCompletion(chats: ChatsCollection, runtime: Runtime, userId: string, chatId: Option<string>,
                              messages: seq<Message>, model: string := DefaultModel, now: int)
    returns (r: Result<ChatCompletionResponse>, ghost freshId: string)
    requires chats.Valid()
    modifies chats, runtime
    ensures chats.Valid()
    ensures r.Err? ==> chats.documents == old(chats.documents)
    ensures |messages| == 0 ==> r == Err(IndexError) && runtime.calls == old(runtime.calls)
    ensures |messages| > 0 && Last(messages).role != UserRole ==>
      r == Err(LastMessageNotFromUser) && runtime.calls == old(runtime.calls)
    ensures |messages| > 0 && Last(messages).role == UserRole ==>
      var n := |old(runtime.calls)|;
      match SentReply(runtime.answer(n, SendChat(messages)))
      case Err(e) =>
        r == Err(e) && runtime.calls == old(runtime.calls) + [SendChat(messages)]
      case Ok(content) =>
        var working := WithReply(messages, content);
        if userId == "" then
          && r == Ok(ChatCompletionResponse(None, None, content))
          && runtime.calls == old(runtime.calls) + [SendChat(messages)]
          && chats.documents == old(chats.documents)
        else
          && r.Ok? && r.value.response == content && r.value.chatId.Some?
          && (Truthy(chatId) ==> r.value.chatId == chatId)
          && (!Truthy(chatId) ==> Ids.IsId(r.value.chatId.value, Ids.DefaultLength))
          && runtime.calls == old(runtime.calls) + [SendChat(messages), ChatTitle(working)]
          && r.value.title == GeneratedTitle(runtime.answer(n + 1, ChatTitle(working)))
          && chats.documents == Upsert(old(chats.documents), userId, r.value.chatId.value, model, r.value.title,
                                       working, now, freshId)
    ensures r.Ok? && r.value.chatId.Some? && ChatKey(userId, r.value.chatId.value) !in old(chats.documents) ==>
      Ids.IsId(freshId, Ids.DefaultLength)
  {
    freshId := "";
    if |messages| == 0 {
      return Err(IndexError), freshId;
    }
    if Last(messages).role != UserRole {
      return Err(LastMessageNotFromUser), freshId;
    }
    var sent := runtime.SendChatToOllama(messages);
    if sent.Err? {
      return Err(sent.error), freshId;
    }
    var working := WithReply(messages, sent.value);
    if userId != "" {
      var resolved := if Truthy(chatId) then chatId.value else "";
      if !Truthy(chatId) {
        resolved := Ids.GenerateId();
      }
      var title := runtime.GenerateChatTitle(working);
      freshId := SaveChatConversation(chats, working, userId, resolved, model, title, now);
      return Ok(ChatCompletionResponse(Some(resolved), title, sent.value)), freshId;
    }
    r := Ok(ChatCompletionResponse(None, None, sent.value));
  }

  /** `save_chat_conversation(messages_dict, user_id, chat_id, model, chat_title)`. */
  method SaveChatConversation(chats: ChatsCollection, messages: seq<Message>, userId: string, chatId: string,
                              model: string, title: Option<string> := None, now: int)
    returns (ghost freshId: string)
    requires chats.Valid()
    modifies chats
    ensures chats.Valid()
    ensures chats.documents == Upsert(old(chats.documents), userId, chatId, model, title, messages, now, freshId)
    ensures ChatKey(userId, chatId) !in old(chats.documents) ==> Ids.IsId(freshId, Ids.DefaultLength)
  {
    var found := chats.FindOne(userId, chatId);
    if found.Some? {
      chats.SetMessagesAndTitle(userId, chatId, messages, OrElse(title, found.value.title));
      freshId := "";
    } else {
      var id := Ids.GenerateId();
      chats.InsertOne(ChatSection(userId, id, OrElse(title, Untitled), now, model, messages));
      freshId := id;
    }
  }

  /** `rename_chat_conversation(user_id, chat_id, title)`. */
  method RenameChatConversation(chats: ChatsCollection, userId: string, chatId: string, title: string)
    returns (r: Result<ChatRenameResponse>)
    requires chats.Valid()
    modifies chats
    ensures chats.Valid()
    ensures var k := ChatKey(userId, chatId);
      if k in old(chats.documents) then
        r == Ok(ChatRenameResponse(chatId, title, true)) && chats.documents == Retitle(old(chats.documents), k, title)
      else
        r == Err(NotFound(userId, chatId)) && chats.documents == old(chats.documents)
  {
    var found := chats.FindOne(userId, chatId);
    if found.Some? {
      chats.SetTitle(userId, chatId, title);
      return Ok(ChatRenameResponse(chatId, title, true));
    }
    r := Err(NotFound(userId, chatId));
  }

  /** `get_user_chats_collection(user_id)`: the user's conversations, newest first, with their messages emptied. */
  method GetUserChatsCollection(chats: ChatsCollection, userId: string) returns (r: UserChatsCollection)
    requires chats.Valid()
    ensures r.userId == userId
    ensures Lists(chats.documents, userId, r.chats, true)
  {
    var found := chats.FindSortedByNewest(userId);
    var sections: seq<ChatSection> := [];
    for i := 0 to |found|
      invariant |sections| == i
      invariant forall j :: 0 <= j < i ==> sections[j] == Metadata(found[j])
    {
      sections := sections + [Metadata(found[i])];
    }
    MetadataListing(chats.documents, userId, found, sections);
    r := UserChatsCollection(userId, sections);
  }

  /** `get_chat_conversation(user_id, chat_id)`. */
  method GetChatConversation(chats: ChatsCollection, userId: string, chatId: string) returns (r: Result<ChatSection>)
    ensures r == Lookup(chats.documents, userId, chatId)
  {
    var found := chats.FindOne(userId, chatId);
    if found.Some? {
      return Ok(found.value);
    }
    r := Err(NotFound(userId, chatId));
  }

  /** `delete_chat_conversation(user_id, chat_id)`: True when exactly one document was deleted, else 404. */
  method DeleteChatConversation(chats: ChatsCollection, userId: string, chatId: string) returns (r: Result<bool>)
    requires chats.Valid()
    modifies chats
    ensures chats.Valid()
    ensures chats.documents == old(chats.documents) - {ChatKey(userId, chatId)}
    ensures r == if ChatKey(userId, chatId) in old(chats.documents) then Ok(true) else Err(NotFound(userId, chatId))
  {
    var result := chats.DeleteOne(userId, chatId);
    if result == 1 {
      return Ok(true);
    }
    r := Err(NotFound(userId, chatId));
  }
}
