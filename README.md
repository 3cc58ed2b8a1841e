# Chat history and authentication services of chatbot-be, in Dafny

This project models the service layer of a FastAPI backend. The backend sits in front of a
MongoDB store and a local Ollama model runtime. Four parts are modelled:

- **Chat store.** The `chats` collection is a table from (user id, chat id) to a conversation
  document {user id, chat id, title, creation time, model, messages}. Both chat services work
  on it: upsert, rename, get, delete, and a listing of one user's conversations. The listing
  is newest first and carries metadata only.
- **Completion orchestrators.** `chat_with_ollama` and `create_chat_completion` first check
  that the last message is the user's. They then ask the model for a reply and append it as
  exactly one assistant message. `chat_with_ollama` then computes a title for every
  caller, generates a missing chat id and saves the conversation only for a signed-in
  user, and returns `str(chat_id)` either way. `create_chat_completion` picks a chat id,
  computes a title and saves only for a signed-in user; an anonymous caller gets the reply
  alone.
- **Title rule.** `naming_chat_section` asks for a title only when the conversation ends with
  the assistant and has at most three messages. It strips double quotes from the answer, and
  a failed call gives no title.
- **Users and tokens.** Registration refuses a taken username and stores only the password
  hash. Login fails with 401 when the user is unknown or the password does not verify. An
  access token expires at the current time plus the given delta, or plus
  ACCESS_TOKEN_EXPIRE_MINUTES when no delta (or a zero delta) is given.

Files:

- `common.dfy` (shared values, Python truthiness)
- `ids.dfy` (`generate_id`)
- `chat_store.dfy` (the table, its operations as functions, the lemmas about them, and the
  collection class the services mutate)
- `gateway.dfy` (the model runtime as an oracle)
- `ollama_service.dfy`, `chat_service.dfy`, `auth_service.dfy` (one module per service file)

What the source changes in place is modelled as classes:

- `ChatsCollection.documents` is the chats table.
- `UsersCollection.documents` is the users collection, in natural order.
- `Runtime.calls` logs every model call. This makes "no model call happens" something a
  contract can state.

Each chat service method is proved against the pure table functions `Upsert`, `Retitle`,
`Lookup` and `Lists`, or against the map subtraction `old(documents) - {key}` for a delete.
The authentication operations are proved against `FindByUsername` and `CreateAccessToken`.
The properties of the services are proved as lemmas about those functions.

The outside world is handled like this:

- **Model runtime.** Its reply to the n-th call is an arbitrary function of n and the call.
  Every proof holds for every such function.
- **Clock.** The clock reading `now` is a parameter.
- **Random id.** The random draw of `generate_id` is an arbitrary choice.
- **Hashing.** bcrypt's hash and check are function parameters.
- **JWT.** A token is the symbolic value of its payload, key and algorithm.

Behaviour of the code worth noting:

- `chat_with_ollama` asks for a title even for an anonymous caller
  (app/services/ollama_service.py:47). The title call does not depend on the user id; the id
  generation (line 46) and the save (line 49) do.
- `naming_chat_section` asks for a title only for conversations of at most three messages:
  its `> 4` check is made after the title prompt has been appended
  (app/services/ollama_service.py:98-106).
- On insert, the save functions file the document under a freshly generated id
  (app/services/ollama_service.py:76, app/services/chat_service.py:45). The caller's chat id
  (or the id generated a moment earlier in the orchestrator) is discarded, so the id returned
  to the client can differ from the stored one. `CallerIdDiscardedOnInsert` shows one
  concrete case.
- When no user is given and the chat id is None, `chat_with_ollama` answers with the chat id
  `"None"`, because it returns `str(chat_id)` (app/services/ollama_service.py:59, `PyStr`).
- On an existing conversation, the update sets only the messages and the title
  (app/services/ollama_service.py:66-74), so the stored model and creation time stay even
  when the request names a different model.
- `create_chat_completion` sends the raw list to `send_chat_to_ollama(messages)` without the
  requested model (app/services/chat_service.py:23), so that model only reaches the save.
  In the model, the `SendChat` call carries no model.
- The defaults of the source carry over as Dafny default arguments: `model` is
  `DefaultModel` ("llama3"), `chat_title` is None, `expires_delta` is None, and the id length
  is 8.

## Model

| member | source | states |
|---|---|---|
| Ids.GenerateId | app/utils/utils.py:5-6 | the result has exactly `length` characters (none when `length` is negative), all ASCII letters or digits; with the default argument, `length` is 8 |
| Ids.AlphabetIsAsciiAlnum | app/utils/utils.py:6 | the alphabet has 62 pairwise distinct symbols, and a character is in it iff it is an ASCII letter or digit |
| Ids.AlphabetLiteral | app/utils/utils.py:6 | the alphabet is `ascii_letters + digits` spelled out, in that order |
| Common.WithReply | app/services/ollama_service.py:45 | appending the reply gives the input plus exactly one trailing assistant message holding the content |
| ChatStore.Lookup | app/services/ollama_service.py:152-160 | a get succeeds iff the key is stored and returns that document, filed under the requested ids; otherwise it is a 404 |
| ChatStore.Upsert | app/services/ollama_service.py:62-86 | the save of both services (also app/services/chat_service.py:36-55): on a stored key the key set stays and that document holds the new messages; on a missing key exactly the fresh key is added, holding the messages; every other document is unchanged |
| ChatStore.Retitle | app/services/ollama_service.py:124-127 | rename keeps the key set, gives the document the new title with its messages and ids kept, and leaves every other document unchanged |
| ChatStore.ChatsCollection.FindOne | app/services/ollama_service.py:63 | `find_one` on user id and chat id finds a document iff a get succeeds, and that document is the stored one, filed under the requested ids |
| Common.OrElse | app/services/ollama_service.py:71 | `chat_title if chat_title else fallback` (also `chat_title or ...` at app/services/chat_service.py:42,50): a truthy title wins, and None or "" gives the fallback |
| Common.PyStr | app/services/ollama_service.py:59 | `str(chat_id)`: a string is kept, and None becomes "None" |
| OllamaService.TitleCalls | app/services/ollama_service.py:109 | exactly one call to the default model, with the conversation plus the title prompt, when the last role is "assistant" and there are at most 3 messages; otherwise none |
| ChatStore.UpsertWellKeyed | app/services/ollama_service.py:62-86 | upsert files every document under its own user id and chat id |
| ChatStore.UpsertExisting | app/services/ollama_service.py:63-74 | upsert on an existing key keeps the key set and every other document; that document gets the new messages and the title `title or old title`, and keeps its model, ids and creation time |
| ChatStore.UpsertMissing | app/services/ollama_service.py:75-86 | upsert on a missing key adds exactly one document under the fresh id, titled "Untitled" unless a truthy title is given; other documents are untouched and the caller's id is not filed |
| ChatStore.UpsertTwiceOverwrites | app/services/chat_service.py:39-44 | saving twice under an existing key duplicates nothing, and the last messages win |
| ChatStore.CallerIdDiscardedOnInsert | app/services/ollama_service.py:76 | a concrete case: after inserting under the caller's id "abc", a get of "abc" is 404 and a get of the generated id returns the new document |
| ChatStore.RetitleOnlyChangesTitle | app/services/ollama_service.py:123-127 | rename keeps the key set and every other document, and changes only the title of the renamed one |
| ChatStore.RemoveExactlyOne | app/services/ollama_service.py:184-187 | deleting a present key removes exactly that one document and leaves the others |
| ChatStore.LookupAfterRetitleAndRemove | app/services/ollama_service.py:151-160 | a get after a rename returns the new title with the messages intact, and a get after a delete is 404 |
| ChatStore.SavedConversationIsListed | app/services/ollama_service.py:163-180 | after a new conversation is saved, a get by the fresh id returns its messages, and every listing of its owner holds it with empty messages |
| ChatStore.ListingLength | app/services/ollama_service.py:164-168 | a listing has exactly as many entries as the user owns conversations |
| ChatStore.ListingsAgree | app/services/ollama_service.py:165-167 | two listings of one user have the same length, the same keys, and the same creation time at every position, so they can differ only in the order of entries created at the same time |
| ChatStore.ArrangementsAgree | app/services/ollama_service.py:165-167 | two newest-first arrangements of the same documents have equal creation times position by position |
| ChatStore.MetadataListing | app/services/ollama_service.py:170-178 | clearing the messages of each entry of a full listing gives a metadata listing |
| ChatStore.NewestExists | app/services/ollama_service.py:165-167 | every non-empty set of documents has a newest one |
| ChatStore.SelectNewestStep | app/services/ollama_service.py:165-167 | taking a newest remaining document keeps a partial selection newest first and duplicate-free |
| ChatStore.SelectedAllIsListing | app/services/ollama_service.py:165-167 | a completed selection over a user's documents lists exactly that user's documents |
| ChatStore.ChatsCollection.FindSortedByNewest | app/services/ollama_service.py:164-168 | find by user id and sort by `created_at` descending: exactly the user's documents, each once, with `createdAt` non-increasing |
| ChatStore.ChatsCollection.SetMessagesAndTitle | app/services/ollama_service.py:66-74 | `update_one` with `$set` of messages and title changes only the matched document; no match changes nothing |
| ChatStore.ChatsCollection.SetTitle | app/services/ollama_service.py:124-127 | `update_one` with `$set` of the title is `Retitle` on a match and changes nothing otherwise |
| ChatStore.ChatsCollection.InsertOne | app/services/ollama_service.py:77-86 | `insert_one` files the document under its own key |
| ChatStore.ChatsCollection.DeleteOne | app/services/ollama_service.py:184 | `deleted_count` is 1 iff the key was present, and afterwards the key is absent |
| Gateway.Runtime.Chat | app/services/ollama_service.py:37-38 | one call is logged, and the result is the runtime's reply to it |
| Gateway.Runtime.SendChatToOllama | app/services/chat_service.py:23 | one call is logged; a reply gives its text, and a failure is raised |
| Gateway.Runtime.GenerateChatTitle | app/services/chat_service.py:29 | one call is logged; the result is the answer or None |
| OllamaService.StripQuotes | app/services/ollama_service.py:111 | the result contains no `"`, and holds every other character of the input exactly as often as the input (multiset equality with the quotes removed) |
| OllamaService.StripQuotesAppend | app/services/ollama_service.py:111 | stripping a concatenation is the concatenation of the stripped parts, so the other characters keep their order |
| OllamaService.StripQuotesKeepsQuoteFree | app/services/ollama_service.py:111 | a string without `"` is unchanged |
| OllamaService.StripQuotesIdempotent | app/services/ollama_service.py:111 | stripping twice is the same as stripping once |
| OllamaService.TitleRequest | app/services/ollama_service.py:94-106 | a title is requested iff the last role is "assistant" and there are at most 3 messages; the request is the conversation plus the title prompt |
| OllamaService.TitleFromReply | app/services/ollama_service.py:108-117 | an answer gives exactly its content with every `"` removed, and a failure gives None |
| OllamaService.TitleOutcome | app/services/ollama_service.py:94-117 | a title exists only when one was requested; when requested, the title is the stripped answer of the call to the default model with the conversation plus the prompt, and None iff that call failed |
| OllamaService.TitleRequestedForShortChats | app/services/ollama_service.py:45-47 | in `chat_with_ollama`, a title call happens iff the user's conversation had at most 2 messages |
| OllamaService.NamingChatSection | app/services/ollama_service.py:89-117 | makes exactly the title call the rule allows (or none), returns its quote-free outcome, and returns None on a failed call or a skipped rule |
| OllamaService.ChatWithOllama | app/services/ollama_service.py:20-59 | empty list: IndexError. Last role not "user": 400, with no model call and no write. A failed call: 503 and no write. Otherwise the reply is appended once; the chat id is generated only when it is falsy and a user is present, and otherwise is `str(chat_id)`; the title comes from the title rule; the list with the reply is upserted iff `user_id` is non-empty |
| OllamaService.SaveChatSection | app/services/ollama_service.py:62-86 | the table becomes `Upsert` of the old table, and a new document's id is a fresh 8-symbol id |
| OllamaService.RenameChatSection | app/services/ollama_service.py:120-133 | an existing key: success and `Retitle`. A missing key: 404, and the table is unchanged |
| OllamaService.GetChatSection | app/services/ollama_service.py:151-160 | the stored document, or 404 |
| OllamaService.GetUserChats | app/services/ollama_service.py:163-180 | exactly the caller's conversations, each once, newest first, with empty messages |
| OllamaService.DeleteChatSection | app/services/ollama_service.py:183-192 | True iff the key was present, else 404; afterwards exactly that key is gone |
| ChatService.CreateChatCompletion | app/services/chat_service.py:14-33 | empty list: IndexError. Last role not "user": 400, with no call and no write. Otherwise the helper's reply is appended once. Anonymous: only the reply text, one call, no write. Signed in: the chat id is kept if truthy and generated otherwise, a title is requested, the list is upserted, and the chat id and title are returned |
| ChatService.SaveChatConversation | app/services/chat_service.py:36-55 | the table becomes `Upsert` of the old table (title `chat_title or old title`, "Untitled" on insert), and a new document's id is fresh |
| ChatService.RenameChatConversation | app/services/chat_service.py:58-69 | an existing key: only its title changes. A missing key: 404, and the table is unchanged |
| ChatService.GetUserChatsCollection | app/services/chat_service.py:72-82 | exactly the caller's conversations, each once, newest first, with empty messages |
| ChatService.GetChatConversation | app/services/chat_service.py:85-92 | the stored document, or 404 |
| ChatService.DeleteChatConversation | app/services/chat_service.py:95-102 | True iff exactly one document was deleted, else 404 |
| AuthService.FindByUsername | app/services/auth_service.py:42 | the first document with the username, or none when no document has it |
| AuthService.NextObjectId | app/services/auth_service.py:35-37 | the inserted id differs from every existing id |
| AuthService.FindAfterAppend | app/services/auth_service.py:31-37 | appending a user leaves earlier finds unchanged, and a username unknown before is found at the new document |
| AuthService.UsersCollection.InsertOne | app/services/auth_service.py:35-37 | one document is appended under an unused id |
| AuthService.CreateAccessToken | app/services/auth_service.py:21-27 | the payload is `data` plus "exp"; "exp" is now plus the delta, or plus 30 minutes when the delta is missing or zero; signed with HS256 |
| AuthService.RegisterUser | app/services/auth_service.py:30-38 | a taken username: 400, and the collection is unchanged. Otherwise exactly one document is appended, holding `hash_password(password)` under a new id, and other users are untouched |
| AuthService.LoginUser | app/services/auth_service.py:41-47 | 401 iff the user is missing or the password does not verify; on success, the stored id and a token whose "user_id" is that id, expiring in 30 minutes |
| AuthService.RegisterThenLogin | app/services/auth_service.py:30-47 | after registering, a login with the same password returns the new user's id, whenever `verify_password` accepts the hash |
| AuthService.RegisterKeepsOtherLogins | app/services/auth_service.py:34-38 | registration does not change any other user's login outcome |
| AuthService.RegisterKeepsUsernamesUnique | app/services/auth_service.py:31-32 | the uniqueness check keeps usernames unique in the collection |

## Left out

- The Ollama runtime's `ollama.chat` is an oracle. `ollama.list` is not modelled, and with it
  `get_all_models`, `get_available_models` and `format_size` are not part of this model,
  because they only wrap the runtime's model list.
- `send_chat_to_ollama` and `generate_chat_title` are used by the chat service, but their code
  is not in app/services/ollama_service.py, from which app/services/chat_service.py:11 imports
  them. They are oracles: a reply or a raised failure, and a title or None.
- MongoDB: `_id` stringification and the `created_at` formatting with `strftime` are not
  modelled. The projection `{"messages": 0}` and the later `chat["messages"] = []` are
  modelled together, as one step that clears the messages. The time value is an abstract
  ordered integer.
- ChatStore.ChatsCollection.InsertOne: overwrites on a key collision. MongoDB would hold a
  second document with the same user id and chat id, but a table cannot. This can only
  happen when a random 8-symbol id collides with one the user already has.
- Concurrency: two writers racing on one conversation, and registrations racing on one
  username, are not modelled. Every operation is a single atomic step.
- bcrypt: salting is not modelled. The hash is a deterministic function parameter, and the
  check is a second, unrelated one, so a round trip is proved only under the assumption that
  `verify_password` accepts the hash.
- JWT: signing and decoding are not modelled. A token is the symbolic value of its payload,
  key and algorithm. The secret key is a parameter.
- `str(ObjectId)` is not modelled. The user id claim carries the ObjectId itself, and an
  ObjectId is a natural number allocated as one more than the largest in the collection. Only
  its uniqueness is relied on.
- AuthService.CreateAccessToken: counts time in whole seconds. `timedelta` has microsecond
  resolution.
- OllamaService.NamingChatSection: requires a non-empty list. The source raises IndexError on
  an empty one, and its only caller always passes a list that ends with the reply.
- Logging (`logging.error`, app/middlewares/logger.py), the FastAPI routers, the
  authentication middleware, configuration and packaging are plumbing or I/O.
- No service file modelled here streams replies.
- The older record shapes in app/models/chat.py and app/models/user.py are not used. The
  document shape is the one the services insert.
