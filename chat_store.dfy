/**
 * The `chats` collection that both chat services read and write: a table from
 * (user id, chat id) to one conversation document, the operations the services
 * perform on it, and what those operations do to the table.
 */
module ChatStore {
  import opened Common

  datatype ChatKey = ChatKey(userId: string, chatId: string)

  /** One conversation document (the shape inserted by the services). */
  datatype ChatSection = ChatSection(
    userId: string,
    chatId: string,
    title: string,
    createdAt: int,          // `get_current_time()` at insertion; an abstract ordered timestamp
    model: string,
    messages: seq<Message>)

  type Table = map<ChatKey, ChatSection>

  const Untitled: string := "Untitled"

  function KeyOf(s: ChatSection): ChatKey {
    ChatKey(s.userId, s.chatId)
  }

  /** Every document is filed under its own user id and chat id. */
  ghost predicate WellKeyed(t: Table) {
    forall k :: k in t ==> KeyOf(t[k]) == k
  }

  /** The 404 both services raise for a missing conversation. */
  function NotFound(userId: string, chatId: string): Error {
    HttpException(404, "Chat section '" + chatId + "' not found for user '" + userId + "'")
  }

  /** A document with its messages left out, as listings return it. */
  function Metadata(s: ChatSection): ChatSection {
    s.(messages := [])
  }

  // ---------------------------------------------------------------------------
  // The operations, on tables

  /** `find_one({"user_id": userId, "chat_id": chatId})` turned into a get: the document, or 404. */
  function Lookup(t: Table, userId: string, chatId: string): (r: Result<ChatSection>)
    ensures r.Ok? <==> ChatKey(userId, chatId) in t
    ensures r.Ok? ==> r.value == t[ChatKey(userId, chatId)]
    ensures r.Err? ==> r.error.HttpException? && r.error.status == 404
    ensures r.Ok? && WellKeyed(t) ==> r.value.userId == userId && r.value.chatId == chatId
  {
    if ChatKey(userId, chatId) in t then Ok(t[ChatKey(userId, chatId)]) else Err(NotFound(userId, chatId))
  }

  /**
   * Upsert by the save functions. An existing conversation gets the new messages and
   * keeps its title unless a truthy one is given; its model and creation time stay.
   * Otherwise one new document is inserted, filed under `freshId` (the id generated at
   * insertion), not under `chatId`, titled "Untitled" unless a truthy title is given.
   */
  function Upsert(t: Table, userId: string, chatId: string, model: string, title: Option<string>,
                  messages: seq<Message>, now: int, freshId: string): (r: Table)
    ensures ChatKey(userId, chatId) in t ==> r.Keys == t.Keys
    ensures ChatKey(userId, chatId) !in t ==> r.Keys == t.Keys + {ChatKey(userId, freshId)}
    ensures ChatKey(userId, chatId) in r ==> r[ChatKey(userId, chatId)].messages == messages
    ensures ChatKey(userId, chatId) !in t ==>
      r[ChatKey(userId, freshId)].messages == messages && KeyOf(r[ChatKey(userId, freshId)]) == ChatKey(userId, freshId)
    ensures forall k :: k in t && k != ChatKey(userId, chatId) && k != ChatKey(userId, freshId) ==> r[k] == t[k]
  {
    var k := ChatKey(userId, chatId);
    if k in t then
      t[k := t[k].(messages := messages, title := OrElse(title, t[k].title))]
    else
      t[ChatKey(userId, freshId) := ChatSection(userId, freshId, OrElse(title, Untitled), now, model, messages)]
  }

  /** Rename: `$set` of the title of an existing conversation. */
  function Retitle(t: Table, k: ChatKey, title: string): (r: Table)
    requires k in t
    ensures r.Keys == t.Keys
    ensures r[k].title == title && r[k].messages == t[k].messages && KeyOf(r[k]) == KeyOf(t[k])
    ensures forall k' :: k' in t && k' != k ==> r[k'] == t[k']
  {
    t[k := t[k].(title := title)]
  }

  /** The keys of the conversations `userId` owns. */
  function OwnedBy(t: Table, userId: string): (r: set<ChatKey>)
    ensures forall k :: k in r <==> k in t && k.userId == userId
  {
    set k | k in t.Keys && k.userId == userId
  }

  /**
   * `s` lists every conversation of `userId` exactly once, newest first: each entry is the
   * stored document (with its messages, or only its metadata when `metadataOnly`), every
   * owned key appears, no key appears twice, and `createdAt` never increases along `s`.
   */
  ghost predicate Lists(t: Table, userId: string, s: seq<ChatSection>, metadataOnly: bool) {
    && (forall i :: 0 <= i < |s| ==>
          s[i].userId == userId && KeyOf(s[i]) in t &&
          s[i] == (if metadataOnly then Metadata(t[KeyOf(s[i])]) else t[KeyOf(s[i])]))
    && (forall k :: k in OwnedBy(t, userId) ==> exists i :: 0 <= i < |s| && KeyOf(s[i]) == k)
    && (forall i, j :: 0 <= i < j < |s| ==> KeyOf(s[i]) != KeyOf(s[j]))
    && (forall i, j :: 0 <= i < j < |s| ==> s[i].createdAt >= s[j].createdAt)
  }

  // ---------------------------------------------------------------------------
  // What the operations do

  /** Upsert keeps every document filed under its own key. */
  lemma UpsertWellKeyed(t: Table, userId: string, chatId: string, model: string, title: Option<string>,
                        messages: seq<Message>, now: int, freshId: string)
    requires WellKeyed(t)
    ensures WellKeyed(Upsert(t, userId, chatId, model, title, messages, now, freshId))
  {
  }

  /**
   * Upsert on an existing conversation: the key set is unchanged, no other document
   * changes, and that document gets the new messages and the title `title or old title`,
   * keeping its model and creation time.
   */
  lemma UpsertExisting(t: Table, userId: string, chatId: string, model: string, title: Option<string>,
                       messages: seq<Message>, now: int, freshId: string)
    requires ChatKey(userId, chatId) in t
    ensures var r, k := Upsert(t, userId, chatId, model, title, messages, now, freshId), ChatKey(userId, chatId);
      && r.Keys == t.Keys
      && (forall k' :: k' in t && k' != k ==> r[k'] == t[k'])
      && r[k].messages == messages
      && r[k].title == (if Truthy(title) then title.value else t[k].title)
      && r[k].createdAt == t[k].createdAt && r[k].model == t[k].model
      && KeyOf(r[k]) == KeyOf(t[k])
  {
  }

  /**
   * Upsert on a missing conversation whose fresh id is not yet used by this user: exactly
   * one document is added, under the fresh id, and no other document changes. The
   * caller's `chatId` is not filed unless it happens to equal the fresh id.
   */
  lemma UpsertMissing(t: Table, userId: string, chatId: string, model: string, title: Option<string>,
                      messages: seq<Message>, now: int, freshId: string)
    requires ChatKey(userId, chatId) !in t && ChatKey(userId, freshId) !in t
    ensures var r, k := Upsert(t, userId, chatId, model, title, messages, now, freshId), ChatKey(userId, freshId);
      && r.Keys == t.Keys + {k}
      && |r| == |t| + 1
      && (forall k' :: k' in t ==> r[k'] == t[k'])
      && r[k] == ChatSection(userId, freshId, if Truthy(title) then title.value else Untitled, now, model, messages)
      && (freshId != chatId ==> ChatKey(userId, chatId) !in r)
  {
    var r := Upsert(t, userId, chatId, model, title, messages, now, freshId);
    assert r.Keys == t.Keys + {ChatKey(userId, freshId)};
  }

  /** Saving twice under the same existing key overwrites: no document is duplicated and the last messages win. */
  lemma UpsertTwiceOverwrites(t: Table, userId: string, chatId: string, model: string,
                              title1: Option<string>, messages1: seq<Message>,
                              title2: Option<string>, messages2: seq<Message>, now: int, freshId: string)
    requires ChatKey(userId, chatId) in t
    ensures var r := Upsert(Upsert(t, userId, chatId, model, title1, messages1, now, freshId),
                            userId, chatId, model, title2, messages2, now, freshId);
      r.Keys == t.Keys && r[ChatKey(userId, chatId)].messages == messages2
  {
    UpsertExisting(t, userId, chatId, model, title1, messages1, now, freshId);
  }

  /** Rename keeps the key set and changes the title of that one document and nothing else. */
  lemma RetitleOnlyChangesTitle(t: Table, k: ChatKey, title: string)
    requires k in t
    ensures var r := Retitle(t, k, title);
      && r.Keys == t.Keys
      && (forall k' :: k' in t && k' != k ==> r[k'] == t[k'])
      && r[k].title == title
      && r[k].(title := t[k].title) == t[k]
  {
  }

  /** Removing a present key removes exactly that one document. */
  lemma RemoveExactlyOne(t: Table, k: ChatKey)
    requires k in t
    ensures (t - {k}).Keys == t.Keys - {k}
    ensures |t - {k}| == |t| - 1
    ensures forall k' :: k' in t && k' != k ==> (t - {k})[k'] == t[k']
  {
  }

  /** Get after rename returns the renamed document with its messages intact; get after delete is 404. */
  lemma LookupAfterRetitleAndRemove(t: Table, userId: string, chatId: string, title: string)
    requires ChatKey(userId, chatId) in t
    ensures var r := Lookup(Retitle(t, ChatKey(userId, chatId), title), userId, chatId);
      r.Ok? && r.value.title == title && r.value.messages == t[ChatKey(userId, chatId)].messages
    ensures Lookup(t - {ChatKey(userId, chatId)}, userId, chatId) == Err(NotFound(userId, chatId))
  {
  }

  /**
   * After a new conversation is saved, a get with the fresh id returns the full
   * conversation and a listing of its owner holds its metadata with no messages,
   * while a get with the id the caller supplied (if it differs) is still 404.
   */
  lemma SavedConversationIsListed(t: Table, userId: string, chatId: string, model: string, title: Option<string>,
                                  messages: seq<Message>, now: int, freshId: string, listing: seq<ChatSection>)
    requires ChatKey(userId, chatId) !in t && ChatKey(userId, freshId) !in t
    requires Lists(Upsert(t, userId, chatId, model, title, messages, now, freshId), userId, listing, true)
    ensures var r := Lookup(Upsert(t, userId, chatId, model, title, messages, now, freshId), userId, freshId);
      r.Ok? && r.value.messages == messages
    ensures exists i :: 0 <= i < |listing| && listing[i].chatId == freshId && listing[i].messages == []
    ensures freshId != chatId ==>
      Lookup(Upsert(t, userId, chatId, model, title, messages, now, freshId), userId, chatId) == Err(NotFound(userId, chatId))
  {
    var r := Upsert(t, userId, chatId, model, title, messages, now, freshId);
    var k := ChatKey(userId, freshId);
    assert k in OwnedBy(r, userId);
    var i :| 0 <= i < |listing| && KeyOf(listing[i]) == k;
    assert listing[i].chatId == freshId && listing[i].messages == [];
  }

  /**
   * The id a caller supplies for a conversation that does not exist is discarded: with an
   * empty table, saving under "abc" files the document under the generated id, so the
   * caller's id still yields 404 while the generated one yields the conversation.
   */
  lemma CallerIdDiscardedOnInsert(userId: string, messages: seq<Message>, now: int)
    ensures var t := Upsert(map[], userId, "abc", "llama3", None, messages, now, "Xy12Zw90");
      && Lookup(t, userId, "abc") == Err(NotFound(userId, "abc"))
      && Lookup(t, userId, "Xy12Zw90") == Ok(ChatSection(userId, "Xy12Zw90", Untitled, now, "llama3", messages))
  {
    var t := Upsert(map[], userId, "abc", "llama3", None, messages, now, "Xy12Zw90");
    assert t.Keys == {ChatKey(userId, "Xy12Zw90")};
    assert ChatKey(userId, "abc") != ChatKey(userId, "Xy12Zw90");
  }

  /** The keys of the entries of `s`. */
  function KeySet(s: seq<ChatSection>): set<ChatKey> {
    if s == [] then {} else {KeyOf(s[0])} + KeySet(s[1..])
  }

  lemma {:induction false} KeySetDistinct(s: seq<ChatSection>)
    requires forall i, j :: 0 <= i < j < |s| ==> KeyOf(s[i]) != KeyOf(s[j])
    ensures |KeySet(s)| == |s|
    ensures forall k :: k in KeySet(s) <==> exists i :: 0 <= i < |s| && KeyOf(s[i]) == k
  {
    if s != [] {
      KeySetDistinct(s[1..]);
      assert KeyOf(s[0]) !in KeySet(s[1..]);
      forall k ensures k in KeySet(s) <==> exists i :: 0 <= i < |s| && KeyOf(s[i]) == k {
        if k in KeySet(s[1..]) {
          var i :| 0 <= i < |s[1..]| && KeyOf(s[1..][i]) == k;
          assert KeyOf(s[i + 1]) == k;
        }
        if exists i :: 0 <= i < |s| && KeyOf(s[i]) == k {
          var i :| 0 <= i < |s| && KeyOf(s[i]) == k;
          if i > 0 { assert KeyOf(s[1..][i - 1]) == k; }
        }
      }
    }
  }

  /** A listing has exactly as many entries as the user owns conversations. */
  lemma ListingLength(t: Table, userId: string, s: seq<ChatSection>, metadataOnly: bool)
    requires Lists(t, userId, s, metadataOnly)
    ensures |s| == |OwnedBy(t, userId)|
  {
    KeySetDistinct(s);
    assert KeySet(s) == OwnedBy(t, userId) by {
      forall k | k in KeySet(s) ensures k in OwnedBy(t, userId) {
        var i :| 0 <= i < |s| && KeyOf(s[i]) == k;
      }
    }
  }

  /** A sequence has at most as many distinct keys as entries. */
  lemma {:induction false} KeySetAtMost(s: seq<ChatSection>)
    ensures |KeySet(s)| <= |s|
  {
    if s != [] {
      KeySetAtMost(s[1..]);
    }
  }

  /** The keys of `s` are exactly the keys of its entries. */
  lemma {:induction false} KeySetMembers(s: seq<ChatSection>)
    ensures forall k :: k in KeySet(s) <==> exists i :: 0 <= i < |s| && KeyOf(s[i]) == k
  {
    if s != [] {
      KeySetMembers(s[1..]);
      forall k ensures k in KeySet(s) <==> exists i :: 0 <= i < |s| && KeyOf(s[i]) == k {
        if k in KeySet(s[1..]) {
          var i :| 0 <= i < |s[1..]| && KeyOf(s[1..][i]) == k;
          assert KeyOf(s[i + 1]) == k;
        }
        if exists i :: 0 <= i < |s| && KeyOf(s[i]) == k {
          var i :| 0 <= i < |s| && KeyOf(s[i]) == k;
          if i > 0 { assert KeyOf(s[1..][i - 1]) == k; }
        }
      }
    }
  }

  /** `s` arranges the documents of `owned` newest first, each once; the shape of a listing the sort relies on. */
  ghost predicate ArrangedNewestFirst(t: Table, owned: set<ChatKey>, s: seq<ChatSection>) {
    && owned <= t.Keys
    && (forall i :: 0 <= i < |s| ==> KeyOf(s[i]) in owned && s[i].createdAt == t[KeyOf(s[i])].createdAt)
    && (forall k :: k in owned ==> exists i :: 0 <= i < |s| && KeyOf(s[i]) == k)
    && (forall i, j :: 0 <= i < j < |s| ==> KeyOf(s[i]) != KeyOf(s[j]))
    && (forall i, j :: 0 <= i < j < |s| ==> s[i].createdAt >= s[j].createdAt)
  }

  lemma ListingIsArranged(t: Table, userId: string, s: seq<ChatSection>, metadataOnly: bool)
    requires Lists(t, userId, s, metadataOnly)
    ensures ArrangedNewestFirst(t, OwnedBy(t, userId), s)
  {
    forall i | 0 <= i < |s| ensures KeyOf(s[i]) in OwnedBy(t, userId) && s[i].createdAt == t[KeyOf(s[i])].createdAt {
    }
  }

  /**
   * Position `i` of one arrangement is no newer than position `i` of another: otherwise the
   * `i + 1` entries of `s1[..i + 1]`, all newer than `s2[i]`, would have to sit among the
   * `i` entries of `s2[..i]`.
   */
  lemma ArrangedPositionNoNewer(t: Table, owned: set<ChatKey>, s1: seq<ChatSection>, s2: seq<ChatSection>, i: int)
    requires ArrangedNewestFirst(t, owned, s1) && ArrangedNewestFirst(t, owned, s2)
    requires 0 <= i < |s1| && i < |s2|
    ensures s1[i].createdAt <= s2[i].createdAt
  {
    if s1[i].createdAt > s2[i].createdAt {
      var a, b := s1[..i + 1], s2[..i];
      assert forall x, y :: 0 <= x < y < |a| ==> KeyOf(a[x]) != KeyOf(a[y]);
      KeySetDistinct(a);
      KeySetAtMost(b);
      NewerPrefixInside(t, owned, s1, s2, i);
      SubsetNoLarger(KeySet(a), KeySet(b));
      assert false;
    }
  }

  lemma SubsetNoLarger(x: set<ChatKey>, y: set<ChatKey>)
    requires x <= y
    ensures |x| <= |y|
  {
    assert y == x + (y - x);
  }

  /** The keys of `s1[..i + 1]`, when `s1[i]` is newer than `s2[i]`, all occur in `s2[..i]`. */
  lemma NewerPrefixInside(t: Table, owned: set<ChatKey>, s1: seq<ChatSection>, s2: seq<ChatSection>, i: int)
    requires ArrangedNewestFirst(t, owned, s1) && ArrangedNewestFirst(t, owned, s2)
    requires 0 <= i < |s1| && i < |s2| && s1[i].createdAt > s2[i].createdAt
    ensures KeySet(s1[..i + 1]) <= KeySet(s2[..i])
  {
    var a, b := s1[..i + 1], s2[..i];
    KeySetMembers(a);
    KeySetMembers(b);
    forall k | k in KeySet(a) ensures k in KeySet(b) {
      var j :| 0 <= j < |a| && KeyOf(a[j]) == k;
      NewerKeyEarlier(t, owned, s1, s2, i, j);
      var m :| 0 <= m < i && KeyOf(s2[m]) == KeyOf(s1[j]);
      assert KeyOf(b[m]) == k;
    }
  }

  /** An entry of `s1` at or before `i`, when `s1[i]` is newer than `s2[i]`, occurs in `s2` before `i`. */
  lemma NewerKeyEarlier(t: Table, owned: set<ChatKey>, s1: seq<ChatSection>, s2: seq<ChatSection>, i: int, j: int)
    requires ArrangedNewestFirst(t, owned, s1) && ArrangedNewestFirst(t, owned, s2)
    requires 0 <= j <= i < |s1| && i < |s2| && s1[i].createdAt > s2[i].createdAt
    ensures exists m :: 0 <= m < i && KeyOf(s2[m]) == KeyOf(s1[j])
  {
    var k := KeyOf(s1[j]);
    assert s1[j].createdAt >= s1[i].createdAt;
    var m :| 0 <= m < |s2| && KeyOf(s2[m]) == k;
    assert s2[m].createdAt == s1[j].createdAt;
  }

  /** Two arrangements of the same documents agree on the creation time at every position. */
  lemma ArrangementsAgree(t: Table, owned: set<ChatKey>, s1: seq<ChatSection>, s2: seq<ChatSection>)
    requires ArrangedNewestFirst(t, owned, s1) && ArrangedNewestFirst(t, owned, s2) && |s1| == |s2|
    ensures forall i :: 0 <= i < |s1| ==> s1[i].createdAt == s2[i].createdAt
  {
    forall i | 0 <= i < |s1| ensures s1[i].createdAt == s2[i].createdAt {
      ArrangedPositionNoNewer(t, owned, s1, s2, i);
      ArrangedPositionNoNewer(t, owned, s2, s1, i);
    }
  }

  /**
   * Two listings of the same user hold the same conversations and the same creation time at
   * every position, so they differ at most in the order of entries created at the same time.
   */
  lemma ListingsAgree(t: Table, userId: string, s1: seq<ChatSection>, s2: seq<ChatSection>, metadataOnly: bool)
    requires Lists(t, userId, s1, metadataOnly) && Lists(t, userId, s2, metadataOnly)
    ensures |s1| == |s2|
    ensures KeySet(s1) == KeySet(s2)
    ensures forall i :: 0 <= i < |s1| ==> s1[i].createdAt == s2[i].createdAt
  {
    var owned := OwnedBy(t, userId);
    ListingIsArranged(t, userId, s1, metadataOnly);
    ListingIsArranged(t, userId, s2, metadataOnly);
    ArrangedCoversOwned(t, owned, s1);
    ArrangedCoversOwned(t, owned, s2);
    ArrangementsAgree(t, owned, s1, s2);
  }

  /** An arrangement holds exactly the keys of `owned`, one entry each. */
  lemma ArrangedCoversOwned(t: Table, owned: set<ChatKey>, s: seq<ChatSection>)
    requires ArrangedNewestFirst(t, owned, s)
    ensures KeySet(s) == owned && |s| == |owned|
  {
    KeySetDistinct(s);
  }

  /** Dropping the messages of every entry of a full listing gives the metadata listing. */
  lemma MetadataListing(t: Table, userId: string, docs: seq<ChatSection>, metadata: seq<ChatSection>)
    requires Lists(t, userId, docs, false)
    requires |metadata| == |docs| && forall i :: 0 <= i < |docs| ==> metadata[i] == Metadata(docs[i])
    ensures Lists(t, userId, metadata, true)
  {
    assert forall i :: 0 <= i < |docs| ==> KeyOf(metadata[i]) == KeyOf(docs[i]);
    forall k | k in OwnedBy(t, userId) ensures exists i :: 0 <= i < |metadata| && KeyOf(metadata[i]) == k {
      var i :| 0 <= i < |docs| && KeyOf(docs[i]) == k;
      assert KeyOf(metadata[i]) == k;
    }
  }

  /** A non-empty set of documents has a newest one. */
  lemma {:induction false} NewestExists(t: Table, s: set<ChatKey>)
    requires s != {} && s <= t.Keys
    ensures exists k :: k in s && forall k' :: k' in s ==> t[k'].createdAt <= t[k].createdAt
  {
    var x :| x in s;
    if s != {x} {
      NewestExists(t, s - {x});
      var y :| y in s - {x} && forall k' :: k' in s - {x} ==> t[k'].createdAt <= t[y].createdAt;
      if t[x].createdAt > t[y].createdAt {
        assert forall k' :: k' in s ==> t[k'].createdAt <= t[x].createdAt;
      } else {
        assert forall k' :: k' in s ==> t[k'].createdAt <= t[y].createdAt;
      }
    } else {
      assert forall k' :: k' in s ==> t[k'].createdAt <= t[x].createdAt;
    }
  }

  /**
   * Selection by newest first, part way: `docs` holds the documents of `owned - remaining`,
   * once each, newest first, and none of them is older than a document still remaining.
   */
  ghost predicate SelectedNewestFirst(t: Table, owned: set<ChatKey>, remaining: set<ChatKey>, docs: seq<ChatSection>) {
    && remaining <= owned <= t.Keys
    && (forall i :: 0 <= i < |docs| ==>
          KeyOf(docs[i]) in owned && KeyOf(docs[i]) !in remaining && docs[i] == t[KeyOf(docs[i])])
    && (forall k :: k in owned && k !in remaining ==> exists i :: 0 <= i < |docs| && KeyOf(docs[i]) == k)
    && (forall i, j :: 0 <= i < j < |docs| ==> KeyOf(docs[i]) != KeyOf(docs[j]))
    && (forall i, j :: 0 <= i < j < |docs| ==> docs[i].createdAt >= docs[j].createdAt)
    && (forall i, k :: 0 <= i < |docs| && k in remaining ==> docs[i].createdAt >= t[k].createdAt)
  }

  /** Taking a newest remaining document keeps the selection newest first. */
  lemma SelectNewestStep(t: Table, owned: set<ChatKey>, remaining: set<ChatKey>, docs: seq<ChatSection>, k: ChatKey)
    requires WellKeyed(t)
    requires SelectedNewestFirst(t, owned, remaining, docs)
    requires k in remaining && forall k' :: k' in remaining ==> t[k'].createdAt <= t[k].createdAt
    ensures SelectedNewestFirst(t, owned, remaining - {k}, docs + [t[k]])
  {
    var docs', remaining' := docs + [t[k]], remaining - {k};
    assert KeyOf(docs'[|docs|]) == k;
    forall k' | k' in owned && k' !in remaining' ensures exists i :: 0 <= i < |docs'| && KeyOf(docs'[i]) == k' {
      if k' != k {
        var i :| 0 <= i < |docs| && KeyOf(docs[i]) == k';
        assert KeyOf(docs'[i]) == k';
      }
    }
  }

  /** A finished selection over all of a user's documents is a listing of that user. */
  lemma SelectedAllIsListing(t: Table, userId: string, docs: seq<ChatSection>)
    requires SelectedNewestFirst(t, OwnedBy(t, userId), {}, docs)
    ensures Lists(t, userId, docs, false)
  {
    forall i | 0 <= i < |docs| ensures docs[i].userId == userId {
      assert KeyOf(docs[i]) in OwnedBy(t, userId);
    }
  }

  // ---------------------------------------------------------------------------
  // The collection the services mutate

  /** The MongoDB collection `chats_collection`, as a table of documents. */
  class ChatsCollection {
    var documents: Table

    ghost predicate Valid()
      reads this
    {
      WellKeyed(documents)
    }

    constructor ()
      ensures Valid() && documents == map[]
    {
      documents := map[];
    }

    /** `find_one({"user_id": userId, "chat_id": chatId})`. */
    function FindOne(userId: string, chatId: string): (r: Option<ChatSection>)
      reads this
      ensures r.Some? <==> Lookup(documents, userId, chatId).Ok?
      ensures r.Some? ==> r.value == documents[ChatKey(userId, chatId)]
      ensures r.Some? && Valid() ==> r.value.userId == userId && r.value.chatId == chatId
    {
      var k := ChatKey(userId, chatId);
      if k in documents then Some(documents[k]) else None
    }

    /** `update_one(filter, {"$set": {"messages": messages, "title": title}})` on a matched document; no match changes nothing. */
    method SetMessagesAndTitle(userId: string, chatId: string, messages: seq<Message>, title: string)
      requires Valid()
      modifies this
      ensures Valid()
      ensures var k := ChatKey(userId, chatId);
        documents == if k in old(documents)
                     then old(documents)[k := old(documents)[k].(messages := messages, title := title)]
                     else old(documents)
    {
      var k := ChatKey(userId, chatId);
      if k in documents {
        documents := documents[k := documents[k].(messages := messages, title := title)];
      }
    }

    /** `update_one(filter, {"$set": {"title": title}})`. */
    method SetTitle(userId: string, chatId: string, title: string)
      requires Valid()
      modifies this
      ensures Valid()
      ensures var k := ChatKey(userId, chatId);
        documents == if k in old(documents) then Retitle(old(documents), k, title) else old(documents)
    {
      var k := ChatKey(userId, chatId);
      if k in documents {
        documents := Retitle(documents, k, title);
      }
    }

    /** `insert_one(doc)`. */
    method InsertOne(doc: ChatSection)
      requires Valid()
      modifies this
      ensures Valid()
      ensures documents == old(documents)[KeyOf(doc) := doc]
    {
      documents := documents[KeyOf(doc) := doc];
    }

    /** `delete_one(filter).deleted_count`. */
    method DeleteOne(userId: string, chatId: string) returns (deletedCount: nat)
      requires Valid()
      modifies this
      ensures Valid()
      ensures deletedCount == if ChatKey(userId, chatId) in old(documents) then 1 else 0
      ensures documents == old(documents) - {ChatKey(userId, chatId)}
    {
      var k := ChatKey(userId, chatId);
      deletedCount := if k in documents then 1 else 0;
      documents := documents - {k};
    }

    /**
     * `find({"user_id": userId}).sort("created_at", -1)`: the user's documents, newest
     * first. Documents with equal creation times come in an unspecified order.
     */
    method FindSortedByNewest(userId: string) returns (docs: seq<ChatSection>)
      requires Valid()
      ensures Lists(documents, userId, docs, false)
    {
      var owned := OwnedBy(documents, userId);
      var remaining := owned;
      docs := [];
      while remaining != {}
        invariant SelectedNewestFirst(documents, owned, remaining, docs)
        decreases remaining
      {
        NewestExists(documents, remaining);
        var k :| k in remaining && forall k' :: k' in remaining ==> documents[k'].createdAt <= documents[k].createdAt;
        SelectNewestStep(documents, owned, remaining, docs, k);
        docs := docs + [documents[k]];
        remaining := remaining - {k};
      }
      SelectedAllIsListing(documents, userId, docs);
    }
  }
}
