/** The conversations hook (src/hooks/useConversations.ts): the list query,
    and the create, update and delete mutations with their cache updaters. */
module Conversations {
  import opened Types
  import opened Text
  import opened Store

  const NotAuthenticated := "User not authenticated"
  const NewConversation := "New Conversation"
  const ExcerptLength: nat := 50
  const Opening := "Regarding: \""
  const Closing := "...\""

  /** Most recently updated first: `orderBy("updatedAt", "desc")`. */
  predicate NewestFirst(cs: seq<Conversation>) {
    forall i, j | 0 <= i < j < |cs| :: cs[i].updatedAt >= cs[j].updatedAt
  }

  /** A conversation at least as recent as the head of a sorted list may go
      in front of it. */
  lemma PrependNewest(x: Conversation, cs: seq<Conversation>)
    requires NewestFirst(cs) && (cs == [] || x.updatedAt >= cs[0].updatedAt)
    ensures NewestFirst([x] + cs)
  {
    var r := [x] + cs;
    forall i, j | 0 <= i < j < |r| ensures r[i].updatedAt >= r[j].updatedAt {
      if i == 0 {
        assert r[j] == cs[j - 1];
      } else {
        assert r[i] == cs[i - 1] && r[j] == cs[j - 1];
      }
    }
  }

  /** Places `c` before the first entry it is at least as recent as. */
  function InsertNewestFirst(c: Conversation, cs: seq<Conversation>): (r: seq<Conversation>)
    requires NewestFirst(cs)
    ensures NewestFirst(r)
    ensures |r| == |cs| + 1 && (r[0] == c || (cs != [] && r[0] == cs[0]))
  {
    if cs == [] then [c]
    else if c.updatedAt >= cs[0].updatedAt then
      PrependNewest(c, cs);
      [c] + cs
    else
      var rest := InsertNewestFirst(c, cs[1..]);
      PrependNewest(cs[0], rest);
      [cs[0]] + rest
  }

  /** Inserting adds exactly that one conversation. */
  lemma {:induction false} InsertNewestFirstAddsOne(c: Conversation, cs: seq<Conversation>)
    requires NewestFirst(cs)
    ensures multiset(InsertNewestFirst(c, cs)) == multiset(cs) + multiset{c}
  {
    if cs != [] && c.updatedAt < cs[0].updatedAt {
      InsertNewestFirstAddsOne(c, cs[1..]);
      assert cs == [cs[0]] + cs[1..];
    }
  }

  /** The query's ordering: a permutation of its input, newest first. */
  function SortNewestFirst(cs: seq<Conversation>): (r: seq<Conversation>)
    ensures NewestFirst(r)
    ensures multiset(r) == multiset(cs)
  {
    if cs == [] then []
    else
      assert cs == [cs[0]] + cs[1..];
      InsertNewestFirstAddsOne(cs[0], SortNewestFirst(cs[1..]));
      InsertNewestFirst(cs[0], SortNewestFirst(cs[1..]))
  }

  /** The query's filter `where("userId", "==", userId)`, in document order. */
  function OwnedBy(cs: seq<Conversation>, userId: string): (r: seq<Conversation>)
    ensures forall c | c in r :: c.userId == userId
    ensures forall c :: multiset(r)[c] == (if c.userId == userId then multiset(cs)[c] else 0)
  {
    if cs == [] then []
    else
      assert cs == [cs[0]] + cs[1..];
      if cs[0].userId == userId then [cs[0]] + OwnedBy(cs[1..], userId)
      else OwnedBy(cs[1..], userId)
  }

  /** The conversations query: exactly the user's conversations, each as often
      as it is stored, most recently updated first; nothing without a user. */
  function ListConversations(docs: seq<Conversation>, currentUserId: Option<string>): (r: seq<Conversation>)
    ensures !Truthy(currentUserId) ==> r == []
    ensures Truthy(currentUserId) ==> NewestFirst(r)
    ensures Truthy(currentUserId) ==> forall c ::
      multiset(r)[c] == (if c.userId == currentUserId.value then multiset(docs)[c] else 0)
  {
    if !Truthy(currentUserId) then [] else SortNewestFirst(OwnedBy(docs, currentUserId.value))
  }

  /** The summary of a new conversation: the default when there is no initial
      message, else a quote of at most 50 characters that always ends in "...". */
  function Summary(initialMessage: string): (s: string)
    ensures s != "" && |s| <= |Opening| + ExcerptLength + |Closing|
    ensures initialMessage == "" <==> s == NewConversation
    ensures initialMessage != "" ==> Opening <= s && s[|s| - |Closing|..] == Closing
  {
    if initialMessage != "" then Opening + Prefix(initialMessage, ExcerptLength) + Closing
    else NewConversation
  }

  /** Reads the quoted excerpt back out of a summary. */
  function Excerpt(summary: string): string
    requires |summary| >= |Opening| + |Closing|
  {
    summary[|Opening|..|summary| - |Closing|]
  }

  /** The quote in a summary is the first 50 characters of the initial message. */
  lemma SummaryQuotesExcerpt(initialMessage: string)
    requires initialMessage != ""
    ensures |Summary(initialMessage)| >= |Opening| + |Closing|
    ensures Excerpt(Summary(initialMessage)) == Prefix(initialMessage, ExcerptLength)
  {
    var e := Prefix(initialMessage, ExcerptLength);
    assert Summary(initialMessage) == Opening + e + Closing;
    assert (Opening + e + Closing)[|Opening|..|Opening| + |e|] == e;
  }

  /** The document `create` writes. The stored preview is the initial message
      (possibly empty). */
  function Created(id: string, userId: string, initialMessage: string, now: nat): Conversation {
    Conversation(id, userId, Some(Summary(initialMessage)), now, now, Some(initialMessage))
  }

  /** The entry `create` puts in the cache before the refetch: it differs from
      the stored document in its client clock and in showing "New Conversation"
      as the preview of a conversation without an initial message. */
  function Optimistic(id: string, userId: string, initialMessage: string, now: nat): Conversation {
    Conversation(id, userId, Some(Summary(initialMessage)), now, now,
      Some(if initialMessage != "" then initialMessage else NewConversation))
  }

  /** The create updater: the new entry heads the list, the old entries follow
      in their order; a missing list becomes a one-element list. */
  function Prepend(cached: Option<seq<Conversation>>, c: Conversation): (r: seq<Conversation>)
    ensures |r| >= 1 && r[0] == c
    ensures r[1..] == (if cached.Some? then cached.value else [])
  {
    if cached.Some? then [c] + cached.value else [c]
  }

  /** The delete updater: the entries with that id disappear, the others keep
      their order; a missing list becomes the empty list. */
  function RemoveCached(cached: Option<seq<Conversation>>, id: string): (r: seq<Conversation>)
    ensures forall c :: c in r <==> cached.Some? && c in cached.value && c.id != id
    ensures cached.None? ==> r == []
  {
    if cached.Some? then WithoutId(cached.value, id) else []
  }

  /** The stored and the optimistic entry of a creation agree on everything but
      their timestamps and, for an empty initial message, the preview. */
  lemma OptimisticMatchesStored(id: string, userId: string, m: string, clientNow: nat, serverNow: nat)
    ensures var o := Optimistic(id, userId, m, clientNow);
      var s := Created(id, userId, m, serverNow);
      && o.id == s.id && o.userId == s.userId && o.summary == s.summary
      && (m != "" ==> o.lastMessageText == s.lastMessageText)
      && (m == "" ==> s.lastMessageText == Some("") && o.lastMessageText == Some(NewConversation))
  {
  }

  class ConversationStore {
    const db: Database
    const currentUserId: Option<string>
    /** React Query's data under ["conversations", currentUserId]; `None`
        until the first fetch. */
    var cache: Option<seq<Conversation>>

    ghost predicate Valid()
      reads this, db
    {
      db.Valid()
    }

    constructor (db: Database, currentUserId: Option<string>)
      requires db.Valid()
      ensures Valid()
      ensures this.db == db && this.currentUserId == currentUserId && cache == None
    {
      this.db := db;
      this.currentUserId := currentUserId;
      cache := None;
    }

    /** A (re)fetch of the list query; disabled without a user. */
    method Refetch()
      requires Valid()
      modifies this`cache
      ensures Valid()
      ensures cache == (if Truthy(currentUserId) then Some(ListConversations(db.conversations, currentUserId))
                        else old(cache))
    {
      if Truthy(currentUserId) {
        cache := Some(ListConversations(db.conversations, currentUserId));
      }
    }

    /** `createConversation`: writes the document, then (on success only)
        prepends the optimistic entry. */
    method Create(initialMessage: string, newId: string, clientNow: nat, writeOk: bool)
      returns (r: Result<string>)
      requires Valid()
      modifies this`cache, db
      ensures Valid()
      ensures !Truthy(currentUserId) ==> r == Err(NotAuthenticated) && cache == old(cache) && unchanged(db)
      ensures Truthy(currentUserId) && !writeOk ==> r == Err(WriteRejected) && cache == old(cache) && unchanged(db)
      ensures Truthy(currentUserId) && writeOk ==>
        && r == Ok(newId)
        && db.conversations == old(db.conversations)
             + [Created(newId, currentUserId.value, initialMessage, old(db.clock))]
        && db.messages == old(db.messages) && db.clock == old(db.clock) + 1
        && cache == Some(Prepend(old(cache), Optimistic(newId, currentUserId.value, initialMessage, clientNow)))
    {
      if !Truthy(currentUserId) {
        return Err(NotAuthenticated);
      }
      if !writeOk {
        return Err(WriteRejected);
      }
      db.InsertConversation(Created(newId, currentUserId.value, initialMessage, db.clock));
      cache := Some(Prepend(cache, Optimistic(newId, currentUserId.value, initialMessage, clientNow)));
      r := Ok(newId);
    }

    /** `updateConversation`: every supplied field but the id is written and
        `updatedAt` is always the server time, whatever the caller supplied.
        The cache waits for the refetch the success handler requests. */
    method Update(id: string, fields: Patch, writeOk: bool) returns (r: Result<()>)
      requires Valid()
      modifies db
      ensures Valid()
      ensures !Truthy(currentUserId) ==> r == Err(NotAuthenticated) && unchanged(db)
      ensures Truthy(currentUserId) && !(writeOk && HasId(old(db.conversations), id)) ==>
        r == Err(WriteRejected) && unchanged(db)
      ensures Truthy(currentUserId) && writeOk && HasId(old(db.conversations), id) ==>
        && r == Ok(())
        && db.conversations == ApplyPatch(old(db.conversations), id, fields.(updatedAt := Some(old(db.clock))))
        && db.messages == old(db.messages) && db.clock == old(db.clock) + 1
    {
      if !Truthy(currentUserId) {
        return Err(NotAuthenticated);
      }
      if !writeOk || !HasId(db.conversations, id) {
        return Err(WriteRejected);
      }
      db.UpdateConversation(id, fields.(updatedAt := Some(db.clock)));
      r := Ok(());
    }

    /** `deleteConversation`: no user check; on success the document goes and
        the cache drops that id. Messages are not deleted. */
    method Delete(id: string, writeOk: bool) returns (r: Result<()>)
      requires Valid()
      modifies this`cache, db
      ensures Valid()
      ensures !writeOk ==> r == Err(WriteRejected) && cache == old(cache) && unchanged(db)
      ensures writeOk ==>
        && r == Ok(())
        && db.conversations == WithoutId(old(db.conversations), id)
        && db.messages == old(db.messages) && db.clock == old(db.clock)
        && cache == Some(RemoveCached(old(cache), id))
    {
      if !writeOk {
        return Err(WriteRejected);
      }
      db.DeleteConversation(id);
      cache := Some(RemoveCached(cache, id));
      r := Ok(());
    }
  }

  /** After an update, the addressed conversation carries every supplied field,
      keeps every field not supplied, and its `updatedAt` is the write time even
      when the caller supplied one. */
  lemma UpdateMergesFields(docs: seq<Conversation>, id: string, fields: Patch, now: nat, i: nat)
    requires i < |docs| && docs[i].id == id
    ensures var c := ApplyPatch(docs, id, fields.(updatedAt := Some(now)))[i];
      && c.id == id && c.updatedAt == now
      && c.userId == (if fields.userId.Some? then fields.userId.value else docs[i].userId)
      && c.summary == (if fields.summary.Some? then fields.summary else docs[i].summary)
      && c.createdAt == (if fields.createdAt.Some? then fields.createdAt.value else docs[i].createdAt)
      && c.lastMessageText == (if fields.lastMessageText.Some? then fields.lastMessageText else docs[i].lastMessageText)
  {
  }
}
