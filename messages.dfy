/** The messages hook (src/hooks/useMessages.ts): the per-conversation message
    cache that the query and the live snapshot fill, `addMessage` with its two
    ordered writes, and the feedback update. */
module Messages {
  import opened Types
  import opened Text
  import opened Store

  const MissingIds := "Conversation ID or User ID is missing"
  const PreviewLength: nat := 100
  const SuggestionsPreview := "AI Suggestions"
  const NewMessagePreview := "New Message"

  /** The `lastMessageText` written to the parent conversation: the first 100
      characters of a non-empty text, otherwise a label that says whether the
      message carries suggestions (an empty list counts). */
  function LastMessageText(d: Draft): (t: string)
    ensures t != "" && |t| <= PreviewLength
    ensures d.text != "" ==> t <= d.text && |t| == Min(PreviewLength, |d.text|)
    ensures d.text == "" ==> (t == SuggestionsPreview <==> d.suggestions.Some?)
    ensures d.text == "" ==> t == SuggestionsPreview || t == NewMessagePreview
  {
    if d.text != "" then Prefix(d.text, PreviewLength)
    else if d.suggestions.Some? then SuggestionsPreview
    else NewMessagePreview
  }

  /** The stored document: the caller's fields plus the server timestamp and
      the id the database generated. */
  function Stored(id: string, d: Draft, timestamp: nat): Message {
    Message(id, d.text, d.sender, timestamp, d.feedback, d.suggestions)
  }

  /** The second write of `addMessage`: preview text and a fresh `updatedAt`. */
  function ParentPatch(d: Draft, now: nat): Patch {
    Patch(None, None, None, Some(now), Some(LastMessageText(d)))
  }

  /** After the parent update, the addressed conversation shows the new
      preview and timestamp, keeps its id, owner, summary and creation time,
      and every other conversation is untouched. */
  lemma ParentUpdateEffect(docs: seq<Conversation>, id: string, d: Draft, now: nat, i: nat)
    requires i < |docs|
    ensures var r := ApplyPatch(docs, id, ParentPatch(d, now));
      if docs[i].id == id then
        && r[i].lastMessageText == Some(LastMessageText(d)) && r[i].updatedAt == now
        && r[i].id == docs[i].id && r[i].userId == docs[i].userId
        && r[i].summary == docs[i].summary && r[i].createdAt == docs[i].createdAt
      else r[i] == docs[i]
  {
  }

  predicate HasMessage(ms: seq<Message>, messageId: string) {
    exists i | 0 <= i < |ms| :: ms[i].id == messageId
  }

  class MessageStore {
    const db: Database
    const currentUserId: Option<string>
    /** React Query's data under the key ["messages", conversationId]. */
    var cache: map<string, seq<Message>>

    ghost predicate Valid()
      reads this, db
    {
      db.Valid() && forall id | id in cache :: Chronological(cache[id])
    }

    constructor (db: Database, currentUserId: Option<string>)
      requires db.Valid()
      ensures Valid()
      ensures this.db == db && this.currentUserId == currentUserId && cache == map[]
    {
      this.db := db;
      this.currentUserId := currentUserId;
      cache := map[];
    }

    /** The list the query function returns and each snapshot delivers: the
        conversation's messages oldest first, or nothing without a
        conversation id or a user. */
    function QueryMessages(conversationId: Option<string>): (ms: seq<Message>)
      reads this, db
      requires Valid()
      ensures Chronological(ms)
      ensures !Truthy(conversationId) || !Truthy(currentUserId) ==> ms == []
      ensures Truthy(conversationId) && Truthy(currentUserId) ==>
        ms == MessagesOf(db.messages, conversationId.value)
    {
      if !Truthy(conversationId) || !Truthy(currentUserId) then []
      else MessagesOf(db.messages, conversationId.value)
    }

    /** A snapshot (or a finished fetch) replaces the cached list of that
        conversation wholesale. Without a conversation id or a user no
        subscription exists and nothing changes. */
    method ReceiveSnapshot(conversationId: Option<string>)
      requires Valid()
      modifies this`cache
      ensures Valid()
      ensures !Truthy(conversationId) || !Truthy(currentUserId) ==> cache == old(cache)
      ensures Truthy(conversationId) && Truthy(currentUserId) ==>
        cache == old(cache)[conversationId.value := QueryMessages(conversationId)]
    {
      if !Truthy(conversationId) || !Truthy(currentUserId) {
        return;
      }
      cache := cache[conversationId.value := QueryMessages(conversationId)];
    }

    /** `addMessage`: first the message write, then the parent update. The
        parent is touched only after the message write succeeded; a failing
        parent update leaves the message written but makes the call throw. */
    method AddMessage(conversationId: string, draft: Draft, newId: string,
                      messageWrite: bool, parentWrite: bool) returns (r: Result<string>)
      requires Valid()
      modifies db
      ensures Valid()
      ensures conversationId == "" || !Truthy(currentUserId) ==>
        r == Err(MissingIds) && unchanged(db)
      ensures conversationId != "" && Truthy(currentUserId) && !messageWrite ==>
        r == Err(WriteRejected) && unchanged(db)
      ensures conversationId != "" && Truthy(currentUserId) && messageWrite ==>
        var t := old(db.clock);
        var parentOk := parentWrite && HasId(old(db.conversations), conversationId);
        && db.messages == old(db.messages)[conversationId :=
             MessagesOf(old(db.messages), conversationId) + [Stored(newId, draft, t)]]
        && db.conversations == (if parentOk then ApplyPatch(old(db.conversations), conversationId, ParentPatch(draft, t + 1))
                                else old(db.conversations))
        && db.clock == (if parentOk then t + 2 else t + 1)
        && r == (if parentOk then Ok(newId) else Err(WriteRejected))
    {
      if conversationId == "" || !Truthy(currentUserId) {
        return Err(MissingIds);
      }
      if !messageWrite {
        return Err(WriteRejected);
      }
      var t := db.clock;
      ghost var conversations := db.conversations;
      db.AppendMessage(conversationId, Stored(newId, draft, t));
      ghost var appended := db.messages;
      assert db.conversations == conversations && db.clock == t + 1;
      if !parentWrite || !HasId(db.conversations, conversationId) {
        return Err(WriteRejected);
      }
      var patch := ParentPatch(draft, t + 1);
      db.UpdateConversation(conversationId, patch);
      assert db.conversations == ApplyPatch(conversations, conversationId, patch);
      assert db.messages == appended && db.clock == t + 2;
      r := Ok(newId);
    }

    /** `updateMessageFeedback`: rewrites only the feedback of the addressed
        message; a missing message (updateDoc's not-found) or a refused write
        changes nothing. The cache is left to the next snapshot. */
    method UpdateMessageFeedback(conversationId: string, messageId: string,
                                 feedback: Option<Feedback>, writeOk: bool) returns (r: Result<()>)
      requires Valid()
      modifies db
      ensures Valid()
      ensures conversationId == "" || !Truthy(currentUserId) ==>
        r == Err(MissingIds) && unchanged(db)
      ensures conversationId != "" && Truthy(currentUserId) ==>
        var ms := MessagesOf(old(db.messages), conversationId);
        if writeOk && HasMessage(ms, messageId) then
          r == Ok(()) && db.conversations == old(db.conversations) && db.clock == old(db.clock)
          && db.messages == old(db.messages)[conversationId := SetFeedback(ms, messageId, feedback)]
        else
          r == Err(WriteRejected) && unchanged(db)
    {
      if conversationId == "" || !Truthy(currentUserId) {
        return Err(MissingIds);
      }
      var ms := MessagesOf(db.messages, conversationId);
      if !writeOk || !HasMessage(ms, messageId) {
        return Err(WriteRejected);
      }
      db.SetMessageFeedback(conversationId, messageId, feedback);
      r := Ok(());
    }
  }
}
