/** One row of the sidebar (src/components/sidebar/ConversationItem.tsx): the
    text it shows, whether it is the selected row, selecting it, and deleting
    it after confirmation. */
module ConversationItem {
  import opened Types
  import opened Store
  import Conversations
  import ChatView

  /** The row's label: the summary if it is non-empty, else the last message
      preview if non-empty, else "New Conversation". */
  function DisplayText(c: Conversation): (t: string)
    ensures t != ""
    ensures t == Conversations.NewConversation || Some(t) == c.summary || Some(t) == c.lastMessageText
    ensures Truthy(c.summary) ==> t == c.summary.value
    ensures !Truthy(c.summary) && Truthy(c.lastMessageText) ==> t == c.lastMessageText.value
    ensures !Truthy(c.summary) && !Truthy(c.lastMessageText) ==> t == Conversations.NewConversation
  {
    if Truthy(c.summary) then c.summary.value
    else if Truthy(c.lastMessageText) then c.lastMessageText.value
    else Conversations.NewConversation
  }

  /** A freshly created conversation shows its summary, both as stored and in
      the optimistic cache entry, so the row does not change when the refetch
      replaces the entry. */
  lemma CreatedRowShowsSummary(id: string, userId: string, m: string, clientNow: nat, serverNow: nat)
    ensures DisplayText(Conversations.Created(id, userId, m, serverNow)) == Conversations.Summary(m)
    ensures DisplayText(Conversations.Optimistic(id, userId, m, clientNow)) == Conversations.Summary(m)
    ensures m == "" ==> DisplayText(Conversations.Created(id, userId, m, serverNow)) == Conversations.NewConversation
  {
  }

  /** Once the summarizer's update lands, the row shows the new summary. */
  lemma SummarizedRowShowsSummary(docs: seq<Conversation>, id: string, summary: string, preview: string, now: nat, i: nat)
    requires i < |docs| && docs[i].id == id && summary != ""
    ensures DisplayText(ApplyPatch(docs, id, Patch(None, Some(summary), None, Some(now), Some(preview)))[i]) == summary
  {
  }

  /** `selectedConversationId === conversation.id`; no id equals "nothing
      selected". */
  predicate IsActive(selected: Option<string>, c: Conversation) {
    selected == Some(c.id)
  }

  /** With nothing selected no row is active; once one row is active, the
      active rows are exactly those with its id. */
  lemma IsActiveSelectsById(selected: Option<string>, c: Conversation, d: Conversation)
    ensures selected == None ==> !IsActive(selected, c)
    ensures IsActive(selected, c) ==> (IsActive(selected, d) <==> d.id == c.id)
  {
  }

  /** Clicking the row selects its conversation. */
  method HandleClick(session: ChatView.ChatSession, c: Conversation)
    modifies session`selectedConversationId
    ensures session.selectedConversationId == Some(c.id)
    ensures IsActive(session.selectedConversationId, c)
  {
    session.selectedConversationId := Some(c.id);
  }

  /** The delete icon: nothing without confirmation. Otherwise the
      conversation is deleted, and a successful delete of the selected row
      clears the selection; a failed delete is only logged. */
  method HandleDelete(session: ChatView.ChatSession, store: Conversations.ConversationStore,
                      c: Conversation, confirmed: bool, writeOk: bool)
    requires store.Valid()
    modifies session`selectedConversationId, store`cache, store.db
    ensures store.Valid()
    ensures !confirmed ==>
      && session.selectedConversationId == old(session.selectedConversationId)
      && store.cache == old(store.cache) && unchanged(store.db)
    ensures confirmed && !writeOk ==>
      && session.selectedConversationId == old(session.selectedConversationId)
      && store.cache == old(store.cache) && unchanged(store.db)
    ensures confirmed && writeOk ==>
      && store.db.conversations == WithoutId(old(store.db.conversations), c.id)
      && store.db.messages == old(store.db.messages)
      && store.cache == Some(Conversations.RemoveCached(old(store.cache), c.id))
      && session.selectedConversationId ==
           (if IsActive(old(session.selectedConversationId), c) then None else old(session.selectedConversationId))
  {
    var isActive := IsActive(session.selectedConversationId, c);
    if !confirmed {
      return;
    }
    var r := store.Delete(c.id, writeOk);
    if r.Ok? && isActive {
      session.selectedConversationId := None;
    }
  }
}
