/** The document database both hooks talk to, reduced to what they use: the
    `conversations` collection, one `messages` sub-collection per conversation,
    a server clock that stamps every write, and the field merge of `updateDoc`. */
module Store {
  import opened Types

  /** Messages listed oldest first, the order of `orderBy("timestamp", "asc")`. */
  predicate Chronological(ms: seq<Message>) {
    forall i, j | 0 <= i < j < |ms| :: ms[i].timestamp <= ms[j].timestamp
  }

  /** The fields an `updateDoc` call on a conversation supplies; `None` means
      the field is not in the update object and keeps its stored value. */
  datatype Patch = Patch(
    userId: Option<string>,
    summary: Option<string>,
    createdAt: Option<nat>,
    updatedAt: Option<nat>,
    lastMessageText: Option<string>)

  function Pick<T>(supplied: Option<T>, stored: T): T {
    if supplied.Some? then supplied.value else stored
  }

  function PickOptional<T>(supplied: Option<T>, stored: Option<T>): Option<T> {
    if supplied.Some? then supplied else stored
  }

  /** `updateDoc` on one document: supplied fields overwrite, the rest stay. */
  function Merge(c: Conversation, p: Patch): Conversation {
    Conversation(
      c.id,
      Pick(p.userId, c.userId),
      PickOptional(p.summary, c.summary),
      Pick(p.createdAt, c.createdAt),
      Pick(p.updatedAt, c.updatedAt),
      PickOptional(p.lastMessageText, c.lastMessageText))
  }

  /** Whether a document with this id exists (`updateDoc` fails otherwise). */
  predicate HasId(docs: seq<Conversation>, id: string) {
    docs != [] && (docs[0].id == id || HasId(docs[1..], id))
  }

  /** `HasId` is the existence of a document with that id. */
  lemma {:induction false} HasIdIffIndex(docs: seq<Conversation>, id: string)
    ensures HasId(docs, id) <==> exists i | 0 <= i < |docs| :: docs[i].id == id
  {
    if docs != [] {
      HasIdIffIndex(docs[1..], id);
      if HasId(docs[1..], id) {
        var i :| 0 <= i < |docs[1..]| && docs[1..][i].id == id;
        assert docs[i + 1].id == id;
      }
      if exists i | 0 <= i < |docs| :: docs[i].id == id {
        var i :| 0 <= i < |docs| && docs[i].id == id;
        if i > 0 {
          assert docs[1..][i - 1].id == id;
        }
      }
    }
  }

  /** `updateDoc` addressed at `id`: the document with that id is merged with
      the patch, every other document is untouched, and the order is kept. */
  function ApplyPatch(docs: seq<Conversation>, id: string, p: Patch): (r: seq<Conversation>)
    ensures |r| == |docs|
    ensures forall i | 0 <= i < |docs| ::
      r[i] == (if docs[i].id == id then Merge(docs[i], p) else docs[i])
  {
    if docs == [] then []
    else [if docs[0].id == id then Merge(docs[0], p) else docs[0]] + ApplyPatch(docs[1..], id, p)
  }

  /** `list.filter(c => c.id !== id)`: drops exactly the entries with that id. */
  function WithoutId(docs: seq<Conversation>, id: string): (r: seq<Conversation>)
    ensures |r| <= |docs|
    ensures forall c :: c in r <==> c in docs && c.id != id
  {
    if docs == [] then []
    else if docs[0].id == id then WithoutId(docs[1..], id)
    else [docs[0]] + WithoutId(docs[1..], id)
  }

  /** Filtering distributes over concatenation, so the entries that remain keep
      their relative order. */
  lemma {:induction false} WithoutIdKeepsOrder(a: seq<Conversation>, b: seq<Conversation>, id: string)
    ensures WithoutId(a + b, id) == WithoutId(a, id) + WithoutId(b, id)
  {
    if a != [] {
      assert (a + b)[1..] == a[1..] + b;
      WithoutIdKeepsOrder(a[1..], b, id);
    } else {
      assert a + b == b;
    }
  }

  /** The message of a write the database refused. */
  const WriteRejected := "write rejected by the database"

  function MessagesOf(m: map<string, seq<Message>>, id: string): seq<Message> {
    if id in m then m[id] else []
  }

  /** `updateDoc(messageRef, { feedback })` on every message with that id:
      only the `feedback` field changes, and `None` (`null`) clears it. */
  function SetFeedback(ms: seq<Message>, messageId: string, feedback: Option<Feedback>): (r: seq<Message>)
    ensures |r| == |ms|
    ensures forall i | 0 <= i < |ms| ::
      r[i] == (if ms[i].id == messageId then ms[i].(feedback := feedback) else ms[i])
  {
    if ms == [] then []
    else
      var head := if ms[0].id == messageId then ms[0].(feedback := feedback) else ms[0];
      [head] + SetFeedback(ms[1..], messageId, feedback)
  }

  class Database {
    var conversations: seq<Conversation>
    var messages: map<string, seq<Message>>
    /** The value the next `serverTimestamp()` resolves to. */
    var clock: nat

    /** Every message list is in timestamp order and older than the clock. */
    ghost predicate Valid()
      reads this
    {
      && (forall id | id in messages :: Chronological(messages[id]))
      && (forall id, k | id in messages && 0 <= k < |messages[id]| :: messages[id][k].timestamp < clock)
    }

    constructor ()
      ensures Valid()
      ensures conversations == [] && messages == map[] && clock == 0
    {
      conversations := [];
      messages := map[];
      clock := 0;
    }

    /** `addDoc` into a conversation's `messages` sub-collection; the message
        carries the current server timestamp. */
    method AppendMessage(conversationId: string, m: Message)
      requires Valid() && m.timestamp == clock
      modifies this
      ensures Valid()
      ensures messages == old(messages)[conversationId := MessagesOf(old(messages), conversationId) + [m]]
      ensures conversations == old(conversations) && clock == old(clock) + 1
    {
      var list := MessagesOf(messages, conversationId);
      assert forall k | 0 <= k < |list| :: list[k].timestamp < clock;
      messages := messages[conversationId := list + [m]];
      clock := clock + 1;
    }

    /** `addDoc` into `conversations`. */
    method InsertConversation(c: Conversation)
      requires Valid() && c.updatedAt == clock
      modifies this
      ensures Valid()
      ensures conversations == old(conversations) + [c]
      ensures messages == old(messages) && clock == old(clock) + 1
    {
      conversations := conversations + [c];
      clock := clock + 1;
    }

    /** `deleteDoc` on a conversation. Its `messages` sub-collection stays. */
    method DeleteConversation(id: string)
      requires Valid()
      modifies this
      ensures Valid()
      ensures conversations == WithoutId(old(conversations), id)
      ensures messages == old(messages) && clock == old(clock)
    {
      conversations := WithoutId(conversations, id);
    }

    /** `updateDoc(messageRef, { feedback })`: no server timestamp is
        written, so the clock does not move. */
    method SetMessageFeedback(conversationId: string, messageId: string, feedback: Option<Feedback>)
      requires Valid()
      modifies this
      ensures Valid()
      ensures messages == old(messages)[conversationId :=
        SetFeedback(MessagesOf(old(messages), conversationId), messageId, feedback)]
      ensures conversations == old(conversations) && clock == old(clock)
    {
      var list := MessagesOf(messages, conversationId);
      var updated := SetFeedback(list, messageId, feedback);
      assert forall k | 0 <= k < |list| :: list[k].timestamp < clock;
      messages := messages[conversationId := updated];
    }

    /** `updateDoc` on the conversation with that id; the write takes one tick. */
    method UpdateConversation(id: string, p: Patch)
      requires Valid()
      modifies this
      ensures Valid()
      ensures conversations == ApplyPatch(old(conversations), id, p)
      ensures messages == old(messages) && clock == old(clock) + 1
    {
      conversations := ApplyPatch(conversations, id, p);
      clock := clock + 1;
    }
  }
}
