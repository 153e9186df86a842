# Chat core, modelled in Dafny

This project models the core of a chat application built on a document
database and a generated-reply flow. The modelled parts are:

- **The chat turn** of the chat view (`handleSendMessage`, `handleSuggestionClick`).
  It writes the user message, calls the reply flow racing a timer, writes the
  reply or a fallback text, and starts the background summarizer.
- **The messages hook.** Its query and live snapshot fill a per-conversation
  cache. `addMessage` makes two ordered writes. It also updates message
  feedback.
- **The conversations hook.** Its list query is filtered by user and sorted
  newest first. It has create, update and delete mutations, each with its
  cache updater.
- **The reply flow** `generateAiResponse`. It never rejects and never returns
  a blank text.
- **The sidebar row** (`ConversationItem`) and **the message box** (`ChatInput`).
- **The seed importer's** per-document transform and its write loop.

Layout: one module per source file. `Types` holds the records of
`src/types/index.ts`; `Text` holds `trim`, prefixes, join and split. `Store`
is the database both hooks talk to: a class with the `conversations` list,
one message list per conversation, and a server clock that stamps writes.

The hooks and the chat view are classes whose methods update their fields.
Every awaited call's outcome (write accepted or refused, race resolved or
rejected, user confirmation) is a parameter. The chat view records what it
asks of the outside world in an event log. It models the abort controller as
a token, and the `aborted` set holds the tokens whose controllers were aborted.

## Model

| member | source | states |
|---|---|---|
| ChatView.ChatSession.SendMessage | src/components/chat/ChatView.tsx:44-81 | Nothing happens without a selected conversation or for a text `trim` empties. Otherwise it raises the flag, aborts the previous controller, installs a new one, writes the user message, and then either calls the reply flow with the history or writes the error message and clears flag and ref. |
| ChatView.ChatSession.HandleSuggestionClick | src/components/chat/ChatView.tsx:171-173 | The suggestion text goes through the same turn, with no responding-flag check, so it can supersede a turn in flight. |
| ChatView.ChatSession.FinishTurn | src/components/chat/ChatView.tsx:83-167 | An aborted turn whose race resolved writes nothing. Otherwise it writes the classified AI message; after a failed write it adds the error message, and after a written reply it calls the summarizer. Every path leaves the flag false and the ref empty. |
| ChatView.ChatSession.FinishSummary | src/components/chat/ChatView.tsx:144-154 | A non-empty summary updates the conversation with that summary and the reply's first 100 characters; anything else changes nothing. |
| ChatView.ChatSession.constructor | src/components/chat/ChatView.tsx:44-52 | Starts with nothing selected, the flag down, the ref empty and no aborted controller. |
| ChatView.HistoryLines | src/components/chat/ChatView.tsx:72-76 | One `Label: text` line per message, in order. |
| ChatView.Recent | src/components/chat/ChatView.tsx:70-72 | The last ten messages, or all of them when there are fewer: a suffix of length min(10, n). |
| ChatView.PromptHistoryEndsWithUserLine | src/components/chat/ChatView.tsx:69-76 | The prompt history is the recent lines joined by newlines, followed by `User: ` and the message being sent. |
| ChatView.PromptHistoryLines | src/components/chat/ChatView.tsx:69-76 | When no text contains a newline, the history splits back into exactly the recent lines plus the user line, at most eleven lines. |
| ChatView.LineHasNoNewline | src/components/chat/ChatView.tsx:75 | A labelled line of a text without newlines has no newline. |
| ChatView.SummaryHistoryEndsWithTurn | src/components/chat/ChatView.tsx:133-142 | The summarizer history is every cached message's line, then the user's line and the reply's line. |
| ChatView.Classify | src/components/chat/ChatView.tsx:83-125 | The reply branch is taken exactly for a resolved race with a non-empty text, which it carries verbatim. An empty or missing text gives the empty-response branch. The timer's rejection message is the only way to the timeout branch. |
| ChatView.AiText | src/components/chat/ChatView.tsx:95-131 | The AI message text is the reply verbatim, or the fixed timeout, error or empty-reply text, which is never empty. |
| ChatView.GeneratedReplyIsAppendedVerbatim | src/components/chat/ChatView.tsx:116-131 | Whatever the reply flow resolves with takes the reply branch and is written verbatim; the empty-response branch is unreachable from it. |
| ChatView.UserMessageFirst | src/components/chat/ChatView.tsx:62-81 | The user message is written first. The reply flow is called exactly when that write succeeded; otherwise the next event is the error message. |
| ChatView.AiMessagesConcat | src/components/chat/ChatView.tsx:62-164 | The count of stored AI messages adds up over concatenated event logs. |
| ChatView.AiMessagesAtStart | src/components/chat/ChatView.tsx:62-67 | Before the race a turn stores no AI message if the user message went through, else at most the error message. |
| ChatView.AiMessagesAtSettle | src/components/chat/ChatView.tsx:91-164 | After the race an aborted turn with a resolved race stores nothing; any other turn stores its reply or fallback if that write landed, plus the error message if that call rejected and the error write landed. Two AI messages happen only when the first was written but its parent update failed. |
| ChatView.AtMostOneAiMessagePerTurn | src/components/chat/ChatView.tsx:62-164 | A turn whose user message went through stores at most one AI message, unless its AI message landed with a failing parent update. |
| ChatView.SummaryOnlyAfterReply | src/components/chat/ChatView.tsx:127-154 | The summarizer is called only as the second event after a reply was written, with the history ending in that reply, and the summary request carries that reply. |
| ChatView.RejectedRaceAlwaysAnswers | src/components/chat/ChatView.tsx:91-113 | A rejected race writes its fallback even for a superseded turn: the timeout text for the timer's rejection, the error text otherwise, always to the turn's own conversation. |
| ChatView.SupersededTurnClearsRef | src/components/chat/ChatView.tsx:47-52 | A superseded turn's `finally` clears the ref while the newer turn is waiting, so a third send aborts nothing, and the newer turn's reply is written and summarized. |
| ChatView.WrittenReplySettles | src/components/chat/ChatView.tsx:127-154 | A live turn's non-empty reply that was written is followed by the summarizer call. |
| Messages.LastMessageText | src/hooks/useMessages.ts:88-93 | The preview is never empty and at most 100 characters. A non-empty text gives its first min(100, n) characters; an empty text gives "AI Suggestions" exactly when suggestions are present, else "New Message". |
| Messages.ParentUpdateEffect | src/hooks/useMessages.ts:88-93 | The parent update sets the addressed conversation's preview and `updatedAt`, keeps its other fields, and leaves every other conversation untouched. |
| Messages.MessageStore.QueryMessages | src/hooks/useMessages.ts:30-47 | Without a conversation id or user the list is empty; otherwise it is the conversation's stored messages, oldest first. |
| Messages.MessageStore.ReceiveSnapshot | src/hooks/useMessages.ts:51-70 | A snapshot replaces that conversation's cached list with the stored list; without ids nothing changes. |
| Messages.MessageStore.AddMessage | src/hooks/useMessages.ts:73-105 | Missing ids or a refused message write change nothing. Otherwise the message is stored with the server time and the given id. Only then is the parent updated; if that update fails, the message stays and the call rejects. |
| Messages.MessageStore.UpdateMessageFeedback | src/hooks/useMessages.ts:107-124 | With both ids and an existing message, only that message's feedback changes; otherwise the call rejects and nothing changes. |
| Messages.MessageStore.constructor | src/hooks/useMessages.ts:26-28 | The cache starts empty. |
| Store.Database.AppendMessage | src/hooks/useMessages.ts:83-86 | `addDoc` appends the message to its conversation's list and keeps every list in timestamp order. |
| Store.Database.SetMessageFeedback | src/hooks/useMessages.ts:117 | Rewrites the feedback of that message id only; no clock tick. |
| Store.Database.InsertConversation | src/hooks/useConversations.ts:51-57 | `addDoc` appends the conversation. |
| Store.Database.DeleteConversation | src/hooks/useConversations.ts:116-117 | `deleteDoc` drops the conversation and keeps its messages. |
| Store.Database.UpdateConversation | src/hooks/useConversations.ts:97-102 | `updateDoc` merges the patch into the addressed conversation. |
| Store.Database.constructor | src/hooks/useMessages.ts:30-46 | An empty database with every list in order. |
| Store.ApplyPatch | src/hooks/useConversations.ts:97-102 | The addressed document is merged with the patch, every other document is untouched, and length and order are kept. |
| Store.WithoutId | src/hooks/useConversations.ts:124-126 | Exactly the entries with that id are dropped. |
| Store.WithoutIdKeepsOrder | src/hooks/useConversations.ts:124-126 | Filtering distributes over concatenation, so the remaining entries keep their order. |
| Store.HasIdIffIndex | src/hooks/useConversations.ts:97-102 | The existence check `updateDoc` relies on is "some document has that id". |
| Store.SetFeedback | src/hooks/useMessages.ts:117 | Only the feedback field of the messages with that id changes; the length is kept. |
| Conversations.SortNewestFirst | src/hooks/useConversations.ts:35 | A permutation of its input, most recently updated first. |
| Conversations.InsertNewestFirst | src/hooks/useConversations.ts:35 | Insertion keeps the list sorted and adds one entry. |
| Conversations.InsertNewestFirstAddsOne | src/hooks/useConversations.ts:35 | Insertion adds exactly that conversation, as a multiset. |
| Conversations.PrependNewest | src/hooks/useConversations.ts:35 | An entry at least as recent as the head may go in front of a sorted list. |
| Conversations.OwnedBy | src/hooks/useConversations.ts:34 | Keeps exactly the user's conversations, each as often as stored. |
| Conversations.ListConversations | src/hooks/useConversations.ts:28-41 | Without a user the list is empty. Otherwise it holds exactly the user's conversations, each as often as stored, newest first. |
| Conversations.Summary | src/hooks/useConversations.ts:52 | "New Conversation" exactly for an empty initial message; otherwise a `Regarding: "…..."` quote, bounded in length. |
| Conversations.SummaryQuotesExcerpt | src/hooks/useConversations.ts:52 | The quoted part of a summary is the first 50 characters of the initial message. |
| Conversations.Prepend | src/hooks/useConversations.ts:73-78 | The new entry heads the list and the old entries follow in order; a missing list becomes a one-element list. |
| Conversations.RemoveCached | src/hooks/useConversations.ts:124-126 | The cache keeps exactly the entries with another id; a missing list becomes empty. |
| Conversations.OptimisticMatchesStored | src/hooks/useConversations.ts:55-70 | The optimistic and stored entries agree but for timestamps and, for an empty initial message, the preview. |
| Conversations.UpdateMergesFields | src/hooks/useConversations.ts:97-102 | The updated conversation carries every supplied field, keeps the others, and its `updatedAt` is the server time even when the caller supplied one. |
| Conversations.ConversationStore.Refetch | src/hooks/useConversations.ts:28-41 | With a user the cache becomes the list query's result; without one it stays. |
| Conversations.ConversationStore.Create | src/hooks/useConversations.ts:43-88 | Without a user or with a refused write nothing changes. Otherwise the document is stored and the optimistic entry is prepended to the cache. |
| Conversations.ConversationStore.Update | src/hooks/useConversations.ts:90-108 | Without a user, with a refused write or with a missing document nothing changes. Otherwise the fields are merged with a server `updatedAt`. |
| Conversations.ConversationStore.Delete | src/hooks/useConversations.ts:110-128 | On success the document goes, its messages stay, and the cache drops that id. A refused write changes nothing. |
| Conversations.ConversationStore.constructor | src/hooks/useConversations.ts:28-41 | The cache starts unfetched. |
| AiResponse.GenerateAiResponse | src/ai/flows/generate-ai-response.ts:29-55 | The reply is never blank. A usable output is passed on unchanged; an unusable one gives the rephrase fallback, and an exception gives the error fallback. |
| AiResponse.ReplyNeverBlank | src/ai/flows/generate-ai-response.ts:38-53 | The reply text is neither all whitespace nor empty. |
| ConversationItem.DisplayText | src/components/sidebar/ConversationItem.tsx:35-39 | The label is never empty and is the summary, the preview or "New Conversation", in that precedence. |
| ConversationItem.CreatedRowShowsSummary | src/components/sidebar/ConversationItem.tsx:35-39 | A new conversation shows its summary, both as stored and as the optimistic entry. |
| ConversationItem.SummarizedRowShowsSummary | src/components/sidebar/ConversationItem.tsx:35-39 | After the summarizer's update the row shows the new summary. |
| ConversationItem.IsActiveSelectsById | src/components/sidebar/ConversationItem.tsx:18 | With nothing selected no row is active; once a row is active, the active rows are exactly those with its id. |
| ConversationItem.HandleClick | src/components/sidebar/ConversationItem.tsx:48 | Clicking selects the row's conversation. |
| ConversationItem.HandleDelete | src/components/sidebar/ConversationItem.tsx:20-33 | Without confirmation nothing changes, and a failed delete changes nothing. A successful delete removes the conversation and clears the selection only if the row was selected. |
| ChatInput.SendButtonDisabled | src/components/chat/ChatInput.tsx:51 | The button is disabled exactly when a submit would not go ahead. |
| ChatInput.SubmittedTextPassesSendGuard | src/components/chat/ChatInput.tsx:19-20 | The submitted text is non-empty, not blank and already trimmed, so the chat view's guard lets it through unchanged. |
| ChatInput.AllSendableAt | src/components/chat/ChatInput.tsx:19-20 | Every text of a list kept sendable is itself non-blank and already trimmed. |
| ChatInput.AppendSendable | src/components/chat/ChatInput.tsx:19-20 | Handing on a sendable text keeps the list of handed-on texts sendable. |
| ChatInput.InputBox.Edit | src/components/chat/ChatInput.tsx:40 | The box takes the typed value. |
| ChatInput.InputBox.Submit | src/components/chat/ChatInput.tsx:17-20 | When a submit may go ahead the trimmed text is handed on; otherwise nothing is. Everything handed on is sendable. |
| ChatInput.InputBox.SendSettled | src/components/chat/ChatInput.tsx:20-21 | Once the send resolves the box is cleared; a rejection keeps the text. |
| ChatInput.InputBox.HandleKeyDown | src/components/chat/ChatInput.tsx:25-30 | Enter without Shift runs the submit rule; any other key hands nothing on. |
| ChatInput.InputBox.constructor | src/components/chat/ChatInput.tsx:15 | The box starts empty with nothing sent. |
| Text.TrimEmptyIffBlank | src/components/chat/ChatView.tsx:45 | `trim` empties a text exactly when every character is whitespace. |
| Text.TrimIdempotent | src/components/chat/ChatInput.tsx:19-20 | Trimming twice equals trimming once. |
| Text.SplitJoin | src/components/chat/ChatView.tsx:75-76 | Joining lines without newlines by newlines and splitting again gives the lines back. |
| ImportDummyData.ConvertField | scripts/import-dummy-data.js:41-49 | A timestamp-tagged field becomes a timestamp built from its `value`; any other field, including one with an unknown tag, is kept. |
| ImportDummyData.Converted | scripts/import-dummy-data.js:38-49 | The clone keeps every key, each with its converted value. |
| ImportDummyData.DocIdPrecedence | scripts/import-dummy-data.js:51 | The id is the first truthy value among documentId, userId, faqId and updateId; there is none exactly when no id key holds a truthy value. |
| ImportDummyData.Stripped | scripts/import-dummy-data.js:54-57 | Exactly the four id keys are removed; every other value is kept. |
| ImportDummyData.WriteForShape | scripts/import-dummy-data.js:38-66 | The written record has no id key and every other key of the source document, converted. It goes to `set` exactly when some id key is truthy, under the first such value. |
| ImportDummyData.UserIdDroppedEvenWhenNotTheId | scripts/import-dummy-data.js:51-57 | A document named by `documentId` still loses its `userId` field. |
| ImportDummyData.PrepareDocument | scripts/import-dummy-data.js:38-57 | The clone, key loop and deletes produce the stripped converted record and the id of the converted record. |
| ImportDummyData.ImportData | scripts/import-dummy-data.js:28-71 | The attempted writes are one per document, in file order. Each succeeds exactly when its id is a string (or it is an `add`) and the database accepts it; failures do not stop the loop. |
| ImportDummyData.PlanConcat | scripts/import-dummy-data.js:31-37 | Collections are written in file order: a split file's plan is the plans end to end. |
| ImportDummyData.PlanLength | scripts/import-dummy-data.js:31-37 | The import makes exactly one write per document. |
| ImportDummyData.FlattenConcat | scripts/import-dummy-data.js:31-37 | Laying parts end to end distributes over concatenation. |
| ImportDummyData.ApplyWrite | scripts/import-dummy-data.js:59-66 | `set` replaces the document at its id wholesale; `add` stores under a generated id; other documents stay. |

## Left out

- Timers, promises and React rendering are left out. An outcome parameter stands for each awaited result. `handleSendMessage` is split at one point only: the race between the reply flow and the timer. The summarizer's `.then` is a separate step as well.
- ChatView.ChatSession.SendMessage, ChatView.ChatSession.FinishTurn: the awaited `addMessage` calls for the user message, the reply or fallback, and the catch's error message all run inside one method, so no other turn can start while they are pending. Two interleavings of the source are therefore not captured:
  - A turn that passed the abort check and is still writing its reply when a newer turn starts. It goes on to write the reply, start the summarizer, and clear the newer turn's flag and ref in its `finally`.
  - A user-message write that fails after a newer turn has started. Its catch and `finally` clear the newer turn's flag and ref.
- ConversationItem.HandleDelete: the awaited delete is not an interleaving point either. A selection made while the delete is pending would be cleared by the row's stale `isActive`; the model does not capture that.
- Text.Prefix, Messages.LastMessageText, Conversations.Summary, ChatView.ChatSession.FinishSummary: `substring` counts UTF-16 code units, but the model counts characters. For texts with characters outside the Basic Multilingual Plane, such as emoji, the model's preview is longer than the program's. The program's cut can also split a surrogate pair, which the model cannot express. The length bounds therefore hold in characters, not code units.
- Console logging and toasts are left out.
- React Query's invalidation and refetch timing are left out, and so is the snapshot subscription's lifecycle: `ReceiveSnapshot` and `Refetch` are called explicitly.
- `Date.now()`-based ids, client clocks and generated document ids are parameters.
- The conversion of a server timestamp to `toDate()` in the messages query is left out. Timestamps are abstract naturals.
- The real model call behind the reply flow and the summarizer is a parameter (`PromptCall`, `SummaryOutcome`).
- ChatView.ChatSession.FinishTurn: it models the source as written, so a superseded turn whose race *rejects* still writes its fallback, because only a resolved race checks the abort signal. A whitespace-only reply that is not empty is written verbatim.
- ChatView.AtMostOneAiMessagePerTurn: it requires that the AI message's `addMessage` did not fail after writing the message. In that case the catch writes the error message as a second AI message, which `AiMessagesAtSettle` states.
- ChatView.SupersededTurnClearsRef: a superseded turn's `finally` clears the responding flag and the ref while the newer turn is still in flight. This is shown as a scenario, not repaired.
- ChatInput.InputBox.SendSettled: the box is cleared on resolve even if the user typed meanwhile, as in the source. `handleSendMessage` rejects only when the error write in its catch throws.
- ConversationItem.HandleDelete: `isActive` is read when the handler runs, that is, from the state the row last rendered with.
- ImportDummyData.ConvertField: an invalid date string, and `Timestamp.fromDate` throwing outside the `try`, are left out. A timestamp keeps its source value instead of a parsed date.
- ImportDummyData.ApplyWrite: ids containing `/`, which address sub-collections, are left out. So is validation of collection names.
- The importer reading the data file and initialising the admin SDK are left out.
- Authentication and the app context are reduced to `currentUserId` and `selectedConversationId` fields.
