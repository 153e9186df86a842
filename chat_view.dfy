/** The chat-turn orchestration of src/components/chat/ChatView.tsx
    (`handleSendMessage`, `handleSuggestionClick`).

    The handler is split at its suspension points. `SendMessage` runs from the
    guard to the call of the reply flow; `FinishTurn` runs from the end of the
    race between reply and timer to the `finally` block; `FinishSummary` is the
    background summarizer's `.then`. Other turns may start between the first
    two, as they can in the browser. Every awaited write's outcome is an input,
    and the orchestrator records what it asks of the outside world in `events`. */
module ChatView {
  import opened Types
  import opened Text
  import AiResponse

  const MaxHistoryForPrompt: nat := 10
  const TimeoutError := "AI response timeout"
  const ErrorReply := "Sorry, I encountered an error. Please try again."
  const TimeoutReply := "Sorry, I'm taking too long to respond. Please try again."
  const EmptyReply := "I seem to be having trouble. Could you try again?"
  const SummaryPreviewLength: nat := 100

  /** The speaker label of a history line. */
  function Label(s: Sender): string {
    match s
    case User => "User"
    case System => "System"
    case Ai => "AI"
  }

  function Line(sender: Sender, text: string): string {
    Label(sender) + ": " + text
  }

  /** One labelled line per message, in order. */
  function HistoryLines(ms: seq<Message>): (ls: seq<string>)
    ensures |ls| == |ms|
    ensures forall i | 0 <= i < |ms| :: ls[i] == Line(ms[i].sender, ms[i].text)
  {
    if ms == [] then [] else [Line(ms[0].sender, ms[0].text)] + HistoryLines(ms[1..])
  }

  /** `messages.slice(-10)`: the last ten messages, or all of them. */
  function Recent(ms: seq<Message>): (r: seq<Message>)
    ensures |r| == Min(MaxHistoryForPrompt, |ms|)
    ensures r == ms[|ms| - |r|..]
  {
    if |ms| <= MaxHistoryForPrompt then ms else ms[|ms| - MaxHistoryForPrompt..]
  }

  /** The `conversationHistory` handed to the reply flow. */
  function PromptHistory(ms: seq<Message>, text: string): string {
    Join(HistoryLines(Recent(ms)) + [Line(User, text)])
  }

  /** The history handed to the summarizer: every cached message, then the
      new user line and the reply. */
  function SummaryHistory(ms: seq<Message>, text: string, reply: string): string {
    Join(HistoryLines(ms) + [Line(User, text), Line(Ai, reply)])
  }

  /** The prompt history is the recent lines joined by newlines, followed by
      the line of the message being sent. */
  lemma PromptHistoryEndsWithUserLine(ms: seq<Message>, text: string)
    ensures PromptHistory(ms, text) ==
      (if ms == [] then "" else Join(HistoryLines(Recent(ms))) + "\n") + "User: " + text
  {
    var lines := HistoryLines(Recent(ms));
    if ms != [] {
      JoinSnoc(lines, Line(User, text));
    } else {
      assert lines + [Line(User, text)] == [Line(User, text)];
    }
  }

  lemma LineHasNoNewline(sender: Sender, text: string)
    requires '\n' !in text
    ensures '\n' !in Line(sender, text)
  {
    var l := Line(sender, text);
    var p := Label(sender) + ": ";
    assert l == p + text;
    forall i | 0 <= i < |l| ensures l[i] != '\n' {
      if i >= |p| {
        assert l[i] == text[i - |p|];
      }
    }
  }

  /** When no message contains a newline, the prompt history splits back into
      at most eleven lines: one per recent message and the user's line last. */
  lemma PromptHistoryLines(ms: seq<Message>, text: string)
    requires '\n' !in text
    requires forall i | 0 <= i < |ms| :: '\n' !in ms[i].text
    ensures Split(PromptHistory(ms, text)) == HistoryLines(Recent(ms)) + [Line(User, text)]
    ensures |Split(PromptHistory(ms, text))| <= MaxHistoryForPrompt + 1
  {
    var recent := Recent(ms);
    var lines := HistoryLines(recent) + [Line(User, text)];
    forall k | 0 <= k < |lines| ensures '\n' !in lines[k] {
      if k < |recent| {
        assert recent[k] == ms[|ms| - |recent| + k];
        LineHasNoNewline(recent[k].sender, recent[k].text);
      } else {
        LineHasNoNewline(User, text);
      }
    }
    SplitJoin(lines);
  }

  /** The summarizer's history ends with the user's line and the reply line. */
  lemma SummaryHistoryEndsWithTurn(ms: seq<Message>, text: string, reply: string)
    ensures SummaryHistory(ms, text, reply) ==
      (if ms == [] then "" else Join(HistoryLines(ms)) + "\n") + Line(User, text) + "\n" + Line(Ai, reply)
  {
    var lines := HistoryLines(ms);
    var u := Line(User, text);
    var a := Line(Ai, reply);
    assert lines + [u, a] == (lines + [u]) + [a];
    JoinSnoc(lines + [u], a);
    if ms != [] {
      JoinSnoc(lines, u);
    } else {
      assert lines + [u] == [u];
    }
  }

  /** How the race between the reply flow and the timer ended. The timer
      rejects with the message "AI response timeout". */
  datatype RaceOutcome =
    | Resolved(data: Option<AiResponse.AiResponseOutput>)
    | Rejected(message: string)

  /** The four ways a turn can end. */
  datatype Outcome = Reply(text: string) | EmptyResponse | Timeout | Failure

  /** The reply branch is taken exactly for a resolved race with a non-empty
      text; the timeout branch exactly for the timer's rejection. */
  function Classify(race: RaceOutcome): (o: Outcome)
    ensures o.Reply? <==> race.Resolved? && race.data.Some? && race.data.value.responseText != ""
    ensures o.Reply? ==> o.text == race.data.value.responseText
    ensures o == EmptyResponse <==> race.Resolved? && !o.Reply?
    ensures o == Timeout <==> race == Rejected(TimeoutError)
  {
    match race
    case Resolved(data) =>
      if data.None? || data.value.responseText == "" then EmptyResponse else Reply(data.value.responseText)
    case Rejected(message) =>
      if message == TimeoutError then Timeout else Failure
  }

  /** The text of the AI message a turn appends: the reply verbatim, or the
      fixed string of its failure. */
  function AiText(o: Outcome): (t: string)
    ensures !o.Reply? ==> t != ""
    ensures o.Reply? ==> t == o.text
    ensures o == EmptyResponse ==> t == EmptyReply
    ensures o == Timeout ==> t == TimeoutReply
    ensures o == Failure ==> t == ErrorReply
  {
    match o
    case Reply(text) => text
    case EmptyResponse => EmptyReply
    case Timeout => TimeoutReply
    case Failure => ErrorReply
  }

  /** Whatever the reply flow resolves with takes the reply branch: its text is
      never empty, so the empty-response branch cannot be reached from it, and
      the AI message carries that text verbatim. */
  lemma GeneratedReplyIsAppendedVerbatim(call: AiResponse.PromptCall)
    ensures var out := AiResponse.GenerateAiResponse(call);
      Classify(Resolved(Some(out))) == Reply(out.responseText)
      && AiText(Classify(Resolved(Some(out)))) == out.responseText
  {
    AiResponse.ReplyNeverBlank(call);
  }

  function UserDraft(text: string): Draft {
    Draft(text, User, None, None)
  }

  function AiDraft(text: string): Draft {
    Draft(text, Ai, None, None)
  }

  /** How an `addMessage` call ended. It resolves only when both of its
      writes succeed; it rejects when the message write is refused, and also
      when the message was written but the parent update failed. */
  datatype WriteOutcome = Refused | PartlyWritten | Written

  /** What the orchestrator asks of the outside world. */
  datatype Event =
    | Append(conversationId: string, draft: Draft, outcome: WriteOutcome)
    | GenerateReply(conversationHistory: string, currentMessage: string)
    | Summarize(conversationHistory: string)
    | UpdateConversation(id: string, summary: string, lastMessageText: string)

  /** A turn in flight: what the handler's closure holds across the race. */
  datatype Turn = Turn(token: nat, conversationId: string, text: string, messages: seq<Message>)

  /** A summarization in flight. */
  datatype SummaryRequest = SummaryRequest(conversationId: string, replyText: string)

  datatype SummaryOutcome = Summarized(summary: Option<string>) | SummaryFailed

  /** Events of a turn up to the race: the user message is written first; if
      that write succeeds the reply flow is called, otherwise the error
      message is written instead and the turn ends. */
  function StartEvents(conversationId: string, text: string, ms: seq<Message>,
                       userWrite: WriteOutcome, errorWrite: WriteOutcome): seq<Event> {
    [Append(conversationId, UserDraft(text), userWrite)]
    + if userWrite == Written then [GenerateReply(PromptHistory(ms, text), text)]
      else [Append(conversationId, AiDraft(ErrorReply), errorWrite)]
  }

  /** Whether a superseded turn drops its result: only a resolved race checks
      the abort signal. */
  predicate Discarded(aborted: bool, race: RaceOutcome) {
    aborted && race.Resolved?
  }

  /** Events of a turn after the race: the AI message (reply or fallback);
      if that write fails, the error message; after a written reply, the
      summarizer call. */
  function SettleEvents(turn: Turn, aborted: bool, race: RaceOutcome,
                        replyWrite: WriteOutcome, errorWrite: WriteOutcome): seq<Event> {
    if Discarded(aborted, race) then []
    else
      var outcome := Classify(race);
      [Append(turn.conversationId, AiDraft(AiText(outcome)), replyWrite)]
      + if replyWrite != Written then [Append(turn.conversationId, AiDraft(ErrorReply), errorWrite)]
        else if outcome.Reply? then [Summarize(SummaryHistory(turn.messages, turn.text, outcome.text))]
        else []
  }

  /** The summarization a settled turn leaves running, if any. */
  function SummaryRequestOf(turn: Turn, aborted: bool, race: RaceOutcome, replyWrite: WriteOutcome): Option<SummaryRequest> {
    if !Discarded(aborted, race) && replyWrite == Written && Classify(race).Reply? then
      Some(SummaryRequest(turn.conversationId, Classify(race).text))
    else None
  }

  /** The number of AI messages that reach the database. */
  function AiMessages(events: seq<Event>): nat {
    if events == [] then 0
    else
      var e := events[0];
      (if e.Append? && e.draft.sender == Ai && e.outcome != Refused then 1 else 0) + AiMessages(events[1..])
  }

  lemma {:induction false} AiMessagesConcat(a: seq<Event>, b: seq<Event>)
    ensures AiMessages(a + b) == AiMessages(a) + AiMessages(b)
  {
    if a == [] {
      assert a + b == b;
    } else {
      assert (a + b)[1..] == a[1..] + b;
      AiMessagesConcat(a[1..], b);
    }
  }

  /** The user message is written before the reply flow is called, and the
      reply flow is called exactly when that write resolved; otherwise the
      error message follows. */
  lemma UserMessageFirst(conversationId: string, text: string, ms: seq<Message>, userWrite: WriteOutcome, errorWrite: WriteOutcome)
    ensures var ev := StartEvents(conversationId, text, ms, userWrite, errorWrite);
      && |ev| == 2
      && ev[0] == Append(conversationId, UserDraft(text), userWrite)
      && (ev[1].GenerateReply? <==> userWrite == Written)
      && (userWrite == Written ==> ev[1] == GenerateReply(PromptHistory(ms, text), text))
      && (userWrite != Written ==> ev[1] == Append(conversationId, AiDraft(ErrorReply), errorWrite))
  {
  }

  /** How many AI messages a turn stores before its race: none if the user
      message went through, else at most the error message. */
  lemma AiMessagesAtStart(
    conversationId: string, text: string, ms: seq<Message>, userWrite: WriteOutcome, errorWrite: WriteOutcome)
    ensures AiMessages(StartEvents(conversationId, text, ms, userWrite, errorWrite))
      == (if userWrite != Written && errorWrite != Refused then 1 else 0)
  {
    var start := StartEvents(conversationId, text, ms, userWrite, errorWrite);
    assert start[0].draft.sender == User;
    assert start[1..] == [start[1]] && start[1..][1..] == [];
    assert AiMessages(start[1..]) == (if start[1].Append? && start[1].outcome != Refused then 1 else 0);
  }

  /** How many AI messages a turn stores after its race. A superseded turn
      whose race resolved stores none; any other turn stores its reply or
      fallback if that write landed, and the error message if that call
      rejected and the error write landed. So a turn stores two AI messages
      only when its first AI write landed and its parent update failed. */
  lemma AiMessagesAtSettle(
    turn: Turn, aborted: bool, race: RaceOutcome, replyWrite: WriteOutcome, errorWrite: WriteOutcome)
    ensures var settle := SettleEvents(turn, aborted, race, replyWrite, errorWrite);
      && (Discarded(aborted, race) ==> settle == [])
      && (!Discarded(aborted, race) ==>
            AiMessages(settle) == (if replyWrite != Refused then 1 else 0)
                                  + (if replyWrite != Written && errorWrite != Refused then 1 else 0))
      && (AiMessages(settle) <= 1 || replyWrite == PartlyWritten)
  {
    var settle := SettleEvents(turn, aborted, race, replyWrite, errorWrite);
    if !Discarded(aborted, race) {
      assert settle[0].draft.sender == Ai;
      if |settle| == 1 {
        assert settle[1..] == [];
      } else {
        assert settle[1..][1..] == [];
        assert settle[1].Append? ==> settle[1].draft.sender == Ai;
        assert AiMessages(settle[1..]) == (if settle[1].Append? && settle[1].outcome != Refused then 1 else 0);
      }
    }
  }

  /** Over a whole turn whose user message went through, at most one AI
      message is stored unless the first AI write landed with a failing
      parent update. */
  lemma AtMostOneAiMessagePerTurn(
    turn: Turn, ms: seq<Message>, startErrorWrite: WriteOutcome,
    aborted: bool, race: RaceOutcome, replyWrite: WriteOutcome, errorWrite: WriteOutcome)
    requires replyWrite != PartlyWritten
    ensures var start := StartEvents(turn.conversationId, turn.text, ms, Written, startErrorWrite);
      AiMessages(start + SettleEvents(turn, aborted, race, replyWrite, errorWrite)) <= 1
  {
    var start := StartEvents(turn.conversationId, turn.text, ms, Written, startErrorWrite);
    var settle := SettleEvents(turn, aborted, race, replyWrite, errorWrite);
    AiMessagesAtStart(turn.conversationId, turn.text, ms, Written, startErrorWrite);
    AiMessagesAtSettle(turn, aborted, race, replyWrite, errorWrite);
    AiMessagesConcat(start, settle);
  }

  /** The summarizer is called only right after the reply was written, with a
      history that ends in the user's line and that reply. */
  lemma SummaryOnlyAfterReply(turn: Turn, aborted: bool, race: RaceOutcome, replyWrite: WriteOutcome, errorWrite: WriteOutcome, i: nat)
    requires var ev := SettleEvents(turn, aborted, race, replyWrite, errorWrite);
      i < |ev| && ev[i].Summarize?
    ensures var ev := SettleEvents(turn, aborted, race, replyWrite, errorWrite);
      && i == 1 && Classify(race).Reply?
      && ev[0] == Append(turn.conversationId, AiDraft(Classify(race).text), Written)
      && ev[1] == Summarize(SummaryHistory(turn.messages, turn.text, Classify(race).text))
      && SummaryRequestOf(turn, aborted, race, replyWrite) == Some(SummaryRequest(turn.conversationId, Classify(race).text))
  {
  }

  /** A rejected race writes its fallback even for a superseded turn: the
      timer's rejection gives the "taking too long" text, any other rejection
      the error text. Both address the turn's own conversation. */
  lemma RejectedRaceAlwaysAnswers(turn: Turn, aborted: bool, message: string, replyWrite: WriteOutcome, errorWrite: WriteOutcome)
    ensures var ev := SettleEvents(turn, aborted, Rejected(message), replyWrite, errorWrite);
      && ev != []
      && ev[0] == Append(turn.conversationId,
                         AiDraft(if message == TimeoutError then TimeoutReply else ErrorReply), replyWrite)
      && forall e | e in ev :: e.Append? && e.conversationId == turn.conversationId
  {
  }

  /** The orchestrator's state: the selected conversation and the responding
      flag of the app context, the abort-controller ref (as the token of the
      controller it holds), the tokens aborted so far, and the event log. */
  class ChatSession {
    var selectedConversationId: Option<string>
    var isAiResponding: bool
    var controller: Option<nat>
    var aborted: set<nat>
    var nextToken: nat
    var events: seq<Event>

    /** The flag and the ref are set and cleared together, the ref holds a
        live, unaborted controller, and only issued tokens are aborted. */
    ghost predicate Valid()
      reads this
    {
      && (isAiResponding <==> controller.Some?)
      && (controller.Some? ==> controller.value < nextToken && controller.value !in aborted)
      && (forall t | t in aborted :: t < nextToken)
    }

    constructor ()
      ensures Valid()
      ensures selectedConversationId == None && !isAiResponding && controller == None
      ensures aborted == {} && events == []
    {
      selectedConversationId := None;
      isAiResponding := false;
      controller := None;
      aborted := {};
      nextToken := 0;
      events := [];
    }

    /** `handleSendMessage` up to the race. With no selected conversation or a
        blank text (one that `trim` empties, see `Text.TrimEmptyIffBlank`)
        nothing happens. Otherwise the flag is raised, a previous
        controller is aborted, a new one is installed, and the user message is
        written; if that write fails, the error message is written and the
        `finally` clears the flag and the ref. `ms` is the cached message list
        the handler captured. */
    method SendMessage(messageText: string, ms: seq<Message>, userWrite: WriteOutcome, errorWrite: WriteOutcome)
      returns (turn: Option<Turn>)
      requires Valid()
      modifies this
      ensures Valid()
      ensures selectedConversationId == old(selectedConversationId)
      ensures !Truthy(old(selectedConversationId)) || Blank(messageText) ==>
        && turn == None && isAiResponding == old(isAiResponding) && controller == old(controller)
        && aborted == old(aborted) && nextToken == old(nextToken) && events == old(events)
      ensures Truthy(old(selectedConversationId)) && !Blank(messageText) ==>
        var conversationId := old(selectedConversationId).value;
        var token := old(nextToken);
        && nextToken == token + 1
        && aborted == (if old(controller).Some? then old(aborted) + {old(controller).value} else old(aborted))
        && events == old(events) + StartEvents(conversationId, messageText, ms, userWrite, errorWrite)
        && (userWrite == Written ==> turn == Some(Turn(token, conversationId, messageText, ms))
                                     && isAiResponding && controller == Some(token))
        && (userWrite != Written ==> turn == None && !isAiResponding && controller == None)
    {
      if !Truthy(selectedConversationId) || Blank(messageText) {
        return None;
      }
      var conversationId := selectedConversationId.value;
      var token := nextToken;
      // the flag goes up, a previous controller is aborted, a new one is installed
      isAiResponding := true;
      if controller.Some? {
        aborted := aborted + {controller.value};
      }
      controller := Some(token);
      nextToken := token + 1;
      assert Valid();
      // the user message, then the reply flow or the catch's error message
      events := events + StartEvents(conversationId, messageText, ms, userWrite, errorWrite);
      if userWrite != Written {
        isAiResponding := false;
        controller := None;
        turn := None;
      } else {
        turn := Some(Turn(token, conversationId, messageText, ms));
      }
    }

    /** `handleSuggestionClick`: the suggestion's label is sent as is; there is
        no responding-flag check, so it can supersede a turn in flight. */
    method HandleSuggestionClick(suggestionText: string, ms: seq<Message>, userWrite: WriteOutcome, errorWrite: WriteOutcome)
      returns (turn: Option<Turn>)
      requires Valid()
      modifies this
      ensures Valid()
      ensures selectedConversationId == old(selectedConversationId)
      ensures !Truthy(old(selectedConversationId)) || Blank(suggestionText) ==>
        && turn == None && isAiResponding == old(isAiResponding) && controller == old(controller)
        && aborted == old(aborted) && nextToken == old(nextToken) && events == old(events)
      ensures Truthy(old(selectedConversationId)) && !Blank(suggestionText) ==>
        var conversationId := old(selectedConversationId).value;
        var token := old(nextToken);
        && nextToken == token + 1
        && aborted == (if old(controller).Some? then old(aborted) + {old(controller).value} else old(aborted))
        && events == old(events) + StartEvents(conversationId, suggestionText, ms, userWrite, errorWrite)
        && (userWrite == Written ==> turn == Some(Turn(token, conversationId, suggestionText, ms))
                                     && isAiResponding && controller == Some(token))
        && (userWrite != Written ==> turn == None && !isAiResponding && controller == None)
    {
      turn := SendMessage(suggestionText, ms, userWrite, errorWrite);
    }

    /** `handleSendMessage` after the race, through its `finally`. A resolved
        race of an aborted turn writes nothing; otherwise the AI message is
        written, and after a written reply the summarizer is started. Every
        path leaves the flag false and the ref empty, even when a newer turn
        owns them. */
    method FinishTurn(turn: Turn, race: RaceOutcome, replyWrite: WriteOutcome, errorWrite: WriteOutcome)
      returns (request: Option<SummaryRequest>)
      requires Valid()
      modifies this
      ensures Valid()
      ensures !isAiResponding && controller == None
      ensures selectedConversationId == old(selectedConversationId)
      ensures aborted == old(aborted) && nextToken == old(nextToken)
      ensures events == old(events) + SettleEvents(turn, turn.token in old(aborted), race, replyWrite, errorWrite)
      ensures request == SummaryRequestOf(turn, turn.token in old(aborted), race, replyWrite)
    {
      request := None;
      if race.Resolved? && turn.token in aborted {
        // the abort check after the race
      } else {
        var outcome := Classify(race);
        var reply := Append(turn.conversationId, AiDraft(AiText(outcome)), replyWrite);
        events := events + [reply];
        if replyWrite != Written {
          var error := Append(turn.conversationId, AiDraft(ErrorReply), errorWrite);
          events := events + [error];
          assert events == old(events) + [reply, error];
        } else if outcome.Reply? {
          var summarize := Summarize(SummaryHistory(turn.messages, turn.text, outcome.text));
          events := events + [summarize];
          assert events == old(events) + [reply, summarize];
          request := Some(SummaryRequest(turn.conversationId, outcome.text));
        }
      }
      isAiResponding := false;
      controller := None;
    }

    /** The summarizer's `.then`: a non-empty summary updates the conversation
        with it and the reply's first 100 characters; anything else (no
        summary, or a rejection) only logs. */
    method FinishSummary(request: SummaryRequest, outcome: SummaryOutcome)
      modifies this`events
      ensures events == old(events) +
        (if outcome.Summarized? && Truthy(outcome.summary) then
           [UpdateConversation(request.conversationId, outcome.summary.value,
                               Prefix(request.replyText, SummaryPreviewLength))]
         else [])
    {
      if outcome.Summarized? && Truthy(outcome.summary) {
        events := events + [UpdateConversation(request.conversationId, outcome.summary.value,
                                               Prefix(request.replyText, SummaryPreviewLength))];
      }
    }
  }

  /** Two overlapping turns: `first` was superseded by `second`, whose
      controller the ref now holds. The first turn's late reply is dropped,
      but its `finally` clears the flag and the ref while the second is still
      waiting, so a third send aborts nothing and the second turn's reply is
      stored as well, followed by its summarizer call. */
  method SupersededTurnClearsRef(s: ChatSession, first: Turn, second: Turn, third: string,
                                 ms: seq<Message>, reply1: string, reply2: string)
    requires s.Valid() && Truthy(s.selectedConversationId) && !Blank(third)
    requires first.token in s.aborted && s.controller == Some(second.token)
    requires reply2 != ""
    modifies s
    ensures s.Valid()
    ensures second.token !in s.aborted
    ensures s.events == old(s.events)
      + StartEvents(old(s.selectedConversationId).value, third, ms, Written, Written)
      + [Append(second.conversationId, AiDraft(reply2), Written),
         Summarize(SummaryHistory(second.messages, second.text, reply2))]
  {
    var r1 := s.FinishTurn(first, Resolved(Some(AiResponse.AiResponseOutput(reply1))), Written, Written);
    assert s.events == old(s.events) && s.controller == None;
    var t3 := s.HandleSuggestionClick(third, ms, Written, Written);
    assert second.token !in s.aborted;
    var r2 := s.FinishTurn(second, Resolved(Some(AiResponse.AiResponseOutput(reply2))), Written, Written);
    WrittenReplySettles(second, reply2);
  }

  /** The happy path after the race: a non-empty reply of a live turn, written
      with its parent update, is followed by the summarizer call. */
  lemma WrittenReplySettles(turn: Turn, reply: string)
    requires reply != ""
    ensures SettleEvents(turn, false, Resolved(Some(AiResponse.AiResponseOutput(reply))), Written, Written)
      == [Append(turn.conversationId, AiDraft(reply), Written), Summarize(SummaryHistory(turn.messages, turn.text, reply))]
  {
  }
}
