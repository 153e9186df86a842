/** The records of src/types/index.ts. Timestamps are abstract clock values;
    a JavaScript string that may be `undefined` or `null` is an `Option<string>`. */
module Types {

  datatype Option<+T> = None | Some(value: T)

  /** The outcome of an awaited call that may throw: the thrown error's message. */
  datatype Result<+T> = Ok(value: T) | Err(message: string)

  datatype Sender = User | Ai | System

  datatype Feedback = Up | Down

  /** A stored chat message. `text` may be empty (a suggestions block). */
  datatype Message = Message(
    id: string,
    text: string,
    sender: Sender,
    timestamp: nat,
    feedback: Option<Feedback>,
    suggestions: Option<seq<string>>)

  /** A conversation document of the signed-in user. */
  datatype Conversation = Conversation(
    id: string,
    userId: string,
    summary: Option<string>,
    createdAt: nat,
    updatedAt: nat,
    lastMessageText: Option<string>)

  /** What a caller hands to `addMessage`: a message without `id` and `timestamp`. */
  datatype Draft = Draft(
    text: string,
    sender: Sender,
    feedback: Option<Feedback>,
    suggestions: Option<seq<string>>)

  /** JavaScript truthiness of a string that may be missing. */
  predicate Truthy(s: Option<string>) {
    s.Some? && s.value != ""
  }
}
