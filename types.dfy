/** The chat data model shared by the session and its transcript (types.ts). */
module Types {

  /** `T | undefined` / `T | null` as a value. */
  datatype Option<+T> = None | Some(value: T)

  /** Who wrote a message. */
  datatype MessageRole = User | Teacher

  /** What a message carries: text, or an image as a data URL. */
  datatype MessageType = Text | Image

  /**
   * One transcript entry. `isThinking` is optional in the source: `None`
   * stands for a message built without the field.
   */
  datatype Message = Message(
    id: string,
    role: MessageRole,
    kind: MessageType,
    content: string,
    isThinking: Option<bool>)

  /** The five values of the session state. */
  datatype AppState = Idle | AnalyzingHint | HintGiven | AnalyzingFull | FullReviewGiven

  /** A message is pending exactly when its flag is present and true. */
  predicate IsThinking(m: Message) {
    m.isThinking == Some(true)
  }

  /** The two states in which a gateway call is outstanding. */
  predicate IsAnalyzing(s: AppState) {
    s == AnalyzingHint || s == AnalyzingFull
  }
}
