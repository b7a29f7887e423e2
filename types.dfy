// Value types shared by the live-session controller: the records of
// types.ts and the shapes of inbound server messages and outbound events.
module Types {

  datatype Option<+T> = None | Some(value: T)

  /** The four connection states the controller exposes to the UI. */
  datatype SessionStatus = Idle | Connecting | Active | Error

  datatype Sender = User | Model

  /** One completed turn of the conversation, as shown in the transcript feed. */
  datatype FeedbackMessage = FeedbackMessage(id: string, text: string, sender: Sender, timestamp: int)

  /** The final score reported by the model through the scoring tool. */
  datatype ReviewData = ReviewData(score: real, feedback: string)

  /** One entry of `toolCall.functionCalls`; `score` and `feedback` are its arguments. */
  datatype FunctionCall = FunctionCall(id: string, name: string, score: real, feedback: string)

  /**
   * The parts of a server message the controller reads. Absent optional
   * fields are `None`; `turnComplete` and `interrupted` are false when absent.
   * `audio` is the base64 data of the first part of the model turn.
   */
  datatype ServerMessage = ServerMessage(
    toolCall: Option<seq<FunctionCall>>,
    outputText: Option<string>,
    inputText: Option<string>,
    turnComplete: bool,
    audio: Option<string>,
    interrupted: bool)

  /** Everything the controller sends to the remote session, in send order. */
  datatype Outbound =
    | ToolResponse(id: string, name: string, result: string)
    | AudioFrame(pcm: string)
    | VideoFrame(jpeg: string)
    | ReviewMarkerFrame
    | CloseSession

  /** The text of an optional transcription fragment; absent reads as empty. */
  function Fragment(text: Option<string>): string
  {
    if text.Some? then text.value else ""
  }
}
