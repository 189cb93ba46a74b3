/**
 * The frames that flow through the natural-conversation pipeline.
 *
 * The framework distinguishes frame kinds by their runtime class; here they form
 * one closed datatype, and `IsSystemFrame` says which of them belong to the
 * framework's SystemFrame family (the frames no processor may hold back).
 * `EndFrame` is a control frame, not a system frame: it travels in order
 * with the data frames.
 */
module Frames {

  datatype Direction = Downstream | Upstream

  /** One element of a list-valued message content: `{"type": kind, "text": text}`. */
  datatype ContentPart = ContentPart(kind: string, text: string)

  /** A message content is a string, a list of parts, or something else (ignored by the filter). */
  datatype Content =
    | StringContent(s: string)
    | PartsContent(parts: seq<ContentPart>)
    | OtherContent

  /** A conversation message `{"role": role, "content": content}`. */
  datatype Message = Message(role: string, content: Content)

  datatype Frame =
    | StartFrame
    | EndFrame
    | CancelFrame
    | StartInterruptionFrame
    | StopInterruptionFrame
    | UserStoppedSpeakingFrame
    | OtherSystemFrame(name: string)
    | TextFrame(text: string)
    | LLMMessagesFrame(messages: seq<Message>)
    | OpenAILLMContextFrame(contextMessages: seq<Message>)
    | OtherDataFrame(name: string)

  /** A frame together with the direction it travels in, as pushed by a processor. */
  type Routed = (Frame, Direction)

  predicate IsSystemFrame(f: Frame)
  {
    f.StartFrame? || f.CancelFrame? || f.StartInterruptionFrame?
    || f.StopInterruptionFrame? || f.UserStoppedSpeakingFrame? || f.OtherSystemFrame?
  }

  /** What a processor does in reaction to one frame, in the order it does it. */
  datatype Effect = Push(frame: Frame, direction: Direction) | Notify
}
