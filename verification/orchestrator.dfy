/**
 * One completion request: the system prompt and message list it sends, and the
 * goroutine that turns the backend's stream into chunks for the websocket and,
 * on success, the transcript to keep in the session.
 */
module Orchestrator {
  import opened Wrappers
  import opened Segmenter

  datatype Role = System | User | Assistant
  datatype Message = Message(role: Role, text: string)

  /** The session's override when it is non-empty, the configured default otherwise. */
  function EffectiveSystemPrompt(override: string, default: string): (sp: string)
    ensures |override| > 0 ==> sp == override
    ensures |override| == 0 ==> sp == default
  {
    if |override| == 0 then default else override
  }

  /**
   * The messages sent to the backend: the stored transcript followed by the new
   * user turn when history is on and a transcript is stored, otherwise a fresh
   * system and user pair.
   */
  function BuildMessages(chatHistory: bool, stored: seq<Message>, sp: string, prompt: string): (msgs: seq<Message>)
    ensures |msgs| >= 2 && msgs[|msgs| - 1] == Message(User, prompt)
    ensures chatHistory && |stored| > 0 ==> msgs[..|msgs| - 1] == stored
    ensures !(chatHistory && |stored| > 0) ==> msgs == [Message(System, sp), Message(User, prompt)]
  {
    var history := if chatHistory then stored else [];
    if |history| > 0 then history + [Message(User, prompt)]
    else [Message(System, sp), Message(User, prompt)]
  }

  /** The transcript kept after a successful turn: exactly this turn, nothing earlier. */
  function TurnTranscript(sp: string, prompt: string, answer: string): seq<Message> {
    [Message(System, sp), Message(User, prompt), Message(Assistant, answer)]
  }

  const ErrorChunkOpen: string := "<p style=\"color: red;\"><strong>LLM stream response error: </strong>"
  const ErrorChunkClose: string := "</p>"

  function ErrorChunk(detail: string): string {
    ErrorChunkOpen + detail + ErrorChunkClose
  }

  /** The result of one stream: the chunks it sends and the transcript it commits, if any. */
  datatype Completion = Completion(chunks: seq<string>, transcript: Option<seq<Message>>)

  /**
   * What a stream with these deltas and this final error produces: the segmented
   * output, then one error chunk on failure; on success with history on, the
   * single-turn transcript holding the joined text of every relevant delta.
   */
  function Completed(sp: string, prompt: string, deltas: seq<Delta>, err: Option<string>, chatHistory: bool,
                     render: Renderer, parse: ContentParser): Completion
  {
    Completion(
      Grouped(deltas, render, parse) + (if err.Some? then [ErrorChunk(err.value)] else []),
      if err.None? && chatHistory then Some(TurnTranscript(sp, prompt, Join(Kept(deltas)))) else None)
  }

  /**
   * The streaming goroutine, with the backend's stream given as its deltas and
   * its final error, and ChatHistory as read when the stream ends.
   */
  method StreamCompletion(sp: string, prompt: string, deltas: seq<Delta>, err: Option<string>, chatHistory: bool,
                          render: Renderer, parse: ContentParser)
    returns (chunks: seq<string>, transcript: Option<seq<Message>>)
    ensures Completion(chunks, transcript) == Completed(sp, prompt, deltas, err, chatHistory, render, parse)
    ensures err.Some? ==> |chunks| > 0 && chunks[|chunks| - 1] == ErrorChunk(err.value) && transcript.None?
    ensures err.None? ==> chunks == Grouped(deltas, render, parse)
  {
    var complete;
    chunks, complete := Segment(deltas, render, parse);
    if err.None? {
      transcript := None;
      if chatHistory {
        transcript := Some(TurnTranscript(sp, prompt, Join(complete)));
      }
    } else {
      transcript := None;
      chunks := chunks + [ErrorChunk(err.value)];
    }
  }
}
