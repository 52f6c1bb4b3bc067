# tf-chatbot websocket session and completion stream — a Dafny model

This project models the server core of tf-chatbot: the websocket handler that
reads `<code>:<payload>` frames and dispatches on the event code
(`internal/chatbot/http.go`), and the completion stream that sends a prompt to
the language model and turns the streamed deltas into HTML chunks for the
browser (`internal/chatbot/chatbot.go`).

- `codec.dfy` (`EventCodec`): the fourteen event codes, `Decode` (the
  `^(\d+):` match that yields the code) and `Encode` (`code + ":" + payload`).
  Proved: a frame decodes iff it starts with digits and a colon; the code is the
  maximal digit run; encoding and decoding are inverse.
- `segmenter.dfy` (`Segmenter`): the loop over the stream's deltas. Prose
  deltas are buffered. A tool-like delta first flushes the buffer through the
  Markdown renderer, then shows a `<details>…<textarea>` wrapper around the
  text of its first `Content` item. A tool-like delta starts with `{` or
  `undefined: {`, or contains `map[command:`. The loop is specified by a left
  fold (`Run`). It is also proved equal to an independent run-by-run
  description (`Grouped`): each maximal prose run is rendered once, in order.
  `Kept` is the complete response.
- `orchestrator.dfy` (`Orchestrator`): the effective system prompt, the
  outgoing message list, and the streaming goroutine. The goroutine's results
  are the chunks (with one red error chunk on failure) and, on success with
  history on, the single-turn transcript `[system, user, assistant]`.
- `protocol.dfy` (`Protocol`): the per-connection state, `Dispatch` (one
  inbound frame), `ReadLoop`, `EndStream` (a stream ends as one sequential
  step), and the writer loop for `04:<chunk>`, `03`, …, `05`. The class
  `Connection` holds the state the handler updates in place; its methods are
  proved equal to those functions.
- `properties.dfy` (`Properties`): what each event does to the session and
  what it answers, and what a stream leaves in the transcript.

The Markdown renderer (`utils.MDtoHTML`) and `json.Unmarshal` into the
`Content` struct are function-valued parameters (`Renderer`, `ContentParser`)
about which nothing is assumed. The backend stream is a sequence of deltas plus
an optional final error. Each delta carries a marker for the accumulator's
"just finished tool call / content / refusal" signals and the text of the
first choice's delta, with "" when there is no choice. Write failures are
inputs too. `writeOk` says whether the reply write of one inbound frame
succeeds. `failAt` is the index of the first failing write while a stream's
frames are written.

The handler behaves as follows in cases that are easy to get wrong:
- The handler calls `startCompletionStream` with its `resetHistory` flag, but
  the function defined in `chatbot.go` takes no such argument. The message
  list depends only on `ChatHistory` and the stored transcript, not on the
  flag.
- A system prompt does not set `resetHistory`.
- The end of every stream clears `resetHistory`, even after a cancel or an
  error.
- Load-system-prompt answers with the configured default, never the session
  override.
- A user prompt that arrives while a stream is in flight is not rejected. It
  starts a new stream, which replaces the one the model tracks.
- A fresh connection starts with `resetHistory` set. A reset-history event
  on it is ignored, and the next prompt continues the stored transcript
  (`FreshConnectionContinuesStored`).
- The streaming goroutine sends on an unbuffered channel. If the writer stops
  after a failed write before taking the last chunk, the goroutine blocks
  forever on its next send. It never reaches its commit, so that turn is not
  stored (`AllChunksTaken`, `EarlyWriteFailureLosesTurn`).

Cancel is modelled as follows. The cancel handle is assigned by the stream's
goroutine. The `startCompletionStream` in `chatbot.go` returns no handle, so
"a cancel handle is present" is modelled as "a stream is in flight". Cancel
confirms with `09:14`, empties the stored transcript and sets `resetHistory`.
What cancelling the context does to the backend stream depends on timing,
which the model does not have. So the stream's outcome is an input to
`EndStream`: the optional error the stream reports when it stops. A cancel
that stops the stream before it finishes shows up as that error, and then
nothing is committed (`CancelledTurnForgotten`). A cancel that arrives after
the backend has finished cleanly does not prevent the commit, and the turn is
stored after all (`LateCancelCommits`).

## Model

| member | source | states |
|---|---|---|
| `EventCodec.DigitRun` | internal/chatbot/http.go:160-161 | the result is the length of a prefix of digits that is followed by a non-digit or the end: the maximal leading run of `\d` |
| `EventCodec.Decode` | internal/chatbot/http.go:160-166 | a decoded code is a non-empty digit string, it is the frame's prefix, and a colon follows it |
| `EventCodec.DecodeIff` | internal/chatbot/http.go:160-166 | a frame decodes if and only if it begins with one or more ASCII digits immediately followed by `:` |
| `EventCodec.DecodeMaximal` | internal/chatbot/http.go:160-167 | the code dispatched on is the maximal leading digit run; no longer prefix is all digits |
| `EventCodec.EncodeDecode` | internal/chatbot/http.go:160-167 | decoding `code:payload` for any digit code gives back the code, and the text after the first colon is the payload |
| `EventCodec.DecodeEncode` | internal/chatbot/http.go:160-162 | re-encoding a decoded frame's code with its payload reproduces the frame |
| `Segmenter.ProseRun` | internal/chatbot/chatbot.go:174-176 | the run ends exactly at the first relevant delta that the tool heuristic accepts |
| `Segmenter.Segment` | internal/chatbot/chatbot.go:158-194 | the loop's chunks are the run-by-run description (each maximal prose run rendered once, each tool delta its own chunk), and its complete response is every relevant delta's text in order |
| `Segmenter.RunGrouped` | internal/chatbot/chatbot.go:172-194 | from an empty buffer, the fold of the loop followed by the final flush sends exactly the run-by-run chunks |
| `Segmenter.RunComplete` | internal/chatbot/chatbot.go:163-173 | the complete response gains exactly the text of every non-empty delta without a finish marker, prose and tool alike, in arrival order |
| `Segmenter.RunKeepsProseBuffer` | internal/chatbot/chatbot.go:174-189 | the prose buffer only ever holds non-empty text that is not tool-like |
| `Segmenter.ToolDeltaAfterProse` | internal/chatbot/chatbot.go:174-194 | in a stream made of prose deltas, then a tool-like delta, then anything, the chunks are the prose rendered once, then the tool chunk, then the chunks of the rest as if the stream started there |
| `Segmenter.IgnoredDeltaInvisible` | internal/chatbot/chatbot.go:163-173 | inserting an empty delta or one with a finish marker anywhere in a stream changes neither its chunks nor its complete response |
| `Segmenter.ProseStreamOneChunk` | internal/chatbot/chatbot.go:189-194 | a stream without tool-like deltas yields at most one chunk: the rendering of all its prose joined |
| `Segmenter.HelloWorld` | internal/chatbot/chatbot.go:189-194 | the deltas `Hello ` and `world` yield the single chunk `render("Hello world")` |
| `Segmenter.ToolPayloadShown` | internal/chatbot/chatbot.go:174-187 | a `{` delta whose `Content` parses non-empty yields only the tool-call wrapper, and the wrapper contains the first item's text |
| `Orchestrator.EffectiveSystemPrompt` | internal/chatbot/chatbot.go:113-120 | the session override when non-empty, otherwise the configured default |
| `Orchestrator.BuildMessages` | internal/chatbot/chatbot.go:137-149 | the stored transcript plus the user turn when history is on and a transcript is stored, otherwise exactly `[system, user]` |
| `Orchestrator.StreamCompletion` | internal/chatbot/chatbot.go:151-213 | the chunks are the segmented output, followed on failure by one error chunk and no transcript; on success with history the transcript is `[system, user, assistant(joined response)]` |
| `Protocol.ChunkFramesShape` | internal/chatbot/http.go:181-191 | the frames for chunks c1..cn are `04:c1, 03, …, 04:cn, 03, 05` |
| `Protocol.NoFinishBeforeEnd` | internal/chatbot/http.go:181-191 | when writing stops before the frames of the last chunk are all written, `05` is not among the frames written |
| `Protocol.EmitFrames` | internal/chatbot/http.go:181-191 | the writer loop writes exactly the prefix of those frames before the first failed write, and `05` only if no write failed |
| `Protocol.Connection.constructor` | internal/chatbot/http.go:141-143 | a new handler starts with `resetHistory` true and no stream, over the session's stored prompt and messages |
| `Protocol.Connection.HandleFrame` | internal/chatbot/http.go:158-245 | the in-place update of the handler's state and the frames written equal `Dispatch` |
| `Protocol.Connection.Serve` | internal/chatbot/http.go:144-166 | reading frames in order until one ends the handler equals `ReadLoop` |
| `Protocol.Connection.FinishStream` | internal/chatbot/http.go:179-194 | ending the stream in flight updates the state and writes frames as `EndStream` says |
| `Properties.MalformedFrameCloses` | internal/chatbot/http.go:160-166 | a frame without the `digits:` prefix gets one `08:` diagnostic, changes nothing and ends the handler |
| `Properties.UnknownCodeDiagnoses` | internal/chatbot/http.go:239-241 | any well-framed code outside the dispatched set gets one `08:` diagnostic, the state is unchanged and the loop goes on |
| `Properties.OutboundCodesRejected` | internal/chatbot/http.go:239-241 | the outbound-only codes 03, 04, 05, 08, 09 arriving inbound are treated as unknown |
| `Properties.CodesAreExact` | internal/chatbot/http.go:167-168 | `6:payload` and `006:payload` are not pings: each gets the unknown-event diagnostic quoting the frame (if the write succeeds), the state is unchanged and the loop goes on |
| `Properties.ReadLoopStopsAtMalformed` | internal/chatbot/http.go:144-166 | frames after the first malformed one are never handled, and the handler ends |
| `Properties.PingAnswersPong` | internal/chatbot/http.go:168-173 | a ping is answered by exactly `07:pong` with no state change; a failed answer ends the handler |
| `Properties.PongIsSilent` | internal/chatbot/http.go:174-175 | a pong produces nothing and changes nothing |
| `Properties.LoadAnswersDefault` | internal/chatbot/http.go:235-238 | load-system-prompt answers `15:` plus the configured default, whatever the session override is |
| `Properties.HistorySwitches` | internal/chatbot/http.go:225-234 | enable/disable history set `ChatHistory` true/false and confirm with `09:11`/`09:12`, nothing else changes |
| `Properties.SystemPromptStored` | internal/chatbot/http.go:206-213 | the payload after `02:` becomes the override, the transcript is emptied, `09:02` confirms, `resetHistory` is untouched |
| `Properties.ResetHistoryEffect` | internal/chatbot/http.go:214-224 | with `resetHistory` set nothing happens; otherwise a written `09:10` empties the transcript and sets the flag, and a failed write changes nothing |
| `Properties.ResetHistoryIdempotent` | internal/chatbot/http.go:214-224 | a second reset right after an effective one answers nothing and changes nothing |
| `Properties.CancelEffect` | internal/chatbot/http.go:196-205 | with a stream in flight cancel confirms `09:14`, empties the transcript, and sets `resetHistory`, leaving the stream to end on its own; without one nothing happens |
| `Properties.UserPromptStarts` | internal/chatbot/http.go:176-195 | a user prompt is confirmed by `09:01` and starts a stream with the effective system prompt and the continued or fresh message list; nothing else changes |
| `Properties.StreamFramesLayout` | internal/chatbot/http.go:181-191 | with no failed write a stream's frames are `04:chunk`, `03` per chunk and a final `05` |
| `Properties.SuccessKeepsOnlyLastTurn` | internal/chatbot/chatbot.go:195-208 | a successful turn with history on replaces the transcript by exactly its own system, user and assistant messages |
| `Properties.ErrorKeepsTranscript` | internal/chatbot/chatbot.go:209-212 | a failed stream leaves the transcript as it was and ends its output with one error chunk |
| `Properties.EarlyWriteFailureLosesTurn` | internal/chatbot/http.go:181-188 | a write failing before the last chunk is taken stops the frames there, with no `05`, and nothing is committed |
| `Properties.CancelledTurnForgotten` | internal/chatbot/http.go:196-205 | after a cancel that stops the stream with an error, the stream's end commits nothing, the transcript stays empty, and the output ends with that error's chunk |
| `Properties.LateCancelCommits` | internal/chatbot/chatbot.go:195-208 | after a cancel that arrives once the backend has finished cleanly, with history on and every chunk taken, the stream's end stores the turn's system, user and assistant messages, undoing the cancel's emptying |
| `Properties.NextPromptContinues` | internal/chatbot/chatbot.go:137-149 | after a committed turn the next prompt's request is that turn followed by the new user message |
| `Properties.FreshConnectionContinuesStored` | internal/chatbot/http.go:141-224 | on a fresh connection over a stored transcript, reset-history answers nothing and changes nothing, and the next prompt's request is the stored transcript plus the new user message |
| `Properties.TerseConversation` | internal/chatbot/http.go:176-213 | `02:You are terse.` then `01:2+2?` are confirmed by `09:02` and `09:01`, and a successful stream stores system, question and joined answer |

## Left out

- Websocket I/O: the upgrade, `ReadMessage` errors and close reasons, and the control-frame message types. The read loop's input is a sequence of text frames; its end stands for the read error that ends the handler.
- The BearerToken cookie check at the start of the handler, `handleIndex`, `GetTokenClaim`, `ChatBotInitialize` and `Run`. These are credentials, templates, configuration parsing and routing.
- The keepalive goroutine that writes `06:ping` every 60 seconds. It is timer-driven concurrency.
- Concurrency between the read loop and the streaming goroutines. This includes the racy shared `resetHistory`, `cancel` and `err` variables. A stream's end is one step taken after its start, and at most one stream is tracked.
- `ChatHistory` is server-wide configuration shared by every connection. Here it is a field of one connection.
- The OpenAI client, `ChatCompletionAccumulator` (its finish signals are the delta marker) and the usage log. The 300-second stream timeout is also out, because time is not modelled. A timeout is one more backend error.
- Markdown rendering and JSON decoding: the renderer and the decoder are parameters, so nothing about HTML output or JSON syntax is proved.
- The log lines written by the handler and by the streaming goroutine.
- Frames are Go byte slices, and the payload is cut at byte offset 3 (`message[3:]`). The model uses character sequences. This makes no difference for the ASCII prefixes, but a frame that is not valid UTF-8 cannot be expressed.
