/**
 * What the websocket protocol promises, stated over the model of one
 * connection: how each event changes the session and what it answers, and
 * what a stream leaves behind in the transcript.
 */
module Properties {
  import opened Wrappers
  import opened EventCodec
  import opened Segmenter
  import opened Orchestrator
  import opened Protocol

  // ---------------------------------------------------------------------------
  // Framing errors.

  /** A frame without the `digits:` prefix gets one diagnostic and ends the handler; nothing changes. */
  lemma MalformedFrameCloses(s: SessionState, defaultPrompt: string, frame: string, writeOk: bool)
    requires !HasCodePrefix(frame)
    ensures Dispatch(s, defaultPrompt, frame, writeOk) == Reply(s, Sent(UnrecognizedMessage(frame), writeOk), true)
  {
    DecodeIff(frame);
  }

  /**
   * A well-framed frame whose code the handler does not dispatch on gets one
   * diagnostic, changes nothing and the loop goes on.
   */
  lemma UnknownCodeDiagnoses(s: SessionState, defaultPrompt: string, code: string, payload: string, writeOk: bool)
    requires IsCode(code) && code !in InboundCodes
    ensures var frame := Encode(code, payload);
      Dispatch(s, defaultPrompt, frame, writeOk) == Reply(s, Sent(UnrecognizedEvent(frame), writeOk), false)
  {
    EncodeDecode(code, payload);
  }

  /** The codes the server only sends are unknown when they arrive: 03, 04, 05, 08 and 09. */
  lemma OutboundCodesRejected(s: SessionState, defaultPrompt: string, code: string, payload: string, writeOk: bool)
    requires code in {EventAssistantWait, EventAssistantOutput, EventAssistantFinish, EventDiagnostic, EventConfirmed}
    ensures var frame := Encode(code, payload);
      Dispatch(s, defaultPrompt, frame, writeOk) == Reply(s, Sent(UnrecognizedEvent(frame), writeOk), false)
  {
    UnknownCodeDiagnoses(s, defaultPrompt, code, payload, writeOk);
  }

  /** A single digit and a three-digit code are not the two-digit codes: `6:` and `006:` are not pings. */
  lemma CodesAreExact(s: SessionState, defaultPrompt: string, payload: string, writeOk: bool)
    ensures Dispatch(s, defaultPrompt, Encode("6", payload), writeOk)
         == Reply(s, Sent(UnrecognizedEvent(Encode("6", payload)), writeOk), false)
    ensures Dispatch(s, defaultPrompt, Encode("006", payload), writeOk)
         == Reply(s, Sent(UnrecognizedEvent(Encode("006", payload)), writeOk), false)
  {
    UnknownCodeDiagnoses(s, defaultPrompt, "6", payload, writeOk);
    UnknownCodeDiagnoses(s, defaultPrompt, "006", payload, writeOk);
  }

  /** After a malformed frame the read loop handles nothing more. */
  lemma {:induction false} ReadLoopStopsAtMalformed(s: SessionState, defaultPrompt: string, inbound: seq<Inbound>, k: nat)
    requires k < |inbound| && !HasCodePrefix(inbound[k].frame)
    ensures ReadLoop(s, defaultPrompt, inbound) == ReadLoop(s, defaultPrompt, inbound[..k + 1])
    ensures ReadLoop(s, defaultPrompt, inbound).close
    decreases k
  {
    var r := Dispatch(s, defaultPrompt, inbound[0].frame, inbound[0].writeOk);
    assert inbound[..k + 1][0] == inbound[0];
    if k == 0 {
      MalformedFrameCloses(s, defaultPrompt, inbound[0].frame, inbound[0].writeOk);
    } else if !r.close {
      assert inbound[..k + 1][1..] == inbound[1..][..k];
      ReadLoopStopsAtMalformed(r.state, defaultPrompt, inbound[1..], k - 1);
    }
  }

  // ---------------------------------------------------------------------------
  // Events that only answer.

  /** A ping is answered with `07:pong` and changes nothing; a failed answer ends the handler. */
  lemma PingAnswersPong(s: SessionState, defaultPrompt: string, payload: string, writeOk: bool)
    ensures Dispatch(s, defaultPrompt, Encode(EventPing, payload), writeOk)
         == Reply(s, if writeOk then ["07:pong"] else [], !writeOk)
  {
    EncodeDecode(EventPing, payload);
    assert PongFrame == "07:pong";
  }

  /** A pong is taken silently. */
  lemma PongIsSilent(s: SessionState, defaultPrompt: string, payload: string, writeOk: bool)
    ensures Dispatch(s, defaultPrompt, Encode(EventPong, payload), writeOk) == Reply(s, [], false)
  {
    EncodeDecode(EventPong, payload);
  }

  /** Load-system-prompt answers with the configured default, never the session's override. */
  lemma LoadAnswersDefault(s: SessionState, defaultPrompt: string, payload: string, writeOk: bool)
    ensures Dispatch(s, defaultPrompt, Encode(EventLoadSystemPrompt, payload), writeOk)
         == Reply(s, Sent("15:" + defaultPrompt, writeOk), false)
  {
    EncodeDecode(EventLoadSystemPrompt, payload);
    assert Encode(EventLoadSystemPrompt, defaultPrompt) == "15:" + defaultPrompt;
  }

  // ---------------------------------------------------------------------------
  // Events that change the session.

  /** Enable and disable history set the switch and confirm with `09:11` and `09:12`; nothing else changes. */
  lemma HistorySwitches(s: SessionState, defaultPrompt: string, payload: string, writeOk: bool)
    ensures Dispatch(s, defaultPrompt, Encode(EventEnableHistory, payload), writeOk)
         == Reply(s.(chatHistory := true), Sent("09:11", writeOk), false)
    ensures Dispatch(s, defaultPrompt, Encode(EventDisableHistory, payload), writeOk)
         == Reply(s.(chatHistory := false), Sent("09:12", writeOk), false)
  {
    EncodeDecode(EventEnableHistory, payload);
    EncodeDecode(EventDisableHistory, payload);
    assert Confirm(EventEnableHistory) == "09:11" && Confirm(EventDisableHistory) == "09:12";
  }

  /**
   * A system prompt stores its payload as the override and empties the
   * transcript, confirmed by `09:02`; `resetHistory` and the stream are untouched.
   */
  lemma SystemPromptStored(s: SessionState, defaultPrompt: string, prompt: string, writeOk: bool)
    ensures Dispatch(s, defaultPrompt, Encode(EventSystemPrompt, prompt), writeOk)
         == Reply(s.(systemPrompt := prompt, messages := []), Sent("09:02", writeOk), false)
  {
    EncodeDecode(EventSystemPrompt, prompt);
    assert Confirm(EventSystemPrompt) == "09:02";
  }

  /**
   * Reset-history when the flag is already set does nothing and answers
   * nothing; otherwise a successful `09:10` is followed by an empty transcript
   * and the flag set, and a failed write changes nothing.
   */
  lemma ResetHistoryEffect(s: SessionState, defaultPrompt: string, payload: string, writeOk: bool)
    ensures var r := Dispatch(s, defaultPrompt, Encode(EventResetHistory, payload), writeOk);
      if !s.resetHistory && writeOk
      then r == Reply(s.(messages := [], resetHistory := true), ["09:10"], false)
      else r == Reply(s, [], false)
  {
    EncodeDecode(EventResetHistory, payload);
    assert Confirm(EventResetHistory) == "09:10";
  }

  /** Two resets in a row are one: the second answers nothing and changes nothing. */
  lemma ResetHistoryIdempotent(s: SessionState, defaultPrompt: string, p: string, q: string, w1: bool, w2: bool)
    requires s.resetHistory || w1
    ensures var r1 := Dispatch(s, defaultPrompt, Encode(EventResetHistory, p), w1);
      r1.state.resetHistory
      && Dispatch(r1.state, defaultPrompt, Encode(EventResetHistory, q), w2) == Reply(r1.state, [], false)
  {
    ResetHistoryEffect(s, defaultPrompt, p, w1);
    var r1 := Dispatch(s, defaultPrompt, Encode(EventResetHistory, p), w1);
    ResetHistoryEffect(r1.state, defaultPrompt, q, w2);
  }

  /**
   * Cancel acts only while a stream is in flight: it confirms with `09:14`,
   * empties the transcript and sets `resetHistory`; the stream stays in flight.
   * Without a stream it answers nothing and changes nothing.
   */
  lemma CancelEffect(s: SessionState, defaultPrompt: string, payload: string, writeOk: bool)
    ensures var r := Dispatch(s, defaultPrompt, Encode(EventCancelUserPrompt, payload), writeOk);
      if s.stream.Some?
      then r == Reply(s.(messages := [], resetHistory := true),
                      Sent("09:14", writeOk), false)
      else r == Reply(s, [], false)
  {
    EncodeDecode(EventCancelUserPrompt, payload);
    assert Confirm(EventCancelUserPrompt) == "09:14";
  }

  /**
   * A user prompt is confirmed with `09:01` and starts a stream whose request
   * continues the stored transcript when history is on and one is stored, and
   * is a fresh system/user pair otherwise; the rest of the state is unchanged.
   */
  lemma UserPromptStarts(s: SessionState, defaultPrompt: string, prompt: string, writeOk: bool)
    ensures var r := Dispatch(s, defaultPrompt, Encode(EventUserPrompt, prompt), writeOk);
      var sp := if s.systemPrompt == "" then defaultPrompt else s.systemPrompt;
      var request := if s.chatHistory && s.messages != [] then s.messages + [Message(User, prompt)]
                     else [Message(System, sp), Message(User, prompt)];
      && r.frames == Sent("09:01", writeOk) && !r.close
      && r.state == s.(stream := Some(Turn(sp, prompt, request)))
  {
    EncodeDecode(EventUserPrompt, prompt);
    assert Confirm(EventUserPrompt) == "09:01";
    var sp := EffectiveSystemPrompt(s.systemPrompt, defaultPrompt);
    var msgs := BuildMessages(s.chatHistory, s.messages, sp, prompt);
    if s.chatHistory && s.messages != [] {
      assert msgs == msgs[..|msgs| - 1] + [msgs[|msgs| - 1]];
    }
  }

  // ---------------------------------------------------------------------------
  // The end of a stream.

  /**
   * When no write fails, the frames of a stream are `04:<chunk>` and `03` for
   * each chunk, in order, then `05`.
   */
  lemma StreamFramesLayout(s: SessionState, deltas: seq<Delta>, streamErr: Option<string>,
                           render: Renderer, parse: ContentParser)
    requires s.stream.Some?
    ensures var frames := EndStream(s, deltas, streamErr, None, render, parse).frames;
      var chunks := Completed(s.stream.value.systemPrompt, s.stream.value.prompt, deltas,
                              streamErr, s.chatHistory, render, parse).chunks;
      && |frames| == 2 * |chunks| + 1
      && (forall i :: 0 <= i < |chunks| ==> frames[2 * i] == "04:" + chunks[i] && frames[2 * i + 1] == "03")
      && frames[|frames| - 1] == "05"
  {
    var t := s.stream.value;
    ChunkFramesShape(Completed(t.systemPrompt, t.prompt, deltas, streamErr, s.chatHistory, render, parse).chunks);
  }

  /**
   * Single-turn memory: a successful stream with history on
   * replaces the transcript by exactly its own system, user and assistant
   * messages, the assistant text joining every relevant delta; whatever was
   * stored before is gone.
   */
  lemma SuccessKeepsOnlyLastTurn(s: SessionState, deltas: seq<Delta>, failAt: Option<nat>,
                                 render: Renderer, parse: ContentParser)
    requires s.stream.Some? && s.chatHistory
    requires AllChunksTaken(|Grouped(deltas, render, parse)|, failAt)
    ensures var r := EndStream(s, deltas, None, failAt, render, parse);
      && r.state.messages == [Message(System, s.stream.value.systemPrompt), Message(User, s.stream.value.prompt),
                              Message(Assistant, Join(Kept(deltas)))]
      && !r.state.resetHistory && r.state.stream.None?
  {
  }

  /**
   * A failed stream ends with one error chunk after the segmented output and
   * leaves the transcript as it was.
   */
  lemma ErrorKeepsTranscript(s: SessionState, deltas: seq<Delta>, detail: string, failAt: Option<nat>,
                             render: Renderer, parse: ContentParser)
    requires s.stream.Some?
    ensures var r := EndStream(s, deltas, Some(detail), failAt, render, parse);
      && r.state.messages == s.messages
      && (failAt.None? ==> r.frames == ChunkFrames(Grouped(deltas, render, parse) + [ErrorChunk(detail)]))
  {
  }

  /**
   * A write that fails before the last chunk is taken leaves the streaming
   * goroutine blocked on its next send: the transcript is not committed.
   */
  lemma EarlyWriteFailureLosesTurn(s: SessionState, deltas: seq<Delta>, streamErr: Option<string>, k: nat,
                                   render: Renderer, parse: ContentParser)
    requires s.stream.Some?
    requires k + 2 < 2 * |Grouped(deltas, render, parse)|
    ensures var r := EndStream(s, deltas, streamErr, Some(k), render, parse);
      && r.state.messages == s.messages
      && |r.frames| == k
      && EventAssistantFinish !in r.frames
  {
    var t := s.stream.value;
    var c := Completed(t.systemPrompt, t.prompt, deltas, streamErr, s.chatHistory, render, parse);
    var chunks := c.chunks;
    assert !AllChunksTaken(|chunks|, Some(k)) by {
      assert |chunks| >= |Grouped(deltas, render, parse)|;
    }
    NoFinishBeforeEnd(chunks, k);
    assert EndStream(s, deltas, streamErr, Some(k), render, parse).frames == ChunkFrames(chunks)[..k];
  }

  /**
   * A cancel that stops the stream before it finishes (the stream then
   * reports an error) leaves the turn forgotten: cancel empties the
   * transcript and the failed stream commits nothing; its output ends with the
   * error chunk.
   */
  lemma CancelledTurnForgotten(s: SessionState, defaultPrompt: string, payload: string, writeOk: bool,
                               deltas: seq<Delta>, detail: string, failAt: Option<nat>,
                               render: Renderer, parse: ContentParser)
    requires s.stream.Some?
    ensures var c := Dispatch(s, defaultPrompt, Encode(EventCancelUserPrompt, payload), writeOk).state;
      var r := EndStream(c, deltas, Some(detail), failAt, render, parse);
      && c.stream.Some?
      && r.state.messages == []
      && (failAt.None? ==> r.frames == ChunkFrames(Grouped(deltas, render, parse) + [ErrorChunk(detail)]))
  {
    CancelEffect(s, defaultPrompt, payload, writeOk);
  }

  /**
   * A cancel that comes after the backend has finished cleanly (the goroutine
   * is still sending its last chunks) does not stop the commit: with history
   * on, the turn the cancel meant to discard is stored after all.
   */
  lemma LateCancelCommits(s: SessionState, defaultPrompt: string, payload: string, writeOk: bool,
                          deltas: seq<Delta>, failAt: Option<nat>, render: Renderer, parse: ContentParser)
    requires s.stream.Some? && s.chatHistory
    requires AllChunksTaken(|Grouped(deltas, render, parse)|, failAt)
    ensures var c := Dispatch(s, defaultPrompt, Encode(EventCancelUserPrompt, payload), writeOk).state;
      var r := EndStream(c, deltas, None, failAt, render, parse);
      && c.messages == [] && c.resetHistory
      && r.state.messages == [Message(System, s.stream.value.systemPrompt), Message(User, s.stream.value.prompt),
                              Message(Assistant, Join(Kept(deltas)))]
      && !r.state.resetHistory
  {
    CancelEffect(s, defaultPrompt, payload, writeOk);
  }

  /** After a committed turn, the next prompt continues it: the request is the kept turn plus the new prompt. */
  lemma NextPromptContinues(s: SessionState, defaultPrompt: string, deltas: seq<Delta>, prompt: string, writeOk: bool,
                            render: Renderer, parse: ContentParser)
    requires s.stream.Some? && s.chatHistory
    ensures var e := EndStream(s, deltas, None, None, render, parse).state;
      var r := Dispatch(e, defaultPrompt, Encode(EventUserPrompt, prompt), writeOk);
      && r.state.stream.Some?
      && r.state.stream.value.request
         == [Message(System, s.stream.value.systemPrompt), Message(User, s.stream.value.prompt),
             Message(Assistant, Join(Kept(deltas))), Message(User, prompt)]
  {
    var e := EndStream(s, deltas, None, None, render, parse).state;
    UserPromptStarts(e, defaultPrompt, prompt, writeOk);
  }

  /**
   * A whole conversation on a fresh connection with history on: `02:You are
   * terse.` is confirmed with `09:02`, `01:2+2?` with `09:01`, and after a
   * successful stream the transcript is the system prompt, the question and
   * the joined answer.
   */
  lemma TerseConversation(storedPrompt: string, stored: seq<Message>, defaultPrompt: string, deltas: seq<Delta>,
                          render: Renderer, parse: ContentParser)
    ensures var s0 := Connected(storedPrompt, stored, true);
      var r1 := Dispatch(s0, defaultPrompt, "02:You are terse.", true);
      var r2 := Dispatch(r1.state, defaultPrompt, "01:2+2?", true);
      && r1.frames == ["09:02"] && r2.frames == ["09:01"]
      && r2.state.stream.Some?
      && EndStream(r2.state, deltas, None, None, render, parse).state.messages
         == [Message(System, "You are terse."), Message(User, "2+2?"), Message(Assistant, Join(Kept(deltas)))]
  {
    var s0 := Connected(storedPrompt, stored, true);
    assert "02:You are terse." == Encode(EventSystemPrompt, "You are terse.");
    SystemPromptStored(s0, defaultPrompt, "You are terse.", true);
    var r1 := Dispatch(s0, defaultPrompt, "02:You are terse.", true);
    assert "01:2+2?" == Encode(EventUserPrompt, "2+2?");
    UserPromptStarts(r1.state, defaultPrompt, "2+2?", true);
  }

  /**
   * On a fresh connection over a stored transcript, reset-history is refused
   * (the flag starts set), and the next prompt, with history on, continues the
   * stored transcript.
   */
  lemma FreshConnectionContinuesStored(storedPrompt: string, stored: seq<Message>, defaultPrompt: string,
                                       p: string, prompt: string, w1: bool, w2: bool)
    requires stored != []
    ensures var s0 := Connected(storedPrompt, stored, true);
      var r1 := Dispatch(s0, defaultPrompt, Encode(EventResetHistory, p), w1);
      var r2 := Dispatch(r1.state, defaultPrompt, Encode(EventUserPrompt, prompt), w2);
      && r1 == Reply(s0, [], false)
      && r2.state.stream.Some?
      && r2.state.stream.value.request == stored + [Message(User, prompt)]
  {
    var s0 := Connected(storedPrompt, stored, true);
    ResetHistoryEffect(s0, defaultPrompt, p, w1);
    UserPromptStarts(s0, defaultPrompt, prompt, w2);
  }
}
