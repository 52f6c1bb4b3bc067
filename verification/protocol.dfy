/**
 * The websocket handler of one connection: its read loop dispatching on the
 * event code of each inbound frame, and the goroutine that writes a stream's
 * chunks back as frames.
 *
 * The state is what the handler keeps between frames: its `resetHistory`
 * flag, the stream in flight (which is what makes a cancel handle present),
 * the session's `messages` and `systemPrompt`, and the configured
 * `ChatHistory` switch. A stream's end is one sequential step.
 */
module Protocol {
  import opened Wrappers
  import opened EventCodec
  import opened Segmenter
  import opened Orchestrator

  /** The stream in flight: the system prompt and user prompt it was started with, and the messages it sent. */
  datatype Turn = Turn(systemPrompt: string, prompt: string, request: seq<Message>)

  datatype SessionState = SessionState(
    resetHistory: bool,
    stream: Option<Turn>,
    messages: seq<Message>,
    systemPrompt: string,
    chatHistory: bool)

  /** The state after a step, the frames written, and whether the handler returns (closing the connection). */
  datatype Reply = Reply(state: SessionState, frames: seq<string>, close: bool)

  /** The state of a fresh connection over a session that already stores a prompt and messages. */
  function Connected(storedPrompt: string, storedMessages: seq<Message>, chatHistory: bool): SessionState {
    SessionState(true, None, storedMessages, storedPrompt, chatHistory)
  }

  const WebsocketErrorOpen: string := "<p style=\"color: red;\"><strong>Websocket error: </strong>"

  /** The diagnostic for a frame without the `digits:` prefix. */
  function UnrecognizedMessage(frame: string): string {
    Encode(EventDiagnostic, WebsocketErrorOpen + "received unrecognized websocket message: \"" + frame + "\"</p>")
  }

  /** The diagnostic for a well-framed frame whose code the handler does not know. */
  function UnrecognizedEvent(frame: string): string {
    Encode(EventDiagnostic, WebsocketErrorOpen + "received unrecognized websocket event: \"" + frame + "\"</p>")
  }

  function Confirm(code: string): string {
    Encode(EventConfirmed, code)
  }

  const PongFrame: string := Encode(EventPong, "pong")

  /** The frames that reach the peer from one write. */
  function Sent(frame: string, writeOk: bool): seq<string> {
    if writeOk then [frame] else []
  }

  /** What a user prompt starts: the resolved system prompt and the messages sent to the backend. */
  function StartTurn(s: SessionState, defaultPrompt: string, prompt: string): Turn {
    var sp := EffectiveSystemPrompt(s.systemPrompt, defaultPrompt);
    Turn(sp, prompt, BuildMessages(s.chatHistory, s.messages, sp, prompt))
  }

  /**
   * One inbound text frame. `writeOk` says whether the one reply write of this
   * step succeeds. The payload of a recognised (two-digit) code starts at index 3.
   */
  function Dispatch(s: SessionState, defaultPrompt: string, frame: string, writeOk: bool): Reply {
    match Decode(frame)
    case None => Reply(s, Sent(UnrecognizedMessage(frame), writeOk), true)
    case Some(code) =>
      if code == EventPing then
        Reply(s, Sent(PongFrame, writeOk), !writeOk)
      else if code == EventPong then
        Reply(s, [], false)
      else if code == EventUserPrompt then
        Reply(s.(stream := Some(StartTurn(s, defaultPrompt, frame[3..]))),
              Sent(Confirm(EventUserPrompt), writeOk), false)
      else if code == EventCancelUserPrompt then
        if s.stream.Some? then
          Reply(s.(messages := [], resetHistory := true),
                Sent(Confirm(EventCancelUserPrompt), writeOk), false)
        else Reply(s, [], false)
      else if code == EventSystemPrompt then
        Reply(s.(systemPrompt := frame[3..], messages := []), Sent(Confirm(EventSystemPrompt), writeOk), false)
      else if code == EventResetHistory then
        if !s.resetHistory && writeOk then
          Reply(s.(messages := [], resetHistory := true), [Confirm(EventResetHistory)], false)
        else Reply(s, [], false)
      else if code == EventDisableHistory then
        Reply(s.(chatHistory := false), Sent(Confirm(EventDisableHistory), writeOk), false)
      else if code == EventEnableHistory then
        Reply(s.(chatHistory := true), Sent(Confirm(EventEnableHistory), writeOk), false)
      else if code == EventLoadSystemPrompt then
        Reply(s, Sent(Encode(EventLoadSystemPrompt, defaultPrompt), writeOk), false)
      else
        Reply(s, Sent(UnrecognizedEvent(frame), writeOk), false)
  }

  /** One read from the socket: the frame and whether the reply write for it succeeds. */
  datatype Inbound = Inbound(frame: string, writeOk: bool)

  /** The read loop over the frames that arrive, until the handler returns or no more frames arrive. */
  function ReadLoop(s: SessionState, defaultPrompt: string, inbound: seq<Inbound>): Reply
    decreases |inbound|
  {
    if inbound == [] then Reply(s, [], false)
    else
      var r := Dispatch(s, defaultPrompt, inbound[0].frame, inbound[0].writeOk);
      if r.close then r
      else
        var rest := ReadLoop(r.state, defaultPrompt, inbound[1..]);
        Reply(rest.state, r.frames + rest.frames, rest.close)
  }

  /**
   * One turn of the read loop: if `total` is what is written so far followed
   * by the loop from frame `i`, it is also what is written after frame `i`
   * (step `r`) followed by the loop from `i + 1`, or stops at `r` when the
   * handler returns there.
   */
  lemma ReadLoopStep(total: Reply, s: SessionState, defaultPrompt: string, inbound: seq<Inbound>, i: nat,
                     frames: seq<string>, r: Reply)
    requires i < |inbound|
    requires r == Dispatch(s, defaultPrompt, inbound[i].frame, inbound[i].writeOk)
    requires var rest := ReadLoop(s, defaultPrompt, inbound[i..]);
      total == Reply(rest.state, frames + rest.frames, rest.close)
    ensures r.close ==> total == Reply(r.state, frames + r.frames, true)
    ensures !r.close ==> var rest := ReadLoop(r.state, defaultPrompt, inbound[i + 1..]);
      total == Reply(rest.state, (frames + r.frames) + rest.frames, rest.close)
  {
    assert inbound[i..][0] == inbound[i] && inbound[i..][1..] == inbound[i + 1..];
    if !r.close {
      var rest := ReadLoop(r.state, defaultPrompt, inbound[i + 1..]);
      assert frames + (r.frames + rest.frames) == (frames + r.frames) + rest.frames;
    }
  }

  // ---------------------------------------------------------------------------
  // The end of a stream.

  /** `04:<chunk>` followed by `03` for each chunk. */
  function WaitFrames(chunks: seq<string>): seq<string> {
    if chunks == [] then []
    else WaitFrames(chunks[..|chunks| - 1]) + [Encode(EventAssistantOutput, chunks[|chunks| - 1]), EventAssistantWait]
  }

  /** All frames for a stream's chunks when no write fails; the final `05` carries no colon. */
  function ChunkFrames(chunks: seq<string>): seq<string> {
    WaitFrames(chunks) + [EventAssistantFinish]
  }

  /** The frames that reach the peer when write number `failAt` (from 0) fails and writing stops there. */
  function Delivered(frames: seq<string>, failAt: Option<nat>): seq<string> {
    if failAt.Some? && failAt.value < |frames| then frames[..failAt.value] else frames
  }

  /**
   * The streaming goroutine sends its chunks on an unbuffered channel: it gets
   * past its last send, and so to its commit, only if the writer took every
   * chunk, that is, if no write for the first `count - 1` chunks failed.
   */
  predicate AllChunksTaken(count: nat, failAt: Option<nat>) {
    failAt.None? || 2 * (count - 1) <= failAt.value
  }

  /**
   * The end of the stream in flight: its chunks are written as frames, the
   * transcript is committed when the stream succeeded, history is on and the
   * streaming goroutine got that far; then `resetHistory` is cleared and the
   * cancel handle dropped. `streamErr` is the error the stream reports when it
   * stops; a cancel, a timeout or a backend failure that stops the stream
   * before it finishes shows up there, and one that comes later does not.
   */
  function EndStream(s: SessionState, deltas: seq<Delta>, streamErr: Option<string>, failAt: Option<nat>,
                     render: Renderer, parse: ContentParser): Reply
    requires s.stream.Some?
  {
    var t := s.stream.value;
    var c := Completed(t.systemPrompt, t.prompt, deltas, streamErr, s.chatHistory, render, parse);
    var committed := c.transcript.Some? && AllChunksTaken(|c.chunks|, failAt);
    Reply(s.(resetHistory := false, stream := None, messages := if committed then c.transcript.value else s.messages),
          Delivered(ChunkFrames(c.chunks), failAt), false)
  }

  /** The layout of the frames written for a stream. */
  lemma {:induction false} ChunkFramesShape(chunks: seq<string>)
    ensures |ChunkFrames(chunks)| == 2 * |chunks| + 1
    ensures forall i :: 0 <= i < |chunks| ==>
      ChunkFrames(chunks)[2 * i] == Encode(EventAssistantOutput, chunks[i]) && ChunkFrames(chunks)[2 * i + 1] == EventAssistantWait
    ensures ChunkFrames(chunks)[2 * |chunks|] == EventAssistantFinish
  {
    WaitFramesShape(chunks);
  }

  /** Before the last chunk's frames are all written, no `05` has been written. */
  lemma NoFinishBeforeEnd(chunks: seq<string>, k: nat)
    requires k <= 2 * |chunks|
    ensures k < |ChunkFrames(chunks)| && EventAssistantFinish !in ChunkFrames(chunks)[..k]
  {
    var all := ChunkFrames(chunks);
    ChunkFramesShape(chunks);
    forall i | 0 <= i < k
      ensures all[..k][i] != EventAssistantFinish
    {
      if i % 2 == 0 {
        assert all[2 * (i / 2)] == Encode(EventAssistantOutput, chunks[i / 2]);
        assert all[..k][i][1] == '4';
      } else {
        assert all[2 * (i / 2) + 1] == EventAssistantWait;
      }
    }
  }

  lemma {:induction false} WaitFramesShape(chunks: seq<string>)
    ensures |WaitFrames(chunks)| == 2 * |chunks|
    ensures forall i :: 0 <= i < |chunks| ==>
      WaitFrames(chunks)[2 * i] == Encode(EventAssistantOutput, chunks[i]) && WaitFrames(chunks)[2 * i + 1] == EventAssistantWait
  {
    if chunks != [] {
      var init := chunks[..|chunks| - 1];
      WaitFramesShape(init);
      forall i | 0 <= i < |init|
        ensures chunks[i] == init[i]
      {
      }
    }
  }

  /**
   * The writer loop: `04:<chunk>` and `03` per chunk, stopping at the first
   * failed write, then `05` if nothing failed.
   */
  method EmitFrames(chunks: seq<string>, failAt: Option<nat>) returns (written: seq<string>)
    ensures written == Delivered(ChunkFrames(chunks), failAt)
  {
    ChunkFramesShape(chunks);
    ghost var all := ChunkFrames(chunks);
    written := [];
    var attempts := 0;
    var failed := false;
    var i := 0;
    while i < |chunks| && !failed
      invariant 0 <= i <= |chunks|
      invariant attempts <= 2 * i <= |all| - 1
      invariant written == all[..attempts]
      invariant !failed ==> attempts == 2 * i && (failAt.Some? ==> attempts <= failAt.value)
      invariant failed ==> failAt == Some(attempts)
    {
      if failAt == Some(attempts) {
        failed := true;
      } else {
        assert all[..attempts + 1] == all[..attempts] + [all[attempts]];
        written := written + [Encode(EventAssistantOutput, chunks[i])];
        attempts := attempts + 1;
        if failAt == Some(attempts) {
          failed := true;
        } else {
          assert all[..attempts + 1] == all[..attempts] + [all[attempts]];
          written := written + [EventAssistantWait];
          attempts := attempts + 1;
        }
      }
      i := i + 1;
    }
    if !failed && failAt != Some(attempts) {
      assert all[..attempts + 1] == all[..attempts] + [all[attempts]];
      written := written + [EventAssistantFinish];
      assert written == all;
    }
  }

  /**
   * The connection handler's state, updated in place by the read loop and by
   * the end of each stream.
   */
  class Connection {
    /** The configured default system prompt. */
    const defaultPrompt: string
    var resetHistory: bool
    var stream: Option<Turn>
    var messages: seq<Message>
    var systemPrompt: string
    var chatHistory: bool

    function State(): SessionState
      reads this
    {
      SessionState(resetHistory, stream, messages, systemPrompt, chatHistory)
    }

    /** A new connection: `resetHistory` starts true, no stream is in flight; the session keeps what it stored. */
    constructor (defaultPrompt: string, storedPrompt: string, storedMessages: seq<Message>, chatHistory: bool)
      ensures this.defaultPrompt == defaultPrompt
      ensures State() == Connected(storedPrompt, storedMessages, chatHistory)
    {
      this.defaultPrompt := defaultPrompt;
      resetHistory := true;
      stream := None;
      messages := storedMessages;
      systemPrompt := storedPrompt;
      this.chatHistory := chatHistory;
    }

    /** One iteration of the read loop, on a text frame. */
    method HandleFrame(frame: string, writeOk: bool) returns (frames: seq<string>, close: bool)
      modifies this
      ensures Reply(State(), frames, close) == Dispatch(old(State()), defaultPrompt, frame, writeOk)
    {
      frames, close := [], false;
      var decoded := Decode(frame);
      if decoded.None? {
        frames := Sent(UnrecognizedMessage(frame), writeOk);
        close := true;
        return;
      }
      var code := decoded.value;
      if code == EventPing {
        frames := Sent(PongFrame, writeOk);
        close := !writeOk;
      } else if code == EventPong {
      } else if code == EventUserPrompt {
        stream := Some(StartTurn(State(), defaultPrompt, frame[3..]));
        frames := Sent(Confirm(EventUserPrompt), writeOk);
      } else if code == EventCancelUserPrompt {
        if stream.Some? {
          frames := Sent(Confirm(EventCancelUserPrompt), writeOk);
          messages := [];
          resetHistory := true;
        }
      } else if code == EventSystemPrompt {
        systemPrompt := frame[3..];
        messages := [];
        frames := Sent(Confirm(EventSystemPrompt), writeOk);
      } else if code == EventResetHistory {
        if !resetHistory && writeOk {
          frames := [Confirm(EventResetHistory)];
          messages := [];
          resetHistory := true;
        }
      } else if code == EventDisableHistory {
        chatHistory := false;
        frames := Sent(Confirm(EventDisableHistory), writeOk);
      } else if code == EventEnableHistory {
        chatHistory := true;
        frames := Sent(Confirm(EventEnableHistory), writeOk);
      } else if code == EventLoadSystemPrompt {
        frames := Sent(Encode(EventLoadSystemPrompt, defaultPrompt), writeOk);
      } else {
        frames := Sent(UnrecognizedEvent(frame), writeOk);
      }
    }

    /** The read loop: frames are handled in order until one makes the handler return. */
    method Serve(inbound: seq<Inbound>) returns (frames: seq<string>, close: bool)
      modifies this
      ensures Reply(State(), frames, close) == ReadLoop(old(State()), defaultPrompt, inbound)
    {
      frames, close := [], false;
      ghost var total := ReadLoop(State(), defaultPrompt, inbound);
      var i := 0;
      while i < |inbound| && !close
        invariant 0 <= i <= |inbound|
        invariant !close ==> var rest := ReadLoop(State(), defaultPrompt, inbound[i..]);
          total == Reply(rest.state, frames + rest.frames, rest.close)
        invariant close ==> total == Reply(State(), frames, true)
      {
        ghost var before := State();
        var out, stop := HandleFrame(inbound[i].frame, inbound[i].writeOk);
        ReadLoopStep(total, before, defaultPrompt, inbound, i, frames, Reply(State(), out, stop));
        frames := frames + out;
        close := stop;
        i := i + 1;
      }
      if !close {
        assert inbound[i..] == [];
      }
    }

    /** The stream in flight ends: its chunks are written and the session updated. */
    method FinishStream(deltas: seq<Delta>, streamErr: Option<string>, failAt: Option<nat>,
                        render: Renderer, parse: ContentParser) returns (frames: seq<string>)
      requires stream.Some?
      modifies this
      ensures Reply(State(), frames, false) == EndStream(old(State()), deltas, streamErr, failAt, render, parse)
    {
      var t := stream.value;
      var chunks, transcript := StreamCompletion(t.systemPrompt, t.prompt, deltas, streamErr,
                                                 chatHistory, render, parse);
      frames := EmitFrames(chunks, failAt);
      if transcript.Some? && AllChunksTaken(|chunks|, failAt) {
        messages := transcript.value;
      }
      resetHistory := false;
      stream := None;
    }
  }
}
