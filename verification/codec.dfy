/**
 * Wire framing of the chat websocket: every text frame is `<code>:<payload>`,
 * where the code is a run of ASCII digits. Inbound frames are recognised by the
 * regular expression `^(\d+):`; outbound frames are built by concatenation.
 */
module EventCodec {
  import opened Wrappers

  // The fixed event codes of the protocol.
  const EventUserPrompt: string := "01"
  const EventSystemPrompt: string := "02"
  const EventAssistantWait: string := "03"
  const EventAssistantOutput: string := "04"
  const EventAssistantFinish: string := "05"
  const EventPing: string := "06"
  const EventPong: string := "07"
  const EventDiagnostic: string := "08"
  const EventConfirmed: string := "09"
  const EventResetHistory: string := "10"
  const EventEnableHistory: string := "11"
  const EventDisableHistory: string := "12"
  const EventCancelUserPrompt: string := "14"
  const EventLoadSystemPrompt: string := "15"

  /** The codes the read loop dispatches on; every other code is answered with a diagnostic. */
  const InboundCodes: set<string> := {
    EventUserPrompt, EventSystemPrompt, EventPing, EventPong, EventResetHistory,
    EventEnableHistory, EventDisableHistory, EventCancelUserPrompt, EventLoadSystemPrompt
  }

  /** `\d` of the regular expression: ASCII digits only. */
  predicate IsDigit(c: char) {
    '0' <= c <= '9'
  }

  predicate AllDigits(s: string) {
    forall i :: 0 <= i < |s| ==> IsDigit(s[i])
  }

  /** A well-formed event code: one or more digits. */
  predicate IsCode(code: string) {
    |code| > 0 && AllDigits(code)
  }

  /** The length of the maximal run of digits at the start of `s`. */
  function DigitRun(s: string): (n: nat)
    ensures n <= |s|
    ensures AllDigits(s[..n])
    ensures n < |s| ==> !IsDigit(s[n])
  {
    if s == [] || !IsDigit(s[0]) then 0
    else
      var n := 1 + DigitRun(s[1..]);
      assert s[..n] == [s[0]] + s[1..][..n - 1];
      n
  }

  /** The frame starts with one or more digits immediately followed by a colon. */
  ghost predicate HasCodePrefix(frame: string) {
    exists n :: 0 < n < |frame| && AllDigits(frame[..n]) && frame[n] == ':'
  }

  /**
   * Matches `^(\d+):` against the frame; on a match the result is the captured
   * digit run (the event code), otherwise the frame is malformed.
   */
  function Decode(frame: string): (code: Option<string>)
    ensures code.Some? ==> IsCode(code.value) && |code.value| < |frame|
    ensures code.Some? ==> frame[..|code.value|] == code.value && frame[|code.value|] == ':'
  {
    var n := DigitRun(frame);
    if 0 < n < |frame| && frame[n] == ':' then Some(frame[..n]) else None
  }

  /** Everything after the first colon of a decoded frame. */
  function Payload(frame: string, code: string): string
    requires |code| < |frame|
  {
    frame[|code| + 1..]
  }

  /** An outbound frame `<code>:<payload>`; no escaping is done. */
  function Encode(code: string, payload: string): string {
    code + ":" + payload
  }

  /** A digit run that stops at a non-digit is the maximal one. */
  lemma {:induction false} DigitRunIs(s: string, n: nat)
    requires n < |s| && AllDigits(s[..n]) && !IsDigit(s[n])
    ensures DigitRun(s) == n
  {
    if n > 0 {
      assert IsDigit(s[..n][0]);
      assert s[1..][..n - 1] == s[..n][1..];
      DigitRunIs(s[1..], n - 1);
    }
  }

  /** A frame decodes exactly when it begins with digits followed by a colon. */
  lemma DecodeIff(frame: string)
    ensures Decode(frame).Some? <==> HasCodePrefix(frame)
  {
    if HasCodePrefix(frame) {
      var n :| 0 < n < |frame| && AllDigits(frame[..n]) && frame[n] == ':';
      DigitRunIs(frame, n);
    }
  }

  /** The decoded code is the maximal leading digit run, whatever follows the colon. */
  lemma DecodeMaximal(frame: string)
    requires Decode(frame).Some?
    ensures Decode(frame).value == frame[..DigitRun(frame)]
    ensures forall k :: |Decode(frame).value| < k <= |frame| ==> !AllDigits(frame[..k])
  {
    var code := Decode(frame).value;
    forall k | |code| < k <= |frame|
      ensures !AllDigits(frame[..k])
    {
      assert frame[..k][|code|] == ':';
    }
  }

  /** Decoding an encoded frame gives back its code. */
  lemma EncodeDecode(code: string, payload: string)
    requires IsCode(code)
    ensures Decode(Encode(code, payload)) == Some(code)
    ensures Payload(Encode(code, payload), code) == payload
  {
    var f := Encode(code, payload);
    assert f[..|code|] == code;
    assert f[|code|] == ':';
    DigitRunIs(f, |code|);
  }

  /** Re-encoding a decoded frame with its payload reproduces the frame. */
  lemma DecodeEncode(frame: string)
    requires Decode(frame).Some?
    ensures Encode(Decode(frame).value, Payload(frame, Decode(frame).value)) == frame
  {
    var code := Decode(frame).value;
    assert frame == frame[..|code|] + [frame[|code|]] + frame[|code| + 1..];
  }
}
