/**
 * The control-message handler of the realtime client
 * (`handleDataChannelMessage`): one inbound data-channel message becomes zero
 * or one voice event, and a message that cannot be parsed is dropped.
 */
module Normalizer {
  import opened Wrappers
  import opened VoiceEvents

  /**
   * What the handler reads from a parsed message: `type` (None when absent or
   * not a string, so that no case of the switch matches) and `transcript`
   * (None when absent).
   */
  datatype Msg = Msg(kind: Option<string>, transcript: Option<string>)

  const SpeechStartedKind: string := "input_audio_buffer.speech_started"
  const SpeechStoppedKind: string := "input_audio_buffer.speech_stopped"
  const UserTranscriptKind: string := "conversation.item.input_audio_transcription.completed"
  const AgentTranscriptKind: string := "response.audio_transcript.done"

  /** Whether `kind` is one of the four message types the handler recognises. */
  predicate Recognised(kind: Option<string>) {
    kind == Some(SpeechStartedKind) || kind == Some(SpeechStoppedKind)
    || kind == Some(UserTranscriptKind) || kind == Some(AgentTranscriptKind)
  }

  /**
   * The event emitted for one data-channel message; `None` as input stands for
   * a payload that JSON parsing rejected.
   */
  function Normalize(m: Option<Msg>): (r: Option<VoiceEvent>)
    // the handler never reports an error or a status change
    ensures r.Some? ==> IsChannelEvent(r.value)
    ensures r == Some(SpeechStarted) <==> m.Some? && m.value.kind == Some(SpeechStartedKind)
    ensures r == Some(SpeechStopped) <==> m.Some? && m.value.kind == Some(SpeechStoppedKind)
    ensures (r.Some? && r.value.UserTranscriptDone?) <==>
              m.Some? && m.value.kind == Some(UserTranscriptKind) && Truthy(m.value.transcript)
    ensures (r.Some? && r.value.AgentTranscriptDone?) <==>
              m.Some? && m.value.kind == Some(AgentTranscriptKind) && Truthy(m.value.transcript)
    // a transcript event carries the message's transcript, never an empty text
    ensures r.Some? && (r.value.UserTranscriptDone? || r.value.AgentTranscriptDone?) ==>
              r.value.text == m.value.transcript.value && r.value.text != ""
    ensures m.None? || !Recognised(m.value.kind) ==> r.None?
  {
    match m
    case None => None
    case Some(msg) =>
      if msg.kind == Some(SpeechStartedKind) then Some(SpeechStarted)
      else if msg.kind == Some(SpeechStoppedKind) then Some(SpeechStopped)
      else if msg.kind == Some(UserTranscriptKind) then
        (if Truthy(msg.transcript) then Some(UserTranscriptDone(msg.transcript.value)) else None)
      else if msg.kind == Some(AgentTranscriptKind) then
        (if Truthy(msg.transcript) then Some(AgentTranscriptDone(msg.transcript.value)) else None)
      else None
  }

  /**
   * The server message that announces a channel event: the inverse direction
   * of `Normalize`, for every event the handler can emit.
   */
  function WireMessage(e: VoiceEvent): (m: Msg)
    requires IsChannelEvent(e)
    requires e.UserTranscriptDone? || e.AgentTranscriptDone? ==> e.text != ""
    ensures Recognised(m.kind)
    ensures Normalize(Some(m)) == Some(e)
  {
    match e
    case SpeechStarted => Msg(Some(SpeechStartedKind), None)
    case SpeechStopped => Msg(Some(SpeechStoppedKind), None)
    case UserTranscriptDone(t) => Msg(Some(UserTranscriptKind), Some(t))
    case AgentTranscriptDone(t) => Msg(Some(AgentTranscriptKind), Some(t))
  }

  /** The events a run of data-channel callbacks appends, one message at a time. */
  function NormalizeAll(ms: seq<Option<Msg>>): (r: seq<VoiceEvent>)
    ensures |r| <= |ms|
    ensures forall i :: 0 <= i < |r| ==> IsChannelEvent(r[i])
    ensures (forall i :: 0 <= i < |ms| ==> Normalize(ms[i]).None?) ==> r == []
  {
    if ms == [] then []
    else OptionToSeq(Normalize(ms[0])) + NormalizeAll(ms[1..])
  }

  /** One more message appends exactly its own event, if any, after the events of the earlier ones. */
  lemma {:induction false} NormalizeAllSnoc(ms: seq<Option<Msg>>, m: Option<Msg>)
    ensures NormalizeAll(ms + [m]) == NormalizeAll(ms) + OptionToSeq(Normalize(m))
  {
    if ms == [] {
      assert ms + [m] == [m];
      assert [m][1..] == [];
    } else {
      assert (ms + [m])[1..] == ms[1..] + [m];
      NormalizeAllSnoc(ms[1..], m);
    }
  }

  /**
   * No sequence of inbound messages, parseable or not, changes the status the
   * observer has been told.
   */
  lemma MessagesKeepStatus(log: seq<VoiceEvent>, ms: seq<Option<Msg>>)
    ensures ReportedStatus(log + NormalizeAll(ms)) == ReportedStatus(log)
  {
    var more := NormalizeAll(ms);
    ReportedStatusIgnores(log, more);
  }
}
