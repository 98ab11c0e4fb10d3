/**
 * The event vocabulary the realtime client reports to its single observer
 * (the `VoiceEvent` union of src/lib/realtime.ts), and the session status an
 * observer reads off the events it has received so far.
 */
module VoiceEvents {

  datatype Status = Disconnected | Connecting | Connected

  datatype VoiceEvent =
    | SpeechStarted
    | SpeechStopped
    | UserTranscriptDone(text: string)
    | AgentTranscriptDone(text: string)
    | Error(message: string)
    | StatusChange(status: Status)

  /** Events that originate on the control channel rather than in the client's lifecycle code. */
  predicate IsChannelEvent(e: VoiceEvent) {
    e.SpeechStarted? || e.SpeechStopped? || e.UserTranscriptDone? || e.AgentTranscriptDone?
  }

  /**
   * The status an observer believes the session is in after receiving `log`:
   * the status of the latest `status_change`, or `disconnected` before any.
   */
  function ReportedStatus(log: seq<VoiceEvent>): Status
  {
    if log == [] then Disconnected
    else match log[|log| - 1]
      case StatusChange(st) => st
      case _ => ReportedStatus(log[..|log| - 1])
  }

  /** Events that are not status changes never move the reported status. */
  lemma {:induction false} ReportedStatusIgnores(log: seq<VoiceEvent>, more: seq<VoiceEvent>)
    requires forall i :: 0 <= i < |more| ==> !more[i].StatusChange?
    ensures ReportedStatus(log + more) == ReportedStatus(log)
  {
    if more == [] {
      assert log + more == log;
    } else {
      var init := more[..|more| - 1];
      assert (log + more)[..|log + more| - 1] == log + init;
      assert (log + more)[|log + more| - 1] == more[|more| - 1];
      ReportedStatusIgnores(log, init);
    }
  }
}
