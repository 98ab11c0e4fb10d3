/**
 * The connection lifecycle of `RealtimeClient` (src/lib/realtime.ts): `connect`
 * as one sequential run over scripted outcomes of its awaited browser and
 * network steps, `disconnect`, and the callbacks the client installs on the
 * peer connection and the data channel.
 *
 * Browser objects are opaque handles (natural numbers drawn from a counter).
 * The environment keeps three logs beside the client's own three fields:
 * every event handed to the observer, every message sent on a data channel,
 * and every `close()` / `remove()` performed, plus the microphone streams that
 * have been obtained and never stopped.
 */
module Realtime {
  import opened Wrappers
  import opened VoiceEvents
  import Normalizer

  /** How one awaited call settles. */
  datatype Outcome = Resolved | Rejected(message: string)

  /** The behaviour of the browser and the network during one `connect`. */
  datatype Script = Script(
    tokenFetch: Outcome,                // fetch('/api/token')
    tokenOk: bool,                      // tokenResponse.ok
    tokenErrorText: string,             // the body read from a non-ok token response
    tokenJson: Outcome,                 // tokenResponse.json()
    tokenData: TokenData,               // the parsed token body
    getUserMedia: Outcome,              // the microphone request
    createOffer: Outcome,
    setLocalDescription: Outcome,
    sdpFetch: Outcome,                  // the offer POST and reading its answer body
    sdpOk: bool,                        // the answer's HTTP status, which connect never reads
    setRemoteDescription: Outcome)

  /**
   * The parsed token body as `data.client_secret?.value` sees it: `null`, on
   * which reading `client_secret` throws a TypeError with the given message,
   * or an object whose `client_secret.value` is absent or a string.
   */
  datatype TokenData = NullData(typeErrorMessage: string) | Data(clientSecretValue: Option<string>)

  /** The steps of `connect` that can throw, in the order they run. */
  datatype Step =
    | TokenFetch | TokenStatus | TokenJson | TokenKey
    | Microphone | CreateOffer | SetLocalDescription | SdpFetch | SetRemoteDescription

  /** The three phases of `connect`, in order. */
  datatype Phase = TokenRequest | MicrophoneRequest | OfferAnswer

  function PhaseOf(st: Step): Phase {
    match st
    case TokenFetch | TokenStatus | TokenJson | TokenKey => TokenRequest
    case Microphone => MicrophoneRequest
    case _ => OfferAnswer
  }

  /** The token request's steps, the microphone, then the offer/answer exchange's steps. */
  const TokenSteps: seq<Step> := [TokenFetch, TokenStatus, TokenJson, TokenKey]
  const HandshakeSteps: seq<Step> := [CreateOffer, SetLocalDescription, SdpFetch, SetRemoteDescription]
  const ConnectSteps: seq<Step> := TokenSteps + [Microphone] + HandshakeSteps

  function Thrown(o: Outcome): Option<string> {
    if o.Rejected? then Some(o.message) else None
  }

  /**
   * The scripted outcome of a step that the browser or the network settles
   * (`Resolved` for the client's own two checks, which no script settles).
   */
  function StepOutcome(s: Script, st: Step): Outcome {
    match st
    case TokenFetch => s.tokenFetch
    case TokenJson => s.tokenJson
    case Microphone => s.getUserMedia
    case CreateOffer => s.createOffer
    case SetLocalDescription => s.setLocalDescription
    case SdpFetch => s.sdpFetch
    case SetRemoteDescription => s.setRemoteDescription
    case TokenStatus => Resolved
    case TokenKey => Resolved
  }

  /**
   * The message of the error step `st` throws under `s`, or None when it goes
   * through: the status check fails exactly on a non-ok status, the key check
   * exactly when the body is `null` or its `client_secret.value` is falsy, and
   * every other step exactly when its scripted outcome is a rejection.
   */
  function StepError(s: Script, st: Step): (r: Option<string>)
    ensures st == TokenStatus ==> (r.Some? <==> !s.tokenOk)
    ensures st == TokenKey ==> (r.None? <==> s.tokenData.Data? && Truthy(s.tokenData.clientSecretValue))
    ensures st != TokenStatus && st != TokenKey ==> (r.Some? <==> StepOutcome(s, st).Rejected?)
  {
    match st
    case TokenFetch => Thrown(s.tokenFetch)
    case TokenStatus => if s.tokenOk then None else Some("Failed to get token: " + s.tokenErrorText)
    case TokenJson => Thrown(s.tokenJson)
    case TokenKey =>
      (match s.tokenData
       case NullData(m) => Some(m)
       case Data(v) => if Truthy(v) then None else Some("Invalid token response"))
    case Microphone => Thrown(s.getUserMedia)
    case CreateOffer => Thrown(s.createOffer)
    case SetLocalDescription => Thrown(s.setLocalDescription)
    case SdpFetch => Thrown(s.sdpFetch)
    case SetRemoteDescription => Thrown(s.setRemoteDescription)
  }

  /**
   * What each step throws: the client's own two checks throw its own messages
   * (the fixed prefix followed by the response body; the TypeError of a `null`
   * body, or `Invalid token response`), every other step exactly its scripted
   * rejection.
   */
  lemma StepMessages(s: Script)
    ensures !s.tokenOk ==>
      var m := StepError(s, TokenStatus).value;
      |m| == 21 + |s.tokenErrorText| && m[..21] == "Failed to get token: " && m[21..] == s.tokenErrorText
    ensures s.tokenData.NullData? ==> StepError(s, TokenKey) == Some(s.tokenData.typeErrorMessage)
    ensures s.tokenData.Data? && !Truthy(s.tokenData.clientSecretValue) ==>
      StepError(s, TokenKey) == Some("Invalid token response")
    ensures StepError(s, TokenFetch) == Thrown(s.tokenFetch)
    ensures StepError(s, TokenJson) == Thrown(s.tokenJson)
    ensures StepError(s, Microphone) == Thrown(s.getUserMedia)
    ensures StepError(s, CreateOffer) == Thrown(s.createOffer)
    ensures StepError(s, SetLocalDescription) == Thrown(s.setLocalDescription)
    ensures StepError(s, SdpFetch) == Thrown(s.sdpFetch)
    ensures StepError(s, SetRemoteDescription) == Thrown(s.setRemoteDescription)
  {
  }

  /** The position of the first of `steps` that throws under `s` (`|steps|` when none does). */
  function FirstErrorIndex(s: Script, steps: seq<Step>): (k: nat)
    ensures k <= |steps|
    ensures forall j :: 0 <= j < k ==> StepError(s, steps[j]).None?
    ensures k < |steps| ==> StepError(s, steps[k]).Some?
  {
    if steps == [] || StepError(s, steps[0]).Some? then 0
    else 1 + FirstErrorIndex(s, steps[1..])
  }

  datatype Failure = Failure(step: Step, message: string)

  /** The first of `steps` that throws under `s`, with what it throws. */
  function FirstError(s: Script, steps: seq<Step>): Option<Failure> {
    var k := FirstErrorIndex(s, steps);
    if k == |steps| then None else Some(Failure(steps[k], StepError(s, steps[k]).value))
  }

  /** Running a non-empty list of steps: its head throws, or else the rest is run. */
  lemma FirstErrorCons(s: Script, steps: seq<Step>)
    requires steps != []
    ensures FirstError(s, steps) ==
      if StepError(s, steps[0]).Some? then Some(Failure(steps[0], StepError(s, steps[0]).value))
      else FirstError(s, steps[1..])
  {
  }

  /** Running `a` and then `b` throws what `a` throws, or else what `b` throws. */
  lemma {:induction false} FirstErrorAppend(s: Script, a: seq<Step>, b: seq<Step>)
    ensures FirstError(s, a + b) == if FirstError(s, a).Some? then FirstError(s, a) else FirstError(s, b)
  {
    if a == [] {
      assert a + b == b;
    } else if StepError(s, a[0]).None? {
      assert (a + b)[1..] == a[1..] + b;
      FirstErrorAppend(s, a[1..], b);
    }
  }

  /**
   * Where and how `connect` fails under `s`, if it does: a reported failure is
   * one of `connect`'s steps together with exactly what that step throws.
   */
  function FirstFailure(s: Script): (r: Option<Failure>)
    ensures r.Some? ==> r.value.step in ConnectSteps && StepError(s, r.value.step) == Some(r.value.message)
    ensures r.None? ==> forall j :: 0 <= j < |ConnectSteps| ==> StepError(s, ConnectSteps[j]).None?
  {
    FirstError(s, ConnectSteps)
  }

  /** `connect` fails in the token request, else at the microphone, else in the offer/answer exchange. */
  lemma FirstFailurePhases(s: Script)
    ensures FirstError(s, TokenSteps).Some? ==>
      FirstFailure(s) == FirstError(s, TokenSteps) && PhaseOf(FirstFailure(s).value.step) == TokenRequest
    ensures FirstError(s, TokenSteps).None? && StepError(s, Microphone).Some? ==>
      FirstFailure(s) == Some(Failure(Microphone, StepError(s, Microphone).value))
    ensures FirstError(s, TokenSteps).None? && StepError(s, Microphone).None? ==>
      FirstFailure(s) == FirstError(s, HandshakeSteps)
      && (FirstFailure(s).Some? ==> PhaseOf(FirstFailure(s).value.step) == OfferAnswer)
  {
    FirstErrorAppend(s, TokenSteps + [Microphone], HandshakeSteps);
    FirstErrorAppend(s, TokenSteps, [Microphone]);
    assert forall i :: 0 <= i < |TokenSteps| ==> PhaseOf(TokenSteps[i]) == TokenRequest;
    assert forall i :: 0 <= i < |HandshakeSteps| ==> PhaseOf(HandshakeSteps[i]) == OfferAnswer;
  }

  /** The answer's HTTP status is never consulted: changing it changes no outcome of any step list. */
  lemma SdpStatusIgnored(s: Script, steps: seq<Step>, ok: bool)
    ensures FirstError(s.(sdpOk := ok), steps) == FirstError(s, steps)
    ensures FirstFailure(s.(sdpOk := ok)) == FirstFailure(s)
  {
    assert forall st :: StepError(s.(sdpOk := ok), st) == StepError(s, st);
  }

  /** `connect` succeeds exactly when none of its steps throws. */
  lemma SucceedsIffNoStepThrows(s: Script)
    ensures FirstFailure(s).None? <==> forall st :: StepError(s, st).None?
  {
    if FirstFailure(s).None? {
      assert ConnectSteps == [TokenFetch, TokenStatus, TokenJson, TokenKey, Microphone,
                              CreateOffer, SetLocalDescription, SdpFetch, SetRemoteDescription];
      forall st ensures StepError(s, st).None? {
        var k := match st
          case TokenFetch => 0 case TokenStatus => 1 case TokenJson => 2 case TokenKey => 3
          case Microphone => 4 case CreateOffer => 5 case SetLocalDescription => 6
          case SdpFetch => 7 case SetRemoteDescription => 8;
        assert ConnectSteps[k] == st;
      }
    }
  }

  /** The remote-playback element: created with autoplay on, later given the inbound stream. */
  datatype AudioElement = AudioElement(id: nat, autoplay: bool, srcObject: Option<nat>)

  /** A browser object given up: a closed peer connection or channel, a removed element. */
  datatype Release = ClosePeer(id: nat) | CloseChannel(id: nat) | RemoveAudio(id: nat)

  /** The control messages the client sends; the session configuration's content is a constant. */
  datatype Outbound = SessionUpdate | ResponseCreate

  datatype Sent = Sent(channel: nat, message: Outbound)

  /** The place of a release in `disconnect`'s order: connection, channel, element. */
  function ReleaseRank(r: Release): nat {
    match r
    case ClosePeer(_) => 0
    case CloseChannel(_) => 1
    case RemoveAudio(_) => 2
  }

  /** What `disconnect` releases for the given fields, in its order: connection, channel, element. */
  function Teardown(pc: Option<nat>, dc: Option<nat>, audioEl: Option<AudioElement>): seq<Release> {
    (if pc.Some? then [ClosePeer(pc.value)] else [])
    + (if dc.Some? then [CloseChannel(dc.value)] else [])
    + (if audioEl.Some? then [RemoveAudio(audioEl.value.id)] else [])
  }

  /**
   * `disconnect` releases exactly the held objects, one release each,
   * connection before channel before element.
   */
  lemma TeardownReleasesHeld(pc: Option<nat>, dc: Option<nat>, audioEl: Option<AudioElement>)
    ensures |Teardown(pc, dc, audioEl)| == |OptionToSeq(pc)| + |OptionToSeq(dc)| + |OptionToSeq(audioEl)|
    ensures forall id: nat :: ClosePeer(id) in Teardown(pc, dc, audioEl) <==> pc == Some(id)
    ensures forall id: nat :: CloseChannel(id) in Teardown(pc, dc, audioEl) <==> dc == Some(id)
    ensures forall id: nat :: RemoveAudio(id) in Teardown(pc, dc, audioEl) <==> audioEl.Some? && audioEl.value.id == id
    ensures forall i, j :: 0 <= i < j < |Teardown(pc, dc, audioEl)| ==>
      ReleaseRank(Teardown(pc, dc, audioEl)[i]) < ReleaseRank(Teardown(pc, dc, audioEl)[j])
  {
  }

  /** A new playback element as `connect` sets it up. */
  function NewAudio(id: nat): AudioElement {
    AudioElement(id, true, None)
  }

  /**
   * The token request of `connect`: the POST, its status, its JSON body and
   * the `client_secret.value` in it, each of which can end the attempt (a
   * `null` body ends it with the TypeError of reading `client_secret`).
   */
  method RequestToken(s: Script) returns (thrown: Option<Failure>)
    ensures thrown == FirstError(s, TokenSteps)
  {
    FirstErrorCons(s, TokenSteps);
    FirstErrorCons(s, TokenSteps[1..]);
    FirstErrorCons(s, TokenSteps[2..]);
    FirstErrorCons(s, TokenSteps[3..]);
    if s.tokenFetch.Rejected? {
      return Some(Failure(TokenFetch, s.tokenFetch.message));
    }
    if !s.tokenOk {
      return Some(Failure(TokenStatus, "Failed to get token: " + s.tokenErrorText));
    }
    if s.tokenJson.Rejected? {
      return Some(Failure(TokenJson, s.tokenJson.message));
    }
    if s.tokenData.NullData? {
      return Some(Failure(TokenKey, s.tokenData.typeErrorMessage));
    }
    if !Truthy(s.tokenData.clientSecretValue) {
      return Some(Failure(TokenKey, "Invalid token response"));
    }
    return None;
  }

  /**
   * The offer/answer exchange of `connect`: create and set the local offer,
   * POST it, set the answer as remote description. The answer's HTTP status
   * is never looked at, so `s.sdpOk` plays no part.
   */
  method Handshake(s: Script) returns (thrown: Option<Failure>)
    ensures thrown == FirstError(s, HandshakeSteps)
  {
    FirstErrorCons(s, HandshakeSteps);
    FirstErrorCons(s, HandshakeSteps[1..]);
    FirstErrorCons(s, HandshakeSteps[2..]);
    FirstErrorCons(s, HandshakeSteps[3..]);
    if s.createOffer.Rejected? {
      return Some(Failure(CreateOffer, s.createOffer.message));
    }
    if s.setLocalDescription.Rejected? {
      return Some(Failure(SetLocalDescription, s.setLocalDescription.message));
    }
    if s.sdpFetch.Rejected? {
      return Some(Failure(SdpFetch, s.sdpFetch.message));
    }
    if s.setRemoteDescription.Rejected? {
      return Some(Failure(SetRemoteDescription, s.setRemoteDescription.message));
    }
    return None;
  }

  class RealtimeClient {
    // the client's own fields
    var pc: Option<nat>
    var dc: Option<nat>
    var audioEl: Option<AudioElement>
    // the environment it acts on
    var events: seq<VoiceEvent>    // every call of the observer, in order
    var sent: seq<Sent>            // every data-channel send
    var released: seq<Release>     // every close() and remove()
    var liveStreams: seq<nat>      // microphone streams obtained and never stopped
    var nextHandle: nat            // the next handle the browser hands out
    var dcOpen: bool               // whether the channel held in `dc` has fired `onopen`: its readyState is "open"

    /** Every handle the client holds or has released was handed out already. */
    predicate Bounded()
      reads this
    {
      && (pc.Some? ==> pc.value < nextHandle)
      && (dc.Some? ==> dc.value < nextHandle)
      && (audioEl.Some? ==> audioEl.value.id < nextHandle)
      && (forall i :: 0 <= i < |released| ==> released[i].id < nextHandle)
    }


    /**
     * Between calls the client holds all three objects or none of them, and
     * none of those it holds has been released.
     */
    predicate Valid()
      reads this
    {
      && Bounded()
      && (dcOpen ==> dc.Some?)
      && pc.Some? == dc.Some? && dc.Some? == audioEl.Some?
      && (pc.Some? ==> ClosePeer(pc.value) !in released)
      && (dc.Some? ==> CloseChannel(dc.value) !in released)
      && (audioEl.Some? ==> RemoveAudio(audioEl.value.id) !in released)
    }

    /**
     * A new client. The observer passed to the source's constructor is the
     * `events` log: nothing held, nothing reported yet.
     */
    constructor ()
      ensures Valid()
      ensures pc.None? && dc.None? && audioEl.None?
      ensures events == [] && sent == [] && released == [] && liveStreams == [] && nextHandle == 0
      ensures !dcOpen
    {
      pc, dc, audioEl := None, None, None;
      events, sent, released, liveStreams := [], [], [], [];
      nextHandle := 0;
      dcOpen := false;
    }

    /**
     * `disconnect`: release whatever is held, in the order connection,
     * channel, element, then report `disconnected`, whatever the state.
     * The microphone stream is not touched.
     */
    method Disconnect()
      requires Bounded()
      modifies this
      ensures Valid()
      ensures pc.None? && dc.None? && audioEl.None?
      ensures events == old(events) + [StatusChange(Disconnected)]
      ensures released == old(released) + Teardown(old(pc), old(dc), old(audioEl))
      ensures sent == old(sent) && liveStreams == old(liveStreams) && nextHandle == old(nextHandle)
      ensures !dcOpen
    {
      if pc.Some? {
        released := released + [ClosePeer(pc.value)];
        pc := None;
      }
      if dc.Some? {
        released := released + [CloseChannel(dc.value)];
        dc := None;
      }
      dcOpen := false;
      if audioEl.Some? {
        released := released + [RemoveAudio(audioEl.value.id)];
        audioEl := None;
      }
      events := events + [StatusChange(Disconnected)];
    }

    /**
     * Step 2 of `connect`: a new peer connection, and a new autoplaying
     * playback element that its `ontrack` callback feeds. What was held before
     * is overwritten without being closed.
     */
    method OpenPeerConnection()
      requires Bounded()
      modifies this
      ensures Bounded()
      ensures pc == Some(old(nextHandle)) && audioEl == Some(NewAudio(old(nextHandle) + 1))
      ensures nextHandle == old(nextHandle) + 2
      ensures dc == old(dc) && events == old(events) && sent == old(sent)
      ensures released == old(released) && liveStreams == old(liveStreams)
      ensures dcOpen == old(dcOpen)
    {
      pc := Some(nextHandle);
      audioEl := Some(NewAudio(nextHandle + 1));
      nextHandle := nextHandle + 2;
    }

    /**
     * Step 3 of `connect`, once the microphone is granted: its track is added
     * to the connection (the stream itself is kept nowhere and never stopped),
     * and the `oai-events` data channel is created.
     */
    method AttachMicrophone()
      requires Bounded()
      modifies this
      ensures Bounded()
      ensures liveStreams == old(liveStreams) + [old(nextHandle)]
      ensures dc == Some(old(nextHandle) + 1) && nextHandle == old(nextHandle) + 2
      ensures pc == old(pc) && audioEl == old(audioEl) && events == old(events)
      ensures sent == old(sent) && released == old(released)
      ensures !dcOpen
    {
      liveStreams := liveStreams + [nextHandle];
      dc := Some(nextHandle + 1);
      dcOpen := false;
      nextHandle := nextHandle + 2;
    }

    /**
     * The `catch` of `connect`: report the error and `disconnected`, then
     * call `disconnect`, which reports `disconnected` a second time.
     */
    method Abort(f: Failure)
      requires Bounded()
      modifies this
      ensures Valid()
      ensures pc.None? && dc.None? && audioEl.None?
      ensures events == old(events) + [Error(f.message), StatusChange(Disconnected), StatusChange(Disconnected)]
      ensures released == old(released) + Teardown(old(pc), old(dc), old(audioEl))
      ensures sent == old(sent) && liveStreams == old(liveStreams) && nextHandle == old(nextHandle)
      ensures !dcOpen
    {
      events := events + [Error(f.message), StatusChange(Disconnected)];
      Disconnect();
    }

    /**
     * The `try` block of `connect`, run under `s`: each `break` is a throw.
     * It returns what was thrown, which is the first failure of `s`, and
     * leaves the objects that the steps before the throw created.
     */
    method Attempt(s: Script) returns (thrown: Option<Failure>)
      requires Valid()
      modifies this
      ensures Bounded()
      ensures thrown == FirstFailure(s)
      ensures events == old(events) + (if thrown.None? then [StatusChange(Connected)] else [])
      ensures sent == old(sent) && released == old(released)
      ensures thrown.None? ==> Valid()
      // a token failure creates nothing
      ensures thrown.Some? && PhaseOf(thrown.value.step) == TokenRequest ==>
        && pc == old(pc) && dc == old(dc) && audioEl == old(audioEl)
        && nextHandle == old(nextHandle) && liveStreams == old(liveStreams)
      // a microphone failure has a new connection and element, but still the old channel
      ensures thrown.Some? && PhaseOf(thrown.value.step) == MicrophoneRequest ==>
        && pc == Some(old(nextHandle)) && audioEl == Some(NewAudio(old(nextHandle) + 1)) && dc == old(dc)
        && nextHandle == old(nextHandle) + 2 && liveStreams == old(liveStreams)
      // past the microphone all three objects are new, and the new channel has not opened
      ensures thrown.None? || PhaseOf(thrown.value.step) == OfferAnswer ==>
        && pc == Some(old(nextHandle)) && audioEl == Some(NewAudio(old(nextHandle) + 1))
        && dc == Some(old(nextHandle) + 3) && !dcOpen
        && nextHandle == old(nextHandle) + 4 && liveStreams == old(liveStreams) + [old(nextHandle) + 2]
    {
      FirstFailurePhases(s);
      label attempt: {
        // 1. the ephemeral token
        thrown := RequestToken(s);
        if thrown.Some? {
          break attempt;
        }
        // 2. the peer connection, the playback element and the microphone
        OpenPeerConnection();
        if s.getUserMedia.Rejected? {
          thrown := Some(Failure(Microphone, s.getUserMedia.message));
          break attempt;
        }
        // 3. the microphone's track and the data channel
        AttachMicrophone();
        // 4. the offer/answer exchange
        thrown := Handshake(s);
        if thrown.Some? {
          break attempt;
        }
        events := events + [StatusChange(Connected)];
      }
    }

    /** `connect`, run to settlement under `s`: the `try` block, then the `catch` on a throw. */
    method Connect(s: Script)
      requires Valid()
      modifies this
      ensures Valid()
      ensures sent == old(sent)
      // on success the new channel has not opened yet; on failure there is none
      ensures !dcOpen
      ensures FirstFailure(s).None? ==>
        && events == old(events) + [StatusChange(Connecting), StatusChange(Connected)]
        && pc == Some(old(nextHandle)) && audioEl == Some(NewAudio(old(nextHandle) + 1))
        && liveStreams == old(liveStreams) + [old(nextHandle) + 2]
        && dc == Some(old(nextHandle) + 3)
        && nextHandle == old(nextHandle) + 4 && released == old(released)
      ensures FirstFailure(s).Some? ==>
        && events == old(events) + [StatusChange(Connecting), Error(FirstFailure(s).value.message),
                                    StatusChange(Disconnected), StatusChange(Disconnected)]
        && pc.None? && dc.None? && audioEl.None?
      // a token failure creates nothing and tears down what was held before the call
      ensures FirstFailure(s).Some? && PhaseOf(FirstFailure(s).value.step) == TokenRequest ==>
        && nextHandle == old(nextHandle) && liveStreams == old(liveStreams)
        && released == old(released) + Teardown(old(pc), old(dc), old(audioEl))
      // a microphone failure has a new connection and element, but still the old channel
      ensures FirstFailure(s).Some? && PhaseOf(FirstFailure(s).value.step) == MicrophoneRequest ==>
        && nextHandle == old(nextHandle) + 2 && liveStreams == old(liveStreams)
        && released == old(released)
                       + Teardown(Some(old(nextHandle)), old(dc), Some(NewAudio(old(nextHandle) + 1)))
      // a handshake failure releases all three new objects, but the microphone stays captured
      ensures FirstFailure(s).Some? && PhaseOf(FirstFailure(s).value.step) == OfferAnswer ==>
        && nextHandle == old(nextHandle) + 4 && liveStreams == old(liveStreams) + [old(nextHandle) + 2]
        && released == old(released)
                       + Teardown(Some(old(nextHandle)), Some(old(nextHandle) + 3), Some(NewAudio(old(nextHandle) + 1)))
    {
      events := events + [StatusChange(Connecting)];
      var thrown := Attempt(s);
      if thrown.Some? {
        Abort(thrown.value);
        assert events == old(events) + [StatusChange(Connecting), Error(thrown.value.message),
                                        StatusChange(Disconnected), StatusChange(Disconnected)];
      } else {
        assert events == old(events) + [StatusChange(Connecting), StatusChange(Connected)];
      }
    }

    /** The peer connection's `ontrack` callback: the stream goes to whichever element is held now. */
    method HandleTrack(stream: nat)
      requires Valid()
      modifies this
      ensures Valid()
      ensures audioEl == if old(audioEl).Some? then Some(old(audioEl).value.(srcObject := Some(stream))) else None
      ensures pc == old(pc) && dc == old(dc)
      ensures events == old(events) && sent == old(sent) && released == old(released)
      ensures liveStreams == old(liveStreams) && nextHandle == old(nextHandle)
      ensures dcOpen == old(dcOpen)
    {
      if audioEl.Some? {
        audioEl := Some(audioEl.value.(srcObject := Some(stream)));
      }
    }

    /**
     * The `onopen` callback of the data channel `channel`: that channel is now
     * open. The callback sends on whatever `dc` holds, which after a second
     * `connect` need not be `channel`: nothing without a channel; a held
     * channel that is not open yet makes the first `send` throw out of the
     * callback, so nothing goes out; otherwise the session configuration and
     * then the request for a first response.
     */
    method HandleDataChannelOpen(channel: nat)
      requires Valid()
      modifies this
      ensures Valid()
      ensures dcOpen == (old(dcOpen) || dc == Some(channel))
      ensures sent == old(sent) +
        (if dc.Some? && dcOpen then [Sent(dc.value, SessionUpdate), Sent(dc.value, ResponseCreate)] else [])
      ensures pc == old(pc) && dc == old(dc) && audioEl == old(audioEl)
      ensures events == old(events) && released == old(released)
      ensures liveStreams == old(liveStreams) && nextHandle == old(nextHandle)
    {
      if dc == Some(channel) {
        dcOpen := true;
      }
      if dc.None? {
        return;
      }
      if !dcOpen {
        // `send` on a channel that is still connecting throws InvalidStateError
        return;
      }
      sent := sent + [Sent(dc.value, SessionUpdate)];
      sent := sent + [Sent(dc.value, ResponseCreate)];
    }

    /** The data channel's `onmessage` callback: report the normalised event, if any. */
    method HandleDataChannelMessage(m: Option<Normalizer.Msg>)
      requires Valid()
      modifies this
      ensures Valid()
      ensures events == old(events) + OptionToSeq(Normalizer.Normalize(m))
      ensures pc == old(pc) && dc == old(dc) && audioEl == old(audioEl)
      ensures sent == old(sent) && released == old(released)
      ensures liveStreams == old(liveStreams) && nextHandle == old(nextHandle)
      ensures dcOpen == old(dcOpen)
    {
      var e := Normalizer.Normalize(m);
      if e.Some? {
        events := events + [e.value];
      }
    }
  }

  /**
   * Whatever the client's state, delivering a run of messages through `onmessage` appends exactly
   * the events `NormalizeAll` assigns to them.
   */
  method DeliverMessages(c: RealtimeClient, ms: seq<Option<Normalizer.Msg>>)
    requires c.Valid()
    modifies c
    ensures c.Valid()
    ensures c.events == old(c.events) + Normalizer.NormalizeAll(ms)
    ensures c.pc == old(c.pc) && c.dc == old(c.dc) && c.audioEl == old(c.audioEl)
    ensures c.sent == old(c.sent) && c.released == old(c.released)
    ensures c.liveStreams == old(c.liveStreams) && c.nextHandle == old(c.nextHandle)
    ensures c.dcOpen == old(c.dcOpen)
  {
    var i := 0;
    while i < |ms|
      invariant 0 <= i <= |ms|
      invariant c.Valid()
      invariant c.events == old(c.events) + Normalizer.NormalizeAll(ms[..i])
      invariant c.pc == old(c.pc) && c.dc == old(c.dc) && c.audioEl == old(c.audioEl)
      invariant c.sent == old(c.sent) && c.released == old(c.released)
      invariant c.liveStreams == old(c.liveStreams) && c.nextHandle == old(c.nextHandle)
      invariant c.dcOpen == old(c.dcOpen)
    {
      Normalizer.NormalizeAllSnoc(ms[..i], ms[i]);
      assert ms[..i + 1] == ms[..i] + [ms[i]];
      c.HandleDataChannelMessage(ms[i]);
      assert c.events == old(c.events) + (Normalizer.NormalizeAll(ms[..i]) + OptionToSeq(Normalizer.Normalize(ms[i])));
      i := i + 1;
    }
    assert ms[..i] == ms;
  }

  /**
   * A session that connects, hears the user start and stop speaking and the
   * agent answer "Hi there", and is then disconnected reports exactly these
   * events, ending in the disconnected status.
   */
  method ConversationScenario(s: Script) returns (log: seq<VoiceEvent>)
    requires FirstFailure(s).None?
    ensures log == [StatusChange(Connecting), StatusChange(Connected), SpeechStarted, SpeechStopped,
                    AgentTranscriptDone("Hi there"), StatusChange(Disconnected)]
    ensures ReportedStatus(log) == Disconnected
  {
    var c := new RealtimeClient();
    c.Connect(s);
    c.HandleDataChannelMessage(Some(Normalizer.Msg(Some(Normalizer.SpeechStartedKind), None)));
    c.HandleDataChannelMessage(Some(Normalizer.Msg(Some(Normalizer.SpeechStoppedKind), None)));
    c.HandleDataChannelMessage(Some(Normalizer.Msg(Some("rate_limits.updated"), None)));
    c.HandleDataChannelMessage(None);
    c.HandleDataChannelMessage(Some(Normalizer.Msg(Some(Normalizer.AgentTranscriptKind), Some("Hi there"))));
    c.Disconnect();
    log := c.events;
  }

  /**
   * A fresh client whose connect fails reports one error and two
   * disconnections; it releases every browser object it created, but a
   * microphone obtained before the handshake failed stays captured.
   */
  method FailedConnectScenario(s: Script) returns (log: seq<VoiceEvent>, gone: seq<Release>, live: seq<nat>)
    requires FirstFailure(s).Some?
    ensures log == [StatusChange(Connecting), Error(FirstFailure(s).value.message),
                    StatusChange(Disconnected), StatusChange(Disconnected)]
    ensures PhaseOf(FirstFailure(s).value.step) == TokenRequest ==> gone == [] && live == []
    ensures PhaseOf(FirstFailure(s).value.step) == MicrophoneRequest ==> gone == [ClosePeer(0), RemoveAudio(1)] && live == []
    ensures PhaseOf(FirstFailure(s).value.step) == OfferAnswer ==>
              gone == [ClosePeer(0), CloseChannel(3), RemoveAudio(1)] && live == [2]
  {
    var c := new RealtimeClient();
    c.Connect(s);
    log, gone, live := c.events, c.released, c.liveStreams;
  }

  /** Disconnecting an idle client twice reports `disconnected` twice and releases nothing. */
  method DisconnectTwiceScenario() returns (log: seq<VoiceEvent>, gone: seq<Release>, idle: bool)
    ensures log == [StatusChange(Disconnected), StatusChange(Disconnected)]
    ensures gone == [] && idle
  {
    var c := new RealtimeClient();
    c.Disconnect();
    c.Disconnect();
    log, gone := c.events, c.released;
    idle := c.pc.None? && c.dc.None? && c.audioEl.None?;
  }

  /**
   * A second successful connect replaces the first session's objects without
   * closing them: the final disconnect releases only the second session's
   * objects, and both microphone streams stay captured.
   */
  method ReconnectScenario(s1: Script, s2: Script) returns (gone: seq<Release>, live: seq<nat>)
    requires FirstFailure(s1).None? && FirstFailure(s2).None?
    ensures gone == [ClosePeer(4), CloseChannel(7), RemoveAudio(5)]
    ensures ClosePeer(0) !in gone && CloseChannel(3) !in gone && RemoveAudio(1) !in gone
    ensures live == [2, 6]
  {
    var c := new RealtimeClient();
    c.Connect(s1);
    c.Connect(s2);
    c.Disconnect();
    gone, live := c.released, c.liveStreams;
  }

  /**
   * Once the channel opens after a successful connect, exactly the session
   * configuration and then the response request go out on that channel.
   */
  method OpenScenario(s: Script) returns (onOpen: seq<Sent>)
    requires FirstFailure(s).None?
    ensures onOpen == [Sent(3, SessionUpdate), Sent(3, ResponseCreate)]
  {
    var c := new RealtimeClient();
    c.Connect(s);
    c.HandleDataChannelOpen(3);
    onOpen := c.sent;
  }

  /**
   * After two successful connects the first session's channel is leaked.
   * When it opens, the callback sends on the second channel, which is not
   * open yet, so the first `send` throws and nothing goes out. When the second
   * channel opens, the two messages go out on it.
   */
  method LeakedChannelOpenScenario(s1: Script, s2: Script) returns (early: seq<Sent>, late: seq<Sent>)
    requires FirstFailure(s1).None? && FirstFailure(s2).None?
    ensures early == []
    ensures late == [Sent(7, SessionUpdate), Sent(7, ResponseCreate)]
  {
    var c := new RealtimeClient();
    c.Connect(s1);
    c.Connect(s2);
    c.HandleDataChannelOpen(3);
    early := c.sent;
    c.HandleDataChannelOpen(7);
    late := c.sent;
  }

  /**
   * A reconnect whose handshake fails releases its own new channel but not the
   * first session's, and leaves `dc` null: when that leaked channel opens,
   * the `!this.dc` guard sends nothing.
   */
  method StaleChannelOpenScenario(s1: Script, s2: Script) returns (sends: seq<Sent>, idle: bool)
    requires FirstFailure(s1).None?
    requires FirstFailure(s2).Some? && PhaseOf(FirstFailure(s2).value.step) == OfferAnswer
    ensures sends == [] && idle
  {
    var c := new RealtimeClient();
    c.Connect(s1);
    c.Connect(s2);
    c.HandleDataChannelOpen(3);
    sends := c.sent;
    idle := c.dc.None?;
  }
}
