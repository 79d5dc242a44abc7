/**
  The subscriber's main sequence (main.go, lines 58-292): validate the options, connect to
  the gateway, join the feed, build the engine and the peer connection from the offer,
  negotiate a single non-trickle answer, send it with `start`, and on shutdown close the
  peer connection and wait for the relay workers.

  The gateway client and the WebRTC engine are collaborators whose calls succeed or fail;
  `Env` says how each call turns out and what the calls that produce values return. Every
  failing call ends the process (log.Fatalf), so a run is a prefix of one fixed sequence of
  steps, cut after the first step that fails.
 */
module Subscriber {
  import opened Wrappers
  import opened Text
  import opened Config
  import opened Signaling
  import opened Engine

  /** The externally visible steps of a run. */
  datatype Step =
    | Connect                 // janus.Connect
    | CreateSession           // gateway.Create
    | Attach                  // session.Attach("janus.plugin.videoroom")
    | Join                    // handle.Message(join)
    | ConfigureEngine         // codecs, interceptors, header extension, feedback
    | NewPeerConnection       // api.NewPeerConnection
    | RegisterCallbacks       // OnICEConnectionStateChange, OnConnectionStateChange, OnTrack
    | AddAudioTransceiver
    | AddVideoTransceiver
    | SetRemoteDescription
    | TakeGatheringPromise    // webrtc.GatheringCompletePromise
    | CreateAnswer
    | SetLocalDescription
    | AwaitGathering          // <-gatherComplete
    | Start                   // handle.Message(start, answer)
    | ClosePeerConnection
    | WaitRelays              // wg.Wait

  /** The steps in the order the program performs them. */
  const NOMINAL: seq<Step> := [
    Connect, CreateSession, Attach, Join, ConfigureEngine, NewPeerConnection, RegisterCallbacks,
    AddAudioTransceiver, AddVideoTransceiver, SetRemoteDescription, TakeGatheringPromise,
    CreateAnswer, SetLocalDescription, AwaitGathering, Start, ClosePeerConnection, WaitRelays
  ]

  /** Where each step stands in NOMINAL. */
  function Position(s: Step): (p: nat)
    ensures p < |NOMINAL|
  {
    match s
    case Connect => 0
    case CreateSession => 1
    case Attach => 2
    case Join => 3
    case ConfigureEngine => 4
    case NewPeerConnection => 5
    case RegisterCallbacks => 6
    case AddAudioTransceiver => 7
    case AddVideoTransceiver => 8
    case SetRemoteDescription => 9
    case TakeGatheringPromise => 10
    case CreateAnswer => 11
    case SetLocalDescription => 12
    case AwaitGathering => 13
    case Start => 14
    case ClosePeerConnection => 15
    case WaitRelays => 16
  }

  /** Each step stands at its own position in NOMINAL. */
  lemma NominalAt(s: Step)
    ensures NOMINAL[Position(s)] == s
  {
  }

  /** A run performs the steps of NOMINAL from the start, in order, and may stop early. */
  predicate IsRunTrace(t: seq<Step>) {
    |t| <= |NOMINAL| && t == NOMINAL[..|t|]
  }

  /** A run trace grows only by the step that comes next in NOMINAL. */
  lemma Extend(t: seq<Step>, s: Step)
    requires IsRunTrace(t) && Position(s) == |t|
    ensures IsRunTrace(t + [s])
  {
    NominalAt(s);
    assert NOMINAL[..|t| + 1] == NOMINAL[..|t|] + [NOMINAL[|t|]];
  }

  /** How the collaborators behave in one run. */
  datatype Env = Env(
    connectOk: bool,
    sessionOk: bool,
    attachOk: bool,
    joinReply: Option<Option<Body>>,   // None: the join message failed; Some(jsep): the reply's Jsep
    codecsOk: bool,                    // RegisterDefaultCodecs
    midExtensionOk: bool,              // RegisterHeaderExtension
    feedbackInterceptorOk: bool,       // rfc8888.NewSenderInterceptor
    peerConnectionOk: bool,
    audioTransceiverOk: bool,
    videoTransceiverOk: bool,
    remoteDescriptionOk: bool,
    answer: Option<string>,            // CreateAnswer: None when it fails
    localDescriptionOk: bool,
    gatheredSdp: string,               // LocalDescription().SDP once gathering is complete
    startOk: bool
  )

  /** The offer text of the join reply ("" when there is none). */
  function OfferSdp(env: Env): string {
    if env.joinReply.Some? && SdpOf(env.joinReply.value).Ok? then SdpOf(env.joinReply.value).value else ""
  }

  function AnswerSdp(env: Env): string {
    if env.answer.Some? then env.answer.value else ""
  }

  /**
    Whether a registration of the engine plan succeeds. Only three failures are checked;
    the error of RegisterDefaultInterceptors is discarded, so that one always goes through.
   */
  predicate Accepts(env: Env, r: Registration) {
    match r
    case DefaultCodecs => env.codecsOk
    case HeaderExtension(_, _) => env.midExtensionOk
    case SenderInterceptor(_) => env.feedbackInterceptorOk
    case _ => true
  }

  function PlanFor(o: Options, env: Env): seq<Registration> {
    EnginePlan(OfferSdp(env), o.enableRfc8888, o.reportIntervalMs)
  }

  /** Whether every registration of the engine plan succeeds. */
  predicate EngineOk(offerSdp: string, o: Options, env: Env) {
    env.codecsOk && (Contains(offerSdp, MID_URI) ==> env.midExtensionOk)
    && (o.enableRfc8888 ==> env.feedbackInterceptorOk)
  }

  /** Whether a step succeeds in this environment; the steps that only wait or log always do. */
  predicate StepOk(s: Step, o: Options, env: Env) {
    match s
    case Connect => env.connectOk
    case CreateSession => env.sessionOk
    case Attach => env.attachOk
    case Join => env.joinReply.Some?
    case ConfigureEngine => EngineOk(OfferSdp(env), o, env)
    case NewPeerConnection => env.peerConnectionOk
    case AddAudioTransceiver => env.audioTransceiverOk
    case AddVideoTransceiver => env.videoTransceiverOk
    case SetRemoteDescription => env.remoteDescriptionOk
    case CreateAnswer => env.answer.Some?
    case SetLocalDescription => env.localDescriptionOk
    case Start => env.startOk
    case _ => true
  }

  datatype Direction = SendRecv | SendOnly | RecvOnly | Inactive

  datatype Transceiver = Transceiver(kind: MediaKind, direction: Direction)

  /** What the program has applied to its peer connection. */
  datatype Peer = Peer(
    settings: Settings,
    config: PeerConfig,
    transceivers: seq<Transceiver>,
    remote: Option<SessionDescription>,
    local: Option<SessionDescription>,
    closed: bool
  )

  /** How a run ends. */
  datatype Status =
    | Rejected(error: ConfigError)      // a configuration error, before any network step
    | Failed(step: Step)                // a collaborator call failed: log.Fatalf
    | NoOffer(reason: OfferError)       // the join reply has no usable offer: log.Fatalf
    | Completed(negotiated: bool)       // start was accepted; later shut down cleanly

  function ExitCode(status: Status): nat {
    if status.Completed? then 0 else 1
  }

  /** Step `s` was performed: in a run trace, it is within the trace's length. */
  predicate Reached(trace: seq<Step>, s: Step) {
    Position(s) < |trace|
  }

  /** Step `s` was performed and did not fail. */
  predicate Passed(trace: seq<Step>, status: Status, s: Step) {
    Reached(trace, s) && status != Failed(s)
  }

  /**
    Fill the media engine and the interceptor registry in place (main.go, lines 146-169),
    stopping at the first registration that fails.
   */
  method BuildMediaEngine(offerSdp: string, o: Options, env: Env) returns (engine: seq<Registration>, ok: bool)
    ensures var plan := EnginePlan(offerSdp, o.enableRfc8888, o.reportIntervalMs);
      |engine| <= |plan| && engine == plan[..|engine|]
      && (forall k :: 0 <= k < |engine| ==> Accepts(env, plan[k]))
      && (ok <==> engine == plan)
      && (!ok ==> !Accepts(env, plan[|engine|]))
    ensures ok <==> EngineOk(offerSdp, o, env)
  {
    engine := [];
    if !env.codecsOk {
      return engine, false;
    }
    engine := engine + [DefaultCodecs];
    engine := engine + [DefaultInterceptors];
    if Contains(offerSdp, MID_URI) {
      if !env.midExtensionOk {
        return engine, false;
      }
      engine := engine + [HeaderExtension(MID_URI, Audio)];
    }
    if o.enableRfc8888 {
      engine := engine + [Feedback(ACK, CCFB, Video), Feedback(ACK, CCFB, Audio)];
      if !env.feedbackInterceptorOk {
        return engine, false;
      }
      engine := engine + [SenderInterceptor(o.reportIntervalMs)];
    }
    assert engine == EnginePlan(offerSdp, o.enableRfc8888, o.reportIntervalMs);
    ok := true;
  }

  /** The plugin messages of a run: join once it is reached, then start with the post-gathering local SDP. */
  function SentBy(o: Options, env: Env, trace: seq<Step>): seq<Message> {
    if Reached(trace, Start) then [JoinMessage(o.room, o.feed), StartMessage(o.room, env.gatheredSdp)]
    else if Reached(trace, Join) then [JoinMessage(o.room, o.feed)]
    else []
  }

  /** The number of steps of a run that succeeded: all it took, except a failing last one. */
  function Succeeded(trace: seq<Step>, status: Status): nat {
    if status.Failed? && |trace| > 0 then |trace| - 1 else |trace|
  }

  /**
    The peer connection once the first `n` steps of a run have succeeded: it exists once
    created; it has the settings and the configuration of the plan, gets the transceivers,
    the offer and the answer whose steps succeeded, and is closed at shutdown.
   */
  function PeerAfter(o: Options, env: Env, n: nat): Option<Peer> {
    if n <= Position(NewPeerConnection) then None
    else Some(Peer(
      SettingsFor(o.enableRfc8888),
      PeerConfigFor(o.enableStun),
      if n > Position(AddVideoTransceiver) then [Transceiver(Audio, RecvOnly), Transceiver(Video, RecvOnly)]
      else if n > Position(AddAudioTransceiver) then [Transceiver(Audio, RecvOnly)]
      else [],
      if n > Position(SetRemoteDescription) then Some(SessionDescription(Offer, OfferSdp(env))) else None,
      if n > Position(SetLocalDescription) then Some(SessionDescription(Answer, AnswerSdp(env))) else None,
      n > Position(ClosePeerConnection)))
  }

  /**
    What a run produces, given the options and the collaborators' behaviour: the steps it
    takes, the plugin messages it sends, the engine registrations, what it applies to the
    peer connection, and how it ends.
   */
  ghost predicate RunContract(o: Options, env: Env, trace: seq<Step>, sent: seq<Message>,
                              engine: seq<Registration>, peer: Option<Peer>, status: Status)
  {
    // Options are checked before anything else; a rejection does nothing else.
    (status.Rejected? <==> Validate(o).Some?)
    && (status.Rejected? ==> Validate(o) == Some(status.error) && trace == [] && sent == [])
    // The steps are taken in the program's order, each at most once; a run stops at the
    // first failing step, or after the join when its reply has no usable offer.
    && IsRunTrace(trace)
    && (status.Completed? <==> |trace| == |NOMINAL|)
    && (forall s :: Passed(trace, status, s) ==> StepOk(s, o, env))
    && (status.Failed? ==> Position(status.step) == |trace| - 1 && !StepOk(status.step, o, env))
    && (status.NoOffer? ==>
          |trace| == Position(Join) + 1 && env.joinReply.Some? && SdpOf(env.joinReply.value) == Err(status.reason))
    // Nothing after the join is done without an offer whose SDP could be read.
    && (Reached(trace, ConfigureEngine) ==> env.joinReply.Some? && SdpOf(env.joinReply.value).Ok?)
    // The messages sent to the plugin: join, then start with the post-gathering local SDP.
    && sent == SentBy(o, env, trace)
    && (status.Completed? ==> status.negotiated == Negotiated(env.gatheredSdp))
    // The engine gets the planned registrations, in order, up to the first one that fails.
    && (!Reached(trace, ConfigureEngine) ==> engine == [])
    && (Passed(trace, status, ConfigureEngine) ==> engine == PlanFor(o, env))
    && (status == Failed(ConfigureEngine) ==>
          |engine| < |PlanFor(o, env)| && engine == PlanFor(o, env)[..|engine|]
          && (forall k :: 0 <= k < |engine| ==> Accepts(env, engine[k]))
          && !Accepts(env, PlanFor(o, env)[|engine|]))
    // What is applied to the peer connection.
    && peer == PeerAfter(o, env, Succeeded(trace, status))
  }

  /** The first `n` steps have been taken and none of them failed. */
  ghost predicate Progressed(o: Options, env: Env, trace: seq<Step>, n: nat) {
    IsRunTrace(trace) && |trace| == n && forall s :: Reached(trace, s) ==> StepOk(s, o, env)
  }

  /**
    The subscriber's main function: check the options, connect, create a session, attach
    to the videoroom plugin, join the feed and take the offer from the reply (main.go,
    lines 68-144), then go on with the peer connection.
   */
  method Run(o: Options, env: Env)
    returns (trace: seq<Step>, sent: seq<Message>, engine: seq<Registration>, peer: Option<Peer>, status: Status)
    ensures RunContract(o, env, trace, sent, engine, peer, status)
  {
    trace, sent, engine, peer := [], [], [], None;

    var invalid := Validate(o);
    if invalid.Some? {
      status := Rejected(invalid.value);
      return;
    }

    Extend(trace, Connect); trace := trace + [Connect];
    if !env.connectOk {
      status := Failed(Connect);
      return;
    }
    Extend(trace, CreateSession); trace := trace + [CreateSession];
    if !env.sessionOk {
      status := Failed(CreateSession);
      return;
    }
    Extend(trace, Attach); trace := trace + [Attach];
    if !env.attachOk {
      status := Failed(Attach);
      return;
    }

    Extend(trace, Join); trace := trace + [Join];
    sent := sent + [JoinMessage(o.room, o.feed)];
    if env.joinReply.None? {
      status := Failed(Join);
      return;
    }
    var offer := ExtractOffer(env.joinReply.value);
    if offer.Err? {
      status := NoOffer(offer.error);
      return;
    }
    trace, sent, engine, peer, status := SetUpPeer(o, env, offer.value, trace, sent);
  }

  /**
    Build the engine and the peer connection for the offer and register the callbacks
    (main.go, lines 146-224), then add the transceivers.
   */
  method SetUpPeer(o: Options, env: Env, offer: SessionDescription, done: seq<Step>, sentSoFar: seq<Message>)
    returns (trace: seq<Step>, sent: seq<Message>, engine: seq<Registration>, peer: Option<Peer>, status: Status)
    requires Validate(o).None? && Progressed(o, env, done, Position(Join) + 1)
    requires env.joinReply.Some? && SdpOf(env.joinReply.value).Ok?
    requires offer == SessionDescription(Offer, OfferSdp(env))
    requires sentSoFar == [JoinMessage(o.room, o.feed)]
    ensures RunContract(o, env, trace, sent, engine, peer, status)
  {
    trace, sent, peer := done, sentSoFar, None;

    // The media engine and the interceptor registry, filled in place.
    Extend(trace, ConfigureEngine); trace := trace + [ConfigureEngine];
    var engineOk;
    engine, engineOk := BuildMediaEngine(offer.sdp, o, env);
    if !engineOk {
      status := Failed(ConfigureEngine);
      return;
    }

    var settings := Settings(DTLS_RETRANSMISSION_MS, o.enableRfc8888);
    var servers: seq<IceServer> := [];
    if o.enableStun {
      servers := servers + [IceServer([GOOGLE_STUN])];
    }
    var config := PeerConfig(PolicyAll, servers, UnifiedPlan);

    Extend(trace, NewPeerConnection); trace := trace + [NewPeerConnection];
    if !env.peerConnectionOk {
      status := Failed(NewPeerConnection);
      return;
    }
    var connection := Peer(settings, config, [], None, None, false);
    Extend(trace, RegisterCallbacks); trace := trace + [RegisterCallbacks];
    trace, sent, peer, status := AddTransceivers(o, env, offer, trace, sent, engine, connection);
  }

  /** Add a receive-only audio transceiver, then a receive-only video one (main.go, lines 226-234). */
  method AddTransceivers(o: Options, env: Env, offer: SessionDescription, done: seq<Step>, sentSoFar: seq<Message>,
                         engine: seq<Registration>, connection: Peer)
    returns (trace: seq<Step>, sent: seq<Message>, peer: Option<Peer>, status: Status)
    requires Validate(o).None? && Progressed(o, env, done, Position(RegisterCallbacks) + 1)
    requires env.joinReply.Some? && SdpOf(env.joinReply.value).Ok?
    requires offer == SessionDescription(Offer, OfferSdp(env))
    requires sentSoFar == [JoinMessage(o.room, o.feed)]
    requires engine == PlanFor(o, env)
    requires connection == Peer(SettingsFor(o.enableRfc8888), PeerConfigFor(o.enableStun), [], None, None, false)
    ensures RunContract(o, env, trace, sent, engine, peer, status)
  {
    trace, sent, peer := done, sentSoFar, Some(connection);
    var pc := connection;

    Extend(trace, AddAudioTransceiver); trace := trace + [AddAudioTransceiver];
    if !env.audioTransceiverOk {
      status := Failed(AddAudioTransceiver);
      return;
    }
    // Each transceiver is appended to the connection's list, which starts out empty.
    pc := pc.(transceivers := [Transceiver(Audio, RecvOnly)]);
    peer := Some(pc);
    Extend(trace, AddVideoTransceiver); trace := trace + [AddVideoTransceiver];
    if !env.videoTransceiverOk {
      status := Failed(AddVideoTransceiver);
      return;
    }
    pc := pc.(transceivers := [Transceiver(Audio, RecvOnly), Transceiver(Video, RecvOnly)]);
    trace, sent, peer, status := Negotiate(o, env, offer, trace, sent, engine, pc);
  }

  /**
    Apply the offer, take the gathering promise and create the answer (main.go, lines
    236-248), then go on with it.
   */
  method Negotiate(o: Options, env: Env, offer: SessionDescription, done: seq<Step>, sentSoFar: seq<Message>,
                   engine: seq<Registration>, connection: Peer)
    returns (trace: seq<Step>, sent: seq<Message>, peer: Option<Peer>, status: Status)
    requires Validate(o).None? && Progressed(o, env, done, Position(AddVideoTransceiver) + 1)
    requires env.joinReply.Some? && SdpOf(env.joinReply.value).Ok?
    requires offer == SessionDescription(Offer, OfferSdp(env))
    requires sentSoFar == [JoinMessage(o.room, o.feed)]
    requires engine == PlanFor(o, env)
    requires connection == Peer(SettingsFor(o.enableRfc8888), PeerConfigFor(o.enableStun),
                                [Transceiver(Audio, RecvOnly), Transceiver(Video, RecvOnly)], None, None, false)
    ensures RunContract(o, env, trace, sent, engine, peer, status)
  {
    trace, sent, peer := done, sentSoFar, Some(connection);
    var pc := connection;

    Extend(trace, SetRemoteDescription); trace := trace + [SetRemoteDescription];
    if !env.remoteDescriptionOk {
      status := Failed(SetRemoteDescription);
      return;
    }
    pc := pc.(remote := Some(offer));
    peer := Some(pc);

    Extend(trace, TakeGatheringPromise); trace := trace + [TakeGatheringPromise];
    Extend(trace, CreateAnswer); trace := trace + [CreateAnswer];
    if env.answer.None? {
      status := Failed(CreateAnswer);
      return;
    }
    var answer := SessionDescription(Answer, env.answer.value);
    trace, sent, peer, status := StartSubscription(o, env, answer, trace, sent, engine, pc);
  }

  /**
    Apply the answer and wait for candidate gathering to complete (main.go, lines 250-259),
    then send `start`.
   */
  method StartSubscription(o: Options, env: Env, answer: SessionDescription, done: seq<Step>, sentSoFar: seq<Message>,
                           engine: seq<Registration>, connection: Peer)
    returns (trace: seq<Step>, sent: seq<Message>, peer: Option<Peer>, status: Status)
    requires Validate(o).None? && Progressed(o, env, done, Position(CreateAnswer) + 1)
    requires env.joinReply.Some? && SdpOf(env.joinReply.value).Ok?
    requires answer == SessionDescription(Answer, AnswerSdp(env))
    requires sentSoFar == [JoinMessage(o.room, o.feed)]
    requires engine == PlanFor(o, env)
    requires connection == Peer(SettingsFor(o.enableRfc8888), PeerConfigFor(o.enableStun),
                                [Transceiver(Audio, RecvOnly), Transceiver(Video, RecvOnly)],
                                Some(SessionDescription(Offer, OfferSdp(env))), None, false)
    ensures RunContract(o, env, trace, sent, engine, peer, status)
  {
    trace, sent, peer := done, sentSoFar, Some(connection);

    Extend(trace, SetLocalDescription); trace := trace + [SetLocalDescription];
    if !env.localDescriptionOk {
      status := Failed(SetLocalDescription);
      return;
    }
    var pc := connection.(local := Some(answer));
    Extend(trace, AwaitGathering); trace := trace + [AwaitGathering];
    trace, sent, peer, status := SendStart(o, env, trace, sent, engine, pc);
  }

  /**
    Send `start` with the gathered local SDP and report whether the feedback was negotiated
    (main.go, lines 263-275), then shut down.
   */
  method SendStart(o: Options, env: Env, done: seq<Step>, sentSoFar: seq<Message>,
                   engine: seq<Registration>, connection: Peer)
    returns (trace: seq<Step>, sent: seq<Message>, peer: Option<Peer>, status: Status)
    requires Validate(o).None? && Progressed(o, env, done, Position(AwaitGathering) + 1)
    requires env.joinReply.Some? && SdpOf(env.joinReply.value).Ok?
    requires sentSoFar == [JoinMessage(o.room, o.feed)]
    requires engine == PlanFor(o, env)
    requires connection == Peer(SettingsFor(o.enableRfc8888), PeerConfigFor(o.enableStun),
                                [Transceiver(Audio, RecvOnly), Transceiver(Video, RecvOnly)],
                                Some(SessionDescription(Offer, OfferSdp(env))),
                                Some(SessionDescription(Answer, AnswerSdp(env))), false)
    ensures RunContract(o, env, trace, sent, engine, peer, status)
  {
    trace, sent, peer := done, sentSoFar, Some(connection);

    var sdpAnswer := env.gatheredSdp;
    Extend(trace, Start); trace := trace + [Start];
    sent := sent + [StartMessage(o.room, sdpAnswer)];
    if !env.startOk {
      status := Failed(Start);
      return;
    }
    trace, peer, status := Shutdown(o, env, trace, sent, engine, connection, Negotiated(sdpAnswer));
  }

  /**
    Shut down after the subscription ran, on a gateway error or an interrupt alike: close
    the peer connection, then wait for the relay workers (main.go, lines 277-292).
   */
  method Shutdown(o: Options, env: Env, done: seq<Step>, sent: seq<Message>,
                  engine: seq<Registration>, connection: Peer, negotiated: bool)
    returns (trace: seq<Step>, peer: Option<Peer>, status: Status)
    requires Validate(o).None? && Progressed(o, env, done, Position(Start) + 1)
    requires env.joinReply.Some? && SdpOf(env.joinReply.value).Ok?
    requires sent == [JoinMessage(o.room, o.feed), StartMessage(o.room, env.gatheredSdp)]
    requires engine == PlanFor(o, env)
    requires connection == Peer(SettingsFor(o.enableRfc8888), PeerConfigFor(o.enableStun),
                                [Transceiver(Audio, RecvOnly), Transceiver(Video, RecvOnly)],
                                Some(SessionDescription(Offer, OfferSdp(env))),
                                Some(SessionDescription(Answer, AnswerSdp(env))), false)
    requires negotiated == Negotiated(env.gatheredSdp)
    ensures RunContract(o, env, trace, sent, engine, peer, status)
  {
    status := Completed(negotiated);
    trace := done;
    Extend(trace, ClosePeerConnection); trace := trace + [ClosePeerConnection];
    peer := Some(connection.(closed := true));
    Extend(trace, WaitRelays); trace := trace + [WaitRelays];
  }

  /** In a run trace every step performed stands at its own position. */
  lemma StepAt(t: seq<Step>, s: Step)
    requires IsRunTrace(t) && Reached(t, s)
    ensures t[Position(s)] == s
  {
    NominalAt(s);
  }

  /**
    Step `a` comes before step `b` in the program: whenever a run has performed `b`, it has
    performed `a`, at an earlier point.
   */
  lemma Before(t: seq<Step>, a: Step, b: Step)
    requires IsRunTrace(t) && Position(a) < Position(b) && Reached(t, b)
    ensures Reached(t, a) && t[Position(a)] == a && t[Position(b)] == b
  {
    StepAt(t, a);
    StepAt(t, b);
  }

  /**
    The negotiation order: audio, then video transceiver, before the remote description; the
    gathering promise before the answer is created; the local description, then the end of
    gathering, before `start`. Each earlier step is shown to be in the trace at its own
    position, and that position is the smaller one.
   */
  lemma NegotiationOrder(t: seq<Step>)
    requires IsRunTrace(t)
    ensures Reached(t, SetRemoteDescription) ==>
      t[Position(AddAudioTransceiver)] == AddAudioTransceiver && t[Position(AddVideoTransceiver)] == AddVideoTransceiver
      && Position(AddAudioTransceiver) < Position(AddVideoTransceiver) < Position(SetRemoteDescription)
    ensures Reached(t, CreateAnswer) ==>
      t[Position(TakeGatheringPromise)] == TakeGatheringPromise && Position(TakeGatheringPromise) < Position(CreateAnswer)
    ensures Reached(t, Start) ==>
      t[Position(SetLocalDescription)] == SetLocalDescription && t[Position(AwaitGathering)] == AwaitGathering
      && Position(SetLocalDescription) < Position(AwaitGathering) < Position(Start)
  {
    if Reached(t, SetRemoteDescription) {
      Before(t, AddAudioTransceiver, SetRemoteDescription);
      Before(t, AddVideoTransceiver, SetRemoteDescription);
    }
    if Reached(t, CreateAnswer) {
      Before(t, TakeGatheringPromise, CreateAnswer);
    }
    if Reached(t, Start) {
      Before(t, SetLocalDescription, Start);
      Before(t, AwaitGathering, Start);
    }
  }

  /**
    Fail-fast: a run that has gone on to step `b` has seen every earlier step succeed (so,
    for one, the video transceiver is attempted only after the audio one was added).
   */
  lemma EarlierStepsSucceeded(o: Options, env: Env, trace: seq<Step>, sent: seq<Message>,
                              engine: seq<Registration>, peer: Option<Peer>, status: Status, a: Step, b: Step)
    requires RunContract(o, env, trace, sent, engine, peer, status)
    requires Position(a) < Position(b) && Reached(trace, b)
    ensures StepOk(a, o, env)
  {
    assert Passed(trace, status, a);
  }

  /** A `start` message is only ever the second message, sent once the run has reached `start`. */
  lemma StartIsSecondMessage(o: Options, env: Env, trace: seq<Step>, k: nat)
    requires k < |SentBy(o, env, trace)| && SentBy(o, env, trace)[k].StartMessage?
    ensures Reached(trace, Start) && Reached(trace, AwaitGathering)
    ensures SentBy(o, env, trace) == [JoinMessage(o.room, o.feed), StartMessage(o.room, env.gatheredSdp)] && k == 1
  {
    if !Reached(trace, Start) {
      assert false;
    }
  }

  /**
    The one `start` message is sent after gathering has completed and carries the
    post-gathering local SDP, as a non-trickle answer.
   */
  lemma StartCarriesGatheredAnswer(o: Options, env: Env, trace: seq<Step>, sent: seq<Message>,
                                   engine: seq<Registration>, peer: Option<Peer>, status: Status, k: nat)
    requires RunContract(o, env, trace, sent, engine, peer, status)
    requires k < |sent| && sent[k].StartMessage?
    ensures Reached(trace, AwaitGathering) && StepOk(SetLocalDescription, o, env)
    ensures sent == [JoinMessage(o.room, o.feed), StartMessage(o.room, env.gatheredSdp)] && k == 1
    ensures Encode(sent[k]).jsep == Some(AnswerJsep(env.gatheredSdp))
  {
    StartIsSecondMessage(o, env, trace, k);
    assert Passed(trace, status, SetLocalDescription);
  }

  /**
    A join reply without a usable offer ends the run with exit status 1: no engine, no peer
    connection, no `start`; once the join was made, the run ends for that very reason.
   */
  lemma UnusableOfferEndsRun(o: Options, env: Env, trace: seq<Step>, sent: seq<Message>,
                             engine: seq<Registration>, peer: Option<Peer>, status: Status)
    requires RunContract(o, env, trace, sent, engine, peer, status)
    requires env.joinReply.Some? && SdpOf(env.joinReply.value).Err?
    ensures !Reached(trace, ConfigureEngine) && engine == [] && peer.None? && !Reached(trace, Start)
    ensures ExitCode(status) == 1
    ensures Reached(trace, Join) ==> status == NoOffer(SdpOf(env.joinReply.value).error)
  {
  }

  /** A completed run has taken every step, sent both messages and closed its peer connection. */
  lemma CompletedRun(o: Options, env: Env, trace: seq<Step>, sent: seq<Message>,
                     engine: seq<Registration>, peer: Option<Peer>, status: Status)
    requires RunContract(o, env, trace, sent, engine, peer, status)
    requires status.Completed?
    ensures trace == NOMINAL
    ensures sent == [JoinMessage(o.room, o.feed), StartMessage(o.room, env.gatheredSdp)]
    ensures engine == PlanFor(o, env)
    ensures peer.Some? && peer.value.closed
    ensures ExitCode(status) == 0
  {
    assert Passed(trace, status, NewPeerConnection);
  }

  /** The engine step succeeds exactly when every registration of the plan is accepted. */
  lemma EngineOkAcceptsPlan(offerSdp: string, o: Options, env: Env)
    ensures EngineOk(offerSdp, o, env)
        <==> forall k :: 0 <= k < |EnginePlan(offerSdp, o.enableRfc8888, o.reportIntervalMs)|
               ==> Accepts(env, EnginePlan(offerSdp, o.enableRfc8888, o.reportIntervalMs)[k])
  {
    var plan := EnginePlan(offerSdp, o.enableRfc8888, o.reportIntervalMs);
    if !EngineOk(offerSdp, o, env) {
      if !env.codecsOk {
        assert !Accepts(env, plan[0]);
      } else if Contains(offerSdp, MID_URI) && !env.midExtensionOk {
        assert !Accepts(env, plan[2]);
      } else {
        assert !Accepts(env, plan[|plan| - 1]);
      }
    }
  }
}
