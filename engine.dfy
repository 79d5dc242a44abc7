/**
  How the subscriber sets up its WebRTC engine (main.go, lines 146-184): what it registers
  with the media engine and the interceptor registry, the transport settings, and the
  peer-connection configuration. All of it is decided by the offer text and two flags.
 */
module Engine {
  import opened Text

  /** The SDES MID header extension (section 14 of RFC 8843). */
  const MID_URI := "urn:ietf:params:rtp-hdrext:sdes:mid"
  /** RTCP feedback type "ack" with parameter "ccfb" (section 6 of RFC 8888). */
  const ACK := "ack"
  const CCFB := "ccfb"
  const DTLS_RETRANSMISSION_MS := 100
  const GOOGLE_STUN := "stun:stun.l.google.com:19302"

  datatype MediaKind = Audio | Video

  /** One registration made with the media engine or the interceptor registry. */
  datatype Registration =
    | DefaultCodecs
    | DefaultInterceptors
    | HeaderExtension(uri: string, kind: MediaKind)
    | Feedback(fbType: string, parameter: string, kind: MediaKind)
    | SenderInterceptor(intervalMs: nat)     // the RFC 8888 report generator

  /** The registrations, in the order the program makes them. */
  function EnginePlan(offerSdp: string, rfc8888: bool, intervalMs: nat): seq<Registration> {
    [DefaultCodecs, DefaultInterceptors]
    + (if Contains(offerSdp, MID_URI) then [HeaderExtension(MID_URI, Audio)] else [])
    + (if rfc8888 then [Feedback(ACK, CCFB, Video), Feedback(ACK, CCFB, Audio), SenderInterceptor(intervalMs)] else [])
  }

  /**
    The codecs and default interceptors come first; the MID header extension is registered,
    for audio only, exactly when the offer mentions it.
   */
  lemma PlanHeaderExtensions(offerSdp: string, rfc8888: bool, intervalMs: nat)
    ensures |EnginePlan(offerSdp, rfc8888, intervalMs)| >= 2
    ensures EnginePlan(offerSdp, rfc8888, intervalMs)[0] == DefaultCodecs
    ensures EnginePlan(offerSdp, rfc8888, intervalMs)[1] == DefaultInterceptors
    ensures HeaderExtension(MID_URI, Audio) in EnginePlan(offerSdp, rfc8888, intervalMs) <==> Contains(offerSdp, MID_URI)
    ensures forall r :: r in EnginePlan(offerSdp, rfc8888, intervalMs) && r.HeaderExtension? ==> r == HeaderExtension(MID_URI, Audio)
  {
  }

  /**
    The ccfb feedback for video and for audio, and one report generator with the configured
    interval, are registered exactly when RFC 8888 is enabled.
   */
  lemma PlanFeedback(offerSdp: string, rfc8888: bool, intervalMs: nat)
    ensures Feedback(ACK, CCFB, Video) in EnginePlan(offerSdp, rfc8888, intervalMs) <==> rfc8888
    ensures Feedback(ACK, CCFB, Audio) in EnginePlan(offerSdp, rfc8888, intervalMs) <==> rfc8888
    ensures forall r :: r in EnginePlan(offerSdp, rfc8888, intervalMs) && r.Feedback? ==> r.fbType == ACK && r.parameter == CCFB
    ensures forall r :: r in EnginePlan(offerSdp, rfc8888, intervalMs) && r.SenderInterceptor? ==> r == SenderInterceptor(intervalMs)
  {
  }

  /** There is one report generator when RFC 8888 is enabled, and none otherwise. */
  lemma PlanReportGenerator(offerSdp: string, rfc8888: bool, intervalMs: nat)
    ensures multiset(EnginePlan(offerSdp, rfc8888, intervalMs))[SenderInterceptor(intervalMs)] == if rfc8888 then 1 else 0
  {
  }

  /** Nothing is registered twice. */
  lemma PlanNoDuplicates(offerSdp: string, rfc8888: bool, intervalMs: nat)
    ensures forall r :: r in EnginePlan(offerSdp, rfc8888, intervalMs) ==> multiset(EnginePlan(offerSdp, rfc8888, intervalMs))[r] == 1
  {
  }

  /** The setting engine: a fixed DTLS retransmission interval; ECN parsing follows the RFC 8888 flag. */
  datatype Settings = Settings(dtlsRetransmissionMs: nat, ecnParsing: bool)

  datatype IceTransportPolicy = PolicyAll | PolicyRelay
  datatype SdpSemantics = UnifiedPlan | PlanB | UnifiedPlanWithFallback
  datatype IceServer = IceServer(urls: seq<string>)

  datatype PeerConfig = PeerConfig(policy: IceTransportPolicy, iceServers: seq<IceServer>, semantics: SdpSemantics)

  function SettingsFor(rfc8888: bool): (s: Settings)
    ensures s.ecnParsing == rfc8888 && s.dtlsRetransmissionMs == DTLS_RETRANSMISSION_MS
  {
    Settings(DTLS_RETRANSMISSION_MS, rfc8888)
  }

  /** The ICE server list: empty, or one server with the Google STUN URL when STUN is enabled. */
  function IceServersFor(enableStun: bool): (servers: seq<IceServer>)
    ensures servers == [] <==> !enableStun
    ensures enableStun ==> servers == [IceServer([GOOGLE_STUN])]
  {
    if enableStun then [IceServer([GOOGLE_STUN])] else []
  }

  /** The peer-connection configuration: all candidate types, unified-plan SDP. */
  function PeerConfigFor(enableStun: bool): (c: PeerConfig)
    ensures c.policy == PolicyAll && c.semantics == UnifiedPlan
    ensures c.iceServers == IceServersFor(enableStun)
  {
    PeerConfig(PolicyAll, IceServersFor(enableStun), UnifiedPlan)
  }

  /** An offer that declares the MID extension anywhere in its text gets it registered for audio. */
  lemma MidRegisteredWhenOffered(before: string, after: string, rfc8888: bool, intervalMs: nat)
    ensures HeaderExtension(MID_URI, Audio) in EnginePlan(before + MID_URI + after, rfc8888, intervalMs)
  {
    ContainsEmbedded(before, MID_URI, after);
    PlanHeaderExtensions(before + MID_URI + after, rfc8888, intervalMs);
  }

  /** The RFC 8888 flag adds exactly three registrations, and nothing else depends on it. */
  lemma Rfc8888Adds(offerSdp: string, intervalMs: nat)
    ensures EnginePlan(offerSdp, true, intervalMs)
         == EnginePlan(offerSdp, false, intervalMs)
            + [Feedback(ACK, CCFB, Video), Feedback(ACK, CCFB, Audio), SenderInterceptor(intervalMs)]
  {
  }
}
