# Janus video-room subscriber, modelled in Dafny

This project models the subscriber client in `janus-gateway/video-room/main.go`. The client
connects to a Janus gateway and joins one feed of a videoroom as a subscriber. It builds a
Pion WebRTC peer connection from the offer in the join reply and answers once ICE gathering
is complete (no trickle). It sends that answer with the `start` request and relays every
inbound RTP track into a media sink until the track's first read error.

The modules follow the program's parts:

- `Config`: the command-line options and the check on them that comes before any network
  step.
- `Signaling`: the two plugin messages (`join` and `start`) as JSON objects; taking the offer
  out of the join reply's Jsep; the `negotiated` flag of the final status line.
- `Engine`: what is registered with the media engine and the interceptor registry, in
  order; the setting engine; the peer-connection configuration.
- `Relay`: the `OnTrack` handler. The track, the media sink and the wait group are classes
  whose state the handler changes in place. The read loop is a `while` loop proved against
  the function `Delivered`, which gives the chunks a sink should receive from a sequence of
  read outcomes.
- `Subscriber`: `main` as an imperative run, split along the program's phases (`Run`,
  `SetUpPeer`, `AddTransceivers`, `Negotiate`, `StartSubscription`, `SendStart`, `Shutdown`).
  The gateway client and the WebRTC engine are collaborators. A record `Env` says how each of
  their calls turns out. Every phase ensures the same predicate `RunContract`, which says:
  - the steps taken form a prefix of the program's step order, cut after the first failing
    step;
  - every step taken before that succeeded;
  - which messages were sent: join, then start with the post-gathering local SDP;
  - which engine registrations were made, up to the first that failed;
  - what was applied to the peer connection;
  - how the run ended, with its exit status.

  Lemmas then derive the order and fail-fast properties from `RunContract`.
- `Text`: the string functions the code uses (`strings.Contains`, `strings.Split`,
  `strings.ToLower`), with their properties.
- `Wrappers`: `Option` and `Result`.

Two behaviours of the code worth noting:

- A keepalive failure (main.go:109-112) only logs and ends the keepalive goroutine. It does
  not end the process.
- Creating the RFC 8888 report generator can fail, and that failure is fatal
  (main.go:163-166). The model lets that registration fail like the codec and header-extension
  ones.

## Model

| member | source | states |
|---|---|---|
| Config.Validate | janus-gateway/video-room/main.go:69-76 | The options pass exactly when room and feed are both non-zero and the report interval is at least 1. A zero room or feed is reported first; a zero interval is reported only when room and feed are both given. |
| Config.DefaultsRejected | janus-gateway/video-room/main.go:61-72 | With every flag left at its default, the run is rejected for the missing room or feed. |
| Signaling.JoinRequest | janus-gateway/video-room/main.go:121-126 | The join body has exactly the keys request, ptype, room and feed. Their values are "join", "subscriber" and the room and feed numbers. There is no Jsep. |
| Signaling.AnswerJsep | janus-gateway/video-room/main.go:267-271 | The start Jsep has exactly type "answer", the answer SDP, and trickle false. |
| Signaling.StartRequest | janus-gateway/video-room/main.go:264-271 | The start body has exactly request "start" and the room, and the Jsep is the answer Jsep. |
| Signaling.Encode | janus-gateway/video-room/main.go:264-271 | A plugin message becomes a request with the right request name and room. The request carries a Jsep exactly when the message is `start`. |
| Signaling.SdpOf | janus-gateway/video-room/main.go:131-138 | A missing Jsep gives the missing-offer error, and a present Jsep without a string "sdp" entry gives the not-a-string error. The SDP is returned exactly when the Jsep has a string "sdp" entry, and it is that string unchanged. |
| Signaling.ExtractOffer | janus-gateway/video-room/main.go:131-144 | The offer exists exactly when the SDP could be read. Its type is Offer and its text is the Jsep's. Otherwise the error is the SDP's. |
| Signaling.OfferRoundTrip | janus-gateway/video-room/main.go:135-144 | An offer Jsep as the gateway sends it gives back an offer with the same SDP text. |
| Signaling.AnswerRoundTrip | janus-gateway/video-room/main.go:264-271 | The answer carried by `start`, read back by the program's own extraction, is exactly the SDP sent. |
| Signaling.ExtractOfferIgnoresOtherKeys | janus-gateway/video-room/main.go:135 | Keys of the Jsep other than "sdp" do not change the offer. |
| Signaling.Negotiated | janus-gateway/video-room/main.go:275 | The flag is true exactly when the ccfb feedback attribute occurs somewhere in the answer. |
| Signaling.NegotiatedWhenAdvertised | janus-gateway/video-room/main.go:275 | An answer with the ccfb attribute anywhere in its text is reported as negotiated. |
| Engine.EnginePlan | janus-gateway/video-room/main.go:146-169 | The registrations in the program's order: default codecs, default interceptors, the audio MID extension when the offer mentions it, then the two ccfb feedbacks and the report generator when RFC 8888 is on. Its properties are stated by the Plan lemmas below. |
| Engine.PlanHeaderExtensions | janus-gateway/video-room/main.go:146-158 | The default codecs, then the default interceptors, come first. The MID header extension is registered, for audio only, exactly when the offer text contains its URI. |
| Engine.PlanFeedback | janus-gateway/video-room/main.go:159-167 | The ack/ccfb feedback for video and for audio is registered exactly when RFC 8888 is enabled. Every report generator has the configured interval. |
| Engine.PlanReportGenerator | janus-gateway/video-room/main.go:162-167 | One report generator is registered when RFC 8888 is enabled, and none otherwise. |
| Engine.PlanNoDuplicates | janus-gateway/video-room/main.go:146-169 | Nothing is registered twice. |
| Engine.MidRegisteredWhenOffered | janus-gateway/video-room/main.go:153-158 | An offer that mentions the MID URI anywhere gets the extension registered for audio. |
| Engine.Rfc8888Adds | janus-gateway/video-room/main.go:159-169 | The RFC 8888 flag appends exactly the two feedback registrations and the report generator, and changes nothing else. |
| Engine.SettingsFor | janus-gateway/video-room/main.go:172-174 | The DTLS retransmission interval is 100 ms, and ECN parsing is on exactly when RFC 8888 is enabled. |
| Engine.IceServersFor | janus-gateway/video-room/main.go:178-184 | The ICE server list is empty exactly when STUN is disabled. Otherwise it is the one Google STUN server. |
| Engine.PeerConfigFor | janus-gateway/video-room/main.go:176-184 | The configuration allows all ICE candidate types, uses unified-plan SDP, and has the ICE servers for the STUN flag. |
| Text.Contains | janus-gateway/video-room/main.go:154 | `strings.Contains`: the substring is a prefix of some suffix of the string. Its meaning is fixed by `Text.ContainsIff`. |
| Text.ContainsIff | janus-gateway/video-room/main.go:154 | `Contains` holds exactly when the substring occurs at some index. |
| Text.ContainsEmbedded | janus-gateway/video-room/main.go:154 | A string contains every substring embedded in it. |
| Text.Split | janus-gateway/video-room/main.go:202 | Splitting gives at least one part, at least two exactly when the separator occurs, and no part contains the separator. |
| Text.JoinSplit | janus-gateway/video-room/main.go:202 | Joining the parts of a split with the separator gives back the string. |
| Text.SplitSecond | janus-gateway/video-room/main.go:202 | For "a/b..." with no separator in a or b, the second part is b. |
| Text.ToLower | janus-gateway/video-room/main.go:203 | Lowercasing keeps the length, maps each character through `LowerChar`, leaves non-upper-case characters alone, and leaves no upper-case letter. |
| Text.ToLowerIdempotent | janus-gateway/video-room/main.go:203 | Lowercasing twice is lowercasing once. |
| Relay.CodecName | janus-gateway/video-room/main.go:202-203 | The codec name has no '/' and no upper-case letter. |
| Relay.CodecNameOfMime | janus-gateway/video-room/main.go:202-203 | For a MIME type "kind/codec", possibly with more '/'-separated parts, the name is the lowercased codec. |
| Relay.CodecNameOfVp8 | janus-gateway/video-room/main.go:202-203 | "video/VP8" gives "vp8". |
| Relay.Delivered | janus-gateway/video-room/main.go:213-221 | The chunks a sink should receive from a track's read outcomes: the packets, in order, up to the first read that fails or does not fit the buffer. Its properties are stated by `Relay.DeliveredAreSuccessfulReads` and `Relay.DeliveredStopsAtFailure`. |
| Relay.Consumed | janus-gateway/video-room/main.go:213-218 | How many read outcomes the loop uses: those up to and including the first failure, never more than there are. |
| Relay.FirstFailure | janus-gateway/video-room/main.go:214-218 | The number of successful reads before the first failure: all reads before it fit the buffer, and the read at it does not. |
| Relay.DeliveredAreSuccessfulReads | janus-gateway/video-room/main.go:213-221 | The sink receives as many chunks as there are successful reads before the first failure. The k-th chunk is the k-th packet, and every chunk is at most 1400 bytes. |
| Relay.DeliveredStopsAtFailure | janus-gateway/video-room/main.go:214-218 | Nothing read at or after a failing read reaches the sink. |
| Relay.TrackRemote.constructor | janus-gateway/video-room/main.go:198 | A track with its payload type, MIME type and read outcomes, not yet read. |
| Relay.TrackRemote.Read | janus-gateway/video-room/main.go:215 | A read of a track with outcomes left consumes one. It fails exactly when the track is exhausted, the read fails, or the packet does not fit the buffer. On success the packet is at the front of the buffer and its length is returned. |
| Relay.Sink.constructor | janus-gateway/video-room/main.go:203 | A new sink is bound to the payload type and codec name, not started, empty and never stopped. |
| Relay.Sink.Start | janus-gateway/video-room/main.go:205 | The sink is started, and how far its track had been read at that moment is recorded. Nothing else changes. |
| Relay.Sink.Push | janus-gateway/video-room/main.go:220 | The chunk is appended to what the sink received. A push while the sink is not running is counted as stray. |
| Relay.Sink.Stop | janus-gateway/video-room/main.go:210 | The stop count goes up by one. How far the track had been read and how many workers the wait group had seen finish are recorded. Nothing else changes. |
| Relay.WaitGroup.constructor | janus-gateway/video-room/main.go:83 | A new wait group counts no workers and has seen no Add and no Done. |
| Relay.WaitGroup.Add | janus-gateway/video-room/main.go:206 | The worker count goes up by the delta, one more Add call is counted, and how far the added worker's track had been read is recorded. |
| Relay.WaitGroup.Done | janus-gateway/video-room/main.go:211 | The worker count goes down by one, and Done is only allowed on a positive count. One more Done call is counted. |
| Relay.RelayPackets | janus-gateway/video-room/main.go:213-221 | The loop pushes exactly `Delivered` of the remaining reads, in order, and consumes the track up to and including the first failing read. The sink stays running throughout. |
| Relay.OnTrack | janus-gateway/video-room/main.go:198-224 | The new sink is bound to the track's payload type and codec name. It is started while its track has not been read yet, receives exactly the successful reads in order, has no stray pushes, and is stopped exactly once, after the loop's last read, the failing one when there is one. The track is read no further than its first failing read. The wait group sees exactly one Add, made before the track's first read, and one Done, made after the sink was stopped, and is back at its old count. |
| Subscriber.Accepts | janus-gateway/video-room/main.go:146-169 | Which registrations can fail: the default codecs, the MID extension and the report generator. The other outcomes are not checked by the program. |
| Subscriber.EngineOk | janus-gateway/video-room/main.go:146-169 | The engine step succeeds when the codecs, the MID extension if the offer mentions it, and the report generator if RFC 8888 is on are accepted. `Subscriber.EngineOkAcceptsPlan` proves this is the same as every planned registration being accepted. |
| Subscriber.StepOk | janus-gateway/video-room/main.go:87-273 | Which step succeeds in a given environment. Every call whose error the program checks can fail; the steps that only wait always succeed. |
| Subscriber.SentBy | janus-gateway/video-room/main.go:121-271 | The plugin messages of a run: join once the join step is reached, then start with the post-gathering local SDP once the start step is reached. |
| Subscriber.PeerAfter | janus-gateway/video-room/main.go:172-292 | The peer connection once the first n steps have succeeded: absent before it is created; then the planned settings and configuration, the transceivers, the offer and the answer whose steps succeeded, and closed at shutdown. |
| Subscriber.ExitCode | janus-gateway/video-room/main.go:71-292 | The exit status: 0 after a completed run returns from main, 1 for `os.Exit(1)` on bad options and for every `log.Fatalf`. `Subscriber.CompletedRun` and `Subscriber.UnusableOfferEndsRun` state it for those runs. |
| Subscriber.RunContract | janus-gateway/video-room/main.go:58-292 | The whole promise of a run, as listed above. It includes that a join reply without a usable offer stops the run before the engine step, and that on a failed engine step every registration made was accepted. |
| Subscriber.BuildMediaEngine | janus-gateway/video-room/main.go:146-169 | The registrations made are a prefix of the plan, each accepted. They are the whole plan exactly when the engine step succeeds. Otherwise the next planned registration is the one that failed. |
| Subscriber.EngineOkAcceptsPlan | janus-gateway/video-room/main.go:146-169 | The engine step succeeds exactly when every registration of the plan is accepted. |
| Subscriber.Run | janus-gateway/video-room/main.go:58-144 | The whole run satisfies `RunContract`: order, fail-fast, messages, engine, peer connection and end status, as described above. A reply without a usable offer ends the run with NoOffer. |
| Subscriber.SetUpPeer | janus-gateway/video-room/main.go:146-224 | The rest of the run, from the engine step on, satisfies `RunContract`. A failed engine step records only accepted registrations, up to the first rejected one. |
| Subscriber.AddTransceivers | janus-gateway/video-room/main.go:226-234 | The rest of the run, from the audio transceiver on, satisfies `RunContract`. Video is attempted only after audio was added. |
| Subscriber.Negotiate | janus-gateway/video-room/main.go:236-248 | The rest of the run, from the remote description on, satisfies `RunContract`. |
| Subscriber.StartSubscription | janus-gateway/video-room/main.go:250-259 | The rest of the run, from the local description on, satisfies `RunContract`. |
| Subscriber.SendStart | janus-gateway/video-room/main.go:261-275 | The rest of the run, from `start` on, satisfies `RunContract`. |
| Subscriber.Shutdown | janus-gateway/video-room/main.go:277-292 | A completed run closes its peer connection and then waits for the relay workers. |
| Subscriber.NegotiationOrder | janus-gateway/video-room/main.go:226-264 | In any run trace: audio, then video transceiver, before the remote description; the gathering promise before the answer is created; the local description, then the end of gathering, before `start`. |
| Subscriber.EarlierStepsSucceeded | janus-gateway/video-room/main.go:226-234 | A run that went on to a step saw every earlier step succeed. |
| Subscriber.StartIsSecondMessage | janus-gateway/video-room/main.go:259-271 | A `start` message is only ever the second message, after join. It is sent only in runs that reached `start` and so awaited gathering, and it carries the post-gathering SDP. |
| Subscriber.StartCarriesGatheredAnswer | janus-gateway/video-room/main.go:250-271 | When `start` is sent, the local description was set and gathering had completed. Its Jsep is the non-trickle answer holding the post-gathering SDP. |
| Subscriber.UnusableOfferEndsRun | janus-gateway/video-room/main.go:131-137 | A join reply without a Jsep, or whose "sdp" is not a string, ends the run with exit status 1. No engine, peer connection or `start` follows. Once the join was made, the run ends for exactly that reason. |
| Subscriber.CompletedRun | janus-gateway/video-room/main.go:264-292 | A completed run took every step in order, sent join and then start, registered the whole plan, closed its peer connection, and exits with status 0. |

## Left out

- The GStreamer sink (`internal/gstreamer-sink/gst.c` and its Go binding) is not part of this model. The sink is a class that records whether it was started, the chunks pushed into it and its stop count.
- The keepalive goroutine (main.go:107-116) is left out: it runs on a timer and only logs.
- The handle event watcher (main.go:29-46) is left out: it only logs events.
- The shutdown `select` (main.go:277-292) waits for a gateway error or an interrupt. Both branches close the peer connection and then wait for the workers, so `Shutdown` models the pair once. The race between the two signals is not modelled.
- Logging is left out. That includes the display-only `strings.ReplaceAll` of lines 139 and 262, and the two fatal messages at lines 137 and 247 that print the stale `err` rather than the real cause.
- Flag parsing (main.go:60-67) is left out. `Options` holds the parsed values, and a Go `uint` is taken as 64 bits.
- `time.Duration` arithmetic is left out. The report interval stays in milliseconds, as the option gives it.
- The gateway client and Pion's internals are opaque. Each call's outcome is a field of `Env`: the answer SDP, the post-gathering local SDP, and whether each call succeeds.
- Concurrency is left out. The relay goroutine runs to completion inside `OnTrack`, and the `OnTrack` callback is modelled on its own (module `Relay`), not interleaved with the main sequence.
- Nothing in the program has a time-out, and neither does the model. In the program, the join and start replies, the wait for gathering (line 259), the shutdown `select` (line 277) and `wg.Wait` (lines 283 and 290) can all block forever. The model has no blocking: the waiting steps always succeed, and every run ends with a status.
- Relay.CodecName: `strings.Split(mime, "/")[1]` panics on a MIME type without '/' (line 202). The model excludes that input by a precondition of `CodecName` and `OnTrack`, so the panic is not modelled.
- Relay.OnTrack: requires a '/' in the track's MIME type, for the same panic at line 202, which is not modelled.
- RegisterDefaultInterceptors (line 152) returns an error that the program discards. The model therefore treats that registration as always accepted.
- Relay.TrackRemote.Read: a packet longer than the 1400-byte buffer is reported as a read error. This stands for Pion's short-buffer error; Pion's own behaviour is not modelled.
- Relay.Sink: the order of events is kept in four ghost fields, not as a full call history. They are the pushes made while the sink was not running, the track position at Start and at Stop, and the wait group's Done count at Stop. The wait group likewise records the track position at Add.
- Text.ToLower: only ASCII letters are lowercased. Go's `strings.ToLower` also maps non-ASCII letters.
