/**
  The two messages the subscriber sends to the videoroom plugin and what it reads
  from the reply to the first one (main.go, lines 121-144 and 264-275).

  Requests and the reply's `Jsep` are free-form JSON objects in the gateway client;
  here a JSON value is a small datatype and an object is a map from keys to values.
 */
module Signaling {
  import opened Wrappers
  import opened Text

  datatype Json =
    | JNull
    | JBool(b: bool)
    | JNumber(n: int)
    | JString(str: string)
    | JArray(items: seq<Json>)
    | JObject(fields: map<string, Json>)

  type Body = map<string, Json>

  datatype SdpType = Offer | Answer

  datatype SessionDescription = SessionDescription(sdpType: SdpType, sdp: string)

  /** A plugin message: the request body and, for `start`, the session description. */
  datatype Request = Request(body: Body, jsep: Option<Body>)

  datatype OfferError =
    | MissingOffer    // the reply has no Jsep at all
    | SdpNotString    // the Jsep has no "sdp" entry, or it is not a string

  /** The attribute an answer carries when RFC 8888 congestion-control feedback was negotiated. */
  const CCFB_ATTRIBUTE := "a=rtcp-fb:* ack ccfb"

  /** The join request of a subscriber: it names the room and the feed and carries no Jsep. */
  function JoinRequest(room: nat, feed: nat): (r: Request)
    ensures r.jsep == None
    ensures r.body.Keys == {"request", "ptype", "room", "feed"}
    ensures r.body["request"] == JString("join") && r.body["ptype"] == JString("subscriber")
    ensures r.body["room"] == JNumber(room) && r.body["feed"] == JNumber(feed)
  {
    Request(map["request" := JString("join"), "ptype" := JString("subscriber"),
                "room" := JNumber(room), "feed" := JNumber(feed)], None)
  }

  /** The Jsep of the start request: the local answer, sent whole, with trickle ICE off. */
  function AnswerJsep(sdp: string): (j: Body)
    ensures j.Keys == {"type", "sdp", "trickle"}
    ensures j["type"] == JString("answer") && j["sdp"] == JString(sdp) && j["trickle"] == JBool(false)
  {
    map["type" := JString("answer"), "sdp" := JString(sdp), "trickle" := JBool(false)]
  }

  /** The start request: it names the room only, and carries the answer. */
  function StartRequest(room: nat, sdp: string): (r: Request)
    ensures r.body.Keys == {"request", "room"}
    ensures r.body["request"] == JString("start") && r.body["room"] == JNumber(room)
    ensures r.jsep == Some(AnswerJsep(sdp))
  {
    Request(map["request" := JString("start"), "room" := JNumber(room)], Some(AnswerJsep(sdp)))
  }

  /** The two plugin messages of a subscriber, before they are put into JSON. */
  datatype Message =
    | JoinMessage(room: nat, feed: nat)
    | StartMessage(room: nat, answerSdp: string)

  /** The request that carries a message; only `start` has a Jsep, and it holds the answer. */
  function Encode(m: Message): (r: Request)
    ensures r.jsep.Some? <==> m.StartMessage?
    ensures "request" in r.body && "room" in r.body
    ensures r.body["request"] == JString(if m.JoinMessage? then "join" else "start")
    ensures r.body["room"] == JNumber(m.room)
  {
    match m
    case JoinMessage(room, feed) => JoinRequest(room, feed)
    case StartMessage(room, sdp) => StartRequest(room, sdp)
  }

  /**
    The SDP text of a Jsep: a missing Jsep is one error, a Jsep whose "sdp" entry is
    absent or not a string is the other; otherwise it is that string, unchanged.
   */
  function SdpOf(jsep: Option<Body>): (r: Result<string, OfferError>)
    ensures jsep.None? ==> r == Err(MissingOffer)
    ensures r.Ok? <==> jsep.Some? && "sdp" in jsep.value && jsep.value["sdp"].JString?
    ensures r.Ok? ==> r.value == jsep.value["sdp"].str
    ensures jsep.Some? && r.Err? ==> r.error == SdpNotString
  {
    match jsep
    case None => Err(MissingOffer)
    case Some(j) =>
      if "sdp" in j && j["sdp"].JString? then Ok(j["sdp"].str) else Err(SdpNotString)
  }

  /** The remote offer built from the reply to join: its type is Offer and its text is the Jsep's. */
  function ExtractOffer(jsep: Option<Body>): (r: Result<SessionDescription, OfferError>)
    ensures r.Ok? <==> SdpOf(jsep).Ok?
    ensures r.Ok? ==> r.value == SessionDescription(Offer, SdpOf(jsep).value)
    ensures r.Err? ==> r.error == SdpOf(jsep).error
  {
    match SdpOf(jsep)
    case Ok(sdp) => Ok(SessionDescription(Offer, sdp))
    case Err(e) => Err(e)
  }

  /** What the gateway puts in the Jsep of its reply to join. */
  function OfferJsep(sdp: string): Body {
    map["type" := JString("offer"), "sdp" := JString(sdp)]
  }

  /** An offer sent by the gateway comes out of extraction with its text unchanged. */
  lemma OfferRoundTrip(sdp: string)
    ensures ExtractOffer(Some(OfferJsep(sdp))) == Ok(SessionDescription(Offer, sdp))
  {
  }

  /** The answer sent with start is read back, by the same extraction, as exactly that answer. */
  lemma AnswerRoundTrip(room: nat, sdp: string)
    ensures SdpOf(Encode(StartMessage(room, sdp)).jsep) == Ok(sdp)
  {
  }

  /** Extra keys in the Jsep do not matter; only the "sdp" entry does. */
  lemma ExtractOfferIgnoresOtherKeys(j: Body, key: string, v: Json)
    requires key != "sdp"
    ensures ExtractOffer(Some(j[key := v])) == ExtractOffer(Some(j))
  {
  }

  /** The `negotiated` flag of the final status line: the answer carries the ccfb feedback attribute. */
  function Negotiated(answer: string): (r: bool)
    ensures r <==> exists i :: OccursAt(answer, CCFB_ATTRIBUTE, i)
  {
    ContainsIff(answer, CCFB_ATTRIBUTE);
    Contains(answer, CCFB_ATTRIBUTE)
  }

  /** An answer with a line `a=rtcp-fb:* ack ccfb` anywhere in it reports the feedback as negotiated. */
  lemma NegotiatedWhenAdvertised(before: string, after: string)
    ensures Negotiated(before + CCFB_ATTRIBUTE + after)
  {
    ContainsEmbedded(before, CCFB_ATTRIBUTE, after);
  }
}
