/**
  The track handler (main.go, lines 198-224): for every inbound track it derives the codec
  name, creates and starts a media sink, and relays what it reads from the track into the
  sink until the first read error, then stops the sink and marks the worker done.

  The track, the sink and the wait group are objects. The track is given by the finite
  sequence of outcomes its reads produce; reading past the end fails, as a track does once
  its connection is closed. The goroutine that runs the read loop is run to completion
  inside the handler.
 */
module Relay {
  import opened Text

  newtype byte = x: int | 0 <= x < 256

  /** The size of the reused read buffer. */
  const BUFFER_SIZE := 1400

  /** What one read of the track yields: an RTP packet, or an error. */
  datatype ReadResult = Packet(bytes: seq<byte>) | ReadFailed

  /**
    A read into a buffer of `size` bytes succeeds when it yields a packet that fits;
    a longer packet is reported as an error (a short buffer) by the reader.
   */
  predicate Fits(r: ReadResult, size: nat) {
    r.Packet? && |r.bytes| <= size
  }

  /** The chunks a sink receives from a track with these read outcomes. */
  function Delivered(outcomes: seq<ReadResult>): seq<seq<byte>>
  {
    if outcomes == [] || !Fits(outcomes[0], BUFFER_SIZE) then []
    else [outcomes[0].bytes] + Delivered(outcomes[1..])
  }

  /** The number of successful reads before the first failing one. */
  function FirstFailure(outcomes: seq<ReadResult>): (n: nat)
    ensures n <= |outcomes|
    ensures forall k :: 0 <= k < n ==> Fits(outcomes[k], BUFFER_SIZE)
    ensures n < |outcomes| ==> !Fits(outcomes[n], BUFFER_SIZE)
  {
    if outcomes == [] || !Fits(outcomes[0], BUFFER_SIZE) then 0
    else 1 + FirstFailure(outcomes[1..])
  }

  /**
    The sink receives exactly the successful reads, in arrival order, up to the first
    failing read; each chunk fits the buffer.
   */
  lemma {:induction false} DeliveredAreSuccessfulReads(outcomes: seq<ReadResult>)
    ensures |Delivered(outcomes)| == FirstFailure(outcomes)
    ensures forall k :: 0 <= k < |Delivered(outcomes)| ==> Delivered(outcomes)[k] == outcomes[k].bytes
    ensures forall k :: 0 <= k < |Delivered(outcomes)| ==> |Delivered(outcomes)[k]| <= BUFFER_SIZE
  {
    if outcomes != [] && Fits(outcomes[0], BUFFER_SIZE) {
      DeliveredAreSuccessfulReads(outcomes[1..]);
    }
  }

  /** Nothing read at or after a failing read reaches the sink. */
  lemma {:induction false} DeliveredStopsAtFailure(good: seq<ReadResult>, bad: ReadResult, later: seq<ReadResult>)
    requires forall k :: 0 <= k < |good| ==> Fits(good[k], BUFFER_SIZE)
    requires !Fits(bad, BUFFER_SIZE)
    ensures Delivered(good + [bad] + later) == Delivered(good)
    decreases |good|
  {
    if good == [] {
      assert (good + [bad] + later)[0] == bad;
    } else {
      assert (good + [bad] + later)[1..] == good[1..] + [bad] + later;
      DeliveredStopsAtFailure(good[1..], bad, later);
    }
  }

  /** The part of the read outcomes that a relay consumes: up to and including the first failure. */
  function Consumed(outcomes: seq<ReadResult>): (n: nat)
    ensures n <= |outcomes|
  {
    var f := FirstFailure(outcomes);
    if f < |outcomes| then f + 1 else f
  }

  /** The codec name given to the sink: the lowercased piece of the MIME type after its first '/'. */
  function CodecName(mimeType: string): (name: string)
    requires '/' in mimeType
    ensures '/' !in name
    ensures forall k :: 0 <= k < |name| ==> !IsUpper(name[k])
  {
    ToLower(Split(mimeType, '/')[1])
  }

  /** For a MIME type "kind/codec" (possibly with more '/'-separated parts) the name is the lowercased codec. */
  lemma CodecNameOfMime(kind: string, codec: string, rest: string)
    requires '/' !in kind && '/' !in codec
    requires rest == [] || rest[0] == '/'
    ensures CodecName(kind + "/" + codec + rest) == ToLower(codec)
  {
    SplitSecond(kind, codec, rest, '/');
  }

  lemma CodecNameOfVp8()
    ensures CodecName("video/VP8") == "vp8"
  {
    CodecNameOfMime("video", "VP8", "");
    assert "video" + "/" + "VP8" + "" == "video/VP8";
  }

  /** A remote track: its payload type, its MIME type and the outcomes of its reads. */
  class TrackRemote {
    const payloadType: nat
    const mimeType: string
    const outcomes: seq<ReadResult>
    var next: nat

    ghost predicate Valid()
      reads this
    {
      next <= |outcomes|
    }

    constructor (payloadType: nat, mimeType: string, outcomes: seq<ReadResult>)
      ensures Valid()
      ensures this.payloadType == payloadType && this.mimeType == mimeType
      ensures this.outcomes == outcomes && next == 0
    {
      this.payloadType := payloadType;
      this.mimeType := mimeType;
      this.outcomes := outcomes;
      next := 0;
    }

    /** The remaining reads. */
    ghost function Remaining(): seq<ReadResult>
      reads this
      requires Valid()
    {
      outcomes[next..]
    }

    /**
      Read one packet into `buf`: on success the packet is at the front of the buffer and
      its length is returned; a failed read, a packet too long for the buffer and a read
      past the end all report an error.
     */
    method Read(buf: array<byte>) returns (n: nat, failed: bool)
      requires Valid()
      modifies this, buf
      ensures Valid()
      ensures old(next) < |outcomes| ==> next == old(next) + 1
      ensures old(next) == |outcomes| ==> next == old(next)
      ensures failed <==> old(next) == |outcomes| || !Fits(outcomes[old(next)], buf.Length)
      ensures !failed ==> n <= buf.Length && buf[..n] == outcomes[old(next)].bytes
    {
      if next == |outcomes| {
        n, failed := 0, true;
        return;
      }
      var r := outcomes[next];
      next := next + 1;
      if r.ReadFailed? || |r.bytes| > buf.Length {
        n, failed := 0, true;
        return;
      }
      forall k | 0 <= k < |r.bytes| {
        buf[k] := r.bytes[k];
      }
      n, failed := |r.bytes|, false;
    }
  }

  /**
    A media sink bound to a payload type and a codec name. It records whether it was
    started, the chunks pushed into it and how often it was stopped. Four ghost fields
    record the order of events: `strayPushes` counts the chunks pushed while it was not
    running (before Start or after Stop), `readsAtStart` and `readsAtStop` are how far its
    track had been read when it was started and when it was stopped, and `donesAtStop` is
    how many workers its wait group had seen finish when it was stopped.
   */
  class Sink {
    const payloadType: nat
    const codecName: string
    var started: bool
    var pushed: seq<seq<byte>>
    var stopCount: nat
    ghost var strayPushes: nat
    ghost var readsAtStart: nat
    ghost var readsAtStop: nat
    ghost var donesAtStop: nat

    constructor (payloadType: nat, codecName: string)
      ensures this.payloadType == payloadType && this.codecName == codecName
      ensures !started && pushed == [] && stopCount == 0
      ensures strayPushes == 0 && readsAtStart == 0 && readsAtStop == 0 && donesAtStop == 0
    {
      this.payloadType := payloadType;
      this.codecName := codecName;
      started, pushed, stopCount := false, [], 0;
      strayPushes, readsAtStart, readsAtStop, donesAtStop := 0, 0, 0, 0;
    }

    /** Start the sink that `track` feeds. */
    method Start(ghost track: TrackRemote)
      modifies this
      ensures started && pushed == old(pushed) && stopCount == old(stopCount)
      ensures strayPushes == old(strayPushes) && readsAtStop == old(readsAtStop)
      ensures donesAtStop == old(donesAtStop) && readsAtStart == track.next
    {
      started := true;
      readsAtStart := track.next;
    }

    /** Push a copy of `chunk`; the buffer it came from may be reused afterwards. */
    method Push(chunk: seq<byte>)
      modifies this
      ensures started == old(started) && stopCount == old(stopCount)
      ensures pushed == old(pushed) + [chunk]
      ensures strayPushes == old(strayPushes) + (if started && stopCount == 0 then 0 else 1)
      ensures readsAtStart == old(readsAtStart) && readsAtStop == old(readsAtStop)
      ensures donesAtStop == old(donesAtStop)
    {
      pushed := pushed + [chunk];
      if !started || stopCount > 0 {
        strayPushes := strayPushes + 1;
      }
    }

    /** Stop the sink that `track` feeds, in a worker counted by `wg`. */
    method Stop(ghost track: TrackRemote, ghost wg: WaitGroup)
      modifies this
      ensures started == old(started) && pushed == old(pushed)
      ensures stopCount == old(stopCount) + 1
      ensures strayPushes == old(strayPushes) && readsAtStart == old(readsAtStart)
      ensures readsAtStop == track.next && donesAtStop == wg.dones
    {
      stopCount := stopCount + 1;
      readsAtStop, donesAtStop := track.next, wg.dones;
    }
  }

  /**
    sync.WaitGroup: a counter of running relay workers; Done on a zero counter panics.
    The ghost fields count the calls of Add and of Done, and record how far the worker's
    track had been read when the worker was added.
   */
  class WaitGroup {
    var count: nat
    ghost var adds: nat
    ghost var dones: nat
    ghost var readsAtAdd: nat

    constructor ()
      ensures count == 0 && adds == 0 && dones == 0 && readsAtAdd == 0
    {
      count := 0;
      adds, dones, readsAtAdd := 0, 0, 0;
    }

    /** Add `delta` workers; the one added here relays `track`. */
    method Add(delta: nat, ghost track: TrackRemote)
      modifies this
      ensures count == old(count) + delta
      ensures adds == old(adds) + 1 && dones == old(dones)
      ensures readsAtAdd == track.next
    {
      count := count + delta;
      adds := adds + 1;
      readsAtAdd := track.next;
    }

    method Done()
      requires count > 0
      modifies this
      ensures count == old(count) - 1
      ensures adds == old(adds) && dones == old(dones) + 1
      ensures readsAtAdd == old(readsAtAdd)
    {
      count := count - 1;
      dones := dones + 1;
    }
  }

  /**
    The relay worker's loop (main.go, lines 213-221): read into one reused buffer and push
    each packet read, until the first failing read. The sink receives exactly the
    successful reads before that failure, and the track is read up to and including it.
   */
  method RelayPackets(track: TrackRemote, sink: Sink)
    requires track.Valid()
    requires sink.started && sink.stopCount == 0
    modifies track, sink
    ensures track.Valid() && track.next == old(track.next) + Consumed(old(track.Remaining()))
    ensures sink.pushed == old(sink.pushed) + Delivered(old(track.Remaining()))
    ensures sink.started && sink.stopCount == 0
    ensures sink.strayPushes == old(sink.strayPushes)
    ensures sink.readsAtStart == old(sink.readsAtStart) && sink.readsAtStop == old(sink.readsAtStop)
    ensures sink.donesAtStop == old(sink.donesAtStop)
  {
    ghost var rest := track.Remaining();
    ghost var first := track.next;
    var buf := new byte[BUFFER_SIZE];
    while true
      invariant track.Valid() && first <= track.next
      invariant rest == track.outcomes[first..]
      invariant track.next - first <= FirstFailure(rest)
      invariant old(sink.pushed) + Delivered(rest) == sink.pushed + Delivered(track.Remaining())
      invariant sink.started && sink.stopCount == 0
      invariant sink.strayPushes == old(sink.strayPushes)
      invariant sink.readsAtStart == old(sink.readsAtStart) && sink.readsAtStop == old(sink.readsAtStop)
      invariant sink.donesAtStop == old(sink.donesAtStop)
      invariant buf.Length == BUFFER_SIZE
      decreases |track.outcomes| - track.next
    {
      ghost var at := track.next;
      ghost var remaining := track.Remaining();
      var n, failed := track.Read(buf);
      if failed {
        assert at - first == FirstFailure(rest);
        assert Delivered(remaining) == [];
        break;
      }
      ghost var before := sink.pushed;
      assert remaining[1..] == track.Remaining();
      assert Delivered(remaining) == [buf[..n]] + Delivered(track.Remaining());
      sink.Push(buf[..n]);
      assert before + Delivered(remaining) == sink.pushed + Delivered(track.Remaining());
    }
  }

  /**
    The OnTrack handler with its relay worker. The sink is bound to the track's payload type
    and codec name and started before the first read. It is fed every successful read in
    order and stopped exactly once, after the loop's last read. The worker is added to the wait group
    once, before its first read, and marked done once, after the sink was stopped. No read is made after the first
    failing one.
   */
  method OnTrack(track: TrackRemote, wg: WaitGroup) returns (sink: Sink)
    requires track.Valid()
    requires '/' in track.mimeType
    modifies track, wg
    ensures fresh(sink)
    ensures sink.payloadType == track.payloadType && sink.codecName == CodecName(track.mimeType)
    ensures sink.started && sink.readsAtStart == old(track.next)
    ensures sink.pushed == Delivered(old(track.Remaining()))
    ensures sink.strayPushes == 0
    ensures sink.stopCount == 1 && sink.donesAtStop == old(wg.dones)
    ensures track.Valid() && track.next == old(track.next) + Consumed(old(track.Remaining()))
    ensures sink.readsAtStop == track.next
    ensures wg.count == old(wg.count)
    ensures wg.adds == old(wg.adds) + 1 && wg.dones == old(wg.dones) + 1
    ensures wg.readsAtAdd == old(track.next)
  {
    var codecName := CodecName(track.mimeType);
    sink := new Sink(track.payloadType, codecName);
    sink.Start(track);
    wg.Add(1, track);
    RelayPackets(track, sink);
    sink.Stop(track, wg);
    wg.Done();
  }
}
