/**
  The command-line options of the subscriber and the check that runs on them before
  anything touches the network (main.go, lines 60-76).
 */
module Config {
  import opened Wrappers

  /** Go's uint64; `uint` is 64 bits wide on the platforms the program targets. */
  type uint64 = x: int | 0 <= x < 0x1_0000_0000_0000_0000

  datatype Options = Options(
    endpoint: string,          // -ws
    room: uint64,              // -room
    feed: uint64,              // -feed
    enableStun: bool,          // -enable-stun
    enableRfc8888: bool,       // -enable-rfc8888
    reportIntervalMs: uint64   // -rfc8888-interval
  )

  /** The flag defaults: no room and no feed, so they must always be given. */
  const DEFAULTS := Options("ws://localhost:8188/janus", 0, 0, false, false, 100)

  datatype ConfigError =
    | MissingRoomOrFeed      // "Missing room or feed identifier"
    | NonPositiveInterval    // "rfc8888 report interval must be a positive number"

  /**
    The configuration check: the room and feed identifiers are checked first, then the
    report interval. Both failures end the process with status 1.
   */
  function Validate(o: Options): (err: Option<ConfigError>)
    ensures err == None <==> o.room != 0 && o.feed != 0 && o.reportIntervalMs >= 1
    ensures err == Some(MissingRoomOrFeed) <==> o.room == 0 || o.feed == 0
    ensures err == Some(NonPositiveInterval) <==> o.room != 0 && o.feed != 0 && o.reportIntervalMs == 0
  {
    if o.room == 0 || o.feed == 0 then Some(MissingRoomOrFeed)
    else if o.reportIntervalMs < 1 then Some(NonPositiveInterval)
    else None
  }

  /** Running with every flag left at its default is a configuration error. */
  lemma DefaultsRejected()
    ensures Validate(DEFAULTS) == Some(MissingRoomOrFeed)
  {
  }
}
