/** The value-building half of the newer revision's senders: the `full_state`
    message and what `start` schedules. The locked snapshot loops live on
    `Server.ServerState`. */
module Senders {
  import opened Protocol
  import opened Registry

  /** The `full_state` message built from one consistent snapshot of the
      registry; `hasImage` is the answer of the file-existence check. */
  function FullStateMessage(c: Coord, hasImage: bool): (m: Outbound)
    ensures m.FullState?
    ensures m.readyCount == ReadyCount(c.clients) && m.totalCount == |c.clients|
    ensures 0 <= m.readyCount <= m.totalCount
    ensures m.overallState == c.overall && m.hasImage == hasImage && m.targetTimeUTC == c.target
    ensures Inv(c) ==> (m.targetTimeUTC.Some? <==> m.overallState == Triggered)
  {
    FullState(ReadyCount(c.clients), |c.clients|, c.overall, hasImage, c.target)
  }

  /** What `start` does with one target time: the `start` broadcast, and the
      delay after which the soft reset runs (`None` when the target time does
      not parse, so that no reset is scheduled). `parsed` is the result of
      parsing the formatted target time; `now` is the clock reading in `start`. */
  datatype RoundStart = RoundStart(broadcast: Outbound, resetAfter: Option<Time>)

  function StartRound(target: Time, parsed: Option<Time>, now: Time, serverResetDelay: Time): (r: RoundStart)
    ensures r.broadcast == Start(Some(target))
    ensures r.resetAfter.Some? <==> parsed.Some?
    // the reset instant depends only on the parsed target, not on when `start` runs
    ensures parsed.Some? ==> now + r.resetAfter.value == parsed.value + serverResetDelay
  {
    match parsed
    case None => RoundStart(Start(Some(target)), None)
    case Some(t) => RoundStart(Start(Some(target)), Some(t - now + serverResetDelay))
  }
}
