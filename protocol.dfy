/** Values shared by both revisions of the coordination server: the phase of
    the coordination state machine, the outbound messages and the actions a
    handler asks the transport layer to perform once the state lock is
    released. Timestamps are integer nanoseconds. */
module Protocol {

  datatype Option<+T> = None | Some(value: T)

  /** Absolute time or duration in nanoseconds. */
  type Time = int

  /** Opaque identity of one duplex connection (a `*websocket.Conn`). */
  type ConnId = nat

  const Second: int := 1_000_000_000

  /** Time between the barrier being satisfied and the shared reveal instant. */
  const LeadTime: int := 3 * Second

  /** Grace window between a disconnect and the eviction of the session. */
  const GracePeriod: int := 5 * Second

  /** The server-side phases; `OverallState` holds one of these names. */
  datatype Phase = WaitingForUsers | WaitingForReady | Triggered

  /** The only phase changes the protocol admits (staying put included). */
  predicate AllowedEdge(from: Phase, to: Phase)
  {
    || from == to
    || (from == WaitingForUsers && to == WaitingForReady)
    || (from == WaitingForReady && to == Triggered)
    || (from == WaitingForReady && to == WaitingForUsers)
    || (from == Triggered && to == WaitingForReady)
  }

  /** Outbound application messages; a target time of `None` is the empty string. */
  datatype Outbound =
    | FullState(readyCount: int, totalCount: int, overallState: Phase, hasImage: bool, targetTimeUTC: Option<Time>)
    | PartialState(clientId: string, isReady: bool, readyCount: int, totalCount: int)
    | Start(targetTimestampUTC: Option<Time>)
    | UserCount(totalCount: int)

  /** What a handler leaves to be done outside the lock. */
  datatype Action =
    | Reply(conn: Option<ConnId>, msg: Outbound)   // write to the one connection that registered
    | Broadcast(msg: Outbound)                     // fan-out to every live connection
    | BeginRound(target: Time)                     // call `start` with this target time

  /** One write of the fan-out: a message to one snapshotted connection. */
  datatype Delivery = Delivery(conn: ConnId, msg: Outbound)

  /** An action that sends `start`: a call of `start` in the newer revision,
      a direct `start` broadcast in the older one. */
  predicate StartsRound(a: Action)
  {
    a.BeginRound? || (a.Broadcast? && a.msg.Start?)
  }

  /** Number of actions in a list that send `start`. */
  function RoundStarts(actions: seq<Action>): (n: nat)
    ensures n <= |actions|
  {
    if actions == [] then 0
    else (if StartsRound(actions[0]) then 1 else 0) + RoundStarts(actions[1..])
  }

  lemma {:induction false} RoundStartsAppend(a: seq<Action>, b: seq<Action>)
    ensures RoundStarts(a + b) == RoundStarts(a) + RoundStarts(b)
  {
    if a == [] {
      assert a + b == b;
    } else {
      assert (a + b)[1..] == a[1..] + b;
      RoundStartsAppend(a[1..], b);
    }
  }
}
