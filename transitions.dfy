/** The newer revision's handlers as functions from one coordination state to
    the next, each with the actions it leaves for after the lock is released.
    `Server.ServerState` performs the same steps in place and is proved equal
    to these; the lemmas below are about runs of them. */
module Transitions {
  import opened Protocol
  import opened Registry
  import opened Senders

  /** The state after one locked step and the actions that follow it. */
  datatype Step = Step(next: Coord, actions: seq<Action>)

  /** A `register` message (handleClientRegistration). A known id is a
      reconnection: its record is refreshed and its pending eviction
      cancelled. An unknown id is inserted, and the room starts awaiting
      readiness once it holds `expectedUsers` sessions. */
  function Register(c: Coord, id: string, isReady: bool, conn: Option<ConnId>, now: Time, hasImage: bool): (r: Step)
    ensures r.next.clients.Keys == c.clients.Keys + {id}
    ensures r.next.clients == c.clients[id := r.next.clients[id]]
    ensures r.next.clients[id] == Client(conn, isReady, now, None)
    ensures id in c.clients ==> r.next.overall == c.overall
    ensures id !in c.clients ==>
      (r.next.overall == WaitingForReady && c.overall == WaitingForUsers <==> c.overall == WaitingForUsers && |c.clients| + 1 >= c.expectedUsers)
    ensures id !in c.clients && r.next.overall != c.overall ==> c.overall == WaitingForUsers && r.next.overall == WaitingForReady
    ensures r.next.target == c.target && r.next.expectedUsers == c.expectedUsers
    ensures r.actions == [Reply(conn, FullStateMessage(r.next, hasImage)),
                          Broadcast(PartialState(id, isReady, ReadyCount(r.next.clients), |r.next.clients|))]
    ensures AllowedEdge(c.overall, r.next.overall)
    ensures Inv(c) ==> Inv(r.next)
  {
    var next :=
      if id in c.clients then
        c.(clients := c.clients[id := c.clients[id].(conn := conn, registrationTime := now, isReady := isReady, removalAt := None)])
      else
        var clients := c.clients[id := Client(conn, isReady, now, None)];
        c.(clients := clients,
           overall := if |clients| >= c.expectedUsers && c.overall == WaitingForUsers then WaitingForReady else c.overall);
    Step(next, [Reply(conn, FullStateMessage(next, hasImage)),
                Broadcast(PartialState(id, isReady, ReadyCount(next.clients), |next.clients|))])
  }

  /** Result of checkStartLocked: the state afterwards and the target time,
      `None` standing for the empty string returned when nothing fires. */
  datatype StartCheck = StartCheck(next: Coord, target: Option<Time>)

  /** checkStartLocked: the barrier fires when every counted session is ready
      while readiness is awaited; it then records a target `LeadTime` ahead. */
  function CheckStart(c: Coord, readyCount: int, totalCount: int, now: Time): (r: StartCheck)
    ensures r.target.Some? <==> readyCount >= totalCount && c.overall == WaitingForReady
    ensures r.target.Some? ==> r.target == Some(now + LeadTime) && r.next == c.(overall := Triggered, target := r.target)
    ensures r.target.None? ==> r.next == c
  {
    if readyCount < totalCount || c.overall != WaitingForReady then StartCheck(c, None)
    else
      var target := now + LeadTime;
      StartCheck(c.(overall := Triggered, target := Some(target)), Some(target))
  }

  /** A `ready` message (handleReadyState): an unknown id changes nothing;
      a known id records its vote and then either starts the round or
      broadcasts the partial state, never both. */
  function Ready(c: Coord, id: string, isReady: bool, now: Time): (r: Step)
    ensures id !in c.clients ==> r == Step(c, [])
    ensures id in c.clients ==>
      && r.next.clients == c.clients[id := c.clients[id].(isReady := isReady)]
      && r.next.expectedUsers == c.expectedUsers
      && |r.actions| == 1
    ensures id in c.clients ==>
      if c.overall == WaitingForReady && ReadyCount(r.next.clients) >= |c.clients| then
        && r.next.overall == Triggered
        && r.next.target == Some(now + LeadTime)
        && r.actions == [BeginRound(now + LeadTime)]
      else
        && r.next.overall == c.overall
        && r.next.target == c.target
        && r.actions == [Broadcast(PartialState(id, isReady, ReadyCount(r.next.clients), |c.clients|))]
    ensures AllowedEdge(c.overall, r.next.overall)
    ensures Inv(c) ==> Inv(r.next)
  {
    if id !in c.clients then Step(c, [])
    else
      var voted := c.(clients := c.clients[id := c.clients[id].(isReady := isReady)]);
      var readyCount, totalCount := ReadyCount(voted.clients), |voted.clients|;
      var check := CheckStart(voted, readyCount, totalCount, now);
      if check.target.Some? then Step(check.next, [BeginRound(check.target.value)])
      else Step(check.next, [Broadcast(PartialState(id, isReady, readyCount, totalCount))])
  }

  /** A closed connection (handleDisconnection): a known session stops counting
      as ready and gets a fresh eviction deadline, replacing any pending one;
      it keeps its slot and the phase does not change. */
  function Disconnect(c: Coord, id: string, now: Time): (r: Step)
    ensures id !in c.clients ==> r == Step(c, [])
    ensures id in c.clients ==>
      && r.next.clients.Keys == c.clients.Keys
      && r.next.clients == c.clients[id := r.next.clients[id]]
      && r.next.clients[id] == c.clients[id].(isReady := false, removalAt := Some(now + GracePeriod))
      && r.next.overall == c.overall && r.next.target == c.target && r.next.expectedUsers == c.expectedUsers
    ensures id in c.clients ==>
      ReadyCount(r.next.clients) == ReadyCount(c.clients) - (if c.clients[id].isReady then 1 else 0)
    ensures id in c.clients ==>
      r.actions == [Broadcast(PartialState(id, false, ReadyCount(r.next.clients), |c.clients|))]
    ensures Inv(c) ==> Inv(r.next)
  {
    if id !in c.clients then Step(c, [])
    else
      var record := c.clients[id].(isReady := false, removalAt := Some(now + GracePeriod));
      var next := c.(clients := c.clients[id := record]);
      ReadyCountAfterUpdate(c.clients, id, record);
      Step(next, [Broadcast(PartialState(id, false, ReadyCount(next.clients), |next.clients|))])
  }

  /** The eviction timer firing (removeClient): the session is deleted, and
      a room awaiting readiness goes back to waiting for users when it has
      become too small. A triggered round is left alone. */
  function Remove(c: Coord, id: string): (r: Step)
    ensures id !in c.clients ==> r == Step(c, [])
    ensures id in c.clients ==>
      && r.next.clients.Keys == c.clients.Keys - {id}
      && (forall k :: k in r.next.clients ==> r.next.clients[k] == c.clients[k])
      && |r.next.clients| == |c.clients| - 1
      && r.next.target == c.target && r.next.expectedUsers == c.expectedUsers
    ensures id in c.clients ==>
      ((r.next.overall == WaitingForUsers && c.overall == WaitingForReady)
       <==> c.overall == WaitingForReady && |c.clients| - 1 < c.expectedUsers)
    ensures id in c.clients && r.next.overall != c.overall ==>
      c.overall == WaitingForReady && r.next.overall == WaitingForUsers
    ensures id in c.clients ==>
      r.actions == [Broadcast(PartialState(id, false, ReadyCount(r.next.clients), |r.next.clients|))]
    ensures AllowedEdge(c.overall, r.next.overall)
    ensures Inv(c) ==> Inv(r.next)
  {
    if id !in c.clients then Step(c, [])
    else
      var clients := c.clients - {id};
      var overall := if |clients| < c.expectedUsers && c.overall == WaitingForReady then WaitingForUsers else c.overall;
      Step(c.(clients := clients, overall := overall),
           [Broadcast(PartialState(id, false, ReadyCount(clients), |clients|))])
  }

  /** Everything that drives the state machine, in the order the lock
      serializes it. The soft reset is not among them: its body is not part
      of this model. */
  datatype Event =
    | RegisterMsg(id: string, isReady: bool, conn: Option<ConnId>, now: Time, hasImage: bool)
    | ReadyMsg(id: string, isReady: bool, now: Time)
    | Disconnected(id: string, now: Time)
    | RemovalFired(id: string)

  function Apply(c: Coord, e: Event): (r: Step)
    ensures AllowedEdge(c.overall, r.next.overall)
    ensures Inv(c) ==> Inv(r.next)
    ensures RoundStarts(r.actions) <= 1
    ensures RoundStarts(r.actions) == 1 ==> c.overall == WaitingForReady && r.next.overall == Triggered
    ensures c.overall == Triggered ==> r.next.overall == Triggered && r.next.target == c.target
    ensures (r.next.overall == Triggered && c.overall != Triggered) ==> e.ReadyMsg? && e.id in c.clients
  {
    match e
    case RegisterMsg(id, isReady, conn, now, hasImage) => Register(c, id, isReady, conn, now, hasImage)
    case ReadyMsg(id, isReady, now) => Ready(c, id, isReady, now)
    case Disconnected(id, now) => Disconnect(c, id, now)
    case RemovalFired(id) => Remove(c, id)
  }

  /** The state after a sequence of events, with all the actions they left. */
  function Run(c: Coord, events: seq<Event>): Step
    decreases |events|
  {
    if events == [] then Step(c, [])
    else
      var first := Apply(c, events[0]);
      var rest := Run(first.next, events[1..]);
      Step(rest.next, first.actions + rest.actions)
  }

  /** The coordination invariant holds after any run that starts in it. */
  lemma {:induction false} RunPreservesInv(c: Coord, events: seq<Event>)
    requires Inv(c)
    ensures Inv(Run(c, events).next)
    decreases |events|
  {
    if events != [] {
      RunPreservesInv(Apply(c, events[0]).next, events[1..]);
    }
  }

  /** Once triggered, no handler leaves the triggered phase or replaces the
      target time: only the soft reset ends a round. */
  lemma {:induction false} TriggeredIsStable(c: Coord, events: seq<Event>)
    requires c.overall == Triggered
    ensures Run(c, events).next.overall == Triggered
    ensures Run(c, events).next.target == c.target
    decreases |events|
  {
    if events != [] {
      TriggeredIsStable(Apply(c, events[0]).next, events[1..]);
    }
  }

  /** Between two soft resets `start` is called at most once, and not at all
      once the round is triggered: the trigger cannot be re-entered. */
  lemma {:induction false} AtMostOneRoundStart(c: Coord, events: seq<Event>)
    ensures RoundStarts(Run(c, events).actions) <= (if c.overall == Triggered then 0 else 1)
    decreases |events|
  {
    if events != [] {
      var first := Apply(c, events[0]);
      var rest := Run(first.next, events[1..]);
      AtMostOneRoundStart(first.next, events[1..]);
      RoundStartsAppend(first.actions, rest.actions);
    }
  }

  /** The barrier fires on a `ready` message exactly when the room awaits
      readiness and, with this vote counted, every registered session is
      ready; the triggering room is then non-empty and wholly ready. */
  lemma TriggerIffAllReady(c: Coord, id: string, isReady: bool, now: Time)
    requires id in c.clients
    ensures var r := Ready(c, id, isReady, now);
      (r.next.overall == Triggered && c.overall != Triggered)
      <==> c.overall == WaitingForReady && forall k :: k in r.next.clients ==> r.next.clients[k].isReady
    ensures var r := Ready(c, id, isReady, now);
      (r.next.overall == Triggered && c.overall != Triggered)
      ==> ReadyCount(r.next.clients) == |r.next.clients| >= 1
  {
    BarrierMeansAllReady(Ready(c, id, isReady, now).next.clients);
  }

  /** A second identical vote records nothing new: the state stays as the
      first vote left it and only the partial state is broadcast again. */
  lemma ReadyTwice(c: Coord, id: string, isReady: bool, now1: Time, now2: Time)
    requires id in c.clients
    ensures var first := Ready(c, id, isReady, now1);
      var second := Ready(first.next, id, isReady, now2);
      && second.next == first.next
      && second.actions == [Broadcast(PartialState(id, isReady, ReadyCount(first.next.clients), |c.clients|))]
  {
  }

  /** Reconnecting within the grace window keeps the session's slot and
      cancels its eviction. */
  lemma ReconnectCancelsEviction(c: Coord, id: string, t1: Time, isReady: bool, conn: Option<ConnId>, t2: Time, hasImage: bool)
    requires id in c.clients
    ensures var away := Disconnect(c, id, t1).next;
      var back := Register(away, id, isReady, conn, t2, hasImage).next;
      && away.clients[id].removalAt == Some(t1 + GracePeriod)
      && back.clients.Keys == c.clients.Keys
      && back.clients[id].removalAt == None
      && back.overall == c.overall
  {
  }

  /** A session whose timer fires is gone, and reconnecting afterwards opens
      a fresh session for the same id. */
  lemma EvictionThenFreshSession(c: Coord, id: string, t1: Time, isReady: bool, conn: Option<ConnId>, t2: Time, hasImage: bool)
    requires id in c.clients
    ensures var gone := Remove(Disconnect(c, id, t1).next, id).next;
      && gone.clients.Keys == c.clients.Keys - {id}
      && Register(gone, id, isReady, conn, t2, hasImage).next.clients[id] == Client(conn, isReady, t2, None)
  {
  }
}
