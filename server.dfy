/** The newer revision's coordination state as the object its handlers update
    in place (`serverState` with its `Clients` map, `ExpectedUsers`,
    `OverallState` and `TargetShowTime`). Each method is one locked section:
    the lock is the sequential step itself, and the actions returned are the
    network writes done after unlocking. Every handler is proved to take the
    state to what `Transitions` says. */
module Server {
  import opened Protocol
  import opened Registry
  import opened Senders
  import opened Transitions

  class ServerState {
    var clients: map<string, Client>
    var expectedUsers: int
    var overall: Phase
    var target: Option<Time>

    /** The coordination state as a value. */
    function Snapshot(): Coord
      reads this
    {
      Coord(clients, expectedUsers, overall, target)
    }

    constructor (expectedUsers: int)
      ensures Snapshot() == Coord(map[], expectedUsers, WaitingForUsers, None)
      ensures Inv(Snapshot())
    {
      this.clients := map[];
      this.expectedUsers := expectedUsers;
      this.overall := WaitingForUsers;
      this.target := None;
    }

    /** countReadyClientsLocked: one pass over the sessions counting votes. */
    method CountReadyClientsLocked() returns (count: nat)
      ensures count == ReadyCount(clients)
      ensures count <= |clients|
    {
      count := 0;
      var pending := clients.Keys;
      while pending != {}
        invariant pending <= clients.Keys
        invariant count == |ReadyIds(clients) - pending|
        decreases pending
      {
        var id :| id in pending;
        ghost var counted := ReadyIds(clients) - pending;
        if clients[id].isReady {
          assert ReadyIds(clients) - (pending - {id}) == counted + {id};
          count := count + 1;
        } else {
          assert ReadyIds(clients) - (pending - {id}) == counted;
        }
        pending := pending - {id};
      }
      assert ReadyIds(clients) - pending == ReadyIds(clients);
    }

    /** readyDataLocked: the ready count and the number of registered sessions. */
    method ReadyDataLocked() returns (readyCount: nat, totalCount: nat)
      ensures readyCount == ReadyCount(clients) && totalCount == |clients|
      ensures readyCount <= totalCount
    {
      readyCount := CountReadyClientsLocked();
      totalCount := |clients|;
    }

    /** broadcastToClients: snapshot the live connections, then one write of
        `msg` per snapshotted connection. `owners` names, for each delivery,
        the session whose connection it goes to. */
    method BroadcastToClients(msg: Outbound) returns (deliveries: seq<Delivery>, ghost owners: seq<string>)
      ensures |deliveries| == |owners| <= |clients|
      ensures forall i :: 0 <= i < |deliveries| ==> deliveries[i].msg == msg
      ensures forall i :: 0 <= i < |owners| ==>
        owners[i] in clients && clients[owners[i]].conn == Some(deliveries[i].conn)
      ensures forall i, j :: 0 <= i < j < |owners| ==> owners[i] != owners[j]
      ensures forall id :: id in LiveIds(clients) ==> id in owners
    {
      var conns: seq<ConnId> := [];
      owners := [];
      var pending := clients.Keys;
      while pending != {}
        invariant pending <= clients.Keys
        invariant |conns| == |owners|
        invariant forall i :: 0 <= i < |owners| ==>
          owners[i] in clients && owners[i] !in pending && clients[owners[i]].conn == Some(conns[i])
        invariant forall i, j :: 0 <= i < j < |owners| ==> owners[i] != owners[j]
        invariant forall id :: id in LiveIds(clients) && id !in pending ==> id in owners
        decreases pending
      {
        var id :| id in pending;
        match clients[id].conn {
          case Some(conn) =>
            conns := conns + [conn];
            owners := owners + [id];
          case None =>
        }
        pending := pending - {id};
      }
      DistinctLength(owners, clients.Keys);
      deliveries := [];
      var i := 0;
      while i < |conns|
        invariant 0 <= i <= |conns|
        invariant |deliveries| == i
        invariant forall k :: 0 <= k < i ==> deliveries[k] == Delivery(conns[k], msg)
      {
        deliveries := deliveries + [Delivery(conns[i], msg)];
        i := i + 1;
      }
    }

    /** broadcastPartialState: fan-out of a `partial_state` message carrying
        its four arguments. */
    method BroadcastPartialState(id: string, isReady: bool, readyCount: int, totalCount: int)
      returns (deliveries: seq<Delivery>, ghost owners: seq<string>)
      ensures |deliveries| == |owners| <= |clients|
      ensures forall i :: 0 <= i < |deliveries| ==>
        deliveries[i].msg == PartialState(id, isReady, readyCount, totalCount)
      ensures forall i :: 0 <= i < |owners| ==>
        owners[i] in clients && clients[owners[i]].conn == Some(deliveries[i].conn)
      ensures forall i, j :: 0 <= i < j < |owners| ==> owners[i] != owners[j]
      ensures forall id' :: id' in LiveIds(clients) ==> id' in owners
    {
      deliveries, owners := BroadcastToClients(PartialState(id, isReady, readyCount, totalCount));
    }

    /** generateFullStateMessage: the `full_state` message for the current state. */
    method GenerateFullStateMessage(hasImage: bool) returns (m: Outbound)
      ensures m == FullStateMessage(Snapshot(), hasImage)
    {
      var readyCount := CountReadyClientsLocked();
      m := FullState(readyCount, |clients|, overall, hasImage, target);
    }

    /** start: broadcast the target time and compute the reset delay. */
    method Start(targetTime: Time, parsed: Option<Time>, now: Time, serverResetDelay: Time)
      returns (deliveries: seq<Delivery>, ghost owners: seq<string>, resetAfter: Option<Time>)
      ensures |deliveries| == |owners| <= |clients|
      ensures forall i :: 0 <= i < |deliveries| ==> deliveries[i].msg == Outbound.Start(Some(targetTime))
      ensures forall i :: 0 <= i < |owners| ==>
        owners[i] in clients && clients[owners[i]].conn == Some(deliveries[i].conn)
      ensures forall i, j :: 0 <= i < j < |owners| ==> owners[i] != owners[j]
      ensures forall id :: id in LiveIds(clients) ==> id in owners
      ensures resetAfter == StartRound(targetTime, parsed, now, serverResetDelay).resetAfter
    {
      deliveries, owners := BroadcastToClients(Outbound.Start(Some(targetTime)));
      match parsed
      case None =>
        resetAfter := None;
      case Some(t) =>
        resetAfter := Some(t - now + serverResetDelay);
    }

    /** handleClientRegistration */
    method HandleClientRegistration(id: string, isReady: bool, conn: Option<ConnId>, now: Time, hasImage: bool)
      returns (actions: seq<Action>)
      modifies this
      ensures Step(Snapshot(), actions) == Register(old(Snapshot()), id, isReady, conn, now, hasImage)
    {
      if id in clients {
        var record := clients[id].(conn := conn, registrationTime := now, isReady := isReady);
        if record.removalAt.Some? {
          record := record.(removalAt := None);
        }
        clients := clients[id := record];
      } else {
        clients := clients[id := Client(conn, isReady, now, None)];
        if |clients| >= expectedUsers && overall == WaitingForUsers {
          overall := WaitingForReady;
        }
      }
      var readyCount, totalCount := ReadyDataLocked();
      var full := GenerateFullStateMessage(hasImage);
      actions := [Reply(conn, full), Broadcast(PartialState(id, isReady, readyCount, totalCount))];
    }

    /** checkStartLocked */
    method CheckStartLocked(readyCount: int, totalCount: int, now: Time) returns (started: Option<Time>)
      modifies this
      ensures StartCheck(Snapshot(), started) == CheckStart(old(Snapshot()), readyCount, totalCount, now)
    {
      if readyCount < totalCount || overall != WaitingForReady {
        return None;
      }
      overall := Triggered;
      target := Some(now + LeadTime);
      started := target;
    }

    /** handleReadyState */
    method HandleReadyState(id: string, isReady: bool, now: Time) returns (actions: seq<Action>)
      modifies this
      ensures Step(Snapshot(), actions) == Ready(old(Snapshot()), id, isReady, now)
    {
      if id !in clients {
        return [];
      }
      clients := clients[id := clients[id].(isReady := isReady)];
      var readyCount, totalCount := ReadyDataLocked();
      var started := CheckStartLocked(readyCount, totalCount, now);
      if started.Some? {
        actions := [BeginRound(started.value)];
      } else {
        actions := [Broadcast(PartialState(id, isReady, readyCount, totalCount))];
      }
    }

    /** handleDisconnection */
    method HandleDisconnection(id: string, now: Time) returns (actions: seq<Action>)
      modifies this
      ensures Step(Snapshot(), actions) == Disconnect(old(Snapshot()), id, now)
    {
      if id !in clients {
        return [];
      }
      // the vote is withdrawn and the eviction timer (re)armed in one locked section
      clients := clients[id := clients[id].(isReady := false, removalAt := Some(now + GracePeriod))];
      var readyCount, totalCount := ReadyDataLocked();
      actions := [Broadcast(PartialState(id, false, readyCount, totalCount))];
    }

    /** removeClient, run when the eviction timer fires */
    method RemoveClient(id: string) returns (actions: seq<Action>)
      modifies this
      ensures Step(Snapshot(), actions) == Remove(old(Snapshot()), id)
    {
      if id !in clients {
        return [];
      }
      clients := clients - {id};
      var readyCount, totalCount := ReadyDataLocked();
      if totalCount < expectedUsers && overall == WaitingForReady {
        overall := WaitingForUsers;
      }
      actions := [Broadcast(PartialState(id, false, readyCount, totalCount))];
    }
  }
}
