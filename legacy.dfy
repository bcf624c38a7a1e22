/** The older revision of the coordinator (server/main.go). It keeps its own
    state type, registers every new session as not ready, triggers when
    `ExpectedUsers` sessions are ready (not when all registered ones are),
    never evicts a session and never resets a round. */
module Legacy {
  import opened Protocol
  import Registry

  /** Lead time of this revision. */
  const LegacyLeadTime: int := 5 * Second

  /** `ClientState` of this revision; `lastSeen` is in whole seconds. */
  datatype LegacyClient = LegacyClient(conn: Option<ConnId>, isReady: bool, lastSeen: int)

  /** `ServerState` of this revision without its mutex. */
  datatype LegacyCoord = LegacyCoord(
    clients: map<string, LegacyClient>,
    expectedUsers: int,
    currentImagePath: string,
    overall: Phase,
    target: Option<Time>)

  function ReadyIds(clients: map<string, LegacyClient>): (ids: set<string>)
    ensures ids <= clients.Keys
    ensures forall id :: id in ids <==> id in clients && clients[id].isReady
  {
    set id | id in clients && clients[id].isReady
  }

  /** The number countReadyClients computes. */
  function ReadyCount(clients: map<string, LegacyClient>): (n: nat)
    ensures n <= |clients|
  {
    Registry.SubsetCardinality(ReadyIds(clients), clients.Keys);
    |ReadyIds(clients)|
  }

  /** Invariant of this revision: a target time exists exactly while the
      round is triggered, and readiness is awaited only in a full room. */
  ghost predicate Inv(c: LegacyCoord)
  {
    && (c.target.Some? <==> c.overall == Triggered)
    && (c.overall == WaitingForReady ==> |c.clients| >= c.expectedUsers)
  }

  /** setupServerState */
  function SetupServerState(): (c: LegacyCoord)
    ensures c.clients == map[] && ReadyCount(c.clients) == 0
    ensures c.expectedUsers == 10 && c.overall == WaitingForUsers
    ensures c.target == None && c.currentImagePath == ""
    ensures Inv(c)
  {
    LegacyCoord(map[], 10, "", WaitingForUsers, None)
  }

  /** handleClientRegistration of this revision: a new id is inserted as not
      ready whatever the client claims; a known id only gets its connection
      and last-seen time refreshed. */
  function Register(c: LegacyCoord, id: string, conn: Option<ConnId>, now: Time): (d: LegacyCoord)
    ensures d.clients.Keys == c.clients.Keys + {id}
    ensures d.clients == c.clients[id := d.clients[id]]
    ensures id !in c.clients ==> d.clients[id] == LegacyClient(conn, false, 0)
    ensures id in c.clients ==>
      d.clients[id] == c.clients[id].(conn := conn, lastSeen := now / Second) && d.overall == c.overall
    ensures id !in c.clients ==>
      ((d.overall == WaitingForReady && c.overall == WaitingForUsers)
       <==> c.overall == WaitingForUsers && |c.clients| + 1 >= c.expectedUsers)
    ensures d.overall != c.overall ==> c.overall == WaitingForUsers && d.overall == WaitingForReady
    ensures ReadyCount(d.clients) == ReadyCount(c.clients)
    ensures d.target == c.target && d.expectedUsers == c.expectedUsers && d.currentImagePath == c.currentImagePath
    ensures Inv(c) ==> Inv(d)
  {
    if id !in c.clients then
      var clients := c.clients[id := LegacyClient(conn, false, 0)];
      assert ReadyIds(clients) == ReadyIds(c.clients);
      c.(clients := clients,
         overall := if |clients| >= c.expectedUsers && c.overall == WaitingForUsers then WaitingForReady else c.overall)
    else
      var clients := c.clients[id := c.clients[id].(conn := conn, lastSeen := now / Second)];
      assert ReadyIds(clients) == ReadyIds(c.clients);
      c.(clients := clients)
  }

  /** handleReadyState of this revision: a known id records its vote, and the
      round triggers once `ExpectedUsers` sessions are ready. */
  function Ready(c: LegacyCoord, id: string, isReady: bool, now: Time): (d: LegacyCoord)
    ensures id !in c.clients ==> d == c
    ensures id in c.clients ==>
      d.clients == c.clients[id := c.clients[id].(isReady := isReady, lastSeen := now / Second)]
    ensures (d.overall == Triggered && c.overall != Triggered)
      <==> id in c.clients && c.overall == WaitingForReady && ReadyCount(d.clients) >= c.expectedUsers
    ensures d.overall != c.overall ==> c.overall == WaitingForReady && d.overall == Triggered
    ensures d.overall != c.overall ==> d.target == Some(now + LegacyLeadTime)
    ensures d.overall == c.overall ==> d.target == c.target
    ensures d.expectedUsers == c.expectedUsers && d.currentImagePath == c.currentImagePath
    ensures Inv(c) ==> Inv(d)
  {
    if id !in c.clients then c
    else
      var voted := c.(clients := c.clients[id := c.clients[id].(isReady := isReady, lastSeen := now / Second)]);
      if ReadyCount(voted.clients) >= c.expectedUsers && c.overall == WaitingForReady then
        voted.(overall := Triggered, target := Some(now + LegacyLeadTime))
      else voted
  }

  /** sendFullState of this revision: `hasImage` is whether an image path is recorded. */
  function FullStateMessage(c: LegacyCoord): (m: Outbound)
    ensures m.FullState? && m.readyCount == ReadyCount(c.clients) <= m.totalCount == |c.clients|
    ensures m.overallState == c.overall && m.targetTimeUTC == c.target
    ensures m.hasImage <==> c.currentImagePath != ""
  {
    FullState(ReadyCount(c.clients), |c.clients|, c.overall, c.currentImagePath != "", c.target)
  }

  datatype LegacyStep = LegacyStep(next: LegacyCoord, actions: seq<Action>)

  /** The `register` branch of the websocket loop: registration, a
      `user_count` broadcast, then the full state to the registering connection. */
  function OnRegister(c: LegacyCoord, id: string, conn: Option<ConnId>, now: Time): (r: LegacyStep)
    ensures r.next == Register(c, id, conn, now)
    ensures r.actions == [Broadcast(UserCount(|r.next.clients|)), Reply(conn, FullStateMessage(r.next))]
    ensures |r.next.clients| >= |c.clients|
  {
    var next := Register(c, id, conn, now);
    LegacyStep(next, [Broadcast(UserCount(|next.clients|)), Reply(conn, FullStateMessage(next))])
  }

  /** The `ready` branch of the websocket loop: the partial state is broadcast
      whether or not the id is known, and a `start` follows whenever the room
      is triggered after the step, on every ready message of the round. */
  function OnReady(c: LegacyCoord, id: string, isReady: bool, now: Time): (r: LegacyStep)
    ensures r.next == Ready(c, id, isReady, now)
    ensures |r.actions| >= 1
      && r.actions[0] == Broadcast(PartialState(id, isReady, ReadyCount(r.next.clients), |r.next.clients|))
    ensures |r.actions| == 2 <==> r.next.overall == Triggered
    ensures r.next.overall == Triggered ==> r.actions[1] == Broadcast(Start(r.next.target))
    ensures |r.actions| <= 2
  {
    var next := Ready(c, id, isReady, now);
    var partial := Broadcast(PartialState(id, isReady, ReadyCount(next.clients), |next.clients|));
    if next.overall == Triggered then LegacyStep(next, [partial, Broadcast(Start(next.target))])
    else LegacyStep(next, [partial])
  }

  /** The messages that drive this revision. */
  datatype LegacyEvent =
    | RegisterMsg(id: string, conn: Option<ConnId>, now: Time)
    | ReadyMsg(id: string, isReady: bool, now: Time)

  function Apply(c: LegacyCoord, e: LegacyEvent): (r: LegacyStep)
    ensures AllowedEdge(c.overall, r.next.overall)
    ensures c.clients.Keys <= r.next.clients.Keys
    ensures c.overall == Triggered ==> r.next.overall == Triggered && r.next.target == c.target
    ensures Inv(c) ==> Inv(r.next)
  {
    match e
    case RegisterMsg(id, conn, now) => OnRegister(c, id, conn, now)
    case ReadyMsg(id, isReady, now) => OnReady(c, id, isReady, now)
  }

  function Run(c: LegacyCoord, events: seq<LegacyEvent>): LegacyStep
    decreases |events|
  {
    if events == [] then LegacyStep(c, [])
    else
      var first := Apply(c, events[0]);
      var rest := Run(first.next, events[1..]);
      LegacyStep(rest.next, first.actions + rest.actions)
  }

  /** This revision never forgets a session and never leaves a triggered
      round: it has neither eviction nor reset. */
  lemma {:induction false} RunOnlyGrows(c: LegacyCoord, events: seq<LegacyEvent>)
    ensures c.clients.Keys <= Run(c, events).next.clients.Keys
    ensures c.overall == Triggered ==> Run(c, events).next.overall == Triggered && Run(c, events).next.target == c.target
    ensures Inv(c) ==> Inv(Run(c, events).next)
    decreases |events|
  {
    if events != [] {
      RunOnlyGrows(Apply(c, events[0]).next, events[1..]);
    }
  }

  /** Number of `ready` messages among some events. */
  function ReadyMessages(events: seq<LegacyEvent>): (n: nat)
    ensures n <= |events|
  {
    if events == [] then 0
    else (if events[0].ReadyMsg? then 1 else 0) + ReadyMessages(events[1..])
  }

  /** Unlike the newer revision, this one re-broadcasts `start`: once the round
      is triggered, every `ready` message, from a known id or not, is followed
      by one `start` broadcast. */
  lemma {:induction false} StartRepeatsWhileTriggered(c: LegacyCoord, events: seq<LegacyEvent>)
    requires c.overall == Triggered
    ensures RoundStarts(Run(c, events).actions) == ReadyMessages(events)
    decreases |events|
  {
    if events != [] {
      var first := Apply(c, events[0]);
      var rest := Run(first.next, events[1..]);
      StartRepeatsWhileTriggered(first.next, events[1..]);
      RoundStartsAppend(first.actions, rest.actions);
      match events[0]
      case RegisterMsg(id, conn, now) =>
        assert RoundStarts(first.actions[1..]) == 0;
      case ReadyMsg(id, isReady, now) =>
        assert first.actions[1..][1..] == [];
    }
  }

  /** The older revision's state as the object its handlers update. */
  class LegacyServer {
    var clients: map<string, LegacyClient>
    var expectedUsers: int
    var currentImagePath: string
    var overall: Phase
    var target: Option<Time>

    function Snapshot(): LegacyCoord
      reads this
    {
      LegacyCoord(clients, expectedUsers, currentImagePath, overall, target)
    }

    /** setupServerState */
    constructor ()
      ensures Snapshot() == SetupServerState()
    {
      clients := map[];
      expectedUsers := 10;
      currentImagePath := "";
      overall := WaitingForUsers;
      target := None;
    }

    /** countReadyClients */
    method CountReadyClients() returns (count: nat)
      ensures count == ReadyCount(clients)
      ensures count <= |clients|
    {
      count := 0;
      var pending := clients.Keys;
      while pending != {}
        invariant pending <= clients.Keys
        invariant count == |ReadyIds(clients) - pending|
        decreases pending
      {
        var id :| id in pending;
        ghost var counted := ReadyIds(clients) - pending;
        if clients[id].isReady {
          assert ReadyIds(clients) - (pending - {id}) == counted + {id};
          count := count + 1;
        } else {
          assert ReadyIds(clients) - (pending - {id}) == counted;
        }
        pending := pending - {id};
      }
      assert ReadyIds(clients) - pending == ReadyIds(clients);
    }

    /** handleClientRegistration */
    method HandleClientRegistration(id: string, conn: Option<ConnId>, now: Time)
      modifies this
      ensures Snapshot() == Register(old(Snapshot()), id, conn, now)
    {
      if id !in clients {
        clients := clients[id := LegacyClient(conn, false, 0)];
        if |clients| >= expectedUsers && overall == WaitingForUsers {
          overall := WaitingForReady;
        }
      } else {
        clients := clients[id := clients[id].(conn := conn)];
        clients := clients[id := clients[id].(lastSeen := now / Second)];
      }
    }

    /** handleReadyState */
    method HandleReadyState(id: string, isReady: bool, now: Time)
      modifies this
      ensures Snapshot() == Ready(old(Snapshot()), id, isReady, now)
    {
      if id in clients {
        clients := clients[id := clients[id].(isReady := isReady, lastSeen := now / Second)];
        var readyCount := CountReadyClients();
        if readyCount >= expectedUsers && overall == WaitingForReady {
          overall := Triggered;
          target := Some(now + LegacyLeadTime);
        }
      }
    }

    /** sendFullState */
    method SendFullState() returns (m: Outbound)
      ensures m == FullStateMessage(Snapshot())
    {
      var readyCount := CountReadyClients();
      m := FullState(readyCount, |clients|, overall, currentImagePath != "", target);
    }

    /** The `register` branch of createWebSocketHandler's message loop. */
    method OnRegisterMessage(id: string, conn: Option<ConnId>, now: Time) returns (actions: seq<Action>)
      modifies this
      ensures LegacyStep(Snapshot(), actions) == OnRegister(old(Snapshot()), id, conn, now)
    {
      HandleClientRegistration(id, conn, now);
      var full := SendFullState();
      actions := [Broadcast(UserCount(|clients|)), Reply(conn, full)];
    }

    /** The `ready` branch of createWebSocketHandler's message loop. */
    method OnReadyMessage(id: string, isReady: bool, now: Time) returns (actions: seq<Action>)
      modifies this
      ensures LegacyStep(Snapshot(), actions) == OnReady(old(Snapshot()), id, isReady, now)
    {
      HandleReadyState(id, isReady, now);
      var readyCount := CountReadyClients();
      actions := [Broadcast(PartialState(id, isReady, readyCount, |clients|))];
      if overall == Triggered {
        actions := actions + [Broadcast(Start(target))];
      }
    }
  }
}
