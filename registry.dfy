/** The session registry of the newer revision as a value: the map from client
    id to session record together with the coordination fields, and the
    counts derived from it (readiness aggregation). */
module Registry {
  import opened Protocol

  /** One session (`ClientState`). `removalAt` is the deadline of the pending
      eviction timer, `None` when no timer is pending. */
  datatype Client = Client(conn: Option<ConnId>, isReady: bool, registrationTime: Time, removalAt: Option<Time>)

  /** The coordination state (`serverState`) without its lock. */
  datatype Coord = Coord(clients: map<string, Client>, expectedUsers: int, overall: Phase, target: Option<Time>)

  /** Ids of the sessions whose readiness vote is set. */
  function ReadyIds(clients: map<string, Client>): (ids: set<string>)
    ensures ids <= clients.Keys
    ensures forall id :: id in ids <==> id in clients && clients[id].isReady
  {
    set id | id in clients && clients[id].isReady
  }

  /** Ids of the sessions that hold a connection handle. */
  function LiveIds(clients: map<string, Client>): (ids: set<string>)
    ensures ids <= clients.Keys
    ensures forall id :: id in ids <==> id in clients && clients[id].conn.Some?
  {
    set id | id in clients && clients[id].conn.Some?
  }

  /** The ready count `countReadyClientsLocked` computes. */
  function ReadyCount(clients: map<string, Client>): (n: nat)
    ensures n <= |clients|
  {
    SubsetCardinality(ReadyIds(clients), clients.Keys);
    |ReadyIds(clients)|
  }

  lemma {:induction false} SubsetCardinality<T>(a: set<T>, b: set<T>)
    requires a <= b
    ensures |a| <= |b|
  {
    if a != {} {
      var x :| x in a;
      SubsetCardinality(a - {x}, b - {x});
    }
  }

  /** A sequence without repetitions is no longer than any set holding its elements. */
  lemma {:induction false} DistinctLength<T>(s: seq<T>, b: set<T>)
    requires forall i, j :: 0 <= i < j < |s| ==> s[i] != s[j]
    requires forall i :: 0 <= i < |s| ==> s[i] in b
    ensures |s| <= |b|
  {
    if s != [] {
      var last, init := s[|s| - 1], s[..|s| - 1];
      forall i | 0 <= i < |init| ensures init[i] in b - {last} {
        assert init[i] == s[i] != s[|s| - 1];
      }
      DistinctLength(init, b - {last});
    }
  }

  /** Replacing one existing session record moves the ready count by at most
      one, in the direction of the new record's vote. */
  lemma ReadyCountAfterUpdate(clients: map<string, Client>, id: string, cl: Client)
    requires id in clients
    ensures ReadyCount(clients[id := cl]) == ReadyCount(clients)
      + (if cl.isReady && !clients[id].isReady then 1 else 0)
      - (if !cl.isReady && clients[id].isReady then 1 else 0)
  {
    var after := clients[id := cl];
    var rest := ReadyIds(clients) - {id};
    assert ReadyIds(after) - {id} == rest;
    assert ReadyIds(after) == if cl.isReady then rest + {id} else rest;
    assert ReadyIds(clients) == if clients[id].isReady then rest + {id} else rest;
  }

  /** The barrier condition `readyCount >= totalCount` holds exactly when every
      registered session has voted ready. */
  lemma {:induction false} BarrierMeansAllReady(clients: map<string, Client>)
    ensures ReadyCount(clients) >= |clients| <==> forall id :: id in clients ==> clients[id].isReady
  {
    var ready, keys := ReadyIds(clients), clients.Keys;
    if forall id :: id in clients ==> clients[id].isReady {
      assert ready == keys;
    } else {
      var lagging :| lagging in clients && !clients[lagging].isReady;
      SubsetCardinality(ready, keys - {lagging});
      assert |keys - {lagging}| == |keys| - 1;
    }
  }

  /** Coordination invariant kept by every handler: a target time is stored
      exactly while the round is triggered, and readiness is awaited only when
      enough sessions are registered. */
  ghost predicate Inv(c: Coord)
  {
    && (c.target.Some? <==> c.overall == Triggered)
    && (c.overall == WaitingForReady ==> |c.clients| >= c.expectedUsers)
  }
}
