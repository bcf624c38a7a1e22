/** Two concrete rounds of the newer revision with two expected users. */
module Scenarios {
  import opened Protocol
  import opened Registry
  import opened Transitions

  const Empty := Coord(map[], 2, WaitingForUsers, None)

  function UserA(t: Time, ready: bool): Client { Client(Some(1), ready, t, None) }
  function UserB(t: Time, ready: bool): Client { Client(Some(2), ready, t, None) }

  function Events(t: Time): seq<Event>
  {
    [RegisterMsg("A", false, Some(1), t, true), RegisterMsg("B", false, Some(2), t, true),
     ReadyMsg("A", true, t + 1), ReadyMsg("B", true, t + 2)]
  }

  lemma RegisterFirst(t: Time)
    ensures Register(Empty, "A", false, Some(1), t, true)
      == Step(Coord(map["A" := UserA(t, false)], 2, WaitingForUsers, None),
              [Reply(Some(1), FullState(0, 1, WaitingForUsers, true, None)), Broadcast(PartialState("A", false, 0, 1))])
  {
  }

  lemma RegisterSecond(t: Time)
    ensures Register(Coord(map["A" := UserA(t, false)], 2, WaitingForUsers, None), "B", false, Some(2), t, true)
      == Step(Coord(map["A" := UserA(t, false), "B" := UserB(t, false)], 2, WaitingForReady, None),
              [Reply(Some(2), FullState(0, 2, WaitingForReady, true, None)), Broadcast(PartialState("B", false, 0, 2))])
  {
  }

  lemma FirstVote(t: Time)
    ensures Ready(Coord(map["A" := UserA(t, false), "B" := UserB(t, false)], 2, WaitingForReady, None), "A", true, t + 1)
      == Step(Coord(map["A" := UserA(t, true), "B" := UserB(t, false)], 2, WaitingForReady, None),
              [Broadcast(PartialState("A", true, 1, 2))])
  {
    var before := map["A" := UserA(t, false), "B" := UserB(t, false)];
    var clients := map["A" := UserA(t, true), "B" := UserB(t, false)];
    assert before["A" := before["A"].(isReady := true)] == clients;
    assert clients.Keys == {"A", "B"};
    assert ReadyIds(clients) == {"A"};
    assert ReadyCount(clients) == 1 < |before|;
  }

  lemma SecondVote(t: Time)
    ensures Ready(Coord(map["A" := UserA(t, true), "B" := UserB(t, false)], 2, WaitingForReady, None), "B", true, t + 2)
      == Step(Coord(map["A" := UserA(t, true), "B" := UserB(t, true)], 2, Triggered, Some(t + 2 + LeadTime)),
              [BeginRound(t + 2 + LeadTime)])
  {
    var before := map["A" := UserA(t, true), "B" := UserB(t, false)];
    var clients := map["A" := UserA(t, true), "B" := UserB(t, true)];
    assert before["B" := before["B"].(isReady := true)] == clients;
    assert clients.Keys == {"A", "B"};
    assert ReadyIds(clients) == {"A", "B"};
    assert ReadyCount(clients) == 2 == |before|;
  }

  /** Both users register unready, then vote ready one after the other: the
      first vote only broadcasts the partial state, the second fires the
      barrier with a target `LeadTime` after it. */
  lemma FullRound(t: Time)
    ensures var r := Run(Empty, Events(t));
      && r.next.overall == Triggered
      && r.next.target == Some(t + 2 + LeadTime)
      && r.actions == [Reply(Some(1), FullState(0, 1, WaitingForUsers, true, None)),
                       Broadcast(PartialState("A", false, 0, 1)),
                       Reply(Some(2), FullState(0, 2, WaitingForReady, true, None)),
                       Broadcast(PartialState("B", false, 0, 2)),
                       Broadcast(PartialState("A", true, 1, 2)),
                       BeginRound(t + 2 + LeadTime)]
  {
    RegisterFirst(t);
    RegisterSecond(t);
    FirstVote(t);
    SecondVote(t);
    var events := Events(t);
    var s1 := Coord(map["A" := UserA(t, false)], 2, WaitingForUsers, None);
    var s2 := Coord(map["A" := UserA(t, false), "B" := UserB(t, false)], 2, WaitingForReady, None);
    var s3 := Coord(map["A" := UserA(t, true), "B" := UserB(t, false)], 2, WaitingForReady, None);
    var s4 := Coord(map["A" := UserA(t, true), "B" := UserB(t, true)], 2, Triggered, Some(t + 2 + LeadTime));
    assert Run(s4, events[4..]) == Step(s4, []);
    assert Run(s3, events[3..]) == Step(s4, [BeginRound(t + 2 + LeadTime)]);
    assert Run(s2, events[2..]).next == s4;
    assert Run(s1, events[1..]).next == s4;
  }

  /** A disconnect alone does not shrink the room: the phase changes only
      when the eviction timer fires and removes the session. */
  lemma ShrinkOnEviction(t: Time)
    ensures var away := Disconnect(Coord(map["A" := UserA(t, false), "B" := UserB(t, false)], 2, WaitingForReady, None), "A", t + 1).next;
      && away.overall == WaitingForReady
      && "A" in away.clients && away.clients["A"].removalAt == Some(t + 1 + GracePeriod)
      && Remove(away, "A").next.overall == WaitingForUsers
      && Remove(away, "A").next.clients.Keys == {"B"}
  {
  }

  /** Only a `ready` message checks the barrier: evicting the one unready
      session leaves a room awaiting readiness in which everyone is ready,
      and it keeps waiting for another `ready` message. */
  lemma ShrunkRoomWaitsForVote(t: Time)
    ensures var c := Coord(map["A" := UserA(t, true), "B" := UserB(t, true), "C" := Client(Some(3), false, t, None)],
                           2, WaitingForReady, None);
      var r := Remove(c, "C");
      && r.next.overall == WaitingForReady
      && r.next.clients == map["A" := UserA(t, true), "B" := UserB(t, true)]
      && ReadyCount(r.next.clients) == |r.next.clients| == 2
      && RoundStarts(r.actions) == 0
  {
    var clients := map["A" := UserA(t, true), "B" := UserB(t, true)];
    assert clients.Keys == {"A", "B"};
    assert ReadyIds(clients) == {"A", "B"};
  }
}
