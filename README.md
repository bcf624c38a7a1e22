# Coordination server: session registry and barrier state machine

This project models the core of a small Go server that makes a fixed-size
group of websocket clients reveal shared content at the same instant. Each
client registers under a stable id and votes ready; the server keeps a
registry of sessions (id → connection, readiness vote, pending eviction
timer), a phase `WaitingForUsers | WaitingForReady | Triggered` and a target
show time. When a `ready` message leaves every registered session ready
while the room awaits readiness, the server triggers the round with a
target time three seconds ahead and broadcasts `start`. Only a `ready`
message checks this barrier: a registration or an eviction that leaves an
all-ready room awaiting readiness does not trigger it, and the room waits
for another `ready` message. A closed connection withdraws the vote and
arms a five-second eviction timer; a reconnection within that window
cancels it, and an eviction that shrinks the room below `ExpectedUsers`
sends it from `WaitingForReady` back to `WaitingForUsers` (a triggered
round stays triggered at any size).

Files:

- `protocol.dfy` (`Protocol`): phases and their allowed edges, outbound
  messages (`full_state`, `partial_state`, `start`, `user_count`), the
  actions a handler leaves for after the lock is released, constants.
- `registry.dfy` (`Registry`): the registry as a value (`Client`, `Coord`),
  ready and live-connection sets, the ready count and its lemmas, and the
  coordination invariant `Inv`.
- `senders.dfy` (`Senders`): the `full_state` message and the delay `start`
  schedules the reset with.
- `transitions.dfy` (`Transitions`): each handler of
  `server/websocket_handlers.go` as a function from state to next state
  plus actions, and lemmas over arbitrary runs of them.
- `server.dfy` (`Server`): the class `ServerState` whose methods update the
  map and the phase in place (one method per locked section), with the
  counting and snapshot loops of `server/websocket_senders.go`; each handler
  is proved to produce exactly the state and actions of `Transitions`.
- `legacy.dfy` (`Legacy`): the older revision in `server/main.go`, kept
  apart because it redefines the state type and the handlers with different
  rules: new sessions always start unready, the trigger compares the ready
  count with `ExpectedUsers`, the lead time is five seconds, nothing is ever
  evicted or reset, and `start` is re-broadcast after every `ready` message
  of a triggered round.
- `scenarios.dfy` (`Scenarios`): a full two-user round and an eviction that
  shrinks the room, computed step by step.

Times are integer nanoseconds; an empty target time string is `None`. The
locks become the sequential steps themselves: each method of `ServerState`
is one locked section, and the `Action`s it returns are the writes the Go
code performs after unlocking. A pending removal timer is the deadline
`removalAt`; its firing is an explicit `RemoveClient` call.

`handleDisconnection` (server/websocket_handlers.go:65-96) does not
re-evaluate the shrink rule; the room shrinks only when `removeClient`
deletes the session after the eviction timer fires
(`Scenarios.ShrinkOnEviction`). The reset `softStateReset` that `start`
schedules (server/websocket_senders.go:97-100) is defined outside the
modelled files, so in the model a triggered round stays triggered
(`Transitions.TriggeredIsStable`).

## Model

| member | source | states |
|---|---|---|
| `Registry.ReadyCount` | server/websocket_senders.go:12-20 | the ready count never exceeds the number of registered sessions |
| `Registry.ReadyCountAfterUpdate` | server/websocket_handlers.go:82-83 | replacing one session record moves the ready count by one at most, in the direction of the new vote |
| `Registry.BarrierMeansAllReady` | server/websocket_handlers.go:138 | `readyCount >= totalCount` holds exactly when every registered session is ready (both directions) |
| `Senders.FullStateMessage` | server/websocket_senders.go:53-74 | `full_state` carries the snapshot's ready count, total, phase and target, with ready count ≤ total, and a target exactly when triggered under the invariant |
| `Senders.StartRound` | server/websocket_senders.go:76-102 | `start` broadcasts the target; a reset is scheduled iff the target parses, at a delay putting it at parsed target + reset delay whatever the current time |
| `Transitions.Register` | server/websocket_handlers.go:98-134 | the id's key is present afterwards and no other entry changes; its record holds the message's vote and connection and no pending eviction; a new id moves `WaitingForUsers` to `WaitingForReady` iff the room then has at least `ExpectedUsers` sessions; a known id never changes the phase; full state to the caller, then partial state broadcast; invariant kept |
| `Transitions.CheckStart` | server/websocket_handlers.go:137-147 | fires iff `readyCount >= totalCount` in `WaitingForReady`; firing sets `Triggered` and a target `now + 3s` and returns it; otherwise returns nothing and changes nothing |
| `Transitions.Ready` | server/websocket_handlers.go:149-170 | unknown id: nothing changes, nothing is sent; known id: only its vote changes, then exactly one action — `start` when the barrier fires, the partial state broadcast otherwise; from `Triggered` the target is unchanged |
| `Transitions.Disconnect` | server/websocket_handlers.go:65-96 | unknown id: no-op; known id keeps its slot, loses its vote (ready count drops by one iff it was ready), gets a fresh eviction deadline `now + 5s` replacing any earlier one; the phase is unchanged |
| `Transitions.Remove` | server/websocket_handlers.go:41-63 | unknown id: no-op; known id: exactly that key is deleted, and `WaitingForReady` becomes `WaitingForUsers` iff fewer than `ExpectedUsers` remain; other phases untouched |
| `Transitions.Apply` | server/websocket_handlers.go:41-170 | every handler step follows an allowed phase edge, keeps the invariant, starts at most one round, and only from `WaitingForReady` into `Triggered`; a triggered round keeps its phase and target; only a `ready` message from a registered session triggers |
| `Transitions.RunPreservesInv` | server/websocket_handlers.go:41-170 | any sequence of register, ready, disconnect and eviction steps keeps "target set iff triggered" and "awaiting readiness only with `ExpectedUsers` sessions" |
| `Transitions.TriggeredIsStable` | server/websocket_handlers.go:137-147 | once triggered, no sequence of handler steps changes the phase or replaces the target time |
| `Transitions.AtMostOneRoundStart` | server/websocket_handlers.go:162-166 | any sequence of handler steps calls `start` at most once, and never once already triggered |
| `Transitions.TriggerIffAllReady` | server/websocket_handlers.go:158-162 | a ready message triggers iff the room awaited readiness and every session is then ready; the triggering room is non-empty and its ready count equals its size |
| `Transitions.ReadyTwice` | server/websocket_handlers.go:149-170 | a repeated identical vote leaves the state as the first left it and re-broadcasts the partial state |
| `Transitions.ReconnectCancelsEviction` | server/websocket_handlers.go:101-112 | disconnect then register of the same id keeps the key set and phase and clears the pending eviction |
| `Transitions.EvictionThenFreshSession` | server/websocket_handlers.go:113-121 | after eviction the key is gone, and registering again creates a fresh record |
| `Server.ServerState.CountReadyClientsLocked` | server/websocket_senders.go:12-20 | the counting loop returns the number of ready sessions, i.e. the size of the set of registered ids whose vote is set (`Registry.ReadyIds`) |
| `Server.ServerState.ReadyDataLocked` | server/websocket_handlers.go:160 | returns the ready count and the number of sessions, the first not above the second |
| `Server.ServerState.BroadcastToClients` | server/websocket_senders.go:22-41 | one delivery of the message per session holding a non-nil connection (every id of `Registry.LiveIds` is reached), to that session's connection, no session twice, at most one per session; the registry is not modified |
| `Server.ServerState.BroadcastPartialState` | server/websocket_senders.go:43-51 | every delivery carries `partial_state` with the four arguments unchanged, to every live session |
| `Server.ServerState.GenerateFullStateMessage` | server/websocket_senders.go:53-74 | the message built by the counting loop is the `full_state` of the current state |
| `Server.ServerState.Start` | server/websocket_senders.go:76-102 | broadcasts `start` with the target: each delivery goes to its owner's connection, no owner twice, at most one per session, every live session reached; returns the reset delay of `StartRound` |
| `Server.ServerState.HandleClientRegistration` | server/websocket_handlers.go:98-134 | updates the map and phase in place to exactly `Transitions.Register`'s state and actions |
| `Server.ServerState.CheckStartLocked` | server/websocket_handlers.go:137-147 | updates phase and target in place exactly as `Transitions.CheckStart` |
| `Server.ServerState.HandleReadyState` | server/websocket_handlers.go:149-170 | updates in place to exactly `Transitions.Ready`'s state and actions |
| `Server.ServerState.HandleDisconnection` | server/websocket_handlers.go:65-96 | updates in place to exactly `Transitions.Disconnect`'s state and actions |
| `Server.ServerState.RemoveClient` | server/websocket_handlers.go:41-63 | updates in place to exactly `Transitions.Remove`'s state and actions |
| `Scenarios.RegisterFirst` | server/websocket_handlers.go:113-126 | the first of two expected users registers: one session, still `WaitingForUsers` |
| `Scenarios.RegisterSecond` | server/websocket_handlers.go:123-126 | the second registration fills the room: `WaitingForReady` |
| `Scenarios.FirstVote` | server/websocket_handlers.go:165-169 | one of two votes: partial state with ready count 1 of 2, no trigger |
| `Scenarios.SecondVote` | server/websocket_handlers.go:137-147 | the second vote triggers with target `now + 3s` and calls `start` |
| `Scenarios.FullRound` | server/websocket_handlers.go:98-170 | the whole two-user round yields `Triggered`, the target, and the exact sequence of replies and broadcasts |
| `Scenarios.ShrinkOnEviction` | server/websocket_handlers.go:41-96 | a disconnect keeps `WaitingForReady`; the eviction then returns the room to `WaitingForUsers` |
| `Scenarios.ShrunkRoomWaitsForVote` | server/websocket_handlers.go:41-63 | evicting the only unready session of a room awaiting readiness leaves everyone ready, the phase `WaitingForReady` and no `start`: `removeClient` does not check the barrier |
| `Legacy.SetupServerState` | server/main.go:61-67 | empty registry, `ExpectedUsers = 10`, `WaitingForUsers`, no target, no image, invariant holds |
| `Legacy.ReadyCount` | server/main.go:34-42 | the ready count never exceeds the number of sessions |
| `Legacy.Register` | server/main.go:135-148 | a new id is inserted unready whatever the client sent, moving `WaitingForUsers` to `WaitingForReady` iff the room is then full; a known id only gets its connection and last-seen seconds refreshed; ready count and phase of known ids unchanged |
| `Legacy.Ready` | server/main.go:157-173 | unknown id: nothing changes; known id: its vote and last-seen change; triggers iff `WaitingForReady` and ready count ≥ `ExpectedUsers`, with target `now + 5s` |
| `Legacy.FullStateMessage` | server/main.go:175-189 | `full_state` with ready count ≤ total, phase, target, and `hasImage` iff an image path is recorded |
| `Legacy.OnRegister` | server/main.go:214-217 | registration, then `user_count` broadcast, then the full state to the registering connection |
| `Legacy.OnReady` | server/main.go:219-238 | the partial state is always broadcast; a `start` follows iff the room is triggered after the step |
| `Legacy.Apply` | server/main.go:214-238 | each step follows an allowed phase edge, never drops a session, keeps a triggered round and its target, and keeps the invariant |
| `Legacy.RunOnlyGrows` | server/main.go:135-173 | over any run, the key set only grows, a triggered round stays triggered with its target, and the invariant holds |
| `Legacy.StartRepeatsWhileTriggered` | server/main.go:232-238 | in a triggered round every ready message is followed by exactly one `start` broadcast (counted by `Protocol.RoundStarts`, shared with the newer revision) |
| `Legacy.LegacyServer.constructor` | server/main.go:61-67 | the new object is `SetupServerState()` |
| `Legacy.LegacyServer.CountReadyClients` | server/main.go:34-42 | the counting loop returns the number of ready sessions, i.e. the size of the set of registered ids whose vote is set (`Registry.ReadyIds`) |
| `Legacy.LegacyServer.HandleClientRegistration` | server/main.go:135-148 | updates in place to exactly `Legacy.Register` |
| `Legacy.LegacyServer.HandleReadyState` | server/main.go:157-173 | updates in place to exactly `Legacy.Ready` |
| `Legacy.LegacyServer.SendFullState` | server/main.go:175-189 | the message built by the counting loop is `Legacy.FullStateMessage` of the current state |
| `Legacy.LegacyServer.OnRegisterMessage` | server/main.go:214-217 | state and actions are exactly `Legacy.OnRegister` |
| `Legacy.LegacyServer.OnReadyMessage` | server/main.go:219-238 | state and actions are exactly `Legacy.OnReady` |

## Left out

- Transport: the websocket upgrade, the `ReadJSON` loops (`listenSocket`, `webSocketHandler`, the loop of `createWebSocketHandler`), the first-message-must-be-`register` check and closing connections. Handlers receive already decoded messages.
- Heartbeat: `pongHandler`, `ping` and read deadlines are timing and network only.
- Concurrency: `sync.Mutex`, goroutines and `time.AfterFunc` are replaced by sequential steps; the concurrent fan-out is a list of deliveries and write errors are not modelled.
- Server.ServerState.RemoveClient: modelled as the timer callback, callable whether or not an eviction is pending, like the Go callback, which does not consult its timer; the interleaving where a timer has already fired when a reconnection stops it is not modelled.
- `softStateReset` and `serverResetDelay` are defined outside the modelled files: there is no reset transition, and the reset delay is a parameter of `Senders.StartRound`.
- `readyDataLocked` is defined outside the modelled files; it is modelled as the pair (ready count, number of sessions).
- Server.ServerState.Start: the `start` in server/websocket_senders.go:76 also takes ready and total counts and puts them in the `start` message, but its only call (server/websocket_handlers.go:166) passes the target alone; the model's `start` message carries only the target.
- Server.ServerState.constructor: the newer revision's state initialisation is defined outside the modelled files; the constructor takes `ExpectedUsers` and starts empty in `WaitingForUsers`.
- JSON and `gin.H` encoding, and RFC 3339 formatting and parsing: times are integers, and the parse result of the target time is the `parsed` parameter of `Senders.StartRound`.
- `fileExists` and the image and upload handlers (server/image_handlers.go, `createUploadHandler`, `createImageHandler`): filesystem and HTTP; `hasImage` is a boolean parameter.
- `broadcastToAll` of server/main.go writes under the lock; its broadcasts are `Broadcast` actions.
- `setupRouter`, `startServer`, `main` and all logging.
- Legacy.LegacyServer.HandleClientRegistration: runs without taking the mutex in the Go code; the race with other handlers is not modelled.
- The `Displaying` phase named in the comment of server/main.go:30 is never assigned and is not a phase of the model.
