# Probe controller bookkeeping, in Dafny

This project models the bookkeeping core of the `eyes` probe controller
(`controller/controller.go`). The controller accepts TCP connections from
remote probe agents, sends them latency-probe requests and routes the results
back. Stripped of sockets, goroutines and channels, the core is three pieces
of state that sequential steps change in place:

- the agent registry `Agents`, a map from agent identity to agent;
- `probeCallbacks`, a map from a request's `ResultId` to a one-shot handler;
- `ResultListeners`, an append-only list of broadcast handlers.

Two modules:

- `ProbeModel` (`probe_model.dfy`) holds the values and the pure step
  functions: registration after a handshake, removal on disconnect,
  result-id assignment, and dispatch of one result and of a run of results.
  It also holds the lemmas about them: at-most-once callback delivery,
  listeners seeing every result in order, idempotent disconnect, and
  reconnection superseding the older entry.
- `Controller` (`controller.dfy`) holds the class `ProbeController`, whose
  fields are updated in place by methods proved against those functions, and
  the class `LatencyRequest`, whose result id `SendProbe` and
  `SendProbeCallback` overwrite. Three client methods (`CallbackScenario`,
  `GhostAndReconnectScenario`, `MissingInfoScenario`) check that the method
  contracts alone are enough to derive the end-to-end scenarios: a callback
  fires once, a send to an unknown agent sends nothing, a reconnect replaces
  the old entry and later probes go over the new connection, and a handshake
  without info registers the agent and then panics.

Handlers are opaque tokens (`HandlerId`), and so are connections (`ConnId`).
Dispatching returns the list of handler invocations it made, in order.
Commands written to agents are appended to the ghost log `sent`. The
identifier generator is a parameter `generated`. It must be non-empty, and
for `SendProbeCallback` it must not already be a key of the callback map.
The handshake arrives already read and decoded as a `Handshake` value:
`ReadFailed`, `DecodeFailed` or `Decoded(id, info)`. The info is a
message-typed field, so it is optional (`None` for a nil pointer).

## Model

| member | source | states |
|---|---|---|
| `Controller.ProbeController.constructor` | controller/controller.go:27-36 | a new controller has no agents, no callbacks, no listeners (and has sent nothing); the invariant `Valid` (every agent stored under its own id) holds |
| `Controller.ProbeController.GetVersion` | controller/controller.go:38-40 | the version is 0.1.0 |
| `Controller.ProbeController.AddResultListener` | controller/controller.go:42-44 | the listener list grows by exactly one and the new handler is last; earlier listeners keep their order |
| `Controller.ProbeController.DispatchResult` | controller/controller.go:46-59 | one result-loop iteration makes exactly the invocations of `Dispatch` and leaves the callback map `Dispatch` gives |
| `Controller.ProbeController.HandleDisconnect` | controller/controller.go:62-71 | one disconnect-loop iteration leaves the registry `Disconnect` gives and keeps `Valid` |
| `Controller.ProbeController.Handle` | controller/controller.go:124-153 | a handshake leaves the registry `Register` gives and keeps `Valid`; it reports a panic exactly when the decoded message has no info, because the log line at 153 dereferences it after the agent was registered |
| `Controller.ProbeController.SendProbe` | controller/controller.go:98-113 | the request gets `AssignResultId` of its old id; that non-empty id is returned; exactly one latency-request command goes out if the agent is registered, over the connection of the agent registered under that id at that moment, and none otherwise; the registry and callback map are unchanged |
| `Controller.ProbeController.SendProbeCallback` | controller/controller.go:115-122 | the handler is stored under the fresh id and all other callbacks are kept; the request's id is overwritten with the fresh id; one command goes out if and only if the agent is registered, over that agent's current connection; the callback stays registered either way |
| `ProbeModel.Register` | controller/controller.go:124-149 | a decoded handshake puts the new agent under its identity, replacing any earlier entry, and keeps all other entries; a read or decode failure leaves the registry unchanged; every agent stays stored under its own id |
| `ProbeModel.Disconnect` | controller/controller.go:65-70 | exactly the given identity leaves the registry and all other entries are kept; an absent identity changes nothing; every agent stays stored under its own id |
| `ProbeModel.DisconnectIdempotent` | controller/controller.go:67-69 | repeating a disconnect for the same identity changes nothing more |
| `ProbeModel.ReconnectSupersedes` | controller/controller.go:141-147 | two handshakes with one identity leave a single entry, on the later connection, as if only the later one had happened |
| `ProbeModel.StaleDisconnectDropsLiveSession` | controller/controller.go:65-69 | as written: after a reconnect on a second connection, a disconnect signal for the identity (which may come from the superseded session) removes the live entry |
| `ProbeModel.DisconnectFrom` | controller/controller.go:65-69 | corrected disconnect: the entry goes only if it is still on the signalling session's connection; otherwise the registry is unchanged; other entries are kept |
| `ProbeModel.StaleDisconnectKeepsLiveSession` | controller/controller.go:65-69 | with the corrected disconnect, a stale signal from the superseded connection keeps the live entry, and the live connection's own signal removes it |
| `ProbeModel.DisconnectUndoesRegister` | controller/controller.go:143-147 | disconnecting an identity that was new at its handshake restores the registry as it was before |
| `ProbeModel.AssignResultId` | controller/controller.go:99-101 | the id a request is sent with is never empty; a caller-supplied non-empty id is kept; an empty one becomes the generated id |
| `ProbeModel.ListenerCalls` | controller/controller.go:50-52 | each listener is called once with the result, in registration order |
| `ProbeModel.Dispatch` | controller/controller.go:48-58 | all listeners are called first, in order, whether or not a callback matches; then the callback for the result's id is called if one is registered, and only then; the id is absent afterwards; every other callback entry is unchanged |
| `ProbeModel.DispatchAll` | controller/controller.go:48-59 | over a run of results, exactly the ids of the dispatched results leave the callback map; every other entry, including a callback whose result never arrives, stays with its handler |
| `ProbeModel.AtMostOnceDelivery` | controller/controller.go:53-58 | over any run of results, a callback id is answered exactly once if it was registered and its result arrives, and never otherwise, even when duplicate results arrive |
| `ProbeModel.ListenersSeeEveryResult` | controller/controller.go:50-52 | over any run of results, the listener invocations are exactly every listener for every result, both in order, whatever the callbacks do |
| `ProbeModel.BroadcastAt` | controller/controller.go:50-52 | the broadcast is one block of L calls per result, where L is the number of listeners; position `j` of block `i` is listener `j` receiving result `i`; block `i` starts at `BlockStart(i, L)`, which `BlockStartIsProduct` shows is `i * L` |

## Left out

- `Start`: the TCP listen and accept loop and the bind-failure path are network I/O. The two loops it starts are modelled one iteration at a time (`DispatchResult`, `HandleDisconnect`).
- Goroutines, the buffered result and disconnect channels (capacities 10 and 5) and the two mutexes are left out, because they are concurrency. Each loop iteration, handshake and send is one atomic sequential step, so lock ordering and backpressure are not modelled.
- The read of `Agents` without the lock after registration (controller/controller.go:151-153) is a data race, which a sequential model cannot show. Starting the agent's read loop there is left out too. The nil dereference on line 153 is modelled: `Handle` reports it as `panics`.
- `conn.Read` into a 4096-byte buffer and `proto.Unmarshal` in `handle` are I/O and a foreign codec. Their outcome is the `Handshake` parameter.
- `ProbeAgent.ReadLoop`, `ProbeAgent.SendCommand` and the protobuf message types are not part of this model. A send is an entry in the ghost log `sent`.
- `SendProbe`: the logged command records the agent id, the connection of the session registered under it, the message type and the request's result id. It does not record the rest of the request, which the controller never reads.
- `util.GenID` is not part of this model. Its output is the `generated` parameter. The parameter is required to be non-empty, and for `SendProbeCallback` to be absent from the callback map. Global uniqueness is assumed and not modelled.
- Handlers are tokens, so what a listener or callback does when called is not modelled. That includes re-entering the controller, such as a callback that calls `SendProbeCallback` while the callback lock is held.
- Logging calls are left out. The one exception is the panic on line 153, which `Handle` reports. The model does not capture what follows the panic: it ends the whole controller process, including the read loop started on line 151. The model's registry keeps the entry only because the process ending is not modelled.
- Callbacks never expire. The model keeps this behaviour: `DispatchAll` shows an unanswered callback staying registered.

## Findings

| source | as written | input that shows it | evidently intended | confidence | as-written member | corrected member |
|---|---|---|---|---|---|---|
| controller/controller.go:65-69 | a disconnect signal carries only the agent id (the channel is a `chan string`), and the handler deletes whatever entry is registered under that id | agent `A` connects on c1, then reconnects on c2 (line 143 overwrites the entry without closing c1); later c1's read loop fails and signals `A`; the c2 entry is deleted while c2 is still connected, so probes to `A` are no longer sent | a signal from a superseded session is tolerated: only the session that is still registered may remove its entry, so absence from the registry means no live session | medium, not executed | `ProbeModel.StaleDisconnectDropsLiveSession` | `ProbeModel.DisconnectFrom`, `ProbeModel.StaleDisconnectKeepsLiveSession` |

`HandleDisconnect` keeps the behaviour as written, because the identity alone
is what reaches it in the source. `DisconnectFrom` needs the read loop to
report its connection along with the identity.
