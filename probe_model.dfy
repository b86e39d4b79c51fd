/**
 * Values and pure step functions of the probe controller's bookkeeping:
 * the agent registry, the one-shot callback map keyed by result id, and the
 * append-only list of broadcast listeners. The class in module Controller
 * updates its fields in place and is proved against these functions.
 */
module ProbeModel {

  /** An agent's identity, chosen by the agent itself in its handshake. */
  type AgentId = string

  /** The correlation token that ties a latency request to its result. */
  type ResultId = string

  /** An opaque token standing for a result handler (a function value in the source). */
  type HandlerId = nat

  /** An opaque token standing for an agent's TCP connection. */
  type ConnId = nat

  datatype Option<T> = None | Some(value: T)

  /** The descriptive part of a handshake: address and human label. */
  datatype AgentInfo = AgentInfo(ipAddress: string, displayLabel: string)

  /**
   * One registered agent: identity, info and the connection it owns. The info
   * is a message-typed field of the handshake, so it may be absent (nil).
   */
  datatype Agent = Agent(id: AgentId, info: Option<AgentInfo>, connection: ConnId)

  /**
   * What the handshake on a new connection yields: the single read failed,
   * the bytes did not decode as an agent message, or an identity and its
   * info, which the message may leave out.
   */
  datatype Handshake = ReadFailed | DecodeFailed | Decoded(id: AgentId, info: Option<AgentInfo>)

  /** A probe result as an agent session delivers it; the payload is opaque here. */
  datatype ProbeResult = ProbeResult(resultId: ResultId, payload: string)

  /** One handler invocation made while dispatching a result. */
  datatype Invocation =
    | ListenerCall(handler: HandlerId, result: ProbeResult)
    | CallbackCall(handler: HandlerId, result: ProbeResult)

  /** The controller-to-agent message kinds this core sends. */
  datatype MessageType = LatencyRequestType

  /**
   * An outbound command: the agent id it was addressed to, the connection of
   * the session registered under that id which carried it, its kind and the
   * request's result id.
   */
  datatype Command = Command(agent: AgentId, conn: ConnId, kind: MessageType, resultId: ResultId)

  /** The callback map after dispatching, and the invocations made, in order. */
  datatype Dispatched = Dispatched(callbacks: map<ResultId, HandlerId>, calls: seq<Invocation>)

  const V_MAJOR := 0
  const V_MINOR := 1
  const V_PATCH := 0

  // ---------------------------------------------------------------------------
  // Registry
  // ---------------------------------------------------------------------------

  /** Every agent is registered under its own identity. */
  ghost predicate KeyedById(agents: map<AgentId, Agent>)
  {
    forall k :: k in agents ==> agents[k].id == k
  }

  /**
   * The registry after a handshake on connection `conn`. A decoded handshake
   * inserts the agent under its own identity, replacing any earlier entry for
   * that identity; a read or decode failure leaves the registry as it was.
   */
  function Register(agents: map<AgentId, Agent>, hs: Handshake, conn: ConnId): (r: map<AgentId, Agent>)
    ensures !hs.Decoded? ==> r == agents
    ensures hs.Decoded? ==> r.Keys == agents.Keys + {hs.id}
    ensures hs.Decoded? ==> r[hs.id] == Agent(hs.id, hs.info, conn)
    ensures hs.Decoded? ==> forall k :: k in agents && k != hs.id ==> r[k] == agents[k]
    ensures KeyedById(agents) ==> KeyedById(r)
  {
    match hs
    case Decoded(id, info) => agents[id := Agent(id, info, conn)]
    case _ => agents
  }

  /**
   * The registry after a disconnect signal for `id`: exactly that identity is
   * gone, every other entry is kept, and an absent identity changes nothing.
   */
  function Disconnect(agents: map<AgentId, Agent>, id: AgentId): (r: map<AgentId, Agent>)
    ensures r.Keys == agents.Keys - {id}
    ensures forall k :: k in r ==> r[k] == agents[k]
    ensures id !in agents ==> r == agents
    ensures KeyedById(agents) ==> KeyedById(r)
  {
    if id in agents then agents - {id} else agents
  }

  /** A second disconnect for the same identity is a no-op. */
  lemma DisconnectIdempotent(agents: map<AgentId, Agent>, id: AgentId)
    ensures Disconnect(Disconnect(agents, id), id) == Disconnect(agents, id)
  {
  }

  /**
   * Two handshakes under one identity leave a single entry, the one for the
   * later connection: the registry is as if only the later one had happened.
   */
  lemma ReconnectSupersedes(agents: map<AgentId, Agent>, id: AgentId, first: Option<AgentInfo>, second: Option<AgentInfo>,
                            c1: ConnId, c2: ConnId)
    ensures Register(Register(agents, Decoded(id, first), c1), Decoded(id, second), c2)
         == Register(agents, Decoded(id, second), c2)
    ensures Register(Register(agents, Decoded(id, first), c1), Decoded(id, second), c2)[id].connection == c2
  {
  }

  /**
   * A disconnect signal carries only the identity, so a stale signal from a
   * session that a reconnect has superseded removes the live entry: after the
   * agent reconnects on `c2`, the failure of the old session on `c1` leaves
   * no entry for `id`, although the session on `c2` is still connected.
   */
  lemma StaleDisconnectDropsLiveSession(agents: map<AgentId, Agent>, id: AgentId,
                                        first: Option<AgentInfo>, second: Option<AgentInfo>, c1: ConnId, c2: ConnId)
    ensures var live := Register(Register(agents, Decoded(id, first), c1), Decoded(id, second), c2);
            live[id].connection == c2 && id !in Disconnect(live, id)
  {
  }

  /**
   * The registry after a disconnect signal from the session on `conn` for
   * `id`: the entry goes only if it is still the one on that connection, so
   * a signal from a superseded session changes nothing.
   */
  function DisconnectFrom(agents: map<AgentId, Agent>, id: AgentId, conn: ConnId): (r: map<AgentId, Agent>)
    ensures id in agents && agents[id].connection == conn ==> r.Keys == agents.Keys - {id}
    ensures !(id in agents && agents[id].connection == conn) ==> r == agents
    ensures forall k :: k in r ==> r[k] == agents[k]
    ensures KeyedById(agents) ==> KeyedById(r)
  {
    if id in agents && agents[id].connection == conn then agents - {id} else agents
  }

  /**
   * With the connection checked, the stale signal from `c1` after a
   * reconnect on `c2` keeps the live entry, and the signal from `c2` itself
   * removes it.
   */
  lemma StaleDisconnectKeepsLiveSession(agents: map<AgentId, Agent>, id: AgentId,
                                        first: Option<AgentInfo>, second: Option<AgentInfo>, c1: ConnId, c2: ConnId)
    requires c1 != c2
    ensures var live := Register(Register(agents, Decoded(id, first), c1), Decoded(id, second), c2);
            DisconnectFrom(live, id, c1) == live && id !in DisconnectFrom(live, id, c2)
  {
  }

  /** Disconnecting an identity that was new at its handshake restores the registry. */
  lemma DisconnectUndoesRegister(agents: map<AgentId, Agent>, id: AgentId, info: Option<AgentInfo>, conn: ConnId)
    requires id !in agents
    ensures Disconnect(Register(agents, Decoded(id, info), conn), id) == agents
  {
  }

  // ---------------------------------------------------------------------------
  // Sending probes
  // ---------------------------------------------------------------------------

  /**
   * The result id a request carries when it is sent: a caller-supplied
   * non-empty id is kept, an empty one is replaced by the generated id.
   */
  function AssignResultId(current: ResultId, generated: ResultId): (r: ResultId)
    requires generated != ""
    ensures r != ""
    ensures current != "" ==> r == current
    ensures current == "" ==> r == generated
  {
    if current == "" then generated else current
  }

  // ---------------------------------------------------------------------------
  // Result dispatch
  // ---------------------------------------------------------------------------

  /** The calls made to the listeners for one result: each listener once, in registration order. */
  function ListenerCalls(listeners: seq<HandlerId>, result: ProbeResult): (r: seq<Invocation>)
    ensures |r| == |listeners|
    ensures forall i :: 0 <= i < |listeners| ==> r[i] == ListenerCall(listeners[i], result)
  {
    if listeners == [] then []
    else [ListenerCall(listeners[0], result)] + ListenerCalls(listeners[1..], result)
  }

  /**
   * One step of the result loop: every listener is called in order, then the
   * callback registered under the result's id, if there is one, and finally
   * that id is removed from the callback map whether or not it was present.
   */
  function Dispatch(callbacks: map<ResultId, HandlerId>, listeners: seq<HandlerId>, result: ProbeResult): (r: Dispatched)
    ensures result.resultId !in r.callbacks
    ensures r.callbacks.Keys == callbacks.Keys - {result.resultId}
    ensures forall k :: k in r.callbacks ==> r.callbacks[k] == callbacks[k]
    ensures |r.calls| == |listeners| + (if result.resultId in callbacks then 1 else 0)
    ensures forall i :: 0 <= i < |listeners| ==> r.calls[i] == ListenerCall(listeners[i], result)
    ensures result.resultId in callbacks ==> r.calls[|listeners|] == CallbackCall(callbacks[result.resultId], result)
  {
    var rid := result.resultId;
    var fired := if rid in callbacks then [CallbackCall(callbacks[rid], result)] else [];
    Dispatched(callbacks - {rid}, ListenerCalls(listeners, result) + fired)
  }

  /** The result ids occurring in a sequence of results. */
  function ResultIds(results: seq<ProbeResult>): set<ResultId>
  {
    set i | 0 <= i < |results| :: results[i].resultId
  }

  /**
   * Successive iterations of the result loop over `results`, with no other
   * operation in between. Callbacks are only ever removed: exactly the ids of
   * the dispatched results leave the map, and every other entry is kept, so a
   * callback whose result never arrives stays registered.
   */
  function DispatchAll(callbacks: map<ResultId, HandlerId>, listeners: seq<HandlerId>,
                       results: seq<ProbeResult>): (r: Dispatched)
    ensures r.callbacks.Keys == callbacks.Keys - ResultIds(results)
    ensures forall k :: k in r.callbacks ==> r.callbacks[k] == callbacks[k]
    decreases |results|
  {
    if results == [] then Dispatched(callbacks, [])
    else
      var first := Dispatch(callbacks, listeners, results[0]);
      var rest := DispatchAll(first.callbacks, listeners, results[1..]);
      assert ResultIds(results) == {results[0].resultId} + ResultIds(results[1..]) by {
        ResultIdsCons(results);
      }
      Dispatched(rest.callbacks, first.calls + rest.calls)
  }

  lemma ResultIdsCons(results: seq<ProbeResult>)
    requires results != []
    ensures ResultIds(results) == {results[0].resultId} + ResultIds(results[1..])
  {
    var tail := results[1..];
    forall id | id in ResultIds(results)
      ensures id in {results[0].resultId} + ResultIds(tail)
    {
      var i :| 0 <= i < |results| && results[i].resultId == id;
      if i > 0 {
        assert tail[i - 1] == results[i];
      }
    }
    forall id | id in ResultIds(tail)
      ensures id in ResultIds(results)
    {
      var i :| 0 <= i < |tail| && tail[i].resultId == id;
      assert results[i + 1] == tail[i];
    }
  }

  /** The number of callback invocations, among `calls`, that answer result id `rid`. */
  function CallbacksFor(calls: seq<Invocation>, rid: ResultId): nat
  {
    if calls == [] then 0
    else (if calls[0].CallbackCall? && calls[0].result.resultId == rid then 1 else 0)
         + CallbacksFor(calls[1..], rid)
  }

  lemma {:induction false} CallbacksForConcat(a: seq<Invocation>, b: seq<Invocation>, rid: ResultId)
    ensures CallbacksFor(a + b, rid) == CallbacksFor(a, rid) + CallbacksFor(b, rid)
  {
    if a == [] {
      assert a + b == b;
    } else {
      assert (a + b)[0] == a[0];
      assert (a + b)[1..] == a[1..] + b;
      CallbacksForConcat(a[1..], b, rid);
    }
  }

  lemma {:induction false} NoCallbacksAmongListenerCalls(listeners: seq<HandlerId>, result: ProbeResult, rid: ResultId)
    ensures CallbacksFor(ListenerCalls(listeners, result), rid) == 0
  {
    if listeners != [] {
      NoCallbacksAmongListenerCalls(listeners[1..], result, rid);
    }
  }

  /**
   * At-most-once delivery: over any run of the result loop, the callbacks
   * fired for id `rid` number exactly one if a callback was registered under
   * `rid` and some result carries it, and zero otherwise, however many
   * duplicate results with that id arrive.
   */
  lemma {:induction false} AtMostOnceDelivery(callbacks: map<ResultId, HandlerId>, listeners: seq<HandlerId>,
                                              results: seq<ProbeResult>, rid: ResultId)
    ensures CallbacksFor(DispatchAll(callbacks, listeners, results).calls, rid)
         == if rid in callbacks && rid in ResultIds(results) then 1 else 0
  {
    if results != [] {
      var first := Dispatch(callbacks, listeners, results[0]);
      var fired := if results[0].resultId in callbacks then [CallbackCall(callbacks[results[0].resultId], results[0])] else [];
      assert first.calls == ListenerCalls(listeners, results[0]) + fired;
      CallbacksForConcat(ListenerCalls(listeners, results[0]), fired, rid);
      NoCallbacksAmongListenerCalls(listeners, results[0], rid);
      AtMostOnceDelivery(first.callbacks, listeners, results[1..], rid);
      CallbacksForConcat(first.calls, DispatchAll(first.callbacks, listeners, results[1..]).calls, rid);
      ResultIdsCons(results);
    }
  }

  /** The listener invocations among `calls`, in order. */
  function ListenerCallsOf(calls: seq<Invocation>): seq<Invocation>
  {
    if calls == [] then []
    else (if calls[0].ListenerCall? then [calls[0]] else []) + ListenerCallsOf(calls[1..])
  }

  /** Reference definition of broadcasting: every listener, in order, for every result, in order. */
  function Broadcast(listeners: seq<HandlerId>, results: seq<ProbeResult>): seq<Invocation>
  {
    if results == [] then []
    else ListenerCalls(listeners, results[0]) + Broadcast(listeners, results[1..])
  }

  lemma {:induction false} ListenerCallsOfConcat(a: seq<Invocation>, b: seq<Invocation>)
    ensures ListenerCallsOf(a + b) == ListenerCallsOf(a) + ListenerCallsOf(b)
  {
    if a == [] {
      assert a + b == b;
    } else {
      assert (a + b)[0] == a[0];
      assert (a + b)[1..] == a[1..] + b;
      ListenerCallsOfConcat(a[1..], b);
    }
  }

  lemma {:induction false} ListenerCallsKept(listeners: seq<HandlerId>, result: ProbeResult)
    ensures ListenerCallsOf(ListenerCalls(listeners, result)) == ListenerCalls(listeners, result)
  {
    if listeners != [] {
      ListenerCallsKept(listeners[1..], result);
    }
  }

  /**
   * Listeners see every result, whether or not a callback matched it: the
   * listener invocations made over a run of the result loop are exactly the
   * broadcast of every result to every listener, both in order.
   */
  lemma {:induction false} ListenersSeeEveryResult(callbacks: map<ResultId, HandlerId>, listeners: seq<HandlerId>,
                                                   results: seq<ProbeResult>)
    ensures ListenerCallsOf(DispatchAll(callbacks, listeners, results).calls) == Broadcast(listeners, results)
  {
    if results != [] {
      var first := Dispatch(callbacks, listeners, results[0]);
      var rest := DispatchAll(first.callbacks, listeners, results[1..]);
      var fired := if results[0].resultId in callbacks then [CallbackCall(callbacks[results[0].resultId], results[0])] else [];
      assert first.calls == ListenerCalls(listeners, results[0]) + fired;
      ListenerCallsOfConcat(first.calls, rest.calls);
      ListenerCallsOfConcat(ListenerCalls(listeners, results[0]), fired);
      ListenerCallsKept(listeners, results[0]);
      assert ListenerCallsOf(fired) == [] by {
        if fired != [] {
          assert fired[1..] == [];
        }
      }
      ListenersSeeEveryResult(first.callbacks, listeners, results[1..]);
    }
  }

  /** Where result i's block of calls starts in a broadcast to n listeners: after i blocks of n calls. */
  function BlockStart(i: nat, n: nat): nat
  {
    if i == 0 then 0 else n + BlockStart(i - 1, n)
  }

  lemma {:induction false} BlockStartIsProduct(i: nat, n: nat)
    ensures BlockStart(i, n) == i * n
  {
    if i > 0 {
      BlockStartIsProduct(i - 1, n);
      assert i * n == n + (i - 1) * n;
    }
  }

  /**
   * The broadcast consists of one block of |listeners| calls per result, and
   * position j of block i is listener j receiving result i.
   */
  lemma {:induction false} BroadcastAt(listeners: seq<HandlerId>, results: seq<ProbeResult>, i: nat, j: nat)
    requires i < |results| && j < |listeners|
    ensures |Broadcast(listeners, results)| == BlockStart(|results|, |listeners|)
    ensures BlockStart(i, |listeners|) + j < |Broadcast(listeners, results)|
    ensures Broadcast(listeners, results)[BlockStart(i, |listeners|) + j] == ListenerCall(listeners[j], results[i])
  {
    BroadcastLength(listeners, results);
    if i == 0 {
      BroadcastShift(listeners, results, j);
    } else {
      BroadcastAt(listeners, results[1..], i - 1, j);
      BroadcastShift(listeners, results, BlockStart(i, |listeners|) + j);
      assert results[1..][i - 1] == results[i];
    }
  }

  /** Position p of a broadcast lies in the first result's block, or in the rest's at p - |listeners|. */
  lemma BroadcastShift(listeners: seq<HandlerId>, results: seq<ProbeResult>, p: nat)
    requires results != [] && p < |Broadcast(listeners, results)|
    ensures p < |listeners| ==> Broadcast(listeners, results)[p] == ListenerCall(listeners[p], results[0])
    ensures p >= |listeners| ==> Broadcast(listeners, results)[p] == Broadcast(listeners, results[1..])[p - |listeners|]
  {
  }

  lemma {:induction false} BroadcastLength(listeners: seq<HandlerId>, results: seq<ProbeResult>)
    ensures |Broadcast(listeners, results)| == BlockStart(|results|, |listeners|)
  {
    if results != [] {
      BroadcastLength(listeners, results[1..]);
    }
  }
}
