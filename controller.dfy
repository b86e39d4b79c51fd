/**
 * The probe controller as an object whose fields change in place: the agent
 * registry, the callback map and the listener list. Each loop iteration of
 * the result and disconnect loops, each handshake and each send is one
 * sequential step, proved against the functions of ProbeModel.
 */
module Controller {
  import opened ProbeModel

  /** A latency request; the controller only ever reads and overwrites its result id. */
  class LatencyRequest {
    var resultId: ResultId

    constructor (resultId: ResultId)
      ensures this.resultId == resultId
    {
      this.resultId := resultId;
    }
  }

  class ProbeController {
    /** Registry: agent identity to agent. */
    var agents: map<AgentId, Agent>
    /** Broadcast handlers, in registration order; only ever appended to. */
    var resultListeners: seq<HandlerId>
    /** One-shot handlers keyed by the result id they wait for. */
    var probeCallbacks: map<ResultId, HandlerId>
    /** Every command written to an agent connection so far, oldest first. */
    ghost var sent: seq<Command>

    /**
     * Object invariant: each agent is registered under its own identity, as
     * the handshake stores it. The methods that change the registry preserve
     * it; it documents the registry's shape, and no other contract relies on it.
     */
    ghost predicate Valid()
      reads this
    {
      KeyedById(agents)
    }

    /** A new controller knows no agent, no callback and no listener. */
    constructor ()
      ensures Valid()
      ensures agents == map[] && probeCallbacks == map[] && resultListeners == []
      ensures sent == []
    {
      agents := map[];
      resultListeners := [];
      probeCallbacks := map[];
      sent := [];
    }

    /** The controller's version, 0.1.0. */
    function GetVersion(): (v: (int, int, int))
      ensures v == (0, 1, 0)
    {
      (V_MAJOR, V_MINOR, V_PATCH)
    }

    /** Appends a listener; earlier listeners keep their places and order. */
    method AddResultListener(f: HandlerId)
      modifies this`resultListeners
      ensures resultListeners == old(resultListeners) + [f]
    {
      resultListeners := resultListeners + [f];
    }

    /**
     * One iteration of the result loop: calls every listener in order, then
     * the callback waiting for the result's id if there is one, and deletes
     * that id from the callback map. Returns the calls made, in order.
     */
    method DispatchResult(result: ProbeResult) returns (calls: seq<Invocation>)
      modifies this`probeCallbacks
      ensures Dispatched(probeCallbacks, calls) == Dispatch(old(probeCallbacks), resultListeners, result)
    {
      calls := [];
      var i := 0;
      while i < |resultListeners|
        invariant 0 <= i <= |resultListeners|
        invariant |calls| == i
        invariant forall j :: 0 <= j < i ==> calls[j] == ListenerCall(resultListeners[j], result)
      {
        calls := calls + [ListenerCall(resultListeners[i], result)];
        i := i + 1;
      }
      if result.resultId in probeCallbacks {
        calls := calls + [CallbackCall(probeCallbacks[result.resultId], result)];
      }
      probeCallbacks := probeCallbacks - {result.resultId};
    }

    /** One iteration of the disconnect loop: forgets agent `id` if it is registered. */
    method HandleDisconnect(id: AgentId)
      requires Valid()
      modifies this`agents
      ensures Valid()
      ensures agents == Disconnect(old(agents), id)
    {
      if id in agents {
        agents := agents - {id};
      }
    }

    /**
     * The registration part of a new connection's handling: a decoded
     * handshake registers the agent on `conn` under its identity, replacing
     * any earlier entry; a failed read or decode registers nothing.
     * `panics` reports that the connection log line that follows the
     * registration dereferences the agent's info while it is absent (nil),
     * which ends the controller process; the registration has happened by then.
     */
    method Handle(hs: Handshake, conn: ConnId) returns (panics: bool)
      requires Valid()
      modifies this`agents
      ensures Valid()
      ensures agents == Register(old(agents), hs, conn)
      ensures panics <==> hs.Decoded? && hs.info.None?
    {
      panics := false;
      match hs {
        case ReadFailed =>
        case DecodeFailed =>
        case Decoded(id, info) =>
          agents := agents[id := Agent(id, info, conn)];
          panics := agents[id].info.None?;
      }
    }

    /**
     * Sends a latency request to agent `agentId`. An empty result id on the
     * request is replaced by `generated`; the command goes out only if the
     * agent is registered, over the connection of the session registered
     * under `agentId` at that moment, and the request's result id is
     * returned either way.
     */
    method SendProbe(agentId: AgentId, req: LatencyRequest, generated: ResultId) returns (id: ResultId)
      requires generated != ""
      modifies req, this`sent
      ensures req.resultId == AssignResultId(old(req.resultId), generated)
      ensures id == req.resultId && id != ""
      ensures agentId in agents ==> sent == old(sent) + [Command(agentId, agents[agentId].connection, LatencyRequestType, id)]
      ensures agentId !in agents ==> sent == old(sent)
      ensures agents == old(agents) && probeCallbacks == old(probeCallbacks)
    {
      if req.resultId == "" {
        req.resultId := generated;
      }
      if agentId in agents {
        sent := sent + [Command(agentId, agents[agentId].connection, LatencyRequestType, req.resultId)];
      }
      id := req.resultId;
    }

    /**
     * Registers `f` under the fresh id `generated`, overwrites the request's
     * result id with it and sends the request. The callback stays registered
     * even if the agent is absent and nothing is sent.
     */
    method SendProbeCallback(agentId: AgentId, req: LatencyRequest, f: HandlerId, generated: ResultId)
      requires generated != "" && generated !in probeCallbacks
      modifies req, this`probeCallbacks, this`sent
      ensures probeCallbacks == old(probeCallbacks)[generated := f]
      ensures req.resultId == generated
      ensures agentId in agents ==> sent == old(sent) + [Command(agentId, agents[agentId].connection, LatencyRequestType, generated)]
      ensures agentId !in agents ==> sent == old(sent)
      ensures agents == old(agents)
    {
      probeCallbacks := probeCallbacks[generated := f];
      req.resultId := generated;
      var _ := SendProbe(agentId, req, generated);
    }
  }

  /**
   * Client of the contracts above: a callback registered for a connected
   * agent fires exactly once for its result and a duplicate result does not
   * fire it again, while listeners see both results.
   */
  method CallbackScenario()
  {
    var c := new ProbeController();
    c.AddResultListener(1);
    var panics := c.Handle(Decoded("A1", Some(AgentInfo("10.0.0.1", "first"))), 100);
    assert !panics;
    var req := new LatencyRequest("caller-id");
    c.SendProbeCallback("A1", req, 7, "r-1");
    assert req.resultId == "r-1";
    assert c.sent == [Command("A1", 100, LatencyRequestType, "r-1")];
    var result := ProbeResult("r-1", "12ms");
    var calls := c.DispatchResult(result);
    assert calls == [ListenerCall(1, result), CallbackCall(7, result)];
    assert "r-1" !in c.probeCallbacks;
    calls := c.DispatchResult(result);
    assert calls == [ListenerCall(1, result)];
  }

  /**
   * Client of the contracts above: a probe to an unknown agent sends nothing
   * but still returns a non-empty id, and a reconnect under the same identity
   * leaves one entry, on the newer connection, so later probes go out over
   * the newer connection.
   */
  method GhostAndReconnectScenario()
  {
    var c := new ProbeController();
    var req := new LatencyRequest("");
    var id := c.SendProbe("ghost", req, "g-1");
    assert id == "g-1" && c.sent == [];
    var panics := c.Handle(Decoded("A2", Some(AgentInfo("10.0.0.2", "old"))), 1);
    panics := c.Handle(DecodeFailed, 3);
    assert !panics;
    panics := c.Handle(Decoded("A2", Some(AgentInfo("10.0.0.2", "new"))), 2);
    assert c.agents.Keys == {"A2"} && c.agents["A2"].connection == 2;
    var req2 := new LatencyRequest("");
    id := c.SendProbe("A2", req2, "g-2");
    assert c.sent == [Command("A2", 2, LatencyRequestType, "g-2")];
    c.HandleDisconnect("A2");
    c.HandleDisconnect("A2");
    assert c.agents == map[];
  }

  /**
   * Client of the contracts above: a handshake whose message carries no info
   * registers the agent and then panics on the connection log line.
   */
  method MissingInfoScenario()
  {
    var c := new ProbeController();
    var panics := c.Handle(Decoded("A3", None), 4);
    assert panics && "A3" in c.agents && c.agents["A3"].info == None;
  }
}
