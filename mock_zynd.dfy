/**
 * The capability registry: an in-process map from an agent's DID (an opaque
 * string) to its handler. Registering a DID again replaces its handler; calling
 * a DID that has no handler fails with `ValueError`.
 */
module MockZynd {
  import opened Wrappers
  import opened Records
  import opened Messages

  function NotRegistered(did: string): Exception {
    ValueError("Agent with DID " + did + " not registered")
  }

  /** What `call(did, payload)` yields against the handler map `agents`. */
  function Invoke(agents: map<string, Handler>, did: string, payload: Payload): (r: Outcome)
    ensures did !in agents ==> r == Err(ValueError("Agent with DID " + did + " not registered"))
    ensures did in agents ==> r == Await(agents[did](payload))
  {
    if did !in agents then Err(NotRegistered(did)) else Await(agents[did](payload))
  }

  /** One `zynd_registry.call(did, payload)`, as recorded by the ghost call trace. */
  datatype Invocation = Invocation(did: string, payload: Payload)

  class MockZyndRegistry {
    var agents: map<string, Handler>

    /** A fresh registry binds no DID. */
    constructor()
      ensures agents == map[]
    {
      agents := map[];
    }

    /** Binds `did` to `handler`; the last registration of a DID wins and no other binding changes. */
    method RegisterAgent(did: string, handler: Handler)
      modifies this
      ensures agents == old(agents)[did := handler]
      ensures did in agents && agents[did] == handler
      ensures forall d :: d != did ==> (d in agents <==> d in old(agents))
      ensures forall d :: d != did && d in old(agents) ==> agents[d] == old(agents)[d]
    {
      agents := agents[did := handler];
    }

    /**
     * Dispatches `payload` to the handler bound to `did` and gives back the single
     * value it completes with, whether it answered synchronously or with an
     * awaitable. It reads the map and changes nothing.
     */
    method Call(did: string, payload: Payload) returns (r: Outcome)
      ensures did !in agents ==> r == Err(ValueError("Agent with DID " + did + " not registered"))
      ensures did in agents ==> r == Await(agents[did](payload))
      ensures r == Invoke(agents, did, payload)
    {
      if did !in agents {
        return Err(NotRegistered(did));
      }
      var handler := agents[did];
      var result := handler(payload);
      match result {
        case Awaitable(v) => r := v;
        case Ready(v) => r := v;
      }
    }
  }

  /** Calling any DID on a fresh (empty) registry fails. */
  lemma EmptyRegistryRejects(did: string, payload: Payload)
    ensures Invoke(map[], did, payload) == Err(NotRegistered(did))
  {
  }

  /** After registering `h` under `did`, calling `did` yields what `h` completes with. */
  lemma CallAfterRegister(agents: map<string, Handler>, did: string, h: Handler, payload: Payload)
    ensures Invoke(agents[did := h], did, payload) == Await(h(payload))
  {
  }

  /** Registering the same DID twice keeps only the later handler. */
  lemma LastWriteWins(agents: map<string, Handler>, did: string, h1: Handler, h2: Handler, d: string, payload: Payload)
    ensures Invoke(agents[did := h1][did := h2], d, payload) == Invoke(agents[did := h2], d, payload)
  {
  }

  /** Registering one DID does not change what any other DID answers. */
  lemma RegisterIsolated(agents: map<string, Handler>, did: string, h: Handler, d: string, payload: Payload)
    requires d != did
    ensures Invoke(agents[did := h], d, payload) == Invoke(agents, d, payload)
  {
  }
}
