/**
 * The registrations each agent module performs when it is imported, and what the
 * registry then answers for the hospital, routing and notification DIDs.
 */
module Registration {
  import opened Records
  import opened Messages
  import opened MockZynd
  import HospitalAgent
  import RoutingAgent
  import NotificationAgent

  /** The registry answers for the hospital, routing and notification DIDs as those agents do. */
  ghost predicate Wired(agents: map<string, Handler>, route: RouteProvider) {
    && (forall p :: Invoke(agents, HospitalAgent.DID, p) == HospitalAgent.Execute(route, p))
    && (forall p :: Invoke(agents, RoutingAgent.DID, p) == RoutingAgent.Execute(route, p))
    && (forall p :: Invoke(agents, NotificationAgent.DID, p) == NotificationAgent.Execute(p))
  }

  /**
   * The registrations the agent modules perform when they are imported: triage
   * first, then hospital, routing and notification.
   */
  method RegisterAgents(registry: MockZyndRegistry, triageDid: string, triage: Handler, route: RouteProvider)
    modifies registry
    ensures registry.agents == old(registry.agents)[triageDid := triage]
      [HospitalAgent.DID := HospitalAgent.Handler(route)][RoutingAgent.DID := RoutingAgent.Handler(route)]
      [NotificationAgent.DID := NotificationAgent.Handler()]
    ensures Wired(registry.agents, route)
    ensures registry.agents.Keys == old(registry.agents).Keys
      + {triageDid, HospitalAgent.DID, RoutingAgent.DID, NotificationAgent.DID}
  {
    registry.RegisterAgent(triageDid, triage);
    registry.RegisterAgent(HospitalAgent.DID, HospitalAgent.Handler(route));
    registry.RegisterAgent(RoutingAgent.DID, RoutingAgent.Handler(route));
    registry.RegisterAgent(NotificationAgent.DID, NotificationAgent.Handler());
  }
}
