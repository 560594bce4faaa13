/** The service specification newService builds, rebuilds and compares, and what the server fills in. */
module Services {
  import opened Api
  import opened Util

  const MASTER_PORT := 8080
  const AGENT_PORT := 50000

  function MasterAndAgent(master: int, agent: int): seq<Port>
  {
    [Port("master", "TCP", MASTER_PORT, master, MASTER_PORT), Port("agent", "TCP", AGENT_PORT, agent, AGENT_PORT)]
  }

  function Selector(id: Identity): Data
  {
    map["component" := id.uid]
  }

  /** The type the spec asks for, or the one already there. */
  function TypeFor(id: Identity, current: string): string
  {
    var service := id.spec.service;
    if service.Some? && service.value.serviceType != "" then service.value.serviceType else current
  }

  /** The specification of a service that does not exist yet. */
  function NewService(id: Identity): ServiceSpec
    requires id.spec.service.Some?
  {
    ServiceSpec(MasterAndAgent(id.spec.service.value.nodePort, 0), Selector(id), TypeFor(id, ""), "")
  }

  /** The specification an existing service is compared with and updated to. */
  function Rebuilt(service: ServiceSpec, id: Identity): ServiceSpec
  {
    service.(
      ports := MasterAndAgent(NodePortOf(service.ports, "master"), NodePortOf(service.ports, "agent")),
      selector := Selector(id),
      serviceType := TypeFor(id, service.serviceType))
  }

  /** One choice of the values the API server allocates or defaults. */
  datatype Fill = Fill(nodePorts: seq<int>, serviceType: string, rest: string)

  /** Server defaulting: only unset fields are filled. */
  function Filled(service: ServiceSpec, fill: Fill): (r: ServiceSpec)
    ensures |r.ports| == |service.ports| && r.selector == service.selector
    ensures forall i :: 0 <= i < |service.ports| ==>
              || r.ports[i] == service.ports[i]
              || (service.ports[i].nodePort == 0
                  && r.ports[i] == service.ports[i].(nodePort := r.ports[i].nodePort))
    ensures service.serviceType != "" ==> r.serviceType == service.serviceType
    ensures service.rest != "" ==> r.rest == service.rest
  {
    service.(
      ports := seq(|service.ports|, i requires 0 <= i < |service.ports| =>
        if service.ports[i].nodePort == 0 && i < |fill.nodePorts|
        then service.ports[i].(nodePort := fill.nodePorts[i]) else service.ports[i]),
      serviceType := if service.serviceType == "" then fill.serviceType else service.serviceType,
      rest := if service.rest == "" then fill.rest else service.rest)
  }

  /** A specification the reconciler would leave alone. */
  predicate Settled(service: ServiceSpec, id: Identity)
  {
    Rebuilt(service, id) == service
  }

  /** The rebuilt specification has exactly the master and agent ports, each with the node port of the first
      existing port of its name. */
  lemma RebuiltPorts(service: ServiceSpec, id: Identity)
    ensures var r := Rebuilt(service, id);
            && |r.ports| == 2
            && NodePortOf(r.ports, "master") == NodePortOf(service.ports, "master") == r.ports[0].nodePort
            && NodePortOf(r.ports, "agent") == NodePortOf(service.ports, "agent") == r.ports[1].nodePort
  {
    assert NodePortOf(Rebuilt(service, id).ports[1..], "agent") == Rebuilt(service, id).ports[1].nodePort;
  }

  /** Rebuilding is idempotent, also across whatever the server fills in between. */
  lemma RebuiltIsSettled(service: ServiceSpec, id: Identity, fill: Fill)
    ensures Settled(Rebuilt(service, id), id)
    ensures Settled(Filled(Rebuilt(service, id), fill), id)
  {
    TwoPortsSettled(Rebuilt(service, id), id);
    var r := Filled(Rebuilt(service, id), fill);
    assert r.ports == MasterAndAgent(r.ports[0].nodePort, r.ports[1].nodePort);
    TwoPortsSettled(r, id);
  }

  /** A service as created, with whatever the server fills in, is left alone from then on. */
  lemma NewServiceIsSettled(id: Identity, fill: Fill)
    requires id.spec.service.Some?
    ensures Settled(Filled(NewService(id), fill), id)
  {
    var r := Filled(NewService(id), fill);
    assert r.ports == MasterAndAgent(r.ports[0].nodePort, r.ports[1].nodePort);
    TwoPortsSettled(r, id);
  }

  lemma TwoPortsSettled(service: ServiceSpec, id: Identity)
    requires |service.ports| == 2
    requires service.ports == MasterAndAgent(service.ports[0].nodePort, service.ports[1].nodePort)
    requires service.selector == Selector(id)
    requires TypeFor(id, service.serviceType) == service.serviceType
    ensures Settled(service, id)
  {
    assert NodePortOf(service.ports[1..], "agent") == service.ports[1].nodePort;
  }

  /** An allocated node port survives an update and whatever the server fills in. */
  lemma NodePortKept(service: ServiceSpec, id: Identity, fill: Fill, name: string)
    requires name == "master" || name == "agent"
    requires NodePortOf(service.ports, name) != 0
    ensures NodePortOf(Filled(Rebuilt(service, id), fill).ports, name) == NodePortOf(service.ports, name)
  {
    RebuiltPorts(service, id);
    var r := Filled(Rebuilt(service, id), fill);
    assert r.ports == MasterAndAgent(r.ports[0].nodePort, r.ports[1].nodePort);
    assert NodePortOf(r.ports[1..], "agent") == r.ports[1].nodePort;
  }

  // ---- what a service says -----------------------------------------------------------------

  /** The two ports: the master on 8080 and the agents on 50000, over TCP, each to the same port of the pod. */
  ghost predicate HasTwoPorts(ports: seq<Port>)
  {
    && |ports| == 2
    && ports[0] == Port("master", "TCP", 8080, ports[0].nodePort, 8080)
    && ports[1] == Port("agent", "TCP", 50000, ports[1].nodePort, 50000)
  }

  lemma NodePortsByName(ports: seq<Port>)
    requires HasTwoPorts(ports)
    ensures NodePortOf(ports, "master") == ports[0].nodePort && NodePortOf(ports, "agent") == ports[1].nodePort
  {
    assert NodePortOf(ports[1..], "agent") == ports[1].nodePort;
  }

  /** A service as created: the asked node port is the master's, the agents ask for none, and the type is the one the
      spec asks for. */
  lemma NewServiceSays(id: Identity)
    requires id.spec.service.Some?
    ensures var service, asked := NewService(id), id.spec.service.value;
            && HasTwoPorts(service.ports)
            && NodePortOf(service.ports, "master") == asked.nodePort && NodePortOf(service.ports, "agent") == 0
            && service.selector == map["component" := id.uid]
            && service.serviceType == asked.serviceType
  {
    NodePortsByName(NewService(id).ports);
  }

  /** Whatever the server fills in, the created service answers on the node port that was asked for, and has the type
      that was asked for. */
  lemma FilledServiceSays(id: Identity, fill: Fill)
    requires id.spec.service.Some?
    ensures var service, asked := Filled(NewService(id), fill), id.spec.service.value;
            && HasTwoPorts(service.ports)
            && (asked.nodePort != 0 ==> NodePortOf(service.ports, "master") == asked.nodePort)
            && service.selector == map["component" := id.uid]
            && (asked.serviceType != "" ==> service.serviceType == asked.serviceType)
  {
    var service := Filled(NewService(id), fill);
    assert HasTwoPorts(service.ports);
    NodePortsByName(service.ports);
  }

  /** A service as updated, filled in or not: the two ports with the node ports of the existing ones, the asked type
      if one is asked for and else the existing one. */
  lemma RebuiltSays(service: ServiceSpec, id: Identity, fill: Fill)
    ensures var r, filled := Rebuilt(service, id), Filled(Rebuilt(service, id), fill);
            var asked := if id.spec.service.Some? then id.spec.service.value.serviceType else "";
            && HasTwoPorts(r.ports) && HasTwoPorts(filled.ports)
            && NodePortOf(r.ports, "master") == NodePortOf(service.ports, "master")
            && NodePortOf(r.ports, "agent") == NodePortOf(service.ports, "agent")
            && r.selector == filled.selector == map["component" := id.uid]
            && r.serviceType == (if asked != "" then asked else service.serviceType)
            && (r.serviceType != "" ==> filled.serviceType == r.serviceType)
            && r.rest == service.rest
  {
    NodePortsByName(Rebuilt(service, id).ports);
  }

  /** A service is left alone exactly when it has the two ports, selects the instance's pods, and has the type that is
      asked for, if one is: its node ports and what the server set are never a reason to update it. */
  lemma SettledExactly(service: ServiceSpec, id: Identity)
    ensures Settled(service, id) <==>
              && HasTwoPorts(service.ports)
              && service.selector == map["component" := id.uid]
              && (id.spec.service.Some? && id.spec.service.value.serviceType != "" ==>
                    service.serviceType == id.spec.service.value.serviceType)
  {
    if HasTwoPorts(service.ports) {
      NodePortsByName(service.ports);
    }
  }

  /** On every service the operator creates or updates, the endpoint's port for 8080 is the master node port. */
  lemma MasterEndpointPort(service: ServiceSpec, id: Identity)
    requires Settled(service, id)
    ensures forall p :: IsFirstPort(service.ports, 8080, p) <==> p == 0
    ensures service.ports[0].nodePort == NodePortOf(service.ports, "master")
  {
    assert service.ports == MasterAndAgent(service.ports[0].nodePort, service.ports[1].nodePort);
  }
}
