/** The node ports of a service over every run in which only the operator and server allocation touch it. */
module StablePorts {
  import opened Api
  import opened Util
  import opened Services
  import opened Cluster
  import opened Protocol
  import opened Runs

  /** An allocated port of this name is still allocated the same. */
  ghost predicate PortStays(before: Store, after: Store, k: Key, name: string)
  {
    k in before.objs && before.objs[k].body.ServiceBody? && NodePortOf(before.objs[k].body.service.ports, name) != 0 ==>
      && k in after.objs && after.objs[k].body.ServiceBody?
      && NodePortOf(after.objs[k].body.service.ports, name) == NodePortOf(before.objs[k].body.service.ports, name)
  }

  /** The only write that replaces a service is the rebuilt specification of the snapshot it was read from. */
  lemma ServiceWrite(cfg: Config, s: Sys, e: Event, k: Key)
    requires Inv(cfg, s) && Enabled(cfg, s, e) && e.Act? && Lands(s.store, e.call, e.verdict)
    requires e.call.key == k && k.kind == ServiceKind && k in s.store.objs
    ensures var pc := s.workers[e.w].pc;
            && s.store.objs[k].body.ServiceBody?
            && pc.Serving? && pc.serve.SvcUpdate?
            && Written(s.store, e.call, e.fill).body ==
               ServiceBody(Filled(Rebuilt(s.store.objs[k].body.service, Identify(pc.serve.inst)), e.fill))
  {
    hide UpdatedConfigMap, NewConfigMap, NewServiceObj, NewClaim, IsNewDeployment, MergedData, Settled, Rebuilt, Filled;
    assert WorkerInv(cfg, s.store, s.known, s.workers[e.w].req, s.workers[e.w].pc);
  }

  lemma PortStep(cfg: Config, s: Sys, e: Event, k: Key, name: string)
    requires Inv(cfg, s) && Enabled(cfg, s, e)
    requires k.kind == ServiceKind && (name == "master" || name == "agent")
    requires e.Foreign? ==> SameAt(s.store, e.store, k)
    ensures PortStays(s.store, Apply(cfg, s, e).store, k, name)
  {
    hide Issues, Resume, Written, NodePortOf, Rebuilt, Filled, Reply;
    if e.Act? && Lands(s.store, e.call, e.verdict) && e.call.key == k && k in s.store.objs {
      ServiceWrite(cfg, s, e, k);
      if NodePortOf(s.store.objs[k].body.service.ports, name) != 0 {
        NodePortKept(s.store.objs[k].body.service, Identify(s.workers[e.w].pc.serve.inst), e.fill, name);
      }
    }
  }

  /** Once allocated, a master or agent node port never changes, whatever is edited in the spec. */
  lemma {:induction false} NodePortsNeverChange(cfg: Config, s: Sys, es: seq<Event>, i: nat, k: Key, name: string)
    requires Initial(s) && i <= |es| && IsRun(cfg, s, es) && OnlyOperatorAt(cfg, s, es, k)
    requires k.kind == ServiceKind && (name == "master" || name == "agent")
    ensures PortStays(End(cfg, s, es[..i]).store, End(cfg, s, es).store, k, name)
    decreases es
  {
    hide Apply, Enabled, Inv;
    if i == |es| {
      assert es[..i] == es;
    } else {
      var last := |es| - 1;
      OnlyOperatorPrefix(cfg, s, es, k);
      NodePortsNeverChange(cfg, s, es[..last], i, k, name);
      assert es[..last][..i] == es[..i];
      InvOfRun(cfg, s, es[..last]);
      PortStep(cfg, End(cfg, s, es[..last]), es[last], k, name);
    }
  }
}
