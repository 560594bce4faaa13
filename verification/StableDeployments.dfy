/** Deployments over every run in which only the operator touches them: once created they are never changed. */
module StableDeployments {
  import opened Api
  import opened Cluster
  import opened Protocol
  import opened Runs

  /** What is stored at `k` stays exactly as it is. */
  ghost predicate Stays(before: Store, after: Store, k: Key)
  {
    k in before.objs ==> k in after.objs && after.objs[k] == before.objs[k]
  }

  /** The operator's only request about a Deployment besides reading it creates it. */
  lemma DeploymentWriters(cfg: Config, req: Name, pc: Pc, call: Call)
    requires Issues(cfg, req, pc, call) && IsWrite(call) && call.key.kind == DeploymentKind
    ensures call.Create?
  {
    hide NewConfigMap, UpdatedConfigMap, NewClaim, IsNewDeployment, NewServiceObj, UpdatedService, ReadyInstance;
  }

  lemma StayStep(cfg: Config, s: Sys, e: Event, k: Key)
    requires Enabled(cfg, s, e) && k.kind == DeploymentKind
    requires e.Foreign? ==> SameAt(s.store, e.store, k)
    ensures Stays(s.store, Apply(cfg, s, e).store, k)
  {
    hide Issues, Resume, Written, Reply;
    if e.Act? && Lands(s.store, e.call, e.verdict) && e.call.key == k {
      DeploymentWriters(cfg, s.workers[e.w].req, s.workers[e.w].pc, e.call);
    }
  }

  /** Whatever is edited in the specs, an existing Deployment is never updated. */
  lemma {:induction false} DeploymentsNeverChange(cfg: Config, s: Sys, es: seq<Event>, i: nat, k: Key)
    requires i <= |es| && IsRun(cfg, s, es) && OnlyOperatorAt(cfg, s, es, k) && k.kind == DeploymentKind
    ensures Stays(End(cfg, s, es[..i]).store, End(cfg, s, es).store, k)
    decreases es
  {
    hide Apply, Enabled;
    if i == |es| {
      assert es[..i] == es;
    } else {
      var last := |es| - 1;
      OnlyOperatorPrefix(cfg, s, es, k);
      DeploymentsNeverChange(cfg, s, es[..last], i, k);
      assert es[..last][..i] == es[..i];
      StayStep(cfg, End(cfg, s, es[..last]), es[last], k);
    }
  }
}
