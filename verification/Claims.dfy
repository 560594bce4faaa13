/** The claim a Deployment names: it exists unless the reconcile that created the Deployment failed to read it. */
module Claims {
  import opened Basics
  import opened Api
  import opened PodBuilder
  import opened Services
  import opened Cluster
  import opened Protocol
  import opened Runs
  import opened Convergence
  import opened Idempotence
  import opened Staging

  /** The last read of the claim by the reconcile that worker `w` is on failed, other than by NotFound. */
  ghost predicate ClaimReadFailed(cfg: Config, s: Sys, es: seq<Event>, w: int)
  {
    if |es| == 0 then false
    else
      var last := |es| - 1;
      var mid, e := End(cfg, s, es[..last]), es[last];
      if e.Begin? && e.w == w then false
      else if e.Act? && e.w == w && w in mid.workers
              && mid.workers[w].pc.Deploying? && mid.workers[w].pc.deploy.DepClaim?
      then Reply(mid.store, e.call, e.verdict).Failed?
      else ClaimReadFailed(cfg, s, es[..last], w)
  }

  ghost predicate ClaimThere(store: Store, req: Name, id: Identity)
  {
    id.spec.storage.Some? ==> ClaimKey(req, id.spec.storage.value) in store.objs
  }

  /** newDeployment has dealt with the claim. */
  predicate BeyondClaim(pc: Pc)
  {
    pc.Deploying? && DeployStep(pc.deploy) >= 5
  }

  /** Every reconcile of `req` beyond its read of the claim has the claim, unless that read failed. */
  ghost predicate AllHaveClaim(cfg: Config, s0: Sys, es: seq<Event>, req: Name, id: Identity)
  {
    var s := End(cfg, s0, es);
    forall w | w in s.workers && s.workers[w].req == req && BeyondClaim(s.workers[w].pc) ::
      ClaimReadFailed(cfg, s0, es, w) || ClaimThere(s.store, req, id)
  }

  /** One response of newDeployment: it goes beyond the claim only if it was beyond, or the claim is there now, or
      the read of the claim failed. */
  lemma ClaimPoint(cfg: Config, s: Sys, e: Event, req: Name, id: Identity)
    requires Inv(cfg, s) && Closed(s) && Enabled(cfg, s, e) && e.Act? && TheInstance(s.known, req, id)
    requires s.workers[e.w].req == req && BeyondClaim(Apply(cfg, s, e).workers[e.w].pc)
    ensures var pc := s.workers[e.w].pc;
            || BeyondClaim(pc)
            || ClaimThere(Apply(cfg, s, e).store, req, id)
            || (pc.Deploying? && pc.deploy.DepClaim? && Reply(s.store, e.call, e.verdict).Failed?)
  {
    hide NewClaim, IsNewDeployment, NewServiceObj, UpdatedService, NewConfigMap, UpdatedConfigMap, ReadyInstance;
    hide Identities, Inv, MergedData, Settled, Filled;
    HeldIsTheInstance(cfg, s, e.w, req, id);
  }

  lemma ClaimStays(before: Store, after: Store, req: Name, id: Identity)
    requires ClaimThere(before, req, id) && Extends(before, after)
    ensures ClaimThere(after, req, id)
  {
  }

  lemma NoClaimReadYet(cfg: Config, s: Sys, req: Name, id: Identity)
    requires Initial(s)
    ensures AllHaveClaim(cfg, s, [], req, id)
  {
  }

  lemma {:induction false} RunHasClaims(cfg: Config, s: Sys, es: seq<Event>, req: Name, id: Identity)
    requires Inv(cfg, s) && Closed(s) && IsRun(cfg, s, es) && OnlyAdds(cfg, s, es)
    requires TheInstance(s.known, req, id) && AllHaveClaim(cfg, s, [], req, id)
    ensures AllHaveClaim(cfg, s, es, req, id)
  {
    if |es| == 0 {
      assert es == [];
    } else {
      hide Apply, Enabled, Inv, TheInstance, Closed, Extends, Identities, ClaimThere, BeyondClaim;
      var last := |es| - 1;
      var mid, s', e := End(cfg, s, es[..last]), End(cfg, s, es), es[last];
      OnlyAddsPrefix(cfg, s, es, last);
      RunHasClaims(cfg, s, es[..last], req, id);
      AddingRunStaysClosed(cfg, s, es[..last]);
      StepExtends(cfg, mid, e);
      forall w | w in s'.workers && s'.workers[w].req == req && BeyondClaim(s'.workers[w].pc)
        ensures ClaimReadFailed(cfg, s, es, w) || ClaimThere(s'.store, req, id)
      {
        WorkerBefore(cfg, mid, e, w);
        if e.Act? && e.w == w {
          ClaimPoint(cfg, mid, e, req, id);
        }
        if ClaimThere(mid.store, req, id) {
          ClaimStays(mid.store, s'.store, req, id);
        }
        NotAtClaim(mid.workers[w].pc);
      }
    }
  }

  /** A worker beyond its read of the claim was there before the step, for the same request. */
  lemma WorkerBefore(cfg: Config, s: Sys, e: Event, w: int)
    requires Enabled(cfg, s, e) && w in Apply(cfg, s, e).workers
    requires BeyondClaim(Apply(cfg, s, e).workers[w].pc)
    ensures w in s.workers && s.workers[w].req == Apply(cfg, s, e).workers[w].req
    ensures !(e.Begin? && e.w == w)
    ensures (e.Act? && e.w == w) || s.workers[w] == Apply(cfg, s, e).workers[w]
  {
    hide Issues, Resume, StoreAfter, Record, Reply, DeployStep;
  }

  lemma NotAtClaim(pc: Pc)
    ensures BeyondClaim(pc) ==> pc.Deploying? && !pc.deploy.DepClaim?
  {
  }

  /** The only claim a pod names is the one its spec says. */
  lemma PodClaims(cfg: Config, req: Name, inst: Instance, groovy: set<string>, casc: set<string>, obj: Obj)
    requires IsNewDeployment(cfg, req, inst, groovy, casc, obj)
    ensures forall i :: 0 <= i < |obj.body.pod.volumes| && obj.body.pod.volumes[i].source.FromClaim? ==>
              && inst.body.spec.storage.Some?
              && obj.body.pod.volumes[i].source.claim == ClaimName(req.name, inst.body.spec.storage.value)
  {
    hide EnvList, Mounts;
    var envOrder, groovyOrder, cascOrder :|
      && Enumerates(envOrder, inst.body.spec.env.Keys)
      && Enumerates(groovyOrder, groovy)
      && Enumerates(cascOrder, casc)
      && obj.body.pod == PodFrom(cfg.jvmEnvironment, req.name, inst, envOrder, groovyOrder, cascOrder);
  }

  ghost predicate ClaimsResolved(store: Store, ns: string, pod: Pod)
  {
    forall i :: 0 <= i < |pod.volumes| && pod.volumes[i].source.FromClaim? ==>
      Key(ClaimKind, ns, pod.volumes[i].source.claim) in store.objs
  }

  /** Event `i` creates a Deployment for `req`. */
  ghost predicate CreatesDeploymentAt(cfg: Config, s: Sys, es: seq<Event>, i: nat, req: Name)
    requires i < |es|
  {
    var mid, e := End(cfg, s, es[..i]), es[i];
    && e.Act? && Lands(mid.store, e.call, e.verdict) && e.call.key.kind == DeploymentKind
    && e.w in mid.workers && mid.workers[e.w].req == req
  }

  /** The claim a created Deployment names exists, from its creation to the end of the run, unless the reconcile that
      created it failed to read the claim. */
  lemma DeploymentsHaveClaims(cfg: Config, s: Sys, es: seq<Event>, i: nat, req: Name, id: Identity)
    requires Inv(cfg, s) && Closed(s) && IsRun(cfg, s, es) && OnlyAdds(cfg, s, es)
    requires TheInstance(s.known, req, id) && AllHaveClaim(cfg, s, [], req, id)
    requires i < |es| && CreatesDeploymentAt(cfg, s, es, i, req)
    requires !ClaimReadFailed(cfg, s, es[..i], es[i].w)
    ensures es[i].call.Create? && es[i].call.obj.body.DeploymentBody?
    ensures ClaimsResolved(End(cfg, s, es).store, req.ns, es[i].call.obj.body.pod)
  {
    hide End, Inv, TheInstance, Closed, Extends, Identities, ClaimThere, IsRun, ClaimReadFailed, OnlyAdds;
    var mid := End(cfg, s, es[..i]);
    OnlyAddsPrefix(cfg, s, es, i);
    RunPrefix(cfg, s, es, i);
    RunHasClaims(cfg, s, es[..i], req, id);
    AddingRunStaysClosed(cfg, s, es[..i]);
    RunEnabledAt(cfg, s, es, i);
    assert es[..i] + [es[i]] == es[..i + 1];
    CreationHasClaim(cfg, mid, es[i], req, id);
    RunExtendsFrom(cfg, s, es, i);
    ClaimsStay(mid.store, End(cfg, s, es).store, req.ns, es[i].call.obj.body.pod);
  }

  lemma ClaimsStay(before: Store, after: Store, ns: string, pod: Pod)
    requires ClaimsResolved(before, ns, pod) && Extends(before, after)
    ensures ClaimsResolved(after, ns, pod)
  {
  }

  lemma CreationHasClaim(cfg: Config, s: Sys, e: Event, req: Name, id: Identity)
    requires Inv(cfg, s) && Closed(s) && Enabled(cfg, s, e) && e.Act? && TheInstance(s.known, req, id)
    requires s.workers[e.w].req == req && Lands(s.store, e.call, e.verdict) && e.call.key.kind == DeploymentKind
    requires BeyondClaim(s.workers[e.w].pc) ==> ClaimThere(s.store, req, id)
    ensures e.call.Create? && e.call.obj.body.DeploymentBody?
    ensures ClaimsResolved(s.store, req.ns, e.call.obj.body.pod)
  {
    hide NewClaim, NewServiceObj, UpdatedService, NewConfigMap, UpdatedConfigMap, ReadyInstance, IsPodFor;
    hide Identities, Inv;
    HeldIsTheInstance(cfg, s, e.w, req, id);
    var deploy := s.workers[e.w].pc.deploy;
    PodClaims(cfg, req, deploy.inst, deploy.groovy, deploy.casc, e.call.obj);
  }

  /** A reconcile without a failed request has not failed to read the claim. */
  lemma {:induction false} CleanHasRead(cfg: Config, s: Sys, es: seq<Event>, w: int)
    requires IsRun(cfg, s, es) && w in End(cfg, s, es).workers && End(cfg, s, es).workers[w].clean
    ensures !ClaimReadFailed(cfg, s, es, w)
  {
    hide Issues, Resume, StoreAfter, Record, Reply;
    if |es| > 0 {
      var last := |es| - 1;
      var mid, e := End(cfg, s, es[..last]), es[last];
      if !(e.Begin? && e.w == w) {
        CleanHasRead(cfg, s, es[..last], w);
      }
    }
  }
}
