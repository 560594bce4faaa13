/** Staged construction and referential integrity, while other clients take nothing away: what exists in every
    reachable state, and what every Deployment created refers to. */
module Staging {
  import opened Basics
  import opened Api
  import opened PodBuilder
  import opened Services
  import opened Cluster
  import opened Protocol
  import opened Runs
  import opened Ownership
  import opened Convergence
  import opened Idempotence

  // ---- operator steps only add -------------------------------------------------------------

  /** Nothing is lost: objects stay, with their kind and controller; ConfigMaps and Secrets keep their keys. */
  ghost predicate Extends(before: Store, after: Store)
  {
    forall k :: k in before.objs ==>
      && k in after.objs
      && after.objs[k].meta.controller == before.objs[k].meta.controller
      && after.objs[k].body.Kind() == before.objs[k].body.Kind()
      && (before.objs[k].body.ConfigMapBody? ==> before.objs[k].body.data.Keys <= after.objs[k].body.data.Keys)
      && (before.objs[k].body.SecretBody? ==>
            before.objs[k].body.secret.Keys <= after.objs[k].body.secret.Keys)
  }

  lemma ExtendsItself(store: Store)
    ensures Extends(store, store)
  {
  }

  lemma ExtendsCompose(a: Store, b: Store, c: Store)
    requires Extends(a, b) && Extends(b, c)
    ensures Extends(a, c)
  {
    forall k | k in a.objs
      ensures k in b.objs && k in c.objs && c.objs[k].body.Kind() == b.objs[k].body.Kind() == a.objs[k].body.Kind()
    {
    }
  }

  /** No client but the operator takes anything away or edits an instance; all may add. */
  ghost predicate OnlyAdds(cfg: Config, s: Sys, es: seq<Event>)
  {
    forall i :: 0 <= i < |es| && es[i].Foreign? ==>
      && Extends(End(cfg, s, es[..i]).store, es[i].store)
      && Identities(es[i].store) == Identities(End(cfg, s, es[..i]).store)
  }

  lemma OnlyAddsPrefix(cfg: Config, s: Sys, es: seq<Event>, i: nat)
    requires OnlyAdds(cfg, s, es) && i <= |es|
    ensures OnlyAdds(cfg, s, es[..i])
  {
    hide Extends, Identities;
    forall j | 0 <= j < i && es[..i][j].Foreign?
      ensures Extends(End(cfg, s, es[..i][..j]).store, es[..i][j].store)
      ensures Identities(es[..i][j].store) == Identities(End(cfg, s, es[..i][..j]).store)
    {
      assert es[..i][..j] == es[..j];
    }
  }

  lemma OperatorOnlyAdds(cfg: Config, s: Sys, es: seq<Event>)
    requires OperatorOnly(es)
    ensures OnlyAdds(cfg, s, es)
  {
    hide Extends, Identities;
  }

  /** The invariant of runs that only add, at every point of them. */
  lemma AddingRunStaysClosed(cfg: Config, s: Sys, es: seq<Event>)
    requires Inv(cfg, s) && Closed(s) && IsRun(cfg, s, es) && OnlyAdds(cfg, s, es)
    ensures Inv(cfg, End(cfg, s, es)) && Closed(End(cfg, s, es)) && End(cfg, s, es).known == s.known
  {
    hide IsRun, End, Identities, Extends;
    RunKeepsInv(cfg, s, es);
    RunStaysClosed(cfg, s, es);
  }

  lemma WriteExtends(cfg: Config, s: Sys, e: Event)
    requires Writes(cfg, s, e)
    ensures Extends(s.store, StoreAfter(s.store, e.call, e.fill, e.verdict))
  {
    hide Issues, Inv, Closed, Written;
    WriteIsOwned(cfg, s, e);
    if e.call.key in s.store.objs {
      WriteKeepsContents(cfg, s, e);
    }
  }

  /** A write that replaces an object keeps its kind and its keys, and never replaces a Secret. */
  lemma WriteKeepsContents(cfg: Config, s: Sys, e: Event)
    requires Writes(cfg, s, e) && e.call.key in s.store.objs
    ensures var before, after := s.store.objs[e.call.key], Written(s.store, e.call, e.fill);
            && after.body.Kind() == before.body.Kind()
            && (before.body.ConfigMapBody? ==> before.body.data.Keys <= after.body.data.Keys)
            && !before.body.SecretBody?
  {
    hide StringData, Filled, Rebuilt, Labels, Identities, NewServiceObj, NewConfigMap, NewClaim, IsNewDeployment;
    hide Settled;
    var worker := s.workers[e.w];
    assert WorkerInv(cfg, s.store, s.known, worker.req, worker.pc);
  }

  // ---- what the stages leave behind --------------------------------------------------------

  ghost predicate Has(store: Store, k: Key, uid: string)
  {
    k in store.objs && store.objs[k].meta.controller == Some(uid) && store.objs[k].body.Kind() == k.kind
  }

  /** The setup ConfigMap is there, the instance's own, with every key its data is built with. */
  ghost predicate SetupReady(cfg: Config, store: Store, req: Name, id: Identity)
  {
    var k := ConfigMapKey(req);
    && Has(store, k, id.uid)
    && id.spec.cascConfig.Some?
    && StringData(cfg, id.spec).Keys <= store.objs[k].body.data.Keys
  }

  /** How far newDeployment has got. */
  function DeployStep(deploy: DeployPc): nat
  {
    match deploy
    case DepInstance => 0
    case DepGet(_) => 1
    case DepAccount(_, _) => 2
    case DepClaim(_, _) => 3
    case DepClaimCreate(_, _) => 4
    case DepCascSecret(_, _) => 5
    case DepGroovy(_, _) => 6
    case DepCasc(_, _, _) => 7
    case DepCreate(_, _, _) => 8
  }

  ghost predicate CascSecretFound(store: Store, ns: string, spec: Spec)
  {
    spec.cascSecret != "" ==> SecretHas(store, Key(SecretKind, ns, spec.cascSecret), {})
  }

  ghost predicate GroovyFound(store: Store, ns: string, spec: Spec, groovy: set<string>)
  {
    spec.groovySecret != "" ==> SecretHas(store, Key(SecretKind, ns, spec.groovySecret), groovy)
  }

  ghost predicate CascFound(store: Store, ns: string, spec: Spec, casc: set<string>)
  {
    spec.cascConfig.Some? && spec.cascConfig.value.configMap != "" ==>
      ConfigMapHas(store, Key(ConfigMapKind, ns, spec.cascConfig.value.configMap), casc)
  }

  ghost predicate SecretHas(store: Store, k: Key, keys: set<string>)
  {
    k in store.objs && store.objs[k].body.SecretBody? && keys <= store.objs[k].body.secret.Keys
  }

  ghost predicate ConfigMapHas(store: Store, k: Key, keys: set<string>)
  {
    k in store.objs && store.objs[k].body.ConfigMapBody? && keys <= store.objs[k].body.data.Keys
  }

  /** What newDeployment has verified when it is at `deploy`. */
  ghost predicate Verified(store: Store, ns: string, spec: Spec, deploy: DeployPc)
  {
    && (DeployStep(deploy) >= 3 ==> AccountThere(store, ns, spec))
    && (DeployStep(deploy) >= 6 ==> CascSecretFound(store, ns, spec))
    && (deploy.DepCasc? ==>
          && GroovyFound(store, ns, spec, deploy.groovy)
          && spec.cascConfig.Some? && spec.cascConfig.value.configMap != "")
    && (deploy.DepCreate? ==>
          && GroovyFound(store, ns, spec, deploy.groovy)
          && CascFound(store, ns, spec, deploy.casc)
          && CascSpecified(spec))
  }

  predicate DeploymentSeen(pc: Pc)
  {
    || (pc.Deploying? && DeployStep(pc.deploy) >= 2 && !pc.deploy.DepCreate? && pc.deploy.present)
    || pc.Serving? || pc.Reporting? || pc == Ended(Synced)
  }

  predicate ServiceSeen(pc: Pc)
  {
    (pc.Reporting? && !pc.report.StInstance? && !pc.report.StService?) || pc == Ended(Synced)
  }

  /** What is in the store when a reconcile of `req` is at `pc`, whatever failed before. */
  ghost predicate Behind(cfg: Config, store: Store, req: Name, id: Identity, pc: Pc)
  {
    && (PastSetup(pc) ==> SetupReady(cfg, store, req, id))
    && (pc.Deploying? ==> Verified(store, req.ns, id.spec, pc.deploy))
    && (DeploymentSeen(pc) ==> Has(store, DeploymentKey(req), id.uid))
    && (ServiceSeen(pc) ==> ServiceKey(req, id.spec) in store.objs)
  }

  lemma BehindExtends(cfg: Config, before: Store, after: Store, req: Name, id: Identity, pc: Pc)
    requires Behind(cfg, before, req, id, pc) && Extends(before, after)
    ensures Behind(cfg, after, req, id, pc)
  {
    hide StringData;
  }

  /** A request of a worker of `req` in a closed state. */
  ghost predicate Requests(cfg: Config, s: Sys, e: Event, req: Name, id: Identity)
  {
    && Inv(cfg, s) && Closed(s) && Enabled(cfg, s, e) && e.Act?
    && TheInstance(s.known, req, id) && s.workers[e.w].req == req
    && Behind(cfg, s.store, req, id, s.workers[e.w].pc)
  }

  lemma SetupReadLeavesBehind(cfg: Config, s: Sys, e: Event, req: Name, id: Identity)
    requires Requests(cfg, s, e, req, id) && s.workers[e.w].pc.Setup?
    requires s.workers[e.w].pc.setup.CmInstance? || s.workers[e.w].pc.setup.CmGet?
    ensures var after := StoreAfter(s.store, e.call, e.fill, e.verdict);
            Behind(cfg, after, req, id, ResumeSetup(cfg, s.workers[e.w].pc.setup, Reply(s.store, e.call, e.verdict)))
  {
    hide StringData, Identities, Verified, Acts, Inv;
    HeldIsTheInstance(cfg, s, e.w, req, id);
    FreshIsVerified(s.store, req.ns, id.spec);
  }

  lemma SetupWriteLeavesBehind(cfg: Config, s: Sys, e: Event, req: Name, id: Identity)
    requires Requests(cfg, s, e, req, id) && s.workers[e.w].pc.Setup?
    requires s.workers[e.w].pc.setup.CmCreate? || s.workers[e.w].pc.setup.CmUpdate?
    ensures var after := StoreAfter(s.store, e.call, e.fill, e.verdict);
            Behind(cfg, after, req, id, ResumeSetup(cfg, s.workers[e.w].pc.setup, Reply(s.store, e.call, e.verdict)))
  {
    hide StringData, Identities, Verified, Labels, NewClaim, IsNewDeployment, NewServiceObj, UpdatedService;
    HeldIsTheInstance(cfg, s, e.w, req, id);
    assert WorkerInv(cfg, s.store, s.known, req, s.workers[e.w].pc);
    FreshIsVerified(StoreAfter(s.store, e.call, e.fill, e.verdict), req.ns, id.spec);
  }

  /** A program point of newDeployment is reached with all verified that lies before it. */
  ghost predicate Onward(store: Store, ns: string, spec: Spec, present: bool, pc: Pc)
  {
    && (pc.Deploying? ==> Verified(store, ns, spec, pc.deploy))
    && (DeploymentSeen(pc) ==> present)
  }

  lemma CascOnward(store: Store, ns: string, inst: Instance, present: bool, groovy: set<string>)
    requires var spec := inst.body.spec;
             AccountThere(store, ns, spec) && CascSecretFound(store, ns, spec) && GroovyFound(store, ns, spec, groovy)
    ensures Onward(store, ns, inst.body.spec, present, ToCasc(inst, present, groovy))
    ensures CascSpecified(inst.body.spec) ==> forall casc :: CascFound(store, ns, inst.body.spec, casc) ==>
              Onward(store, ns, inst.body.spec, present, ToDeploy(inst, present, groovy, casc))
  {
  }

  lemma CascSecretOnward(store: Store, ns: string, inst: Instance, present: bool)
    requires AccountThere(store, ns, inst.body.spec)
    ensures Onward(store, ns, inst.body.spec, present, ToCascSecret(inst, present))
    ensures CascSecretFound(store, ns, inst.body.spec) ==>
              Onward(store, ns, inst.body.spec, present, ToGroovy(inst, present))
  {
    hide ToCasc, AccountThere;
    if CascSecretFound(store, ns, inst.body.spec) && inst.body.spec.groovySecret == "" {
      CascOnward(store, ns, inst, present, {});
    }
  }

  lemma AccountOnward(store: Store, ns: string, inst: Instance, present: bool)
    ensures Onward(store, ns, inst.body.spec, present, ToAccount(inst, present))
    ensures AccountThere(store, ns, inst.body.spec) ==>
              Onward(store, ns, inst.body.spec, present, ToClaim(inst, present))
  {
    hide ToCascSecret;
    if AccountThere(store, ns, inst.body.spec) {
      CascSecretOnward(store, ns, inst, present);
    }
  }

  lemma ClaimCreateOnward(store: Store, ns: string, inst: Instance, present: bool)
    requires AccountThere(store, ns, inst.body.spec)
    ensures Onward(store, ns, inst.body.spec, present, Deploying(DepClaimCreate(inst, present)))
  {
  }

  lemma FailOnward(store: Store, ns: string, spec: Spec)
    ensures forall present :: Onward(store, ns, spec, present, FAIL)
  {
  }

  /** One response of newDeployment, in the store as it is afterwards. */
  lemma DeployReplyOnward(store: Store, after: Store, req: Name, deploy: DeployPc, r: Response)
    requires !deploy.DepInstance? && !deploy.DepCreate?
    requires Verified(store, req.ns, deploy.inst.body.spec, deploy) && Extends(store, after)
    requires r.Found? ==> DeployReads(req, deploy).Some? && DeployReads(req, deploy).value in store.objs
                          && store.objs[DeployReads(req, deploy).value] == r.obj
    ensures var present :=
              if deploy.DepGet? then r.Found? && IsControlledBy(r.obj, deploy.inst) && IsDeployment(r)
              else deploy.present;
            Onward(after, req.ns, deploy.inst.body.spec, present, ResumeDeployment(deploy, r))
  {
    hide ToAccount, ToClaim, ToCascSecret, ToGroovy, ToCasc, ToDeploy;
    hide Onward;
    FailOnward(after, req.ns, deploy.inst.body.spec);
    var inst := deploy.inst;
    match deploy
    case DepGet(_) =>
      AccountOnward(after, req.ns, inst, true);
      AccountOnward(after, req.ns, inst, false);
    case DepAccount(_, present) => AccountOnward(after, req.ns, inst, present);
    case DepClaim(_, present) =>
      CascSecretOnward(after, req.ns, inst, present);
      ClaimCreateOnward(after, req.ns, inst, present);
    case DepClaimCreate(_, present) => CascSecretOnward(after, req.ns, inst, present);
    case DepCascSecret(_, present) => CascSecretOnward(after, req.ns, inst, present);
    case DepGroovy(_, present) =>
      if IsSecret(r) {
        CascOnward(after, req.ns, inst, present, r.obj.body.secret.Keys);
      }
    case DepCasc(_, present, groovy) => CascOnward(after, req.ns, inst, present, groovy);
  }

  lemma DeploymentBegins(cfg: Config, s: Sys, e: Event, req: Name, id: Identity)
    requires Requests(cfg, s, e, req, id) && s.workers[e.w].pc == Deploying(DepInstance)
    ensures var after := StoreAfter(s.store, e.call, e.fill, e.verdict);
            Behind(cfg, after, req, id, ResumeDeployment(DepInstance, Reply(s.store, e.call, e.verdict)))
  {
    hide Identities, Inv, SetupReady, Written, Verified, Acts;
    FreshIsVerified(s.store, req.ns, id.spec);
  }

  lemma DeploymentIsCreated(cfg: Config, s: Sys, e: Event, req: Name, id: Identity)
    requires Requests(cfg, s, e, req, id) && s.workers[e.w].pc.Deploying? && s.workers[e.w].pc.deploy.DepCreate?
    ensures var after := StoreAfter(s.store, e.call, e.fill, e.verdict);
            Behind(cfg, after, req, id, ResumeDeployment(s.workers[e.w].pc.deploy, Reply(s.store, e.call, e.verdict)))
  {
    hide Identities, Inv, SetupReady, Written, Verified, Issues, Reply, StoreAfter, Has, Extends;
    HeldIsTheInstance(cfg, s, e.w, req, id);
    RequestExtends(cfg, s, e);
    BehindExtends(cfg, s.store, StoreAfter(s.store, e.call, e.fill, e.verdict), req, id, s.workers[e.w].pc);
    CreatedIsThere(cfg, s, e, req);
  }

  lemma DeploymentLeavesBehind(cfg: Config, s: Sys, e: Event, req: Name, id: Identity)
    requires Requests(cfg, s, e, req, id) && s.workers[e.w].pc.Deploying?
    requires !s.workers[e.w].pc.deploy.DepInstance? && !s.workers[e.w].pc.deploy.DepCreate?
    ensures var after := StoreAfter(s.store, e.call, e.fill, e.verdict);
            Behind(cfg, after, req, id, ResumeDeployment(s.workers[e.w].pc.deploy, Reply(s.store, e.call, e.verdict)))
  {
    hide NewClaim, IsNewDeployment, NewServiceObj, UpdatedService, NewConfigMap, UpdatedConfigMap, ReadyInstance;
    hide Identities, Inv, SetupReady, Written, Verified, StoreAfter, Extends;
    hide ToAccount, ToClaim, ToCascSecret, ToGroovy, ToCasc, ToDeploy;
    HeldIsTheInstance(cfg, s, e.w, req, id);
    var after := StoreAfter(s.store, e.call, e.fill, e.verdict);
    RequestExtends(cfg, s, e);
    BehindExtends(cfg, s.store, after, req, id, s.workers[e.w].pc);
    HasExtends(s.store, after, DeploymentKey(req), id.uid);
    DeployReplyOnward(s.store, after, req, s.workers[e.w].pc.deploy, Reply(s.store, e.call, e.verdict));
  }

  lemma HasExtends(before: Store, after: Store, k: Key, uid: string)
    requires Extends(before, after)
    ensures Has(before, k, uid) ==> Has(after, k, uid)
  {
  }

  lemma RequestExtends(cfg: Config, s: Sys, e: Event)
    requires Inv(cfg, s) && Closed(s) && Enabled(cfg, s, e) && e.Act?
    ensures Extends(s.store, StoreAfter(s.store, e.call, e.fill, e.verdict))
  {
    hide Written, Accepts, Inv, Issues, Closed;
    if Lands(s.store, e.call, e.verdict) {
      WriteExtends(cfg, s, e);
    } else {
      ExtendsItself(s.store);
    }
  }

  lemma FreshIsVerified(store: Store, ns: string, spec: Spec)
    ensures forall inst :: Verified(store, ns, spec, DepGet(inst))
    ensures Verified(store, ns, spec, DepInstance)
  {
  }

  lemma CreatedIsThere(cfg: Config, s: Sys, e: Event, req: Name)
    requires Enabled(cfg, s, e) && e.Act? && s.workers[e.w].req == req
    requires s.workers[e.w].pc.Deploying? && s.workers[e.w].pc.deploy.DepCreate?
    ensures Reply(s.store, e.call, e.verdict).Done? ==>
              Has(StoreAfter(s.store, e.call, e.fill, e.verdict), DeploymentKey(req),
                  s.workers[e.w].pc.deploy.inst.meta.uid)
  {
  }

  lemma ServiceLeavesBehind(cfg: Config, s: Sys, e: Event, req: Name, id: Identity)
    requires Requests(cfg, s, e, req, id) && s.workers[e.w].pc.Serving?
    ensures var after := StoreAfter(s.store, e.call, e.fill, e.verdict);
            Behind(cfg, after, req, id, ResumeService(s.workers[e.w].pc.serve, Reply(s.store, e.call, e.verdict)))
  {
    hide NewServiceObj, UpdatedService, Identities, Inv, Settled, Filled, Verified, SetupReady, Written;
    HeldIsTheInstance(cfg, s, e.w, req, id);
    if Lands(s.store, e.call, e.verdict) {
      WriteExtends(cfg, s, e);
      BehindExtends(cfg, s.store, StoreAfter(s.store, e.call, e.fill, e.verdict), req, id, s.workers[e.w].pc);
    }
  }

  lemma OthersLeaveBehind(cfg: Config, s: Sys, e: Event, req: Name, id: Identity)
    requires Requests(cfg, s, e, req, id)
    requires s.workers[e.w].pc.Reporting? || s.workers[e.w].pc.Restarting? || s.workers[e.w].pc.Gate?
    ensures var after := StoreAfter(s.store, e.call, e.fill, e.verdict);
            Behind(cfg, after, req, id, Resume(cfg, s.workers[e.w].pc, Reply(s.store, e.call, e.verdict)))
  {
    hide Identities, Inv, SetupReady, Written, AccountThere, CascSecretFound, GroovyFound, CascFound;
    HeldIsTheInstance(cfg, s, e.w, req, id);
    if Lands(s.store, e.call, e.verdict) {
      WriteExtends(cfg, s, e);
      BehindExtends(cfg, s.store, StoreAfter(s.store, e.call, e.fill, e.verdict), req, id, s.workers[e.w].pc);
    }
  }

  lemma RequestLeavesBehind(cfg: Config, s: Sys, e: Event, req: Name, id: Identity)
    requires Requests(cfg, s, e, req, id)
    ensures var after := StoreAfter(s.store, e.call, e.fill, e.verdict);
            Behind(cfg, after, req, id, Resume(cfg, s.workers[e.w].pc, Reply(s.store, e.call, e.verdict)))
  {
    hide Behind, Inv, Issues, StoreAfter, Reply, ResumeGate, ResumeSetup, ResumeRestart, ResumeDeployment,
         ResumeService, ResumeStatus;
    match s.workers[e.w].pc
    case Setup(setup) =>
      if setup.CmInstance? || setup.CmGet? {
        SetupReadLeavesBehind(cfg, s, e, req, id);
      } else {
        SetupWriteLeavesBehind(cfg, s, e, req, id);
      }
    case Deploying(deploy) =>
      if deploy.DepInstance? {
        DeploymentBegins(cfg, s, e, req, id);
      } else if deploy.DepCreate? {
        DeploymentIsCreated(cfg, s, e, req, id);
      } else {
        DeploymentLeavesBehind(cfg, s, e, req, id);
      }
    case Serving(_) => ServiceLeavesBehind(cfg, s, e, req, id);
    case Ended(_) => EndedIsSilent(cfg, s, e);
    case _ => OthersLeaveBehind(cfg, s, e, req, id);
  }

  /** Every reconcile of `req` has behind it what its program point says. */
  ghost predicate AllBehind(cfg: Config, s: Sys, req: Name, id: Identity)
  {
    forall w :: w in s.workers && s.workers[w].req == req ==> Behind(cfg, s.store, req, id, s.workers[w].pc)
  }

  lemma BehindStep(cfg: Config, s: Sys, e: Event, req: Name, id: Identity)
    requires Inv(cfg, s) && Closed(s) && Enabled(cfg, s, e) && TheInstance(s.known, req, id)
    requires e.Foreign? ==> Extends(s.store, e.store)
    requires AllBehind(cfg, s, req, id)
    ensures AllBehind(cfg, Apply(cfg, s, e), req, id)
    ensures Extends(s.store, Apply(cfg, s, e).store)
  {
    hide Behind, StoreAfter, Reply, Inv, Issues, TheInstance, Resume, Extends;
    var s' := Apply(cfg, s, e);
    StepExtends(cfg, s, e);
    forall w | w in s'.workers && s'.workers[w].req == req
      ensures Behind(cfg, s'.store, req, id, s'.workers[w].pc)
    {
      if e.Act? && w == e.w {
        RequestLeavesBehind(cfg, s, e, req, id);
      } else if e.Begin? && w == e.w {
        FreshLeavesBehind(cfg, s.store, req, id);
      } else {
        BehindExtends(cfg, s.store, s'.store, req, id, s.workers[w].pc);
      }
    }
  }

  lemma StepExtends(cfg: Config, s: Sys, e: Event)
    requires Inv(cfg, s) && Closed(s) && Enabled(cfg, s, e)
    requires e.Foreign? ==> Extends(s.store, e.store)
    ensures Extends(s.store, Apply(cfg, s, e).store)
  {
    hide Inv, Issues, Resume, Reply, StoreAfter, Closed, Extends;
    if e.Act? {
      RequestExtends(cfg, s, e);
    } else {
      ExtendsItself(s.store);
    }
  }

  lemma FreshLeavesBehind(cfg: Config, store: Store, req: Name, id: Identity)
    ensures Behind(cfg, store, req, id, Gate(GateInstance))
  {
  }

  // ---- staged construction -----------------------------------------------------------------

  /** No other instance's service has the name of this one's. */
  ghost predicate ServiceNotShared(known: set<(Name, Identity)>, req: Name, id: Identity)
  {
    forall n, i :: (n, i) in known && n != req ==> ServiceKey(n, i.spec) != ServiceKey(req, id.spec)
  }

  predicate IsReady(store: Store, req: Name)
  {
    InstanceKey(req) in store.objs && store.objs[InstanceKey(req)].body.InstanceBody?
    && store.objs[InstanceKey(req)].body.phase == READY
  }

  /** The setup ConfigMap and the Deployment are the instance's own; each object presupposes the one before it, for
      the service if it is the instance's own; and Ready presupposes all. */
  ghost predicate Staged(store: Store, req: Name, id: Identity)
  {
    var cm, dep, svc := ConfigMapKey(req), DeploymentKey(req), ServiceKey(req, id.spec);
    && (cm in store.objs ==> Has(store, cm, id.uid) && PLUGINS_TXT in store.objs[cm].body.data)
    && (dep in store.objs ==> Has(store, dep, id.uid) && cm in store.objs)
    && (svc in store.objs && store.objs[svc].meta.controller == Some(id.uid) ==> dep in store.objs)
    && (IsReady(store, req) ==> svc in store.objs && dep in store.objs)
  }

  /** Where the service is, it is the instance's own. */
  ghost predicate OwnsService(store: Store, req: Name, id: Identity)
  {
    ServiceKey(req, id.spec) in store.objs ==> Has(store, ServiceKey(req, id.spec), id.uid)
  }

  /** What an object that appears at one of the three keys presupposes is there, and it is this instance's: a service
      if no other instance's has its name. */
  lemma CreationIsStaged(cfg: Config, s: Sys, e: Event, req: Name, id: Identity)
    requires Writes(cfg, s, e) && TheInstance(s.known, req, id)
    requires AllBehind(cfg, s, req, id) && e.call.key !in s.store.objs
    ensures var after, k := StoreAfter(s.store, e.call, e.fill, e.verdict), e.call.key;
            && (k == ConfigMapKey(req) ==> Has(after, k, id.uid) && PLUGINS_TXT in after.objs[k].body.data)
            && (k == DeploymentKey(req) ==> Has(after, k, id.uid) && ConfigMapKey(req) in s.store.objs)
            && (k == ServiceKey(req, id.spec) && after.objs[k].meta.controller == Some(id.uid) ==>
                  DeploymentKey(req) in s.store.objs)
            && (k == ServiceKey(req, id.spec) && ServiceNotShared(s.known, req, id) ==> Has(after, k, id.uid))
  {
    hide NewService, Filled, IsPodFor, Labels, Identities, PluginsTxt, Verified, UpdateJustified, UpdatedConfigMap,
         UpdatedService;
    WriterIsKnown(cfg, s, e, req, id);
  }

  /** The phase becomes Ready only after the service and the Deployment have been seen. */
  lemma ReadyNeedsService(cfg: Config, s: Sys, e: Event, req: Name, id: Identity)
    requires Writes(cfg, s, e) && TheInstance(s.known, req, id) && AllBehind(cfg, s, req, id)
    ensures IsReady(StoreAfter(s.store, e.call, e.fill, e.verdict), req) && !IsReady(s.store, req) ==>
              ServiceKey(req, id.spec) in s.store.objs && DeploymentKey(req) in s.store.objs
  {
    hide NewConfigMap, NewServiceObj, NewClaim, UpdatedConfigMap, UpdatedService, IsNewDeployment, Identities,
         Verified, SetupReady;
    hide UpdateJustified;
  }

  /** Every write keeps the stages in order. */
  lemma WriteKeepsStages(cfg: Config, s: Sys, e: Event, req: Name, id: Identity)
    requires Writes(cfg, s, e) && TheInstance(s.known, req, id)
    requires AllBehind(cfg, s, req, id) && Staged(s.store, req, id)
    ensures var after := StoreAfter(s.store, e.call, e.fill, e.verdict);
            && Staged(after, req, id)
            && (ServiceNotShared(s.known, req, id) && OwnsService(s.store, req, id) ==> OwnsService(after, req, id))
  {
    hide Issues, Written, Inv, IsReady, Behind, TheInstance, ServiceNotShared;
    WriteExtends(cfg, s, e);
    ReadyNeedsService(cfg, s, e, req, id);
    if e.call.key !in s.store.objs {
      CreationIsStaged(cfg, s, e, req, id);
    }
  }

  /** Starting without the three objects and not ready, every reachable state is staged: also between any two
      requests, after any failure or stop, and although the error of creating the service is dropped. The service is
      the instance's own if no other instance's has its name. Other clients may add what they like elsewhere. */
  lemma {:induction false} EveryStateIsStaged(cfg: Config, s: Sys, es: seq<Event>, req: Name, id: Identity)
    requires Initial(s) && IsRun(cfg, s, es) && OnlyAdds(cfg, s, es) && Calm(cfg, s, es, req, id)
    requires TheInstance(s.known, req, id)
    requires ConfigMapKey(req) !in s.store.objs && DeploymentKey(req) !in s.store.objs
             && ServiceKey(req, id.spec) !in s.store.objs && !IsReady(s.store, req)
    ensures Staged(End(cfg, s, es).store, req, id)
    ensures ServiceNotShared(s.known, req, id) ==> OwnsService(End(cfg, s, es).store, req, id)
  {
    hide Apply, Enabled, Inv, Behind, TheInstance, ServiceNotShared, Closed, Staged, OwnsService, Extends, Identities;
    hide Spares;
    if |es| == 0 {
      EmptyIsStaged(s.store, req, id);
    } else {
      var last := |es| - 1;
      OnlyAddsPrefix(cfg, s, es, last);
      CalmPrefix(cfg, s, es, last, req, id);
      EveryStateIsStaged(cfg, s, es[..last], req, id);
      InitialIsCurrent(cfg, s);
      NothingBehind(cfg, s, req, id);
      AddingRunStaysClosed(cfg, s, es[..last]);
      RunLeavesBehind(cfg, s, es[..last], req, id);
      StagedStep(cfg, End(cfg, s, es[..last]), es[last], req, id);
    }
  }

  lemma NothingBehind(cfg: Config, s: Sys, req: Name, id: Identity)
    requires Initial(s)
    ensures AllBehind(cfg, s, req, id) && AllResolved(s, req)
  {
  }

  lemma EmptyIsStaged(store: Store, req: Name, id: Identity)
    requires ConfigMapKey(req) !in store.objs && DeploymentKey(req) !in store.objs
             && ServiceKey(req, id.spec) !in store.objs && !IsReady(store, req)
    ensures Staged(store, req, id) && OwnsService(store, req, id)
  {
  }

  lemma SparedStages(before: Store, after: Store, req: Name, id: Identity)
    requires Spares(before, after, req, id)
    ensures Staged(after, req, id) <==> Staged(before, req, id)
    ensures OwnsService(after, req, id) <==> OwnsService(before, req, id)
  {
    hide Identities;
  }

  lemma StagedStep(cfg: Config, s: Sys, e: Event, req: Name, id: Identity)
    requires Inv(cfg, s) && Closed(s) && Enabled(cfg, s, e) && TheInstance(s.known, req, id)
    requires e.Foreign? ==> Spares(s.store, e.store, req, id)
    requires AllBehind(cfg, s, req, id) && Staged(s.store, req, id)
    ensures Staged(Apply(cfg, s, e).store, req, id)
    ensures ServiceNotShared(s.known, req, id) && OwnsService(s.store, req, id) ==>
              OwnsService(Apply(cfg, s, e).store, req, id)
  {
    hide Written, Accepts, Inv, Issues, Resume, Reply, Staged, OwnsService, Behind, TheInstance, ServiceNotShared;
    hide Spares;
    if e.Act? && Lands(s.store, e.call, e.verdict) {
      WriteKeepsStages(cfg, s, e, req, id);
    } else if e.Foreign? {
      SparedStages(s.store, e.store, req, id);
    }
  }

  /** What each reconcile has behind it stays behind it, from any point of a run on. */
  lemma {:induction false} RunLeavesBehind(cfg: Config, s: Sys, es: seq<Event>, req: Name, id: Identity)
    requires Inv(cfg, s) && Closed(s) && IsRun(cfg, s, es) && OnlyAdds(cfg, s, es)
    requires TheInstance(s.known, req, id) && AllBehind(cfg, s, req, id)
    ensures AllBehind(cfg, End(cfg, s, es), req, id)
    ensures Extends(s.store, End(cfg, s, es).store)
  {
    hide Apply, Enabled, Inv, Behind, TheInstance, Closed, Extends, Identities;
    if |es| == 0 {
      ExtendsItself(s.store);
    } else {
      var last := |es| - 1;
      var mid := End(cfg, s, es[..last]);
      OnlyAddsPrefix(cfg, s, es, last);
      RunLeavesBehind(cfg, s, es[..last], req, id);
      AddingRunStaysClosed(cfg, s, es[..last]);
      BehindStep(cfg, mid, es[last], req, id);
      ExtendsCompose(s.store, mid.store, End(cfg, s, es).store);
    }
  }

  /** A run in which others only add loses nothing, from any point on. */
  lemma {:induction false} RunExtendsFrom(cfg: Config, s: Sys, es: seq<Event>, i: nat)
    requires Inv(cfg, s) && Closed(s) && IsRun(cfg, s, es) && OnlyAdds(cfg, s, es) && i <= |es|
    ensures Extends(End(cfg, s, es[..i]).store, End(cfg, s, es).store)
    decreases es
  {
    hide Apply, Enabled, Inv, Closed, Extends, Identities;
    if i == |es| {
      assert es[..i] == es;
      ExtendsItself(End(cfg, s, es).store);
    } else {
      var last := |es| - 1;
      var mid := End(cfg, s, es[..last]);
      OnlyAddsPrefix(cfg, s, es, last);
      RunExtendsFrom(cfg, s, es[..last], i);
      assert es[..last][..i] == es[..i];
      AddingRunStaysClosed(cfg, s, es[..last]);
      StepExtends(cfg, mid, es[last]);
      ExtendsCompose(End(cfg, s, es[..i]).store, mid.store, End(cfg, s, es).store);
    }
  }

  // ---- referential integrity ---------------------------------------------------------------

  ghost function ItemKeys(items: seq<Item>): set<string>
  {
    set i | i in items :: i.key
  }

  /** The ConfigMap or Secret a volume names exists and has every key it projects. */
  ghost predicate SourceResolved(store: Store, ns: string, source: Source)
  {
    match source
    case FromConfigMap(name, items) => ConfigMapHas(store, Key(ConfigMapKind, ns, name), ItemKeys(items))
    case FromSecret(name, items) => SecretHas(store, Key(SecretKind, ns, name), ItemKeys(items))
    case _ => true
  }

  ghost predicate PodResolved(store: Store, ns: string, pod: Pod)
  {
    && (pod.serviceAccount != "" ==> Key(AccountKind, ns, pod.serviceAccount) in store.objs)
    && forall i :: 0 <= i < |pod.volumes| ==> SourceResolved(store, ns, pod.volumes[i].source)
  }

  /** An entry that creates a Deployment. */
  predicate CreatesDeployment(e: Entry)
  {
    e.Wrote? && e.key.kind == DeploymentKind && e.before.None? && e.after.body.DeploymentBody?
  }

  lemma ResolvedExtends(before: Store, after: Store, ns: string, pod: Pod)
    requires PodResolved(before, ns, pod) && Extends(before, after)
    ensures PodResolved(after, ns, pod)
  {
  }

  lemma ItemKeysOf(order: seq<string>, keys: set<string>, suffix: string)
    requires Enumerates(order, keys)
    ensures ItemKeys(Items(order, suffix)) <= keys
  {
    forall x | x in ItemKeys(Items(order, suffix)) ensures x in keys {
      var i :| i in Items(order, suffix) && i.key == x;
      assert x in order;
    }
  }

  /** Each volume resolves against what newDeployment has verified and the setup stage has left. */
  lemma VolumesResolved(cfg: Config, store: Store, req: Name, id: Identity, groovy: set<string>, casc: set<string>,
                        groovyOrder: seq<string>, cascOrder: seq<string>)
    requires SetupReady(cfg, store, req, id) && Enumerates(groovyOrder, groovy) && Enumerates(cascOrder, casc)
    requires CascSecretFound(store, req.ns, id.spec) && GroovyFound(store, req.ns, id.spec, groovy)
             && CascFound(store, req.ns, id.spec, casc) && CascSpecified(id.spec)
    ensures forall v :: v in Volumes(req.name, id.spec, groovyOrder, cascOrder) ==>
              SourceResolved(store, req.ns, v.source)
  {
    hide PluginsTxt;
    ItemKeysOf(groovyOrder, groovy, ".groovy");
    ItemKeysOf(cascOrder, casc, ".yaml");
    assert PLUGINS_TXT in StringData(cfg, id.spec);
    forall v | v in Volumes(req.name, id.spec, groovyOrder, cascOrder)
      ensures SourceResolved(store, req.ns, v.source)
    {
      if v in BaseVolumes(req.name, id.spec) {
      } else if v in CascSecretVolumes(id.spec) {
      } else if v in GroovyVolumes(id.spec, groovyOrder) {
      } else {
        assert v in CascVolumes(req.name, id.spec, cascOrder);
      }
    }
  }

  lemma NewDeploymentResolved(cfg: Config, store: Store, req: Name, id: Identity, inst: Instance, groovy: set<string>,
                              casc: set<string>, obj: Obj)
    requires Identify(inst) == id && IsNewDeployment(cfg, req, inst, groovy, casc, obj)
    requires SetupReady(cfg, store, req, id) && Verified(store, req.ns, id.spec, DepCreate(inst, groovy, casc))
    ensures PodResolved(store, req.ns, obj.body.pod)
  {
    hide SetupReady, CascSecretFound, GroovyFound, CascFound, SourceResolved, Volumes, EnvList, Mounts;
    var envOrder, groovyOrder, cascOrder :|
      && Enumerates(envOrder, inst.body.spec.env.Keys)
      && Enumerates(groovyOrder, groovy)
      && Enumerates(cascOrder, casc)
      && obj.body.pod == PodFrom(cfg.jvmEnvironment, req.name, inst, envOrder, groovyOrder, cascOrder);
    VolumesResolved(cfg, store, req, id, groovy, casc, groovyOrder, cascOrder);
  }

  /** Every Deployment created for `req` so far resolves in the store as it is now. */
  ghost predicate AllResolved(s: Sys, req: Name)
  {
    forall i :: 0 <= i < |s.log| && s.log[i].Wrote? && s.log[i].req == req && CreatesDeployment(s.log[i]) ==>
      PodResolved(s.store, req.ns, s.log[i].after.body.pod)
  }

  lemma CreationIsResolved(cfg: Config, s: Sys, e: Event, req: Name, id: Identity)
    requires Writes(cfg, s, e) && TheInstance(s.known, req, id) && s.workers[e.w].req == req
    requires Behind(cfg, s.store, req, id, s.workers[e.w].pc)
    ensures var entries := Record(s.store, s.workers[e.w], e.call, e.fill, e.verdict);
            forall entry :: entry in entries && CreatesDeployment(entry) ==>
              PodResolved(s.store, req.ns, entry.after.body.pod)
  {
    hide NewServiceObj, UpdatedService, NewConfigMap, UpdatedConfigMap, NewClaim, Identities, SetupReady, Verified,
         PodResolved, IsNewDeployment;
    WriterIsKnown(cfg, s, e, req, id);
    var pc := s.workers[e.w].pc;
    if pc.Deploying? && pc.deploy.DepCreate? {
      NewDeploymentResolved(cfg, s.store, req, id, pc.deploy.inst, pc.deploy.groovy, pc.deploy.casc, e.call.obj);
    }
  }

  lemma ResolvedStep(cfg: Config, s: Sys, e: Event, req: Name, id: Identity)
    requires Inv(cfg, s) && Closed(s) && Enabled(cfg, s, e) && TheInstance(s.known, req, id)
    requires e.Foreign? ==> Extends(s.store, e.store)
    requires AllBehind(cfg, s, req, id) && AllResolved(s, req)
    ensures AllResolved(Apply(cfg, s, e), req)
  {
    hide Written, Accepts, Inv, Issues, Resume, Reply, Behind, TheInstance, Extends, PodResolved, StoreAfter;
    var s' := Apply(cfg, s, e);
    StepExtends(cfg, s, e);
    forall i | 0 <= i < |s'.log| && s'.log[i].Wrote? && s'.log[i].req == req && CreatesDeployment(s'.log[i])
      ensures PodResolved(s'.store, req.ns, s'.log[i].after.body.pod)
    {
      var pod := s'.log[i].after.body.pod;
      if i >= |s.log| {
        CreationIsResolved(cfg, s, e, req, id);
      }
      ResolvedExtends(s.store, s'.store, req.ns, pod);
    }
  }

  /** Referential integrity: every Deployment the operator creates names only ConfigMaps, Secrets and a service
      account that exist, and projects only keys its sources have, from its creation to the end of the run; also when
      the run begins with reconciles under way, and whatever other clients add. */
  lemma {:induction false} ReferentialIntegrity(cfg: Config, s: Sys, es: seq<Event>, req: Name, id: Identity)
    requires Inv(cfg, s) && Closed(s) && IsRun(cfg, s, es) && OnlyAdds(cfg, s, es)
    requires TheInstance(s.known, req, id) && AllBehind(cfg, s, req, id) && AllResolved(s, req)
    ensures AllResolved(End(cfg, s, es), req)
  {
    hide Apply, Enabled, Inv, Behind, TheInstance, Closed, PodResolved, Extends, Identities;
    if |es| > 0 {
      var last := |es| - 1;
      OnlyAddsPrefix(cfg, s, es, last);
      ReferentialIntegrity(cfg, s, es[..last], req, id);
      AddingRunStaysClosed(cfg, s, es[..last]);
      RunLeavesBehind(cfg, s, es[..last], req, id);
      ResolvedStep(cfg, End(cfg, s, es[..last]), es[last], req, id);
    }
  }

  /** In particular when nobody but the operator writes. */
  lemma OperatorReferentialIntegrity(cfg: Config, s: Sys, es: seq<Event>, req: Name, id: Identity)
    requires Initial(s) && IsRun(cfg, s, es) && OperatorOnly(es) && TheInstance(s.known, req, id)
    ensures AllResolved(End(cfg, s, es), req) && AllBehind(cfg, End(cfg, s, es), req, id)
  {
    hide IsRun, End, TheInstance, AllBehind, AllResolved, Inv, Closed;
    InitialIsCurrent(cfg, s);
    NothingBehind(cfg, s, req, id);
    OperatorOnlyAdds(cfg, s, es);
    ReferentialIntegrity(cfg, s, es, req, id);
    RunLeavesBehind(cfg, s, es, req, id);
  }
}
