/** How a reconcile ends that nobody disturbs: no other request comes between its own and every request is served.
    The outcome is decided by the store it starts from. */
module Undisturbed {
  import opened Basics
  import opened Api
  import opened PodBuilder
  import opened Services
  import opened Cluster
  import opened Protocol
  import opened Runs
  import opened Liveness

  // ---- what the outcome depends on ---------------------------------------------------------

  /** The server keeps objects under keys of their own kind. */
  ghost predicate WellKinded(store: Store)
  {
    forall k :: k in store.objs ==> store.objs[k].body.Kind() == k.kind
  }

  ghost predicate AbsentOrOwn(store: Store, k: Key, uid: string)
  {
    k in store.objs ==> store.objs[k].meta.controller == Some(uid)
  }

  predicate GateOpens(store: Store, req: Name, spec: Spec)
  {
    spec.adminSecret != "" && SecretKey(req, spec.adminSecret) in store.objs
  }

  /** The setup ConfigMap lacks a key its data would be built with. */
  ghost predicate NeedsUpdate(cfg: Config, store: Store, req: Name, id: Identity)
  {
    var k := ConfigMapKey(req);
    && id.spec.cascConfig.Some? && k in store.objs && store.objs[k].body.ConfigMapBody?
    && MergedData(cfg, id.spec, store.objs[k].body.data) != store.objs[k].body.data
  }

  /** An update of the ConfigMap is followed by a restart, which needs the service. */
  ghost predicate SetupPasses(cfg: Config, store: Store, req: Name, id: Identity)
  {
    && AbsentOrOwn(store, ConfigMapKey(req), id.uid)
    && id.spec.cascConfig.Some?
    && (NeedsUpdate(cfg, store, req, id) ==> ServiceKey(req, id.spec) in store.objs)
  }

  predicate ClaimPossible(store: Store, req: Name, spec: Spec)
  {
    spec.storage.Some? ==>
      ClaimKey(req, spec.storage.value) in store.objs || spec.storage.value.jobsPvcSpec.Some?
  }

  predicate SecretThere(store: Store, req: Name, name: string)
  {
    name != "" ==> SecretKey(req, name) in store.objs
  }

  /** The named configuration is there, or will be once the setup ConfigMap is. */
  predicate CascThere(store: Store, req: Name, spec: Spec)
  {
    spec.cascConfig.Some? && spec.cascConfig.value.configMap != "" ==>
      spec.cascConfig.value.configMap == req.name
      || Key(ConfigMapKind, req.ns, spec.cascConfig.value.configMap) in store.objs
  }

  ghost predicate DeployPasses(store: Store, req: Name, id: Identity)
  {
    && AbsentOrOwn(store, DeploymentKey(req), id.uid)
    && AccountThere(store, req.ns, id.spec)
    && ClaimPossible(store, req, id.spec)
    && SecretThere(store, req, id.spec.cascSecret)
    && SecretThere(store, req, id.spec.groovySecret)
    && CascSpecified(id.spec)
    && CascThere(store, req, id.spec)
  }

  ghost predicate ServicePasses(store: Store, req: Name, id: Identity)
  {
    && AbsentOrOwn(store, ServiceKey(req, id.spec), id.uid)
    && (ServiceKey(req, id.spec) !in store.objs ==> id.spec.service.Some?)
  }

  ghost predicate ServicePanics(store: Store, req: Name, id: Identity)
  {
    ServiceKey(req, id.spec) !in store.objs && id.spec.service.None?
  }

  /** Everything the instance names is there, and what is its own to make is absent or its own. */
  ghost predicate CanSync(cfg: Config, store: Store, req: Name, id: Identity)
  {
    && GateOpens(store, req, id.spec) && SetupPasses(cfg, store, req, id)
    && DeployPasses(store, req, id) && ServicePasses(store, req, id)
  }

  ghost predicate SetupPanics(store: Store, req: Name, id: Identity)
  {
    id.spec.cascConfig.None? && AbsentOrOwn(store, ConfigMapKey(req), id.uid)
  }

  ghost predicate MustPanic(cfg: Config, store: Store, req: Name, id: Identity)
  {
    && GateOpens(store, req, id.spec)
    && (SetupPanics(store, req, id)
        || (SetupPasses(cfg, store, req, id) && DeployPasses(store, req, id) && ServicePanics(store, req, id)))
  }

  // ---- the outcome still to come at a program point ----------------------------------------

  /** The reconcile at `pc` will sync, if nobody disturbs it. */
  ghost predicate WillSync(cfg: Config, store: Store, req: Name, id: Identity, pc: Pc)
  {
    match pc
    case Gate(_) => CanSync(cfg, store, req, id)
    case Setup(_) =>
      SetupPasses(cfg, store, req, id) && DeployPasses(store, req, id) && ServicePasses(store, req, id)
    case Restarting(_) =>
      ServiceKey(req, id.spec) in store.objs && DeployPasses(store, req, id) && ServicePasses(store, req, id)
    case Deploying(_) => DeployPasses(store, req, id) && ServicePasses(store, req, id)
    case Serving(_) => ServicePasses(store, req, id)
    case Reporting(_) => true
    case Ended(outcome) => outcome.Synced?
  }

  ghost predicate WillPanic(cfg: Config, store: Store, req: Name, id: Identity, pc: Pc)
  {
    match pc
    case Gate(_) => MustPanic(cfg, store, req, id)
    case Setup(_) =>
      || SetupPanics(store, req, id)
      || (SetupPasses(cfg, store, req, id) && DeployPasses(store, req, id) && ServicePanics(store, req, id))
    case Restarting(_) => false
    case Deploying(_) => DeployPasses(store, req, id) && ServicePanics(store, req, id)
    case Serving(_) => ServicePanics(store, req, id)
    case Reporting(_) => false
    case Ended(outcome) => outcome.Panicked?
  }

  predicate WillBeAbsorbed(id: Identity, pc: Pc)
  {
    match pc
    case Gate(_) => id.spec.adminSecret == ""
    case Ended(outcome) => outcome.Absorbed?
    case _ => false
  }

  // ---- what is known at a program point ----------------------------------------------------

  /** What newDeployment has found out when it is at `deploy`. */
  ghost predicate Checked(store: Store, req: Name, id: Identity, deploy: DeployPc)
  {
    match deploy
    case DepInstance => true
    case DepGet(_) => true
    case DepAccount(_, present) => Seen(store, req, id, present) && id.spec.serviceAccount != ""
    case DepClaim(_, present) =>
      Seen(store, req, id, present) && AccountThere(store, req.ns, id.spec) && id.spec.storage.Some?
    case DepClaimCreate(_, present) =>
      && Seen(store, req, id, present) && AccountThere(store, req.ns, id.spec)
      && id.spec.storage.Some? && ClaimKey(req, id.spec.storage.value) !in store.objs
      && id.spec.storage.value.jobsPvcSpec.Some?
    case DepCascSecret(_, present) => ClaimChecked(store, req, id, present) && id.spec.cascSecret != ""
    case DepGroovy(_, present) =>
      && ClaimChecked(store, req, id, present) && SecretThere(store, req, id.spec.cascSecret)
      && id.spec.groovySecret != ""
    case DepCasc(_, present, _) =>
      && ClaimChecked(store, req, id, present)
      && SecretThere(store, req, id.spec.cascSecret) && SecretThere(store, req, id.spec.groovySecret)
      && id.spec.cascConfig.Some? && id.spec.cascConfig.value.configMap != ""
    case DepCreate(_, _, _) => DeployPasses(store, req, id) && DeploymentKey(req) !in store.objs
  }

  ghost predicate Seen(store: Store, req: Name, id: Identity, present: bool)
  {
    AbsentOrOwn(store, DeploymentKey(req), id.uid) && present == (DeploymentKey(req) in store.objs)
  }

  ghost predicate ClaimChecked(store: Store, req: Name, id: Identity, present: bool)
  {
    && Seen(store, req, id, present) && AccountThere(store, req.ns, id.spec) && ClaimPossible(store, req, id.spec)
  }

  ghost predicate HasInstance(store: Store, req: Name, id: Identity)
  {
    && InstanceKey(req) in store.objs && store.objs[InstanceKey(req)].body.InstanceBody?
    && Identify(store.objs[InstanceKey(req)]) == id
  }

  ghost predicate PointFacts(cfg: Config, store: Store, req: Name, id: Identity, pc: Pc)
    requires HasInstance(store, req, id)
  {
    match pc
    case Gate(GateSecret(_)) => id.spec.adminSecret != ""
    case Setup(CmCreate(_)) => ConfigMapKey(req) !in store.objs && id.spec.cascConfig.Some?
    case Setup(CmUpdate(_, cm)) =>
      && ConfigMapKey(req) in store.objs && store.objs[ConfigMapKey(req)] == cm
      && AbsentOrOwn(store, ConfigMapKey(req), id.uid) && NeedsUpdate(cfg, store, req, id)
    case Restarting(restart) =>
      && ConfigMapKey(req) in store.objs
      && (!restart.RestartInstance? && !restart.RestartService? ==> ServiceKey(req, id.spec) in store.objs)
    case Deploying(deploy) => ConfigMapKey(req) in store.objs && Checked(store, req, id, deploy)
    case Serving(SvcCreate(_)) => ServiceKey(req, id.spec) !in store.objs && id.spec.service.Some?
    case Serving(SvcUpdate(_, _, svc)) =>
      && ServiceKey(req, id.spec) in store.objs && store.objs[ServiceKey(req, id.spec)] == svc
      && AbsentOrOwn(store, ServiceKey(req, id.spec), id.uid)
    case Reporting(StUpdate(inst)) => ServiceKey(req, id.spec) in store.objs && store.objs[InstanceKey(req)] == inst
    case Reporting(_) => ServiceKey(req, id.spec) in store.objs
    case Ended(Synced) =>
      ServiceKey(req, id.spec) in store.objs && store.objs[InstanceKey(req)].body.phase == READY
    case _ => true
  }

  ghost predicate LoneInv(cfg: Config, store: Store, req: Name, id: Identity, pc: Pc)
  {
    && WellKinded(store) && Dated(store) && HasInstance(store, req, id)
    && (Held(pc).Some? ==> Identify(Held(pc).value) == id)
    && (Looked(pc).Some? ==> Identify(Looked(pc).value) == id)
    && (!pc.Gate? && !pc.Ended? ==> GateOpens(store, req, id.spec))
    && PointFacts(cfg, store, req, id, pc)
  }

  /** `pc` and `after` continue the reconcile towards the same outcome. */
  ghost predicate KeepsOutcome(cfg: Config, before: Store, after: Store, req: Name, id: Identity, pc: Pc, next: Pc)
  {
    && LoneInv(cfg, after, req, id, next)
    && (WillSync(cfg, after, req, id, next) <==> WillSync(cfg, before, req, id, pc))
    && (WillPanic(cfg, after, req, id, next) <==> WillPanic(cfg, before, req, id, pc))
    && (WillBeAbsorbed(id, next) <==> WillBeAbsorbed(id, pc))
    && (AbsentOrOwn(before, ServiceKey(req, id.spec), id.uid) ==> AbsentOrOwn(after, ServiceKey(req, id.spec), id.uid))
  }

  // ---- one request -------------------------------------------------------------------------

  ghost predicate Served(cfg: Config, store: Store, req: Name, id: Identity, pc: Pc, call: Call)
  {
    LoneInv(cfg, store, req, id, pc) && Issues(cfg, req, pc, call)
  }

  lemma GateStep(cfg: Config, store: Store, req: Name, id: Identity, pc: Pc, call: Call, fill: Fill)
    requires Served(cfg, store, req, id, pc, call) && pc.Gate?
    ensures !Reply(store, call, Normal).Failed?
    ensures KeepsOutcome(cfg, store, StoreAfter(store, call, fill, Normal), req, id, pc,
                   ResumeGate(pc.gate, Reply(store, call, Normal)))
  {
    hide SetupPasses, DeployPasses, ServicePasses, ServicePanics, SetupPanics, AbsentOrOwn, Dated, Acts;
  }

  lemma SetupReadStep(cfg: Config, store: Store, req: Name, id: Identity, pc: Pc, call: Call, fill: Fill)
    requires Served(cfg, store, req, id, pc, call) && pc.Setup? && (pc.setup.CmInstance? || pc.setup.CmGet?)
    ensures !Reply(store, call, Normal).Failed?
    ensures KeepsOutcome(cfg, store, StoreAfter(store, call, fill, Normal), req, id, pc,
                   ResumeSetup(cfg, pc.setup, Reply(store, call, Normal)))
  {
    hide DeployPasses, ServicePasses, ServicePanics, MergedData, Dated, Acts;
  }

  lemma ReportStep(cfg: Config, store: Store, req: Name, id: Identity, pc: Pc, call: Call, fill: Fill)
    requires Served(cfg, store, req, id, pc, call) && pc.Reporting? && !pc.report.StUpdate?
    ensures !Reply(store, call, Normal).Failed?
    ensures KeepsOutcome(cfg, store, StoreAfter(store, call, fill, Normal), req, id, pc,
                   ResumeStatus(pc.report, Reply(store, call, Normal)))
  {
    hide Acts, AbsentOrOwn, Dated;
    ProbeOnly(cfg, req, pc, call);
  }

  lemma ProbeOnly(cfg: Config, req: Name, pc: Pc, call: Call)
    requires Issues(cfg, req, pc, call) && pc.Reporting? && !pc.report.StUpdate?
    ensures if pc.report.StProbe? then call.Probe? else Reads(req, pc).Some?
  {
  }

  lemma ReadyStep(cfg: Config, store: Store, req: Name, id: Identity, pc: Pc, call: Call, fill: Fill)
    requires Served(cfg, store, req, id, pc, call) && pc.Reporting? && pc.report.StUpdate?
    ensures !Reply(store, call, Normal).Failed?
    ensures KeepsOutcome(cfg, store, StoreAfter(store, call, fill, Normal), req, id, pc,
                   ResumeStatus(pc.report, Reply(store, call, Normal)))
  {
    hide NewConfigMap, UpdatedConfigMap, NewClaim, IsNewDeployment, NewServiceObj, UpdatedService;
    hide CanSync, MustPanic, SetupPasses, DeployPasses, ServicePasses, Checked;
  }

  lemma RestartStep(cfg: Config, store: Store, req: Name, id: Identity, pc: Pc, call: Call, fill: Fill)
    requires Served(cfg, store, req, id, pc, call) && pc.Restarting?
    ensures KeepsOutcome(cfg, store, StoreAfter(store, call, fill, Normal), req, id, pc,
                   ResumeRestart(pc.restart, Reply(store, call, Normal)))
    ensures !Reply(store, call, Normal).Failed?
  {
    hide DeployPasses, Dated;
    hide NewConfigMap, UpdatedConfigMap, NewClaim, IsNewDeployment, NewServiceObj, UpdatedService, ReadyInstance;
  }

  lemma ServiceReadStep(cfg: Config, store: Store, req: Name, id: Identity, pc: Pc, call: Call, fill: Fill)
    requires Served(cfg, store, req, id, pc, call) && pc.Serving? && !pc.serve.SvcCreate? && !pc.serve.SvcUpdate?
    ensures !Reply(store, call, Normal).Failed?
    ensures KeepsOutcome(cfg, store, StoreAfter(store, call, fill, Normal), req, id, pc,
                   ResumeService(pc.serve, Reply(store, call, Normal)))
  {
    hide Settled, Dated, Acts;
  }

  /** A write of a kind the gate does not look at keeps what the gate and the instance are. */
  lemma WriteKeepsBasics(store: Store, call: Call, fill: Fill, req: Name, id: Identity)
    requires WellKinded(store) && Dated(store) && HasInstance(store, req, id)
    requires (call.Create? || call.Update?) && Accepts(store, call)
    requires call.key.kind != SecretKind && call.key.kind != InstanceKind
    ensures var after := StoreAfter(store, call, fill, Normal);
            && WellKinded(after) && Dated(after) && HasInstance(after, req, id)
            && (GateOpens(after, req, id.spec) <==> GateOpens(store, req, id.spec))
  {
    hide Filled;
    WriteEvolves(store, call, fill, Normal);
    assert Written(store, call, fill).body.Kind() == call.key.kind;
  }

  /** What a write leaves at its key, and that it leaves all else. */
  lemma WriteLeaves(store: Store, call: Call, fill: Fill)
    requires (call.Create? || call.Update?) && Accepts(store, call)
    ensures var after := StoreAfter(store, call, fill, Normal);
            && after.objs.Keys == store.objs.Keys + {call.key}
            && after.objs[call.key].meta.controller == call.obj.meta.controller
            && (call.obj.body.ConfigMapBody? ==> after.objs[call.key].body == call.obj.body)
            && forall k :: k in store.objs && k != call.key ==> after.objs[k] == store.objs[k]
    ensures Reply(store, call, Normal) == Done
  {
    hide Filled;
  }

  /** What the later stages look at does not depend on the setup ConfigMap. */
  lemma SetupKeepsRest(store: Store, after: Store, req: Name, id: Identity)
    requires after.objs.Keys == store.objs.Keys + {ConfigMapKey(req)}
    requires forall k :: k in store.objs && k != ConfigMapKey(req) ==> after.objs[k] == store.objs[k]
    ensures DeployPasses(after, req, id) <==> DeployPasses(store, req, id)
    ensures ServicePasses(after, req, id) <==> ServicePasses(store, req, id)
    ensures ServicePanics(after, req, id) <==> ServicePanics(store, req, id)
    ensures var svc := ServiceKey(req, id.spec);
            AbsentOrOwn(after, svc, id.uid) <==> AbsentOrOwn(store, svc, id.uid)
  {
  }

  lemma SetupWriteStep(cfg: Config, store: Store, req: Name, id: Identity, pc: Pc, call: Call, fill: Fill)
    requires Served(cfg, store, req, id, pc, call) && pc.Setup? && (pc.setup.CmCreate? || pc.setup.CmUpdate?)
    ensures !Reply(store, call, Normal).Failed?
    ensures KeepsOutcome(cfg, store, StoreAfter(store, call, fill, Normal), req, id, pc,
                   ResumeSetup(cfg, pc.setup, Reply(store, call, Normal)))
  {
    hide StringData, MergedData, Labels, GateOpens, DeployPasses, ServicePasses, StoreAfter, WellKinded, Dated,
         HasInstance;
    WriteKeepsBasics(store, call, fill, req, id);
    WriteLeaves(store, call, fill);
    SetupKeepsRest(store, StoreAfter(store, call, fill, Normal), req, id);
  }

  lemma ServiceWriteStep(cfg: Config, store: Store, req: Name, id: Identity, pc: Pc, call: Call, fill: Fill)
    requires Served(cfg, store, req, id, pc, call) && pc.Serving? && (pc.serve.SvcCreate? || pc.serve.SvcUpdate?)
    ensures !Reply(store, call, Normal).Failed?
    ensures KeepsOutcome(cfg, store, StoreAfter(store, call, fill, Normal), req, id, pc,
                   ResumeService(pc.serve, Reply(store, call, Normal)))
  {
    hide NewService, Rebuilt, Labels, GateOpens, StoreAfter, WellKinded, Dated, HasInstance;
    WriteKeepsBasics(store, call, fill, req, id);
    WriteLeaves(store, call, fill);
  }

  // ---- one request of newDeployment --------------------------------------------------------

  /** `next`, a point of newDeployment or where it leaves to, is where the checks made so far lead. */
  ghost predicate DeployLeads(store: Store, req: Name, id: Identity, next: Pc)
  {
    && (next.Deploying? || next == Serving(SvcInstance) || next == FAIL)
    && (next.Deploying? ==>
          Held(next).Some? && Identify(Held(next).value) == id && Checked(store, req, id, next.deploy))
    && (next == Serving(SvcInstance) ==> DeployPasses(store, req, id))
    && (next == FAIL ==> !DeployPasses(store, req, id))
  }

  lemma CascLeads(store: Store, req: Name, id: Identity, inst: Instance, present: bool, groovy: set<string>)
    requires Identify(inst) == id && ClaimChecked(store, req, id, present)
    requires SecretThere(store, req, id.spec.cascSecret) && SecretThere(store, req, id.spec.groovySecret)
    ensures DeployLeads(store, req, id, ToCasc(inst, present, groovy))
    ensures CascSpecified(id.spec) && CascThere(store, req, id.spec) ==>
              forall casc :: DeployLeads(store, req, id, ToDeploy(inst, present, groovy, casc))
  {
    hide AccountThere, ClaimPossible, SecretThere;
  }

  lemma GroovyLeads(store: Store, req: Name, id: Identity, inst: Instance, present: bool)
    requires Identify(inst) == id && ClaimChecked(store, req, id, present)
    requires SecretThere(store, req, id.spec.cascSecret)
    ensures DeployLeads(store, req, id, ToGroovy(inst, present))
  {
    hide AccountThere, ClaimPossible, AbsentOrOwn, ToCasc, CascThere;
    if id.spec.groovySecret == "" {
      CascLeads(store, req, id, inst, present, {});
    }
  }

  lemma CascSecretLeads(store: Store, req: Name, id: Identity, inst: Instance, present: bool)
    requires Identify(inst) == id && ClaimChecked(store, req, id, present)
    ensures DeployLeads(store, req, id, ToCascSecret(inst, present))
  {
    hide AccountThere, ClaimPossible, AbsentOrOwn, ToGroovy, CascThere;
    if id.spec.cascSecret == "" {
      GroovyLeads(store, req, id, inst, present);
    }
  }

  lemma ClaimLeads(store: Store, req: Name, id: Identity, inst: Instance, present: bool)
    requires Identify(inst) == id && Seen(store, req, id, present) && AccountThere(store, req.ns, id.spec)
    ensures DeployLeads(store, req, id, ToClaim(inst, present))
  {
    hide AccountThere, AbsentOrOwn, ToCascSecret, CascThere;
    if id.spec.storage.None? {
      CascSecretLeads(store, req, id, inst, present);
    }
  }

  lemma AccountLeads(store: Store, req: Name, id: Identity, inst: Instance, present: bool)
    requires Identify(inst) == id && Seen(store, req, id, present)
    ensures DeployLeads(store, req, id, ToAccount(inst, present))
  {
    hide AbsentOrOwn, ToClaim, CascThere;
    if id.spec.serviceAccount == "" {
      ClaimLeads(store, req, id, inst, present);
    }
  }

  lemma DeployReadLeads(store: Store, req: Name, id: Identity, deploy: DeployPc)
    requires WellKinded(store) && HasInstance(store, req, id) && ConfigMapKey(req) in store.objs
    requires !deploy.DepClaimCreate? && !deploy.DepCreate? && Checked(store, req, id, deploy)
    requires Held(Deploying(deploy)).Some? ==> Identify(Held(Deploying(deploy)).value) == id
    requires DeployReads(req, deploy).Some?
    ensures var r := Reply(store, Get(DeployReads(req, deploy).value), Normal);
            !r.Failed? && DeployLeads(store, req, id, ResumeDeployment(deploy, r))
  {
    hide ToAccount, ToClaim, ToCascSecret, ToGroovy, ToCasc, ToDeploy;
    var r := Reply(store, Get(DeployReads(req, deploy).value), Normal);
    match deploy
    case DepInstance =>
    case DepGet(inst) =>
      if Seen(store, req, id, r.Found?) {
        AccountLeads(store, req, id, inst, r.Found?);
      }
    case DepAccount(inst, present) =>
      if r.Found? {
        ClaimLeads(store, req, id, inst, present);
      }
    case DepClaim(inst, present) =>
      if r.Found? {
        CascSecretLeads(store, req, id, inst, present);
      }
    case DepCascSecret(inst, present) =>
      if r.Found? {
        GroovyLeads(store, req, id, inst, present);
      }
    case DepGroovy(inst, present) =>
      if r.Found? {
        CascLeads(store, req, id, inst, present, r.obj.body.secret.Keys);
      }
    case DepCasc(inst, present, groovy) =>
      if r.Found? {
        CascLeads(store, req, id, inst, present, groovy);
      }
  }

  lemma DeployReadStep(cfg: Config, store: Store, req: Name, id: Identity, pc: Pc, call: Call, fill: Fill)
    requires Served(cfg, store, req, id, pc, call) && pc.Deploying?
    requires !pc.deploy.DepClaimCreate? && !pc.deploy.DepCreate?
    ensures !Reply(store, call, Normal).Failed?
    ensures KeepsOutcome(cfg, store, StoreAfter(store, call, fill, Normal), req, id, pc,
                   ResumeDeployment(pc.deploy, Reply(store, call, Normal)))
  {
    hide Acts, Reply, ResumeDeployment, WellKinded, Dated, GateOpens, ServicePasses, DeployPasses, AbsentOrOwn;
    ReadsKnown(store, req, id, pc.deploy);
    DeployReadLeads(store, req, id, pc.deploy);
  }

  lemma ReadsKnown(store: Store, req: Name, id: Identity, deploy: DeployPc)
    requires !deploy.DepClaimCreate? && !deploy.DepCreate? && Checked(store, req, id, deploy)
    requires Held(Deploying(deploy)).Some? ==> Identify(Held(Deploying(deploy)).value) == id
    ensures DeployReads(req, deploy).Some?
  {
  }

  /** Where a write of newDeployment leaves the checks. */
  lemma AddedKeepsRest(store: Store, after: Store, req: Name, id: Identity, k: Key)
    requires after.objs.Keys == store.objs.Keys + {k} && (k.kind == ClaimKind || k.kind == DeploymentKind)
    requires forall x :: x in store.objs && x != k ==> after.objs[x] == store.objs[x]
    ensures AccountThere(store, req.ns, id.spec) ==> AccountThere(after, req.ns, id.spec)
    ensures ServicePasses(after, req, id) <==> ServicePasses(store, req, id)
    ensures ServicePanics(after, req, id) <==> ServicePanics(store, req, id)
    ensures var svc := ServiceKey(req, id.spec);
            AbsentOrOwn(after, svc, id.uid) <==> AbsentOrOwn(store, svc, id.uid)
    ensures SecretThere(after, req, id.spec.cascSecret) <==> SecretThere(store, req, id.spec.cascSecret)
    ensures SecretThere(after, req, id.spec.groovySecret) <==> SecretThere(store, req, id.spec.groovySecret)
    ensures CascThere(after, req, id.spec) <==> CascThere(store, req, id.spec)
    ensures AccountThere(after, req.ns, id.spec) <==> AccountThere(store, req.ns, id.spec)
    ensures k.kind == ClaimKind ==>
              (AbsentOrOwn(after, DeploymentKey(req), id.uid) <==> AbsentOrOwn(store, DeploymentKey(req), id.uid))
    ensures ClaimPossible(store, req, id.spec) ==> ClaimPossible(after, req, id.spec)
  {
  }

  lemma ClaimCreateStep(cfg: Config, store: Store, req: Name, id: Identity, pc: Pc, call: Call, fill: Fill)
    requires Served(cfg, store, req, id, pc, call) && pc.Deploying? && pc.deploy.DepClaimCreate?
    ensures !Reply(store, call, Normal).Failed?
    ensures KeepsOutcome(cfg, store, StoreAfter(store, call, fill, Normal), req, id, pc,
                   ResumeDeployment(pc.deploy, Reply(store, call, Normal)))
  {
    hide StoreAfter, WellKinded, Dated, GateOpens, HasInstance, ServicePasses, ServicePanics, AbsentOrOwn, CascThere;
    hide SecretThere, AccountThere, ToCascSecret;
    hide NewConfigMap, UpdatedConfigMap, IsNewDeployment, NewServiceObj, UpdatedService, ReadyInstance;
    var after := StoreAfter(store, call, fill, Normal);
    WriteKeepsBasics(store, call, fill, req, id);
    WriteLeaves(store, call, fill);
    AddedKeepsRest(store, after, req, id, call.key);
    CascSecretLeads(after, req, id, pc.deploy.inst, pc.deploy.present);
  }

  lemma DeploymentCreateStep(cfg: Config, store: Store, req: Name, id: Identity, pc: Pc, call: Call, fill: Fill)
    requires Served(cfg, store, req, id, pc, call) && pc.Deploying? && pc.deploy.DepCreate?
    ensures !Reply(store, call, Normal).Failed?
    ensures KeepsOutcome(cfg, store, StoreAfter(store, call, fill, Normal), req, id, pc,
                   ResumeDeployment(pc.deploy, Reply(store, call, Normal)))
  {
    hide StoreAfter, WellKinded, Dated, GateOpens, HasInstance, ServicePasses, ServicePanics, IsPodFor;
    var after := StoreAfter(store, call, fill, Normal);
    WriteKeepsBasics(store, call, fill, req, id);
    WriteLeaves(store, call, fill);
    AddedKeepsRest(store, after, req, id, call.key);
  }

  /** A request of an undisturbed reconcile never fails, and the outcome to come stays what it was. */
  lemma {:induction false} OneStep(cfg: Config, store: Store, req: Name, id: Identity, pc: Pc, call: Call, fill: Fill)
    requires LoneInv(cfg, store, req, id, pc) && Issues(cfg, req, pc, call)
    ensures !Reply(store, call, Normal).Failed?
    ensures KeepsOutcome(cfg, store, StoreAfter(store, call, fill, Normal), req, id, pc,
                   Resume(cfg, pc, Reply(store, call, Normal)))
  {
    hide Issues, Reply, StoreAfter, KeepsOutcome, LoneInv;
    hide ResumeGate, ResumeSetup, ResumeRestart, ResumeDeployment, ResumeService, ResumeStatus;
    match pc
    case Gate(_) => GateStep(cfg, store, req, id, pc, call, fill);
    case Setup(setup) =>
      if setup.CmInstance? || setup.CmGet? {
        SetupReadStep(cfg, store, req, id, pc, call, fill);
      } else {
        SetupWriteStep(cfg, store, req, id, pc, call, fill);
      }
    case Restarting(_) => RestartStep(cfg, store, req, id, pc, call, fill);
    case Deploying(deploy) =>
      if deploy.DepClaimCreate? {
        ClaimCreateStep(cfg, store, req, id, pc, call, fill);
      } else if deploy.DepCreate? {
        DeploymentCreateStep(cfg, store, req, id, pc, call, fill);
      } else {
        DeployReadStep(cfg, store, req, id, pc, call, fill);
      }
    case Serving(serve) =>
      if serve.SvcCreate? || serve.SvcUpdate? {
        ServiceWriteStep(cfg, store, req, id, pc, call, fill);
      } else {
        ServiceReadStep(cfg, store, req, id, pc, call, fill);
      }
    case Reporting(report) =>
      if report.StUpdate? {
        ReadyStep(cfg, store, req, id, pc, call, fill);
      } else {
        ReportStep(cfg, store, req, id, pc, call, fill);
      }
    case Ended(_) => EndedIssuesNothing(cfg, req, pc, call);
  }

  // ---- whole reconciles --------------------------------------------------------------------

  /** Requests of worker `w` only, each of them served. */
  ghost predicate Alone(es: seq<Event>, w: int)
  {
    forall i :: 0 <= i < |es| ==> es[i].Act? && es[i].w == w && es[i].verdict.Normal?
  }

  /** What worker `w` does next leaves everybody else where they are. */
  ghost predicate OnlyMoves(s: Sys, s': Sys, w: int)
  {
    && w in s'.workers && s'.workers.Keys == s.workers.Keys
    && forall v :: v in s.workers && v != w ==> s'.workers[v] == s.workers[v]
  }

  lemma {:induction false} AloneKeeps(cfg: Config, s: Sys, es: seq<Event>, w: int, req: Name, id: Identity)
    requires IsRun(cfg, s, es) && Alone(es, w) && w in s.workers && s.workers[w].req == req
    requires LoneInv(cfg, s.store, req, id, s.workers[w].pc)
    ensures var s' := End(cfg, s, es);
            && OnlyMoves(s, s', w) && s'.workers[w].req == req && s'.workers[w].clean == s.workers[w].clean
            && KeepsOutcome(cfg, s.store, s'.store, req, id, s.workers[w].pc, s'.workers[w].pc)
  {
    hide LoneInv, WillSync, WillPanic, WillBeAbsorbed, Issues, Resume, StoreAfter, Reply, AbsentOrOwn, Record;
    if |es| > 0 {
      var last := |es| - 1;
      var mid := End(cfg, s, es[..last]);
      AloneKeeps(cfg, s, es[..last], w, req, id);
      OneStep(cfg, mid.store, req, id, mid.workers[w].pc, es[last].call, es[last].fill);
    }
  }

  /** A reconcile left alone goes on to its end. */
  lemma {:induction false} Completes(cfg: Config, s: Sys, w: int) returns (es: seq<Event>)
    requires w in s.workers && Sensible(s.workers[w].pc)
    ensures IsRun(cfg, s, es) && Alone(es, w)
    ensures w in End(cfg, s, es).workers && End(cfg, s, es).workers[w].pc.Ended?
    decreases StepsLeft(s.workers[w].pc)
  {
    hide Sensible, Resume, Issues, StoreAfter, Reply, Record, StepsLeft;
    if s.workers[w].pc.Ended? {
      es := [];
    } else {
      var worker := s.workers[w];
      var call := NextCall(cfg, worker.req, worker.pc);
      var e := Act(w, call, Fill([], "", ""), Normal);
      ResumeSensible(cfg, worker.pc, Reply(s.store, call, Normal));
      ResumeDescends(cfg, worker.pc, Reply(s.store, call, Normal));
      OneEvent(cfg, s, e);
      var rest := Completes(cfg, Apply(cfg, s, e), w);
      RunsCompose(cfg, s, [e], rest);
      es := [e] + rest;
    }
  }

  lemma OneEvent(cfg: Config, s: Sys, e: Event)
    requires Enabled(cfg, s, e)
    ensures IsRun(cfg, s, [e]) && End(cfg, s, [e]) == Apply(cfg, s, e)
  {
    assert [] + [e] == [e];
    RunExtends(cfg, s, [], e);
  }

  lemma SyncingEndsSynced(cfg: Config, store: Store, req: Name, id: Identity, pc: Pc)
    requires WillSync(cfg, store, req, id, pc)
    ensures pc.Ended? ==> pc.outcome.Synced?
  {
  }

  /** A whole reconcile of `req` by worker `w`, from its beginning on undisturbed. */
  ghost predicate UndisturbedReconcile(es: seq<Event>, w: int, req: Name)
  {
    |es| > 0 && es[0] == Begin(w, req) && Alone(es[1..], w)
  }

  /** Where an undisturbed reconcile can begin: worker `w` is free, and the instance is stored. */
  ghost predicate CanBegin(s: Sys, w: int, req: Name, id: Identity)
  {
    && WellKinded(s.store) && Dated(s.store) && HasInstance(s.store, req, id)
    && (w in s.workers ==> s.workers[w].pc.Ended?)
  }

  /** Where an undisturbed reconcile is, in any run that has come so far. */
  lemma {:induction false} UndisturbedPoint(cfg: Config, s: Sys, es: seq<Event>, w: int, req: Name, id: Identity)
    requires CanBegin(s, w, req, id) && IsRun(cfg, s, es) && UndisturbedReconcile(es, w, req)
    ensures var s' := End(cfg, s, es);
            && w in s'.workers && s'.workers[w].req == req && s'.workers[w].clean
            && KeepsOutcome(cfg, s.store, s'.store, req, id, Gate(GateInstance), s'.workers[w].pc)
            && s'.workers.Keys == s.workers.Keys + {w}
            && forall v :: v in s.workers && v != w ==> s'.workers[v] == s.workers[v]
  {
    hide KeepsOutcome, Issues, Resume, StoreAfter, Reply, Record;
    var begun := Apply(cfg, s, es[0]);
    assert es == [es[0]] + es[1..];
    RunSuffix(cfg, s, es);
    BeginsLone(cfg, s, w, req, id);
    AloneKeeps(cfg, begun, es[1..], w, req, id);
  }

  lemma BeginsLone(cfg: Config, s: Sys, w: int, req: Name, id: Identity)
    requires CanBegin(s, w, req, id)
    ensures LoneInv(cfg, s.store, req, id, Gate(GateInstance))
  {
  }

  /** The rest of a run is a run from where its first event leads. */
  lemma {:induction false} RunSuffix(cfg: Config, s: Sys, es: seq<Event>)
    requires IsRun(cfg, s, es) && |es| > 0
    ensures Enabled(cfg, s, es[0])
    ensures var s' := Apply(cfg, s, es[0]);
            IsRun(cfg, s', es[1..]) && End(cfg, s', es[1..]) == End(cfg, s, es)
    decreases |es|
  {
    hide Apply, Enabled;
    var last := |es| - 1;
    if last == 0 {
      assert es[..0] == [] && es[1..] == [];
    } else {
      RunSuffix(cfg, s, es[..last]);
      assert es[..last][1..] == es[1..][..last - 1];
    }
  }

  /** The outcome of every undisturbed reconcile that has ended: synced exactly when everything the instance names is
      there and what is its own to make is absent or its own, a panic exactly when cascconfig or the service is what
      is missing, absorbed exactly without an admin secret; an error otherwise. */
  lemma {:induction false} UndisturbedOutcome(cfg: Config, s: Sys, es: seq<Event>, w: int, req: Name, id: Identity)
    requires CanBegin(s, w, req, id) && IsRun(cfg, s, es) && UndisturbedReconcile(es, w, req)
    requires w in End(cfg, s, es).workers && End(cfg, s, es).workers[w].pc.Ended?
    ensures var worker := End(cfg, s, es).workers[w];
            && worker.req == req && worker.clean
            && (worker.pc == Ended(Synced) <==> CanSync(cfg, s.store, req, id))
            && (worker.pc == Ended(Panicked) <==> MustPanic(cfg, s.store, req, id))
            && (worker.pc == Ended(Absorbed) <==> id.spec.adminSecret == "")
    ensures CanSync(cfg, s.store, req, id) ==>
              && ServiceKey(req, id.spec) in End(cfg, s, es).store.objs
              && HasInstance(End(cfg, s, es).store, req, id)
              && End(cfg, s, es).store.objs[InstanceKey(req)].body.phase == READY
  {
    hide IsRun, End, CanSync, MustPanic, CanBegin;
    UndisturbedPoint(cfg, s, es, w, req, id);
  }

  /** There is such a reconcile, from every store: it cannot get stuck. */
  lemma {:induction false} UndisturbedCompletes(cfg: Config, s: Sys, w: int, req: Name, id: Identity)
    returns (es: seq<Event>)
    requires CanBegin(s, w, req, id)
    ensures IsRun(cfg, s, es) && UndisturbedReconcile(es, w, req)
    ensures w in End(cfg, s, es).workers && End(cfg, s, es).workers[w].pc.Ended?
  {
    hide WellKinded, Dated, HasInstance;
    var e := Begin(w, req);
    OneEvent(cfg, s, e);
    GateSensible();
    var rest := Completes(cfg, Apply(cfg, s, e), w);
    RunsCompose(cfg, s, [e], rest);
    es := [e] + rest;
    assert es[1..] == rest;
  }
}
