/** One reconcile of one instance as a machine that issues one API request at a time.

    A `Pc` names the request that comes next and holds exactly the values read so far that the rest of the
    reconcile uses. `Issues` says which request that is and `Resume` how the reconcile goes on with the response;
    together they are Reconcile and the four stages it calls, cut at every request. */
module Protocol {
  import opened Basics
  import opened Text
  import opened Plugins
  import opened Api
  import opened PodBuilder
  import opened Services
  import opened Cluster

  const READY := "Ready"
  const PLUGINS_TXT := "plugins.txt"
  const JENKINS_YAML := "jenkins.yaml"

  /** The scanned lines of the two embedded assets, and the case folding of strings.EqualFold. */
  datatype Assets = Assets(requiredPlugins: seq<string>, jvmEnvironment: seq<string>, fold: char -> char)

  /** Assets whose JVM lines can all be split, as the code demands. */
  type Config = a: Assets | Splittable(a.jvmEnvironment) witness Assets([], [], c => c)

  type ConfigMap = o: Obj | o.body.ConfigMapBody? witness Obj(FreshMeta, ConfigMapBody(map[]))
  type Service = o: Obj | o.body.ServiceBody? witness Obj(FreshMeta, ServiceBody(ServiceSpec([], map[], "", "")))

  /** How a reconcile ends: synced; without error but early; with an error to requeue; by a nil dereference. */
  datatype Outcome = Synced | Absorbed | Errored | Panicked

  // ---- program points ----------------------------------------------------------------------

  datatype GatePc = GateInstance | GateSecret(inst: Instance)

  /** newSetupConfigMap up to and including its write. */
  datatype SetupPc =
    | CmInstance
    | CmGet(inst: Instance)
    | CmCreate(inst: Instance)
    | CmUpdate(inst: Instance, cm: ConfigMap)

  /** The rest of newSetupConfigMap after an update: getService, getAdminSecret and the safe restart. */
  datatype RestartPc =
    | RestartInstance
    | RestartService(looked: Instance)
    | RestartInstance2
    | RestartSecret(looked: Instance)
    | RestartCall

  /** newDeployment; `present` says that the Deployment was found. */
  datatype DeployPc =
    | DepInstance
    | DepGet(inst: Instance)
    | DepAccount(inst: Instance, present: bool)
    | DepClaim(inst: Instance, present: bool)
    | DepClaimCreate(inst: Instance, present: bool)
    | DepCascSecret(inst: Instance, present: bool)
    | DepGroovy(inst: Instance, present: bool)
    | DepCasc(inst: Instance, present: bool, groovy: set<string>)
    | DepCreate(inst: Instance, groovy: set<string>, casc: set<string>)

  /** newService; `looked` is the instance as getService reads it again. */
  datatype ServicePc =
    | SvcInstance
    | SvcInstance2(inst: Instance)
    | SvcGet(inst: Instance, looked: Instance)
    | SvcCreate(inst: Instance)
    | SvcUpdate(inst: Instance, looked: Instance, svc: Service)

  /** updateJenkinsInstanceStatus. */
  datatype StatusPc =
    | StInstance
    | StService(looked: Instance)
    | StProbe
    | StInstance2
    | StUpdate(inst: Instance)

  datatype Pc =
    | Gate(gate: GatePc)
    | Setup(setup: SetupPc)
    | Restarting(restart: RestartPc)
    | Deploying(deploy: DeployPc)
    | Serving(serve: ServicePc)
    | Reporting(report: StatusPc)
    | Ended(outcome: Outcome)

  const FAIL := Ended(Errored)

  /** The instance a program point holds. */
  function Held(pc: Pc): Option<Instance>
  {
    match pc
    case Gate(gate) => if gate.GateSecret? then Some(gate.inst) else None
    case Setup(setup) => if setup.CmInstance? then None else Some(setup.inst)
    case Restarting(restart) => if restart.RestartService? || restart.RestartSecret? then Some(restart.looked) else None
    case Deploying(deploy) => if deploy.DepInstance? then None else Some(deploy.inst)
    case Serving(serve) => if serve.SvcInstance? then None else Some(serve.inst)
    case Reporting(report) =>
      if report.StService? then Some(report.looked) else if report.StUpdate? then Some(report.inst) else None
    case Ended(_) => None
  }

  /** The instance as getService read it, where newService holds that too. */
  function Looked(pc: Pc): Option<Instance>
  {
    if pc.Serving? && (pc.serve.SvcGet? || pc.serve.SvcUpdate?) then Some(pc.serve.looked) else None
  }

  /** Where newDeployment can go once it has read `inst`. */
  predicate DeploysOrLeaves(inst: Instance, pc: Pc)
  {
    pc == FAIL || pc == Serving(SvcInstance) || (pc.Deploying? && Held(pc) == Some(inst))
  }

  // ---- the objects written -----------------------------------------------------------------

  function PluginsTxt(cfg: Config, spec: Spec): string
  {
    Join(PluginList(cfg.fold, cfg.requiredPlugins, spec.plugins), '\n')
  }

  /** The data the setup ConfigMap is built from. */
  function StringData(cfg: Config, spec: Spec): Data
    requires spec.cascConfig.Some?
  {
    map[PLUGINS_TXT := PluginsTxt(cfg, spec)]
    + if spec.cascConfig.value.configString == "" then map[]
      else map[JENKINS_YAML := spec.cascConfig.value.configString]
  }

  /** MergeData(stringData, existing): what is already there wins. */
  function MergedData(cfg: Config, spec: Spec, existing: Data): Data
    requires spec.cascConfig.Some?
  {
    StringData(cfg, spec) + existing
  }

  /** Metadata of an object the operator creates, after SetControllerReference. */
  function OwnedMeta(labels: Data, annotations: Data, inst: Instance): Meta
  {
    Meta("", Some(inst.meta.uid), 0, labels, annotations)
  }

  function NewConfigMap(cfg: Config, req: Name, inst: Instance): Obj
    requires inst.body.spec.cascConfig.Some?
  {
    Obj(OwnedMeta(Labels(req.name, inst), map[], inst), ConfigMapBody(StringData(cfg, inst.body.spec)))
  }

  function UpdatedConfigMap(cfg: Config, req: Name, inst: Instance, cm: ConfigMap): Obj
    requires inst.body.spec.cascConfig.Some?
  {
    Obj(cm.meta.(labels := Labels(req.name, inst)), ConfigMapBody(MergedData(cfg, inst.body.spec, cm.body.data)))
  }

  function NewClaim(inst: Instance): Obj
    requires inst.body.spec.storage.Some? && inst.body.spec.storage.value.jobsPvcSpec.Some?
  {
    Obj(OwnedMeta(map[], map[], inst), ClaimBody(inst.body.spec.storage.value.jobsPvcSpec.value))
  }

  /** A Deployment newDeployment may create, for some visiting order of the maps it reads. */
  ghost predicate IsNewDeployment(cfg: Config, req: Name, inst: Instance, groovy: set<string>, casc: set<string>,
                                  obj: Obj)
  {
    && obj.meta == OwnedMeta(map[], inst.body.spec.annotations, inst)
    && obj.body.DeploymentBody?
    && IsPodFor(cfg.jvmEnvironment, req.name, inst, groovy, casc, obj.body.pod)
  }

  function NewServiceObj(req: Name, inst: Instance): Obj
    requires inst.body.spec.service.Some?
  {
    Obj(OwnedMeta(Labels(req.name, inst), inst.body.spec.service.value.annotations, inst),
        ServiceBody(NewService(Identify(inst))))
  }

  function UpdatedService(req: Name, inst: Instance, svc: Service): Obj
  {
    var annotations :=
      if inst.body.spec.service.Some? then inst.body.spec.service.value.annotations else svc.meta.annotations;
    Obj(svc.meta.(labels := Labels(req.name, inst), annotations := annotations),
        ServiceBody(Rebuilt(svc.body.service, Identify(inst))))
  }

  function ReadyInstance(inst: Instance): Obj
  {
    inst.(body := inst.body.(phase := READY))
  }

  // ---- what a spec names -------------------------------------------------------------------

  predicate AccountThere(store: Store, ns: string, spec: Spec)
  {
    spec.serviceAccount != "" ==> Key(AccountKind, ns, spec.serviceAccount) in store.objs
  }

  // ---- the next request --------------------------------------------------------------------

  function SecretKey(req: Name, name: string): Key { Key(SecretKind, req.ns, name) }

  /** The key a program point of newDeployment gets. */
  function DeployReads(req: Name, deploy: DeployPc): Option<Key>
  {
    match deploy
    case DepInstance => Some(InstanceKey(req))
    case DepGet(_) => Some(DeploymentKey(req))
    case DepAccount(inst, _) => Some(Key(AccountKind, req.ns, inst.body.spec.serviceAccount))
    case DepClaim(inst, _) =>
      if inst.body.spec.storage.Some? then Some(ClaimKey(req, inst.body.spec.storage.value)) else None
    case DepCascSecret(inst, _) => Some(SecretKey(req, inst.body.spec.cascSecret))
    case DepGroovy(inst, _) => Some(SecretKey(req, inst.body.spec.groovySecret))
    case DepCasc(inst, _, _) =>
      if inst.body.spec.cascConfig.Some?
      then Some(Key(ConfigMapKind, req.ns, inst.body.spec.cascConfig.value.configMap)) else None
    case _ => None
  }

  /** The key a reading program point gets; None for the others. */
  function Reads(req: Name, pc: Pc): Option<Key>
  {
    match pc
    case Gate(GateInstance) => Some(InstanceKey(req))
    case Gate(GateSecret(inst)) => Some(SecretKey(req, inst.body.spec.adminSecret))
    case Setup(CmInstance) => Some(InstanceKey(req))
    case Setup(CmGet(_)) => Some(ConfigMapKey(req))
    case Restarting(RestartInstance) => Some(InstanceKey(req))
    case Restarting(RestartService(looked)) => Some(ServiceKey(req, looked.body.spec))
    case Restarting(RestartInstance2) => Some(InstanceKey(req))
    case Restarting(RestartSecret(looked)) => Some(SecretKey(req, looked.body.spec.adminSecret))
    case Deploying(deploy) => DeployReads(req, deploy)
    case Serving(SvcInstance) => Some(InstanceKey(req))
    case Serving(SvcInstance2(_)) => Some(InstanceKey(req))
    case Serving(SvcGet(_, looked)) => Some(ServiceKey(req, looked.body.spec))
    case Reporting(StInstance) => Some(InstanceKey(req))
    case Reporting(StService(looked)) => Some(ServiceKey(req, looked.body.spec))
    case Reporting(StInstance2) => Some(InstanceKey(req))
    case _ => None
  }

  /** `call` is what a program point that does not read may request. */
  ghost predicate Acts(cfg: Config, req: Name, pc: Pc, call: Call)
  {
    match pc
    case Setup(CmCreate(inst)) =>
      inst.body.spec.cascConfig.Some? && call == Create(ConfigMapKey(req), NewConfigMap(cfg, req, inst))
    case Setup(CmUpdate(inst, cm)) =>
      inst.body.spec.cascConfig.Some? && call == Update(ConfigMapKey(req), UpdatedConfigMap(cfg, req, inst, cm))
    case Restarting(RestartCall) => call == Restart
    case Deploying(DepClaimCreate(inst, _)) =>
      && inst.body.spec.storage.Some? && inst.body.spec.storage.value.jobsPvcSpec.Some?
      && call == Create(ClaimKey(req, inst.body.spec.storage.value), NewClaim(inst))
    case Deploying(DepCreate(inst, groovy, casc)) =>
      call.Create? && call.key == DeploymentKey(req) && IsNewDeployment(cfg, req, inst, groovy, casc, call.obj)
    case Serving(SvcCreate(inst)) =>
      inst.body.spec.service.Some? && call == Create(ServiceKey(req, inst.body.spec), NewServiceObj(req, inst))
    case Serving(SvcUpdate(inst, looked, svc)) =>
      call == Update(ServiceKey(req, looked.body.spec), UpdatedService(req, inst, svc))
    case Reporting(StProbe) => call == Probe
    case Reporting(StUpdate(inst)) => call == UpdateStatus(InstanceKey(req), ReadyInstance(inst))
    case _ => false
  }

  /** `call` is a request the reconcile may issue at `pc`. */
  ghost predicate Issues(cfg: Config, req: Name, pc: Pc, call: Call)
  {
    if Reads(req, pc).Some? then call == Get(Reads(req, pc).value) else Acts(cfg, req, pc, call)
  }

  // ---- going on with the response ----------------------------------------------------------

  predicate IsInstance(r: Response) { r.Found? && r.obj.body.InstanceBody? }
  predicate IsConfigMap(r: Response) { r.Found? && r.obj.body.ConfigMapBody? }
  predicate IsSecret(r: Response) { r.Found? && r.obj.body.SecretBody? }
  predicate IsDeployment(r: Response) { r.Found? && r.obj.body.DeploymentBody? }
  predicate IsService(r: Response) { r.Found? && r.obj.body.ServiceBody? }

  function ResumeGate(gate: GatePc, r: Response): Pc
  {
    match gate
    case GateInstance =>
      if IsInstance(r) then
        if r.obj.body.spec.adminSecret == "" then Ended(Absorbed) else Gate(GateSecret(r.obj))
      else if r.NotFound? then Ended(Absorbed)
      else FAIL
    case GateSecret(_) => if r.NotFound? then FAIL else Setup(CmInstance)
  }

  function AfterCmGet(cfg: Config, inst: Instance, r: Response): Pc
  {
    if r.NotFound? then
      if inst.body.spec.cascConfig.None? then Ended(Panicked) else Setup(CmCreate(inst))
    else if IsConfigMap(r) then
      if !IsControlledBy(r.obj, inst) then FAIL
      else if inst.body.spec.cascConfig.None? then Ended(Panicked)
      else if MergedData(cfg, inst.body.spec, r.obj.body.data) == r.obj.body.data then Deploying(DepInstance)
      else Setup(CmUpdate(inst, r.obj))
    else FAIL
  }

  function ResumeSetup(cfg: Config, setup: SetupPc, r: Response): Pc
  {
    match setup
    case CmInstance => if IsInstance(r) then Setup(CmGet(r.obj)) else FAIL
    case CmGet(inst) => AfterCmGet(cfg, inst, r)
    case CmCreate(_) => if r.Done? then Deploying(DepInstance) else FAIL
    case CmUpdate(_, _) => if r.Done? then Restarting(RestartInstance) else FAIL
  }

  function ResumeRestart(restart: RestartPc, r: Response): Pc
  {
    match restart
    case RestartInstance => if IsInstance(r) then Restarting(RestartService(r.obj)) else FAIL
    case RestartService(_) => if IsService(r) then Restarting(RestartInstance2) else FAIL
    case RestartInstance2 => if IsInstance(r) then Restarting(RestartSecret(r.obj)) else FAIL
    case RestartSecret(_) => if IsSecret(r) then Restarting(RestartCall) else FAIL
    case RestartCall => if r.Done? then Deploying(DepInstance) else FAIL
  }

  function AfterDepGet(inst: Instance, r: Response): (pc: Pc)
    ensures DeploysOrLeaves(inst, pc)
  {
    if r.NotFound? then ToAccount(inst, false)
    else if IsDeployment(r) && IsControlledBy(r.obj, inst) then ToAccount(inst, true)
    else FAIL
  }

  function ToAccount(inst: Instance, present: bool): (pc: Pc)
    ensures DeploysOrLeaves(inst, pc)
  {
    if inst.body.spec.serviceAccount != "" then Deploying(DepAccount(inst, present)) else ToClaim(inst, present)
  }

  function ToClaim(inst: Instance, present: bool): (pc: Pc)
    ensures DeploysOrLeaves(inst, pc)
  {
    if inst.body.spec.storage.Some? then Deploying(DepClaim(inst, present)) else ToCascSecret(inst, present)
  }

  /** Only NotFound is acted on: any other failure of the claim's Get falls through. */
  function AfterClaim(inst: Instance, present: bool, r: Response): (pc: Pc)
    ensures DeploysOrLeaves(inst, pc)
  {
    if r.NotFound? then
      if inst.body.spec.storage.Some? && inst.body.spec.storage.value.jobsPvcSpec.Some?
      then Deploying(DepClaimCreate(inst, present)) else FAIL
    else ToCascSecret(inst, present)
  }

  function ToCascSecret(inst: Instance, present: bool): (pc: Pc)
    ensures DeploysOrLeaves(inst, pc)
  {
    if inst.body.spec.cascSecret != "" then Deploying(DepCascSecret(inst, present)) else ToGroovy(inst, present)
  }

  function ToGroovy(inst: Instance, present: bool): (pc: Pc)
    ensures DeploysOrLeaves(inst, pc)
  {
    if inst.body.spec.groovySecret != "" then Deploying(DepGroovy(inst, present)) else ToCasc(inst, present, {})
  }

  function ToCasc(inst: Instance, present: bool, groovy: set<string>): (pc: Pc)
    ensures DeploysOrLeaves(inst, pc)
  {
    if !CascSpecified(inst.body.spec) then FAIL
    else if inst.body.spec.cascConfig.Some? && inst.body.spec.cascConfig.value.configMap != ""
    then Deploying(DepCasc(inst, present, groovy))
    else ToDeploy(inst, present, groovy, {})
  }

  /** An existing Deployment is never updated: the replica pointers it compares are never the same. */
  function ToDeploy(inst: Instance, present: bool, groovy: set<string>, casc: set<string>): (pc: Pc)
    ensures DeploysOrLeaves(inst, pc)
  {
    if present then Serving(SvcInstance) else Deploying(DepCreate(inst, groovy, casc))
  }

  function ResumeDeployment(deploy: DeployPc, r: Response): Pc
  {
    match deploy
    case DepInstance => if IsInstance(r) then Deploying(DepGet(r.obj)) else FAIL
    case DepGet(inst) => AfterDepGet(inst, r)
    case DepAccount(inst, present) => if r.Found? then ToClaim(inst, present) else FAIL
    case DepClaim(inst, present) => AfterClaim(inst, present, r)
    case DepClaimCreate(inst, present) => if r.Done? then ToCascSecret(inst, present) else FAIL
    case DepCascSecret(inst, present) => if IsSecret(r) then ToGroovy(inst, present) else FAIL
    case DepGroovy(inst, present) => if IsSecret(r) then ToCasc(inst, present, r.obj.body.secret.Keys) else FAIL
    case DepCasc(inst, present, groovy) =>
      if IsConfigMap(r) then ToDeploy(inst, present, groovy, r.obj.body.data.Keys) else FAIL
    case DepCreate(_, _, _) => if r.Done? then Serving(SvcInstance) else FAIL
  }

  function AfterSvcGet(inst: Instance, looked: Instance, r: Response): Pc
  {
    if r.NotFound? then
      if inst.body.spec.service.None? then Ended(Panicked) else Serving(SvcCreate(inst))
    else if IsService(r) && IsControlledBy(r.obj, inst) then
      if Settled(r.obj.body.service, Identify(inst)) then Reporting(StInstance)
      else Serving(SvcUpdate(inst, looked, r.obj))
    else FAIL
  }

  /** The error of creating the service is dropped. */
  function ResumeService(serve: ServicePc, r: Response): Pc
  {
    match serve
    case SvcInstance => if IsInstance(r) then Serving(SvcInstance2(r.obj)) else FAIL
    case SvcInstance2(inst) => if IsInstance(r) then Serving(SvcGet(inst, r.obj)) else FAIL
    case SvcGet(inst, looked) => AfterSvcGet(inst, looked, r)
    case SvcCreate(_) => Reporting(StInstance)
    case SvcUpdate(_, _, _) => if r.Done? then Reporting(StInstance) else FAIL
  }

  function ResumeStatus(report: StatusPc, r: Response): Pc
  {
    match report
    case StInstance => if IsInstance(r) then Reporting(StService(r.obj)) else FAIL
    case StService(_) => if IsService(r) then Reporting(StProbe) else FAIL
    case StProbe => if r.Done? then Reporting(StInstance2) else FAIL
    case StInstance2 =>
      if IsInstance(r) then
        if r.obj.body.phase == READY then Ended(Synced) else Reporting(StUpdate(r.obj))
      else FAIL
    case StUpdate(_) => if r.Done? then Ended(Synced) else FAIL
  }

  /** Reconcile: the stages in their order, each starting where the one before it ends without error. */
  function Resume(cfg: Config, pc: Pc, r: Response): Pc
  {
    match pc
    case Gate(gate) => ResumeGate(gate, r)
    case Setup(setup) => ResumeSetup(cfg, setup, r)
    case Restarting(restart) => ResumeRestart(restart, r)
    case Deploying(deploy) => ResumeDeployment(deploy, r)
    case Serving(serve) => ResumeService(serve, r)
    case Reporting(report) => ResumeStatus(report, r)
    case Ended(_) => pc
  }
}
