/** What the operator reads and writes, object by object: the keys, and everything the written objects say. */
module Contents {
  import opened Basics
  import opened Text
  import opened Plugins
  import opened Api
  import opened PodBuilder
  import opened Util
  import opened Services
  import opened Cluster
  import opened Protocol
  import opened Runs

  // ---- what is read ------------------------------------------------------------------------

  /** The service of an instance with this name and spec. */
  predicate IsServiceOf(key: Key, req: Name, spec: Spec)
  {
    && key.kind == ServiceKind && key.ns == req.ns
    && key.name == if spec.service.Some? && spec.service.value.name != "" then spec.service.value.name else req.name
  }

  predicate IsClaimOf(key: Key, req: Name, spec: Spec)
  {
    && key.kind == ClaimKind && key.ns == req.ns && spec.storage.Some?
    && key.name == if spec.storage.value.jobsPvc != "" then spec.storage.value.jobsPvc else req.name
  }

  /** Every read stays in the namespace of the request and gets the object that the instance held, or the request,
      names for this purpose. */
  lemma WhatIsRead(cfg: Config, req: Name, pc: Pc, call: Call)
    requires Issues(cfg, req, pc, call) && call.Get?
    ensures call.key.ns == req.ns
    ensures match pc
            case Gate(GateSecret(inst)) => call.key == Key(SecretKind, req.ns, inst.body.spec.adminSecret)
            case Setup(CmGet(_)) => call.key == Key(ConfigMapKind, req.ns, req.name)
            case Restarting(RestartService(looked)) => IsServiceOf(call.key, req, looked.body.spec)
            case Restarting(RestartSecret(looked)) =>
              call.key == Key(SecretKind, req.ns, looked.body.spec.adminSecret)
            case Deploying(DepGet(_)) => call.key == Key(DeploymentKind, req.ns, req.name)
            case Deploying(DepAccount(inst, _)) =>
              call.key == Key(AccountKind, req.ns, inst.body.spec.serviceAccount)
            case Deploying(DepClaim(inst, _)) => IsClaimOf(call.key, req, inst.body.spec)
            case Deploying(DepCascSecret(inst, _)) => call.key == Key(SecretKind, req.ns, inst.body.spec.cascSecret)
            case Deploying(DepGroovy(inst, _)) => call.key == Key(SecretKind, req.ns, inst.body.spec.groovySecret)
            case Deploying(DepCasc(inst, _, _)) =>
              && inst.body.spec.cascConfig.Some?
              && call.key == Key(ConfigMapKind, req.ns, inst.body.spec.cascConfig.value.configMap)
            case Serving(SvcGet(_, looked)) => IsServiceOf(call.key, req, looked.body.spec)
            case Reporting(StService(looked)) => IsServiceOf(call.key, req, looked.body.spec)
            case _ => call.key == Key(InstanceKind, req.ns, req.name)
  {
    hide UpdatedConfigMap, NewConfigMap, NewServiceObj, UpdatedService, NewClaim, IsNewDeployment, ReadyInstance;
  }

  // ---- what is written ---------------------------------------------------------------------

  /** The three labels of what belongs to an instance. */
  ghost predicate Labelled(o: Obj, name: string, id: Identity)
  {
    o.meta.labels == map["app" := "jenkinsci", "controller" := name, "component" := id.uid]
  }

  /** The file `plugins.txt` for this spec, and `jenkins.yaml` if there is a configuration. */
  ghost predicate IsData(cfg: Config, spec: Spec, data: Data)
  {
    && spec.cascConfig.Some?
    && data.Keys == {"plugins.txt"} + (if spec.cascConfig.value.configString == "" then {} else {"jenkins.yaml"})
    && data["plugins.txt"] == Join(PluginList(cfg.fold, cfg.requiredPlugins, spec.plugins), '\n')
    && ("jenkins.yaml" in data ==> data["jenkins.yaml"] == spec.cascConfig.value.configString)
  }

  /** The setup ConfigMap: created with the built data, updated by what is missing of it. */
  ghost predicate ConfigMapRight(cfg: Config, e: Entry)
    requires e.Wrote?
  {
    && e.key == Key(ConfigMapKind, e.req.ns, e.req.name)
    && Labelled(e.after, e.req.name, e.actor) && e.after.body.ConfigMapBody?
    && match e.before
       case None => e.after.meta.annotations == map[] && IsData(cfg, e.actor.spec, e.after.body.data)
       case Some(before) =>
         && before.body.ConfigMapBody? && e.after.meta.annotations == before.meta.annotations
         && exists built :: IsData(cfg, e.actor.spec, built) && e.after.body.data == built + before.body.data
  }

  /** The claim: created with the specification asked for, under the name asked for. */
  ghost predicate ClaimRight(e: Entry)
    requires e.Wrote?
  {
    && e.before.None? && IsClaimOf(e.key, e.req, e.actor.spec)
    && e.after.meta.labels == map[] && e.after.meta.annotations == map[]
    && e.actor.spec.storage.Some? && e.after.body.ClaimBody?
    && e.actor.spec.storage.value.jobsPvcSpec == Some(e.after.body.claim)
  }

  /** The Deployment: created with the instance's annotations; its pod is `PodSays`. */
  ghost predicate DeploymentRight(cfg: Config, e: Entry)
    requires e.Wrote?
  {
    && e.before.None? && e.key == Key(DeploymentKind, e.req.ns, e.req.name)
    && e.after.meta.labels == map[] && e.after.meta.annotations == e.actor.spec.annotations
    && e.after.body.DeploymentBody?
    && exists groovy, casc :: PodSays(cfg.jvmEnvironment, e.req.name, e.actor, groovy, casc, e.after.body.pod)
  }

  /** The service: created with what is asked for and updated to it, node ports excepted. */
  ghost predicate ServiceRight(known: set<(Name, Identity)>, e: Entry)
    requires e.Wrote?
  {
    var asked := e.actor.spec.service;
    && (exists id :: (e.req, id) in known && IsServiceOf(e.key, e.req, id.spec))
    && Labelled(e.after, e.req.name, e.actor) && e.after.body.ServiceBody?
    && var service := e.after.body.service;
       && HasTwoPorts(service.ports) && service.selector == map["component" := e.actor.uid]
       && (asked.Some? ==> e.after.meta.annotations == asked.value.annotations)
       && (asked.Some? && asked.value.serviceType != "" ==> service.serviceType == asked.value.serviceType)
       && match e.before
          case None =>
            && asked.Some? && IsServiceOf(e.key, e.req, e.actor.spec)
            && (asked.value.nodePort != 0 ==> NodePortOf(service.ports, "master") == asked.value.nodePort)
          case Some(before) =>
            && before.body.ServiceBody?
            && (asked.None? ==> e.after.meta.annotations == before.meta.annotations)
            && KeepsPort(before.body.service, service, "master") && KeepsPort(before.body.service, service, "agent")
  }

  ghost predicate KeepsPort(before: ServiceSpec, after: ServiceSpec, name: string)
  {
    NodePortOf(before.ports, name) != 0 ==> NodePortOf(after.ports, name) == NodePortOf(before.ports, name)
  }

  /** The instance: its phase, which was not "Ready", becomes "Ready". */
  ghost predicate InstanceRight(e: Entry)
    requires e.Wrote?
  {
    && e.key == Key(InstanceKind, e.req.ns, e.req.name) && e.before.Some?
    && e.before.value.body.InstanceBody? && e.before.value.body.phase != "Ready"
    && e.after.body == InstanceBody(e.before.value.body.spec, "Ready")
    && e.after.meta == e.before.value.meta.(version := e.after.meta.version)
  }

  /** Everything that is written is one of the five objects, and it is right. */
  ghost predicate Right(cfg: Config, known: set<(Name, Identity)>, e: Entry)
  {
    e.Wrote? ==>
      match e.key.kind
      case ConfigMapKind => ConfigMapRight(cfg, e)
      case ClaimKind => ClaimRight(e)
      case DeploymentKind => DeploymentRight(cfg, e)
      case ServiceKind => ServiceRight(known, e)
      case InstanceKind => InstanceRight(e)
      case SecretKind => false
      case AccountKind => false
  }

  /** The pod for this instance, with these files of the groovy secret and of the named configuration. */
  ghost predicate PodSays(jvmLines: seq<string>, name: string, id: Identity, groovy: set<string>, casc: set<string>,
                          pod: Pod)
  {
    var spec := id.spec;
    && pod.replicas == 1
    && pod.selector == map["app" := "jenkinsci", "controller" := name, "component" := id.uid]
    && pod.serviceAccount == spec.serviceAccount && pod.podOptions == spec.podOptions
    && EnvironmentSays(jvmLines, spec.env, pod.env)
    && VolumeNames(pod.volumes) ==
       {"required-plugins", "job-storage"}
       + (if spec.cascSecret == "" then {} else {"casc-secret"})
       + (if spec.groovySecret == "" then {} else {"groovy-secret"})
       + (if spec.cascConfig.None? then {} else {"casc-config"})
    && (forall v :: v in pod.volumes ==> VolumeHolds(v, name, spec, groovy, casc))
    && MountNames(pod.mounts) ==
       {"casc-config", "job-storage", "required-plugins"}
       + (if spec.cascSecret == "" then {} else {"casc-secret"})
       + (if spec.groovySecret == "" then {} else {"groovy-secret"})
    && forall m :: m in pod.mounts ==> MountSays(m)
  }

  /** The environment, variable by variable: the JVM lines in their order, the two CASC variables, the user's. */
  ghost predicate EnvironmentSays(jvmLines: seq<string>, env: Data, vars: seq<EnvVar>)
  {
    var n := |jvmLines|;
    && |vars| == n + 2 + |env|
    && (forall i :: 0 <= i < n ==> Says(jvmLines[i], vars[i].name, vars[i].value))
    && vars[n] == EnvVar("CASC_JENKINS_CONFIG", "/var/jenkins_home/casc_configs")
    && vars[n + 1] == EnvVar("SECRETS", "/var/jenkins_home/casc_secrets")
    && (forall i :: n + 2 <= i < |vars| ==> vars[i].name in env && vars[i].value == env[vars[i].name])
    && (forall i, j :: n + 2 <= i < j < |vars| ==> vars[i].name != vars[j].name)
  }

  ghost predicate MountSays(m: Mount)
  {
    || m == Mount("casc-config", true, "/var/jenkins_home/casc_configs")
    || m == Mount("casc-secret", true, "/var/jenkins_home/casc_secrets")
    || m == Mount("required-plugins", true, "/var/jenkins_home/required_plugins")
    || m == Mount("job-storage", false, "/var/jenkins_home/jobs")
    || m == Mount("groovy-secret", false, "/var/jenkins_home/init.groovy.d")
  }

  // ---- the pod -----------------------------------------------------------------------------

  lemma EnvListSays(jvmLines: seq<string>, env: Data, order: seq<string>)
    requires Splittable(jvmLines) && Enumerates(order, env.Keys)
    ensures EnvironmentSays(jvmLines, env, EnvList(jvmLines, env, order))
  {
    hide EnvList, Splittable;
    var vars, n := EnvList(jvmLines, env, order), |jvmLines|;
    EnvironmentByPosition(jvmLines, env, order, n);
    EnvironmentByPosition(jvmLines, env, order, n + 1);
    forall i | 0 <= i < |vars|
      ensures i < n ==> Says(jvmLines[i], vars[i].name, vars[i].value)
      ensures i >= n + 2 ==> vars[i].name in env && vars[i].value == env[vars[i].name]
    {
      EnvironmentByPosition(jvmLines, env, order, i);
    }
    forall i, j | n + 2 <= i < j < |vars| ensures vars[i].name != vars[j].name {
      EnvironmentByPosition(jvmLines, env, order, i);
      EnvironmentByPosition(jvmLines, env, order, j);
      OrderDistinct(order, env.Keys, i - n - 2, j - n - 2);
    }
  }

  lemma OrderDistinct(order: seq<string>, keys: set<string>, i: int, j: int)
    requires Enumerates(order, keys) && 0 <= i < j < |keys|
    ensures |order| == |keys| && order[i] != order[j]
  {
    EnumerationLength(order, keys);
  }

  lemma MountsSay(spec: Spec)
    ensures forall m :: m in Mounts(spec) ==> MountSays(m)
  {
  }

  /** Every pod newDeployment may build says all this. */
  lemma PodIsRight(jvmLines: seq<string>, name: string, inst: Instance, groovy: set<string>, casc: set<string>,
                   pod: Pod)
    requires Splittable(jvmLines) && IsPodFor(jvmLines, name, inst, groovy, casc, pod)
    ensures PodSays(jvmLines, name, Identify(inst), groovy, casc, pod)
  {
    hide EnvList, EnvironmentSays, VolumeNames, MountNames, Volumes, Mounts, VolumeHolds, MountSays;
    hide Splittable;
    var spec := inst.body.spec;
    var envOrder, groovyOrder, cascOrder :|
      && Enumerates(envOrder, spec.env.Keys) && Enumerates(groovyOrder, groovy) && Enumerates(cascOrder, casc)
      && (forall k :: k in envOrder ==> k in spec.env)
      && pod == PodFrom(jvmLines, name, inst, envOrder, groovyOrder, cascOrder);
    EnvListSays(jvmLines, spec.env, envOrder);
    VolumeNameSet(name, spec, groovyOrder, cascOrder);
    VolumesHold(name, spec, groovyOrder, groovy, cascOrder, casc);
    MountNameSet(spec);
    MountsSay(spec);
  }

  // ---- each write --------------------------------------------------------------------------

  /** What the history records of a landed write. */
  ghost predicate Records(e: Entry, req: Name, id: Identity, store: Store, call: Call, fill: Fill)
    requires Accepts(store, call)
  {
    e == Wrote(req, id, call.key, if call.key in store.objs then Some(store.objs[call.key]) else None,
               Written(store, call, fill))
  }

  lemma ConfigMapCreated(cfg: Config, store: Store, req: Name, inst: Instance, fill: Fill, e: Entry)
    requires inst.body.spec.cascConfig.Some?
    requires var call := Create(ConfigMapKey(req), NewConfigMap(cfg, req, inst));
             Accepts(store, call) && Records(e, req, Identify(inst), store, call, fill)
    ensures ConfigMapRight(cfg, e)
  {
    hide Join, PluginList;
    DataIs(cfg, inst.body.spec);
  }

  lemma DataIs(cfg: Config, spec: Spec)
    requires spec.cascConfig.Some?
    ensures IsData(cfg, spec, StringData(cfg, spec))
  {
    hide Join, PluginList;
    var text := PluginsTxt(cfg, spec);
    assert map["plugins.txt" := text].Keys == {"plugins.txt"};
  }

  lemma ConfigMapUpdated(cfg: Config, store: Store, req: Name, inst: Instance, cm: ConfigMap, fill: Fill, e: Entry)
    requires inst.body.spec.cascConfig.Some? && Snapshot(store, ConfigMapKey(req), cm)
    requires var call := Update(ConfigMapKey(req), UpdatedConfigMap(cfg, req, inst, cm));
             Accepts(store, call) && Records(e, req, Identify(inst), store, call, fill)
    ensures ConfigMapRight(cfg, e)
  {
    hide Join, PluginList, IsData, StringData;
    DataIs(cfg, inst.body.spec);
    assert e.after.body.data == StringData(cfg, inst.body.spec) + cm.body.data;
  }

  lemma ClaimCreated(store: Store, req: Name, inst: Instance, fill: Fill, e: Entry)
    requires inst.body.spec.storage.Some? && inst.body.spec.storage.value.jobsPvcSpec.Some?
    requires var call := Create(ClaimKey(req, inst.body.spec.storage.value), NewClaim(inst));
             Accepts(store, call) && Records(e, req, Identify(inst), store, call, fill)
    ensures ClaimRight(e)
  {
  }

  lemma DeploymentCreated(cfg: Config, store: Store, req: Name, inst: Instance, groovy: set<string>,
                          casc: set<string>, obj: Obj, fill: Fill, e: Entry)
    requires IsNewDeployment(cfg, req, inst, groovy, casc, obj)
    requires var call := Create(DeploymentKey(req), obj);
             Accepts(store, call) && Records(e, req, Identify(inst), store, call, fill)
    ensures DeploymentRight(cfg, e)
    ensures e.after.body == obj.body
  {
    hide IsPodFor, PodSays;
    PodIsRight(cfg.jvmEnvironment, req.name, inst, groovy, casc, obj.body.pod);
  }

  lemma ServiceCreated(cfg: Config, store: Store, known: set<(Name, Identity)>, req: Name, inst: Instance, fill: Fill,
                       e: Entry)
    requires inst.body.spec.service.Some? && (req, Identify(inst)) in known
    requires var call := Create(ServiceKey(req, inst.body.spec), NewServiceObj(req, inst));
             Accepts(store, call) && Records(e, req, Identify(inst), store, call, fill)
    ensures ServiceRight(known, e)
  {
    hide HasTwoPorts, NewService, Filled, NodePortOf;
    FilledServiceSays(Identify(inst), fill);
    assert IsServiceOf(e.key, req, Identify(inst).spec);
  }

  lemma ServiceUpdated(cfg: Config, store: Store, known: set<(Name, Identity)>, req: Name, inst: Instance,
                       looked: Instance, svc: Service, fill: Fill, e: Entry)
    requires (req, Identify(looked)) in known && Snapshot(store, ServiceKey(req, looked.body.spec), svc)
    requires var call := Update(ServiceKey(req, looked.body.spec), UpdatedService(req, inst, svc));
             Accepts(store, call) && Records(e, req, Identify(inst), store, call, fill)
    ensures ServiceRight(known, e)
  {
    hide HasTwoPorts, Rebuilt, Filled, NodePortOf;
    RebuiltSays(svc.body.service, Identify(inst), fill);
    assert IsServiceOf(e.key, req, Identify(looked).spec);
    forall name | name == "master" || name == "agent"
      ensures KeepsPort(svc.body.service, Filled(Rebuilt(svc.body.service, Identify(inst)), fill), name)
    {
      if NodePortOf(svc.body.service.ports, name) != 0 {
        NodePortKept(svc.body.service, Identify(inst), fill, name);
      }
    }
  }

  lemma StatusUpdated(store: Store, req: Name, inst: Instance, fill: Fill, e: Entry)
    requires Snapshot(store, InstanceKey(req), inst) && inst.body.phase != READY
    requires var call := UpdateStatus(InstanceKey(req), ReadyInstance(inst));
             Accepts(store, call) && Records(e, req, Identify(inst), store, call, fill)
    ensures InstanceRight(e)
  {
  }

  /** One landed write, at each of the seven points that write. */
  lemma WriteIsRight(cfg: Config, s: Sys, e: Event)
    requires Inv(cfg, s) && Enabled(cfg, s, e) && e.Act? && Lands(s.store, e.call, e.verdict)
    ensures |Record(s.store, s.workers[e.w], e.call, e.fill, e.verdict)| == 1
    ensures Right(cfg, s.known, Record(s.store, s.workers[e.w], e.call, e.fill, e.verdict)[0])
  {
    hide NewConfigMap, UpdatedConfigMap, NewClaim, IsNewDeployment, NewServiceObj, UpdatedService, ReadyInstance;
    hide ConfigMapRight, ClaimRight, DeploymentRight, ServiceRight, InstanceRight, Written, Snapshot, Settled;
    hide MergedData;
    var req, pc := s.workers[e.w].req, s.workers[e.w].pc;
    assert WorkerInv(cfg, s.store, s.known, req, pc);
    WritersHold(cfg, s, e);
    var entry := Record(s.store, s.workers[e.w], e.call, e.fill, e.verdict)[0];
    match pc
    case Setup(CmCreate(inst)) => ConfigMapCreated(cfg, s.store, req, inst, e.fill, entry);
    case Setup(CmUpdate(inst, cm)) => ConfigMapUpdated(cfg, s.store, req, inst, cm, e.fill, entry);
    case Deploying(DepClaimCreate(inst, _)) => ClaimCreated(s.store, req, inst, e.fill, entry);
    case Deploying(DepCreate(inst, groovy, casc)) =>
      DeploymentCreated(cfg, s.store, req, inst, groovy, casc, e.call.obj, e.fill, entry);
    case Serving(SvcCreate(inst)) => ServiceCreated(cfg, s.store, s.known, req, inst, e.fill, entry);
    case Serving(SvcUpdate(inst, looked, svc)) =>
      ServiceUpdated(cfg, s.store, s.known, req, inst, looked, svc, e.fill, entry);
    case Reporting(StUpdate(inst)) => StatusUpdated(s.store, req, inst, e.fill, entry);
    case _ =>
  }

  lemma RightStays(cfg: Config, known: set<(Name, Identity)>, known': set<(Name, Identity)>, e: Entry)
    requires Right(cfg, known, e) && known <= known'
    ensures Right(cfg, known', e)
  {
    hide ConfigMapRight, ClaimRight, DeploymentRight, InstanceRight, HasTwoPorts, KeepsPort, IsServiceOf, Labelled;
  }

  lemma StepIsRight(cfg: Config, s: Sys, e: Event)
    requires Inv(cfg, s) && Enabled(cfg, s, e)
    requires forall i :: 0 <= i < |s.log| ==> Right(cfg, s.known, s.log[i])
    ensures forall i :: 0 <= i < |Apply(cfg, s, e).log| ==>
              Right(cfg, Apply(cfg, s, e).known, Apply(cfg, s, e).log[i])
  {
    hide ConfigMapRight, ClaimRight, DeploymentRight, ServiceRight, InstanceRight, Acts, Resume, Written, Accepts;
    hide Reply, Inv;
    var s' := Apply(cfg, s, e);
    if e.Act? && Lands(s.store, e.call, e.verdict) {
      WriteIsRight(cfg, s, e);
    }
    forall i | 0 <= i < |s'.log| ensures Right(cfg, s'.known, s'.log[i]) {
      if s'.log[i].Wrote? {
        RightStays(cfg, s.known, s'.known, s'.log[i]);
      }
    }
  }

  /** Over every run, whatever is interleaved: everything the operator writes is right, for an instance that was stored
      under the requested name. */
  lemma {:induction false} EverythingWrittenIsRight(cfg: Config, s: Sys, es: seq<Event>)
    requires Initial(s) && IsRun(cfg, s, es)
    ensures forall i :: 0 <= i < |End(cfg, s, es).log| ==> Right(cfg, End(cfg, s, es).known, End(cfg, s, es).log[i])
  {
    hide Right, Apply, Enabled, Inv;
    if |es| > 0 {
      var last := |es| - 1;
      EverythingWrittenIsRight(cfg, s, es[..last]);
      InvOfRun(cfg, s, es[..last]);
      StepIsRight(cfg, End(cfg, s, es[..last]), es[last]);
    }
  }

  /** A written service selects the pods of exactly those written Deployments that are for the same instance. */
  lemma ServiceSelectsPods(cfg: Config, s: Sys, es: seq<Event>, i: nat, j: nat)
    requires Initial(s) && IsRun(cfg, s, es) && i < |End(cfg, s, es).log| && j < |End(cfg, s, es).log|
    requires var log := End(cfg, s, es).log;
             log[i].Wrote? && log[i].key.kind == ServiceKind && log[j].Wrote? && log[j].key.kind == DeploymentKind
    ensures var log := End(cfg, s, es).log;
            && log[i].after.body.ServiceBody? && log[j].after.body.DeploymentBody?
            && var selector, labels := log[i].after.body.service.selector, log[j].after.body.pod.selector;
               (forall k :: k in selector ==> k in labels && labels[k] == selector[k]) <==>
                 log[i].actor.uid == log[j].actor.uid
  {
    hide End, IsRun, HasTwoPorts, KeepsPort, IsServiceOf, EnvironmentSays, VolumeHolds, VolumeNames, MountNames;
    EverythingWrittenIsRight(cfg, s, es);
    var end := End(cfg, s, es);
    var service, deployment := end.log[i], end.log[j];
    assert ServiceRight(end.known, service) && DeploymentRight(cfg, deployment);
    var selector := service.after.body.service.selector;
    assert selector == map["component" := service.actor.uid] && "component" in selector;
  }
}
