/** The controller as the source writes it: methods that issue requests to the API server and return errors.

    Every method is proved to follow the protocol machine request by request, under arbitrary interference of
    other clients before each request and arbitrary failures, so a call of Reconcile is a run in the sense of
    module Runs and every theorem about runs holds of it. */
module Controller {
  import opened Basics
  import opened Text
  import opened Plugins
  import opened Api
  import opened Util
  import opened PodBuilder
  import opened Services
  import opened Cluster
  import opened Protocol
  import opened Runs
  import opened Ownership
  import opened SetupConfigMap
  import opened StableDeployments
  import opened StablePorts
  import opened Convergence
  import opened Idempotence
  import opened Staging
  import opened Panics

  /** How the environment meets one request: what other clients did just before, and how the request fares. */
  datatype Turn = Turn(before: Option<Store>, fill: Fill, verdict: Verdict)

  /** How many reconciles a run begins. */
  ghost function Begins(es: seq<Event>): nat
  {
    if |es| == 0 then 0 else Begins(es[..|es| - 1]) + if es[|es| - 1].Begin? then 1 else 0
  }

  lemma BeginsExtends(es: seq<Event>, e: Event)
    ensures Begins(es + [e]) == Begins(es) + if e.Begin? then 1 else 0
  {
    assert (es + [e])[..|es|] == es;
  }

  /** A history that goes on from an earlier one. */
  ghost predicate Continues(before: seq<Event>, after: seq<Event>)
  {
    before <= after
  }

  lemma ContinuesOn()
    ensures forall es :: Continues(es, es)
    ensures forall a, b, c :: Continues(a, b) && Continues(b, c) ==> Continues(a, c)
  {
  }

  /** The client side of the API server. `turns` is the behaviour of the environment, fixed but arbitrary. */
  class ApiServer {
    const cfg: Config
    var sys: Sys
    var turns: seq<Turn>
    ghost const start: Sys
    ghost const quiet: bool
    ghost var trace: seq<Event>
    ghost var begun: nat

    constructor (cfg: Config, store: Store, turns: seq<Turn>)
      requires Dated(store)
      ensures Valid() && Initial(start) && start.store == store && sys == start && this.cfg == cfg
      ensures quiet <==> forall i :: 0 <= i < |turns| ==> turns[i].before.None?
    {
      this.cfg := cfg;
      this.turns := turns;
      var initial := Sys(store, map[], [], Identities(store));
      sys := initial;
      start := initial;
      quiet := forall i :: 0 <= i < |turns| ==> turns[i].before.None?;
      trace := [];
      begun := 0;
    }

    /** The state is the end of the run recorded so far, which began `begun` reconciles; `quiet` means that no
        other client ever acts. */
    ghost predicate Valid()
      reads this
    {
      && IsRun(cfg, start, trace) && sys == End(cfg, start, trace) && begun == Begins(trace)
      && (quiet ==> OperatorOnly(trace) && forall i :: 0 <= i < |turns| ==> turns[i].before.None?)
    }

    /** Worker `w` is reconciling `req` and stands at `pc`. */
    ghost predicate At(w: int, req: Name, pc: Pc)
      reads this
    {
      Valid() && w in sys.workers && sys.workers[w].req == req && sys.workers[w].pc == pc
    }

    /** A reconcile is taken from the work queue. */
    method Start(w: int, req: Name)
      requires Valid() && (w in sys.workers ==> sys.workers[w].pc.Ended?)
      modifies this
      ensures At(w, req, Gate(GateInstance)) && begun == old(begun) + 1 && Continues(old(trace), trace)
    {
      RunExtends(cfg, start, trace, Begin(w, req));
      sys := Apply(cfg, sys, Begin(w, req));
      BeginsExtends(trace, Begin(w, req));
      trace := trace + [Begin(w, req)];
      begun := begun + 1;
    }

    /** Other clients may act before a request; no reconcile moves. */
    method Interfere() returns (turn: Turn)
      requires Valid()
      modifies this
      ensures Valid() && sys.workers == old(sys.workers) && begun == old(begun) && Continues(old(trace), trace)
    {
      turn := Turn(None, Fill([], "", ""), Normal);
      if |turns| > 0 {
        turn := turns[0];
        turns := turns[1..];
      }
      if turn.before.Some? && Evolves(sys.store, turn.before.value) {
        hide IsRun, End;
        var e := Foreign(turn.before.value);
        RunExtends(cfg, start, trace, e);
        sys := Apply(cfg, sys, e);
        BeginsExtends(trace, e);
        trace := trace + [e];
      }
    }

    /** One request: others may act first, then it is served, refused, or served with its reply lost. */
    method Request(w: int, call: Call, ghost req: Name, ghost pc: Pc) returns (r: Response)
      requires At(w, req, pc) && Issues(cfg, req, pc, call)
      modifies this
      ensures At(w, req, Resume(cfg, pc, r)) && begun == old(begun) && Continues(old(trace), trace)
      ensures call.Get? ==> !r.Done? && (r.Found? ==> r.obj.body.Kind() == call.key.kind)
      ensures !call.Get? ==> r.Done? || r.Failed?
    {
      hide Issues, Resume, IsRun, End, StoreAfter, Record, Identities;
      var turn := Interfere();
      var e := Act(w, call, turn.fill, turn.verdict);
      RunExtends(cfg, start, trace, e);
      r := Reply(sys.store, call, turn.verdict);
      sys := Apply(cfg, sys, e);
      BeginsExtends(trace, e);
      trace := trace + [e];
    }
  }

  /** A Go error: none, some error, or the panic of a nil dereference. */
  datatype Error = Nil | Failure | NilDereference

  /** The `Replicas` field of a Deployment is a pointer. */
  class ReplicaCell {
    var value: int
    constructor (value: int)
      ensures this.value == value
    {
      this.value := value;
    }
  }

  /** A Deployment as the client decodes it. */
  class DeploymentObject {
    var annotations: Data
    var replicas: ReplicaCell
    var pod: Pod

    constructor (annotations: Data, pod: Pod)
      ensures this.annotations == annotations && this.pod == pod
      ensures fresh(replicas) && replicas.value == pod.replicas
    {
      this.annotations := annotations;
      this.pod := pod;
      this.replicas := new ReplicaCell(pod.replicas);
    }

    method DeepCopy() returns (c: DeploymentObject)
      ensures fresh(c) && fresh(c.replicas)
      ensures c.annotations == annotations && c.pod == pod && c.replicas.value == pod.replicas
    {
      c := new DeploymentObject(annotations, pod);
    }
  }

  class Reconciler {
    const client: ApiServer
    const me: int

    constructor (client: ApiServer, me: int)
      ensures this.client == client && this.me == me
    {
      this.client := client;
      this.me := me;
    }

    ghost predicate At(req: Name, pc: Pc)
      reads this, client
    {
      client.At(me, req, pc)
    }

    /** A stage that ends without error leaves the worker at `next`, with an error or a panic at that end. */
    ghost predicate Leads(err: Error, req: Name, next: Pc)
      reads this, client
    {
      match err
      case Nil => At(req, next)
      case Failure => At(req, FAIL)
      case NilDereference => At(req, Ended(Panicked))
    }

    method GetInstance(name: Name, ghost pc: Pc) returns (r: Response)
      requires At(name, pc) && Reads(name, pc) == Some(InstanceKey(name))
      modifies client
      ensures client.begun == old(client.begun) && Continues(old(client.trace), client.trace)
      ensures At(name, Resume(client.cfg, pc, r))
      ensures r.NotFound? || r.Failed? || IsInstance(r)
    {
      hide Continues;
      ContinuesOn();
      hide Resume, Acts;
      r := client.Request(me, Get(InstanceKey(name)), name, pc);
    }

    /** Where getService stands after it has read the instance. */
    static ghost function ServicePoint(pc: Pc, looked: Instance): Pc
    {
      if pc.Restarting? then Restarting(RestartService(looked))
      else if pc.Serving? && pc.serve.SvcInstance2? then Serving(SvcGet(pc.serve.inst, looked))
      else Reporting(StService(looked))
    }

    /** A failure to read the instance is wrapped, so it never counts as NotFound. */
    method GetService(name: Name, ghost pc: Pc) returns (r: Response, looked: Instance)
      requires At(name, pc)
      requires
        || pc == Restarting(RestartInstance)
        || (pc.Serving? && pc.serve.SvcInstance2?)
        || pc == Reporting(StInstance)
      modifies client
      ensures client.begun == old(client.begun) && Continues(old(client.trace), client.trace)
      ensures r.NotFound? || r.Failed? || IsService(r)
      ensures if r.Failed? then At(name, FAIL) else At(name, Resume(client.cfg, ServicePoint(pc, looked), r))
    {
      hide Continues;
      ContinuesOn();
      hide AfterSvcGet, Acts;
      looked := Obj(FreshMeta, InstanceBody(SampleSpec, ""));
      r := GetInstance(name, pc);
      if !r.Found? {
        return Failed, looked;
      }
      looked := r.obj;
      assert At(name, ServicePoint(pc, looked));
      r := client.Request(me, Get(ServiceKey(name, looked.body.spec)), name, ServicePoint(pc, looked));
      if r.Failed? {
        ServiceFailure(client.cfg, ServicePoint(pc, looked));
      }
    }

    lemma ServiceFailure(cfg: Config, pc: Pc)
      requires
        || (pc.Restarting? && pc.restart.RestartService?)
        || (pc.Serving? && pc.serve.SvcGet?)
        || (pc.Reporting? && pc.report.StService?)
      ensures Resume(cfg, pc, Failed) == FAIL
    {
    }

    method GetAdminSecret(name: Name) returns (r: Response)
      requires At(name, Restarting(RestartInstance2))
      modifies client
      ensures client.begun == old(client.begun) && Continues(old(client.trace), client.trace)
      ensures if IsSecret(r) then At(name, Restarting(RestartCall)) else At(name, FAIL)
    {
      hide Continues;
      ContinuesOn();
      r := GetInstance(name, Restarting(RestartInstance2));
      if !r.Found? {
        return Failed;
      }
      var looked: Instance := r.obj;
      r := client.Request(me, Get(SecretKey(name, looked.body.spec.adminSecret)), name,
          Restarting(RestartSecret(looked)));
    }

    // ---- newSetupConfigMap -----------------------------------------------------------------

    method BuildStringData(spec: Spec) returns (stringData: Data)
      requires spec.cascConfig.Some?
      ensures stringData == StringData(client.cfg, spec)
      ensures stringData.Keys ==
              {"plugins.txt"} + (if spec.cascConfig.value.configString == "" then {} else {"jenkins.yaml"})
      ensures "jenkins.yaml" in stringData ==> stringData["jenkins.yaml"] == spec.cascConfig.value.configString
    {
      var pluginList := BuildPluginList(client.cfg.fold, client.cfg.requiredPlugins, spec.plugins);
      stringData := map[PLUGINS_TXT := Join(pluginList, '\n')];
      if spec.cascConfig.value.configString != "" {
        stringData := stringData[JENKINS_YAML := spec.cascConfig.value.configString];
      }
    }

    method NewSetupConfigMap(name: Name) returns (err: Error)
      requires At(name, Setup(CmInstance))
      modifies client
      ensures client.begun == old(client.begun) && Continues(old(client.trace), client.trace)
      ensures Leads(err, name, Deploying(DepInstance))
    {
      hide Continues;
      ContinuesOn();
      hide PluginsTxt, Labels, NewConfigMap, UpdatedConfigMap, StringData, MergedData;
      var present := false;
      var cm: ConfigMap := Obj(FreshMeta, ConfigMapBody(map[]));
      var r := GetInstance(name, Setup(CmInstance));
      if !r.Found? {
        return Failure;
      }
      var inst: Instance := r.obj;
      r := client.Request(me, Get(ConfigMapKey(name)), name, Setup(CmGet(inst)));
      if !r.Found? {
        if !r.NotFound? {
          return Failure;
        }
      } else {
        if !IsControlledBy(r.obj, inst) {
          return Failure;
        }
        present := true;
        cm := r.obj;
      }
      if inst.body.spec.cascConfig.None? {
        return NilDereference;
      }
      var stringData := BuildStringData(inst.body.spec);
      if present {
        var data := MergeData([stringData, cm.body.data]);
        MergedPair(client.cfg, inst.body.spec, cm.body.data);
        if data == cm.body.data {
          return Nil;
        }
        err := UpdateSetupConfigMap(name, inst, cm, data);
      } else {
        var obj := Obj(OwnedMeta(Labels(name.name, inst), map[], inst), ConfigMapBody(stringData));
        NewConfigMapIs(client.cfg, name, inst, obj);
        r := client.Request(me, Create(ConfigMapKey(name), obj), name, Setup(CmCreate(inst)));
        err := if r.Done? then Nil else Failure;
      }
    }

    /** The update of an existing map, followed by the safe restart of Jenkins. */
    method UpdateSetupConfigMap(name: Name, inst: Instance, cm: ConfigMap, data: Data) returns (err: Error)
      requires inst.body.spec.cascConfig.Some? && data == MergedData(client.cfg, inst.body.spec, cm.body.data)
      requires At(name, Setup(CmUpdate(inst, cm)))
      modifies client
      ensures client.begun == old(client.begun) && Continues(old(client.trace), client.trace)
      ensures Leads(err, name, Deploying(DepInstance))
    {
      hide Continues;
      ContinuesOn();
      hide Labels, MergedData;
      var obj := Obj(cm.meta.(labels := Labels(name.name, inst)), ConfigMapBody(data));
      var r := client.Request(me, Update(ConfigMapKey(name), obj), name, Setup(CmUpdate(inst, cm)));
      if !r.Done? {
        return Failure;
      }
      err := RestartJenkins(name);
    }

    /** The safe restart, with the service and the admin secret read again. */
    method RestartJenkins(name: Name) returns (err: Error)
      requires At(name, Restarting(RestartInstance))
      modifies client
      ensures client.begun == old(client.begun) && Continues(old(client.trace), client.trace)
      ensures err.Nil? || err.Failure?
      ensures Leads(err, name, Deploying(DepInstance))
    {
      hide Continues;
      ContinuesOn();
      var r, looked := GetService(name, Restarting(RestartInstance));
      if !r.Found? {
        return Failure;
      }
      r := GetAdminSecret(name);
      if !IsSecret(r) {
        return Failure;
      }
      r := client.Request(me, Restart, name, Restarting(RestartCall));
      err := if r.Done? then Nil else Failure;
    }

    // ---- newDeployment ---------------------------------------------------------------------

    method NewDeployment(name: Name) returns (err: Error)
      requires At(name, Deploying(DepInstance))
      modifies client
      ensures client.begun == old(client.begun) && Continues(old(client.trace), client.trace)
      ensures Leads(err, name, Serving(SvcInstance))
    {
      hide Continues;
      ContinuesOn();
      hide ToAccount, ToClaim, ToCascSecret, ToGroovy, ToCasc, ToDeploy, EnvList;
      var present := false;
      var deployment := new DeploymentObject(map[], EmptyPod);
      var r := GetInstance(name, Deploying(DepInstance));
      if !r.Found? {
        return Failure;
      }
      var inst: Instance := r.obj;
      r := client.Request(me, Get(DeploymentKey(name)), name, Deploying(DepGet(inst)));
      if !r.Found? {
        if !r.NotFound? {
          return Failure;
        }
      } else {
        if !IsControlledBy(r.obj, inst) {
          return Failure;
        }
        present := true;
        deployment := new DeploymentObject(r.obj.meta.annotations, r.obj.body.pod);
      }
      assert At(name, ToAccount(inst, present));
      var env;
      ghost var envOrder;
      env, envOrder := BuildEnv(client.cfg.jvmEnvironment, inst.body.spec.env);
      err := CheckAccount(name, inst, present);
      if err != Nil {
        return;
      }
      err := EnsureClaim(name, inst, present);
      if err != Nil {
        return;
      }
      var volumes, groovy, casc;
      ghost var groovyOrder, cascOrder;
      err, volumes, groovy, casc, groovyOrder, cascOrder := BuildVolumes(name, inst, present);
      if err != Nil {
        return;
      }
      var mounts := BuildMounts(inst.body.spec);
      var pod := Pod(JENKINS_REPLICAS, Labels(name.name, inst), env, volumes, mounts,
                     inst.body.spec.serviceAccount, inst.body.spec.podOptions);
      assert pod == PodFrom(client.cfg.jvmEnvironment, name.name, inst, envOrder, groovyOrder, cascOrder);
      err := FinishDeployment(name, inst, present, deployment, pod, groovy, casc);
    }

    method CheckAccount(name: Name, inst: Instance, present: bool) returns (err: Error)
      requires At(name, ToAccount(inst, present))
      modifies client
      ensures client.begun == old(client.begun) && Continues(old(client.trace), client.trace)
      ensures err.Nil? || err.Failure?
      ensures Leads(err, name, ToClaim(inst, present))
    {
      hide Continues;
      ContinuesOn();
      hide ToClaim;
      if inst.body.spec.serviceAccount != "" {
        var r := client.Request(me, Get(Key(AccountKind, name.ns, inst.body.spec.serviceAccount)), name,
                                Deploying(DepAccount(inst, present)));
        if !r.Found? {
          return Failure;
        }
      }
      return Nil;
    }

    /** Find the claim or create it; a failed Get other than NotFound is passed over. */
    method EnsureClaim(name: Name, inst: Instance, present: bool) returns (err: Error)
      requires At(name, ToClaim(inst, present))
      modifies client
      ensures client.begun == old(client.begun) && Continues(old(client.trace), client.trace)
      ensures err.Nil? || err.Failure?
      ensures Leads(err, name, ToCascSecret(inst, present))
    {
      hide Continues;
      ContinuesOn();
      hide ToCascSecret;
      if inst.body.spec.storage.Some? {
        var storage := inst.body.spec.storage.value;
        var pvcName := name.name;
        if storage.jobsPvc != "" {
          pvcName := storage.jobsPvc;
        }
        var r := client.Request(me, Get(Key(ClaimKind, name.ns, pvcName)), name, Deploying(DepClaim(inst, present)));
        if r.NotFound? {
          if storage.jobsPvcSpec.None? {
            return Failure;
          }
          var pvc := Obj(OwnedMeta(map[], map[], inst), ClaimBody(storage.jobsPvcSpec.value));
          r := client.Request(me, Create(Key(ClaimKind, name.ns, pvcName), pvc), name, Deploying(DepClaimCreate(inst,
              present)));
          if !r.Done? {
            return Failure;
          }
        }
      }
      return Nil;
    }

    /** The volume list, with the secrets and the config map it projects looked up on the way. */
    method BuildVolumes(name: Name, inst: Instance, present: bool)
      returns (err: Error, volumes: seq<Volume>, groovy: set<string>, casc: set<string>,
               ghost groovyOrder: seq<string>, ghost cascOrder: seq<string>)
      requires At(name, ToCascSecret(inst, present))
      modifies client
      ensures client.begun == old(client.begun) && Continues(old(client.trace), client.trace)
      ensures err.Nil? || err.Failure?
      ensures Leads(err, name, ToDeploy(inst, present, groovy, casc))
      ensures err.Nil? ==>
                && Enumerates(groovyOrder, groovy) && Enumerates(cascOrder, casc)
                && volumes == Volumes(name.name, inst.body.spec, groovyOrder, cascOrder)
    {
      hide Continues;
      ContinuesOn();
      hide ToGroovy, ToCasc, ToDeploy;
      var spec := inst.body.spec;
      groovy, casc, groovyOrder, cascOrder := {}, {}, [], [];
      var jobSource := EmptyDir;
      if spec.storage.Some? {
        jobSource := FromClaim(ClaimName(name.name, spec.storage.value));
      }
      volumes := [Volume("required-plugins", FromConfigMap(name.name, [Item("plugins.txt", "plugins.txt")])),
                  Volume("job-storage", jobSource)];
      if spec.cascSecret != "" {
        var r := client.Request(me, Get(SecretKey(name, spec.cascSecret)), name, Deploying(DepCascSecret(inst,
            present)));
        if !r.Found? {
          return Failure, volumes, groovy, casc, groovyOrder, cascOrder;
        }
        volumes := volumes + [Volume("casc-secret", FromSecret(spec.cascSecret, []))];
      }
      assert At(name, ToGroovy(inst, present));
      assert volumes == BaseVolumes(name.name, spec) + CascSecretVolumes(spec);
      var items;
      err, items, groovy, groovyOrder := GroovyItems(name, inst, present);
      if err != Nil {
        return;
      }
      if spec.groovySecret != "" {
        volumes := volumes + [Volume("groovy-secret", FromSecret(spec.groovySecret, items))];
      }
      assert volumes == BaseVolumes(name.name, spec) + CascSecretVolumes(spec) + GroovyVolumes(spec, groovyOrder);
      var more;
      err, more, casc, cascOrder := CascVolume(name, inst, present, groovy);
      if err != Nil {
        return;
      }
      volumes := volumes + more;
    }

    method GroovyItems(name: Name, inst: Instance, present: bool)
      returns (err: Error, items: seq<Item>, groovy: set<string>, ghost groovyOrder: seq<string>)
      requires At(name, ToGroovy(inst, present))
      modifies client
      ensures client.begun == old(client.begun) && Continues(old(client.trace), client.trace)
      ensures err.Nil? || err.Failure?
      ensures Leads(err, name, ToCasc(inst, present, groovy))
      ensures Enumerates(groovyOrder, groovy) && items == Items(groovyOrder, ".groovy")
    {
      hide Continues;
      ContinuesOn();
      hide ToCasc;
      err, items, groovy, groovyOrder := Nil, [], {}, [];
      if inst.body.spec.groovySecret != "" {
        var r := client.Request(me, Get(SecretKey(name, inst.body.spec.groovySecret)), name,
            Deploying(DepGroovy(inst, present)));
        if !r.Found? {
          err := Failure;
          return;
        }
        groovy := r.obj.body.secret.Keys;
        items, groovyOrder := BuildItems(r.obj.body.secret, ".groovy");
      }
    }

    /** The volume of the configuration, from a named config map or from the setup ConfigMap. */
    method CascVolume(name: Name, inst: Instance, present: bool, groovy: set<string>)
      returns (err: Error, volumes: seq<Volume>, casc: set<string>, ghost cascOrder: seq<string>)
      requires At(name, ToCasc(inst, present, groovy))
      modifies client
      ensures client.begun == old(client.begun) && Continues(old(client.trace), client.trace)
      ensures err.Nil? || err.Failure?
      ensures Leads(err, name, ToDeploy(inst, present, groovy, casc))
      ensures Enumerates(cascOrder, casc)
      ensures err.Nil? ==> volumes == CascVolumes(name.name, inst.body.spec, cascOrder)
    {
      hide Continues;
      ContinuesOn();
      hide ToDeploy;
      err, volumes, casc, cascOrder := Nil, [], {}, [];
      if inst.body.spec.cascConfig.Some? {
        var config := inst.body.spec.cascConfig.value;
        if config.configMap != "" {
          var r := client.Request(me, Get(Key(ConfigMapKind, name.ns, config.configMap)), name,
                                  Deploying(DepCasc(inst, present, groovy)));
          if !r.Found? {
            err := Failure;
            return;
          }
          casc := r.obj.body.data.Keys;
          var items;
          items, cascOrder := BuildItems(r.obj.body.data, ".yaml");
          volumes := [Volume("casc-config", FromConfigMap(config.configMap, items))];
        } else if config.configString != "" {
          volumes := [Volume("casc-config", FromConfigMap(name.name, [Item("jenkins.yaml", "jenkins.yaml")]))];
        } else {
          err := Failure;
        }
      }
    }

    method BuildMounts(spec: Spec) returns (mounts: seq<Mount>)
      ensures mounts == Mounts(spec)
    {
      mounts := BaseMounts;
      if spec.cascSecret != "" {
        mounts := mounts + [Mount("casc-secret", true, "/var/jenkins_home/casc_secrets")];
      }
      if spec.groovySecret != "" {
        mounts := mounts + [Mount("groovy-secret", false, "/var/jenkins_home/init.groovy.d")];
      }
    }

    /** Compare and leave alone, or create. The comparison of the two replica pointers makes `changed` false
        for every Deployment, so the update that would follow is never reached. */
    method FinishDeployment(name: Name, inst: Instance, present: bool, deployment: DeploymentObject, pod: Pod,
                            ghost groovy: set<string>, ghost casc: set<string>) returns (err: Error)
      requires IsPodFor(client.cfg.jvmEnvironment, name.name, inst, groovy, casc, pod)
      requires At(name, ToDeploy(inst, present, groovy, casc))
      modifies client
      ensures client.begun == old(client.begun) && Continues(old(client.trace), client.trace)
      ensures err.Nil? || err.Failure?
      ensures Leads(err, name, Serving(SvcInstance))
      ensures present ==> client.sys == old(client.sys) && client.trace == old(client.trace)
    {
      hide Continues;
      ContinuesOn();
      hide IsPodFor;
      err := Nil;
      var replicas := new ReplicaCell(JENKINS_REPLICAS);
      if present {
        var deploymentCopy := deployment.DeepCopy();
        deploymentCopy.annotations := inst.body.spec.annotations;
        deploymentCopy.replicas := replicas;
        deploymentCopy.pod := pod;
        var changed :=
          && deploymentCopy.annotations == deployment.annotations
          && deploymentCopy.pod == deployment.pod.(replicas := deploymentCopy.pod.replicas)
          && deploymentCopy.replicas == deployment.replicas;
        if !changed {
          return;
        }
        assert false;
      } else {
        var obj := Obj(OwnedMeta(map[], inst.body.spec.annotations, inst), DeploymentBody(pod));
        var r := client.Request(me, Create(DeploymentKey(name), obj), name, Deploying(DepCreate(inst, groovy, casc)));
        err := if r.Done? then Nil else Failure;
      }
    }

    // ---- newService ------------------------------------------------------------------------

    method NewServiceStage(name: Name) returns (err: Error)
      requires At(name, Serving(SvcInstance))
      modifies client
      ensures client.begun == old(client.begun) && Continues(old(client.trace), client.trace)
      ensures Leads(err, name, Reporting(StInstance))
    {
      hide Continues;
      ContinuesOn();
      hide Labels, NodePortOf, Rebuilt, UpdatedService, NewServiceObj, NewService;
      err := Nil;
      var r := GetInstance(name, Serving(SvcInstance));
      if !r.Found? {
        return Failure;
      }
      var inst: Instance := r.obj;
      var looked;
      r, looked := GetService(name, Serving(SvcInstance2(inst)));
      if r.Found? {
        if !IsControlledBy(r.obj, inst) {
          return Failure;
        }
        var service: Service := r.obj;
        var serviceCopy := RebuildService(name, inst, service);
        if serviceCopy.body.service == service.body.service {
          return;
        }
        r := client.Request(me, Update(ServiceKey(name, looked.body.spec), serviceCopy), name,
                            Serving(SvcUpdate(inst, looked, service)));
        if !r.Done? {
          err := Failure;
        }
      } else {
        if !r.NotFound? {
          return Failure;
        }
        if inst.body.spec.service.None? {
          return NilDereference;
        }
        var service := BuildService(name, inst);
        r := client.Request(me, Create(ServiceKey(name, inst.body.spec), service), name, Serving(SvcCreate(inst)));
        // the error of the request is dropped
      }
    }

    method RebuildService(name: Name, inst: Instance, service: Service) returns (serviceCopy: Service)
      ensures serviceCopy == UpdatedService(name, inst, service)
      ensures serviceCopy.body == ServiceBody(Rebuilt(service.body.service, Identify(inst)))
    {
      var master := GetNodePort(service.body.service.ports, "master");
      var agent := GetNodePort(service.body.service.ports, "agent");
      var spec := service.body.service.(
        ports := [Port("master", "TCP", MASTER_PORT, master, MASTER_PORT), Port("agent", "TCP", AGENT_PORT, agent,
            AGENT_PORT)],
        selector := map["component" := inst.meta.uid]);
      var meta := service.meta.(labels := Labels(name.name, inst));
      if inst.body.spec.service.Some? {
        meta := meta.(annotations := inst.body.spec.service.value.annotations);
        if inst.body.spec.service.value.serviceType != "" {
          spec := spec.(serviceType := inst.body.spec.service.value.serviceType);
        }
      }
      serviceCopy := Obj(meta, ServiceBody(spec));
    }

    method BuildService(name: Name, inst: Instance) returns (service: Service)
      requires inst.body.spec.service.Some?
      ensures service == NewServiceObj(name, inst)
    {
      var options := inst.body.spec.service.value;
      var spec := ServiceSpec(
        [Port("master", "TCP", MASTER_PORT, options.nodePort, MASTER_PORT), Port("agent", "TCP", AGENT_PORT, 0,
            AGENT_PORT)],
        map["component" := inst.meta.uid], "", "");
      if options.serviceType != "" {
        spec := spec.(serviceType := options.serviceType);
      }
      service := Obj(OwnedMeta(Labels(name.name, inst), options.annotations, inst), ServiceBody(spec));
    }

    // ---- updateJenkinsInstanceStatus -------------------------------------------------------

    method UpdateJenkinsInstanceStatus(name: Name) returns (err: Error)
      requires At(name, Reporting(StInstance))
      modifies client
      ensures client.begun == old(client.begun) && Continues(old(client.trace), client.trace)
      ensures Leads(err, name, Ended(Synced))
    {
      hide Continues;
      ContinuesOn();
      err := Nil;
      var r, looked := GetService(name, Reporting(StInstance));
      if !r.Found? {
        return Failure;
      }
      r := client.Request(me, Probe, name, Reporting(StProbe));
      if !r.Done? {
        return Failure;
      }
      r := GetInstance(name, Reporting(StInstance2));
      if !r.Found? {
        return Failure;
      }
      var inst: Instance := r.obj;
      var doUpdate := inst.body.phase != READY;
      if doUpdate {
        var ready := inst.(body := inst.body.(phase := READY));
        r := client.Request(me, UpdateStatus(InstanceKey(name), ready), name, Reporting(StUpdate(inst)));
        if !r.Done? {
          return Failure;
        }
      }
    }

    // ---- Reconcile -------------------------------------------------------------------------

    /** One call of Reconcile extends the recorded run to the end of a reconcile of `name`: without error it has
        synced or ended early at the gate, with an error it is to be requeued. */
    method Reconcile(name: Name) returns (err: Error)
      requires client.Valid() && (me in client.sys.workers ==> client.sys.workers[me].pc.Ended?)
      modifies client
      ensures client.begun == old(client.begun) + 1 && Continues(old(client.trace), client.trace)
      ensures err.Nil? ==> At(name, Ended(Synced)) || At(name, Ended(Absorbed))
      ensures err.Failure? ==> At(name, FAIL)
      ensures err.NilDereference? ==> At(name, Ended(Panicked))
    {
      hide Continues;
      ContinuesOn();
      client.Start(me, name);
      var r := GetInstance(name, Gate(GateInstance));
      if !r.Found? {
        if r.NotFound? {
          return Nil;
        }
        return Failure;
      }
      var inst: Instance := r.obj;
      var adminSecretName := inst.body.spec.adminSecret;
      if adminSecretName == "" {
        return Nil;
      }
      r := client.Request(me, Get(SecretKey(name, adminSecretName)), name, Gate(GateSecret(inst)));
      if r.NotFound? {
        return Failure;
      }
      err := NewSetupConfigMap(name);
      if err != Nil {
        return;
      }
      err := NewDeployment(name);
      if err != Nil {
        return;
      }
      err := NewServiceStage(name);
      if err != Nil {
        return;
      }
      err := UpdateJenkinsInstanceStatus(name);
    }
  }

  /** The theorems about runs, read off the state that calls of Reconcile have left: whatever the environment did,
      every write was owned; and where no other client acted, no instance was written for more than five times
      and every Deployment created resolves. A panic needs an instance stored without a cascconfig or a service. */
  lemma TheoremsHoldOfTheCode(client: ApiServer, req: Name, id: Identity)
    requires client.Valid() && Initial(client.start) && TheInstance(client.start.known, req, id)
    ensures forall i :: 0 <= i < |client.sys.log| ==> Owned(client.sys.known, client.sys.log[i])
    ensures client.quiet ==> WritesFor(client.sys.log, req) <= 5
    ensures client.quiet ==> AllResolved(client.sys, req)
    ensures forall w :: w in client.sys.workers && client.sys.workers[w].pc == Ended(Panicked) ==>
              Incomplete(client.sys.known, client.sys.workers[w].req)
  {
    OwnershipSafety(client.cfg, client.start, client.trace);
    forall w | w in client.sys.workers && client.sys.workers[w].pc == Ended(Panicked)
      ensures Incomplete(client.sys.known, client.sys.workers[w].req)
    {
      OnlyIncompletePanics(client.cfg, client.start, client.trace, w);
    }
    if client.quiet {
      AtMostFiveWrites(client.cfg, client.start, client.trace, req, id);
      OperatorReferentialIntegrity(client.cfg, client.start, client.trace, req, id);
    }
  }

  /** Between any two moments of a quiet client, whatever calls of its methods lie between them: after a clean synced
      reconcile a second one, or any number of them, writes nothing for the instance. */
  twostate lemma SecondReconcileWritesNothing(client: ApiServer, w: int, req: Name, id: Identity)
    requires old(client.Valid()) && client.Valid() && Continues(old(client.trace), client.trace)
    requires client.quiet && Initial(client.start) && TheInstance(client.start.known, req, id)
    requires old(w in client.sys.workers && client.sys.workers[w] == Worker(req, Ended(Synced), true))
    ensures WritesFor(client.sys.log, req) == old(WritesFor(client.sys.log, req))
  {
    hide IsRun, End, TheInstance, Initial, WritesFor, OperatorOnly;
    var cfg, start, es := client.cfg, client.start, client.trace;
    InitialIsCurrent(cfg, start);
    NothingUnderWay(cfg, start, req, id);
    OperatorOnlyIsCalm(cfg, start, es, req, id);
    assert es[..|old(client.trace)|] == old(client.trace);
    SyncedMeansSettled(cfg, start, es, |old(client.trace)|, w, req, id);
  }

  /** And what the operator alone can change stays as the runs have it: Deployments altogether, allocated node ports,
      and the values in a setup ConfigMap that the client started without. */
  twostate lemma ObjectsStay(client: ApiServer, k: Key, name: string, req: Name)
    requires old(client.Valid()) && client.Valid() && Continues(old(client.trace), client.trace)
    requires client.quiet && Initial(client.start)
    ensures k.kind == DeploymentKind ==> Stays(old(client.sys.store), client.sys.store, k)
    ensures k.kind == ServiceKind && (name == "master" || name == "agent") ==>
              PortStays(old(client.sys.store), client.sys.store, k, name)
    ensures ConfigMapKey(req) !in client.start.store.objs ==>
              Grows(old(client.sys.store), client.sys.store, ConfigMapKey(req))
  {
    hide IsRun, End, Initial, Stays, PortStays, Grows;
    var cfg, start, es := client.cfg, client.start, client.trace;
    var i := |old(client.trace)|;
    assert es[..i] == old(client.trace);
    assert OnlyOperatorAt(cfg, start, es, k) && OnlyOperatorAt(cfg, start, es, ConfigMapKey(req));
    if k.kind == DeploymentKind {
      DeploymentsNeverChange(cfg, start, es, i, k);
    }
    if k.kind == ServiceKind && (name == "master" || name == "agent") {
      NodePortsNeverChange(cfg, start, es, i, k, name);
    }
    if ConfigMapKey(req) !in start.store.objs {
      ValuesStay(cfg, start, es, i, req);
    }
  }

  const EmptyPod := Pod(0, map[], [], [], [], "", "")

  lemma MergedPair(cfg: Config, spec: Spec, existing: Data)
    requires spec.cascConfig.Some?
    ensures Merged([StringData(cfg, spec), existing]) == MergedData(cfg, spec, existing)
  {
    var ms := [StringData(cfg, spec), existing];
    assert ms[..1] == [StringData(cfg, spec)];
    assert ms[..1][..0] == [];
    assert Merged(ms[..1]) == Merged(ms[..1][..0]) + StringData(cfg, spec);
  }

  lemma NewConfigMapIs(cfg: Config, req: Name, inst: Instance, obj: Obj)
    requires inst.body.spec.cascConfig.Some?
    requires obj == Obj(OwnedMeta(Labels(req.name, inst), map[], inst), ConfigMapBody(StringData(cfg, inst.body.spec)))
    ensures obj == NewConfigMap(cfg, req, inst)
  {
  }
}
