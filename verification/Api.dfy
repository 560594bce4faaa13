/** The Kubernetes objects the operator reads and writes, and the JenkinsInstance resource. */
module Api {
  import opened Basics
  import opened Plugins

  type Data = map<string, string>

  datatype CascConfig = CascConfig(configString: string, configMap: string)

  datatype ServiceOptions = ServiceOptions(name: string, serviceType: string, nodePort: int, annotations: Data)

  /** `jobsPvcSpec` is an opaque claim specification. */
  datatype Storage = Storage(jobsPvc: string, jobsPvcSpec: Option<string>)

  /** JenkinsInstanceSpec. `podOptions` stands for the fields that pass unread into the pod
      (image, affinity, tolerations, resources and the like). */
  datatype Spec = Spec(
    env: Data,
    plugins: seq<Plugin>,
    cascConfig: Option<CascConfig>,
    cascSecret: string,
    groovySecret: string,
    annotations: Data,
    adminSecret: string,
    service: Option<ServiceOptions>,
    serviceAccount: string,
    storage: Option<Storage>,
    podOptions: string)

  datatype Port = Port(name: string, protocol: string, port: int, nodePort: int, targetPort: int)

  /** `rest` stands for the fields only the server sets, such as the cluster IP. */
  datatype ServiceSpec = ServiceSpec(ports: seq<Port>, selector: Data, serviceType: string, rest: string)

  datatype EnvVar = EnvVar(name: string, value: string)
  datatype Item = Item(key: string, path: string)
  datatype Source =
    | EmptyDir
    | FromClaim(claim: string)
    | FromConfigMap(configMap: string, items: seq<Item>)
    | FromSecret(secret: string, items: seq<Item>)
  datatype Volume = Volume(name: string, source: Source)
  datatype Mount = Mount(name: string, readOnly: bool, path: string)

  datatype Pod = Pod(
    replicas: int,
    selector: Data,
    env: seq<EnvVar>,
    volumes: seq<Volume>,
    mounts: seq<Mount>,
    serviceAccount: string,
    podOptions: string)

  datatype Kind =
    | InstanceKind | ConfigMapKind | SecretKind | AccountKind | ClaimKind | DeploymentKind | ServiceKind

  /** A namespaced name: what a reconcile request carries. */
  datatype Name = Name(ns: string, name: string)

  datatype Key = Key(kind: Kind, ns: string, name: string)

  datatype Body =
    | InstanceBody(spec: Spec, phase: string)
    | ConfigMapBody(data: Data)
    | SecretBody(secret: Data)
    | AccountBody
    | ClaimBody(claim: string)
    | DeploymentBody(pod: Pod)
    | ServiceBody(service: ServiceSpec)
  {
    function Kind(): Kind
    {
      match this
      case InstanceBody(_, _) => InstanceKind
      case ConfigMapBody(_) => ConfigMapKind
      case SecretBody(_) => SecretKind
      case AccountBody => AccountKind
      case ClaimBody(_) => ClaimKind
      case DeploymentBody(_) => DeploymentKind
      case ServiceBody(_) => ServiceKind
    }
  }

  /** `controller` is the UID of the owner reference marked as controller, if there is one. */
  datatype Meta = Meta(uid: string, controller: Option<string>, version: nat, labels: Data, annotations: Data)

  datatype Obj = Obj(meta: Meta, body: Body)

  const SampleSpec := Spec(map[], [], None, "", "", map[], "", None, "", None, "")
  const FreshMeta := Meta("", None, 0, map[], map[])

  /** A JenkinsInstance as a client holds it. */
  type Instance = o: Obj | o.body.InstanceBody? witness Obj(FreshMeta, InstanceBody(SampleSpec, ""))

  /** What the operator takes from an instance besides its phase. */
  datatype Identity = Identity(uid: string, spec: Spec)

  function Identify(inst: Instance): Identity
  {
    Identity(inst.meta.uid, inst.body.spec)
  }

  predicate IsControlledBy(o: Obj, owner: Instance)
  {
    o.meta.controller == Some(owner.meta.uid)
  }

  function Labels(name: string, inst: Instance): Data
  {
    map["app" := "jenkinsci", "controller" := name, "component" := inst.meta.uid]
  }

  function InstanceKey(n: Name): Key { Key(InstanceKind, n.ns, n.name) }
  function ConfigMapKey(n: Name): Key { Key(ConfigMapKind, n.ns, n.name) }
  function DeploymentKey(n: Name): Key { Key(DeploymentKind, n.ns, n.name) }

  /** The service is named after the instance unless the spec names it. */
  function ServiceName(name: string, spec: Spec): string
  {
    if spec.service.Some? && spec.service.value.name != "" then spec.service.value.name else name
  }

  function ServiceKey(n: Name, spec: Spec): Key
  {
    Key(ServiceKind, n.ns, ServiceName(n.name, spec))
  }

  /** The claim is named after the instance unless the spec names it. */
  function ClaimName(name: string, storage: Storage): string
  {
    if storage.jobsPvc != "" then storage.jobsPvc else name
  }

  function ClaimKey(n: Name, storage: Storage): Key
  {
    Key(ClaimKind, n.ns, ClaimName(n.name, storage))
  }
}
