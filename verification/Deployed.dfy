/** The files a created Deployment projects are the ones its reconcile has just read. */
module Deployed {
  import opened Basics
  import opened Api
  import opened PodBuilder
  import opened Services
  import opened Cluster
  import opened Protocol
  import opened Runs
  import opened Contents

  /** What the reconcile that worker `w` is on was last given for `key`. */
  ghost function LastFound(cfg: Config, s: Sys, es: seq<Event>, w: int, key: Key): Option<Obj>
  {
    if |es| == 0 then None
    else
      var last := |es| - 1;
      var mid, e := End(cfg, s, es[..last]), es[last];
      if e.Begin? && e.w == w then None
      else if e.Act? && e.w == w && e.call == Get(key) && Reply(mid.store, e.call, e.verdict).Found?
      then Some(Reply(mid.store, e.call, e.verdict).obj)
      else LastFound(cfg, s, es[..last], w, key)
  }

  /** These are all the keys of the groovy secret as this reconcile read it; none without a groovy secret. */
  ghost predicate GroovyRead(cfg: Config, s: Sys, es: seq<Event>, w: int, ns: string, spec: Spec, groovy: set<string>)
  {
    if spec.groovySecret == "" then groovy == {}
    else
      var o := LastFound(cfg, s, es, w, Key(SecretKind, ns, spec.groovySecret));
      o.Some? && o.value.body.SecretBody? && groovy == o.value.body.secret.Keys
  }

  /** The same of the ConfigMap named in cascconfig. */
  ghost predicate CascRead(cfg: Config, s: Sys, es: seq<Event>, w: int, ns: string, spec: Spec, casc: set<string>)
  {
    if !NamesConfig(spec) then casc == {}
    else
      var o := LastFound(cfg, s, es, w, Key(ConfigMapKind, ns, spec.cascConfig.value.configMap));
      o.Some? && o.value.body.ConfigMapBody? && casc == o.value.body.data.Keys
  }

  /** The code reads a groovy secret or a ConfigMap of configuration only when the spec names one. */
  predicate ReadsNamed(pc: Pc)
  {
    match pc
    case Deploying(DepGroovy(inst, _)) => inst.body.spec.groovySecret != ""
    case Deploying(DepCasc(inst, _, _)) => NamesConfig(inst.body.spec)
    case _ => true
  }

  predicate NamesConfig(spec: Spec)
  {
    spec.cascConfig.Some? && spec.cascConfig.value.configMap != ""
  }

  /** What a program point holds of files was read. */
  ghost predicate HoldsRead(cfg: Config, s: Sys, es: seq<Event>, w: int, ns: string, pc: Pc)
  {
    match pc
    case Deploying(DepCasc(inst, _, groovy)) => GroovyRead(cfg, s, es, w, ns, inst.body.spec, groovy)
    case Deploying(DepCreate(inst, groovy, casc)) =>
      && GroovyRead(cfg, s, es, w, ns, inst.body.spec, groovy)
      && CascRead(cfg, s, es, w, ns, inst.body.spec, casc)
    case _ => true
  }

  /** The keys are those of the groovy secret just read, or there is no such secret. */
  ghost predicate GroovyNow(req: Name, call: Call, r: Response, spec: Spec, groovy: set<string>)
  {
    if spec.groovySecret == "" then groovy == {}
    else
      && call == Get(Key(SecretKind, req.ns, spec.groovySecret))
      && r.Found? && r.obj.body.SecretBody? && groovy == r.obj.body.secret.Keys
  }

  /** One response: file names come from the object just read or were held before. */
  lemma FilesComeFrom(cfg: Config, req: Name, pc: Pc, call: Call, r: Response)
    requires Issues(cfg, req, pc, call) && ReadsNamed(pc)
    ensures ReadsNamed(Resume(cfg, pc, r))
    ensures match Resume(cfg, pc, r)
            case Deploying(DepCasc(inst, _, groovy)) => GroovyNow(req, call, r, inst.body.spec, groovy)
            case Deploying(DepCreate(inst, groovy, casc)) =>
              var spec := inst.body.spec;
              if !NamesConfig(spec) then casc == {} && GroovyNow(req, call, r, spec, groovy)
              else
                && pc.Deploying? && pc.deploy.DepCasc? && pc.deploy.inst == inst && pc.deploy.groovy == groovy
                && call == Get(Key(ConfigMapKind, req.ns, spec.cascConfig.value.configMap))
                && r.Found? && r.obj.body.ConfigMapBody? && casc == r.obj.body.data.Keys
            case _ => true
  {
    hide Acts, ResumeGate, ResumeSetup, ResumeRestart, ResumeService, ResumeStatus;
    hide ToAccount, ToClaim, ToCascSecret, ToGroovy, ToCasc;
    if !pc.Deploying? {
      NoFilesElsewhere(cfg, pc, r);
    } else if pc.deploy.DepGroovy? && IsSecret(r) {
      OnwardFromGroovy(pc.deploy.inst, pc.deploy.present, r.obj.body.secret.Keys);
    } else if !pc.deploy.DepCasc? && Held(pc).Some? {
      OnwardBeforeGroovy(Held(pc).value, true);
      OnwardBeforeGroovy(Held(pc).value, false);
    }
  }

  /** `next` is for this instance and holds these keys of its groovy secret, if it has come that far. */
  predicate Onward(inst: Instance, groovy: set<string>, next: Pc)
  {
    match next
    case Deploying(DepCasc(i, _, g)) => i == inst && g == groovy && NamesConfig(inst.body.spec)
    case Deploying(DepCreate(i, g, casc)) => i == inst && g == groovy && !NamesConfig(inst.body.spec) && casc == {}
    case _ => true
  }

  lemma OnwardFromGroovy(inst: Instance, present: bool, groovy: set<string>)
    ensures Onward(inst, groovy, ToCasc(inst, present, groovy)) && ReadsNamed(ToCasc(inst, present, groovy))
  {
  }

  /** Before the groovy secret is read, later points are reached without one only when the spec names none. */
  lemma OnwardBeforeGroovy(inst: Instance, present: bool)
    ensures forall next ::
              next in [ToGroovy(inst, present), ToCascSecret(inst, present), ToClaim(inst, present),
                       ToAccount(inst, present)] ==>
                && ReadsNamed(next) && Onward(inst, {}, next)
                && (next.Deploying? && (next.deploy.DepCasc? || next.deploy.DepCreate?) ==>
                      inst.body.spec.groovySecret == "")
  {
    hide ToCasc;
    OnwardFromGroovy(inst, present, {});
  }

  lemma NoFilesElsewhere(cfg: Config, pc: Pc, r: Response)
    requires !pc.Deploying?
    ensures var next := Resume(cfg, pc, r); next.Deploying? ==> next == Deploying(DepInstance)
  {
    hide MergedData, Settled;
  }

  /** In every run, every reconcile holds only file names it has read. */
  lemma {:induction false} FilesAreRead(cfg: Config, s: Sys, es: seq<Event>, w: int)
    requires Initial(s) && IsRun(cfg, s, es)
    ensures var end := End(cfg, s, es);
            w in end.workers ==>
              ReadsNamed(end.workers[w].pc) && HoldsRead(cfg, s, es, w, end.workers[w].req.ns, end.workers[w].pc)
  {
    hide Resume, Issues, StoreAfter, Record, Reply, NamesConfig;
    if |es| > 0 {
      var last := |es| - 1;
      var mid, e := End(cfg, s, es[..last]), es[last];
      FilesAreRead(cfg, s, es[..last], w);
      if e.Act? && e.w == w {
        FilesComeFrom(cfg, mid.workers[w].req, mid.workers[w].pc, e.call, Reply(mid.store, e.call, e.verdict));
      }
    }
  }

  /** Event `i` asks for the creation of a Deployment. */
  ghost predicate AsksForDeployment(es: seq<Event>, i: nat)
    requires i < |es|
  {
    es[i].Act? && es[i].call.Create? && es[i].call.key.kind == DeploymentKind
  }

  /** Over every run: a Deployment is created for an instance that was stored under the requested name, says what that
      asks for, and projects exactly the keys its own reconcile has read in the groovy secret and the named
      configuration. */
  lemma DeploymentProjectsWhatWasRead(cfg: Config, s: Sys, es: seq<Event>, i: nat)
    requires Initial(s) && IsRun(cfg, s, es) && i < |es| && AsksForDeployment(es, i)
    ensures var mid, w := End(cfg, s, es[..i]), es[i].w;
            && w in mid.workers && es[i].call.obj.body.DeploymentBody?
            && var req := mid.workers[w].req;
               exists id, groovy, casc ::
                 && (req, id) in mid.known
                 && GroovyRead(cfg, s, es[..i], w, req.ns, id.spec, groovy)
                 && CascRead(cfg, s, es[..i], w, req.ns, id.spec, casc)
                 && PodSays(cfg.jvmEnvironment, req.name, id, groovy, casc, es[i].call.obj.body.pod)
  {
    hide End, IsRun, GroovyRead, CascRead, PodSays, IsPodFor;
    RunPrefix(cfg, s, es, i);
    RunEnabledAt(cfg, s, es, i);
    InvOfRun(cfg, s, es[..i]);
    FilesAreRead(cfg, s, es[..i], es[i].w);
    var mid, w := End(cfg, s, es[..i]), es[i].w;
    var req := mid.workers[w].req;
    OnlyDepCreate(cfg, req, mid.workers[w].pc, es[i].call);
    var deploy := mid.workers[w].pc.deploy;
    PodIsRight(cfg.jvmEnvironment, req.name, deploy.inst, deploy.groovy, deploy.casc, es[i].call.obj.body.pod);
    HolderIsKnown(cfg, mid, w);
    assert Identify(deploy.inst).spec == deploy.inst.body.spec;
  }

  lemma OnlyDepCreate(cfg: Config, req: Name, pc: Pc, call: Call)
    requires Issues(cfg, req, pc, call) && call.Create? && call.key.kind == DeploymentKind
    ensures pc.Deploying? && pc.deploy.DepCreate?
    ensures IsNewDeployment(cfg, req, pc.deploy.inst, pc.deploy.groovy, pc.deploy.casc, call.obj)
  {
    hide UpdatedConfigMap, NewConfigMap, NewServiceObj, UpdatedService, NewClaim, IsNewDeployment, ReadyInstance;
  }

  lemma HolderIsKnown(cfg: Config, s: Sys, w: int)
    requires Inv(cfg, s) && w in s.workers && Held(s.workers[w].pc).Some?
    ensures (s.workers[w].req, Identify(Held(s.workers[w].pc).value)) in s.known
  {
    hide UpdateJustified;
    assert WorkerInv(cfg, s.store, s.known, s.workers[w].req, s.workers[w].pc);
  }
}
