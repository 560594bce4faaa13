/** A reconcile never gets stuck and always ends: at every program point some request can be issued, and every
    response brings the end nearer. */
module Liveness {
  import opened Basics
  import opened Api
  import opened PodBuilder
  import opened Services
  import opened Cluster
  import opened Protocol
  import opened Runs

  /** What a program point has been told before the request it is about to issue needs it. */
  predicate Sensible(pc: Pc)
  {
    match pc
    case Setup(CmCreate(inst)) => inst.body.spec.cascConfig.Some?
    case Setup(CmUpdate(inst, _)) => inst.body.spec.cascConfig.Some?
    case Deploying(DepClaim(inst, _)) => inst.body.spec.storage.Some?
    case Deploying(DepClaimCreate(inst, _)) =>
      inst.body.spec.storage.Some? && inst.body.spec.storage.value.jobsPvcSpec.Some?
    case Deploying(DepCasc(inst, _, _)) => inst.body.spec.cascConfig.Some?
    case Serving(SvcCreate(inst)) => inst.body.spec.service.Some?
    case _ => true
  }

  lemma ResumeSensible(cfg: Config, pc: Pc, r: Response)
    requires Sensible(pc)
    ensures Sensible(Resume(cfg, pc, r))
  {
    hide MergedData, Settled, CascSpecified;
  }

  // ---- never stuck -------------------------------------------------------------------------

  lemma {:induction false} SomeOrder(keys: set<string>) returns (order: seq<string>)
    ensures Enumerates(order, keys)
  {
    if k :| k in keys {
      order := SomeOrder(keys - {k});
      EnumerationExtends(order, keys - {k}, k);
      assert keys - {k} + {k} == keys;
      order := order + [k];
    } else {
      order := [];
    }
  }

  lemma SomePod(cfg: Config, req: Name, inst: Instance, groovy: set<string>, casc: set<string>) returns (obj: Obj)
    ensures IsNewDeployment(cfg, req, inst, groovy, casc, obj)
  {
    var envOrder := SomeOrder(inst.body.spec.env.Keys);
    var groovyOrder := SomeOrder(groovy);
    var cascOrder := SomeOrder(casc);
    var pod := PodFrom(cfg.jvmEnvironment, req.name, inst, envOrder, groovyOrder, cascOrder);
    obj := Obj(OwnedMeta(map[], inst.body.spec.annotations, inst), DeploymentBody(pod));
  }

  lemma NextCall(cfg: Config, req: Name, pc: Pc) returns (call: Call)
    requires Sensible(pc) && !pc.Ended?
    ensures Issues(cfg, req, pc, call)
  {
    hide NewConfigMap, UpdatedConfigMap, NewClaim, IsNewDeployment, NewServiceObj, UpdatedService, ReadyInstance;
    if Reads(req, pc).Some? {
      return Get(Reads(req, pc).value);
    }
    match pc
    case Setup(CmCreate(inst)) => call := Create(ConfigMapKey(req), NewConfigMap(cfg, req, inst));
    case Setup(CmUpdate(inst, cm)) => call := Update(ConfigMapKey(req), UpdatedConfigMap(cfg, req, inst, cm));
    case Restarting(RestartCall) => call := Restart;
    case Deploying(DepClaimCreate(inst, _)) =>
      call := Create(ClaimKey(req, inst.body.spec.storage.value), NewClaim(inst));
    case Deploying(DepCreate(inst, groovy, casc)) =>
      var obj := SomePod(cfg, req, inst, groovy, casc);
      call := Create(DeploymentKey(req), obj);
    case Serving(SvcCreate(inst)) => call := Create(ServiceKey(req, inst.body.spec), NewServiceObj(req, inst));
    case Serving(SvcUpdate(inst, looked, svc)) =>
      call := Update(ServiceKey(req, looked.body.spec), UpdatedService(req, inst, svc));
    case Reporting(StProbe) => call := Probe;
    case Reporting(StUpdate(inst)) => call := UpdateStatus(InstanceKey(req), ReadyInstance(inst));
  }

  ghost predicate AllSensible(s: Sys)
  {
    forall w :: w in s.workers ==> Sensible(s.workers[w].pc)
  }

  lemma {:induction false} RunSensible(cfg: Config, s: Sys, es: seq<Event>)
    requires AllSensible(s) && IsRun(cfg, s, es)
    ensures AllSensible(End(cfg, s, es))
  {
    hide Issues, Resume, Sensible, StoreAfter, Record, Reply;
    if |es| > 0 {
      var last := |es| - 1;
      var mid := End(cfg, s, es[..last]);
      RunSensible(cfg, s, es[..last]);
      match es[last]
      case Act(w, call, fill, verdict) => ResumeSensible(cfg, mid.workers[w].pc, Reply(mid.store, call, verdict));
      case Begin(_, _) => GateSensible();
      case _ =>
    }
  }

  lemma GateSensible()
    ensures Sensible(Gate(GateInstance))
  {
  }

  /** In every reachable state every reconcile that has not ended has a request to issue. */
  lemma {:induction false} NeverStuck(cfg: Config, s: Sys, es: seq<Event>, w: int)
    requires Initial(s) && IsRun(cfg, s, es)
    requires var end := End(cfg, s, es); w in end.workers && !end.workers[w].pc.Ended?
    ensures var worker := End(cfg, s, es).workers[w]; exists call :: Issues(cfg, worker.req, worker.pc, call)
  {
    hide IsRun, End, Issues, Sensible;
    RunSensible(cfg, s, es);
    var worker := End(cfg, s, es).workers[w];
    var call := NextCall(cfg, worker.req, worker.pc);
  }

  // ---- always ends -------------------------------------------------------------------------

  /** An upper bound on the requests still to come. */
  function StepsLeft(pc: Pc): nat
  {
    match pc
    case Gate(GateInstance) => 28
    case Gate(GateSecret(_)) => 27
    case Setup(CmInstance) => 26
    case Setup(CmGet(_)) => 25
    case Setup(_) => 24
    case Restarting(RestartInstance) => 23
    case Restarting(RestartService(_)) => 22
    case Restarting(RestartInstance2) => 21
    case Restarting(RestartSecret(_)) => 20
    case Restarting(RestartCall) => 19
    case Deploying(DepInstance) => 18
    case Deploying(DepGet(_)) => 17
    case Deploying(DepAccount(_, _)) => 16
    case Deploying(DepClaim(_, _)) => 15
    case Deploying(DepClaimCreate(_, _)) => 14
    case Deploying(DepCascSecret(_, _)) => 13
    case Deploying(DepGroovy(_, _)) => 12
    case Deploying(DepCasc(_, _, _)) => 11
    case Deploying(DepCreate(_, _, _)) => 10
    case Serving(SvcInstance) => 9
    case Serving(SvcInstance2(_)) => 8
    case Serving(SvcGet(_, _)) => 7
    case Serving(_) => 6
    case Reporting(StInstance) => 5
    case Reporting(StService(_)) => 4
    case Reporting(StProbe) => 3
    case Reporting(StInstance2) => 2
    case Reporting(StUpdate(_)) => 1
    case Ended(_) => 0
  }

  lemma ResumeDescends(cfg: Config, pc: Pc, r: Response)
    requires !pc.Ended?
    ensures StepsLeft(Resume(cfg, pc, r)) < StepsLeft(pc)
  {
    hide MergedData, Settled, CascSpecified;
  }

  /** The requests of worker `w` among the events. */
  ghost function RequestsOf(es: seq<Event>, w: int): nat
  {
    if |es| == 0 then 0
    else RequestsOf(es[..|es| - 1], w) + if es[|es| - 1].Act? && es[|es| - 1].w == w then 1 else 0
  }

  /** A reconcile makes at most 28 requests, whatever the responses and whatever is interleaved with them. */
  lemma {:induction false} AtMost28Requests(cfg: Config, s: Sys, es: seq<Event>, w: int)
    requires IsRun(cfg, s, es) && w in s.workers
    requires forall i :: 0 <= i < |es| && (es[i].Begin? || es[i].Halt?) ==> es[i].w != w
    ensures w in End(cfg, s, es).workers
    ensures RequestsOf(es, w) + StepsLeft(End(cfg, s, es).workers[w].pc) <= StepsLeft(s.workers[w].pc) <= 28
  {
    hide Issues, Resume, StepsLeft, StoreAfter, Record, Reply;
    if |es| == 0 {
      StepsBounded(s.workers[w].pc);
    } else {
      var last := |es| - 1;
      var mid := End(cfg, s, es[..last]);
      AtMost28Requests(cfg, s, es[..last], w);
      if es[last].Act? && es[last].w == w {
        EndedIssuesNothing(cfg, mid.workers[w].req, mid.workers[w].pc, es[last].call);
        ResumeDescends(cfg, mid.workers[w].pc, Reply(mid.store, es[last].call, es[last].verdict));
      }
    }
  }

  lemma StepsBounded(pc: Pc)
    ensures StepsLeft(pc) <= 28
  {
  }

  lemma EndedIssuesNothing(cfg: Config, req: Name, pc: Pc, call: Call)
    requires Issues(cfg, req, pc, call)
    ensures !pc.Ended?
  {
  }
}
