/** What a failed request, a missing object or someone else's object does to a reconcile: three requests may fail
    without notice, everything else ends the reconcile with an error. */
module Failures {
  import opened Basics
  import opened Api
  import opened Services
  import opened Cluster
  import opened Protocol
  import opened Runs

  /** The requests whose failure the code does not act on: reading the admin secret, reading the claim, creating the
      service. */
  predicate Forgiven(pc: Pc)
  {
    || (pc.Gate? && pc.gate.GateSecret?)
    || (pc.Deploying? && pc.deploy.DepClaim?)
    || (pc.Serving? && pc.serve.SvcCreate?)
  }

  /** newDeployment is about to refuse a cascconfig that names no configuration, with no secret left to read. */
  predicate RefusesCasc(pc: Pc)
  {
    && pc.Deploying? && pc.deploy.DepClaim?
    && var spec := pc.deploy.inst.body.spec;
       && spec.cascSecret == "" && spec.groovySecret == "" && spec.cascConfig.Some?
       && spec.cascConfig.value.configMap == "" && spec.cascConfig.value.configString == ""
  }

  /** A failed request ends the reconcile with an error exactly when it is not one of the three; after one of those
      the reconcile goes on as if the request had been served, with whatever object. */
  lemma FailureEndsOrIsForgiven(cfg: Config, pc: Pc, o: Obj)
    requires !pc.Ended?
    ensures Resume(cfg, pc, Failed) == Ended(Errored) <==> !Forgiven(pc) || RefusesCasc(pc)
    ensures Forgiven(pc) ==> Resume(cfg, pc, Failed) == Resume(cfg, pc, if pc.Serving? then Done else Found(o))
    ensures pc.Gate? && pc.gate.GateSecret? ==> Resume(cfg, pc, Failed) == Setup(CmInstance)
    ensures pc.Serving? && pc.serve.SvcCreate? ==> Resume(cfg, pc, Failed) == Reporting(StInstance)
  {
  }

  /** newDeployment has found the Deployment. */
  predicate FoundDeployment(pc: Pc)
  {
    match pc
    case Deploying(DepAccount(_, present)) => present
    case Deploying(DepClaim(_, present)) => present
    case Deploying(DepClaimCreate(_, present)) => present
    case Deploying(DepCascSecret(_, present)) => present
    case Deploying(DepGroovy(_, present)) => present
    case Deploying(DepCasc(_, present, _)) => present
    case Serving(_) => true
    case _ => false
  }

  /** A read that finds nothing ends the reconcile with an error, except: an instance that is gone at the gate ends it
      without one, and a missing ConfigMap, Deployment, claim or service leads to its creation, or to the nil
      dereference where the code builds it from a part of the spec that is not there. */
  lemma MissingEndsOrIsCreated(cfg: Config, req: Name, pc: Pc)
    requires Reads(req, pc).Some?
    ensures var next := Resume(cfg, pc, NotFound);
            match pc
            case Gate(GateInstance) => next == Ended(Absorbed)
            case Setup(CmGet(inst)) =>
              next == if inst.body.spec.cascConfig.Some? then Setup(CmCreate(inst)) else Ended(Panicked)
            case Deploying(DepGet(inst)) => next == Ended(Errored) || (next.Deploying? && !FoundDeployment(next))
            case Deploying(DepClaim(inst, present)) =>
              next == if inst.body.spec.storage.Some? && inst.body.spec.storage.value.jobsPvcSpec.Some?
                      then Deploying(DepClaimCreate(inst, present)) else Ended(Errored)
            case Serving(SvcGet(inst, _)) =>
              next == if inst.body.spec.service.Some? then Serving(SvcCreate(inst)) else Ended(Panicked)
            case _ => next == Ended(Errored)
  {
  }

  /** A ConfigMap, Deployment or service under the instance's name that another object controls, or none, is an
      error and is left alone; one that the instance controls is not. */
  lemma ForeignObjectEnds(cfg: Config, pc: Pc, o: Obj)
    requires
      || (pc.Setup? && pc.setup.CmGet? && o.body.ConfigMapBody?)
      || (pc.Deploying? && pc.deploy.DepGet? && o.body.DeploymentBody?)
      || (pc.Serving? && pc.serve.SvcGet? && o.body.ServiceBody?)
    ensures var inst, next := Held(pc).value, Resume(cfg, pc, Found(o));
            && (o.meta.controller != Some(inst.meta.uid) ==> next == Ended(Errored))
            && (o.meta.controller == Some(inst.meta.uid) ==>
                  || (next != Ended(Errored) && (pc.Deploying? ==> FoundDeployment(next)))
                  || (pc.Deploying? && RefusesCasc(Deploying(DepClaim(inst, true)))))
  {
    hide MergedData, Settled;
  }

  // ---- over whole runs ---------------------------------------------------------------------

  /** Event `i` is a request of worker `w` that fails and is not one of the three. */
  ghost predicate FailsAt(cfg: Config, s: Sys, es: seq<Event>, i: nat, w: int)
    requires i < |es|
  {
    var mid, e := End(cfg, s, es[..i]), es[i];
    && e.Act? && e.w == w && w in mid.workers
    && Reply(mid.store, e.call, e.verdict) == Failed && !Forgiven(mid.workers[w].pc)
  }

  /** However it goes on: a reconcile with such a failure has ended with an error and requests nothing more. */
  lemma {:induction false} FailedReconcileErrs(cfg: Config, s: Sys, es: seq<Event>, i: nat, w: int)
    requires IsRun(cfg, s, es) && i < |es| && FailsAt(cfg, s, es, i, w)
    requires forall j :: i < j < |es| && (es[j].Begin? || es[j].Halt?) ==> es[j].w != w
    ensures w in End(cfg, s, es).workers && End(cfg, s, es).workers[w].pc == Ended(Errored)
    ensures forall j :: i < j < |es| && es[j].Act? ==> es[j].w != w
  {
    hide Resume, StoreAfter, Record, Issues, Forgiven;
    var last := |es| - 1;
    var mid := End(cfg, s, es[..last]);
    if i < last {
      assert es[..last][..i] == es[..i];
      FailedReconcileErrs(cfg, s, es[..last], i, w);
      if es[last].Act? && es[last].w == w {
        NothingAfterTheEnd(cfg, mid.workers[w].req, mid.workers[w].pc, es[last].call);
      }
    } else {
      NothingAfterTheEnd(cfg, mid.workers[w].req, mid.workers[w].pc, es[last].call);
      FailureEndsOrIsForgiven(cfg, mid.workers[w].pc, Obj(FreshMeta, AccountBody));
    }
  }

  lemma NothingAfterTheEnd(cfg: Config, req: Name, pc: Pc, call: Call)
    requires Issues(cfg, req, pc, call)
    ensures !pc.Ended?
  {
  }
}
