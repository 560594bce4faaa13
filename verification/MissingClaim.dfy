/** The one failed read that leaves a Deployment with a claim that does not exist. */
module MissingClaim {
  import opened Basics
  import opened Api
  import opened PodBuilder
  import opened Services
  import opened Cluster
  import opened Protocol
  import opened Runs
  import opened Claims
  import opened Liveness
  import opened Undisturbed

  // ---- up to the read of the claim ---------------------------------------------------------

  predicate BeforeClaim(pc: Pc)
  {
    || pc.Gate? || pc.Setup? || pc.Restarting?
    || (pc.Deploying? && (pc.deploy.DepInstance? || pc.deploy.DepGet? || pc.deploy.DepAccount?))
  }

  predicate AtClaim(pc: Pc)
  {
    pc.Deploying? && pc.deploy.DepClaim?
  }

  /** The instance names a claim that is absent and that it could create, and it has no Deployment yet. */
  ghost predicate ClaimMissing(store: Store, req: Name, id: Identity)
  {
    && id.spec.storage.Some? && id.spec.storage.value.jobsPvcSpec.Some?
    && ClaimKey(req, id.spec.storage.value) !in store.objs
    && DeploymentKey(req) !in store.objs
  }

  lemma WritesBeforeClaim(cfg: Config, req: Name, pc: Pc, call: Call)
    requires Issues(cfg, req, pc, call) && IsWrite(call) && BeforeClaim(pc)
    ensures !call.UpdateStatus? && call.key == ConfigMapKey(req)
  {
    hide NewConfigMap, UpdatedConfigMap, NewClaim, IsNewDeployment, NewServiceObj, UpdatedService, ReadyInstance;
  }

  lemma NextToClaim(cfg: Config, store: Store, req: Name, id: Identity, pc: Pc, call: Call)
    requires LoneInv(cfg, store, req, id, pc) && Issues(cfg, req, pc, call) && BeforeClaim(pc)
    requires ClaimMissing(store, req, id)
    ensures var next := Resume(cfg, pc, Reply(store, call, Normal));
            BeforeClaim(next) || AtClaim(next) || (next.Ended? && !next.outcome.Synced?)
  {
    hide Acts, MergedData, ToCascSecret, Dated;
  }

  lemma MissingStays(store: Store, call: Call, fill: Fill, req: Name, id: Identity)
    requires ClaimMissing(store, req, id)
    requires IsWrite(call) ==> !call.UpdateStatus? && call.key == ConfigMapKey(req)
    ensures ClaimMissing(StoreAfter(store, call, fill, Normal), req, id)
  {
    hide Filled;
  }

  /** Worker `w` is on its way to read the claim, and would sync undisturbed. */
  ghost predicate Nearing(cfg: Config, s: Sys, w: int, req: Name, id: Identity)
  {
    && w in s.workers && s.workers[w].req == req && Sensible(s.workers[w].pc)
    && LoneInv(cfg, s.store, req, id, s.workers[w].pc) && WillSync(cfg, s.store, req, id, s.workers[w].pc)
    && (BeforeClaim(s.workers[w].pc) || AtClaim(s.workers[w].pc))
    && ClaimMissing(s.store, req, id)
  }

  lemma NearingStep(cfg: Config, s: Sys, w: int, req: Name, id: Identity) returns (e: Event)
    requires Nearing(cfg, s, w, req, id) && !AtClaim(s.workers[w].pc)
    ensures Enabled(cfg, s, e) && e.Act? && e.w == w && e.verdict.Normal?
    ensures var s' := Apply(cfg, s, e);
            Nearing(cfg, s', w, req, id) && StepsLeft(s'.workers[w].pc) < StepsLeft(s.workers[w].pc)
  {
    hide Sensible, Resume, Issues, StoreAfter, Reply, Record, StepsLeft, LoneInv, WillSync, WillPanic, WillBeAbsorbed;
    hide ClaimMissing, AbsentOrOwn, Identities;
    var pc := s.workers[w].pc;
    var call := NextCall(cfg, req, pc);
    var fill := Fill([], "", "");
    e := Act(w, call, fill, Normal);
    ResumeSensible(cfg, pc, Reply(s.store, call, Normal));
    ResumeDescends(cfg, pc, Reply(s.store, call, Normal));
    OneStep(cfg, s.store, req, id, pc, call, fill);
    NextToClaim(cfg, s.store, req, id, pc, call);
    SyncingEndsSynced(cfg, Apply(cfg, s, e).store, req, id, Apply(cfg, s, e).workers[w].pc);
    if IsWrite(call) {
      WritesBeforeClaim(cfg, req, pc, call);
    }
    MissingStays(s.store, call, fill, req, id);
  }

  lemma {:induction false} DriveToClaim(cfg: Config, s: Sys, w: int, req: Name, id: Identity) returns (es: seq<Event>)
    requires w in s.workers && Nearing(cfg, s, w, req, id)
    ensures IsRun(cfg, s, es) && Alone(es, w)
    ensures var s' := End(cfg, s, es);
            w in s'.workers && AtClaim(s'.workers[w].pc) && Nearing(cfg, s', w, req, id)
    decreases StepsLeft(s.workers[w].pc)
  {
    hide Nearing, Apply, Enabled, StepsLeft;
    if AtClaim(s.workers[w].pc) {
      es := [];
    } else {
      var e := NearingStep(cfg, s, w, req, id);
      OneEvent(cfg, s, e);
      NearingIsWorker(cfg, Apply(cfg, s, e), w, req, id);
      var rest := DriveToClaim(cfg, Apply(cfg, s, e), w, req, id);
      RunsCompose(cfg, s, [e], rest);
      es := [e] + rest;
    }
  }

  lemma NearingIsWorker(cfg: Config, s: Sys, w: int, req: Name, id: Identity)
    requires Nearing(cfg, s, w, req, id)
    ensures w in s.workers
  {
  }

  // ---- the refused read --------------------------------------------------------------------

  /** Beyond the claim, with the claim still missing; where a Deployment has been made, it names it all the same. */
  ghost predicate Unclaimed(store: Store, req: Name, id: Identity, pc: Pc)
  {
    var dep := DeploymentKey(req);
    && id.spec.storage.Some? && ClaimKey(req, id.spec.storage.value) !in store.objs
    && (BeyondClaim(pc) || pc.Serving? || pc.Reporting? || pc.Ended?)
    && (BeyondClaim(pc) ==> dep !in store.objs)
    && (pc.Serving? || pc.Reporting? || pc == Ended(Synced) ==>
          dep in store.objs && store.objs[dep].body.DeploymentBody?
          && !ClaimsResolved(store, req.ns, store.objs[dep].body.pod))
  }

  /** The read of the claim is refused: the reconcile goes on as if it had been there. */
  lemma ReadRefused(cfg: Config, s: Sys, w: int, req: Name, id: Identity) returns (e: Event)
    requires w in s.workers && Nearing(cfg, s, w, req, id) && AtClaim(s.workers[w].pc)
    ensures Enabled(cfg, s, e) && e.Act? && e.w == w && e.verdict.Reject?
    ensures e.call == Get(ClaimKey(req, id.spec.storage.value))
    ensures var s' := Apply(cfg, s, e);
            && w in s'.workers && s'.workers[w].req == req && Sensible(s'.workers[w].pc)
            && LoneInv(cfg, s'.store, req, id, s'.workers[w].pc)
            && WillSync(cfg, s'.store, req, id, s'.workers[w].pc)
            && Unclaimed(s'.store, req, id, s'.workers[w].pc)
  {
    hide Dated, WellKinded, GateOpens, HasInstance, ServicePasses, AccountThere, CascThere, ToCascSecret, Identities;
    var call := NextCall(cfg, req, s.workers[w].pc);
    e := Act(w, call, Fill([], "", ""), Reject);
    var deploy := s.workers[w].pc.deploy;
    ResumeSensible(cfg, s.workers[w].pc, Failed);
    CascSecretLeads(s.store, req, id, deploy.inst, deploy.present);
    BeyondTheClaim(deploy.inst, deploy.present);
  }

  lemma BeyondTheClaim(inst: Instance, present: bool)
    ensures var next := ToCascSecret(inst, present);
            (next.Deploying? ==> BeyondClaim(next)) && (next.Serving? ==> present)
  {
  }

  // ---- and the rest ------------------------------------------------------------------------

  /** A pod with storage names the claim. */
  lemma PodNamesClaim(cfg: Config, req: Name, inst: Instance, groovy: set<string>, casc: set<string>, obj: Obj,
                      store: Store)
    requires IsNewDeployment(cfg, req, inst, groovy, casc, obj) && inst.body.spec.storage.Some?
    requires ClaimKey(req, inst.body.spec.storage.value) !in store.objs
    ensures !ClaimsResolved(store, req.ns, obj.body.pod)
  {
    hide EnvList, Mounts;
    var envOrder, groovyOrder, cascOrder :|
      && Enumerates(envOrder, inst.body.spec.env.Keys)
      && Enumerates(groovyOrder, groovy)
      && Enumerates(cascOrder, casc)
      && obj.body.pod == PodFrom(cfg.jvmEnvironment, req.name, inst, envOrder, groovyOrder, cascOrder);
    assert obj.body.pod.volumes[1].source == FromClaim(ClaimName(req.name, inst.body.spec.storage.value));
  }

  lemma LaterWrites(cfg: Config, req: Name, pc: Pc, call: Call)
    requires Issues(cfg, req, pc, call) && IsWrite(call) && (BeyondClaim(pc) || pc.Serving? || pc.Reporting?)
    ensures call.key.kind == ServiceKind || call.key.kind == InstanceKind
            || (pc.Deploying? && pc.deploy.DepCreate? && call.Create? && call.key == DeploymentKey(req))
  {
    hide NewConfigMap, UpdatedConfigMap, NewClaim, IsNewDeployment, NewServiceObj, UpdatedService, ReadyInstance;
  }

  lemma NextBeyond(cfg: Config, store: Store, req: Name, id: Identity, pc: Pc, call: Call)
    requires LoneInv(cfg, store, req, id, pc) && Issues(cfg, req, pc, call) && Unclaimed(store, req, id, pc)
    ensures var next := Resume(cfg, pc, Reply(store, call, Normal));
            && (BeyondClaim(next) || next.Serving? || next.Reporting? || next.Ended?)
            && (BeyondClaim(next) ==> BeyondClaim(pc) && !pc.deploy.DepCreate?)
            && (BeyondClaim(pc) ==> BeyondClaim(next) || next == FAIL || pc.deploy.DepCreate?)
  {
    hide Dated, WellKinded, GateOpens, HasInstance, ClaimsResolved, Acts, Settled;
  }

  lemma CreationUnclaimed(cfg: Config, store: Store, req: Name, id: Identity, pc: Pc, call: Call, fill: Fill)
    requires LoneInv(cfg, store, req, id, pc) && Issues(cfg, req, pc, call) && Unclaimed(store, req, id, pc)
    requires pc.Deploying? && pc.deploy.DepCreate?
    ensures Unclaimed(StoreAfter(store, call, fill, Normal), req, id, Resume(cfg, pc, Reply(store, call, Normal)))
  {
    hide Dated, WellKinded, GateOpens, HasInstance, ClaimsResolved, IsPodFor, Filled, DeployPasses;
    var deploy := pc.deploy;
    PodNamesClaim(cfg, req, deploy.inst, deploy.groovy, deploy.casc, call.obj,
                  StoreAfter(store, call, fill, Normal));
  }

  lemma UnclaimedStep(cfg: Config, store: Store, req: Name, id: Identity, pc: Pc, call: Call, fill: Fill)
    requires LoneInv(cfg, store, req, id, pc) && Issues(cfg, req, pc, call) && Unclaimed(store, req, id, pc)
    ensures Unclaimed(StoreAfter(store, call, fill, Normal), req, id, Resume(cfg, pc, Reply(store, call, Normal)))
  {
    hide Resume, Issues, LoneInv, Filled, BeyondClaim, ClaimsResolved;
    NextBeyond(cfg, store, req, id, pc, call);
    EndedIssuesNothing(cfg, req, pc, call);
    BeyondIsDeploying(pc);
    BeyondIsDeploying(Resume(cfg, pc, Reply(store, call, Normal)));
    var after := StoreAfter(store, call, fill, Normal);
    if pc.Deploying? && pc.deploy.DepCreate? {
      CreationUnclaimed(cfg, store, req, id, pc, call, fill);
    } else {
      if IsWrite(call) && Accepts(store, call) {
        LaterWrites(cfg, req, pc, call);
      }
      var dep := DeploymentKey(req);
      if dep in store.objs && store.objs[dep].body.DeploymentBody? {
        UnresolvedStays(store, after, req, id, store.objs[dep].body.pod);
      }
    }
  }

  lemma BeyondIsDeploying(pc: Pc)
    ensures BeyondClaim(pc) ==> pc.Deploying?
  {
  }

  /** While no claim appears, a pod that does not resolve goes on not resolving. */
  lemma UnresolvedStays(store: Store, after: Store, req: Name, id: Identity, pod: Pod)
    requires forall k: Key :: k.kind == ClaimKind && k in after.objs ==> k in store.objs
    ensures !ClaimsResolved(store, req.ns, pod) ==> !ClaimsResolved(after, req.ns, pod)
  {
  }

  lemma {:induction false} StaysUnclaimed(cfg: Config, s: Sys, es: seq<Event>, w: int, req: Name, id: Identity)
    requires IsRun(cfg, s, es) && Alone(es, w) && w in s.workers && s.workers[w].req == req
    requires LoneInv(cfg, s.store, req, id, s.workers[w].pc) && Unclaimed(s.store, req, id, s.workers[w].pc)
    ensures var s' := End(cfg, s, es);
            w in s'.workers && Unclaimed(s'.store, req, id, s'.workers[w].pc)
  {
    hide LoneInv, Unclaimed, Issues, Resume, StoreAfter, Reply, Record;
    if |es| > 0 {
      var last := |es| - 1;
      var mid := End(cfg, s, es[..last]);
      StaysUnclaimed(cfg, s, es[..last], w, req, id);
      AloneKeeps(cfg, s, es[..last], w, req, id);
      UnclaimedStep(cfg, mid.store, req, id, mid.workers[w].pc, es[last].call, es[last].fill);
    }
  }

  /** The failing run: from every store in which the instance could sync but for its claim, which it would create, one
      refused read of the claim makes the reconcile create a Deployment that names a claim that does not exist, and
      report the instance ready. */
  lemma {:induction false} DeploymentWithoutClaim(cfg: Config, s: Sys, w: int, req: Name, id: Identity)
    returns (before: seq<Event>, refused: Event, rest: seq<Event>)
    requires CanBegin(s, w, req, id) && CanSync(cfg, s.store, req, id) && ClaimMissing(s.store, req, id)
    ensures var es := before + [refused] + rest;
            && IsRun(cfg, s, es) && UndisturbedReconcile(before, w, req) && Alone(rest, w)
            && refused.Act? && refused.call == Get(ClaimKey(req, id.spec.storage.value)) && refused.verdict.Reject?
    ensures var end := End(cfg, s, before + [refused] + rest);
            && w in end.workers && end.workers[w].pc == Ended(Synced)
            && Unclaimed(end.store, req, id, Ended(Synced))
  {
    hide IsRun, End, LoneInv, CanSync, Nearing, Apply, Enabled, Sensible, Unclaimed, WellKinded, Dated, HasInstance;
    var begun := Begin(w, req);
    var s0 := BeginNearing(cfg, s, w, req, id);
    var drive := DriveToClaim(cfg, s0, w, req, id);
    var s1 := End(cfg, s0, drive);
    refused := ReadRefused(cfg, s1, w, req, id);
    var s2 := Apply(cfg, s1, refused);
    rest := Completes(cfg, s2, w);
    AloneKeeps(cfg, s2, rest, w, req, id);
    StaysUnclaimed(cfg, s2, rest, w, req, id);
    OneEvent(cfg, s, begun);
    RunsCompose(cfg, s, [begun], drive);
    before := [begun] + drive;
    assert before[1..] == drive;
    RunExtends(cfg, s, before, refused);
    RunsCompose(cfg, s, before + [refused], rest);
  }

  lemma BeginNearing(cfg: Config, s: Sys, w: int, req: Name, id: Identity) returns (s': Sys)
    requires CanBegin(s, w, req, id) && CanSync(cfg, s.store, req, id) && ClaimMissing(s.store, req, id)
    ensures Enabled(cfg, s, Begin(w, req)) && s' == Apply(cfg, s, Begin(w, req))
    ensures w in s'.workers && Nearing(cfg, s', w, req, id)
  {
    hide CanSync, ClaimMissing;
    s' := Apply(cfg, s, Begin(w, req));
    BeginsLone(cfg, s, w, req, id);
    GateSensible();
  }

  // ---- such a store ------------------------------------------------------------------------

  const A := Name("ns", "a")
  const StoringSpec :=
    Spec(map[], [], Some(CascConfig("jenkins: {}", "")), "", "", map[], "admin",
         Some(ServiceOptions("", "NodePort", 0, map[])), "", Some(Storage("", Some("1Gi"))), "")

  const StoringStore :=
    Store(map[InstanceKey(A) := Obj(Meta("uid-a", None, 0, map[], map[]), InstanceBody(StoringSpec, "")),
              Key(SecretKind, "ns", "admin") := Obj(FreshMeta, SecretBody(map[]))], 1)

  /** A new instance with storage is where such a run can begin. */
  lemma MissingClaimExample(cfg: Config)
    ensures var s, id := Sys(StoringStore, map[], [], Identities(StoringStore)), Identity("uid-a", StoringSpec);
            Initial(s) && CanBegin(s, 1, A, id) && CanSync(cfg, s.store, A, id) && ClaimMissing(s.store, A, id)
  {
    hide MergedData;
  }
}
