/** Idempotence: once a reconcile has synced without a failed request, nothing is ever written for its instance
    again, by that or by any other reconcile, until somebody else changes the instance or one of its objects. */
module Idempotence {
  import opened Api
  import opened Services
  import opened Cluster
  import opened Protocol
  import opened Runs
  import opened Convergence

  predicate PastSetup(pc: Pc)
  {
    pc.Restarting? || pc.Deploying? || pc.Serving? || pc.Reporting? || pc == Ended(Synced)
  }

  predicate PastClaim(pc: Pc)
  {
    || (pc.Deploying? && !pc.deploy.DepInstance? && !pc.deploy.DepGet? && !pc.deploy.DepAccount?
        && !pc.deploy.DepClaim? && !pc.deploy.DepClaimCreate?)
    || pc.Serving? || pc.Reporting? || pc == Ended(Synced)
  }

  /** The Deployment was found, or created. */
  predicate PastDeployment(pc: Pc)
  {
    || (pc.Deploying? && !pc.deploy.DepInstance? && !pc.deploy.DepGet? && !pc.deploy.DepCreate? && pc.deploy.present)
    || pc.Serving? || pc.Reporting? || pc == Ended(Synced)
  }

  predicate PastService(pc: Pc)
  {
    pc.Reporting? || pc == Ended(Synced)
  }

  /** What a reconcile without failed requests has achieved when it is at `pc`: the stages behind it are settled. */
  ghost predicate Achieved(cfg: Config, store: Store, req: Name, id: Identity, pc: Pc)
  {
    && (PastSetup(pc) ==> RankSetup(cfg, store, req, id) == 0)
    && (PastClaim(pc) ==> RankClaim(store, req, id) == 0)
    && (PastDeployment(pc) ==> RankDeployment(store, req) == 0)
    && (PastService(pc) ==> RankService(store, req, id) == 0)
    && (pc == Ended(Synced) ==> RankStatus(store, req) == 0)
  }

  /** A request of a reconcile of `req` at `pc`, answered without failure. */
  ghost predicate Answered(cfg: Config, s: Sys, e: Event, req: Name, id: Identity)
  {
    && Inv(cfg, s) && Closed(s) && Enabled(cfg, s, e) && e.Act?
    && TheInstance(s.known, req, id) && s.workers[e.w].req == req
    && !Reply(s.store, e.call, e.verdict).Failed?
    && Achieved(cfg, s.store, req, id, s.workers[e.w].pc)
  }

  lemma HeldIsTheInstance(cfg: Config, s: Sys, w: int, req: Name, id: Identity)
    requires Inv(cfg, s) && Closed(s) && TheInstance(s.known, req, id)
    requires w in s.workers && s.workers[w].req == req
    ensures Held(s.workers[w].pc).Some? ==> Identify(Held(s.workers[w].pc).value) == id
    ensures Looked(s.workers[w].pc).Some? ==> Identify(Looked(s.workers[w].pc).value) == id
  {
    hide UpdateJustified;
    assert WorkerInv(cfg, s.store, s.known, s.workers[w].req, s.workers[w].pc);
    if Held(s.workers[w].pc).Some? {
      OneIdentityPerName(s.store, req, Identify(Held(s.workers[w].pc).value), id);
    }
    if Looked(s.workers[w].pc).Some? {
      OneIdentityPerName(s.store, req, Identify(Looked(s.workers[w].pc).value), id);
    }
  }

  lemma SetupAchieves(cfg: Config, s: Sys, e: Event, req: Name, id: Identity)
    requires Answered(cfg, s, e, req, id) && s.workers[e.w].pc.Setup?
    ensures var after := StoreAfter(s.store, e.call, e.fill, e.verdict);
            Achieved(cfg, after, req, id, ResumeSetup(cfg, s.workers[e.w].pc.setup, Reply(s.store, e.call, e.verdict)))
  {
    hide MergedData, UpdatedConfigMap, NewConfigMap, Written, Identities;
    hide RankClaim, RankDeployment, RankService, RankStatus;
    HeldIsTheInstance(cfg, s, e.w, req, id);
    if Lands(s.store, e.call, e.verdict) {
      SetupStep(cfg, s, e, req, id);
    }
  }

  lemma DeploymentAchieves(cfg: Config, s: Sys, e: Event, req: Name, id: Identity)
    requires Answered(cfg, s, e, req, id) && s.workers[e.w].pc.Deploying?
    ensures var after := StoreAfter(s.store, e.call, e.fill, e.verdict);
            Achieved(cfg, after, req, id, ResumeDeployment(s.workers[e.w].pc.deploy, Reply(s.store, e.call, e.verdict)))
  {
    hide NewClaim, IsNewDeployment, Written, Identities, Inv;
    hide RankSetup, RankService, RankStatus;
    HeldIsTheInstance(cfg, s, e.w, req, id);
    if Lands(s.store, e.call, e.verdict) {
      SetupStep(cfg, s, e, req, id);
      ClaimStep(cfg, s, e, req, id);
      DeploymentStep(cfg, s, e, req, id);
    }
  }

  lemma ServiceAchieves(cfg: Config, s: Sys, e: Event, req: Name, id: Identity)
    requires Answered(cfg, s, e, req, id) && s.workers[e.w].pc.Serving?
    ensures var after := StoreAfter(s.store, e.call, e.fill, e.verdict);
            Achieved(cfg, after, req, id, ResumeService(s.workers[e.w].pc.serve, Reply(s.store, e.call, e.verdict)))
  {
    hide NewServiceObj, UpdatedService, Written, Identities, Inv, Settled;
    hide RankSetup, RankClaim, RankDeployment, RankStatus;
    HeldIsTheInstance(cfg, s, e.w, req, id);
    if Lands(s.store, e.call, e.verdict) {
      SetupStep(cfg, s, e, req, id);
      ClaimStep(cfg, s, e, req, id);
      DeploymentStep(cfg, s, e, req, id);
      ServiceStep(cfg, s, e, req, id);
    }
  }

  lemma StatusAchieves(cfg: Config, s: Sys, e: Event, req: Name, id: Identity)
    requires Answered(cfg, s, e, req, id) && s.workers[e.w].pc.Reporting?
    ensures var after := StoreAfter(s.store, e.call, e.fill, e.verdict);
            Achieved(cfg, after, req, id, ResumeStatus(s.workers[e.w].pc.report, Reply(s.store, e.call, e.verdict)))
  {
    hide Written, Identities, Inv;
    hide RankSetup, RankClaim, RankDeployment, RankService;
    HeldIsTheInstance(cfg, s, e.w, req, id);
    if Lands(s.store, e.call, e.verdict) {
      SetupStep(cfg, s, e, req, id);
      ClaimStep(cfg, s, e, req, id);
      DeploymentStep(cfg, s, e, req, id);
      ServiceStep(cfg, s, e, req, id);
      StatusStep(cfg, s, e, req, id);
    }
  }

  /** Every reconcile of `req` that is clean has achieved what its program point says. */
  ghost predicate AllAchieved(cfg: Config, s: Sys, req: Name, id: Identity)
  {
    forall w :: w in s.workers && s.workers[w].req == req && s.workers[w].clean ==>
      Achieved(cfg, s.store, req, id, s.workers[w].pc)
  }

  lemma ActorAchieves(cfg: Config, s: Sys, e: Event, req: Name, id: Identity)
    requires Answered(cfg, s, e, req, id)
    ensures var after := StoreAfter(s.store, e.call, e.fill, e.verdict);
            Achieved(cfg, after, req, id, Resume(cfg, s.workers[e.w].pc, Reply(s.store, e.call, e.verdict)))
  {
    hide RankSetup, RankClaim, RankDeployment, RankService, RankStatus, Written, Reply, Lands, Inv, Issues, TheInstance;
    hide ResumeSetup, ResumeDeployment, ResumeService, ResumeStatus;
    match s.workers[e.w].pc
    case Gate(_) =>
    case Setup(_) => SetupAchieves(cfg, s, e, req, id);
    case Restarting(_) => RestartAchieves(cfg, s, e, req, id);
    case Deploying(_) => DeploymentAchieves(cfg, s, e, req, id);
    case Serving(_) => ServiceAchieves(cfg, s, e, req, id);
    case Reporting(_) => StatusAchieves(cfg, s, e, req, id);
    case Ended(_) => EndedIsSilent(cfg, s, e);
  }

  lemma RestartAchieves(cfg: Config, s: Sys, e: Event, req: Name, id: Identity)
    requires Answered(cfg, s, e, req, id) && s.workers[e.w].pc.Restarting?
    ensures var after := StoreAfter(s.store, e.call, e.fill, e.verdict);
            Achieved(cfg, after, req, id, ResumeRestart(s.workers[e.w].pc.restart, Reply(s.store, e.call, e.verdict)))
  {
    hide RankSetup, RankClaim, RankDeployment, RankService, RankStatus, Written, Inv, TheInstance;
  }

  lemma EndedIsSilent(cfg: Config, s: Sys, e: Event)
    requires Enabled(cfg, s, e) && e.Act?
    ensures !s.workers[e.w].pc.Ended?
  {
  }

  /** What one reconcile has achieved no step of another takes away. */
  lemma AchievementStays(cfg: Config, s: Sys, e: Event, req: Name, id: Identity, pc: Pc)
    requires Inv(cfg, s) && Closed(s) && Enabled(cfg, s, e) && e.Act? && TheInstance(s.known, req, id)
    requires Achieved(cfg, s.store, req, id, pc)
    ensures Achieved(cfg, StoreAfter(s.store, e.call, e.fill, e.verdict), req, id, pc)
  {
    hide RankSetup, RankClaim, RankDeployment, RankService, RankStatus, Written, Accepts, Reply, Inv, Issues,
         TheInstance;
    if Lands(s.store, e.call, e.verdict) {
      SetupStep(cfg, s, e, req, id);
      ClaimStep(cfg, s, e, req, id);
      DeploymentStep(cfg, s, e, req, id);
      ServiceStep(cfg, s, e, req, id);
      StatusStep(cfg, s, e, req, id);
    }
  }

  lemma AchievedStep(cfg: Config, s: Sys, e: Event, req: Name, id: Identity)
    requires Inv(cfg, s) && Closed(s) && Enabled(cfg, s, e) && TheInstance(s.known, req, id)
    requires e.Foreign? ==> Spares(s.store, e.store, req, id)
    requires AllAchieved(cfg, s, req, id)
    ensures AllAchieved(cfg, Apply(cfg, s, e), req, id)
  {
    hide RankSetup, RankClaim, RankDeployment, RankService, RankStatus, StoreAfter, Reply, Inv, Issues, TheInstance,
         Resume, Achieved;
    var s' := Apply(cfg, s, e);
    forall w | w in s'.workers && s'.workers[w].req == req && s'.workers[w].clean
      ensures Achieved(cfg, s'.store, req, id, s'.workers[w].pc)
    {
      match e
      case Act(_, _, _, _) =>
        if w == e.w {
          ActorAchieves(cfg, s, e, req, id);
        } else {
          AchievementStays(cfg, s, e, req, id, s.workers[w].pc);
        }
      case Begin(_, _) => FreshAchieves(cfg, s.store, req, id);
      case Foreign(store) => SparedAchievement(cfg, s.store, store, req, id, s.workers[w].pc);
      case _ =>
    }
  }

  lemma SparedAchievement(cfg: Config, before: Store, after: Store, req: Name, id: Identity, pc: Pc)
    requires Spares(before, after, req, id) && Achieved(cfg, before, req, id, pc)
    ensures Achieved(cfg, after, req, id, pc)
  {
    hide RankSetup, RankClaim, RankDeployment, RankService, RankStatus, Spares;
    SparedRank(cfg, before, after, req, id);
  }

  lemma FreshAchieves(cfg: Config, store: Store, req: Name, id: Identity)
    ensures Achieved(cfg, store, req, id, Gate(GateInstance))
  {
  }

  lemma {:induction false} RunAchieves(cfg: Config, s: Sys, es: seq<Event>, req: Name, id: Identity)
    requires Inv(cfg, s) && Closed(s) && IsRun(cfg, s, es) && Calm(cfg, s, es, req, id)
    requires TheInstance(s.known, req, id) && AllAchieved(cfg, s, req, id)
    ensures AllAchieved(cfg, End(cfg, s, es), req, id)
  {
    hide Apply, Enabled, Inv, Achieved, TheInstance, Closed, Spares;
    if |es| > 0 {
      var last := |es| - 1;
      CalmPrefix(cfg, s, es, last, req, id);
      RunAchieves(cfg, s, es[..last], req, id);
      RunKeepsInv(cfg, s, es[..last]);
      CalmKeepsInstances(cfg, s, es[..last], req, id);
      RunStaysClosed(cfg, s, es[..last]);
      AchievedStep(cfg, End(cfg, s, es[..last]), es[last], req, id);
    }
  }

  /** After a clean synced reconcile of `req` the rest of the run writes nothing for it. */
  lemma SyncedMeansSettled(cfg: Config, s: Sys, es: seq<Event>, i: nat, w: int, req: Name, id: Identity)
    requires Inv(cfg, s) && Closed(s) && IsRun(cfg, s, es) && Calm(cfg, s, es, req, id)
    requires TheInstance(s.known, req, id) && AllAchieved(cfg, s, req, id) && i <= |es|
    requires var mid := End(cfg, s, es[..i]);
             w in mid.workers && mid.workers[w] == Worker(req, Ended(Synced), true)
    ensures Rank(cfg, End(cfg, s, es[..i]).store, req, id) == 0
    ensures WritesFor(End(cfg, s, es).log, req) == WritesFor(End(cfg, s, es[..i]).log, req)
  {
    hide Apply, Enabled, Inv, TheInstance, Closed, Calm;
    hide RankSetup, RankClaim, RankDeployment, RankService, RankStatus;
    RunPrefix(cfg, s, es, i);
    CalmPrefix(cfg, s, es, i, req, id);
    RunAchieves(cfg, s, es[..i], req, id);
    WritesBoundedByRank(cfg, s, es, i, req, id);
  }

  /** A run that begins with no reconcile under way begins with nothing to achieve. */
  lemma NothingUnderWay(cfg: Config, s: Sys, req: Name, id: Identity)
    requires Initial(s)
    ensures AllAchieved(cfg, s, req, id)
  {
  }
}
