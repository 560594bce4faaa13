/** Convergence: while nobody else touches an instance and its objects, every landed write of a reconcile lowers a
    rank that is at most five, however many reconciles run at once, of whatever instances, wherever they fail or
    stop, and whatever other clients do elsewhere. */
module Convergence {
  import opened Basics
  import opened Api
  import opened Services
  import opened Cluster
  import opened Protocol
  import opened Runs
  import opened Ownership

  ghost predicate OperatorOnly(es: seq<Event>)
  {
    forall i :: 0 <= i < |es| ==> !es[i].Foreign?
  }

  // ---- nobody edits an instance ------------------------------------------------------------

  /** The history holds no instance but those stored now: no reconcile under way has seen another. */
  ghost predicate Closed(s: Sys)
  {
    s.known == Identities(s.store)
  }

  /** No client but the operator adds, removes or edits an instance, whatever else it does. */
  ghost predicate KeepsInstances(cfg: Config, s: Sys, es: seq<Event>)
  {
    forall i :: 0 <= i < |es| && es[i].Foreign? ==> Identities(es[i].store) == Identities(End(cfg, s, es[..i]).store)
  }

  /** The two stores hold the same instance and the same objects of it. */
  ghost predicate Spares(before: Store, after: Store, req: Name, id: Identity)
  {
    && Identities(after) == Identities(before)
    && SameAt(before, after, InstanceKey(req))
    && SameAt(before, after, ConfigMapKey(req))
    && (id.spec.storage.Some? ==> SameAt(before, after, ClaimKey(req, id.spec.storage.value)))
    && SameAt(before, after, DeploymentKey(req))
    && SameAt(before, after, ServiceKey(req, id.spec))
  }

  /** Other clients leave the instances, and the objects of this one, alone. */
  ghost predicate Calm(cfg: Config, s: Sys, es: seq<Event>, req: Name, id: Identity)
  {
    forall i :: 0 <= i < |es| && es[i].Foreign? ==> Spares(End(cfg, s, es[..i]).store, es[i].store, req, id)
  }

  lemma CalmPrefix(cfg: Config, s: Sys, es: seq<Event>, i: nat, req: Name, id: Identity)
    requires Calm(cfg, s, es, req, id) && i <= |es|
    ensures Calm(cfg, s, es[..i], req, id)
  {
    hide Spares;
    forall j | 0 <= j < i && es[..i][j].Foreign?
      ensures Spares(End(cfg, s, es[..i][..j]).store, es[..i][j].store, req, id)
    {
      assert es[..i][..j] == es[..j];
    }
  }

  lemma CalmKeepsInstances(cfg: Config, s: Sys, es: seq<Event>, req: Name, id: Identity)
    requires Calm(cfg, s, es, req, id)
    ensures KeepsInstances(cfg, s, es)
  {
    hide Identities, SameAt;
  }

  lemma OperatorOnlyIsCalm(cfg: Config, s: Sys, es: seq<Event>, req: Name, id: Identity)
    requires OperatorOnly(es)
    ensures Calm(cfg, s, es, req, id) && KeepsInstances(cfg, s, es)
  {
    hide Spares;
  }

  lemma StepStaysClosed(cfg: Config, s: Sys, e: Event)
    requires Inv(cfg, s) && Closed(s) && Enabled(cfg, s, e)
    requires e.Foreign? ==> Identities(e.store) == Identities(s.store)
    ensures Closed(Apply(cfg, s, e)) && Apply(cfg, s, e).known == s.known
  {
    hide Issues, Resume, Written, Reply, Inv;
    var s' := Apply(cfg, s, e);
    if e.Act? && Lands(s.store, e.call, e.verdict) {
      WriteIsOwned(cfg, s, e);
      forall k: Key | k.kind == InstanceKind
        ensures (k in s'.store.objs && s'.store.objs[k].body.InstanceBody?)
                <==> (k in s.store.objs && s.store.objs[k].body.InstanceBody?)
        ensures k in s.store.objs && s.store.objs[k].body.InstanceBody? ==>
                  Identify(s'.store.objs[k]) == Identify(s.store.objs[k])
      {
      }
      assert Identities(s'.store) == Identities(s.store);
    }
  }

  lemma {:induction false} RunStaysClosed(cfg: Config, s: Sys, es: seq<Event>)
    requires Inv(cfg, s) && Closed(s) && IsRun(cfg, s, es) && KeepsInstances(cfg, s, es)
    ensures Closed(End(cfg, s, es)) && End(cfg, s, es).known == s.known
  {
    hide Apply, Enabled, Inv, Identities;
    if |es| > 0 {
      var last := |es| - 1;
      assert KeepsInstances(cfg, s, es[..last]) by {
        forall i | 0 <= i < last && es[..last][i].Foreign?
          ensures Identities(es[..last][i].store) == Identities(End(cfg, s, es[..last][..i]).store)
        {
          assert es[..last][..i] == es[..i];
        }
      }
      RunStaysClosed(cfg, s, es[..last]);
      RunKeepsInv(cfg, s, es[..last]);
      StepStaysClosed(cfg, End(cfg, s, es[..last]), es[last]);
    }
  }

  lemma OperatorRunStaysClosed(cfg: Config, s: Sys, es: seq<Event>)
    requires Initial(s) && IsRun(cfg, s, es) && OperatorOnly(es)
    ensures Inv(cfg, End(cfg, s, es)) && Closed(End(cfg, s, es)) && End(cfg, s, es).known == s.known
  {
    hide IsRun, End, Identities;
    InvOfRun(cfg, s, es);
    InitialIsCurrent(cfg, s);
    RunStaysClosed(cfg, s, es);
  }

  /** `id` is the one instance stored under `req`, and no other instance has its UID. */
  ghost predicate TheInstance(known: set<(Name, Identity)>, req: Name, id: Identity)
  {
    && (req, id) in known
    && forall n, i :: (n, i) in known ==> (n == req <==> i.uid == id.uid)
  }

  lemma OneIdentityPerName(store: Store, req: Name, a: Identity, b: Identity)
    requires (req, a) in Identities(store) && (req, b) in Identities(store)
    ensures a == b
  {
  }

  // ---- the rank ----------------------------------------------------------------------------

  ghost function RankSetup(cfg: Config, store: Store, req: Name, id: Identity): nat
  {
    var k := ConfigMapKey(req);
    if k !in store.objs then 1
    else
      var o := store.objs[k];
      if o.body.ConfigMapBody? && o.meta.controller == Some(id.uid) && id.spec.cascConfig.Some?
         && MergedData(cfg, id.spec, o.body.data) != o.body.data then 1 else 0
  }

  ghost function RankClaim(store: Store, req: Name, id: Identity): nat
  {
    if id.spec.storage.Some? && ClaimKey(req, id.spec.storage.value) !in store.objs then 1 else 0
  }

  ghost function RankDeployment(store: Store, req: Name): nat
  {
    if DeploymentKey(req) !in store.objs then 1 else 0
  }

  ghost function RankService(store: Store, req: Name, id: Identity): nat
  {
    var k := ServiceKey(req, id.spec);
    if k !in store.objs then 1
    else
      var o := store.objs[k];
      if o.body.ServiceBody? && o.meta.controller == Some(id.uid) && !Settled(o.body.service, id) then 1 else 0
  }

  ghost function RankStatus(store: Store, req: Name): nat
  {
    var k := InstanceKey(req);
    if k in store.objs && store.objs[k].body.InstanceBody? && store.objs[k].body.phase != READY then 1 else 0
  }

  /** How many writes the instance may still need. */
  ghost function Rank(cfg: Config, store: Store, req: Name, id: Identity): (r: nat)
    ensures r <= 5
  {
    RankSetup(cfg, store, req, id) + RankClaim(store, req, id) + RankDeployment(store, req)
    + RankService(store, req, id) + RankStatus(store, req)
  }

  /** The part of the rank a program point's write concerns. */
  datatype Part = SetupPart | ClaimPart | DeploymentPart | ServicePart | StatusPart | NoPart

  function PartOf(pc: Pc): Part
  {
    match pc
    case Setup(_) => SetupPart
    case Deploying(DepClaimCreate(_, _)) => ClaimPart
    case Deploying(_) => DeploymentPart
    case Serving(_) => ServicePart
    case Reporting(_) => StatusPart
    case _ => NoPart
  }

  /** A landed write of worker `e.w` in a closed state. */
  ghost predicate Writes(cfg: Config, s: Sys, e: Event)
  {
    Inv(cfg, s) && Closed(s) && Enabled(cfg, s, e) && e.Act? && Lands(s.store, e.call, e.verdict)
  }

  lemma WriterIsKnown(cfg: Config, s: Sys, e: Event, req: Name, id: Identity)
    requires Writes(cfg, s, e) && TheInstance(s.known, req, id)
    ensures Held(s.workers[e.w].pc).Some?
    ensures var actor := Identify(Held(s.workers[e.w].pc).value);
            && (s.workers[e.w].req == req <==> actor.uid == id.uid)
            && (s.workers[e.w].req == req ==> actor == id)
    ensures Looked(s.workers[e.w].pc).Some? && s.workers[e.w].req == req ==>
              Identify(Looked(s.workers[e.w].pc).value) == id
  {
    hide UpdatedConfigMap, NewConfigMap, NewServiceObj, UpdatedService, NewClaim, IsNewDeployment, ReadyInstance;
    hide UpdateJustified, Accepts, Identities;
    WritersHold(cfg, s, e);
    var worker := s.workers[e.w];
    assert WorkerInv(cfg, s.store, s.known, worker.req, worker.pc);
    if worker.req == req {
      OneIdentityPerName(s.store, req, Identify(Held(worker.pc).value), id);
      if Looked(worker.pc).Some? {
        OneIdentityPerName(s.store, req, Identify(Looked(worker.pc).value), id);
      }
    }
  }

  lemma SetupStep(cfg: Config, s: Sys, e: Event, req: Name, id: Identity)
    requires Writes(cfg, s, e) && TheInstance(s.known, req, id)
    ensures var after := StoreAfter(s.store, e.call, e.fill, e.verdict);
            && RankSetup(cfg, after, req, id) <= RankSetup(cfg, s.store, req, id)
            && (s.workers[e.w].req == req && PartOf(s.workers[e.w].pc).SetupPart? ==>
                  RankSetup(cfg, after, req, id) == 0 && RankSetup(cfg, s.store, req, id) == 1)
  {
    hide StringData, NewServiceObj, UpdatedService, NewClaim, IsNewDeployment, Settled, Filled, Identities;
    WriterIsKnown(cfg, s, e, req, id);
    var worker := s.workers[e.w];
    assert WorkerInv(cfg, s.store, s.known, worker.req, worker.pc);
  }

  lemma ClaimStep(cfg: Config, s: Sys, e: Event, req: Name, id: Identity)
    requires Writes(cfg, s, e) && TheInstance(s.known, req, id)
    ensures var after := StoreAfter(s.store, e.call, e.fill, e.verdict);
            && RankClaim(after, req, id) <= RankClaim(s.store, req, id)
            && (s.workers[e.w].req == req && PartOf(s.workers[e.w].pc).ClaimPart? ==>
                  RankClaim(after, req, id) == 0 && RankClaim(s.store, req, id) == 1)
  {
    hide UpdatedConfigMap, NewConfigMap, NewServiceObj, UpdatedService, IsNewDeployment, Settled, Filled, Identities;
    WriterIsKnown(cfg, s, e, req, id);
  }

  lemma DeploymentStep(cfg: Config, s: Sys, e: Event, req: Name, id: Identity)
    requires Writes(cfg, s, e) && TheInstance(s.known, req, id)
    ensures var after := StoreAfter(s.store, e.call, e.fill, e.verdict);
            && RankDeployment(after, req) <= RankDeployment(s.store, req)
            && (s.workers[e.w].req == req && PartOf(s.workers[e.w].pc).DeploymentPart? ==>
                  RankDeployment(after, req) == 0 && RankDeployment(s.store, req) == 1)
  {
    hide UpdatedConfigMap, NewConfigMap, NewServiceObj, UpdatedService, IsNewDeployment, Settled, Filled, Identities;
  }

  lemma ServiceStep(cfg: Config, s: Sys, e: Event, req: Name, id: Identity)
    requires Writes(cfg, s, e) && TheInstance(s.known, req, id)
    ensures var after := StoreAfter(s.store, e.call, e.fill, e.verdict);
            && RankService(after, req, id) <= RankService(s.store, req, id)
            && (s.workers[e.w].req == req && PartOf(s.workers[e.w].pc).ServicePart? ==>
                  RankService(after, req, id) == 0 && RankService(s.store, req, id) == 1)
  {
    hide UpdatedConfigMap, NewConfigMap, NewClaim, IsNewDeployment, Settled, Rebuilt, Filled, NewService, Identities,
         MergedData;
    WriterIsKnown(cfg, s, e, req, id);
    var worker := s.workers[e.w];
    assert WorkerInv(cfg, s.store, s.known, worker.req, worker.pc);
    if worker.pc.Serving? {
      var actor := Identify(worker.pc.serve.inst);
      if worker.pc.serve.SvcUpdate? {
        RebuiltIsSettled(worker.pc.serve.svc.body.service, actor, e.fill);
      } else {
        NewServiceIsSettled(actor, e.fill);
      }
    }
  }

  lemma StatusStep(cfg: Config, s: Sys, e: Event, req: Name, id: Identity)
    requires Writes(cfg, s, e) && TheInstance(s.known, req, id)
    ensures var after := StoreAfter(s.store, e.call, e.fill, e.verdict);
            && RankStatus(after, req) <= RankStatus(s.store, req)
            && (s.workers[e.w].req == req && PartOf(s.workers[e.w].pc).StatusPart? ==>
                  RankStatus(after, req) == 0 && RankStatus(s.store, req) == 1)
  {
    hide UpdatedConfigMap, NewConfigMap, NewServiceObj, UpdatedService, NewClaim, IsNewDeployment, Settled, Filled,
         Identities;
    var worker := s.workers[e.w];
    assert WorkerInv(cfg, s.store, s.known, worker.req, worker.pc);
  }

  /** A landed write of a reconcile of `req` lowers the rank; no other landed write raises any part of it. */
  lemma WriteLowersRank(cfg: Config, s: Sys, e: Event, req: Name, id: Identity)
    requires Writes(cfg, s, e) && TheInstance(s.known, req, id)
    ensures var after := StoreAfter(s.store, e.call, e.fill, e.verdict);
            && Rank(cfg, after, req, id) <= Rank(cfg, s.store, req, id)
            && (s.workers[e.w].req == req ==> Rank(cfg, after, req, id) < Rank(cfg, s.store, req, id))
  {
    hide RankSetup, RankClaim, RankDeployment, RankService, RankStatus, Issues, Written, Accepts, Reply, Inv;
    SetupStep(cfg, s, e, req, id);
    ClaimStep(cfg, s, e, req, id);
    DeploymentStep(cfg, s, e, req, id);
    ServiceStep(cfg, s, e, req, id);
    StatusStep(cfg, s, e, req, id);
    WritersHavePart(cfg, s, e);
  }

  lemma WritersHavePart(cfg: Config, s: Sys, e: Event)
    requires Enabled(cfg, s, e) && e.Act? && Lands(s.store, e.call, e.verdict)
    ensures !PartOf(s.workers[e.w].pc).NoPart?
  {
    hide UpdatedConfigMap, NewConfigMap, NewServiceObj, UpdatedService, NewClaim, IsNewDeployment, ReadyInstance;
  }

  // ---- the bound ---------------------------------------------------------------------------

  ghost function WritesFor(log: seq<Entry>, req: Name): nat
  {
    if |log| == 0 then 0
    else WritesFor(log[..|log| - 1], req) + if log[|log| - 1].Wrote? && log[|log| - 1].req == req then 1 else 0
  }

  lemma WritesForAppend(log: seq<Entry>, more: seq<Entry>, req: Name)
    requires |more| <= 1
    ensures WritesFor(log + more, req) ==
            WritesFor(log, req) + if |more| == 1 && more[0].Wrote? && more[0].req == req then 1 else 0
  {
    if |more| == 0 {
      assert log + more == log;
    } else {
      assert (log + more)[..|log + more| - 1] == log;
    }
  }

  lemma SparedRank(cfg: Config, before: Store, after: Store, req: Name, id: Identity)
    requires Spares(before, after, req, id)
    ensures RankSetup(cfg, after, req, id) == RankSetup(cfg, before, req, id)
    ensures RankClaim(after, req, id) == RankClaim(before, req, id)
    ensures RankDeployment(after, req) == RankDeployment(before, req)
    ensures RankService(after, req, id) == RankService(before, req, id)
    ensures RankStatus(after, req) == RankStatus(before, req)
    ensures Rank(cfg, after, req, id) == Rank(cfg, before, req, id)
  {
    hide MergedData, Settled, Identities;
  }

  lemma RankStep(cfg: Config, s: Sys, e: Event, req: Name, id: Identity)
    requires Inv(cfg, s) && Closed(s) && Enabled(cfg, s, e) && TheInstance(s.known, req, id)
    requires e.Foreign? ==> Spares(s.store, e.store, req, id)
    ensures var s' := Apply(cfg, s, e);
            WritesFor(s'.log, req) + Rank(cfg, s'.store, req, id) <= WritesFor(s.log, req) + Rank(cfg, s.store, req, id)
    ensures WritesFor(Apply(cfg, s, e).log, req) >= WritesFor(s.log, req)
  {
    hide Issues, Resume, Written, Accepts, Reply, Inv, Rank, WritesFor, TheInstance, Identities, Spares;
    if e.Foreign? {
      SparedRank(cfg, s.store, e.store, req, id);
    }
    if e.Act? {
      WritesForAppend(s.log, Record(s.store, s.workers[e.w], e.call, e.fill, e.verdict), req);
      if Lands(s.store, e.call, e.verdict) {
        WriteLowersRank(cfg, s, e, req, id);
      }
    }
  }

  /** Every write made for the instance is paid for by its rank, from any point of a run to any later one. */
  lemma {:induction false} WritesBoundedByRank(cfg: Config, s: Sys, es: seq<Event>, i: nat, req: Name, id: Identity)
    requires Inv(cfg, s) && Closed(s) && IsRun(cfg, s, es) && Calm(cfg, s, es, req, id)
    requires TheInstance(s.known, req, id) && i <= |es|
    ensures var mid, end := End(cfg, s, es[..i]), End(cfg, s, es);
            WritesFor(end.log, req) + Rank(cfg, end.store, req, id) <=
                WritesFor(mid.log, req) + Rank(cfg, mid.store, req, id)
    ensures WritesFor(End(cfg, s, es).log, req) >= WritesFor(End(cfg, s, es[..i]).log, req)
    decreases es
  {
    hide Apply, Enabled, Inv, Rank, WritesFor, TheInstance, Closed, Spares;
    if i == |es| {
      assert es[..i] == es;
    } else {
      var last := |es| - 1;
      CalmPrefix(cfg, s, es, last, req, id);
      WritesBoundedByRank(cfg, s, es[..last], i, req, id);
      assert es[..last][..i] == es[..i];
      RunKeepsInv(cfg, s, es[..last]);
      CalmKeepsInstances(cfg, s, es[..last], req, id);
      RunStaysClosed(cfg, s, es[..last]);
      RankStep(cfg, End(cfg, s, es[..last]), es[last], req, id);
    }
  }

  /** The convergence bound: at most five landed writes for an instance, over any calm run of any length, also when it
      begins with reconciles already under way. */
  lemma {:induction false} AtMostFiveWrites(cfg: Config, s: Sys, es: seq<Event>, req: Name, id: Identity)
    requires Inv(cfg, s) && Closed(s) && IsRun(cfg, s, es) && Calm(cfg, s, es, req, id)
    requires TheInstance(s.known, req, id)
    ensures WritesFor(End(cfg, s, es).log, req) - WritesFor(s.log, req) <= Rank(cfg, s.store, req, id) <= 5
  {
    hide Rank, WritesFor;
    WritesBoundedByRank(cfg, s, es, 0, req, id);
    assert es[..0] == [];
  }

  lemma InitialIsCurrent(cfg: Config, s: Sys)
    requires Initial(s)
    ensures Inv(cfg, s) && Closed(s)
  {
  }
}
