/** Whole runs: any number of reconciles, of any instances, interleaved request by request with each other, with
    arbitrary other clients of the API server, with failing requests and with reconciles that stop anywhere. */
module Runs {
  import opened Basics
  import opened Api
  import opened Services
  import opened Cluster
  import opened Protocol

  /** `clean`: no request of this reconcile has failed so far, other than by NotFound. */
  datatype Worker = Worker(req: Name, pc: Pc, clean: bool)

  /** The history of what the operator did. `actor` is the instance the writing stage had read. */
  datatype Entry =
    | Wrote(req: Name, actor: Identity, key: Key, before: Option<Obj>, after: Obj)
    | Restarted(req: Name)

  /** `known` is the history of the instances: every identity ever stored under a name. */
  datatype Sys = Sys(store: Store, workers: map<int, Worker>, log: seq<Entry>, known: set<(Name, Identity)>)

  datatype Event =
    | Begin(w: int, req: Name)
    | Act(w: int, call: Call, fill: Fill, verdict: Verdict)
    | Halt(w: int)
    | Foreign(store: Store)

  ghost predicate Enabled(cfg: Config, s: Sys, e: Event)
  {
    match e
    case Begin(w, req) => w in s.workers ==> s.workers[w].pc.Ended?
    case Act(w, call, fill, verdict) => w in s.workers && Issues(cfg, s.workers[w].req, s.workers[w].pc, call)
    case Halt(w) => true
    case Foreign(store) => Evolves(s.store, store)
  }

  function Identities(store: Store): set<(Name, Identity)>
  {
    set k | k in store.objs && k.kind == InstanceKind && store.objs[k].body.InstanceBody?
      :: (Name(k.ns, k.name), Identify(store.objs[k]))
  }

  function Record(store: Store, worker: Worker, call: Call, fill: Fill, verdict: Verdict): seq<Entry>
  {
    if Lands(store, call, verdict) && Held(worker.pc).Some? then
      [Wrote(worker.req, Identify(Held(worker.pc).value), call.key,
             if call.key in store.objs then Some(store.objs[call.key]) else None, Written(store, call, fill))]
    else if call.Restart? then [Restarted(worker.req)]
    else []
  }

  function Acted(cfg: Config, s: Sys, w: int, call: Call, fill: Fill, verdict: Verdict): Sys
    requires w in s.workers
  {
    var worker := s.workers[w];
    var reply := Reply(s.store, call, verdict);
    var store := StoreAfter(s.store, call, fill, verdict);
    Sys(store,
        s.workers[w := Worker(worker.req, Resume(cfg, worker.pc, reply), worker.clean && !reply.Failed?)],
        s.log + Record(s.store, worker, call, fill, verdict),
        s.known + Identities(store))
  }

  function Apply(cfg: Config, s: Sys, e: Event): Sys
  {
    match e
    case Begin(w, req) => s.(workers := s.workers[w := Worker(req, Gate(GateInstance), true)])
    case Act(w, call, fill, verdict) => if w in s.workers then Acted(cfg, s, w, call, fill, verdict) else s
    case Halt(w) => s.(workers := s.workers - {w})
    case Foreign(store) => s.(store := store, known := s.known + Identities(store))
  }

  /** The state after the events, in order. */
  function End(cfg: Config, s: Sys, es: seq<Event>): Sys
  {
    if |es| == 0 then s else Apply(cfg, End(cfg, s, es[..|es| - 1]), es[|es| - 1])
  }

  ghost predicate IsRun(cfg: Config, s: Sys, es: seq<Event>)
  {
    |es| > 0 ==> IsRun(cfg, s, es[..|es| - 1]) && Enabled(cfg, End(cfg, s, es[..|es| - 1]), es[|es| - 1])
  }

  lemma RunExtends(cfg: Config, s: Sys, es: seq<Event>, e: Event)
    requires IsRun(cfg, s, es) && Enabled(cfg, End(cfg, s, es), e)
    ensures IsRun(cfg, s, es + [e]) && End(cfg, s, es + [e]) == Apply(cfg, End(cfg, s, es), e)
  {
    assert (es + [e])[..|es|] == es;
  }

  lemma {:induction false} RunPrefix(cfg: Config, s: Sys, es: seq<Event>, i: nat)
    requires IsRun(cfg, s, es) && i <= |es|
    ensures IsRun(cfg, s, es[..i])
    decreases es
  {
    hide Apply, Enabled;
    if i < |es| {
      RunPrefix(cfg, s, es[..|es| - 1], i);
      assert es[..|es| - 1][..i] == es[..i];
    } else {
      assert es[..i] == es;
    }
  }

  /** Every event of a run was enabled where it happened. */
  lemma {:induction false} RunEnabledAt(cfg: Config, s: Sys, es: seq<Event>, i: nat)
    requires IsRun(cfg, s, es) && i < |es|
    ensures Enabled(cfg, End(cfg, s, es[..i]), es[i])
    decreases es
  {
    hide Apply, Enabled;
    if i < |es| - 1 {
      RunEnabledAt(cfg, s, es[..|es| - 1], i);
      assert es[..|es| - 1][..i] == es[..i];
    }
  }

  /** A run from the end of a run continues it. */
  lemma {:induction false} RunsCompose(cfg: Config, s: Sys, es: seq<Event>, es': seq<Event>)
    requires IsRun(cfg, s, es) && IsRun(cfg, End(cfg, s, es), es')
    ensures IsRun(cfg, s, es + es') && End(cfg, s, es + es') == End(cfg, End(cfg, s, es), es')
  {
    hide Apply, Enabled;
    if |es'| == 0 {
      assert es + es' == es;
    } else {
      var last := |es'| - 1;
      RunsCompose(cfg, s, es, es'[..last]);
      RunExtends(cfg, s, es + es'[..last], es'[last]);
      assert es + es' == es + es'[..last] + [es'[last]];
    }
  }

  /** Where runs begin: any store, no reconcile under way, nothing done yet. */
  ghost predicate Initial(s: Sys)
  {
    Dated(s.store) && s.workers == map[] && s.log == [] && s.known == Identities(s.store)
  }

  // ---- the invariant every run keeps -------------------------------------------------------

  /** What an update is about to replace was read under the right owner and does need replacing. */
  ghost predicate UpdateJustified(cfg: Config, store: Store, req: Name, pc: Pc)
  {
    match pc
    case Setup(CmUpdate(inst, cm)) =>
      && Snapshot(store, ConfigMapKey(req), cm) && IsControlledBy(cm, inst)
      && inst.body.spec.cascConfig.Some? && MergedData(cfg, inst.body.spec, cm.body.data) != cm.body.data
    case Serving(SvcUpdate(inst, looked, svc)) =>
      && Snapshot(store, ServiceKey(req, looked.body.spec), svc) && IsControlledBy(svc, inst)
      && !Settled(svc.body.service, Identify(inst))
    case Reporting(StUpdate(inst)) => Snapshot(store, InstanceKey(req), inst) && inst.body.phase != READY
    case _ => true
  }

  /** The instances held were once stored under the requested name. */
  ghost predicate HoldsKnown(known: set<(Name, Identity)>, req: Name, pc: Pc)
  {
    && (Held(pc).Some? ==> (req, Identify(Held(pc).value)) in known)
    && (Looked(pc).Some? ==> (req, Identify(Looked(pc).value)) in known)
  }

  ghost predicate WorkerInv(cfg: Config, store: Store, known: set<(Name, Identity)>, req: Name, pc: Pc)
  {
    && HoldsKnown(known, req, pc)
    && UpdateJustified(cfg, store, req, pc)
  }

  ghost predicate Inv(cfg: Config, s: Sys)
  {
    && Dated(s.store) && Identities(s.store) <= s.known
    && forall w :: w in s.workers ==> WorkerInv(cfg, s.store, s.known, s.workers[w].req, s.workers[w].pc)
  }

  lemma WorkerInvEvolves(cfg: Config, before: Store, after: Store, known: set<(Name, Identity)>,
                         known': set<(Name, Identity)>, req: Name, pc: Pc)
    requires WorkerInv(cfg, before, known, req, pc) && Evolves(before, after) && known <= known'
    ensures WorkerInv(cfg, after, known', req, pc)
  {
  }

  predicate IsUpdate(pc: Pc)
  {
    || (pc.Setup? && pc.setup.CmUpdate?)
    || (pc.Serving? && pc.serve.SvcUpdate?)
    || (pc.Reporting? && pc.report.StUpdate?)
  }

  /** What is needed of the program point reached: an invariant that holds now and, if a write landed, ever after. */
  ghost predicate Reaches(cfg: Config, store: Store, known: set<(Name, Identity)>, req: Name, pc: Pc, landed: bool)
  {
    && WorkerInv(cfg, store, known, req, pc)
    && (landed ==> !IsUpdate(pc))
  }

  lemma InstanceIsKnown(store: Store, known: set<(Name, Identity)>, req: Name)
    requires Identities(store) <= known
    ensures InstanceKey(req) in store.objs && store.objs[InstanceKey(req)].body.InstanceBody? ==>
              (req, Identify(store.objs[InstanceKey(req)])) in known
  {
    if InstanceKey(req) in store.objs && store.objs[InstanceKey(req)].body.InstanceBody? {
      assert (Name(req.ns, req.name), Identify(store.objs[InstanceKey(req)])) in Identities(store);
    }
  }

  ghost predicate GetsWhatItReads(req: Name, pc: Pc, call: Call)
  {
    Reads(req, pc).Some? ==> call == Get(Reads(req, pc).value)
  }

  lemma GateReaches(cfg: Config, store: Store, known: set<(Name, Identity)>, req: Name, pc: Pc, call: Call,
                    verdict: Verdict)
    requires pc.Gate? && GetsWhatItReads(req, pc, call) && HoldsKnown(known, req, pc)
    requires Dated(store) && Identities(store) <= known
    ensures Reaches(cfg, store, known, req, ResumeGate(pc.gate, Reply(store, call, verdict)), Lands(store, call,
              verdict))
  {
    InstanceIsKnown(store, known, req);
  }

  lemma SetupReaches(cfg: Config, store: Store, known: set<(Name, Identity)>, req: Name, pc: Pc, call: Call,
                     verdict: Verdict)
    requires pc.Setup? && GetsWhatItReads(req, pc, call) && HoldsKnown(known, req, pc)
    requires Dated(store) && Identities(store) <= known
    ensures Reaches(cfg, store, known, req, ResumeSetup(cfg, pc.setup, Reply(store, call, verdict)), Lands(store,
              call, verdict))
  {
    hide MergedData;
    InstanceIsKnown(store, known, req);
  }

  lemma RestartReaches(cfg: Config, store: Store, known: set<(Name, Identity)>, req: Name, pc: Pc, call: Call,
                       verdict: Verdict)
    requires pc.Restarting? && GetsWhatItReads(req, pc, call) && HoldsKnown(known, req, pc)
    requires Dated(store) && Identities(store) <= known
    ensures Reaches(cfg, store, known, req, ResumeRestart(pc.restart, Reply(store, call, verdict)), Lands(store,
              call, verdict))
  {
    InstanceIsKnown(store, known, req);
  }

  lemma DeploymentReaches(cfg: Config, store: Store, known: set<(Name, Identity)>, req: Name, pc: Pc, call: Call,
                          verdict: Verdict)
    requires pc.Deploying? && GetsWhatItReads(req, pc, call) && HoldsKnown(known, req, pc)
    requires Dated(store) && Identities(store) <= known
    ensures Reaches(cfg, store, known, req, ResumeDeployment(pc.deploy, Reply(store, call, verdict)), Lands(store,
              call, verdict))
  {
    hide AfterDepGet, AfterClaim, ToAccount, ToClaim, ToCascSecret, ToGroovy, ToCasc, ToDeploy;
    InstanceIsKnown(store, known, req);
  }

  lemma ServiceReaches(cfg: Config, store: Store, known: set<(Name, Identity)>, req: Name, pc: Pc, call: Call,
                       verdict: Verdict)
    requires pc.Serving? && GetsWhatItReads(req, pc, call) && HoldsKnown(known, req, pc)
    requires Dated(store) && Identities(store) <= known
    ensures Reaches(cfg, store, known, req, ResumeService(pc.serve, Reply(store, call, verdict)), Lands(store, call,
              verdict))
  {
    hide Settled;
    InstanceIsKnown(store, known, req);
  }

  lemma StatusReaches(cfg: Config, store: Store, known: set<(Name, Identity)>, req: Name, pc: Pc, call: Call,
                      verdict: Verdict)
    requires pc.Reporting? && GetsWhatItReads(req, pc, call) && HoldsKnown(known, req, pc)
    requires Dated(store) && Identities(store) <= known
    ensures Reaches(cfg, store, known, req, ResumeStatus(pc.report, Reply(store, call, verdict)), Lands(store, call,
              verdict))
  {
    InstanceIsKnown(store, known, req);
  }

  /** A response the server gives to the request of `pc` leads to a program point whose invariant holds. */
  lemma {:induction false} ResumeInv(cfg: Config, store: Store, known: set<(Name, Identity)>, req: Name, pc: Pc,
                                     call: Call, fill: Fill, verdict: Verdict)
    requires WorkerInv(cfg, store, known, req, pc) && Issues(cfg, req, pc, call) && Dated(store)
        && Identities(store) <= known
    ensures WorkerInv(cfg, StoreAfter(store, call, fill, verdict), known, req, Resume(cfg, pc, Reply(store, call,
              verdict)))
  {
    hide ResumeGate, ResumeSetup, ResumeRestart, ResumeDeployment, ResumeService, ResumeStatus, Acts;
    match pc
    case Gate(_) => GateReaches(cfg, store, known, req, pc, call, verdict);
    case Setup(_) => SetupReaches(cfg, store, known, req, pc, call, verdict);
    case Restarting(_) => RestartReaches(cfg, store, known, req, pc, call, verdict);
    case Deploying(_) => DeploymentReaches(cfg, store, known, req, pc, call, verdict);
    case Serving(_) => ServiceReaches(cfg, store, known, req, pc, call, verdict);
    case Reporting(_) => StatusReaches(cfg, store, known, req, pc, call, verdict);
    case Ended(_) =>
  }

  lemma ActKeepsInv(cfg: Config, s: Sys, e: Event)
    requires Inv(cfg, s) && Enabled(cfg, s, e) && e.Act?
    ensures Inv(cfg, Apply(cfg, s, e))
  {
    var s' := Apply(cfg, s, e);
    var worker := s.workers[e.w];
    WriteEvolves(s.store, e.call, e.fill, e.verdict);
    ResumeInv(cfg, s.store, s.known, worker.req, worker.pc, e.call, e.fill, e.verdict);
    forall w | w in s'.workers
      ensures WorkerInv(cfg, s'.store, s'.known, s'.workers[w].req, s'.workers[w].pc)
    {
      if w == e.w {
        WorkerInvEvolves(cfg, s'.store, s'.store, s.known, s'.known, worker.req, s'.workers[w].pc);
      } else {
        WorkerInvEvolves(cfg, s.store, s'.store, s.known, s'.known, s.workers[w].req, s.workers[w].pc);
      }
    }
  }

  lemma StepKeepsInv(cfg: Config, s: Sys, e: Event)
    requires Inv(cfg, s) && Enabled(cfg, s, e)
    ensures Inv(cfg, Apply(cfg, s, e))
  {
    match e
    case Act(_, _, _, _) => ActKeepsInv(cfg, s, e);
    case Foreign(store) =>
      forall w | w in s.workers
        ensures WorkerInv(cfg, store, s.known + Identities(store), s.workers[w].req, s.workers[w].pc)
      {
        WorkerInvEvolves(cfg, s.store, store, s.known, s.known + Identities(store), s.workers[w].req, s.workers[w].pc);
      }
    case _ =>
  }

  lemma {:induction false} RunKeepsInv(cfg: Config, s: Sys, es: seq<Event>)
    requires Inv(cfg, s) && IsRun(cfg, s, es)
    ensures Inv(cfg, End(cfg, s, es))
  {
    if |es| > 0 {
      RunKeepsInv(cfg, s, es[..|es| - 1]);
      StepKeepsInv(cfg, End(cfg, s, es[..|es| - 1]), es[|es| - 1]);
    }
  }

  lemma InvOfRun(cfg: Config, s: Sys, es: seq<Event>)
    requires Initial(s) && IsRun(cfg, s, es)
    ensures Inv(cfg, End(cfg, s, es))
  {
    RunKeepsInv(cfg, s, es);
  }

  /** A worker whose write lands holds an instance. */
  lemma WritersHold(cfg: Config, s: Sys, e: Event)
    requires Enabled(cfg, s, e) && e.Act?
    ensures Lands(s.store, e.call, e.verdict) ==> Held(s.workers[e.w].pc).Some?
  {
    hide UpdatedConfigMap, NewConfigMap, NewServiceObj, UpdatedService, NewClaim, IsNewDeployment, ReadyInstance;
  }

  // ---- runs in which some object is the operator's alone ------------------------------------

  /** The two stores hold the same at `k`. */
  ghost predicate SameAt(before: Store, after: Store, k: Key)
  {
    (k in before.objs <==> k in after.objs) && (k in before.objs ==> after.objs[k] == before.objs[k])
  }

  /** No client but the operator touches `k` in this run. */
  ghost predicate OnlyOperatorAt(cfg: Config, s: Sys, es: seq<Event>, k: Key)
  {
    forall i :: 0 <= i < |es| && es[i].Foreign? ==> SameAt(End(cfg, s, es[..i]).store, es[i].store, k)
  }

  lemma OnlyOperatorPrefix(cfg: Config, s: Sys, es: seq<Event>, k: Key)
    requires OnlyOperatorAt(cfg, s, es, k) && |es| > 0
    ensures OnlyOperatorAt(cfg, s, es[..|es| - 1], k)
    ensures es[|es| - 1].Foreign? ==> SameAt(End(cfg, s, es[..|es| - 1]).store, es[|es| - 1].store, k)
  {
    forall i | 0 <= i < |es| - 1 && es[i].Foreign?
      ensures SameAt(End(cfg, s, es[..|es| - 1][..i]).store, es[i].store, k)
    {
      assert es[..|es| - 1][..i] == es[..i];
    }
  }
}
