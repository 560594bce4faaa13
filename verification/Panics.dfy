/** When a reconcile dereferences nil. */
module Panics {
  import opened Api
  import opened Services
  import opened Cluster
  import opened Protocol
  import opened Runs

  /** The setup ConfigMap is absent or the instance's own, and the instance has no cascconfig. */
  predicate MissesCascConfig(pc: Pc, r: Response)
  {
    && pc.Setup? && pc.setup.CmGet? && pc.setup.inst.body.spec.cascConfig.None?
    && (r.NotFound? || (IsConfigMap(r) && IsControlledBy(r.obj, pc.setup.inst)))
  }

  /** The service is absent and the instance does not describe one. */
  predicate MissesService(pc: Pc, r: Response)
  {
    pc.Serving? && pc.serve.SvcGet? && pc.serve.inst.body.spec.service.None? && r.NotFound?
  }

  /** The two places where a reconcile can panic, and exactly when it does. */
  lemma PanicsExactly(cfg: Config, pc: Pc, r: Response)
    requires pc != Ended(Panicked)
    ensures Resume(cfg, pc, r) == Ended(Panicked) <==> MissesCascConfig(pc, r) || MissesService(pc, r)
  {
    hide MergedData, Settled, AfterDepGet, AfterClaim, ToAccount, ToClaim, ToCascSecret, ToGroovy, ToCasc, ToDeploy;
    match pc
    case Gate(_) =>
    case Setup(_) =>
    case Restarting(_) =>
    case Deploying(_) =>
    case Serving(_) =>
    case Reporting(_) =>
    case Ended(_) =>
  }

  /** Some version of the instance that was stored under this name lacks a cascconfig or a service. */
  ghost predicate Incomplete(known: set<(Name, Identity)>, req: Name)
  {
    exists id :: (req, id) in known && (id.spec.cascConfig.None? || id.spec.service.None?)
  }

  lemma StillIncomplete(known: set<(Name, Identity)>, known': set<(Name, Identity)>, req: Name)
    requires Incomplete(known, req) && known <= known'
    ensures Incomplete(known', req)
  {
  }

  /** Over every run, whatever else happens in it: a reconcile panics only for an instance that was stored without
      a cascconfig or without a service. */
  lemma {:induction false} OnlyIncompletePanics(cfg: Config, s: Sys, es: seq<Event>, w: int)
    requires Initial(s) && IsRun(cfg, s, es)
    requires w in End(cfg, s, es).workers && End(cfg, s, es).workers[w].pc == Ended(Panicked)
    ensures Incomplete(End(cfg, s, es).known, End(cfg, s, es).workers[w].req)
  {
    hide Resume, Issues, Inv, Incomplete, Record, StoreAfter, Reply;
    if |es| > 0 {
      var last := |es| - 1;
      var t, e := End(cfg, s, es[..last]), es[last];
      if w in t.workers && t.workers[w].pc == Ended(Panicked) && t.workers[w].req == End(cfg, s, es).workers[w].req {
        OnlyIncompletePanics(cfg, s, es[..last], w);
        StillIncomplete(t.known, Apply(cfg, t, e).known, t.workers[w].req);
      } else {
        InvOfRun(cfg, s, es[..last]);
        assert e.Act? && e.w == w;
        PanicStep(cfg, t, e);
        StillIncomplete(t.known, Apply(cfg, t, e).known, t.workers[w].req);
      }
    }
  }

  lemma PanicStep(cfg: Config, s: Sys, e: Event)
    requires Inv(cfg, s) && Enabled(cfg, s, e) && e.Act?
    requires s.workers[e.w].pc != Ended(Panicked) && Apply(cfg, s, e).workers[e.w].pc == Ended(Panicked)
    ensures Incomplete(s.known, s.workers[e.w].req)
  {
    hide Resume, Issues, UpdateJustified;
    var worker := s.workers[e.w];
    PanicsExactly(cfg, worker.pc, Reply(s.store, e.call, e.verdict));
    assert WorkerInv(cfg, s.store, s.known, worker.req, worker.pc);
    assert (worker.req, Identify(Held(worker.pc).value)) in s.known;
  }
}
