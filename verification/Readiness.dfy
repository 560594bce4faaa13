/** Ready is reported only when Jenkins has answered. */
module Readiness {
  import opened Api
  import opened PodBuilder
  import opened Services
  import opened Cluster
  import opened Protocol
  import opened Runs

  /** The reconcile that worker `w` is on has asked Jenkins whether it is ready, and Jenkins has answered that it is. */
  ghost predicate Answered(cfg: Config, s: Sys, es: seq<Event>, w: int)
  {
    if |es| == 0 then false
    else
      var last := |es| - 1;
      var mid, e := End(cfg, s, es[..last]), es[last];
      if e.Begin? && e.w == w then false
      else if e.Act? && e.w == w && e.call == Probe && Reply(mid.store, e.call, e.verdict) == Done then true
      else Answered(cfg, s, es[..last], w)
  }

  /** The reconcile is beyond its probe, or has ended with success. */
  predicate BeyondProbe(pc: Pc)
  {
    (pc.Reporting? && (pc.report.StInstance2? || pc.report.StUpdate?)) || pc == Ended(Synced)
  }

  lemma OnlyTheProbeLeadsBeyond(cfg: Config, req: Name, pc: Pc, call: Call, r: Response)
    requires Issues(cfg, req, pc, call) && BeyondProbe(Resume(cfg, pc, r))
    ensures BeyondProbe(pc) || (call == Probe && r == Done)
  {
    hide UpdatedConfigMap, NewConfigMap, NewServiceObj, UpdatedService, NewClaim, IsNewDeployment, ReadyInstance;
    hide MergedData, Settled, CascSpecified;
  }

  lemma OnlyBeyondReportsReady(cfg: Config, req: Name, pc: Pc, call: Call)
    requires Issues(cfg, req, pc, call) && call.UpdateStatus?
    ensures BeyondProbe(pc)
  {
    hide UpdatedConfigMap, NewConfigMap, NewServiceObj, UpdatedService, NewClaim, IsNewDeployment, ReadyInstance;
  }

  /** In every run, a reconcile that has gone beyond its probe or ended with success has been answered. */
  lemma {:induction false} BeyondIsAnswered(cfg: Config, s: Sys, es: seq<Event>, w: int)
    requires IsRun(cfg, s, es) && (w in s.workers ==> !BeyondProbe(s.workers[w].pc))
    ensures var end := End(cfg, s, es);
            w in end.workers && BeyondProbe(end.workers[w].pc) ==> Answered(cfg, s, es, w)
  {
    hide Resume, Issues, StoreAfter, Record, Reply;
    if |es| > 0 {
      var last := |es| - 1;
      var mid, e := End(cfg, s, es[..last]), es[last];
      BeyondIsAnswered(cfg, s, es[..last], w);
      var end := End(cfg, s, es);
      if e.Act? && e.w == w && BeyondProbe(end.workers[w].pc) {
        OnlyTheProbeLeadsBeyond(cfg, mid.workers[w].req, mid.workers[w].pc, e.call,
                                Reply(mid.store, e.call, e.verdict));
      }
    }
  }

  /** Over every run: a status update that is issued, landed or not, comes after a probe of the same reconcile that
      Jenkins answered; and so does every success. */
  lemma {:induction false} ReadyOnlyWhenAnswered(cfg: Config, s: Sys, es: seq<Event>, i: nat)
    requires Initial(s) && IsRun(cfg, s, es) && i < |es| && es[i].Act?
    ensures es[i].call.UpdateStatus? ==> Answered(cfg, s, es[..i], es[i].w)
    ensures es[i].w in End(cfg, s, es[..i + 1]).workers
    ensures End(cfg, s, es[..i + 1]).workers[es[i].w].pc == Ended(Synced) ==> Answered(cfg, s, es[..i + 1], es[i].w)
  {
    hide Resume, Issues, StoreAfter, Record, Reply, Answered, End;
    RunPrefix(cfg, s, es, i);
    RunPrefix(cfg, s, es, i + 1);
    RunEnabledAt(cfg, s, es, i);
    BeyondIsAnswered(cfg, s, es[..i], es[i].w);
    BeyondIsAnswered(cfg, s, es[..i + 1], es[i].w);
    EndStep(cfg, s, es, i);
    var mid := End(cfg, s, es[..i]);
    if es[i].call.UpdateStatus? {
      OnlyBeyondReportsReady(cfg, mid.workers[es[i].w].req, mid.workers[es[i].w].pc, es[i].call);
    }
  }

  lemma EndStep(cfg: Config, s: Sys, es: seq<Event>, i: nat)
    requires i < |es|
    ensures End(cfg, s, es[..i + 1]) == Apply(cfg, End(cfg, s, es[..i]), es[i])
  {
    assert es[..i + 1][..i] == es[..i];
  }
}
