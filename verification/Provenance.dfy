/** Which read of the instance every write acts on: the last one of its own reconcile, and for a service the last but
    one, as the service itself is looked up by a further read. */
module Provenance {
  import opened Api
  import opened Services
  import opened Cluster
  import opened Protocol
  import opened Runs
  import opened Contents

  predicate ReadsInstance(call: Call, r: Response)
  {
    call.Get? && call.key.kind == InstanceKind && r.Found?
  }

  /** The instances that the reconcile worker `w` is on has been given since it began, in order. */
  ghost function InstancesRead(cfg: Config, s: Sys, es: seq<Event>, w: int): seq<Obj>
  {
    if |es| == 0 then []
    else
      var last := |es| - 1;
      var mid, e, before := End(cfg, s, es[..last]), es[last], InstancesRead(cfg, s, es[..last], w);
      if e.Begin? && e.w == w then []
      else if e.Act? && e.w == w then Extended(before, e.call, Reply(mid.store, e.call, e.verdict))
      else before
  }

  function Extended(read: seq<Obj>, call: Call, r: Response): seq<Obj>
  {
    if ReadsInstance(call, r) then read + [r.obj] else read
  }

  /** A program point holds the instance read last; newService holds the one read before, and the one read last only
      to look the service up. */
  ghost predicate HoldsLast(read: seq<Obj>, pc: Pc)
  {
    var n := |read|;
    match pc
    case Serving(SvcGet(inst, looked)) => n >= 2 && inst == read[n - 2] && looked == read[n - 1]
    case Serving(SvcUpdate(inst, looked, _)) => n >= 2 && inst == read[n - 2] && looked == read[n - 1]
    case Serving(SvcCreate(inst)) => n >= 2 && inst == read[n - 2]
    case _ => Held(pc).Some? ==> n >= 1 && Held(pc).value == read[n - 1]
  }

  /** How often the instance has been read on the way to a program point: once at the gate and once by
      newSetupConfigMap, twice more on the way to a restart, once by newDeployment, and twice by newService and by the
      status stage. */
  predicate ReadAfresh(n: nat, pc: Pc)
  {
    match pc
    case Gate(GateInstance) => n == 0
    case Gate(GateSecret(_)) => n == 1
    case Setup(CmInstance) => n == 1
    case Setup(_) => n == 2
    case Restarting(RestartInstance) => n == 2
    case Restarting(RestartService(_)) => n == 3
    case Restarting(RestartInstance2) => n == 3
    case Restarting(_) => n == 4
    case Deploying(DepInstance) => n in {2, 4}
    case Deploying(_) => n in {3, 5}
    case Serving(SvcInstance) => n in {3, 5}
    case Serving(SvcInstance2(_)) => n in {4, 6}
    case Serving(_) => n in {5, 7}
    case Reporting(StInstance) => n in {5, 7}
    case Reporting(StUpdate(_)) => n in {7, 9}
    case Reporting(_) => n in {6, 8}
    case Ended(outcome) => outcome.Synced? ==> n in {7, 9}
  }

  /** One response of newService. */
  lemma NextHoldsServing(cfg: Config, req: Name, pc: Pc, call: Call, r: Response, read: seq<Obj>)
    requires Issues(cfg, req, pc, call) && HoldsLast(read, pc) && pc.Serving?
    ensures HoldsLast(Extended(read, call, r), Resume(cfg, pc, r))
  {
    hide NewServiceObj, UpdatedService, Settled;
  }

  /** One response of any other stage but newDeployment. */
  lemma NextHolds(cfg: Config, req: Name, pc: Pc, call: Call, r: Response, read: seq<Obj>)
    requires Issues(cfg, req, pc, call) && HoldsLast(read, pc) && !pc.Deploying? && !pc.Serving?
    ensures HoldsLast(Extended(read, call, r), Resume(cfg, pc, r))
  {
    hide UpdatedConfigMap, NewConfigMap, NewServiceObj, UpdatedService, NewClaim, IsNewDeployment, ReadyInstance;
    hide MergedData, Settled;
  }

  /** newDeployment acts on one instance from its first response on. */
  lemma NextHoldsDeploying(cfg: Config, req: Name, pc: Pc, call: Call, r: Response, read: seq<Obj>)
    requires Issues(cfg, req, pc, call) && HoldsLast(read, pc) && pc.Deploying?
    ensures HoldsLast(Extended(read, call, r), Resume(cfg, pc, r))
  {
    hide UpdatedConfigMap, NewConfigMap, NewServiceObj, UpdatedService, NewClaim, IsNewDeployment, ReadyInstance;
    hide AfterDepGet, AfterClaim, ToAccount, ToClaim, ToCascSecret, ToGroovy, ToCasc, ToDeploy;
    if !pc.deploy.DepInstance? {
      assert !ReadsInstance(call, r);
    }
  }

  /** One response, of whatever stage: only what reads the instance adds to the count. */
  lemma NextReadAfresh(cfg: Config, req: Name, pc: Pc, call: Call, r: Response, n: nat)
    requires Issues(cfg, req, pc, call) && ReadAfresh(n, pc)
    ensures ReadAfresh(if ReadsInstance(call, r) then n + 1 else n, Resume(cfg, pc, r))
  {
    hide UpdatedConfigMap, NewConfigMap, NewServiceObj, UpdatedService, NewClaim, IsNewDeployment, ReadyInstance;
    hide MergedData, Settled, AfterDepGet, AfterClaim, ToAccount, ToClaim, ToCascSecret, ToGroovy, ToCasc, ToDeploy;
  }

  /** In every run, every reconcile holds what it has read last, and has read as often as its stages ask for. */
  lemma {:induction false} HoldsWhatItRead(cfg: Config, s: Sys, es: seq<Event>, w: int)
    requires Initial(s) && IsRun(cfg, s, es)
    ensures var read, end := InstancesRead(cfg, s, es, w), End(cfg, s, es);
            w in end.workers ==> HoldsLast(read, end.workers[w].pc) && ReadAfresh(|read|, end.workers[w].pc)
  {
    hide Resume, Issues, StoreAfter, Record, Reply, HoldsLast, ReadAfresh, ReadsInstance;
    if |es| > 0 {
      var last := |es| - 1;
      var mid, e := End(cfg, s, es[..last]), es[last];
      HoldsWhatItRead(cfg, s, es[..last], w);
      NothingHeldAtFirst([]);
      if e.Act? && e.w == w {
        var pc, r := mid.workers[w].pc, Reply(mid.store, e.call, e.verdict);
        var read := InstancesRead(cfg, s, es[..last], w);
        NextReadAfresh(cfg, mid.workers[w].req, pc, e.call, r, |read|);
        if pc.Deploying? {
          NextHoldsDeploying(cfg, mid.workers[w].req, pc, e.call, r, read);
        } else if pc.Serving? {
          NextHoldsServing(cfg, mid.workers[w].req, pc, e.call, r, read);
        } else {
          NextHolds(cfg, mid.workers[w].req, pc, e.call, r, read);
        }
      }
    }
  }

  lemma NothingHeldAtFirst(read: seq<Obj>)
    ensures HoldsLast(read, Gate(GateInstance)) && (read == [] ==> ReadAfresh(|read|, Gate(GateInstance)))
  {
  }

  /** Over every run: a landed write acts on the instance that its reconcile has read last; for a service on the one
      read before that, while an update goes to the service that the one read last names. */
  lemma ActsOnWhatItRead(cfg: Config, s: Sys, es: seq<Event>, i: nat)
    requires Initial(s) && IsRun(cfg, s, es) && i < |es| && es[i].Act?
    requires Lands(End(cfg, s, es[..i]).store, es[i].call, es[i].verdict)
    ensures var mid, e := End(cfg, s, es[..i]), es[i];
            var read := InstancesRead(cfg, s, es[..i], e.w);
            var n := |read|;
            && e.w in mid.workers
            && |Record(mid.store, mid.workers[e.w], e.call, e.fill, e.verdict)| == 1
            && var entry := Record(mid.store, mid.workers[e.w], e.call, e.fill, e.verdict)[0];
               && entry.Wrote?
               && (e.call.key.kind != ServiceKind ==>
                     n >= 1 && read[n - 1].body.InstanceBody? && entry.actor == Identify(read[n - 1]))
               && (e.call.key.kind == ServiceKind ==>
                     && n >= 2 && read[n - 2].body.InstanceBody? && entry.actor == Identify(read[n - 2])
                     && (e.call.Update? ==>
                           read[n - 1].body.InstanceBody?
                           && IsServiceOf(e.call.key, entry.req, read[n - 1].body.spec)))
  {
    hide End, IsRun, InstancesRead, Acts, Written, IsServiceOf;
    RunPrefix(cfg, s, es, i);
    RunEnabledAt(cfg, s, es, i);
    HoldsWhatItRead(cfg, s, es[..i], es[i].w);
    var mid, e := End(cfg, s, es[..i]), es[i];
    WritersHold(cfg, mid, e);
    WritesOf(cfg, mid.workers[e.w].req, mid.workers[e.w].pc, e.call);
  }

  lemma WritesOf(cfg: Config, req: Name, pc: Pc, call: Call)
    requires Issues(cfg, req, pc, call) && IsWrite(call)
    ensures call.key.kind == ServiceKind <==> pc.Serving?
    ensures pc.Serving? ==> (pc.serve.SvcCreate? && call.Create?) || (pc.serve.SvcUpdate? && call.Update?)
    ensures pc.Serving? && call.Update? ==> IsServiceOf(call.key, req, pc.serve.looked.body.spec)
  {
    hide UpdatedConfigMap, NewConfigMap, NewServiceObj, UpdatedService, NewClaim, IsNewDeployment, ReadyInstance;
  }
}
