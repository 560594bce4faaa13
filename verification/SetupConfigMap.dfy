/** The setup ConfigMap over every run in which only the operator writes it, whatever happens to the specs,
    to the instance and to every other object meanwhile. */
module SetupConfigMap {
  import opened Basics
  import opened Api
  import opened Services
  import opened Cluster
  import opened Protocol
  import opened Runs

  // ---- counting ----------------------------------------------------------------------------

  ghost predicate IsUpdateOf(e: Entry, k: Key)
  {
    e.Wrote? && e.key == k && e.before.Some?
  }

  ghost function Updates(log: seq<Entry>, k: Key): nat
  {
    if |log| == 0 then 0 else Updates(log[..|log| - 1], k) + if IsUpdateOf(log[|log| - 1], k) then 1 else 0
  }

  ghost function Restarts(log: seq<Entry>, req: Name): nat
  {
    if |log| == 0 then 0 else Restarts(log[..|log| - 1], req) + if log[|log| - 1] == Restarted(req) then 1 else 0
  }

  /** The reconciles of `req` that have updated the ConfigMap and may still ask for the restart. */
  ghost function Pending(s: Sys, req: Name): set<int>
  {
    set w | w in s.workers && s.workers[w].req == req && s.workers[w].pc.Restarting?
  }

  lemma CountsAppend(log: seq<Entry>, more: seq<Entry>, k: Key, req: Name)
    requires |more| <= 1
    ensures Updates(log + more, k) == Updates(log, k) + if |more| == 1 && IsUpdateOf(more[0], k) then 1 else 0
    ensures Restarts(log + more, req) == Restarts(log, req) + if |more| == 1 && more[0] == Restarted(req) then 1 else 0
  {
    if |more| == 0 {
      assert log + more == log;
    } else {
      assert (log + more)[..|log + more| - 1] == log;
    }
  }

  // ---- the invariant -----------------------------------------------------------------------

  ghost predicate Shaped(o: Obj)
  {
    o.body.ConfigMapBody? && PLUGINS_TXT in o.body.data && o.body.data.Keys <= {PLUGINS_TXT, JENKINS_YAML}
  }

  /** Nothing yet, or a shaped map whose one possible update and restart are still ahead or accounted for. */
  ghost predicate GrowInv(s: Sys, req: Name)
  {
    var k := ConfigMapKey(req);
    && Restarts(s.log, req) + |Pending(s, req)| <= Updates(s.log, k)
    && if k in s.store.objs then
         && Shaped(s.store.objs[k])
         && Updates(s.log, k) <= if JENKINS_YAML in s.store.objs[k].body.data then 1 else 0
       else Updates(s.log, k) == 0
  }

  /** What the object at `k` keeps: it stays, and present keys keep their values. */
  ghost predicate Grows(before: Store, after: Store, k: Key)
  {
    k in before.objs && before.objs[k].body.ConfigMapBody? ==>
      && k in after.objs && after.objs[k].body.ConfigMapBody?
      && forall x :: x in before.objs[k].body.data ==>
           x in after.objs[k].body.data && after.objs[k].body.data[x] == before.objs[k].body.data[x]
  }

  lemma StringDataKeys(cfg: Config, spec: Spec)
    requires spec.cascConfig.Some?
    ensures PLUGINS_TXT in StringData(cfg, spec) && StringData(cfg, spec).Keys <= {PLUGINS_TXT, JENKINS_YAML}
  {
  }

  /** With both keys present there is nothing left to merge in. */
  lemma CompleteMapIsMerged(cfg: Config, spec: Spec, data: Data)
    requires spec.cascConfig.Some? && PLUGINS_TXT in data && JENKINS_YAML in data
    ensures MergedData(cfg, spec, data) == data
  {
    StringDataKeys(cfg, spec);
  }

  /** Only two program points of reconciles of `req` write its ConfigMap. */
  lemma ConfigMapWriters(cfg: Config, req: Name, worker: Worker, call: Call)
    requires Issues(cfg, worker.req, worker.pc, call) && IsWrite(call) && call.key == ConfigMapKey(req)
    ensures worker.req == req && worker.pc.Setup? && (worker.pc.setup.CmCreate? || worker.pc.setup.CmUpdate?)
  {
    hide UpdatedConfigMap, NewConfigMap, NewServiceObj, UpdatedService, NewClaim, IsNewDeployment, ReadyInstance;
  }

  /** One write to the ConfigMap: a shaped creation, or an update that adds jenkins.yaml and keeps the rest. */
  lemma ConfigMapWrite(cfg: Config, s: Sys, e: Event, req: Name)
    requires Inv(cfg, s) && Enabled(cfg, s, e) && e.Act? && Lands(s.store, e.call, e.verdict)
    requires e.call.key == ConfigMapKey(req)
    requires e.call.key in s.store.objs ==> Shaped(s.store.objs[e.call.key])
    ensures var after := Written(s.store, e.call, e.fill);
            && Shaped(after)
            && (e.call.key in s.store.objs ==>
                  && JENKINS_YAML !in s.store.objs[e.call.key].body.data && JENKINS_YAML in after.body.data
                  && Grows(s.store, StoreAfter(s.store, e.call, e.fill, e.verdict), e.call.key))
    ensures s.workers[e.w].req == req && Held(s.workers[e.w].pc).Some?
  {
    var worker := s.workers[e.w];
    assert WorkerInv(cfg, s.store, s.known, worker.req, worker.pc);
    ConfigMapWriters(cfg, req, worker, e.call);
    var spec := worker.pc.setup.inst.body.spec;
    StringDataKeys(cfg, spec);
    if worker.pc.setup.CmUpdate? {
      var data := worker.pc.setup.cm.body.data;
      assert s.store.objs[e.call.key] == worker.pc.setup.cm;
      if JENKINS_YAML in data {
        CompleteMapIsMerged(cfg, spec, data);
        assert false;
      }
    }
  }

  /** The restart phase is entered by an update that was answered, and left by the restart request. */
  lemma RestartPoints(cfg: Config, store: Store, req: Name, pc: Pc, call: Call, verdict: Verdict)
    requires Issues(cfg, req, pc, call)
    ensures Resume(cfg, pc, Reply(store, call, verdict)).Restarting? ==>
              || (pc.Restarting? && !call.Restart?)
              || (pc.Setup? && pc.setup.CmUpdate? && call.Update? && call.key == ConfigMapKey(req)
                  && Lands(store, call, verdict))
    ensures call.Restart? ==> pc.Restarting?
  {
    hide UpdatedConfigMap, NewConfigMap, NewServiceObj, UpdatedService, NewClaim, IsNewDeployment, ReadyInstance;
    hide MergedData, Settled, AfterClaim, AfterDepGet, ToAccount, ToClaim, ToCascSecret, ToGroovy, ToCasc, ToDeploy;
  }

  lemma PendingAfter(cfg: Config, s: Sys, e: Event, req: Name)
    requires Enabled(cfg, s, e)
    ensures var s' := Apply(cfg, s, e);
            var restart := e.Act? && e.call.Restart? && s.workers[e.w].req == req;
            var update := e.Act? && s.workers[e.w].req == req && e.call.Update? && e.call.key == ConfigMapKey(req)
                          && Lands(s.store, e.call, e.verdict);
            |Pending(s', req)| <= |Pending(s, req)| - (if restart then 1 else 0) + (if update then 1 else 0)
  {
    hide Resume, Issues, Written, Reply, Lands;
    var s' := Apply(cfg, s, e);
    if e.Act? {
      var worker := s.workers[e.w];
      RestartPoints(cfg, s.store, worker.req, worker.pc, e.call, e.verdict);
      if worker.req == req && e.call.Restart? {
        assert e.w in Pending(s, req);
        SubsetSize(Pending(s', req), Pending(s, req) - {e.w});
      } else if worker.req == req && s'.workers[e.w].pc.Restarting? && !worker.pc.Restarting? {
        SubsetSize(Pending(s', req), Pending(s, req) + {e.w});
      } else {
        SubsetSize(Pending(s', req), Pending(s, req));
      }
    } else {
      SubsetSize(Pending(s', req), Pending(s, req));
    }
  }

  /** What one request adds to the two counts. */
  lemma CountsStep(cfg: Config, s: Sys, e: Event, req: Name)
    requires Enabled(cfg, s, e) && e.Act?
    requires Lands(s.store, e.call, e.verdict) ==> Held(s.workers[e.w].pc).Some?
    ensures var s' := Apply(cfg, s, e);
            var k := ConfigMapKey(req);
            && Updates(s'.log, k) == Updates(s.log, k)
                 + (if Lands(s.store, e.call, e.verdict) && e.call.key == k && k in s.store.objs then 1 else 0)
            && Restarts(s'.log, req) == Restarts(s.log, req)
                 + (if e.call.Restart? && s.workers[e.w].req == req then 1 else 0)
  {
    hide Issues, Resume, Written, Reply, Updates, Restarts;
    CountsAppend(s.log, Record(s.store, s.workers[e.w], e.call, e.fill, e.verdict), ConfigMapKey(req), req);
  }

  lemma GrowStep(cfg: Config, s: Sys, e: Event, req: Name)
    requires Inv(cfg, s) && Enabled(cfg, s, e) && GrowInv(s, req)
    requires e.Foreign? ==> SameAt(s.store, e.store, ConfigMapKey(req))
    ensures GrowInv(Apply(cfg, s, e), req)
    ensures Grows(s.store, Apply(cfg, s, e).store, ConfigMapKey(req))
  {
    hide Issues, Resume, Written, Shaped, Pending, Updates, Restarts, Inv, Record, Reply;
    PendingAfter(cfg, s, e, req);
    if e.Act? {
      WritersHold(cfg, s, e);
      CountsStep(cfg, s, e, req);
      if Lands(s.store, e.call, e.verdict) && e.call.key == ConfigMapKey(req) {
        ConfigMapWrite(cfg, s, e, req);
      }
    }
  }

  /** Grow-only: starting without the ConfigMap, its keys stay within plugins.txt and jenkins.yaml, it is updated
      at most once after its creation, and a restart of Jenkins is attempted at most once, and only after that. */
  lemma {:induction false} GrowOnly(cfg: Config, s: Sys, es: seq<Event>, req: Name)
    requires Initial(s) && ConfigMapKey(req) !in s.store.objs
    requires IsRun(cfg, s, es) && OnlyOperatorAt(cfg, s, es, ConfigMapKey(req))
    ensures GrowInv(End(cfg, s, es), req)
    ensures ConfigMapKey(req) in End(cfg, s, es).store.objs ==> Shaped(End(cfg, s, es).store.objs[ConfigMapKey(req)])
    ensures Restarts(End(cfg, s, es).log, req) <= Updates(End(cfg, s, es).log, ConfigMapKey(req)) <= 1
  {
    hide Apply, Enabled, Inv;
    if |es| > 0 {
      var last := |es| - 1;
      OnlyOperatorPrefix(cfg, s, es, ConfigMapKey(req));
      GrowOnly(cfg, s, es[..last], req);
      InvOfRun(cfg, s, es[..last]);
      GrowStep(cfg, End(cfg, s, es[..last]), es[last], req);
    }
  }

  /** A key once present keeps its value to the end of the run. */
  lemma {:induction false} ValuesStay(cfg: Config, s: Sys, es: seq<Event>, i: nat, req: Name)
    requires Initial(s) && ConfigMapKey(req) !in s.store.objs && i <= |es|
    requires IsRun(cfg, s, es) && OnlyOperatorAt(cfg, s, es, ConfigMapKey(req))
    ensures Grows(End(cfg, s, es[..i]).store, End(cfg, s, es).store, ConfigMapKey(req))
    decreases es
  {
    hide Apply, Enabled, Inv, GrowInv;
    if i == |es| {
      assert es[..i] == es;
    } else {
      var last := |es| - 1;
      OnlyOperatorPrefix(cfg, s, es, ConfigMapKey(req));
      ValuesStay(cfg, s, es[..last], i, req);
      assert es[..last][..i] == es[..i];
      GrowOnly(cfg, s, es[..last], req);
      InvOfRun(cfg, s, es[..last]);
      GrowStep(cfg, End(cfg, s, es[..last]), es[last], req);
    }
  }

  // ---- no restart once the map is complete -------------------------------------------------

  ghost predicate Complete(store: Store, req: Name)
  {
    var k := ConfigMapKey(req);
    && k in store.objs && store.objs[k].body.ConfigMapBody?
    && PLUGINS_TXT in store.objs[k].body.data && JENKINS_YAML in store.objs[k].body.data
  }

  /** No write to a complete map is accepted. */
  lemma CompleteIsNotWritten(cfg: Config, s: Sys, e: Event, req: Name)
    requires Inv(cfg, s) && Enabled(cfg, s, e) && e.Act? && Complete(s.store, req)
    ensures Lands(s.store, e.call, e.verdict) ==> e.call.key != ConfigMapKey(req)
  {
    hide StringData, MergedData;
    if Lands(s.store, e.call, e.verdict) && e.call.key == ConfigMapKey(req) {
      var worker := s.workers[e.w];
      assert WorkerInv(cfg, s.store, s.known, worker.req, worker.pc);
      ConfigMapWriters(cfg, req, worker, e.call);
      if worker.pc.setup.CmUpdate? {
        CompleteMapIsMerged(cfg, worker.pc.setup.inst.body.spec, worker.pc.setup.cm.body.data);
      }
    }
  }

  lemma QuietStep(cfg: Config, s: Sys, e: Event, req: Name)
    requires Inv(cfg, s) && Enabled(cfg, s, e) && Complete(s.store, req) && Pending(s, req) == {}
    requires e.Foreign? ==> SameAt(s.store, e.store, ConfigMapKey(req))
    ensures var s' := Apply(cfg, s, e);
            && SameAt(s.store, s'.store, ConfigMapKey(req)) && Complete(s'.store, req)
            && Pending(s', req) == {} && Restarts(s'.log, req) == Restarts(s.log, req)
  {
    hide Issues, Resume, Written, Pending, Updates, Restarts, Inv, Record, Reply, Accepts;
    PendingAfter(cfg, s, e, req);
    if e.Act? {
      WritersHold(cfg, s, e);
      CountsStep(cfg, s, e, req);
      CompleteIsNotWritten(cfg, s, e, req);
    }
  }

  /** Once the map holds both keys and no reconcile has the restart ahead of it, it stays as it is and Jenkins is never
      restarted again, whatever is edited in the specs, while only the operator writes the map. */
  lemma {:induction false} NoLaterRestart(cfg: Config, s: Sys, es: seq<Event>, req: Name)
    requires Inv(cfg, s) && Complete(s.store, req) && Pending(s, req) == {}
    requires IsRun(cfg, s, es) && OnlyOperatorAt(cfg, s, es, ConfigMapKey(req))
    ensures var end := End(cfg, s, es);
            && SameAt(s.store, end.store, ConfigMapKey(req)) && Complete(end.store, req)
            && Pending(end, req) == {} && Restarts(end.log, req) == Restarts(s.log, req)
  {
    hide Apply, Enabled, Inv, Pending, Restarts;
    if |es| > 0 {
      var last := |es| - 1;
      OnlyOperatorPrefix(cfg, s, es, ConfigMapKey(req));
      NoLaterRestart(cfg, s, es[..last], req);
      RunKeepsInv(cfg, s, es[..last]);
      QuietStep(cfg, End(cfg, s, es[..last]), es[last], req);
    }
  }
}
