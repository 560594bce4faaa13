/** Recovery: whatever reconciles have failed or stopped, a later one that nobody disturbs brings the instance to
    rest. */
module Recovery {
  import opened Api
  import opened Services
  import opened Cluster
  import opened Protocol
  import opened Runs
  import opened SetupConfigMap
  import opened Convergence
  import opened Idempotence
  import opened Staging
  import opened Undisturbed
  import opened Settling

  /** The store still has what the instance needs to sync. */
  ghost predicate Syncable(cfg: Config, store: Store, req: Name, id: Identity)
  {
    WellKinded(store) && HasInstance(store, req, id) && CanSync(cfg, store, req, id)
  }

  lemma WriteKeepsKinds(store: Store, call: Call, fill: Fill, verdict: Verdict)
    requires WellKinded(store)
    ensures WellKinded(StoreAfter(store, call, fill, verdict))
  {
    hide Filled;
  }

  /** What only has to be there stays there. */
  lemma PresenceExtends(before: Store, after: Store, req: Name, spec: Spec)
    requires Extends(before, after)
    ensures GateOpens(before, req, spec) ==> GateOpens(after, req, spec)
    ensures AccountThere(before, req.ns, spec) ==> AccountThere(after, req.ns, spec)
    ensures ClaimPossible(before, req, spec) ==> ClaimPossible(after, req, spec)
    ensures SecretThere(before, req, spec.cascSecret) ==> SecretThere(after, req, spec.cascSecret)
    ensures SecretThere(before, req, spec.groovySecret) ==> SecretThere(after, req, spec.groovySecret)
    ensures CascThere(before, req, spec) ==> CascThere(after, req, spec)
  {
  }

  lemma OwnExtends(before: Store, after: Store, k: Key, uid: string)
    requires Extends(before, after) && AbsentOrOwn(before, k, uid)
    requires k !in before.objs && k in after.objs ==> Has(after, k, uid)
    ensures AbsentOrOwn(after, k, uid)
  {
  }

  /** A write to the ConfigMap leaves nothing to update in it. */
  lemma WrittenIsMerged(cfg: Config, s: Sys, e: Event, req: Name, id: Identity)
    requires Writes(cfg, s, e) && TheInstance(s.known, req, id) && e.call.key == ConfigMapKey(req)
    requires var after := StoreAfter(s.store, e.call, e.fill, e.verdict);
             WellKinded(after) && AbsentOrOwn(after, ConfigMapKey(req), id.uid)
    ensures !NeedsUpdate(cfg, StoreAfter(s.store, e.call, e.fill, e.verdict), req, id)
  {
    hide MergedData, Identities, Written, Inv, Issues;
    ConfigMapWriters(cfg, req, s.workers[e.w], e.call);
    SetupStep(cfg, s, e, req, id);
  }

  lemma NeedsUpdateElsewhere(cfg: Config, store: Store, after: Store, req: Name, id: Identity)
    requires SameAt(store, after, ConfigMapKey(req))
    ensures NeedsUpdate(cfg, after, req, id) <==> NeedsUpdate(cfg, store, req, id)
  {
    hide MergedData;
  }

  lemma WriteKeepsSyncable(cfg: Config, s: Sys, e: Event, req: Name, id: Identity)
    requires Writes(cfg, s, e) && TheInstance(s.known, req, id) && ServiceNotShared(s.known, req, id)
    requires AllBehind(cfg, s, req, id) && Syncable(cfg, s.store, req, id)
    requires HasInstance(StoreAfter(s.store, e.call, e.fill, e.verdict), req, id)
    ensures Syncable(cfg, StoreAfter(s.store, e.call, e.fill, e.verdict), req, id)
  {
    hide Issues, Written, Inv, Closed, TheInstance, ServiceNotShared, AllBehind, Extends, NeedsUpdate, Has;
    hide WellKinded, AbsentOrOwn, GateOpens, HasInstance, AccountThere, ClaimPossible, SecretThere, CascThere;
    var after := StoreAfter(s.store, e.call, e.fill, e.verdict);
    WriteKeepsKinds(s.store, e.call, e.fill, e.verdict);
    WriteExtends(cfg, s, e);
    if e.call.key !in s.store.objs {
      CreationIsStaged(cfg, s, e, req, id);
    }
    PresenceExtends(s.store, after, req, id.spec);
    OwnExtends(s.store, after, ConfigMapKey(req), id.uid);
    OwnExtends(s.store, after, DeploymentKey(req), id.uid);
    OwnExtends(s.store, after, ServiceKey(req, id.spec), id.uid);
    if e.call.key == ConfigMapKey(req) {
      WrittenIsMerged(cfg, s, e, req, id);
    } else {
      NeedsUpdateElsewhere(cfg, s.store, after, req, id);
    }
  }

  lemma StepKeepsSyncable(cfg: Config, s: Sys, e: Event, req: Name, id: Identity)
    requires Inv(cfg, s) && Closed(s) && Enabled(cfg, s, e) && !e.Foreign?
    requires TheInstance(s.known, req, id) && ServiceNotShared(s.known, req, id)
    requires AllBehind(cfg, s, req, id) && Syncable(cfg, s.store, req, id)
    ensures Syncable(cfg, Apply(cfg, s, e).store, req, id)
  {
    hide Issues, Written, Inv, Accepts, TheInstance, ServiceNotShared, AllBehind, Syncable, Reply, Resume, Record;
    StepStaysClosed(cfg, s, e);
    KnownIsStored(Apply(cfg, s, e), req, id);
    if e.Act? && Lands(s.store, e.call, e.verdict) {
      WriteKeepsSyncable(cfg, s, e, req, id);
    }
  }

  lemma KnownIsStored(s: Sys, req: Name, id: Identity)
    requires Closed(s)
    ensures TheInstance(s.known, req, id) ==> HasInstance(s.store, req, id)
  {
  }

  /** Nothing the operator does, by whatever reconciles of whatever instances, however they fail or stop, takes away
      what an instance needs to sync. */
  lemma {:induction false} StaysSyncable(cfg: Config, s: Sys, es: seq<Event>, req: Name, id: Identity)
    requires Initial(s) && IsRun(cfg, s, es) && OperatorOnly(es)
    requires TheInstance(s.known, req, id) && ServiceNotShared(s.known, req, id) && Syncable(cfg, s.store, req, id)
    ensures Syncable(cfg, End(cfg, s, es).store, req, id)
  {
    hide Apply, Enabled, Inv, TheInstance, ServiceNotShared, AllBehind, Syncable, Closed, AllResolved;
    if |es| > 0 {
      var last := |es| - 1;
      StaysSyncable(cfg, s, es[..last], req, id);
      OperatorRunStaysClosed(cfg, s, es[..last]);
      OperatorReferentialIntegrity(cfg, s, es[..last], req, id);
      StepKeepsSyncable(cfg, End(cfg, s, es[..last]), es[last], req, id);
    }
  }

  /** After any such run, the next reconcile of the instance that nobody disturbs ends in success without a failed
      request and leaves it ready, with nothing left to write. */
  lemma {:induction false} NextReconcileSettles(cfg: Config, s: Sys, es: seq<Event>, next: seq<Event>, w: int,
                                                req: Name, id: Identity)
    requires Initial(s) && IsRun(cfg, s, es) && OperatorOnly(es)
    requires TheInstance(s.known, req, id) && ServiceNotShared(s.known, req, id) && Syncable(cfg, s.store, req, id)
    requires var mid := End(cfg, s, es);
             && (w in mid.workers ==> mid.workers[w].pc.Ended?)
             && IsRun(cfg, mid, next) && UndisturbedReconcile(next, w, req)
             && w in End(cfg, mid, next).workers && End(cfg, mid, next).workers[w].pc.Ended?
    ensures var end := End(cfg, End(cfg, s, es), next);
            && end.workers[w] == Worker(req, Ended(Synced), true)
            && Rank(cfg, end.store, req, id) == 0 && IsReady(end.store, req)
  {
    hide Enabled, Apply, IsRun, End, UndisturbedReconcile, Inv, TheInstance, ServiceNotShared, CanSync, Rank;
    hide WellKinded, HasInstance, AllAchieved;
    var mid := End(cfg, s, es);
    InitialIsCurrent(cfg, s);
    NothingUnderWay(cfg, s, req, id);
    OperatorOnlyIsCalm(cfg, s, es, req, id);
    OperatorRunStaysClosed(cfg, s, es);
    StaysSyncable(cfg, s, es, req, id);
    RunAchieves(cfg, s, es, req, id);
    InvIsDated(cfg, mid);
    UndisturbedSettles(cfg, mid, next, w, req, id);
  }

  lemma InvIsDated(cfg: Config, s: Sys)
    requires Inv(cfg, s)
    ensures Dated(s.store)
  {
  }
}
