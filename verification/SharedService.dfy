/** Two instances that name one service: the dropped error of creating it lets an instance become ready on a service
    that belongs to the other. */
module SharedService {
  import opened Basics
  import opened Api
  import opened Services
  import opened Cluster
  import opened Protocol
  import opened Runs
  import opened Convergence
  import opened Liveness
  import opened Staging
  import opened Undisturbed

  // ---- up to the creation of the service ---------------------------------------------------

  /** newService has not yet missed the service. */
  predicate BeforeCreate(pc: Pc)
  {
    || pc.Gate? || pc.Setup? || pc.Restarting? || pc.Deploying?
    || (pc.Serving? && !pc.serve.SvcCreate? && !pc.serve.SvcUpdate?)
  }

  predicate AtCreate(pc: Pc)
  {
    pc.Serving? && pc.serve.SvcCreate?
  }

  /** What a reconcile writes before that point. */
  lemma WritesBefore(cfg: Config, req: Name, pc: Pc, call: Call)
    requires Issues(cfg, req, pc, call) && IsWrite(call) && BeforeCreate(pc)
    ensures !call.UpdateStatus?
    ensures call.key == ConfigMapKey(req) || call.key.kind == ClaimKind || call.key == DeploymentKey(req)
  {
    hide NewConfigMap, UpdatedConfigMap, NewClaim, IsNewDeployment, NewServiceObj, UpdatedService, ReadyInstance;
  }

  /** No reconcile writes a Secret, or an instance but its own. */
  lemma WritesAnywhere(cfg: Config, req: Name, pc: Pc, call: Call)
    requires Issues(cfg, req, pc, call) && IsWrite(call)
    ensures call.key.kind != SecretKind
    ensures call.key.kind == InstanceKind ==> call.key == InstanceKey(req)
  {
    hide NewConfigMap, UpdatedConfigMap, NewClaim, IsNewDeployment, NewServiceObj, UpdatedService, ReadyInstance;
  }

  lemma NextPoint(cfg: Config, store: Store, req: Name, id: Identity, pc: Pc, call: Call)
    requires LoneInv(cfg, store, req, id, pc) && Issues(cfg, req, pc, call) && BeforeCreate(pc)
    requires ServiceKey(req, id.spec) !in store.objs
    ensures var next := Resume(cfg, pc, Reply(store, call, Normal));
            BeforeCreate(next) || AtCreate(next) || (next.Ended? && !next.outcome.Synced?)
  {
    hide Acts, MergedData, ToAccount, ToClaim, ToCascSecret, ToGroovy, ToCasc, ToDeploy, Dated, AbsentOrOwn;
  }

  /** What the other instance needs of the store to sync later. */
  ghost predicate OtherCanSync(cfg: Config, store: Store, req: Name, id: Identity)
  {
    HasInstance(store, req, id) && CanSync(cfg, store, req, id) && ServiceKey(req, id.spec) !in store.objs
  }

  lemma ServiceIsAbsent(cfg: Config, store: Store, req: Name, id: Identity)
    requires OtherCanSync(cfg, store, req, id)
    ensures ServiceKey(req, id.spec) !in store.objs
  {
  }

  lemma KeepsOther(cfg: Config, store: Store, call: Call, fill: Fill, req: Name, other: Name, id: Identity)
    requires OtherCanSync(cfg, store, other, id) && req != other
    requires IsWrite(call) ==> !call.UpdateStatus?
    requires IsWrite(call) ==>
               call.key == ConfigMapKey(req) || call.key.kind == ClaimKind || call.key == DeploymentKey(req)
    ensures OtherCanSync(cfg, StoreAfter(store, call, fill, Normal), other, id)
  {
    hide MergedData;
    if Accepts(store, call) {
      hide StoreAfter, Accepts;
      WriteLeaves(store, call, fill);
    }
  }

  /** Worker `w` is on its way to create the service, and the other instance could still sync. */
  ghost predicate Driving(cfg: Config, s: Sys, w: int, req: Name, id: Identity, other: Name, otherId: Identity)
  {
    && w in s.workers && s.workers[w].req == req && Sensible(s.workers[w].pc)
    && LoneInv(cfg, s.store, req, id, s.workers[w].pc) && WillSync(cfg, s.store, req, id, s.workers[w].pc)
    && (BeforeCreate(s.workers[w].pc) || AtCreate(s.workers[w].pc))
    && req != other && ServiceKey(other, otherId.spec) == ServiceKey(req, id.spec)
    && OtherCanSync(cfg, s.store, other, otherId)
  }

  lemma DriveStep(cfg: Config, s: Sys, w: int, req: Name, id: Identity, other: Name, otherId: Identity)
    returns (e: Event)
    requires Driving(cfg, s, w, req, id, other, otherId) && !AtCreate(s.workers[w].pc)
    ensures Enabled(cfg, s, e) && e.Act? && e.w == w && e.verdict.Normal?
    ensures var s' := Apply(cfg, s, e);
            && Driving(cfg, s', w, req, id, other, otherId) && OnlyMoves(s, s', w)
            && StepsLeft(s'.workers[w].pc) < StepsLeft(s.workers[w].pc)
  {
    hide Sensible, Resume, Issues, StoreAfter, Reply, Record, StepsLeft, LoneInv, WillSync, WillPanic, WillBeAbsorbed;
    hide OtherCanSync, AbsentOrOwn, Identities;
    var pc := s.workers[w].pc;
    var call := NextCall(cfg, req, pc);
    var fill := Fill([], "", "");
    e := Act(w, call, fill, Normal);
    ServiceIsAbsent(cfg, s.store, other, otherId);
    ResumeSensible(cfg, pc, Reply(s.store, call, Normal));
    ResumeDescends(cfg, pc, Reply(s.store, call, Normal));
    OneStep(cfg, s.store, req, id, pc, call, fill);
    NextPoint(cfg, s.store, req, id, pc, call);
    SyncingEndsSynced(cfg, Apply(cfg, s, e).store, req, id, Apply(cfg, s, e).workers[w].pc);
    if IsWrite(call) {
      WritesBefore(cfg, req, pc, call);
    }
    KeepsOther(cfg, s.store, call, fill, req, other, otherId);
  }

  /** Worker `w` can be brought to where it is about to create the service. */
  lemma {:induction false} DriveToCreate(cfg: Config, s: Sys, w: int, req: Name, id: Identity, other: Name,
                                         otherId: Identity) returns (es: seq<Event>)
    requires w in s.workers && Driving(cfg, s, w, req, id, other, otherId)
    ensures IsRun(cfg, s, es) && Alone(es, w)
    ensures var s' := End(cfg, s, es);
            OnlyMoves(s, s', w) && AtCreate(s'.workers[w].pc) && Driving(cfg, s', w, req, id, other, otherId)
    decreases StepsLeft(s.workers[w].pc)
  {
    hide Driving, Apply, Enabled, StepsLeft;
    if AtCreate(s.workers[w].pc) {
      es := [];
    } else {
      var e := DriveStep(cfg, s, w, req, id, other, otherId);
      OneEvent(cfg, s, e);
      var rest := DriveToCreate(cfg, Apply(cfg, s, e), w, req, id, other, otherId);
      RunsCompose(cfg, s, [e], rest);
      es := [e] + rest;
    }
  }

  // ---- meanwhile, the other instance -------------------------------------------------------

  /** A reconcile of one instance leaves another's object and admin secret alone. */
  lemma {:induction false} AloneLeaves(cfg: Config, s: Sys, es: seq<Event>, w: int, req: Name, other: Name,
                                       id: Identity)
    requires IsRun(cfg, s, es) && Alone(es, w) && w in s.workers && s.workers[w].req == req && req != other
    requires HasInstance(s.store, other, id) && GateOpens(s.store, other, id.spec)
    ensures var s' := End(cfg, s, es);
            && w in s'.workers && s'.workers[w].req == req
            && HasInstance(s'.store, other, id) && GateOpens(s'.store, other, id.spec)
  {
    hide Issues, Resume, Reply, Written, Accepts, Record;
    if |es| > 0 {
      var last := |es| - 1;
      var mid := End(cfg, s, es[..last]);
      AloneLeaves(cfg, s, es[..last], w, req, other, id);
      if Lands(mid.store, es[last].call, Normal) {
        OnlyWritesLand(mid.store, es[last].call);
        WritesAnywhere(cfg, req, mid.workers[w].pc, es[last].call);
      }
    }
  }

  lemma OnlyWritesLand(store: Store, call: Call)
    requires Accepts(store, call)
    ensures IsWrite(call)
  {
  }

  // ---- and the end of the first reconcile --------------------------------------------------

  /** The status stage leaves every service as it is. */
  lemma {:induction false} ReportingLeaves(cfg: Config, s: Sys, es: seq<Event>, w: int, k: Key)
    requires IsRun(cfg, s, es) && Alone(es, w) && w in s.workers && s.workers[w].pc.Reporting?
    requires k.kind == ServiceKind
    ensures SameAt(s.store, End(cfg, s, es).store, k)
    ensures var s' := End(cfg, s, es); w in s'.workers && (s'.workers[w].pc.Reporting? || s'.workers[w].pc.Ended?)
  {
    hide Issues, Resume, Reply, Written, Accepts, Record;
    if |es| > 0 {
      var last := |es| - 1;
      var mid := End(cfg, s, es[..last]);
      ReportingLeaves(cfg, s, es[..last], w, k);
      EndedIssuesNothing(cfg, mid.workers[w].req, mid.workers[w].pc, es[last].call);
      ReportingStays(cfg, mid.workers[w].req, mid.workers[w].pc, es[last].call,
                     Reply(mid.store, es[last].call, Normal));
      if Lands(mid.store, es[last].call, Normal) {
        OnlyWritesLand(mid.store, es[last].call);
      }
    }
  }

  lemma ReportingStays(cfg: Config, req: Name, pc: Pc, call: Call, r: Response)
    requires Issues(cfg, req, pc, call) && pc.Reporting?
    ensures Resume(cfg, pc, r).Reporting? || Resume(cfg, pc, r).Ended?
    ensures IsWrite(call) ==> call.key.kind == InstanceKind
  {
  }

  /** The request that creates the service is refused, and the reconcile goes on all the same. */
  lemma CreateIsRefused(cfg: Config, s: Sys, w: int, req: Name, id: Identity) returns (e: Event)
    requires w in s.workers && s.workers[w].req == req && AtCreate(s.workers[w].pc) && Sensible(s.workers[w].pc)
    requires Identify(s.workers[w].pc.serve.inst) == id
    requires WellKinded(s.store) && Dated(s.store) && HasInstance(s.store, req, id)
    requires GateOpens(s.store, req, id.spec) && ServiceKey(req, id.spec) in s.store.objs
    ensures Enabled(cfg, s, e) && e.Act? && e.w == w
    ensures var s' := Apply(cfg, s, e);
            && w in s'.workers && s'.workers[w].req == req && s'.workers[w].pc == Reporting(StInstance)
            && s'.store == s.store && LoneInv(cfg, s'.store, req, id, Reporting(StInstance))
  {
    hide NewServiceObj, WellKinded, Dated, HasInstance, GateOpens, Identities;
    var call := NextCall(cfg, req, s.workers[w].pc);
    e := Act(w, call, Fill([], "", ""), Normal);
  }

  /** Two stored instances that name the same service, both of which could sync. */
  ghost predicate ShareService(cfg: Config, s: Sys, req: Name, id: Identity, other: Name, otherId: Identity)
  {
    && Initial(s) && WellKinded(s.store)
    && req != other && id.uid != otherId.uid && ServiceKey(other, otherId.spec) == ServiceKey(req, id.spec)
    && HasInstance(s.store, req, id) && CanSync(cfg, s.store, req, id)
    && OtherCanSync(cfg, s.store, other, otherId)
  }

  /** The first reconcile up to where it has found no service. */
  lemma FirstPart(cfg: Config, s: Sys, req: Name, id: Identity, other: Name, otherId: Identity)
    returns (es: seq<Event>)
    requires ShareService(cfg, s, req, id, other, otherId)
    ensures IsRun(cfg, s, es) && OperatorOnly(es)
    ensures var s' := End(cfg, s, es);
            && s'.workers.Keys == {1} && s'.workers[1].req == req && AtCreate(s'.workers[1].pc)
            && Sensible(s'.workers[1].pc) && LoneInv(cfg, s'.store, req, id, s'.workers[1].pc)
            && OtherCanSync(cfg, s'.store, other, otherId)
  {
    hide CanSync, HasInstance, WellKinded, Dated, OtherCanSync, AtCreate, LoneInv;
    var e := Begin(1, req);
    OneEvent(cfg, s, e);
    assert HasInstance(s.store, req, id) && CanSync(cfg, s.store, req, id) && Dated(s.store);
    BeginsLone(cfg, s, 1, req, id);
    GateSensible();
    var rest := DriveToCreate(cfg, Apply(cfg, s, e), 1, req, id, other, otherId);
    RunsCompose(cfg, s, [e], rest);
    es := [e] + rest;
  }

  /** The whole reconcile of the other instance in between: it creates the service. */
  lemma SecondPart(cfg: Config, s: Sys, req: Name, id: Identity, other: Name, otherId: Identity)
    returns (es: seq<Event>)
    requires s.workers.Keys == {1} && s.workers[1].req == req && req != other
    requires LoneInv(cfg, s.store, req, id, s.workers[1].pc) && AtCreate(s.workers[1].pc)
    requires OtherCanSync(cfg, s.store, other, otherId)
    ensures IsRun(cfg, s, es) && OperatorOnly(es)
    ensures var s' := End(cfg, s, es);
            && 1 in s'.workers && s'.workers[1] == s.workers[1]
            && WellKinded(s'.store) && Dated(s'.store)
            && HasInstance(s'.store, req, id) && GateOpens(s'.store, req, id.spec)
            && ServiceKey(other, otherId.spec) in s'.store.objs
            && AbsentOrOwn(s'.store, ServiceKey(other, otherId.spec), otherId.uid)
  {
    hide CanSync, HasInstance, WellKinded, Dated, GateOpens, IsRun, End, MustPanic, Alone, PointFacts;
    es := UndisturbedCompletes(cfg, s, 2, other, otherId);
    UndisturbedPoint(cfg, s, es, 2, other, otherId);
    UndisturbedOutcome(cfg, s, es, 2, other, otherId);
    OthersLeftAlone(cfg, s, es, 2, other, req, id);
    UndisturbedIsOperatorOnly(es, 2, other);
  }

  lemma OthersLeftAlone(cfg: Config, s: Sys, es: seq<Event>, w: int, req: Name, other: Name, id: Identity)
    requires IsRun(cfg, s, es) && UndisturbedReconcile(es, w, req) && req != other
    requires HasInstance(s.store, other, id) && GateOpens(s.store, other, id.spec)
    ensures HasInstance(End(cfg, s, es).store, other, id) && GateOpens(End(cfg, s, es).store, other, id.spec)
  {
    hide HasInstance, GateOpens, Enabled;
    RunSuffix(cfg, s, es);
    AloneLeaves(cfg, Apply(cfg, s, es[0]), es[1..], w, req, other, id);
  }

  lemma UndisturbedIsOperatorOnly(es: seq<Event>, w: int, req: Name)
    requires UndisturbedReconcile(es, w, req)
    ensures OperatorOnly(es)
  {
    forall i | 0 <= i < |es| ensures !es[i].Foreign? {
      if i > 0 {
        assert es[1..][i - 1] == es[i];
      }
    }
  }

  /** The rest of the first reconcile: its creation is refused, and it reports ready. */
  lemma ThirdPart(cfg: Config, s: Sys, req: Name, id: Identity) returns (es: seq<Event>)
    requires 1 in s.workers && s.workers[1].req == req && AtCreate(s.workers[1].pc) && Sensible(s.workers[1].pc)
    requires Identify(s.workers[1].pc.serve.inst) == id
    requires WellKinded(s.store) && Dated(s.store) && HasInstance(s.store, req, id)
    requires GateOpens(s.store, req, id.spec) && ServiceKey(req, id.spec) in s.store.objs
    ensures IsRun(cfg, s, es) && OperatorOnly(es)
    ensures var s' := End(cfg, s, es);
            && SameAt(s.store, s'.store, ServiceKey(req, id.spec))
            && HasInstance(s'.store, req, id) && s'.store.objs[InstanceKey(req)].body.phase == READY
  {
    hide HasInstance, GateOpens, WellKinded, Dated, Enabled, Apply, Sensible, SameAt, AbsentOrOwn;
    var e := CreateIsRefused(cfg, s, 1, req, id);
    OneEvent(cfg, s, e);
    var s1 := Apply(cfg, s, e);
    ReportingSensible();
    var rest := Completes(cfg, s1, 1);
    AloneKeeps(cfg, s1, rest, 1, req, id);
    ReportingLeaves(cfg, s1, rest, 1, ServiceKey(req, id.spec));
    RunsCompose(cfg, s, [e], rest);
    es := [e] + rest;
  }

  lemma ReportingSensible()
    ensures Sensible(Reporting(StInstance))
  {
  }

  /** The failing run: two reconciles, nobody else, and at the end the first instance is ready on a service that the
      second controls. */
  lemma {:induction false} ReadyOnAnothersService(cfg: Config, s: Sys, req: Name, id: Identity, other: Name,
                                                  otherId: Identity)
    returns (es: seq<Event>)
    requires ShareService(cfg, s, req, id, other, otherId)
    ensures IsRun(cfg, s, es) && OperatorOnly(es)
    ensures var store, svc := End(cfg, s, es).store, ServiceKey(req, id.spec);
            && HasInstance(store, req, id) && store.objs[InstanceKey(req)].body.phase == READY
            && svc in store.objs && store.objs[svc].meta.controller == Some(otherId.uid)
            && store.objs[svc].meta.controller != Some(id.uid)
  {
    hide IsRun, End, CanSync, HasInstance, GateOpens, WellKinded, Dated, OperatorOnly, OtherCanSync;
    var one := FirstPart(cfg, s, req, id, other, otherId);
    var s1 := End(cfg, s, one);
    var two := SecondPart(cfg, s1, req, id, other, otherId);
    var s2 := End(cfg, s1, two);
    var three := ThirdPart(cfg, s2, req, id);
    RunsCompose(cfg, s, one, two);
    RunsCompose(cfg, s, one + two, three);
    es := one + two + three;
    OperatorOnlyConcat(one, two);
    OperatorOnlyConcat(one + two, three);
  }

  lemma OperatorOnlyConcat(a: seq<Event>, b: seq<Event>)
    requires OperatorOnly(a) && OperatorOnly(b)
    ensures OperatorOnly(a + b)
  {
  }

  // ---- exactly when it cannot happen -------------------------------------------------------

  /** In every run of the operator alone the service, where it is, is the instance's own. */
  ghost predicate AlwaysOwnsService(cfg: Config, s: Sys, req: Name, id: Identity)
  {
    forall es :: IsRun(cfg, s, es) && OperatorOnly(es) ==> OwnsService(End(cfg, s, es).store, req, id)
  }

  /** Every stored instance could sync. */
  ghost predicate AllCanSync(cfg: Config, s: Sys)
  {
    forall n, i :: (n, i) in s.known ==> HasInstance(s.store, n, i) && CanSync(cfg, s.store, n, i)
  }

  /** For instances that could all sync, one that starts from nothing always owns its service if and only if no other
      names the same service. */
  lemma {:induction false} OwnsServiceExactly(cfg: Config, s: Sys, req: Name, id: Identity)
    requires Initial(s) && WellKinded(s.store) && AllCanSync(cfg, s) && TheInstance(s.known, req, id)
    requires ConfigMapKey(req) !in s.store.objs && DeploymentKey(req) !in s.store.objs
             && ServiceKey(req, id.spec) !in s.store.objs && !IsReady(s.store, req)
    ensures AlwaysOwnsService(cfg, s, req, id) <==> ServiceNotShared(s.known, req, id)
  {
    hide IsRun, End, CanSync, HasInstance, WellKinded, Initial, OperatorOnly, Staged, Calm, OnlyAdds;
    if ServiceNotShared(s.known, req, id) {
      forall es | IsRun(cfg, s, es) && OperatorOnly(es) ensures OwnsService(End(cfg, s, es).store, req, id) {
        OperatorOnlyAdds(cfg, s, es);
        OperatorOnlyIsCalm(cfg, s, es, req, id);
        EveryStateIsStaged(cfg, s, es, req, id);
      }
    } else {
      var n, i :| (n, i) in s.known && n != req && ServiceKey(n, i.spec) == ServiceKey(req, id.spec);
      assert (req, id) in s.known;
      var es := ReadyOnAnothersService(cfg, s, req, id, n, i);
      assert !OwnsService(End(cfg, s, es).store, req, id);
    }
  }

  // ---- such a store ------------------------------------------------------------------------

  const A := Name("ns", "a")
  const B := Name("ns", "b")

  /** A minimal spec: an inline configuration, an admin secret and a named service. */
  const SharingSpec :=
    Spec(map[], [], Some(CascConfig("jenkins: {}", "")), "", "", map[], "admin",
         Some(ServiceOptions("shared", "NodePort", 0, map[])), "", None, "")

  function Stored(uid: string): Obj
  {
    Obj(Meta(uid, None, 0, map[], map[]), InstanceBody(SharingSpec, ""))
  }

  const SharingStore :=
    Store(map[InstanceKey(A) := Stored("uid-a"), InstanceKey(B) := Stored("uid-b"),
              Key(SecretKind, "ns", "admin") := Obj(FreshMeta, SecretBody(map[]))], 1)

  /** Two new instances that name one service: staged all along, as every run from here is, the first still becomes
      ready on a service that is not its own. */
  lemma {:induction false} SharedServiceExample(cfg: Config) returns (es: seq<Event>)
    ensures var s := Sys(SharingStore, map[], [], Identities(SharingStore));
            var id := Identity("uid-a", SharingSpec);
            && Initial(s) && TheInstance(s.known, A, id) && IsRun(cfg, s, es) && OperatorOnly(es)
            && ConfigMapKey(A) !in s.store.objs && DeploymentKey(A) !in s.store.objs
            && ServiceKey(A, id.spec) !in s.store.objs && !IsReady(s.store, A)
            && !ServiceNotShared(s.known, A, id)
            && Staged(End(cfg, s, es).store, A, id) && IsReady(End(cfg, s, es).store, A)
            && !OwnsService(End(cfg, s, es).store, A, id)
  {
    var s := Sys(SharingStore, map[], [], Identities(SharingStore));
    var id, otherId := Identity("uid-a", SharingSpec), Identity("uid-b", SharingSpec);
    SharingIdentities();
    ExampleShares(cfg, s, id, otherId);
    es := ReadyOnAnothersService(cfg, s, A, id, B, otherId);
    hide IsRun, End, Staged, HasInstance;
    OperatorOnlyAdds(cfg, s, es);
    OperatorOnlyIsCalm(cfg, s, es, A, id);
    EveryStateIsStaged(cfg, s, es, A, id);
    assert (B, otherId) in s.known;
  }

  lemma SharingIdentities()
    ensures Identities(SharingStore) == {(A, Identity("uid-a", SharingSpec)), (B, Identity("uid-b", SharingSpec))}
  {
    var ids := Identities(SharingStore);
    assert InstanceKey(A) in SharingStore.objs && InstanceKey(B) in SharingStore.objs;
    assert (A, Identify(SharingStore.objs[InstanceKey(A)])) in ids;
    assert (B, Identify(SharingStore.objs[InstanceKey(B)])) in ids;
  }

  lemma ExampleShares(cfg: Config, s: Sys, id: Identity, otherId: Identity)
    requires s == Sys(SharingStore, map[], [], Identities(SharingStore))
    requires id == Identity("uid-a", SharingSpec) && otherId == Identity("uid-b", SharingSpec)
    ensures ShareService(cfg, s, A, id, B, otherId)
  {
    hide CanSync;
    EitherCanSync(cfg, A, id);
    EitherCanSync(cfg, B, otherId);
  }

  lemma EitherCanSync(cfg: Config, req: Name, id: Identity)
    requires req.ns == "ns" && id.spec == SharingSpec
    ensures CanSync(cfg, SharingStore, req, id)
  {
    hide MergedData, Stored;
  }
}
