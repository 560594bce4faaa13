/** The restart of Jenkins after an update of the setup ConfigMap: when an undisturbed reconcile makes it, and that it
    is lost for good when there is no service. */
module LostRestart {
  import opened Basics
  import opened Api
  import opened Services
  import opened Cluster
  import opened Protocol
  import opened Runs
  import opened SetupConfigMap
  import opened Liveness
  import opened Undisturbed

  /** The update of the ConfigMap is ahead of the reconcile at `pc`. */
  ghost predicate UpdateAhead(cfg: Config, store: Store, req: Name, id: Identity, pc: Pc)
  {
    && (pc.Setup? || (pc.Gate? && GateOpens(store, req, id.spec)))
    && NeedsUpdate(cfg, store, req, id) && AbsentOrOwn(store, ConfigMapKey(req), id.uid)
  }

  /** The restarts it will still ask for. */
  ghost function RestartsAhead(cfg: Config, store: Store, req: Name, id: Identity, pc: Pc): nat
  {
    if (UpdateAhead(cfg, store, req, id, pc) || pc.Restarting?) && ServiceKey(req, id.spec) in store.objs then 1 else 0
  }

  /** The data its ConfigMap will hold. */
  ghost function DataAhead(cfg: Config, store: Store, req: Name, id: Identity, pc: Pc): Data
    requires ConfigMapKey(req) in store.objs && store.objs[ConfigMapKey(req)].body.ConfigMapBody?
  {
    var data := store.objs[ConfigMapKey(req)].body.data;
    if UpdateAhead(cfg, store, req, id, pc) then MergedData(cfg, id.spec, data) else data
  }

  ghost predicate HasConfigMap(store: Store, req: Name)
  {
    ConfigMapKey(req) in store.objs && store.objs[ConfigMapKey(req)].body.ConfigMapBody?
  }

  /** A request keeps what was ahead, apart from the restart it may be itself. */
  ghost predicate KeepsAhead(cfg: Config, before: Store, after: Store, req: Name, id: Identity, pc: Pc, next: Pc,
                             call: Call)
  {
    && RestartsAhead(cfg, after, req, id, next) + (if call.Restart? then 1 else 0) ==
       RestartsAhead(cfg, before, req, id, pc)
    && (HasConfigMap(before, req) ==>
          HasConfigMap(after, req)
          && DataAhead(cfg, after, req, id, next) == DataAhead(cfg, before, req, id, pc))
  }

  lemma GateAhead(cfg: Config, store: Store, req: Name, id: Identity, pc: Pc, call: Call, fill: Fill)
    requires Served(cfg, store, req, id, pc, call) && pc.Gate?
    ensures KeepsAhead(cfg, store, StoreAfter(store, call, fill, Normal), req, id, pc,
                       ResumeGate(pc.gate, Reply(store, call, Normal)), call)
  {
    hide NeedsUpdate, AbsentOrOwn, Dated, Acts, MergedData;
  }

  lemma SetupReadAhead(cfg: Config, store: Store, req: Name, id: Identity, pc: Pc, call: Call, fill: Fill)
    requires Served(cfg, store, req, id, pc, call) && pc.Setup? && (pc.setup.CmInstance? || pc.setup.CmGet?)
    ensures KeepsAhead(cfg, store, StoreAfter(store, call, fill, Normal), req, id, pc,
                       ResumeSetup(cfg, pc.setup, Reply(store, call, Normal)), call)
  {
    hide Dated, Acts, MergedData;
  }

  lemma SetupWriteAhead(cfg: Config, store: Store, req: Name, id: Identity, pc: Pc, call: Call, fill: Fill)
    requires Served(cfg, store, req, id, pc, call) && pc.Setup? && (pc.setup.CmCreate? || pc.setup.CmUpdate?)
    ensures KeepsAhead(cfg, store, StoreAfter(store, call, fill, Normal), req, id, pc,
                       ResumeSetup(cfg, pc.setup, Reply(store, call, Normal)), call)
  {
    hide StringData, MergedData, Labels, GateOpens, StoreAfter, WellKinded, Dated, HasInstance;
    WriteLeaves(store, call, fill);
  }

  lemma RestartAhead(cfg: Config, store: Store, req: Name, id: Identity, pc: Pc, call: Call, fill: Fill)
    requires Served(cfg, store, req, id, pc, call) && pc.Restarting?
    ensures KeepsAhead(cfg, store, StoreAfter(store, call, fill, Normal), req, id, pc,
                       ResumeRestart(pc.restart, Reply(store, call, Normal)), call)
  {
    hide Dated, MergedData;
    hide NewConfigMap, UpdatedConfigMap, NewClaim, IsNewDeployment, NewServiceObj, UpdatedService, ReadyInstance;
  }

  /** Past the setup stage nothing is ahead, and nothing writes the ConfigMap. */
  lemma LaterAhead(cfg: Config, store: Store, req: Name, id: Identity, pc: Pc, call: Call, fill: Fill)
    requires Issues(cfg, req, pc, call) && (pc.Deploying? || pc.Serving? || pc.Reporting?)
    ensures KeepsAhead(cfg, store, StoreAfter(store, call, fill, Normal), req, id, pc,
                       Resume(cfg, pc, Reply(store, call, Normal)), call)
  {
    hide MergedData, NeedsUpdate, Reply, AbsentOrOwn, GateOpens, Resume, Issues;
    LaterPoints(cfg, req, pc, call, Reply(store, call, Normal));
    if IsWrite(call) && Accepts(store, call) {
      assert call.key != ConfigMapKey(req);
    }
  }

  lemma LaterPoints(cfg: Config, req: Name, pc: Pc, call: Call, r: Response)
    requires Issues(cfg, req, pc, call) && (pc.Deploying? || pc.Serving? || pc.Reporting?)
    ensures var next := Resume(cfg, pc, r); next.Deploying? || next.Serving? || next.Reporting? || next.Ended?
    ensures !call.Restart? && (IsWrite(call) ==> call.key.kind != ConfigMapKind)
  {
    hide NewConfigMap, UpdatedConfigMap, NewClaim, IsNewDeployment, NewServiceObj, UpdatedService, ReadyInstance;
    hide Settled;
  }

  lemma OneStepAhead(cfg: Config, store: Store, req: Name, id: Identity, pc: Pc, call: Call, fill: Fill)
    requires LoneInv(cfg, store, req, id, pc) && Issues(cfg, req, pc, call)
    ensures KeepsAhead(cfg, store, StoreAfter(store, call, fill, Normal), req, id, pc,
                       Resume(cfg, pc, Reply(store, call, Normal)), call)
  {
    hide Issues, Reply, StoreAfter, KeepsAhead, LoneInv;
    hide ResumeGate, ResumeSetup, ResumeRestart, ResumeDeployment, ResumeService, ResumeStatus;
    match pc
    case Gate(_) => GateAhead(cfg, store, req, id, pc, call, fill);
    case Setup(setup) =>
      if setup.CmInstance? || setup.CmGet? {
        SetupReadAhead(cfg, store, req, id, pc, call, fill);
      } else {
        SetupWriteAhead(cfg, store, req, id, pc, call, fill);
      }
    case Restarting(_) => RestartAhead(cfg, store, req, id, pc, call, fill);
    case Ended(_) => EndedIssuesNothing(cfg, req, pc, call);
    case _ => LaterAhead(cfg, store, req, id, pc, call, fill);
  }

  /** Restarts made and restarts ahead add up, and the data the ConfigMap is to hold stays the same. */
  lemma {:induction false} AheadKept(cfg: Config, s: Sys, es: seq<Event>, w: int, req: Name, id: Identity)
    requires IsRun(cfg, s, es) && Alone(es, w) && w in s.workers && s.workers[w].req == req
    requires LoneInv(cfg, s.store, req, id, s.workers[w].pc)
    ensures var s' := End(cfg, s, es);
            && w in s'.workers
            && Restarts(s'.log, req) + RestartsAhead(cfg, s'.store, req, id, s'.workers[w].pc) ==
               Restarts(s.log, req) + RestartsAhead(cfg, s.store, req, id, s.workers[w].pc)
            && (HasConfigMap(s.store, req) ==>
                  && HasConfigMap(s'.store, req)
                  && DataAhead(cfg, s'.store, req, id, s'.workers[w].pc) ==
                     DataAhead(cfg, s.store, req, id, s.workers[w].pc))
  {
    hide LoneInv, RestartsAhead, DataAhead, HasConfigMap, Issues, Resume, StoreAfter, Reply, Record, Restarts, Lands;
    if |es| > 0 {
      var last := |es| - 1;
      var mid, e := End(cfg, s, es[..last]), es[last];
      AheadKept(cfg, s, es[..last], w, req, id);
      AloneKeeps(cfg, s, es[..last], w, req, id);
      OneStepAhead(cfg, mid.store, req, id, mid.workers[w].pc, e.call, e.fill);
      WritersHold(cfg, mid, e);
      CountsStep(cfg, mid, e, req);
    }
  }

  /** The ConfigMap of the instance is its own, lacks a key its data would be built with, and the gate is open. */
  ghost predicate UpdateDue(cfg: Config, store: Store, req: Name, id: Identity)
  {
    && GateOpens(store, req, id.spec) && NeedsUpdate(cfg, store, req, id)
    && AbsentOrOwn(store, ConfigMapKey(req), id.uid)
  }

  /** An undisturbed reconcile that has ended has merged the missing data into a ConfigMap that needed it, and has
      asked for one restart if the service was there when it began, for none if it was not, and for none without an
      update. */
  lemma {:induction false} UndisturbedRestart(cfg: Config, s: Sys, es: seq<Event>, w: int, req: Name, id: Identity)
    requires CanBegin(s, w, req, id) && IsRun(cfg, s, es) && UndisturbedReconcile(es, w, req)
    requires w in End(cfg, s, es).workers && End(cfg, s, es).workers[w].pc.Ended?
    ensures var end, due := End(cfg, s, es), UpdateDue(cfg, s.store, req, id);
            && Restarts(end.log, req) ==
               Restarts(s.log, req) + (if due && ServiceKey(req, id.spec) in s.store.objs then 1 else 0)
            && (HasConfigMap(s.store, req) ==>
                  var data := s.store.objs[ConfigMapKey(req)].body.data;
                  && HasConfigMap(end.store, req)
                  && end.store.objs[ConfigMapKey(req)].body.data ==
                     if due then MergedData(cfg, id.spec, data) else data)
  {
    hide MergedData, Enabled, Restarts, GateOpens, NeedsUpdate, AbsentOrOwn;
    var begun := Apply(cfg, s, es[0]);
    RunSuffix(cfg, s, es);
    BeginsLone(cfg, s, w, req, id);
    AheadKept(cfg, begun, es[1..], w, req, id);
  }

  // ---- lost for good -----------------------------------------------------------------------

  /** Where the update will land and its restart will find no service. */
  ghost predicate RestartDoomed(cfg: Config, s: Sys, w: int, req: Name, id: Identity)
  {
    && Initial(s) && CanBegin(s, w, req, id) && UpdateDue(cfg, s.store, req, id)
    && id.spec.cascConfig.Some? && id.spec.cascConfig.value.configString != ""
    && ServiceKey(req, id.spec) !in s.store.objs
  }

  ghost predicate ConfigMapGrew(cfg: Config, before: Store, after: Store, req: Name, id: Identity)
  {
    && HasConfigMap(before, req) && HasConfigMap(after, req) && id.spec.cascConfig.Some?
    && var was, now := before.objs[ConfigMapKey(req)].body.data, after.objs[ConfigMapKey(req)].body.data;
       now == MergedData(cfg, id.spec, was) && now != was
  }

  /** The update lands, the reconcile fails, and however the run goes on, with any reconciles and any edits of the
      specs, Jenkins is never restarted for it while only the operator writes the map. */
  lemma {:induction false} RestartIsLost(cfg: Config, s: Sys, es: seq<Event>, more: seq<Event>, w: int, req: Name,
                                         id: Identity)
    requires RestartDoomed(cfg, s, w, req, id)
    requires IsRun(cfg, s, es) && UndisturbedReconcile(es, w, req)
    requires w in End(cfg, s, es).workers && End(cfg, s, es).workers[w].pc.Ended?
    requires var mid := End(cfg, s, es);
             IsRun(cfg, mid, more) && OnlyOperatorAt(cfg, mid, more, ConfigMapKey(req))
    ensures var mid, end := End(cfg, s, es), End(cfg, s, es + more);
            && IsRun(cfg, s, es + more)
            && mid.workers[w].pc == FAIL
            && ConfigMapGrew(cfg, s.store, mid.store, req, id)
            && SameAt(mid.store, end.store, ConfigMapKey(req))
            && Restarts(end.log, req) == Restarts(s.log, req)
  {
    hide IsRun, End, Restarts, UndisturbedReconcile, OnlyOperatorAt, Inv, Pending, CanBegin, CanSync, MustPanic;
    hide SameAt, MergedData;
    var mid := End(cfg, s, es);
    DoomedFails(cfg, s, w, req, id);
    UndisturbedRestart(cfg, s, es, w, req, id);
    UndisturbedOutcome(cfg, s, es, w, req, id);
    UndisturbedPoint(cfg, s, es, w, req, id);
    MergedIsComplete(cfg, s.store, mid.store, req, id);
    NothingPending(mid, w, req);
    InvOfRun(cfg, s, es);
    NoLaterRestart(cfg, mid, more, req);
    RunsCompose(cfg, s, es, more);
  }

  lemma DoomedFails(cfg: Config, s: Sys, w: int, req: Name, id: Identity)
    requires RestartDoomed(cfg, s, w, req, id)
    ensures !CanSync(cfg, s.store, req, id) && !MustPanic(cfg, s.store, req, id) && id.spec.adminSecret != ""
  {
    hide MergedData;
  }

  lemma MergedIsComplete(cfg: Config, before: Store, after: Store, req: Name, id: Identity)
    requires id.spec.cascConfig.Some? && id.spec.cascConfig.value.configString != ""
    requires HasConfigMap(before, req) && HasConfigMap(after, req)
    requires after.objs[ConfigMapKey(req)].body.data ==
             MergedData(cfg, id.spec, before.objs[ConfigMapKey(req)].body.data)
    ensures Complete(after, req)
  {
    hide PluginsTxt;
  }

  lemma NothingPending(s: Sys, w: int, req: Name)
    requires s.workers.Keys == {w} && w in s.workers && s.workers[w].pc.Ended?
    ensures Pending(s, req) == {}
  {
  }

  // ---- such a store ------------------------------------------------------------------------

  const A := Name("ns", "a")
  const DoomedSpec :=
    Spec(map[], [], Some(CascConfig("jenkins: {}", "")), "", "", map[], "admin", None, "", None, "")

  /** An instance whose own ConfigMap holds plugins.txt only, with its admin secret and without a service. */
  const DoomedStore :=
    Store(map[InstanceKey(A) := Obj(Meta("uid-a", None, 0, map[], map[]), InstanceBody(DoomedSpec, "")),
              ConfigMapKey(A) := Obj(Meta("", Some("uid-a"), 0, map[], map[]), ConfigMapBody(map[PLUGINS_TXT := ""])),
              Key(SecretKind, "ns", "admin") := Obj(FreshMeta, SecretBody(map[]))], 1)

  /** The run: one reconcile, undisturbed to its end, updates the map and asks for no restart; and none follows. */
  lemma LostRestartExample(cfg: Config) returns (es: seq<Event>)
    ensures var s, id := Sys(DoomedStore, map[], [], Identities(DoomedStore)), Identity("uid-a", DoomedSpec);
            && RestartDoomed(cfg, s, 1, A, id)
            && IsRun(cfg, s, es) && UndisturbedReconcile(es, 1, A)
            && 1 in End(cfg, s, es).workers && End(cfg, s, es).workers[1].pc == FAIL
            && ConfigMapGrew(cfg, s.store, End(cfg, s, es).store, A, id)
            && Restarts(End(cfg, s, es).log, A) == 0
  {
    var s, id := Sys(DoomedStore, map[], [], Identities(DoomedStore)), Identity("uid-a", DoomedSpec);
    DoomedExample(cfg, s, id);
    hide IsRun, End, RestartDoomed, CanBegin, Restarts, ConfigMapGrew, OnlyOperatorAt;
    assert CanBegin(s, 1, A, id) by { DoomedCanBegin(cfg, s, id); }
    es := UndisturbedCompletes(cfg, s, 1, A, id);
    NothingMore(cfg, End(cfg, s, es));
    RestartIsLost(cfg, s, es, [], 1, A, id);
    assert es + [] == es;
  }

  lemma NothingMore(cfg: Config, s: Sys)
    ensures IsRun(cfg, s, []) && OnlyOperatorAt(cfg, s, [], ConfigMapKey(A)) && Restarts([], A) == 0
  {
  }

  lemma DoomedCanBegin(cfg: Config, s: Sys, id: Identity)
    requires RestartDoomed(cfg, s, 1, A, id)
    ensures CanBegin(s, 1, A, id)
  {
  }

  lemma DoomedExample(cfg: Config, s: Sys, id: Identity)
    requires s == Sys(DoomedStore, map[], [], Identities(DoomedStore)) && id == Identity("uid-a", DoomedSpec)
    ensures RestartDoomed(cfg, s, 1, A, id)
  {
    hide PluginsTxt;
    assert JENKINS_YAML in MergedData(cfg, DoomedSpec, map[PLUGINS_TXT := ""]);
    assert JENKINS_YAML !in map[PLUGINS_TXT := ""];
  }
}
