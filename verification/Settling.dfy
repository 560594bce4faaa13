/** Progress: a reconcile that nobody disturbs brings its instance to rest, or panics, exactly when the store it
    starts from says so. */
module Settling {
  import opened Api
  import opened Protocol
  import opened Runs
  import opened Convergence
  import opened Idempotence
  import opened Undisturbed

  /** In this run worker `w` reconciles `req` undisturbed to this end. */
  ghost predicate EndsIn(cfg: Config, s: Sys, es: seq<Event>, w: int, req: Name, outcome: Outcome)
  {
    && IsRun(cfg, s, es) && UndisturbedReconcile(es, w, req)
    && w in End(cfg, s, es).workers && End(cfg, s, es).workers[w] == Worker(req, Ended(outcome), true)
  }

  /** Some undisturbed reconcile panics exactly when the store it starts from lets the setup stage find no cascconfig,
      or lets everything pass up to a service that is absent and not described. */
  lemma {:induction false} UndisturbedPanics(cfg: Config, s: Sys, w: int, req: Name, id: Identity)
    requires CanBegin(s, w, req, id)
    ensures (exists es :: EndsIn(cfg, s, es, w, req, Panicked)) <==> MustPanic(cfg, s.store, req, id)
  {
    hide CanBegin, MustPanic, CanSync, IsRun, End, UndisturbedReconcile, HasInstance;
    var es := UndisturbedCompletes(cfg, s, w, req, id);
    UndisturbedOutcome(cfg, s, es, w, req, id);
    if MustPanic(cfg, s.store, req, id) {
      assert EndsIn(cfg, s, es, w, req, Panicked);
    }
    if es' :| EndsIn(cfg, s, es', w, req, Panicked) {
      UndisturbedOutcome(cfg, s, es', w, req, id);
    }
  }

  /** The same for success: everything the instance names is there, and what is its own to make is absent or its own. */
  lemma {:induction false} UndisturbedSyncs(cfg: Config, s: Sys, w: int, req: Name, id: Identity)
    requires CanBegin(s, w, req, id)
    ensures (exists es :: EndsIn(cfg, s, es, w, req, Synced)) <==> CanSync(cfg, s.store, req, id)
  {
    hide CanBegin, MustPanic, CanSync, IsRun, End, UndisturbedReconcile, HasInstance;
    var es := UndisturbedCompletes(cfg, s, w, req, id);
    UndisturbedOutcome(cfg, s, es, w, req, id);
    if CanSync(cfg, s.store, req, id) {
      assert EndsIn(cfg, s, es, w, req, Synced);
    }
    if es' :| EndsIn(cfg, s, es', w, req, Synced) {
      UndisturbedOutcome(cfg, s, es', w, req, id);
    }
  }

  /** And then the instance is at rest: it is ready, and nothing is left to write for it. */
  lemma {:induction false} UndisturbedSettles(cfg: Config, s: Sys, es: seq<Event>, w: int, req: Name, id: Identity)
    requires CanBegin(s, w, req, id) && IsRun(cfg, s, es) && UndisturbedReconcile(es, w, req)
    requires w in End(cfg, s, es).workers && End(cfg, s, es).workers[w].pc.Ended?
    requires Inv(cfg, s) && Closed(s) && AllAchieved(cfg, s, req, id) && TheInstance(s.known, req, id)
    requires CanSync(cfg, s.store, req, id)
    ensures var end := End(cfg, s, es);
            && Rank(cfg, end.store, req, id) == 0
            && InstanceKey(req) in end.store.objs && end.store.objs[InstanceKey(req)].body.InstanceBody?
            && end.store.objs[InstanceKey(req)].body.phase == READY
            && end.workers[w] == Worker(req, Ended(Synced), true)
  {
    hide CanBegin, CanSync, MustPanic, End, IsRun, TheInstance, AllAchieved, Inv, Closed, Rank;
    UndisturbedOutcome(cfg, s, es, w, req, id);
    UndisturbedIsCalm(cfg, s, es, w, req, id);
    assert es[..|es|] == es;
    assert End(cfg, s, es).workers[w] == Worker(req, Ended(Synced), true);
    SyncedMeansSettled(cfg, s, es, |es|, w, req, id);
  }

  lemma UndisturbedIsCalm(cfg: Config, s: Sys, es: seq<Event>, w: int, req: Name, id: Identity)
    requires UndisturbedReconcile(es, w, req)
    ensures Calm(cfg, s, es, req, id)
  {
    hide Spares;
    forall i | 0 <= i < |es| ensures !es[i].Foreign? {
      if i > 0 {
        assert es[1..][i - 1] == es[i];
      }
    }
  }
}
