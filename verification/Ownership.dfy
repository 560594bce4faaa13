/** Ownership safety over all interleavings: the operator changes only what is its own. */
module Ownership {
  import opened Basics
  import opened Api
  import opened Services
  import opened Cluster
  import opened Protocol
  import opened Runs

  /** A creation carries the UID the stage had read as controller; an update replaces an object that this UID
      controlled and still controls; a status update sets the phase of the requested instance and nothing else. */
  ghost predicate Owned(known: set<(Name, Identity)>, e: Entry)
  {
    e.Wrote? ==>
      && (e.req, e.actor) in known
      && match e.before
         case None => e.key.kind != InstanceKind && e.after.meta.controller == Some(e.actor.uid)
         case Some(before) =>
           if e.key.kind == InstanceKind then
             && e.key == InstanceKey(e.req)
             && before.body.InstanceBody? && e.after.body == before.body.(phase := READY)
             && e.after.meta == before.meta.(version := e.after.meta.version)
           else
             && before.meta.controller == Some(e.actor.uid) && e.after.meta.controller == Some(e.actor.uid)
             && e.after.meta.uid == before.meta.uid
  }

  /** Every object is still there, under the same controller and with the same UID. */
  ghost predicate NothingTaken(before: Store, after: Store)
  {
    forall k :: k in before.objs ==>
      && k in after.objs
      && after.objs[k].meta.controller == before.objs[k].meta.controller
      && after.objs[k].meta.uid == before.objs[k].meta.uid
  }

  lemma WriteIsOwned(cfg: Config, s: Sys, e: Event)
    requires Inv(cfg, s) && Enabled(cfg, s, e) && e.Act? && Lands(s.store, e.call, e.verdict)
    ensures |Record(s.store, s.workers[e.w], e.call, e.fill, e.verdict)| == 1
    ensures Owned(s.known, Record(s.store, s.workers[e.w], e.call, e.fill, e.verdict)[0])
    ensures NothingTaken(s.store, StoreAfter(s.store, e.call, e.fill, e.verdict))
  {
    hide MergedData, NewService, Rebuilt, Settled, Filled, StringData, Labels;
    var worker := s.workers[e.w];
    assert WorkerInv(cfg, s.store, s.known, worker.req, worker.pc);
    assert Acts(cfg, worker.req, worker.pc, e.call);
  }

  lemma StepIsOwned(cfg: Config, s: Sys, e: Event)
    requires Inv(cfg, s) && Enabled(cfg, s, e)
    requires forall i :: 0 <= i < |s.log| ==> Owned(s.known, s.log[i])
    ensures forall i :: 0 <= i < |Apply(cfg, s, e).log| ==> Owned(Apply(cfg, s, e).known, Apply(cfg, s, e).log[i])
    ensures !e.Foreign? ==> NothingTaken(s.store, Apply(cfg, s, e).store)
  {
    hide Acts, Resume, Written, Accepts, Reply;
    if e.Act? && Lands(s.store, e.call, e.verdict) {
      WriteIsOwned(cfg, s, e);
    }
  }

  /** However many reconciles, other clients, failures and stops are interleaved: every write of the operator is
      owned, and no step of the operator deletes an object or changes its controller. */
  lemma {:induction false} OwnershipSafety(cfg: Config, s: Sys, es: seq<Event>)
    requires Initial(s) && IsRun(cfg, s, es)
    ensures forall i :: 0 <= i < |End(cfg, s, es).log| ==> Owned(End(cfg, s, es).known, End(cfg, s, es).log[i])
    ensures forall i :: 0 <= i < |es| && !es[i].Foreign? ==>
              NothingTaken(End(cfg, s, es[..i]).store, End(cfg, s, es[..i + 1]).store)
  {
    hide Apply, Enabled, Owned, NothingTaken, WorkerInv;
    if |es| > 0 {
      var last := |es| - 1;
      OwnershipSafety(cfg, s, es[..last]);
      RunKeepsInv(cfg, s, es[..last]);
      StepIsOwned(cfg, End(cfg, s, es[..last]), es[last]);
      forall i | 0 <= i < |es| && !es[i].Foreign?
        ensures NothingTaken(End(cfg, s, es[..i]).store, End(cfg, s, es[..i + 1]).store)
      {
        if i < last {
          assert es[..last][..i] == es[..i] && es[..last][..i + 1] == es[..i + 1];
        } else {
          assert es[..i + 1] == es;
        }
      }
    }
  }
}
