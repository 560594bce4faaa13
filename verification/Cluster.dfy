/** The API server: a store of versioned objects with create-if-absent and compare-and-swap update. */
module Cluster {
  import opened Api
  import opened Services

  /** Every write gets a fresh version from `clock`. */
  datatype Store = Store(objs: map<Key, Obj>, clock: nat)

  /** Requests of a client. Probe and Restart go to Jenkins itself, over HTTP. */
  datatype Call =
    | Get(key: Key)
    | Create(key: Key, obj: Obj)
    | Update(key: Key, obj: Obj)
    | UpdateStatus(key: Key, obj: Obj)
    | Probe
    | Restart

  datatype Response = Found(obj: Obj) | NotFound | Done | Failed

  /** What happens to a request on its way: served; refused or lost; served, but the reply lost. */
  datatype Verdict = Normal | Reject | LoseReply

  predicate IsWrite(call: Call)
  {
    call.Create? || call.Update? || call.UpdateStatus?
  }

  /** Create needs the key to be free; updates need the version the client read to be the current one. */
  predicate Accepts(store: Store, call: Call)
  {
    match call
    case Create(key, obj) => key !in store.objs && obj.body.Kind() == key.kind
    case Update(key, obj) =>
      && key in store.objs && obj.body.Kind() == key.kind
      && store.objs[key].meta.version == obj.meta.version
    case UpdateStatus(key, obj) =>
      && key in store.objs && store.objs[key].body.InstanceBody? && obj.body.InstanceBody?
      && store.objs[key].meta.version == obj.meta.version
    case _ => false
  }

  function FilledBody(body: Body, fill: Fill): Body
  {
    if body.ServiceBody? then ServiceBody(Filled(body.service, fill)) else body
  }

  /** The object an accepted write leaves at its key. */
  function Written(store: Store, call: Call, fill: Fill): Obj
    requires Accepts(store, call)
  {
    match call
    case Create(_, obj) => Obj(obj.meta.(version := store.clock), FilledBody(obj.body, fill))
    case Update(key, obj) =>
      Obj(obj.meta.(uid := store.objs[key].meta.uid, version := store.clock), FilledBody(obj.body, fill))
    case UpdateStatus(key, obj) =>
      Obj(store.objs[key].meta.(version := store.clock), store.objs[key].body.(phase := obj.body.phase))
  }

  predicate Lands(store: Store, call: Call, verdict: Verdict)
  {
    verdict != Reject && Accepts(store, call)
  }

  function StoreAfter(store: Store, call: Call, fill: Fill, verdict: Verdict): Store
  {
    if Lands(store, call, verdict)
    then Store(store.objs[call.key := Written(store, call, fill)], store.clock + 1)
    else store
  }

  function Reply(store: Store, call: Call, verdict: Verdict): Response
  {
    if verdict != Normal then Failed
    else
      match call
      case Get(key) =>
        if key !in store.objs then NotFound
        else if store.objs[key].body.Kind() != key.kind then Failed
        else Found(store.objs[key])
      case Probe => Done
      case Restart => Done
      case _ => if Accepts(store, call) then Done else Failed
  }

  /** Every object's version is in the past, so a version names one state of one object. */
  ghost predicate Dated(store: Store)
  {
    forall k :: k in store.objs ==> store.objs[k].meta.version < store.clock
  }

  /** What any other client may do in one step: create, change and delete at will, but every object it
      touches gets a fresh version. */
  predicate Evolves(before: Store, after: Store)
  {
    && before.clock <= after.clock
    && forall k :: k in after.objs ==>
         || (k in before.objs && after.objs[k] == before.objs[k])
         || before.clock <= after.objs[k].meta.version < after.clock
  }

  /** `seen` was at `key` once: if the version there is still the one seen, so is the object. */
  ghost predicate Snapshot(store: Store, key: Key, seen: Obj)
  {
    && seen.meta.version < store.clock
    && (key in store.objs && store.objs[key].meta.version == seen.meta.version ==> store.objs[key] == seen)
  }

  lemma WriteEvolves(store: Store, call: Call, fill: Fill, verdict: Verdict)
    ensures Evolves(store, StoreAfter(store, call, fill, verdict))
    ensures Dated(store) ==> Dated(StoreAfter(store, call, fill, verdict))
  {
  }
}
