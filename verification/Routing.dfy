/** Event routing: which reconcile requests a ConfigMap event yields, and which events the watches admit. */
module Routing {
  import opened Basics
  import opened Text
  import opened Api

  // ---- from ConfigMap events to requests ---------------------------------------------------

  /** A listed instance: its namespaced name and its object. */
  datatype ListItem = ListItem(name: Name, inst: Instance)

  /** The instance names a config map of this name in its cascconfig. */
  predicate Refers(l: ListItem, configMap: string)
  {
    l.inst.body.spec.cascConfig.Some? && l.inst.body.spec.cascConfig.value.configMap == configMap
  }

  /** Positions of the listed instances that refer to the map, in list order. */
  function Referring(list: seq<ListItem>, configMap: string): seq<nat>
  {
    if |list| == 0 then []
    else
      var last := |list| - 1;
      Referring(list[..last], configMap) + if Refers(list[last], configMap) then [last] else []
  }

  /** The request of every referring instance, in list order; the nil dereference when some instance has no
      cascconfig; no request when the list could not be read. */
  method ToRequests(list: Result<seq<ListItem>>, configMap: string) returns (keys: Result<seq<Name>>)
    ensures list.Err? ==> keys == Ok([])
    ensures list.Ok? ==>
              (keys.Err? <==> exists i :: 0 <= i < |list.value| && list.value[i].inst.body.spec.cascConfig.None?)
    ensures list.Ok? && keys.Ok? ==>
              && |keys.value| == |Referring(list.value, configMap)|
              && forall j :: 0 <= j < |keys.value| ==>
                   && Referring(list.value, configMap)[j] < |list.value|
                   && keys.value[j] == list.value[Referring(list.value, configMap)[j]].name
  {
    if list.Err? {
      return Ok([]);
    }
    var items := list.value;
    var found := [];
    assert items[..0] == [];
    for i := 0 to |items|
      invariant forall j :: 0 <= j < i ==> items[j].inst.body.spec.cascConfig.Some?
      invariant |found| == |Referring(items[..i], configMap)|
      invariant forall j :: 0 <= j < |found| ==>
                  && Referring(items[..i], configMap)[j] < i
                  && found[j] == items[Referring(items[..i], configMap)[j]].name
    {
      assert items[..i + 1][..i] == items[..i];
      if items[i].inst.body.spec.cascConfig.None? {
        return Err;
      }
      if items[i].inst.body.spec.cascConfig.value.configMap == configMap {
        found := found + [items[i].name];
      }
    }
    assert items[..|items|] == items;
    return Ok(found);
  }

  /** No instance is missed and none asked for twice: the positions are exactly those of the instances whose cascconfig
      names the map, increasing. */
  lemma {:induction false} ReferringExactly(list: seq<ListItem>, configMap: string)
    ensures var found := Referring(list, configMap);
            && (forall j, k :: 0 <= j < k < |found| ==> found[j] < found[k])
            && (forall i :: i in found <==>
                  && 0 <= i < |list|
                  && var casc := list[i].inst.body.spec.cascConfig; casc.Some? && casc.value.configMap == configMap)
  {
    if |list| > 0 {
      var last := |list| - 1;
      ReferringExactly(list[..last], configMap);
      var found := Referring(list[..last], configMap);
      forall j | 0 <= j < |found| ensures found[j] < last {
        assert found[j] in found;
      }
    }
  }

  // ---- the namespace predicate -------------------------------------------------------------

  /** What the filters look at. `meta` is the namespace of the event's metadata, of the new metadata for an update;
      None when that is nil. `others` says that the other objects and metadata of an update are there. */
  datatype Event =
    | CreateEvent(meta: Option<string>)
    | DeleteEvent(meta: Option<string>)
    | GenericEvent(meta: Option<string>)
    | UpdateEvent(meta: Option<string>, others: bool, oldVersion: string, newVersion: string)

  /** ResourceVersionChangedPredicate: everything but updates that are malformed or change nothing. */
  predicate VersionChanged(e: Event)
  {
    e.UpdateEvent? ==> e.meta.Some? && e.others && e.oldVersion != e.newVersion
  }

  datatype Answer = Admitted | Refused | NilDereference

  datatype Predicate = Default | Namespaced(namespaces: seq<string>)
  {
    predicate Contains(subject: string)
      requires Namespaced?
    {
      exists i :: 0 <= i < |namespaces| && namespaces[i] == subject
    }

    /** The filters ask for the namespace before they ask the default predicate. */
    function Filter(e: Event): Answer
    {
      if Namespaced? && e.meta.None? then NilDereference
      else if Namespaced? && !Contains(e.meta.value) then Refused
      else if VersionChanged(e) then Admitted
      else Refused
    }
  }

  function NewPredicate(namespaces: string): Predicate
  {
    if namespaces == "" then Default else Namespaced(Split(namespaces, ','))
  }

  /** The search of `contains`, with its early return. */
  method ContainsNamespace(namespaces: seq<string>, subject: string) returns (found: bool)
    ensures found == Namespaced(namespaces).Contains(subject)
  {
    for i := 0 to |namespaces|
      invariant forall j :: 0 <= j < i ==> namespaces[j] != subject
    {
      if namespaces[i] == subject {
        return true;
      }
    }
    return false;
  }

  /** A watch over a comma-joined list of comma-free namespaces admits the changed events of exactly these
      namespaces and panics on exactly the events without metadata, except when the joined text is empty: then it
      admits the changed events of every namespace and never panics. */
  lemma {:induction false} WatchAdmits(namespaces: seq<string>, e: Event)
    requires |namespaces| >= 1 && AllFree(namespaces, ',')
    ensures var answer := NewPredicate(Join(namespaces, ',')).Filter(e);
            && (answer == Admitted <==>
                  && (e.UpdateEvent? ==> e.meta.Some? && e.others && e.oldVersion != e.newVersion)
                  && (namespaces == [""] || (e.meta.Some? && e.meta.value in namespaces)))
            && (answer == NilDereference <==> e.meta.None? && namespaces != [""])
  {
    SplitJoinFree(namespaces, ',');
    var text := Join(namespaces, ',');
    if text == "" {
      assert Split(text, ',') == [""];
    } else {
      assert namespaces != [""];
      assert e.meta.Some? ==> (e.meta.value in namespaces <==> Namespaced(namespaces).Contains(e.meta.value));
    }
  }
}
