/** The generated deep copies of the API types. Maps, slices and pointed-to structs live on the heap; structs are
    values that hold references to them. A copy must have the deep value of its original and reach only objects of
    its own. */
module DeepCopy {
  import opened Basics

  /** A heap cell: what a Go pointer or map refers to. */
  class Ref<T> {
    var v: T
    constructor (v: T)
      ensures this.v == v
    {
      this.v := v;
    }
  }

  type StringMap = map<string, string>

  // ---- the structs, as the source lays them out --------------------------------------------

  datatype PluginSpec = PluginSpec(id: string, version: string)
  datatype CascConfigSpec = CascConfigSpec(configString: string, configMap: string)
  datatype ServiceSpec =
    ServiceSpec(name: string, serviceType: string, nodePort: int, annotations: Ref?<StringMap>)
  datatype StorageSpec = StorageSpec(jobsPvc: string, jobsPvcSpec: Ref?<string>)

  /** `affinity`, `resources`, the claim specification and each toleration are opaque values. */
  datatype Spec = Spec(
    image: string,
    imagePullPolicy: string,
    env: Ref?<StringMap>,
    plugins: array?<PluginSpec>,
    cascConfig: Ref?<CascConfigSpec>,
    cascSecret: string,
    groovySecret: string,
    annotations: Ref?<StringMap>,
    adminSecret: string,
    service: Ref?<ServiceSpec>,
    serviceAccount: string,
    storage: Ref?<StorageSpec>,
    affinity: string,
    dnsPolicy: string,
    nodeSelector: Ref?<StringMap>,
    nodeName: string,
    imagePullSecrets: array?<string>,
    tolerations: array?<string>,
    resources: string)

  datatype Status = Status(setupSecret: string, phase: string)
  datatype ObjectMeta = ObjectMeta(fields: string, labels: Ref?<StringMap>, annotations: Ref?<StringMap>)
  datatype JenkinsInstance = JenkinsInstance(typeMeta: string, objectMeta: ObjectMeta, spec: Spec, status: Status)
  datatype JenkinsInstanceList =
    JenkinsInstanceList(typeMeta: string, listMeta: string, items: array?<JenkinsInstance>)

  // ---- deep values -------------------------------------------------------------------------

  datatype ServiceV = ServiceV(flat: ServiceSpec, annotations: Option<StringMap>)
  datatype StorageV = StorageV(flat: StorageSpec, jobsPvcSpec: Option<string>)

  /** A spec with its references erased, beside what those refer to that hold no further references. */
  datatype FlatV = FlatV(
    erased: Spec,
    env: Option<StringMap>,
    plugins: Option<seq<PluginSpec>>,
    cascConfig: Option<CascConfigSpec>,
    annotations: Option<StringMap>,
    nodeSelector: Option<StringMap>,
    imagePullSecrets: Option<seq<string>>,
    tolerations: Option<seq<string>>)

  datatype SpecV = SpecV(flat: FlatV, service: Option<ServiceV>, storage: Option<StorageV>)

  datatype InstanceV = InstanceV(
    typeMeta: string,
    fields: string,
    labels: Option<StringMap>,
    annotations: Option<StringMap>,
    spec: SpecV,
    status: Status)

  datatype ListV = ListV(typeMeta: string, listMeta: string, items: Option<seq<InstanceV>>)

  ghost function CellV<T>(r: Ref?<T>): Option<T>
    reads r
  {
    if r == null then None else Some(r.v)
  }

  ghost function SliceV<T>(a: array?<T>): Option<seq<T>>
    reads a
  {
    if a == null then None else Some(a[..])
  }

  ghost function ServiceVal(s: ServiceSpec): ServiceV
    reads ServiceReach(s)
  {
    ServiceV(s.(annotations := null), CellV(s.annotations))
  }

  ghost function StorageVal(s: StorageSpec): StorageV
    reads StorageReach(s)
  {
    StorageV(s.(jobsPvcSpec := null), CellV(s.jobsPvcSpec))
  }

  ghost function ServicePtrVal(s: Ref?<ServiceSpec>): Option<ServiceV>
    reads ServicePtrReach(s)
  {
    if s == null then None else Some(ServiceVal(s.v))
  }

  ghost function StoragePtrVal(s: Ref?<StorageSpec>): Option<StorageV>
    reads StoragePtrReach(s)
  {
    if s == null then None else Some(StorageVal(s.v))
  }

  ghost function FlatVal(s: Spec): FlatV
    reads FlatReach(s)
  {
    FlatV(
      s.(env := null, plugins := null, cascConfig := null, annotations := null, service := null, storage := null,
         nodeSelector := null, imagePullSecrets := null, tolerations := null),
      CellV(s.env),
      SliceV(s.plugins),
      CellV(s.cascConfig),
      CellV(s.annotations),
      CellV(s.nodeSelector),
      SliceV(s.imagePullSecrets),
      SliceV(s.tolerations))
  }

  ghost function SpecVal(s: Spec): SpecV
    reads SpecReach(s)
  {
    SpecV(FlatVal(s), ServicePtrVal(s.service), StoragePtrVal(s.storage))
  }

  ghost function InstanceVal(x: JenkinsInstance): InstanceV
    reads InstanceCells(x), InstanceReach(x)
  {
    InstanceV(x.typeMeta, x.objectMeta.fields, CellV(x.objectMeta.labels), CellV(x.objectMeta.annotations),
              SpecVal(x.spec), x.status)
  }

  ghost function ItemsVal(items: seq<JenkinsInstance>): seq<InstanceV>
    reads ItemsCells(items), ItemsReach(items)
  {
    if |items| == 0 then []
    else
      var last := |items| - 1;
      ItemsVal(items[..last]) + [InstanceVal(items[last])]
  }

  ghost function ListVal(l: JenkinsInstanceList): ListV
    reads l.items, if l.items == null then {} else ItemsCells(l.items[..])
    reads ListReach(l)
  {
    ListV(l.typeMeta, l.listMeta, if l.items == null then None else Some(ItemsVal(l.items[..])))
  }

  // ---- what a struct reaches ---------------------------------------------------------------

  ghost function Own(o: object?): set<object>
  {
    if o == null then {} else {o}
  }

  ghost function ServiceReach(s: ServiceSpec): set<object>
  {
    Own(s.annotations)
  }

  ghost function StorageReach(s: StorageSpec): set<object>
  {
    Own(s.jobsPvcSpec)
  }

  ghost function ServicePtrReach(s: Ref?<ServiceSpec>): set<object>
    reads s
  {
    if s == null then {} else {s} + ServiceReach(s.v)
  }

  ghost function StoragePtrReach(s: Ref?<StorageSpec>): set<object>
    reads s
  {
    if s == null then {} else {s} + StorageReach(s.v)
  }

  ghost function FlatReach(s: Spec): set<object>
  {
    Own(s.env) + Own(s.plugins) + Own(s.cascConfig) + Own(s.annotations) + Own(s.nodeSelector)
    + Own(s.imagePullSecrets) + Own(s.tolerations)
  }

  ghost function SpecReach(s: Spec): set<object>
    reads s.service, s.storage
  {
    FlatReach(s) + ServicePtrReach(s.service) + StoragePtrReach(s.storage)
  }

  /** The cells through which an instance reaches further. */
  ghost function InstanceCells(x: JenkinsInstance): set<object>
  {
    Own(x.spec.service) + Own(x.spec.storage)
  }

  ghost function InstanceReach(x: JenkinsInstance): set<object>
    reads InstanceCells(x)
  {
    Own(x.objectMeta.labels) + Own(x.objectMeta.annotations) + SpecReach(x.spec)
  }

  ghost function ItemsCells(items: seq<JenkinsInstance>): set<object>
  {
    if |items| == 0 then {}
    else
      var last := |items| - 1;
      ItemsCells(items[..last]) + InstanceCells(items[last])
  }

  ghost function ItemsReach(items: seq<JenkinsInstance>): set<object>
    reads ItemsCells(items)
  {
    if |items| == 0 then {}
    else
      var last := |items| - 1;
      ItemsReach(items[..last]) + InstanceReach(items[last])
  }

  /** No two of these instances reach a common object. */
  ghost predicate Apart(items: seq<JenkinsInstance>)
    reads ItemsCells(items)
  {
    |items| > 0 ==>
      var last := |items| - 1;
      Apart(items[..last]) && ItemsReach(items[..last]) !! InstanceReach(items[last])
  }

  ghost predicate ListApart(l: JenkinsInstanceList)
    reads l.items, if l.items == null then {} else ItemsCells(l.items[..])
  {
    l.items != null ==> Apart(l.items[..])
  }

  ghost function ListReach(l: JenkinsInstanceList): set<object>
    reads l.items, if l.items == null then {} else ItemsCells(l.items[..])
  {
    if l.items == null then {} else {l.items} + ItemsReach(l.items[..])
  }

  // ---- the copies --------------------------------------------------------------------------

  /** A nil map stays nil; any other is copied key by key. */
  method CopyMap(m: Ref?<StringMap>) returns (out: Ref?<StringMap>)
    ensures CellV(out) == CellV(m) && fresh(Own(out))
  {
    if m == null {
      return null;
    }
    var copied := new Ref(map[]);
    var rest := m.v.Keys;
    while rest != {}
      invariant fresh(copied) && rest <= m.v.Keys
      invariant copied.v == m.v - rest
      decreases |rest|
    {
      var key :| key in rest;
      copied.v := copied.v[key := m.v[key]];
      rest := rest - {key};
    }
    assert copied.v == m.v;
    return copied;
  }

  /** `make` and `copy`, unless the slice is nil. */
  method CopySlice<T>(a: array?<T>) returns (out: array?<T>)
    ensures SliceV(out) == SliceV(a) && fresh(Own(out))
  {
    if a == null {
      return null;
    }
    out := new T[a.Length](i requires 0 <= i < a.Length reads a => a[i]);
    assert out[..] == a[..];
  }

  /** A pointer to a struct without references. */
  method CopyCell<T>(r: Ref?<T>) returns (out: Ref?<T>)
    ensures CellV(out) == CellV(r) && fresh(Own(out))
  {
    if r == null {
      return null;
    }
    out := new Ref(r.v);
  }

  method ServiceDeepCopyInto(s: ServiceSpec) returns (out: ServiceSpec)
    ensures ServiceVal(out) == ServiceVal(s) && fresh(ServiceReach(out))
  {
    var annotations := CopyMap(s.annotations);
    out := s.(annotations := annotations);
  }

  /** ServiceSpec.DeepCopy. */
  method ServiceDeepCopy(s: Ref?<ServiceSpec>) returns (out: Ref?<ServiceSpec>)
    ensures ServicePtrVal(out) == ServicePtrVal(s) && fresh(ServicePtrReach(out))
  {
    if s == null {
      return null;
    }
    var copied := ServiceDeepCopyInto(s.v);
    out := new Ref(copied);
  }

  method StorageDeepCopyInto(s: StorageSpec) returns (out: StorageSpec)
    ensures StorageVal(out) == StorageVal(s) && fresh(StorageReach(out))
  {
    var claim := CopyCell(s.jobsPvcSpec);
    out := s.(jobsPvcSpec := claim);
  }

  /** StorageSpec.DeepCopy. */
  method StorageDeepCopy(s: Ref?<StorageSpec>) returns (out: Ref?<StorageSpec>)
    ensures StoragePtrVal(out) == StoragePtrVal(s) && fresh(StoragePtrReach(out))
  {
    if s == null {
      return null;
    }
    var copied := StorageDeepCopyInto(s.v);
    out := new Ref(copied);
  }

  /** Nobody has written to these objects. */
  twostate predicate Untouched(objects: set<object>)
    reads objects
  {
    forall o :: o in objects ==> unchanged(o)
  }

  lemma OwnIsAllocated(o: object?)
    ensures forall x :: x in Own(o) ==> allocated(x)
  {
  }

  lemma PtrReachIsAllocated(service: Ref?<ServiceSpec>, storage: Ref?<StorageSpec>)
    ensures forall o :: o in ServicePtrReach(service) ==> allocated(o)
    ensures forall o :: o in StoragePtrReach(storage) ==> allocated(o)
  {
  }

  twostate lemma ServiceKept(s: Ref?<ServiceSpec>)
    requires Untouched(old(ServicePtrReach(s)))
    ensures ServicePtrVal(s) == old(ServicePtrVal(s)) && ServicePtrReach(s) == old(ServicePtrReach(s))
  {
  }

  twostate lemma StorageKept(s: Ref?<StorageSpec>)
    requires Untouched(old(StoragePtrReach(s)))
    ensures StoragePtrVal(s) == old(StoragePtrVal(s)) && StoragePtrReach(s) == old(StoragePtrReach(s))
  {
  }

  lemma FlatReachIsAllocated(s: Spec)
    ensures forall o :: o in FlatReach(s) ==> allocated(o)
  {
    hide Own;
    OwnIsAllocated(s.env);
    OwnIsAllocated(s.plugins);
    OwnIsAllocated(s.cascConfig);
    OwnIsAllocated(s.annotations);
    OwnIsAllocated(s.nodeSelector);
    OwnIsAllocated(s.imagePullSecrets);
    OwnIsAllocated(s.tolerations);
  }

  twostate lemma FlatKept(s: Spec)
    requires Untouched(FlatReach(s))
    ensures FlatVal(s) == old(FlatVal(s))
  {
    hide Own, CellV, SliceV;
  }

  /** The plain part of a spec does not depend on its service and storage. */
  lemma FlatIgnores(s: Spec, service: Ref?<ServiceSpec>, storage: Ref?<StorageSpec>)
    ensures var t := s.(service := service, storage := storage);
            FlatVal(t) == FlatVal(s) && FlatReach(t) == FlatReach(s)
  {
    hide Own, CellV, SliceV;
  }

  lemma SpecReachIsAllocated(s: Spec)
    ensures forall o :: o in SpecReach(s) ==> allocated(o)
  {
    hide FlatReach, ServicePtrReach, StoragePtrReach;
    FlatReachIsAllocated(s);
    PtrReachIsAllocated(s.service, s.storage);
  }

  /** The maps, slices and plain structs of a spec. */
  method FlatDeepCopyInto(s: Spec) returns (out: Spec)
    ensures FlatVal(out) == FlatVal(s) && fresh(FlatReach(out))
    ensures out.service == s.service && out.storage == s.storage
  {
    hide CellV, SliceV, Own;
    out := s;
    var env := CopyMap(s.env);
    out := out.(env := env);
    var plugins := CopySlice(s.plugins);
    out := out.(plugins := plugins);
    var cascConfig := CopyCell(s.cascConfig);
    out := out.(cascConfig := cascConfig);
    var annotations := CopyMap(s.annotations);
    out := out.(annotations := annotations);
    var nodeSelector := CopyMap(s.nodeSelector);
    out := out.(nodeSelector := nodeSelector);
    var imagePullSecrets := CopySlice(s.imagePullSecrets);
    out := out.(imagePullSecrets := imagePullSecrets);
    var tolerations := CopySlice(s.tolerations);
    out := out.(tolerations := tolerations);
  }

  method SpecDeepCopyInto(s: Spec) returns (out: Spec)
    ensures SpecVal(out) == SpecVal(s) && fresh(SpecReach(out))
  {
    hide FlatVal, FlatReach, ServicePtrVal, ServicePtrReach, StoragePtrVal, StoragePtrReach;
    FlatReachIsAllocated(s);
    PtrReachIsAllocated(s.service, s.storage);
    out := FlatDeepCopyInto(s);
    FlatReachIsAllocated(out);
    label AfterFlat:
    FlatKept(s);
    ServiceKept(s.service);
    var service := ServiceDeepCopy(s.service);
    PtrReachIsAllocated(service, null);
    label AfterService:
    StorageKept(s.storage);
    var storage := StorageDeepCopy(s.storage);
    FlatKept@AfterFlat(out);
    FlatIgnores(out, service, storage);
    out := out.(service := service, storage := storage);
    FlatKept(s);
    ServiceKept(s.service);
    StorageKept(s.storage);
    ServiceKept@AfterService(service);
  }

  /** The library's copy of the metadata, of which the two maps matter here. */
  method MetaDeepCopyInto(m: ObjectMeta) returns (out: ObjectMeta)
    ensures out.fields == m.fields
    ensures CellV(out.labels) == CellV(m.labels) && CellV(out.annotations) == CellV(m.annotations)
    ensures fresh(Own(out.labels) + Own(out.annotations))
  {
    var labels := CopyMap(m.labels);
    var annotations := CopyMap(m.annotations);
    out := m.(labels := labels, annotations := annotations);
  }

  method InstanceDeepCopyInto(x: JenkinsInstance) returns (out: JenkinsInstance)
    ensures InstanceVal(out) == InstanceVal(x) && fresh(InstanceReach(out))
  {
    hide CellV, Own, SpecVal, SpecReach;
    var meta := MetaDeepCopyInto(x.objectMeta);
    var spec := SpecDeepCopyInto(x.spec);
    out := x.(objectMeta := meta, spec := spec);
  }

  lemma InstanceReachIsAllocated(x: JenkinsInstance)
    ensures forall o :: o in InstanceReach(x) ==> allocated(o)
  {
    hide Own, SpecReach;
    OwnIsAllocated(x.objectMeta.labels);
    OwnIsAllocated(x.objectMeta.annotations);
    SpecReachIsAllocated(x.spec);
  }

  lemma CellsAreReached(x: JenkinsInstance)
    ensures InstanceCells(x) <= InstanceReach(x)
  {
    hide ServiceReach, StorageReach;
  }

  lemma {:induction false} ItemsReachIsAllocated(items: seq<JenkinsInstance>)
    ensures forall o :: o in ItemsReach(items) ==> allocated(o)
    ensures ItemsCells(items) <= ItemsReach(items)
    ensures |ItemsVal(items)| == |items|
    ensures forall i :: 0 <= i < |items| ==> ItemsVal(items)[i] == InstanceVal(items[i])
    ensures forall i :: 0 <= i < |items| ==> InstanceReach(items[i]) <= ItemsReach(items)
  {
    hide InstanceReach, InstanceCells, InstanceVal;
    if |items| > 0 {
      ItemsReachIsAllocated(items[..|items| - 1]);
      InstanceReachIsAllocated(items[|items| - 1]);
      CellsAreReached(items[|items| - 1]);
    }
  }

  twostate lemma CellsWereReached(x: JenkinsInstance)
    ensures InstanceCells(x) <= old(InstanceReach(x))
  {
    hide ServiceReach, StorageReach;
  }

  twostate lemma InstanceKept(x: JenkinsInstance)
    requires Untouched(old(InstanceReach(x)))
    ensures InstanceVal(x) == old(InstanceVal(x)) && InstanceReach(x) == old(InstanceReach(x))
  {
    hide SpecReach, SpecVal, Own;
    CellsWereReached(x);
  }

  /** Whatever happens elsewhere, a list whose reach nobody writes to keeps its value and its reach. */
  twostate lemma {:induction false} ItemsKept(items: seq<JenkinsInstance>)
    requires Untouched(old(ItemsReach(items)))
    ensures ItemsVal(items) == old(ItemsVal(items)) && ItemsReach(items) == old(ItemsReach(items))
    ensures Apart(items) == old(Apart(items))
  {
    hide InstanceReach, InstanceCells, InstanceVal;
    if |items| > 0 {
      ItemsKept(items[..|items| - 1]);
      InstanceKept(items[|items| - 1]);
    }
  }

  lemma ItemsNext(items: seq<JenkinsInstance>, x: JenkinsInstance)
    ensures ItemsReach(items + [x]) == ItemsReach(items) + InstanceReach(x)
    ensures ItemsVal(items + [x]) == ItemsVal(items) + [InstanceVal(x)]
    ensures Apart(items + [x]) <==> Apart(items) && ItemsReach(items) !! InstanceReach(x)
  {
    hide InstanceReach, InstanceVal;
    assert (items + [x])[..|items|] == items;
  }

  method ItemsDeepCopy(a: array<JenkinsInstance>) returns (items: array<JenkinsInstance>)
    ensures fresh(items) && fresh(ItemsReach(items[..]))
    ensures ItemsVal(items[..]) == ItemsVal(a[..]) && Apart(items[..])
  {
    hide ItemsReach, ItemsCells, ItemsVal, Apart, InstanceReach, InstanceCells, InstanceVal;
    ghost var from := a[..];
    ghost var v := ItemsVal(from);
    ItemsReachIsAllocated(from);
    items := new JenkinsInstance[a.Length];
    NoItems();
    assert items[..0] == [] && v[..0] == [];
    for i := 0 to a.Length
      invariant fresh(items) && fresh(ItemsReach(items[..i])) && items !in ItemsReach(items[..i])
      invariant ItemsVal(items[..i]) == v[..i] && Apart(items[..i])
    {
      ghost var done := items[..i];
      ItemsReachIsAllocated(done);
      label Before:
      var copied := InstanceDeepCopyInto(a[i]);
      InstanceKept(from[i]);
      InstanceReachIsAllocated(copied);
      label Copied:
      items[i] := copied;
      ItemsKept@Before(done);
      InstanceKept@Copied(copied);
      ItemsNext(done, copied);
      assert items[..i + 1] == done + [copied];
      assert v[..i + 1] == v[..i] + [v[i]];
    }
    assert items[..a.Length] == items[..] && v[..a.Length] == v;
    ItemsKept(from);
  }

  lemma NoItems()
    ensures ItemsReach([]) == {} && ItemsVal([]) == [] && Apart([])
  {
  }

  lemma ListReachIsAllocated(l: JenkinsInstanceList)
    ensures forall o :: o in ListReach(l) ==> allocated(o)
  {
    hide ItemsReach, ItemsCells, ItemsVal;
    if l.items != null {
      ItemsReachIsAllocated(l.items[..]);
    }
  }

  twostate lemma ListKept(l: JenkinsInstanceList)
    requires Untouched(old(ListReach(l)))
    ensures ListVal(l) == old(ListVal(l)) && ListReach(l) == old(ListReach(l))
    ensures ListApart(l) == old(ListApart(l))
  {
    hide ItemsReach, ItemsCells, ItemsVal, Apart;
    if l.items != null {
      assert l.items in old(ListReach(l));
      assert forall i :: 0 <= i < l.items.Length ==> l.items[i] == old(l.items[i]);
      assert l.items[..] == old(l.items[..]);
      ItemsKept(old(l.items[..]));
    }
  }

  method ListDeepCopyInto(l: JenkinsInstanceList) returns (out: JenkinsInstanceList)
    ensures ListVal(out) == old(ListVal(l)) && fresh(ListReach(out)) && ListApart(out)
  {
    hide ItemsReach, ItemsCells, ItemsVal, Apart;
    ListReachIsAllocated(l);
    out := l;
    if l.items != null {
      var items := ItemsDeepCopy(l.items);
      out := out.(items := items);
    }
    ListKept(l);
  }

  ghost function InstancePtrVal(p: Ref?<JenkinsInstance>): Option<InstanceV>
    reads p, if p == null then {} else InstanceCells(p.v)
    reads InstancePtrReach(p)
  {
    if p == null then None else Some(InstanceVal(p.v))
  }

  ghost function InstancePtrReach(p: Ref?<JenkinsInstance>): set<object>
    reads p, if p == null then {} else InstanceCells(p.v)
  {
    if p == null then {} else {p} + InstanceReach(p.v)
  }

  ghost function ListPtrVal(p: Ref?<JenkinsInstanceList>): Option<ListV>
    reads p, ListPtrCells(p), ListPtrReach(p)
  {
    if p == null then None else Some(ListVal(p.v))
  }

  ghost function ListPtrCells(p: Ref?<JenkinsInstanceList>): set<object>
    reads p, if p == null then null else p.v.items
  {
    if p == null || p.v.items == null then {} else {p.v.items} + ItemsCells(p.v.items[..])
  }

  ghost function ListPtrReach(p: Ref?<JenkinsInstanceList>): set<object>
    reads p, ListPtrCells(p)
  {
    if p == null then {} else {p} + ListReach(p.v)
  }

  lemma AtInstance(p: Ref<JenkinsInstance>)
    ensures InstancePtrVal(p) == Some(InstanceVal(p.v)) && InstancePtrReach(p) == {p} + InstanceReach(p.v)
  {
    hide InstanceVal, InstanceReach;
  }

  /** JenkinsInstance.DeepCopy. */
  method InstanceDeepCopy(p: Ref?<JenkinsInstance>) returns (out: Ref?<JenkinsInstance>)
    ensures InstancePtrVal(out) == InstancePtrVal(p) && fresh(InstancePtrReach(out))
  {
    if p == null {
      return null;
    }
    hide InstanceVal, InstanceReach, InstanceCells, InstancePtrVal, InstancePtrReach;
    InstanceReachIsAllocated(p.v);
    var copied := InstanceDeepCopyInto(p.v);
    InstanceReachIsAllocated(copied);
    label Copied:
    InstanceKept(p.v);
    out := new Ref(copied);
    InstanceKept(p.v);
    InstanceKept@Copied(copied);
    AtInstance(p);
    AtInstance(out);
  }

  lemma AtPointer(p: Ref<JenkinsInstanceList>)
    ensures ListPtrVal(p) == Some(ListVal(p.v)) && ListPtrReach(p) == {p} + ListReach(p.v)
  {
    hide ListVal, ListReach, ItemsCells;
  }

  lemma PtrIsAllocated(p: Ref?<JenkinsInstanceList>)
    ensures forall o :: o in ListPtrReach(p) ==> allocated(o)
  {
    hide ListReach, ItemsCells;
    if p != null {
      ListReachIsAllocated(p.v);
    }
  }

  /** JenkinsInstanceList.DeepCopy: an equal list that reaches only new objects, and whose instances reach nothing in
      common, even where those of the original do. */
  method ListDeepCopy(p: Ref?<JenkinsInstanceList>) returns (out: Ref?<JenkinsInstanceList>)
    ensures ListPtrVal(out) == old(ListPtrVal(p)) && fresh(ListPtrReach(out))
    ensures ListPtrReach(out) !! old(ListPtrReach(p))
    ensures out != null ==> ListApart(out.v)
  {
    PtrIsAllocated(p);
    if p == null {
      return null;
    }
    hide ListVal, ListReach, ListApart, ItemsCells, ItemsReach, ItemsVal, ListPtrVal, ListPtrReach, ListPtrCells;
    AtPointer(p);
    var copied := ListDeepCopyInto(p.v);
    ListReachIsAllocated(copied);
    label Copied:
    out := new Ref(copied);
    ListKept@Copied(copied);
    AtPointer(out);
  }

  /** Writing to what a copy reaches, and to nothing else the original reaches, leaves the original as it was; and
      the other way round. */
  twostate lemma MutationStaysApart(original: Ref?<JenkinsInstanceList>, copied: Ref?<JenkinsInstanceList>)
    requires old(ListPtrReach(copied)) !! old(ListPtrReach(original))
    requires forall o :: o in old(ListPtrReach(original)) && o !in old(ListPtrReach(copied)) ==>
               old(allocated(o)) && unchanged(o)
    ensures ListPtrVal(original) == old(ListPtrVal(original))
    ensures ListPtrReach(original) == old(ListPtrReach(original))
  {
    hide ListVal, ListReach, ItemsCells;
    if original != null {
      assert original in old(ListPtrReach(original));
      ListKept(old(original.v));
    }
  }

  // ---- what an equal deep value says -------------------------------------------------------

  /** The two references agree: both nil, or equal at what they refer to. */
  ghost predicate SameCell<T>(a: Ref?<T>, b: Ref?<T>)
    reads a, b
  {
    if a == null || b == null then a == null && b == null else a.v == b.v
  }

  ghost predicate SameSlice<T>(a: array?<T>, b: array?<T>)
    reads a, b
  {
    if a == null || b == null then a == null && b == null else a[..] == b[..]
  }

  ghost predicate SameService(a: Ref?<ServiceSpec>, b: Ref?<ServiceSpec>)
    reads ServicePtrReach(a), ServicePtrReach(b)
  {
    if a == null || b == null then a == null && b == null
    else
      && a.v.name == b.v.name && a.v.serviceType == b.v.serviceType && a.v.nodePort == b.v.nodePort
      && SameCell(a.v.annotations, b.v.annotations)
  }

  ghost predicate SameStorage(a: Ref?<StorageSpec>, b: Ref?<StorageSpec>)
    reads StoragePtrReach(a), StoragePtrReach(b)
  {
    if a == null || b == null then a == null && b == null
    else a.v.jobsPvc == b.v.jobsPvc && SameCell(a.v.jobsPvcSpec, b.v.jobsPvcSpec)
  }

  /** Equal in every field that holds no reference. */
  ghost predicate SamePlain(a: Spec, b: Spec)
  {
    && a.image == b.image && a.imagePullPolicy == b.imagePullPolicy && a.cascSecret == b.cascSecret
    && a.groovySecret == b.groovySecret && a.adminSecret == b.adminSecret && a.serviceAccount == b.serviceAccount
    && a.affinity == b.affinity && a.dnsPolicy == b.dnsPolicy && a.nodeName == b.nodeName
    && a.resources == b.resources
  }

  /** Equal in every map and in the cascconfig. */
  ghost predicate SameCells(a: Spec, b: Spec)
    reads FlatReach(a), FlatReach(b)
  {
    && SameCell(a.env, b.env) && SameCell(a.cascConfig, b.cascConfig)
    && SameCell(a.annotations, b.annotations) && SameCell(a.nodeSelector, b.nodeSelector)
  }

  ghost predicate SameSlices(a: Spec, b: Spec)
    reads FlatReach(a), FlatReach(b)
  {
    && SameSlice(a.plugins, b.plugins) && SameSlice(a.imagePullSecrets, b.imagePullSecrets)
    && SameSlice(a.tolerations, b.tolerations)
  }

  /** Equal in every field, references followed to the end. */
  ghost predicate SameSpec(a: Spec, b: Spec)
    reads SpecReach(a), SpecReach(b)
  {
    && SamePlain(a, b) && SameCells(a, b) && SameSlices(a, b)
    && SameService(a.service, b.service) && SameStorage(a.storage, b.storage)
  }

  ghost predicate SameInstance(a: JenkinsInstance, b: JenkinsInstance)
    reads InstanceCells(a), InstanceReach(a), InstanceCells(b), InstanceReach(b)
  {
    && a.typeMeta == b.typeMeta && a.objectMeta.fields == b.objectMeta.fields
    && SameCell(a.objectMeta.labels, b.objectMeta.labels)
    && SameCell(a.objectMeta.annotations, b.objectMeta.annotations)
    && SameSpec(a.spec, b.spec) && a.status == b.status
  }

  lemma FlatSays(a: Spec, b: Spec)
    ensures FlatVal(a) == FlatVal(b) <==> SamePlain(a, b) && SameCells(a, b) && SameSlices(a, b)
  {
    hide CellV, SliceV, SameCell, SameSlice;
    CellsSay(a.env, b.env);
    CellsSay(a.cascConfig, b.cascConfig);
    CellsSay(a.annotations, b.annotations);
    CellsSay(a.nodeSelector, b.nodeSelector);
    SlicesSay(a.plugins, b.plugins);
    SlicesSay(a.imagePullSecrets, b.imagePullSecrets);
    SlicesSay(a.tolerations, b.tolerations);
  }

  lemma CellsSay<T>(a: Ref?<T>, b: Ref?<T>)
    ensures CellV(a) == CellV(b) <==> SameCell(a, b)
  {
  }

  lemma SlicesSay<T>(a: array?<T>, b: array?<T>)
    ensures SliceV(a) == SliceV(b) <==> SameSlice(a, b)
  {
  }

  lemma PointersSay(a: Spec, b: Spec)
    ensures ServicePtrVal(a.service) == ServicePtrVal(b.service) <==> SameService(a.service, b.service)
    ensures StoragePtrVal(a.storage) == StoragePtrVal(b.storage) <==> SameStorage(a.storage, b.storage)
  {
  }

  lemma SpecValSays(a: Spec, b: Spec)
    ensures SpecVal(a) == SpecVal(b) <==> SameSpec(a, b)
  {
    hide ServicePtrVal, StoragePtrVal, SameService, SameStorage, FlatVal, SamePlain, SameCells, SameSlices;
    FlatSays(a, b);
    PointersSay(a, b);
  }

  /** Two instances have one deep value exactly when they agree in every field, references followed to the end. */
  lemma InstanceValSays(a: JenkinsInstance, b: JenkinsInstance)
    ensures InstanceVal(a) == InstanceVal(b) <==> SameInstance(a, b)
  {
    hide SpecVal, SameSpec;
    SpecValSays(a.spec, b.spec);
  }

  /** And two lists when their items do, one by one. */
  lemma ListValSays(a: JenkinsInstanceList, b: JenkinsInstanceList)
    ensures ListVal(a) == ListVal(b) <==>
              && a.typeMeta == b.typeMeta && a.listMeta == b.listMeta
              && (if a.items == null || b.items == null then a.items == null && b.items == null
                  else
                    && a.items.Length == b.items.Length
                    && forall i :: 0 <= i < a.items.Length ==> SameInstance(a.items[i], b.items[i]))
  {
    hide InstanceVal, SameInstance, ItemsVal, ItemsReach, ItemsCells;
    if a.items != null && b.items != null {
      var x, y := a.items[..], b.items[..];
      ItemsReachIsAllocated(x);
      ItemsReachIsAllocated(y);
      forall i | 0 <= i < |x| && i < |y| ensures InstanceVal(x[i]) == InstanceVal(y[i]) <==> SameInstance(x[i], y[i]) {
        InstanceValSays(x[i], y[i]);
      }
      if |x| == |y| && forall i :: 0 <= i < |x| ==> SameInstance(a.items[i], b.items[i]) {
        assert ItemsVal(x) == ItemsVal(y);
      }
    }
  }
}
