/** The embedded assets: a flat index by name and a directory tree over the same assets, the lookups in both, and
    the restoration of a named subtree to disk. */
module Assets {
  import opened Basics
  import opened Text
  import opened Paths

  type Bytes = seq<bv8>

  /** What an asset's generator returns: its bytes, or the error of decoding them. */
  datatype Load = Loaded(bytes: Bytes) | Corrupt

  datatype Tree = Node(func: Option<Load>, children: map<string, Tree>)

  datatype Bundle = Bundle(data: map<string, Load>, tree: Tree)

  const EMPTY := Node(None, map[])

  /** The node at the end of a path, if the path exists. */
  function Walk(t: Tree, path: seq<string>): Option<Tree>
    decreases |path|
  {
    if |path| == 0 then Some(t)
    else if path[0] in t.children then Walk(t.children[path[0]], path[1..])
    else None
  }

  function FuncAt(t: Tree, path: seq<string>): Option<Load>
  {
    match Walk(t, path)
    case Some(node) => node.func
    case None => None
  }

  // ---- how the tree comes from the flat index ----------------------------------------------

  /** The tree with one more asset, creating the directories on its way. */
  function Plant(t: Tree, path: seq<string>, load: Load): Tree
    decreases |path|
  {
    if |path| == 0 then t.(func := Some(load))
    else
      var child := if path[0] in t.children then t.children[path[0]] else EMPTY;
      t.(children := t.children[path[0] := Plant(child, path[1..], load)])
  }

  function Grow(data: map<string, Load>, order: seq<string>): Tree
    requires forall k :: k in order ==> k in data
  {
    if |order| == 0 then EMPTY
    else
      var last := |order| - 1;
      Plant(Grow(data, order[..last]), Split(order[last], '/'), data[order[last]])
  }

  /** The tree was built from the flat index, in some order. */
  ghost predicate Grown(b: Bundle)
  {
    exists order :: Enumerates(order, b.data.Keys) && b.tree == Grow(b.data, order)
  }

  /** Files are leaves: no asset lies below another. */
  ghost predicate FilesAreLeaves(data: map<string, Load>)
  {
    forall k, l :: k in data && l in data && Split(k, '/') <= Split(l, '/') ==> k == l
  }

  /** Every component of every name survives as it is in a path. */
  ghost predicate PlainNames(data: map<string, Load>)
  {
    forall k :: k in data ==> AllProper(Split(k, '/')) && '\\' !in k
  }

  ghost predicate WellFormed(b: Bundle)
  {
    Grown(b) && FilesAreLeaves(b.data) && PlainNames(b.data)
  }

  lemma {:induction false} WalkPlant(t: Tree, path: seq<string>, load: Load, q: seq<string>)
    ensures Walk(Plant(t, path, load), q).Some? <==> Walk(t, q).Some? || q <= path
    ensures FuncAt(Plant(t, path, load), q) == if q == path then Some(load) else FuncAt(t, q)
    decreases |path|
  {
    if |path| > 0 && |q| > 0 && q[0] == path[0] {
      var child := if path[0] in t.children then t.children[path[0]] else EMPTY;
      WalkPlant(child, path[1..], load, q[1..]);
      assert q <= path <==> q[1..] <= path[1..];
      assert q == path <==> q[1..] == path[1..] by {
        assert q == [q[0]] + q[1..] && path == [path[0]] + path[1..];
      }
      WalkEmpty(q[1..]);
    }
  }

  lemma WalkEmpty(q: seq<string>)
    ensures Walk(EMPTY, q).Some? <==> q == []
    ensures FuncAt(EMPTY, q) == None
  {
  }

  lemma {:induction false} GrowWalk(data: map<string, Load>, order: seq<string>, q: seq<string>)
    requires forall k :: k in order ==> k in data
    ensures Walk(Grow(data, order), q).Some? <==> q == [] || exists k :: k in order && q <= Split(k, '/')
  {
    if |order| == 0 {
      WalkEmpty(q);
    } else {
      var last := |order| - 1;
      assert order == order[..last] + [order[last]];
      GrowWalk(data, order[..last], q);
      WalkPlant(Grow(data, order[..last]), Split(order[last], '/'), data[order[last]], q);
      assert order[last] in order;
      if k :| k in order[..last] && q <= Split(k, '/') {
        assert k in order;
      }
    }
  }

  lemma {:induction false} GrowFunc(data: map<string, Load>, order: seq<string>, q: seq<string>)
    requires forall k :: k in order ==> k in data
    ensures FuncAt(Grow(data, order), q).Some? <==> exists k :: k in order && Split(k, '/') == q
    ensures forall k :: k in order && Split(k, '/') == q ==> FuncAt(Grow(data, order), q) == Some(data[k])
  {
    if |order| == 0 {
      WalkEmpty(q);
    } else {
      var last := |order| - 1;
      assert order == order[..last] + [order[last]];
      GrowFunc(data, order[..last], q);
      WalkPlant(Grow(data, order[..last]), Split(order[last], '/'), data[order[last]], q);
      assert order[last] in order;
      if k :| k in order[..last] && Split(k, '/') == q {
        assert k in order;
      }
      if Split(order[last], '/') == q {
        forall k | k in order && Split(k, '/') == q ensures k == order[last] {
          JoinSplit(k, '/');
          JoinSplit(order[last], '/');
        }
      }
    }
  }

  // ---- lookups -----------------------------------------------------------------------------

  /** `Asset`, which ignores the kind of slash. */
  function Asset(b: Bundle, name: string): Result<Bytes>
  {
    var canon := Canon(name);
    if canon in b.data && b.data[canon].Loaded? then Ok(b.data[canon].bytes) else Err
  }

  /** The path `AssetDir` walks: none for the empty name. */
  function PathOf(name: string): seq<string>
  {
    if name == "" then [] else Split(Canon(name), '/')
  }

  ghost predicate IsDir(b: Bundle, name: string)
  {
    var node := Walk(b.tree, PathOf(name));
    node.Some? && node.value.func.None?
  }

  lemma WalkHere(t: Tree)
    ensures forall path :: |path| == 0 ==> Walk(t, path) == Some(t)
  {
  }

  lemma WalkStep(t: Tree, path: seq<string>, i: nat)
    requires i < |path|
    ensures Walk(t, path[i..]) ==
            if path[i] in t.children then Walk(t.children[path[i]], path[i + 1..]) else None
  {
    assert path[i..][1..] == path[i + 1..];
  }

  /** `AssetDir`: the walk along the split name, then the child names in any order. */
  method AssetDir(b: Bundle, name: string) returns (rv: Result<seq<string>>)
    ensures rv.Ok? <==> IsDir(b, name)
    ensures rv.Ok? ==> Enumerates(rv.value, Walk(b.tree, PathOf(name)).value.children.Keys)
  {
    hide Split, Canon, Enumerates, Walk;
    WalkHere(b.tree);
    var node := b.tree;
    if |name| != 0 {
      var pathList := Split(Canon(name), '/');
      assert pathList[0..] == pathList;
      for i := 0 to |pathList|
        invariant Walk(node, pathList[i..]) == Walk(b.tree, pathList)
      {
        WalkStep(node, pathList, i);
        if pathList[i] !in node.children {
          return Err;
        }
        node := node.children[pathList[i]];
      }
      WalkHere(node);
    }
    if node.func.Some? {
      return Err;
    }
    var names := [];
    var rest := node.children.Keys;
    ghost var listed := {};
    NothingEnumerated<string>();
    while rest != {}
      invariant listed !! rest && listed + rest == node.children.Keys
      invariant Enumerates(names, listed)
      decreases |rest|
    {
      var childName :| childName in rest;
      EnumerationExtends(names, listed, childName);
      rest := rest - {childName};
      listed := listed + {childName};
      names := names + [childName];
    }
    assert listed == node.children.Keys;
    return Ok(names);
  }

  /** The flat index and the tree agree on every name. */
  lemma Agreement(b: Bundle, name: string)
    requires Grown(b)
    ensures Canon(name) in b.data <==> FuncAt(b.tree, Split(Canon(name), '/')).Some?
    ensures Canon(name) in b.data ==> FuncAt(b.tree, Split(Canon(name), '/')) == Some(b.data[Canon(name)])
  {
    var canon := Canon(name);
    var order :| Enumerates(order, b.data.Keys) && b.tree == Grow(b.data, order);
    GrowFunc(b.data, order, Split(canon, '/'));
    if k :| k in order && Split(k, '/') == Split(canon, '/') {
      JoinSplit(k, '/');
      JoinSplit(canon, '/');
    }
  }

  /** The assets at or below a name. */
  ghost function AtOrUnder(b: Bundle, path: seq<string>): set<string>
  {
    set k | k in b.data && path <= Split(k, '/')
  }

  lemma TreePaths(b: Bundle, path: seq<string>)
    requires Grown(b)
    ensures Walk(b.tree, path).Some? <==> path == [] || AtOrUnder(b, path) != {}
    ensures FuncAt(b.tree, path).Some? <==> exists k :: k in b.data && Split(k, '/') == path
  {
    var order :| Enumerates(order, b.data.Keys) && b.tree == Grow(b.data, order);
    GrowWalk(b.data, order, path);
    GrowFunc(b.data, order, path);
    if k :| k in order && path <= Split(k, '/') {
      assert k in AtOrUnder(b, path);
    }
    if k :| k in AtOrUnder(b, path) {
      assert k in order;
    }
    assert forall k :: k in order <==> k in b.data;
  }

  /** `AssetDir` in terms of the flat index: which names are directories, and what is listed in them. */
  lemma Listing(b: Bundle, name: string)
    requires Grown(b)
    ensures IsDir(b, name) <==> name == "" || (AtOrUnder(b, PathOf(name)) != {} && Canon(name) !in b.data)
    ensures IsDir(b, name) ==>
              forall c :: c in Walk(b.tree, PathOf(name)).value.children <==>
                AtOrUnder(b, PathOf(name) + [c]) != {}
  {
    var path := PathOf(name);
    TreePaths(b, path);
    if name == "" {
      forall k | k in b.data ensures Split(k, '/') != path {
      }
    } else {
      Agreement(b, name);
    }
    if IsDir(b, name) {
      forall c ensures c in Walk(b.tree, path).value.children <==> AtOrUnder(b, path + [c]) != {} {
        TreePaths(b, path + [c]);
        WalkOn(b.tree, path, c);
      }
    }
  }

  lemma {:induction false} WalkOn(t: Tree, path: seq<string>, c: string)
    requires Walk(t, path).Some?
    ensures Walk(t, path + [c]).Some? <==> c in Walk(t, path).value.children
    ensures c in Walk(t, path).value.children ==>
              Walk(t, path + [c]) == Some(Walk(t, path).value.children[c])
    decreases |path|
  {
    if |path| > 0 {
      assert (path + [c])[1..] == path[1..] + [c];
      WalkOn(t.children[path[0]], path[1..], c);
    } else {
      assert (path + [c])[1..] == [];
    }
  }

  /** Some name is both an asset and a directory exactly when an asset has the empty name. */
  lemma NeverBoth(b: Bundle)
    requires Grown(b)
    ensures (exists name :: Asset(b, name).Ok? && IsDir(b, name)) <==> "" in b.data && b.data[""].Loaded?
  {
    if name :| Asset(b, name).Ok? && IsDir(b, name) {
      Listing(b, name);
    }
    if "" in b.data && b.data[""].Loaded? {
      Listing(b, "");
      assert Canon("") == "";
      assert Asset(b, "").Ok? && IsDir(b, "");
    }
  }

  /** Both lookups read a backslash as a slash, and nothing else: names that differ only in that are the same name. */
  lemma SlashesDoNotMatter(b: Bundle, m: string, n: string)
    requires |m| == |n| && forall i :: 0 <= i < |m| ==> m[i] == n[i] || {m[i], n[i]} == {'/', '\\'}
    ensures Asset(b, m) == Asset(b, n)
    ensures IsDir(b, m) <==> IsDir(b, n)
    ensures PathOf(m) == PathOf(n)
  {
    forall i | 0 <= i < |m| ensures Canon(m)[i] == Canon(n)[i] {
      assert m[i] in {m[i], n[i]} && n[i] in {m[i], n[i]};
    }
    assert Canon(m) == Canon(n);
  }

  /** A name that holds no backslash is looked up as it is. */
  lemma AssetByName(b: Bundle, name: string)
    requires '\\' !in name
    ensures Asset(b, name) == if name in b.data && b.data[name].Loaded? then Ok(b.data[name].bytes) else Err
  {
    CanonPlain(name);
  }

  /** At or below a name are the assets of that name, or whose names go on from it after a slash; below the empty name
      are all. */
  lemma UnderText(b: Bundle, name: string, k: string)
    ensures AtOrUnder(b, PathOf("")) == b.data.Keys
    ensures name != "" && '\\' !in name ==>
              (k in AtOrUnder(b, PathOf(name)) <==> k in b.data && (k == name || name + "/" <= k))
  {
    if name != "" && '\\' !in name {
      CanonPlain(name);
      PrefixText(name, k);
    }
  }

  lemma PrefixText(name: string, k: string)
    ensures Split(name, '/') <= Split(k, '/') <==> k == name || name + "/" <= k
  {
    hide Split, Join;
    var p, q := Split(name, '/'), Split(k, '/');
    JoinSplit(name, '/');
    JoinSplit(k, '/');
    if p <= q && p != q {
      assert q == p + q[|p|..];
      JoinConcat(p, q[|p|..], '/');
      assert (name + "/" + Join(q[|p|..], '/'))[..|name| + 1] == name + "/";
    }
    if name + "/" <= k {
      assert k == name + ['/'] + k[|name| + 1..];
      SplitAppend(name, k[|name| + 1..], '/');
    }
  }

  /** What is listed in a directory, in text: the names that the directory, a slash and the name lead to an asset, or
      to names that go on from there after a slash. */
  lemma ListingText(b: Bundle, name: string, c: string)
    requires Grown(b) && IsDir(b, name) && '\\' !in name && '/' !in c
    ensures var path := if name == "" then c else name + "/" + c;
            c in Walk(b.tree, PathOf(name)).value.children <==>
              exists k :: k in b.data && (k == path || path + "/" <= k)
  {
    hide Grown, Walk, Split;
    var path := if name == "" then c else name + "/" + c;
    Listing(b, name);
    CanonPlain(name);
    SplitFree(c, '/');
    if name != "" {
      assert path == name + ['/'] + c;
      SplitAppend(name, c, '/');
    }
    assert PathOf(name) + [c] == Split(path, '/');
    AnyUnder(b, path);
  }

  lemma AnyUnder(b: Bundle, path: string)
    ensures AtOrUnder(b, Split(path, '/')) != {} <==> exists k :: k in b.data && (k == path || path + "/" <= k)
  {
    hide Split;
    forall k | k in b.data ensures Split(path, '/') <= Split(k, '/') <==> k == path || path + "/" <= k {
      PrefixText(path, k);
    }
    if k :| k in b.data && (k == path || path + "/" <= k) {
      assert k in AtOrUnder(b, Split(path, '/'));
    }
  }
}
