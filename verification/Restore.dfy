/** Restoring embedded assets to disk: one asset, or every asset at or below a name. */
module Restore {
  import opened Basics
  import opened Text
  import opened Paths
  import opened Assets

  /** How one call of the operating system goes. A write that fails may leave anything in its target. */
  datatype Outcome = Done | Failed(residue: Option<Bytes>)

  /** The file system, with the outcome of its calls fixed from the start. */
  class Disk {
    var files: map<string, Bytes>
    var made: set<string>
    var calls: nat
    const outcome: nat -> Outcome

    constructor (outcome: nat -> Outcome, files: map<string, Bytes>)
      ensures this.outcome == outcome && this.files == files && made == {} && calls == 0
    {
      this.outcome := outcome;
      this.files := files;
      made := {};
      calls := 0;
    }

    /** No call since `from` has failed. */
    ghost predicate Smooth(from: nat)
      reads this
    {
      forall i :: from <= i < calls ==> outcome(i).Done?
    }

    method MkdirAll(path: string) returns (ok: bool)
      modifies this
      ensures calls == old(calls) + 1 && ok == outcome(old(calls)).Done?
      ensures files == old(files)
      ensures made == if ok then old(made) + {path} else old(made)
    {
      ok := outcome(calls).Done?;
      calls := calls + 1;
      if ok {
        made := made + {path};
      }
    }

    method WriteFile(path: string, data: Bytes) returns (ok: bool)
      modifies this
      ensures calls == old(calls) + 1 && ok == outcome(old(calls)).Done?
      ensures made == old(made)
      ensures ok ==> files == old(files)[path := data]
      ensures !ok ==> files == match outcome(old(calls)).residue
                               case Some(left) => old(files)[path := left]
                               case None => old(files)
    {
      match outcome(calls) {
        case Done =>
          ok := true;
          files := files[path := data];
        case Failed(residue) =>
          ok := false;
          if residue.Some? {
            files := files[path := residue.value];
          }
      }
      calls := calls + 1;
    }

    /** Sets the times of a file, which the model does not keep. */
    method Chtimes(path: string) returns (ok: bool)
      modifies this
      ensures calls == old(calls) + 1 && ok == outcome(old(calls)).Done?
      ensures files == old(files) && made == old(made)
    {
      ok := outcome(calls).Done?;
      calls := calls + 1;
    }
  }

  // ---- what restoring means ----------------------------------------------------------------

  ghost predicate AllLoad(b: Bundle, keys: set<string>)
  {
    forall k :: k in keys ==> k in b.data && b.data[k].Loaded?
  }

  ghost predicate IsTarget(dir: string, keys: set<string>, path: string)
  {
    exists k :: k in keys && FilePath(dir, k) == path
  }

  /** Nothing but the targets of these assets differs. */
  ghost predicate Confined(before: map<string, Bytes>, after: map<string, Bytes>, dir: string, keys: set<string>)
  {
    forall path :: !IsTarget(dir, keys, path) ==>
      && (path in after <==> path in before)
      && (path in before ==> after[path] == before[path])
  }

  /** The disk holds exactly what it held, with these assets written over it. */
  ghost predicate Restored(b: Bundle, before: map<string, Bytes>, after: map<string, Bytes>, dir: string,
                           keys: set<string>)
    requires AllLoad(b, keys)
  {
    && Confined(before, after, dir, keys)
    && forall k :: k in keys ==> FilePath(dir, k) in after && after[FilePath(dir, k)] == b.data[k].bytes
  }

  /** Every restored asset, unless it was asked for by a name that ends in a backslashed part, had its directory
      prepared. */
  ghost predicate Prepared(made: set<string>, dir: string, name: string, keys: set<string>)
  {
    forall k :: k in keys && (k != Canon(name) || '\\' !in Last(name)) ==> Parent(dir, k) in made
  }

  /** No two assets are restored to the same file. */
  lemma OneFilePerAsset(b: Bundle, dir: string, k: string, l: string)
    requires PlainNames(b.data) && k in b.data && l in b.data
    ensures FilePath(dir, k) == FilePath(dir, l) <==> k == l
  {
    CanonPlain(k);
    CanonPlain(l);
    FilePathInjective(dir, k, l);
  }

  lemma ConfinedCompose(s0: map<string, Bytes>, s1: map<string, Bytes>, s2: map<string, Bytes>, dir: string,
                        keys: set<string>, more: set<string>, all: set<string>)
    requires Confined(s0, s1, dir, keys) && Confined(s1, s2, dir, more) && keys <= all && more <= all
    ensures Confined(s0, s2, dir, all)
  {
    forall path | !IsTarget(dir, all, path)
      ensures (path in s2 <==> path in s0) && (path in s0 ==> s2[path] == s0[path])
    {
      assert !IsTarget(dir, keys, path) && !IsTarget(dir, more, path);
    }
  }

  lemma RestoredCompose(b: Bundle, s0: map<string, Bytes>, s1: map<string, Bytes>, s2: map<string, Bytes>,
                        dir: string, keys: set<string>, more: set<string>)
    requires PlainNames(b.data) && AllLoad(b, keys) && AllLoad(b, more)
    requires Restored(b, s0, s1, dir, keys) && Restored(b, s1, s2, dir, more)
    ensures Restored(b, s0, s2, dir, keys + more)
  {
    ConfinedCompose(s0, s1, s2, dir, keys, more, keys + more);
    forall k | k in keys + more
      ensures FilePath(dir, k) in s2 && s2[FilePath(dir, k)] == b.data[k].bytes
    {
      if k !in more && IsTarget(dir, more, FilePath(dir, k)) {
        var l :| l in more && FilePath(dir, l) == FilePath(dir, k);
        OneFilePerAsset(b, dir, k, l);
      }
    }
  }

  /** What restoring leaves on the disk is determined by what was there, whatever order assets are visited in. */
  lemma RestoredDetermines(b: Bundle, before: map<string, Bytes>, one: map<string, Bytes>, two: map<string, Bytes>,
                           dir: string, keys: set<string>)
    requires AllLoad(b, keys) && Restored(b, before, one, dir, keys) && Restored(b, before, two, dir, keys)
    ensures one == two
  {
    forall path ensures (path in one <==> path in two) && (path in one ==> one[path] == two[path]) {
      if k :| k in keys && FilePath(dir, k) == path {
        assert one[path] == two[path];
      } else {
        assert !IsTarget(dir, keys, path);
      }
    }
  }

  // ---- the names of children ---------------------------------------------------------------

  /** A name the tree knows consists of proper components. */
  lemma KnownIsProper(b: Bundle, path: seq<string>)
    requires WellFormed(b) && AtOrUnder(b, path) != {}
    ensures AllProper(path)
    ensures forall i :: 0 <= i < |path| ==> '\\' !in path[i]
  {
    var k :| k in AtOrUnder(b, path);
    JoinSplit(k, '/');
    forall i | 0 <= i < |path| ensures Proper(path[i]) && '\\' !in path[i] {
      assert path[i] == Split(k, '/')[i];
      PartOf(k, i);
    }
  }

  lemma {:induction false} PartOf(s: string, i: nat)
    requires i < |Split(s, '/')|
    ensures forall c :: c in Split(s, '/')[i] ==> c in s
  {
    if s != "" {
      var rest := Split(s[1..], '/');
      if s[0] == '/' {
        if i > 0 { PartOf(s[1..], i - 1); }
      } else {
        PartOf(s[1..], i);
      }
    }
  }

  /** The name built for a child denotes the child's path, and its last part is the child's name. */
  lemma ChildName(name: string, child: string)
    requires name == "" || AllProper(Split(Canon(name), '/'))
    requires Proper(child) && '\\' !in child
    ensures var n := JoinPath([name, child]);
            PathOf(n) == PathOf(name) + [child] && Last(n) == child
  {
    CanonPlain(child);
    SplitFree(child, '/');
    assert [name, child][1..] == [child];
    if name == "" {
      assert Split(child, '/')[0] == child;
      CleanProper(child);
      assert JoinPath([name, child]) == JoinPath([child]) == Clean(Join([child], '/'));
    } else {
      ProperAsWritten(name);
      var n := name + ['/'] + child;
      assert Join([name, child], '/') == n by { assert Join([child], '/') == child; }
      SplitAppend(name, child, '/');
      CleanProper(n);
      CanonAppend(name + ['/'], child);
      CanonAppend(name, ['/']);
      assert Canon(['/']) == ['/'];
      SplitAppend(Canon(name), child, '/');
      assert JoinPath([name, child]) == n;
    }
  }

  /** The assets below one of the first listed children. */
  ghost function UnderChildren(b: Bundle, path: seq<string>, children: seq<string>): set<string>
  {
    set k, c | c in children && k in AtOrUnder(b, path + [c]) :: k
  }

  lemma UnderNext(b: Bundle, path: seq<string>, children: seq<string>, c: string)
    requires c !in children
    ensures UnderChildren(b, path, children + [c]) == UnderChildren(b, path, children) + AtOrUnder(b, path + [c])
    ensures UnderChildren(b, path, children) !! AtOrUnder(b, path + [c])
  {
    forall k | k in UnderChildren(b, path, children) ensures k !in AtOrUnder(b, path + [c]) {
      var d :| d in children && k in AtOrUnder(b, path + [d]);
      assert Split(k, '/')[|path|] == d;
    }
  }

  lemma UnderIsBelow(b: Bundle, path: seq<string>, children: seq<string>)
    ensures UnderChildren(b, path, children) <= AtOrUnder(b, path)
  {
    forall k | k in UnderChildren(b, path, children) ensures path <= Split(k, '/') {
      var c :| c in children && k in AtOrUnder(b, path + [c]);
    }
  }

  lemma UnderSplit(b: Bundle, path: seq<string>, children: seq<string>)
    requires forall c :: c in children <==> AtOrUnder(b, path + [c]) != {}
    requires forall k :: k in b.data ==> Split(k, '/') != path
    ensures UnderChildren(b, path, children) == AtOrUnder(b, path)
  {
    hide Split;
    UnderIsBelow(b, path, children);
    forall k | k in AtOrUnder(b, path) ensures k in UnderChildren(b, path, children) {
      var q := Split(k, '/');
      assert q != path;
      var c := q[|path|];
      assert path + [c] <= q;
      assert k in AtOrUnder(b, path + [c]);
    }
  }

  /** Every asset below a directory is below one of its children. */
  lemma UnderAll(b: Bundle, name: string, children: seq<string>)
    requires Grown(b) && IsDir(b, name)
    requires Enumerates(children, Walk(b.tree, PathOf(name)).value.children.Keys)
    ensures UnderChildren(b, PathOf(name), children) == AtOrUnder(b, PathOf(name))
    ensures name == "" || AtOrUnder(b, PathOf(name)) != {}
  {
    hide Grown, Walk, Grow, PathOf, AtOrUnder, UnderChildren;
    Listing(b, name);
    TreePaths(b, PathOf(name));
    UnderSplit(b, PathOf(name), children);
  }

  /** Below a name that is no directory there is at most the asset of that name. */
  lemma UnderFile(b: Bundle, name: string)
    requires WellFormed(b) && !IsDir(b, name)
    ensures name != ""
    ensures AtOrUnder(b, PathOf(name)) == if Canon(name) in b.data then {Canon(name)} else {}
  {
    Listing(b, name);
    JoinSplit(Canon(name), '/');
    forall k | k in AtOrUnder(b, PathOf(name)) ensures k == Canon(name) {
      assert Canon(name) in b.data;
    }
  }

  /** The recursive call for a child looks at the child's node of the tree. */
  lemma Descend(b: Bundle, name: string, c: string)
    requires WellFormed(b) && IsDir(b, name) && c in Walk(b.tree, PathOf(name)).value.children
    ensures var n := JoinPath([name, c]);
            && PathOf(n) == PathOf(name) + [c] && Last(n) == c && '\\' !in c && n != ""
            && Walk(b.tree, PathOf(n)) == Some(Walk(b.tree, PathOf(name)).value.children[c])
            && AtOrUnder(b, PathOf(n)) != {}
            && AtOrUnder(b, PathOf(n)) <= AtOrUnder(b, PathOf(name))
  {
    hide Grow, Grown, JoinPath, FilesAreLeaves, PlainNames, Last;
    var path := PathOf(name);
    Listing(b, name);
    KnownIsProper(b, path + [c]);
    assert (path + [c])[|path|] == c;
    assert AllProper(path) by {
      forall i | 0 <= i < |path| ensures Proper(path[i]) { assert (path + [c])[i] == path[i]; }
    }
    ChildName(name, c);
    WalkOn(b.tree, path, c);
  }

  lemma ConfinedToOne(before: map<string, Bytes>, after: map<string, Bytes>, dir: string, k: string)
    requires after - {FilePath(dir, k)} == before - {FilePath(dir, k)}
    ensures Confined(before, after, dir, {k})
  {
    hide FilePath;
    var target := FilePath(dir, k);
    forall path | !IsTarget(dir, {k}, path)
      ensures (path in after <==> path in before) && (path in before ==> after[path] == before[path])
    {
      assert k in {k};
      assert path in after - {target} <==> path in before - {target};
      if path in before {
        assert (after - {target})[path] == (before - {target})[path];
      }
    }
  }

  lemma SameParent(dir: string, name: string)
    requires '\\' !in Canon(name)
    ensures Parent(dir, name) == Parent(dir, Canon(name))
  {
    CanonPlain(Canon(name));
  }

  /** What the restoration of a single asset means for a name that is no directory. */
  lemma FileRestored(b: Bundle, before: map<string, Bytes>, after: map<string, Bytes>, dir: string, name: string,
                     made: set<string>)
    requires WellFormed(b) && !IsDir(b, name)
    requires Asset(b, name).Err? ==> after == before
    requires after - {FilePath(dir, name)} == before - {FilePath(dir, name)}
    ensures var under := AtOrUnder(b, PathOf(name));
            && name != ""
            && (under != {} && AllLoad(b, under) <==> Asset(b, name).Ok?)
            && Confined(before, after, dir, under)
            && (Asset(b, name).Ok? ==>
                  && |under| == 1
                  && (after == before[FilePath(dir, name) := Asset(b, name).value] ==>
                        Restored(b, before, after, dir, under))
                  && (FilePath(dir, Dir(name)) in made ==> Prepared(made, dir, name, under)))
  {
    hide Grown, IsDir, PathOf, AtOrUnder, FilePath, Dir, Parent, Last, Canon, Split;
    UnderFile(b, name);
    if Canon(name) in b.data {
      CanonPlain(Canon(name));
      FilePathInjective(dir, name, Canon(name));
      ConfinedToOne(before, after, dir, Canon(name));
      PreparedDirectory(dir, name);
      assert Parent(dir, name) == Parent(dir, Canon(name)) by { SameParent(dir, name); }
    }
  }

  /** After the first children: their assets are restored, and nothing else has changed. */
  ghost predicate RestoredSoFar(b: Bundle, before: map<string, Bytes>, after: map<string, Bytes>, made: set<string>,
                           dir: string, keys: set<string>)
  {
    && AllLoad(b, keys)
    && Restored(b, before, after, dir, keys)
    && forall k :: k in keys ==> Parent(dir, k) in made
  }

  lemma NothingRestored(b: Bundle, files: map<string, Bytes>, made: set<string>, dir: string, path: seq<string>)
    ensures UnderChildren(b, path, []) == {}
    ensures RestoredSoFar(b, files, files, made, dir, {})
  {
  }

  lemma ChildIsNew(b: Bundle, name: string, children: seq<string>, i: nat)
    requires IsDir(b, name) && i < |children|
    requires Enumerates(children, Walk(b.tree, PathOf(name)).value.children.Keys)
    ensures children[i] !in children[..i]
    ensures children[i] in Walk(b.tree, PathOf(name)).value.children
  {
  }

  lemma RestoreStep(b: Bundle, s0: map<string, Bytes>, s1: map<string, Bytes>, s2: map<string, Bytes>,
                     made1: set<string>, made2: set<string>, dir: string, child: string, keys: set<string>)
    requires WellFormed(b) && '\\' !in Last(child) && made1 <= made2
    requires RestoredSoFar(b, s0, s1, made1, dir, keys)
    requires var more := AtOrUnder(b, PathOf(child));
             AllLoad(b, more) && Restored(b, s1, s2, dir, more) && Prepared(made2, dir, child, more)
    ensures RestoredSoFar(b, s0, s2, made2, dir, keys + AtOrUnder(b, PathOf(child)))
  {
    hide Grown, FilesAreLeaves, PlainNames, Parent, FilePath, Last, Canon, AtOrUnder, PathOf, Restored;
    RestoredCompose(b, s0, s1, s2, dir, keys, AtOrUnder(b, PathOf(child)));
  }

  lemma RestoreStops(b: Bundle, s0: map<string, Bytes>, s1: map<string, Bytes>, s2: map<string, Bytes>,
                      made: set<string>, dir: string, keys: set<string>, more: set<string>, under: set<string>)
    requires RestoredSoFar(b, s0, s1, made, dir, keys) && Confined(s1, s2, dir, more)
    requires keys <= under && more <= under
    ensures Confined(s0, s2, dir, under)
  {
    hide FilePath, Parent;
    ConfinedCompose(s0, s1, s2, dir, keys, more, under);
  }

  lemma RestoreDone(b: Bundle, before: map<string, Bytes>, after: map<string, Bytes>, made: set<string>,
                     dir: string, name: string, keys: set<string>)
    requires RestoredSoFar(b, before, after, made, dir, keys)
    ensures AllLoad(b, keys) && Restored(b, before, after, dir, keys) && Confined(before, after, dir, keys)
    ensures Prepared(made, dir, name, keys)
  {
    hide FilePath, Parent;
  }

  // ---- the operations ----------------------------------------------------------------------

  /** `RestoreAsset`. */
  method RestoreAsset(b: Bundle, disk: Disk, dir: string, name: string) returns (ok: bool)
    modifies disk
    ensures disk.calls >= old(disk.calls) && disk.made >= old(disk.made)
    ensures ok <==> Asset(b, name).Ok? && disk.Smooth(old(disk.calls))
    ensures ok ==>
              && disk.files == old(disk.files)[FilePath(dir, name) := Asset(b, name).value]
              && disk.made == old(disk.made) + {FilePath(dir, Dir(name))}
              && disk.calls == old(disk.calls) + 3
    ensures disk.files - {FilePath(dir, name)} == old(disk.files) - {FilePath(dir, name)}
    ensures Asset(b, name).Err? ==> disk.files == old(disk.files) && disk.calls == old(disk.calls)
  {
    hide Asset, FilePath, Dir;
    var data := Asset(b, name);
    if data.Err? {
      return false;
    }
    ok := disk.MkdirAll(FilePath(dir, Dir(name)));
    if !ok {
      assert !disk.Smooth(old(disk.calls));
      return;
    }
    ok := disk.WriteFile(FilePath(dir, name), data.value);
    if !ok {
      assert !disk.Smooth(old(disk.calls));
      return;
    }
    ok := disk.Chtimes(FilePath(dir, name));
  }

  /** `RestoreAssets`, children in any order. It succeeds exactly when the name is known, every asset at or below it
      decodes and no call fails; then the disk gains exactly these assets, each restored once. */
  method RestoreAssets(b: Bundle, disk: Disk, dir: string, name: string) returns (ok: bool)
    requires WellFormed(b)
    modifies disk
    ensures disk.calls >= old(disk.calls) && disk.made >= old(disk.made)
    ensures ok <==>
              && (name == "" || AtOrUnder(b, PathOf(name)) != {})
              && AllLoad(b, AtOrUnder(b, PathOf(name)))
              && disk.Smooth(old(disk.calls))
    ensures ok ==>
              && Restored(b, old(disk.files), disk.files, dir, AtOrUnder(b, PathOf(name)))
              && Prepared(disk.made, dir, name, AtOrUnder(b, PathOf(name)))
              && disk.calls == old(disk.calls) + 3 * |AtOrUnder(b, PathOf(name))|
    ensures Confined(old(disk.files), disk.files, dir, AtOrUnder(b, PathOf(name)))
    decreases match Walk(b.tree, PathOf(name)) case Some(node) => node case None => EMPTY
  {
    hide Grown, Grow, Walk, JoinPath, FilePath, Parent, Last, Canon, PlainNames, FilesAreLeaves, RestoredSoFar;
    hide Restored, Confined, Prepared, AtOrUnder, UnderChildren, Enumerates, Split;
    var children := AssetDir(b, name);
    if children.Err? {
      ok := RestoreAsset(b, disk, dir, name);
      FileRestored(b, old(disk.files), disk.files, dir, name, disk.made);
      return;
    }
    ghost var path := PathOf(name);
    ghost var under := AtOrUnder(b, path);
    UnderAll(b, name, children.value);
    ghost var keys := {};
    NothingRestored(b, disk.files, disk.made, dir, path);
    for i := 0 to |children.value|
      invariant keys == UnderChildren(b, path, children.value[..i])
      invariant disk.calls == old(disk.calls) + 3 * |keys| && disk.made >= old(disk.made)
      invariant disk.Smooth(old(disk.calls))
      invariant RestoredSoFar(b, old(disk.files), disk.files, disk.made, dir, keys)
    {
      var c := children.value[i];
      var child := JoinPath([name, c]);
      ChildIsNew(b, name, children.value, i);
      Descend(b, name, c);
      ghost var files, made := disk.files, disk.made;
      ghost var more := AtOrUnder(b, PathOf(child));
      UnderNext(b, path, children.value[..i], c);
      assert children.value[..i + 1] == children.value[..i] + [c];
      ok := RestoreAssets(b, disk, dir, child);
      if !ok {
        UnderIsBelow(b, path, children.value[..i]);
        RestoreStops(b, old(disk.files), files, disk.files, made, dir, keys, more, under);
        return;
      }
      RestoreStep(b, old(disk.files), files, disk.files, made, disk.made, dir, child, keys);
      keys := keys + more;
    }
    assert children.value[..|children.value|] == children.value;
    RestoreDone(b, old(disk.files), disk.files, disk.made, dir, name, keys);
    ok := true;
  }

  // ---- where the files are, as texts -------------------------------------------------------

  /** The disk holds what it held, with each of these assets written at `root`, a slash, and its own name. */
  ghost predicate WrittenBelow(b: Bundle, before: map<string, Bytes>, after: map<string, Bytes>, root: string,
                               keys: set<string>)
    requires AllLoad(b, keys)
  {
    && (forall path :: path in after <==> path in before || exists k :: k in keys && root + "/" + k == path)
    && (forall k :: k in keys ==> root + "/" + k in after && after[root + "/" + k] == b.data[k].bytes)
    && (forall path :: path in before && (forall k :: k in keys ==> root + "/" + k != path) ==>
          path in after && after[path] == before[path])
  }

  lemma TargetsBelow(b: Bundle, before: map<string, Bytes>, after: map<string, Bytes>, dir: string, root: string,
                     keys: set<string>)
    requires AllLoad(b, keys) && Restored(b, before, after, dir, keys)
    requires forall k :: k in keys ==> FilePath(dir, k) == root + "/" + k
    ensures WrittenBelow(b, before, after, root, keys)
  {
    forall path ensures IsTarget(dir, keys, path) <==> exists k :: k in keys && root + "/" + k == path {
    }
    forall path ensures path in after <==> path in before || exists k :: k in keys && root + "/" + k == path {
      if k :| k in keys && root + "/" + k == path {
        assert FilePath(dir, k) in after;
      }
    }
  }

  /** What a successful `RestoreAssets` promises, for a directory written with or without a leading slash: each asset
      is at that directory, a slash and its name. */
  lemma RestoredBelow(b: Bundle, before: map<string, Bytes>, after: map<string, Bytes>, d: string, keys: set<string>)
    requires PlainNames(b.data) && AllLoad(b, keys) && AllProper(Split(d, '/'))
    ensures Restored(b, before, after, "/" + d, keys) ==> WrittenBelow(b, before, after, "/" + d, keys)
    ensures Restored(b, before, after, d, keys) ==> WrittenBelow(b, before, after, d, keys)
  {
    hide Restored, WrittenBelow, FilePath;
    forall k | k in keys
      ensures FilePath("/" + d, k) == "/" + d + "/" + k && FilePath(d, k) == d + "/" + k
    {
      CanonPlain(k);
      AbsoluteTarget(d, k);
      RelativeTarget(d, k);
    }
    if Restored(b, before, after, "/" + d, keys) {
      TargetsBelow(b, before, after, "/" + d, "/" + d, keys);
    }
    if Restored(b, before, after, d, keys) {
      TargetsBelow(b, before, after, d, d, keys);
    }
  }
}
