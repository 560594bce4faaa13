/** Go's lexical path functions on Unix, and the target paths that restoring an asset computes with them. */
module Paths {
  import opened Text

  /** A path component that lexical cleaning neither drops nor interprets. */
  predicate Proper(seg: string)
  {
    seg != "" && seg != "." && seg != ".." && '/' !in seg
  }

  ghost predicate AllProper(segs: seq<string>)
  {
    forall i :: 0 <= i < |segs| ==> Proper(segs[i])
  }

  /** Every backslash read as a slash. */
  function Canon(name: string): string
  {
    Replace(name, '\\', '/')
  }

  // ---- filepath.Clean, Join and Dir --------------------------------------------------------

  /** One component met by filepath.Clean: dropped, backtracked over, or kept. */
  function Push(rooted: bool, stack: seq<string>, seg: string): seq<string>
  {
    if seg == "" || seg == "." then stack
    else if seg == ".." then
      if |stack| > 0 && stack[|stack| - 1] != ".." then stack[..|stack| - 1]
      else if rooted then stack
      else stack + [seg]
    else stack + [seg]
  }

  function PushAll(rooted: bool, stack: seq<string>, segs: seq<string>): seq<string>
    decreases |segs|
  {
    if |segs| == 0 then stack else PushAll(rooted, Push(rooted, stack, segs[0]), segs[1..])
  }

  predicate Rooted(path: string)
  {
    path != "" && path[0] == '/'
  }

  function Render(rooted: bool, stack: seq<string>): string
  {
    if rooted then "/" + Join(stack, '/') else if stack == [] then "." else Join(stack, '/')
  }

  /** The components of a path once cleaned. */
  function Base(path: string): seq<string>
  {
    PushAll(Rooted(path), [], Split(path, '/'))
  }

  function Clean(path: string): string
  {
    Render(Rooted(path), Base(path))
  }

  /** filepath.Join: leading empty elements are ignored, the rest is joined and cleaned. */
  function JoinPath(elems: seq<string>): string
  {
    if |elems| == 0 then ""
    else if elems[0] == "" then JoinPath(elems[1..])
    else Clean(Join(elems, '/'))
  }

  /** The part of a name after its last slash. */
  function Last(name: string): string
  {
    var segs := Split(name, '/');
    segs[|segs| - 1]
  }

  /** filepath.Dir: what precedes the last slash, cleaned. */
  function Dir(name: string): string
  {
    var segs := Split(name, '/');
    Clean(if |segs| == 1 then "" else Join(segs[..|segs| - 1], '/') + "/")
  }

  /** `_filePath`: a name placed below a directory. */
  function FilePath(dir: string, name: string): string
  {
    JoinPath([dir] + Split(Canon(name), '/'))
  }

  // ---- cleaning ----------------------------------------------------------------------------

  lemma {:induction false} SplitAppend(a: string, b: string, sep: char)
    ensures Split(a + [sep] + b, sep) == Split(a, sep) + Split(b, sep)
  {
    var s := a + [sep] + b;
    if a == "" {
      assert s[1..] == b;
    } else {
      assert s[1..] == a[1..] + [sep] + b;
      SplitAppend(a[1..], b, sep);
    }
  }

  lemma {:induction false} JoinLast(front: seq<string>, last: string, sep: char)
    requires |front| > 0
    ensures Join(front + [last], sep) == Join(front, sep) + [sep] + last
  {
    if |front| > 1 {
      JoinLast(front[1..], last, sep);
      assert (front + [last])[1..] == front[1..] + [last];
    } else {
      assert (front + [last])[1..] == [last];
    }
  }

  lemma {:induction false} PushAllAppend(rooted: bool, stack: seq<string>, a: seq<string>, b: seq<string>)
    ensures PushAll(rooted, stack, a + b) == PushAll(rooted, PushAll(rooted, stack, a), b)
    decreases |a|
  {
    if |a| == 0 {
      assert a + b == b;
    } else {
      assert (a + b)[1..] == a[1..] + b;
      PushAllAppend(rooted, Push(rooted, stack, a[0]), a[1..], b);
    }
  }

  /** Proper components are all kept. */
  lemma {:induction false} PushProper(rooted: bool, stack: seq<string>, segs: seq<string>)
    requires AllProper(segs)
    ensures PushAll(rooted, stack, segs) == stack + segs
    decreases |segs|
  {
    if |segs| == 0 {
      assert stack + segs == stack;
    } else {
      assert Proper(segs[0]);
      PushProper(rooted, stack + [segs[0]], segs[1..]);
      assert stack + [segs[0]] + segs[1..] == stack + segs;
    }
  }

  lemma {:induction false} PushAllFree(rooted: bool, stack: seq<string>, segs: seq<string>)
    requires AllFree(stack, '/') && AllFree(segs, '/')
    ensures AllFree(PushAll(rooted, stack, segs), '/')
    decreases |segs|
  {
    if |segs| > 0 {
      PushAllFree(rooted, Push(rooted, stack, segs[0]), segs[1..]);
    }
  }

  lemma BaseFree(path: string)
    ensures AllFree(Base(path), '/')
  {
    SplitPartsFree(path, '/');
    PushAllFree(Rooted(path), [], Split(path, '/'));
  }

  /** A relative path of proper components is already clean. */
  lemma CleanProper(path: string)
    requires AllProper(Split(path, '/'))
    ensures Clean(path) == path
  {
    var segs := Split(path, '/');
    assert Proper(segs[0]);
    JoinSplit(path, '/');
    PushProper(Rooted(path), [], segs);
    assert [] + segs == segs;
  }

  // ---- backslashes -------------------------------------------------------------------------

  lemma CanonAppend(a: string, b: string)
    ensures Canon(a + b) == Canon(a) + Canon(b)
  {
  }

  lemma CanonPlain(a: string)
    requires '\\' !in a
    ensures Canon(a) == a
  {
  }

  lemma {:induction false} PlainPartIsCanonical(parts: seq<string>, i: nat)
    requires i < |parts| && AllFree(parts, '/') && '\\' !in parts[i]
    ensures parts[i] in Split(Canon(Join(parts, '/')), '/')
  {
    var first := Canon(parts[0]);
    if i == 0 {
      CanonPlain(parts[0]);
      SplitFree(first, '/');
    }
    if |parts| > 1 {
      var rest := Join(parts[1..], '/');
      CanonAppend(parts[0] + ['/'], rest);
      CanonAppend(parts[0], ['/']);
      assert Canon(['/']) == ['/'];
      assert Canon(Join(parts, '/')) == first + ['/'] + Canon(rest);
      SplitAppend(first, Canon(rest), '/');
      if i > 0 {
        PlainPartIsCanonical(parts[1..], i - 1);
      }
    }
  }

  /** When the components of the canonical name are proper, so are those of the name as written. */
  lemma ProperAsWritten(name: string)
    requires AllProper(Split(Canon(name), '/'))
    ensures AllProper(Split(name, '/'))
  {
    var parts := Split(name, '/');
    SplitPartsFree(name, '/');
    JoinSplit(name, '/');
    forall i | 0 <= i < |parts| ensures Proper(parts[i]) {
      if '\\' !in parts[i] {
        PlainPartIsCanonical(parts, i);
        var k :| 0 <= k < |Split(Canon(name), '/')| && Split(Canon(name), '/')[k] == parts[i];
        assert Proper(Split(Canon(name), '/')[k]);
      }
    }
  }

  // ---- target paths ------------------------------------------------------------------------

  /** Placing proper components below a directory appends them to the cleaned directory. */
  lemma FilePathProper(dir: string, name: string)
    requires AllProper(Split(Canon(name), '/'))
    ensures FilePath(dir, name) == Render(Rooted(dir), Base(dir) + Split(Canon(name), '/'))
  {
    var canon := Canon(name);
    var segs := Split(canon, '/');
    JoinSplit(canon, '/');
    if dir == "" {
      assert ([dir] + segs)[1..] == segs;
      assert Proper(segs[0]);
      CleanProper(canon);
      assert ([dir] + segs)[0] == dir;
      assert JoinPath([dir] + segs) == JoinPath(segs) == canon;
      assert Base("") == [] by { assert Split("", '/') == [""]; }
      assert [] + segs == segs;
    } else {
      assert ([dir] + segs)[1..] == segs;
      var path := Join([dir] + segs, '/');
      assert path == dir + ['/'] + canon;
      SplitAppend(dir, canon, '/');
      PushAllAppend(Rooted(dir), [], Split(dir, '/'), segs);
      PushProper(Rooted(dir), Base(dir), segs);
    }
  }

  /** The directory part "." places nothing below the directory. */
  lemma FilePathDot(dir: string)
    ensures FilePath(dir, ".") == Render(Rooted(dir), Base(dir))
  {
    CanonPlain(".");
    SplitFree(".", '/');
    assert PushAll(false, [], ["."]) == [] by { assert PushAll(false, [], [".", ""][..1]) == []; }
    if dir == "" {
      assert ([dir] + ["."])[1..] == ["."];
      assert Join(["."], '/') == ".";
      assert ([dir] + ["."])[0] == dir;
      assert JoinPath([dir] + ["."]) == JoinPath(["."]) == Clean(".");
      assert Base("") == [] by { assert Split("", '/') == [""]; }
    } else {
      assert Join([dir] + ["."], '/') == dir + ['/'] + ".";
      SplitAppend(dir, ".", '/');
      PushAllAppend(Rooted(dir), [], Split(dir, '/'), ["."]);
    }
  }

  lemma RenderInjective(rooted: bool, p: seq<string>, q: seq<string>)
    requires |p| > 0 && |q| > 0 && AllFree(p, '/') && AllFree(q, '/')
    ensures Render(rooted, p) == Render(rooted, q) <==> p == q
  {
    SplitJoinFree(p, '/');
    SplitJoinFree(q, '/');
    if rooted {
      assert Render(rooted, p)[1..] == Join(p, '/');
      assert Render(rooted, q)[1..] == Join(q, '/');
    }
  }

  /** Below one directory, two names of proper components share a target exactly when they are the same name up
      to the kind of slash. */
  lemma FilePathInjective(dir: string, a: string, b: string)
    requires AllProper(Split(Canon(a), '/')) && AllProper(Split(Canon(b), '/'))
    ensures FilePath(dir, a) == FilePath(dir, b) <==> Canon(a) == Canon(b)
  {
    var p, q := Split(Canon(a), '/'), Split(Canon(b), '/');
    FilePathProper(dir, a);
    FilePathProper(dir, b);
    BaseFree(dir);
    SplitPartsFree(Canon(a), '/');
    SplitPartsFree(Canon(b), '/');
    RenderInjective(Rooted(dir), Base(dir) + p, Base(dir) + q);
    assert (Base(dir) + p)[|Base(dir)|..] == p && (Base(dir) + q)[|Base(dir)|..] == q;
    JoinSplit(Canon(a), '/');
    JoinSplit(Canon(b), '/');
  }

  /** The directory that holds the target of a name of proper components. */
  function Parent(dir: string, name: string): string
  {
    var segs := Split(Canon(name), '/');
    Render(Rooted(dir), Base(dir) + segs[..|segs| - 1])
  }

  lemma RenderNonEmpty(rooted: bool, q: seq<string>)
    requires |q| > 0 && AllFree(q, '/') && Proper(q[|q| - 1])
    ensures Render(rooted, q) != Render(rooted, [])
  {
    SplitJoinFree(q, '/');
    var text := Join(q, '/');
    assert text != "" by { assert Split("", '/') == [""]; }
    if rooted {
      assert Render(rooted, q)[1..] == text;
      assert Render(rooted, []) == "/" + Join([], '/') == "/";
    } else if text == "." {
      SplitFree(".", '/');
    }
  }

  lemma CleanTrailingSlash(front: seq<string>)
    requires |front| > 0 && AllProper(front)
    ensures Clean(Join(front, '/') + "/") == Join(front, '/')
  {
    var before := Join(front, '/');
    SplitJoinFree(front, '/');
    SplitAppend(before, "", '/');
    assert before + ['/'] + "" == before + "/";
    assert Split("", '/') == [""];
    PushAllAppend(false, [], front, [""]);
    PushProper(false, [], front);
    assert [] + front == front;
    assert PushAll(false, front, [""]) == front by { assert PushAll(false, front, [""][1..]) == front; }
    assert !Rooted(before + "/") by { assert Proper(front[0]) && before[0] == front[0][0]; }
  }

  lemma DirOfSingle(name: string)
    requires |Split(name, '/')| == 1
    ensures Dir(name) == "." && name == Last(name)
  {
    JoinSplit(name, '/');
    assert Split("", '/') == [""];
    assert PushAll(false, [], [""]) == [] by { assert PushAll(false, [], [""][1..]) == []; }
  }

  /** A name is its directory part, a slash and its last part. */
  lemma DirAndLast(name: string)
    requires AllProper(Split(name, '/')) && |Split(name, '/')| > 1
    ensures name == Dir(name) + ['/'] + Last(name)
  {
    var segs := Split(name, '/');
    var front, last := segs[..|segs| - 1], segs[|segs| - 1];
    JoinSplit(name, '/');
    assert segs == front + [last];
    JoinLast(front, last, '/');
    CleanTrailingSlash(front);
  }

  /** Read canonically, the components of a name are those of its directory part, then those of its last part. */
  lemma DirParts(name: string)
    requires AllProper(Split(Canon(name), '/')) && |Split(name, '/')| > 1
    ensures Split(Canon(name), '/') == Split(Canon(Dir(name)), '/') + Split(Canon(Last(name)), '/')
  {
    hide Dir, Last;
    var before, last := Dir(name), Last(name);
    ProperAsWritten(name);
    DirAndLast(name);
    CanonAppend(before + ['/'], last);
    CanonAppend(before, ['/']);
    assert Canon(['/']) == ['/'];
    SplitAppend(Canon(before), Canon(last), '/');
  }

  lemma CanonParts(name: string)
    requires '/' !in name
    ensures |Split(Canon(name), '/')| == 1 <==> '\\' !in name
  {
    if '\\' in name {
      var i :| 0 <= i < |name| && name[i] == '\\';
      assert Canon(name)[i] == '/';
      SplitCount(Canon(name), '/');
    } else {
      CanonPlain(name);
      SplitFree(name, '/');
    }
  }

  lemma RenderDiffers(rooted: bool, p: seq<string>, q: seq<string>)
    requires AllFree(p, '/') && AllFree(q, '/') && |p| < |q| && Proper(q[|q| - 1])
    ensures Render(rooted, p) != Render(rooted, q)
  {
    if |p| == 0 {
      RenderNonEmpty(rooted, q);
    } else {
      RenderInjective(rooted, p, q);
    }
  }

  /** The directory prepared for a restored file is the one that holds it exactly when the last part of the name,
      as written, holds no backslash. */
  lemma PreparedDirectory(dir: string, name: string)
    requires AllProper(Split(Canon(name), '/'))
    ensures FilePath(dir, Dir(name)) == Parent(dir, name) <==> '\\' !in Last(name)
  {
    hide Base, Render, Dir, FilePath, Canon;
    var segs, base := Split(Canon(name), '/'), Base(dir);
    var prefix := segs[..|segs| - 1];
    BaseFree(dir);
    SplitPartsFree(Canon(name), '/');
    SplitPartsFree(name, '/');
    CanonParts(Last(name));
    if |Split(name, '/')| == 1 {
      DirOfSingle(name);
      FilePathDot(dir);
      if |prefix| == 0 {
        assert base + prefix == base;
      } else {
        assert (base + prefix)[|base + prefix| - 1] == segs[|prefix| - 1];
        RenderDiffers(Rooted(dir), base, base + prefix);
      }
    } else {
      DirParts(name);
      var head, tail := Split(Canon(Dir(name)), '/'), Split(Canon(Last(name)), '/');
      assert AllProper(head) by {
        forall i | 0 <= i < |head| ensures Proper(head[i]) { assert head[i] == segs[i]; }
      }
      FilePathProper(dir, Dir(name));
      if |tail| == 1 {
        assert prefix == head;
      } else {
        RenderInjective(Rooted(dir), base + head, base + prefix);
        assert |base + head| != |base + prefix|;
      }
    }
  }

  // ---- targets as texts --------------------------------------------------------------------

  lemma {:induction false} JoinConcat(a: seq<string>, b: seq<string>, sep: char)
    requires |a| > 0 && |b| > 0
    ensures Join(a + b, sep) == Join(a, sep) + [sep] + Join(b, sep)
  {
    if |a| == 1 {
      assert (a + b)[1..] == b;
    } else {
      assert (a + b)[1..] == a[1..] + b;
      JoinConcat(a[1..], b, sep);
    }
  }

  lemma ProperText(d: string)
    requires AllProper(Split(d, '/'))
    ensures d != "" && !Rooted(d)
    ensures Join(Split(d, '/'), '/') == d
    ensures AllFree(Split(d, '/'), '/')
  {
    var segs := Split(d, '/');
    JoinSplit(d, '/');
    SplitPartsFree(d, '/');
    assert Proper(segs[0]);
    if |segs| > 1 {
      assert d[0] == segs[0][0];
    }
  }

  /** The cleaned directory, followed by the canonical name, each as it is written. */
  lemma TargetText(dir: string, name: string, d: string)
    requires AllProper(Split(Canon(name), '/')) && Base(dir) == Split(d, '/')
    ensures Render(Rooted(dir), Base(dir) + Split(Canon(name), '/')) ==
            (if Rooted(dir) then "/" else "") + d + "/" + Canon(name)
  {
    hide Base, Canon, Rooted, Split;
    JoinConcat(Split(d, '/'), Split(Canon(name), '/'), '/');
    JoinSplit(d, '/');
    JoinSplit(Canon(name), '/');
  }

  /** Below a relative directory. */
  lemma RelativeTarget(d: string, name: string)
    requires AllProper(Split(d, '/')) && AllProper(Split(Canon(name), '/'))
    ensures FilePath(d, name) == d + "/" + Canon(name)
  {
    hide FilePath, Render, Canon, Rooted;
    ProperText(d);
    PushProper(false, [], Split(d, '/'));
    assert [] + Split(d, '/') == Split(d, '/');
    FilePathProper(d, name);
    TargetText(d, name, d);
    assert "" + d == d;
  }

  lemma AbsoluteBase(d: string)
    requires AllProper(Split(d, '/'))
    ensures Base("/" + d) == Split(d, '/')
  {
    var segs := Split(d, '/');
    SplitAppend("", d, '/');
    assert "" + ['/'] + d == "/" + d;
    assert Split("", '/') == [""];
    assert ([""] + segs)[1..] == segs;
    PushProper(true, [], segs);
    assert [] + segs == segs;
    assert Rooted("/" + d);
  }

  /** Below an absolute directory, which stays absolute. */
  lemma AbsoluteTarget(d: string, name: string)
    requires AllProper(Split(d, '/')) && AllProper(Split(Canon(name), '/'))
    ensures FilePath("/" + d, name) == "/" + d + "/" + Canon(name)
  {
    hide FilePath, Render, Canon, Base;
    AbsoluteBase(d);
    FilePathProper("/" + d, name);
    TargetText("/" + d, name, d);
  }

  /** Below the root, and below no directory at all. */
  lemma RootTarget(name: string)
    requires AllProper(Split(Canon(name), '/'))
    ensures FilePath("/", name) == "/" + Canon(name)
    ensures FilePath("", name) == Canon(name)
  {
    hide FilePath, Canon;
    FilePathProper("/", name);
    FilePathProper("", name);
    JoinSplit(Canon(name), '/');
    SplitAppend("", "", '/');
    assert "" + ['/'] + "" == "/";
    assert Split("", '/') == [""];
    assert Base("/") == [] by {
      assert PushAll(true, [], ["", ""]) == PushAll(true, [], ["", ""][1..]) == PushAll(true, [], [""][1..]);
    }
    assert Base("") == [];
    assert [] + Split(Canon(name), '/') == Split(Canon(name), '/');
  }

  /** What a path adds after a slash is pushed after what it had. */
  lemma BaseMore(dir: string, more: string)
    requires dir != ""
    ensures Rooted(dir + "/" + more) == Rooted(dir)
    ensures Base(dir + "/" + more) == PushAll(Rooted(dir), Base(dir), Split(more, '/'))
  {
    var path := dir + "/" + more;
    assert path == dir + ['/'] + more && path[0] == dir[0];
    SplitAppend(dir, more, '/');
    PushAllAppend(Rooted(dir), [], Split(dir, '/'), Split(more, '/'));
  }

  lemma SameBase(dir: string, other: string, name: string)
    requires Rooted(dir) == Rooted(other) && Base(dir) == Base(other) && AllProper(Split(Canon(name), '/'))
    ensures FilePath(dir, name) == FilePath(other, name)
  {
    hide FilePath, Canon, Base, Rooted, Render;
    FilePathProper(dir, name);
    FilePathProper(other, name);
  }

  /** A component and the ".." after it cancel. */
  lemma BackTracks(dir: string, x: string, name: string)
    requires dir != "" && Proper(x) && AllProper(Split(Canon(name), '/'))
    ensures FilePath(dir + "/" + x + "/..", name) == FilePath(dir, name)
  {
    hide FilePath, Canon, Base, Rooted;
    var base, more := Base(dir), x + ['/'] + "..";
    assert dir + "/" + x + "/.." == dir + "/" + more;
    SplitFree(x, '/');
    SplitFree("..", '/');
    SplitAppend(x, "..", '/');
    BaseMore(dir, more);
    PushTwo(Rooted(dir), base, x, "..");
    assert Push(Rooted(dir), base, x) == base + [x];
    assert (base + [x])[..|base + [x]| - 1] == base;
    assert Push(Rooted(dir), base + [x], "..") == base;
    SameBase(dir + "/" + more, dir, name);
  }

  /** A final slash and a final "." change nothing. */
  lemma NothingAdded(dir: string, name: string)
    requires dir != "" && AllProper(Split(Canon(name), '/'))
    ensures FilePath(dir + "/", name) == FilePath(dir, name)
    ensures FilePath(dir + "/.", name) == FilePath(dir, name)
  {
    hide FilePath, Canon, Base, Rooted;
    assert dir + "/" + "" == dir + "/";
    assert dir + "/" + "." == dir + "/.";
    SplitFree(".", '/');
    assert Split("", '/') == [""];
    BaseMore(dir, "");
    BaseMore(dir, ".");
    PushOne(Rooted(dir), Base(dir), "");
    PushOne(Rooted(dir), Base(dir), ".");
    SameBase(dir + "/", dir, name);
    SameBase(dir + "/.", dir, name);
  }

  lemma PushOne(rooted: bool, stack: seq<string>, a: string)
    ensures PushAll(rooted, stack, [a]) == Push(rooted, stack, a)
  {
    assert PushAll(rooted, Push(rooted, stack, a), [a][1..]) == Push(rooted, stack, a);
  }

  lemma PushTwo(rooted: bool, stack: seq<string>, a: string, b: string)
    ensures PushAll(rooted, stack, [a] + [b]) == Push(rooted, Push(rooted, stack, a), b)
  {
    PushAllAppend(rooted, stack, [a], [b]);
    PushOne(rooted, stack, a);
    PushOne(rooted, Push(rooted, stack, a), b);
  }

  /** A leading ".." is nothing at the root. */
  lemma RootParentTarget(d: string, name: string)
    requires AllProper(Split(d, '/')) && AllProper(Split(Canon(name), '/'))
    ensures FilePath("/../" + d, name) == "/" + d + "/" + Canon(name)
  {
    hide FilePath, Canon, Render, Base, Rooted;
    assert "/.." + "/" + d == "/../" + d;
    BaseMore("/..", d);
    RootParent();
    PushProper(true, [], Split(d, '/'));
    assert [] + Split(d, '/') == Split(d, '/');
    AbsoluteBase(d);
    AbsoluteIsRooted(d);
    SameBase("/../" + d, "/" + d, name);
    AbsoluteTarget(d, name);
  }

  lemma AbsoluteIsRooted(d: string)
    ensures Rooted("/" + d)
  {
  }

  lemma RootParent()
    ensures Rooted("/..") && Base("/..") == []
  {
    SplitFree("..", '/');
    SplitAppend("", "..", '/');
    assert "" + ['/'] + ".." == "/..";
    assert Split("", '/') == [""];
    PushTwo(true, [], "", "..");
  }

  /** "../", this many times. */
  ghost function Up(k: nat): string
  {
    if k == 0 then "" else "../" + Up(k - 1)
  }

  ghost function Ups(k: nat): seq<string>
  {
    seq(k, _ => "..")
  }

  /** The ".." with which a relative directory begins all stay. */
  lemma ParentTarget(k: nat, d: string, name: string)
    requires (d == ".." || AllProper(Split(d, '/'))) && AllProper(Split(Canon(name), '/'))
    ensures FilePath(Up(k) + d, name) == Up(k) + d + "/" + Canon(name)
  {
    hide FilePath, Canon, Base, Rooted, Render;
    var dir := Up(k) + d;
    UpBase(k, d);
    FilePathProper(dir, name);
    TargetText(dir, name, dir);
    assert "" + dir == dir;
  }

  lemma UpBase(k: nat, d: string)
    requires d == ".." || AllProper(Split(d, '/'))
    ensures !Rooted(Up(k) + d) && Base(Up(k) + d) == Split(Up(k) + d, '/')
  {
    hide PushAll, Split;
    UpParts(k, d);
    if d == ".." {
      SplitFree(d, '/');
      assert Ups(k) + [".."] == Ups(k + 1) + [];
      PushUps(0, k + 1, []);
      PushNothing(Ups(k + 1));
    } else {
      ProperText(d);
      PushUps(0, k, Split(d, '/'));
      PushProper(false, Ups(k), Split(d, '/'));
    }
  }

  lemma PushNothing(stack: seq<string>)
    ensures PushAll(false, stack, []) == stack
  {
  }

  lemma {:induction false} UpParts(k: nat, d: string)
    ensures Split(Up(k) + d, '/') == Ups(k) + Split(d, '/')
  {
    hide Split;
    if k == 0 {
      assert Up(k) + d == d && Ups(k) + Split(d, '/') == Split(d, '/');
    } else {
      UpParts(k - 1, d);
      assert Up(k) + d == ".." + ['/'] + (Up(k - 1) + d);
      SplitHead("..", '/', Up(k - 1) + d);
      assert Ups(k) == [".."] + Ups(k - 1);
    }
  }

  lemma {:induction false} PushUps(j: nat, k: nat, segs: seq<string>)
    ensures Ups(0) == []
    ensures PushAll(false, Ups(j), Ups(k) + segs) == PushAll(false, Ups(j + k), segs)
    decreases k
  {
    if k == 0 {
      assert Ups(k) + segs == segs;
    } else {
      PushUps(j + 1, k - 1, segs);
      assert Push(false, Ups(j), "..") == Ups(j + 1);
      assert (Ups(k) + segs)[0] == ".." && (Ups(k) + segs)[1..] == Ups(k - 1) + segs;
    }
  }

  /** The directory of a file is what stands before its last slash. */
  lemma ParentText(dir: string, d: string, front: string, last: string)
    requires AllProper(Split(d, '/')) && Base(dir) == Split(d, '/')
    requires AllProper(Split(front, '/')) && '\\' !in front && Proper(last) && '\\' !in last
    ensures Parent(dir, front + "/" + last) == (if Rooted(dir) then "/" else "") + d + "/" + front
  {
    hide Base, Canon, Rooted, Split, AllProper;
    var name, segs := front + "/" + last, Split(front, '/');
    assert name == front + ['/'] + last;
    PlainConcat(front, last);
    SplitFree(last, '/');
    SplitAppend(front, last, '/');
    assert (segs + [last])[..|segs|] == segs;
    JoinConcat(Split(d, '/'), segs, '/');
    JoinSplit(d, '/');
    JoinSplit(front, '/');
  }

  lemma PlainConcat(front: string, last: string)
    requires '\\' !in front && '\\' !in last
    ensures Canon(front + "/" + last) == front + "/" + last
  {
    CanonPlain(front + "/" + last);
  }
}
