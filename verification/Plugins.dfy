/** The plugin list of the setup ConfigMap: required lines, then the user's plugins without repetition. */
module Plugins {
  import opened Text

  datatype Plugin = Plugin(id: string, version: string)

  /** strings.EqualFold: `fold` maps each character to the representative of its case-folding orbit. */
  predicate EqualFold(fold: char -> char, a: string, b: string)
  {
    |a| == |b| && forall i :: 0 <= i < |a| ==> fold(a[i]) == fold(b[i])
  }

  /** Some line of `lines` carries `id`, ignoring case, before its first colon. */
  predicate Listed(fold: char -> char, lines: seq<string>, id: string)
  {
    exists i :: 0 <= i < |lines| && EqualFold(fold, Head(lines[i], ':'), id)
  }

  function Line(p: Plugin): string
  {
    p.id + ":" + p.version
  }

  /** What the nested loops of newSetupConfigMap compute, one user plugin at a time. */
  function PluginList(fold: char -> char, required: seq<string>, plugins: seq<Plugin>): seq<string>
  {
    if |plugins| == 0 then required
    else
      var last := |plugins| - 1;
      var lines := PluginList(fold, required, plugins[..last]);
      if Listed(fold, lines, plugins[last].id) then lines else lines + [Line(plugins[last])]
  }

  /** The nested loops with their early break. */
  method BuildPluginList(fold: char -> char, required: seq<string>,
                         plugins: seq<Plugin>) returns (pluginList: seq<string>)
    ensures pluginList == PluginList(fold, required, plugins)
  {
    pluginList := required;
    assert plugins[..0] == [];
    for n := 0 to |plugins|
      invariant pluginList == PluginList(fold, required, plugins[..n])
    {
      var plugin := plugins[n];
      var isAlreadyRequired := false;
      for i := 0 to |pluginList|
        invariant !isAlreadyRequired
        invariant forall j :: 0 <= j < i ==> !EqualFold(fold, Head(pluginList[j], ':'), plugin.id)
      {
        var components := Split(pluginList[i], ':');
        if EqualFold(fold, components[0], plugin.id) {
          isAlreadyRequired := true;
          break;
        }
      }
      assert plugins[..n + 1][..n] == plugins[..n];
      if !isAlreadyRequired {
        pluginList := pluginList + [plugin.id + ":" + plugin.version];
      }
    }
    assert plugins[..|plugins|] == plugins;
  }

  /** Ids that carry no colon, so that the id of a line is the id it was built from. */
  ghost predicate PlainIds(plugins: seq<Plugin>)
  {
    forall i :: 0 <= i < |plugins| ==> ':' !in plugins[i].id
  }

  /** No other character is a case variant of the colon, as Unicode has it. */
  ghost predicate ColonFoldsAlone(fold: char -> char)
  {
    forall c :: fold(c) == fold(':') ==> c == ':'
  }

  /** User plugin `n` is kept: neither a required line nor the line of an earlier user plugin has its id, ignoring
      case, before its first colon. */
  predicate FirstAppearance(fold: char -> char, required: seq<string>, plugins: seq<Plugin>, n: nat)
    requires n < |plugins|
  {
    && !Listed(fold, required, plugins[n].id)
    && forall m :: 0 <= m < n ==> !EqualFold(fold, Head(plugins[m].id, ':'), plugins[n].id)
  }

  /** The kept user plugins, in their order. */
  function Kept(fold: char -> char, required: seq<string>, plugins: seq<Plugin>, upTo: nat): seq<Plugin>
    requires upTo <= |plugins|
  {
    if upTo == 0 then []
    else
      var before := Kept(fold, required, plugins, upTo - 1);
      if FirstAppearance(fold, required, plugins, upTo - 1) then before + [plugins[upTo - 1]] else before
  }

  function Lines(plugins: seq<Plugin>): (r: seq<string>)
    ensures |r| == |plugins|
    ensures forall i :: 0 <= i < |plugins| ==> r[i] == Line(plugins[i])
  {
    seq(|plugins|, i requires 0 <= i < |plugins| => Line(plugins[i]))
  }

  lemma LinesAppend(plugins: seq<Plugin>, p: Plugin)
    ensures Lines(plugins + [p]) == Lines(plugins) + [Line(p)]
  {
  }

  // ---- for every input ---------------------------------------------------------------------

  /** `part` is `whole` with some elements left out. */
  ghost predicate Subsequence<T>(part: seq<T>, whole: seq<T>)
  {
    || |part| == 0
    || (|whole| > 0 && Subsequence(part, whole[..|whole| - 1]))
    || (|whole| > 0 && part[|part| - 1] == whole[|whole| - 1]
        && Subsequence(part[..|part| - 1], whole[..|whole| - 1]))
  }

  /** Whatever the ids and the folding are: the required lines stay as an unchanged prefix, and the rest are lines of
      the user's plugins, in their order. */
  lemma {:induction false} RequiredThenUserLines(fold: char -> char, required: seq<string>, plugins: seq<Plugin>)
    returns (chosen: seq<Plugin>)
    ensures PluginList(fold, required, plugins) == required + Lines(chosen) && Subsequence(chosen, plugins)
    ensures required <= PluginList(fold, required, plugins)
  {
    hide Listed, Line, Lines;
    if |plugins| == 0 {
      chosen := [];
    } else {
      var last := |plugins| - 1;
      chosen := RequiredThenUserLines(fold, required, plugins[..last]);
      if !Listed(fold, PluginList(fold, required, plugins[..last]), plugins[last].id) {
        LinesAppend(chosen, plugins[last]);
        assert (chosen + [plugins[last]])[..|chosen|] == chosen;
        chosen := chosen + [plugins[last]];
      }
    }
  }

  // ---- which user plugins are on the list --------------------------------------------------

  /** Before its first colon a line has what its id has there. */
  lemma LineHead(p: Plugin)
    ensures Head(Line(p), ':') == Head(p.id, ':')
    ensures ':' !in Head(p.id, ':')
    ensures ':' !in p.id <==> Head(p.id, ':') == p.id
  {
    var parts := Split(p.id, ':');
    SplitPartsFree(p.id, ':');
    SplitCount(p.id, ':');
    JoinSplit(p.id, ':');
    assert ':' !in parts[0];
    if ':' in p.id {
      assert p.id == parts[0] + [':'] + Join(parts[1..], ':');
      assert Line(p) == parts[0] + [':'] + (Join(parts[1..], ':') + ":" + p.version);
      SplitHead(parts[0], ':', Join(parts[1..], ':') + ":" + p.version);
    } else {
      SplitHead(p.id, ':', p.version);
    }
  }

  /** What equals, ignoring case, the text before a first colon holds no colon itself. */
  lemma HeadsHaveNoColon(fold: char -> char, line: string, id: string)
    requires ColonFoldsAlone(fold) && EqualFold(fold, Head(line, ':'), id)
    ensures ':' !in id
  {
    SplitPartsFree(line, ':');
    var head := Head(line, ':');
    forall i | 0 <= i < |id| ensures id[i] != ':' {
      assert fold(head[i]) == fold(id[i]) && head[i] in head;
    }
  }

  lemma ListedAppend(fold: char -> char, lines: seq<string>, line: string, id: string)
    ensures Listed(fold, lines + [line], id) <==> Listed(fold, lines, id) || EqualFold(fold, Head(line, ':'), id)
  {
    var more := lines + [line];
    assert more[|lines|] == line;
    if i :| 0 <= i < |lines| && EqualFold(fold, Head(lines[i], ':'), id) {
      assert more[i] == lines[i];
    }
  }

  lemma ListedFold(fold: char -> char, lines: seq<string>, a: string, b: string)
    requires EqualFold(fold, a, b)
    ensures Listed(fold, lines, a) <==> Listed(fold, lines, b)
  {
  }

  /** Some line so far comes from a plugin whose id agrees with `id` before its first colon. */
  ghost predicate Headed(fold: char -> char, plugins: seq<Plugin>, id: string)
  {
    exists m :: 0 <= m < |plugins| && EqualFold(fold, Head(plugins[m].id, ':'), id)
  }

  /** Under this condition only colon-free ids are ever found on the list. */
  ghost predicate ColonsTold(fold: char -> char, plugins: seq<Plugin>)
  {
    ColonFoldsAlone(fold) || PlainIds(plugins)
  }

  /** The list carries exactly what a required line or any user plugin, kept or not, has before its first colon. */
  lemma {:induction false} ListedExactly(fold: char -> char, required: seq<string>, plugins: seq<Plugin>, id: string)
    requires ColonsTold(fold, plugins)
    ensures Listed(fold, PluginList(fold, required, plugins), id) <==>
              Listed(fold, required, id) || Headed(fold, plugins, id)
  {
    if |plugins| > 0 {
      var last := |plugins| - 1;
      var front, p := plugins[..last], plugins[last];
      var lines := PluginList(fold, required, front);
      ListedExactly(fold, required, front, id);
      LineHead(p);
      ListedAppend(fold, lines, Line(p), id);
      assert Headed(fold, plugins, id) <==> Headed(fold, front, id) || EqualFold(fold, Head(p.id, ':'), id) by {
        if m :| 0 <= m < last && EqualFold(fold, Head(front[m].id, ':'), id) {
          assert plugins[m] == front[m];
        }
      }
      if Listed(fold, lines, p.id) {
        var i :| 0 <= i < |lines| && EqualFold(fold, Head(lines[i], ':'), p.id);
        if ColonFoldsAlone(fold) {
          HeadsHaveNoColon(fold, lines[i], p.id);
        }
        assert Head(p.id, ':') == p.id;
        if EqualFold(fold, p.id, id) {
          ListedFold(fold, lines, p.id, id);
        }
      }
    }
  }

  /** The loops keep the required lines as an unchanged prefix and then the user's plugins in order, each id only at
      its first appearance. */
  lemma {:induction false} PluginListIsPrefixAndFirstAppearances(fold: char -> char, required: seq<string>,
                                                                 plugins: seq<Plugin>)
    requires ColonsTold(fold, plugins)
    ensures PluginList(fold, required, plugins) == required + Lines(Kept(fold, required, plugins, |plugins|))
  {
    PluginListUpTo(fold, required, plugins, |plugins|);
    assert plugins[..|plugins|] == plugins;
  }

  /** The next plugin is a first appearance exactly when the list built so far does not carry its id. */
  lemma FirstAppearanceIsUnlisted(fold: char -> char, required: seq<string>, plugins: seq<Plugin>, n: nat)
    requires n < |plugins| && ColonsTold(fold, plugins)
    ensures FirstAppearance(fold, required, plugins, n) <==>
              !Listed(fold, PluginList(fold, required, plugins[..n]), plugins[n].id)
  {
    hide Listed, EqualFold, Head, PluginList;
    ListedExactly(fold, required, plugins[..n], plugins[n].id);
    assert forall m :: 0 <= m < n ==> plugins[..n][m] == plugins[m];
  }

  lemma {:induction false} PluginListUpTo(fold: char -> char, required: seq<string>, plugins: seq<Plugin>, n: nat)
    requires n <= |plugins| && ColonsTold(fold, plugins)
    ensures PluginList(fold, required, plugins[..n]) == required + Lines(Kept(fold, required, plugins, n))
  {
    hide Listed, FirstAppearance, Line, Lines, ColonsTold;
    if n == 0 {
      NoLines();
    } else {
      PluginListUpTo(fold, required, plugins, n - 1);
      FirstAppearanceIsUnlisted(fold, required, plugins, n - 1);
      assert plugins[..n][..n - 1] == plugins[..n - 1];
      LinesAppend(Kept(fold, required, plugins, n - 1), plugins[n - 1]);
    }
  }

  lemma NoLines()
    ensures Lines([]) == []
  {
  }

  /** With plain ids a first appearance is what it says: no required line and no earlier plugin has the id. */
  lemma PlainFirstAppearance(fold: char -> char, required: seq<string>, plugins: seq<Plugin>, n: nat)
    requires n < |plugins| && PlainIds(plugins)
    ensures FirstAppearance(fold, required, plugins, n) <==>
              && !Listed(fold, required, plugins[n].id)
              && forall m :: 0 <= m < n ==> !EqualFold(fold, plugins[m].id, plugins[n].id)
  {
    forall m | 0 <= m < n ensures Head(plugins[m].id, ':') == plugins[m].id {
      LineHead(plugins[m]);
    }
  }

  /** Every requested id is carried by some line of the list exactly when no id holds a colon. */
  lemma EveryIdRepresented(fold: char -> char, required: seq<string>, plugins: seq<Plugin>)
    requires ColonFoldsAlone(fold)
    ensures (forall n :: 0 <= n < |plugins| ==> Listed(fold, PluginList(fold, required, plugins), plugins[n].id)) <==>
              PlainIds(plugins)
  {
    var list := PluginList(fold, required, plugins);
    forall n | 0 <= n < |plugins| ensures Listed(fold, list, plugins[n].id) <==> ':' !in plugins[n].id {
      var id := plugins[n].id;
      if ':' !in id {
        PlainIdRepresented(fold, required, plugins, n);
      } else if i :| 0 <= i < |list| && EqualFold(fold, Head(list[i], ':'), id) {
        HeadsHaveNoColon(fold, list[i], id);
      }
    }
  }

  /** A colon-free id is carried whatever the other ids are. */
  lemma PlainIdRepresented(fold: char -> char, required: seq<string>, plugins: seq<Plugin>, n: nat)
    requires ColonsTold(fold, plugins) && n < |plugins| && ':' !in plugins[n].id
    ensures Listed(fold, PluginList(fold, required, plugins), plugins[n].id)
  {
    ListedExactly(fold, required, plugins, plugins[n].id);
    LineHead(plugins[n]);
    assert EqualFold(fold, Head(plugins[n].id, ':'), plugins[n].id);
  }

  /** No two lines carry the same id, ignoring case. */
  ghost predicate DistinctIds(fold: char -> char, lines: seq<string>)
  {
    forall i, j :: 0 <= i < j < |lines| ==> !EqualFold(fold, Head(lines[i], ':'), Head(lines[j], ':'))
  }

  /** What plugin `n`'s id has before its first colon is new: no required line and no earlier plugin has it. */
  ghost predicate NewHead(fold: char -> char, required: seq<string>, plugins: seq<Plugin>, n: nat)
    requires n < |plugins|
  {
    var head := Head(plugins[n].id, ':');
    !Listed(fold, required, head) && forall m :: 0 <= m < n ==> !EqualFold(fold, Head(plugins[m].id, ':'), head)
  }

  lemma DistinctAppend(fold: char -> char, lines: seq<string>, line: string)
    ensures DistinctIds(fold, lines + [line]) <==>
              DistinctIds(fold, lines) && !Listed(fold, lines, Head(line, ':'))
  {
    var more := lines + [line];
    assert forall i :: 0 <= i < |lines| ==> more[i] == lines[i];
    if Listed(fold, lines, Head(line, ':')) {
      var i :| 0 <= i < |lines| && EqualFold(fold, Head(lines[i], ':'), Head(line, ':'));
      assert EqualFold(fold, Head(more[i], ':'), Head(more[|lines|], ':'));
    }
    if DistinctIds(fold, more) {
      forall i, j | 0 <= i < j < |lines| ensures !EqualFold(fold, Head(lines[i], ':'), Head(lines[j], ':')) {
        assert !EqualFold(fold, Head(more[i], ':'), Head(more[j], ':'));
      }
    }
  }

  /** A plugin whose id is on the list already has a plain id. */
  lemma ListedIsPlain(fold: char -> char, required: seq<string>, plugins: seq<Plugin>, n: nat)
    requires ColonsTold(fold, plugins) && n < |plugins|
    requires Listed(fold, PluginList(fold, required, plugins[..n]), plugins[n].id)
    ensures ':' !in plugins[n].id
  {
    if ColonFoldsAlone(fold) {
      var lines := PluginList(fold, required, plugins[..n]);
      var i :| 0 <= i < |lines| && EqualFold(fold, Head(lines[i], ':'), plugins[n].id);
      HeadsHaveNoColon(fold, lines[i], plugins[n].id);
    }
  }

  lemma NewHeadIsUnlisted(fold: char -> char, required: seq<string>, plugins: seq<Plugin>, n: nat)
    requires ColonsTold(fold, plugins) && n < |plugins|
    ensures NewHead(fold, required, plugins, n) <==>
              !Listed(fold, PluginList(fold, required, plugins[..n]), Head(plugins[n].id, ':'))
  {
    var front, head := plugins[..n], Head(plugins[n].id, ':');
    ListedExactly(fold, required, front, head);
    assert forall m :: 0 <= m < n ==> front[m] == plugins[m];
  }

  lemma NewHeadOfPrefix(fold: char -> char, required: seq<string>, plugins: seq<Plugin>, upTo: nat, n: nat)
    requires n < upTo <= |plugins|
    ensures NewHead(fold, required, plugins[..upTo], n) <==> NewHead(fold, required, plugins, n)
  {
    assert forall m :: 0 <= m <= n ==> plugins[..upTo][m] == plugins[m];
  }

  ghost predicate ColonHeadsNew(fold: char -> char, required: seq<string>, plugins: seq<Plugin>)
  {
    forall n :: 0 <= n < |plugins| && ':' in plugins[n].id ==> NewHead(fold, required, plugins, n)
  }

  lemma ColonHeadsNext(fold: char -> char, required: seq<string>, plugins: seq<Plugin>)
    requires |plugins| > 0
    ensures var last := |plugins| - 1;
            ColonHeadsNew(fold, required, plugins) <==>
              && ColonHeadsNew(fold, required, plugins[..last])
              && (':' in plugins[last].id ==> NewHead(fold, required, plugins, last))
  {
    hide NewHead;
    var last := |plugins| - 1;
    forall n | 0 <= n < last
      ensures plugins[..last][n] == plugins[n]
      ensures NewHead(fold, required, plugins[..last], n) <==> NewHead(fold, required, plugins, n)
    {
      NewHeadOfPrefix(fold, required, plugins, last, n);
    }
  }

  /** The list repeats no id exactly when the required list repeats none and every id that holds a colon is new before
      its first colon. */
  lemma {:induction false} NoIdTwice(fold: char -> char, required: seq<string>, plugins: seq<Plugin>)
    requires ColonsTold(fold, plugins)
    ensures DistinctIds(fold, PluginList(fold, required, plugins)) <==>
              DistinctIds(fold, required) && ColonHeadsNew(fold, required, plugins)
  {
    hide DistinctIds, Listed, NewHead, ColonHeadsNew;
    if |plugins| == 0 {
      assert ColonHeadsNew(fold, required, plugins) by { NoPlugins(fold, required); }
    } else {
      var last := |plugins| - 1;
      var p := plugins[last];
      var before := PluginList(fold, required, plugins[..last]);
      NoIdTwice(fold, required, plugins[..last]);
      ColonHeadsNext(fold, required, plugins);
      NewHeadIsUnlisted(fold, required, plugins, last);
      LineHead(p);
      DistinctAppend(fold, before, Line(p));
      if Listed(fold, before, p.id) {
        ListedIsPlain(fold, required, plugins, last);
      }
    }
  }

  lemma NoPlugins(fold: char -> char, required: seq<string>)
    ensures ColonHeadsNew(fold, required, [])
  {
  }

  /** With colon-free ids the list repeats an id exactly when the required list already did. */
  lemma PlainIdsNotTwice(fold: char -> char, required: seq<string>, plugins: seq<Plugin>)
    requires PlainIds(plugins)
    ensures DistinctIds(fold, PluginList(fold, required, plugins)) <==> DistinctIds(fold, required)
  {
    NoIdTwice(fold, required, plugins);
  }

  lemma ColonLine(fold: char -> char, p: Plugin)
    requires p == Plugin("a:b", "1")
    ensures PluginList(fold, [], [p]) == ["a:b:1"]
    ensures Head("a:b:1", ':') == "a"
  {
    SplitHead("a", ':', "b:1");
    assert "a:b:1" == "a" + [':'] + "b:1";
    assert [p][..0] == [];
    assert PluginList(fold, [], [p][..0]) == [];
    assert PluginList(fold, [], [p]) == [Line(p)];
    assert Line(p) == "a:b:1";
  }

  /** A colon inside an id defeats the comparison: the same plugin is listed twice. */
  lemma ColonInIdRepeats(fold: char -> char)
    ensures
      var twice := [Plugin("a:b", "1"), Plugin("a:b", "1")];
      && PluginList(fold, [], twice) == ["a:b:1", "a:b:1"]
      && !DistinctIds(fold, PluginList(fold, [], twice))
  {
    var p := Plugin("a:b", "1");
    var twice := [p, p];
    ColonLine(fold, p);
    assert twice[..1] == [p] && Line(p) == "a:b:1";
    assert !Listed(fold, ["a:b:1"], p.id);
    var lines := PluginList(fold, [], twice);
    assert lines == ["a:b:1", "a:b:1"];
    assert EqualFold(fold, Head(lines[0], ':'), Head(lines[1], ':'));
  }

  /** It also makes a line pass for the plugin named before the colon, which is then left out altogether. */
  lemma ColonInIdDrops(fold: char -> char)
    ensures PluginList(fold, [], [Plugin("a:b", "1"), Plugin("a", "2")]) == ["a:b:1"]
  {
    var p, q := Plugin("a:b", "1"), Plugin("a", "2");
    ColonLine(fold, p);
    assert [p, q][..1] == [p];
    assert EqualFold(fold, Head(["a:b:1"][0], ':'), q.id);
    assert Listed(fold, ["a:b:1"], q.id);
  }

  /** What a reader of one plugins.txt line recovers: the text before and after its first colon. */
  function ParseLine(line: string): Plugin
  {
    var parts := Split(line, ':');
    Plugin(parts[0], Join(parts[1..], ':'))
  }

  function ParseLines(lines: seq<string>): (r: seq<Plugin>)
    ensures |r| == |lines|
    ensures forall i :: 0 <= i < |lines| ==> r[i] == ParseLine(lines[i])
  {
    seq(|lines|, i requires 0 <= i < |lines| => ParseLine(lines[i]))
  }

  lemma ParseLineInverse(p: Plugin)
    ensures ParseLine(Line(p)) == p <==> ':' !in p.id
  {
    if ':' !in p.id {
      SplitHead(p.id, ':', p.version);
      JoinSplit(p.version, ':');
      assert (([p.id] + Split(p.version, ':'))[1..]) == Split(p.version, ':');
    } else {
      SplitPartsFree(Line(p), ':');
      assert ':' !in Split(Line(p), ':')[0];
    }
  }

  /** No newline anywhere and no carriage return at the end of a line. */
  ghost predicate LineSafe(plugins: seq<Plugin>)
  {
    forall i :: 0 <= i < |plugins| ==>
      && '\n' !in plugins[i].id && '\n' !in plugins[i].version
      && (|plugins[i].version| > 0 ==> plugins[i].version[|plugins[i].version| - 1] != '\r')
  }

  lemma LineShape(p: Plugin)
    ensures '\n' in Line(p) <==> '\n' in p.id || '\n' in p.version
    ensures DropCR(Line(p)) == Line(p) <==> !(|p.version| > 0 && p.version[|p.version| - 1] == '\r')
    ensures Line(p) != ""
  {
    var line := Line(p);
    assert line == p.id + [':'] + p.version;
    assert line[|line| - 1] == if |p.version| > 0 then p.version[|p.version| - 1] else ':';
  }

  lemma LineSafeIsScannable(plugins: seq<Plugin>)
    ensures LineSafe(plugins) <==> Scannable(Lines(plugins))
  {
    forall i | 0 <= i < |plugins| {
      LineShape(plugins[i]);
    }
    if Scannable(Lines(plugins)) {
      forall i | 0 <= i < |plugins|
        ensures '\n' !in Lines(plugins)[i] && DropCR(Lines(plugins)[i]) == Lines(plugins)[i] {
      }
    }
  }

  /** Scanning joined plugin lines gives them back exactly when they are line-safe. */
  lemma LinesScan(plugins: seq<Plugin>)
    ensures LineSafe(plugins) <==> ScanLines(Join(Lines(plugins), '\n')) == Lines(plugins)
  {
    LineSafeIsScannable(plugins);
    ScanJoin(Lines(plugins));
  }

  /** Cutting plugin lines at their first colons gives the plugins back exactly when no id holds a colon. */
  lemma LinesParse(plugins: seq<Plugin>)
    ensures ParseLines(Lines(plugins)) == plugins <==> PlainIds(plugins)
  {
    var parsed := ParseLines(Lines(plugins));
    forall i | 0 <= i < |plugins| ensures parsed[i] == plugins[i] <==> ':' !in plugins[i].id {
      ParseLineInverse(plugins[i]);
    }
  }

  // ---- the plugins.txt the operator writes -------------------------------------------------

  /** Lines a scanner can have read and the loops can go on with: no newline, no carriage return at an end. */
  ghost predicate Unbroken(lines: seq<string>)
  {
    AllFree(lines, '\n') && forall i :: 0 <= i < |lines| ==> DropCR(lines[i]) == lines[i]
  }

  /** The whole list scans back from the text written exactly when its required lines are unbroken, its user lines
      are line-safe, and no empty required line comes last. */
  lemma {:induction false} PluginsTxtLines(fold: char -> char, required: seq<string>, plugins: seq<Plugin>)
    requires ColonsTold(fold, plugins)
    ensures var list, kept := PluginList(fold, required, plugins), Kept(fold, required, plugins, |plugins|);
            ScanLines(Join(list, '\n')) == list <==>
              && Unbroken(required) && LineSafe(kept)
              && (|kept| == 0 && |required| > 0 ==> required[|required| - 1] != "")
  {
    hide ScanLines, Join, PluginList, Kept, Lines, LineSafe, ColonsTold, Unbroken, DropCR;
    var list, kept := PluginList(fold, required, plugins), Kept(fold, required, plugins, |plugins|);
    PluginListIsPrefixAndFirstAppearances(fold, required, plugins);
    ScanJoin(list);
    ScannableIs(list);
    ScannableIs(Lines(kept));
    LineSafeIsScannable(kept);
    UnbrokenConcat(required, Lines(kept));
    LinesEnd(kept);
    assert |kept| > 0 ==> list[|list| - 1] == Lines(kept)[|kept| - 1];
  }

  lemma ScannableIs(lines: seq<string>)
    ensures Scannable(lines) <==> Unbroken(lines) && (|lines| > 0 ==> lines[|lines| - 1] != "")
  {
  }

  lemma LinesEnd(plugins: seq<Plugin>)
    ensures |Lines(plugins)| == |plugins|
    ensures |plugins| > 0 ==> Lines(plugins)[|plugins| - 1] != ""
  {
    if |plugins| > 0 {
      LineShape(plugins[|plugins| - 1]);
    }
  }

  lemma UnbrokenConcat(a: seq<string>, b: seq<string>)
    ensures Unbroken(a + b) <==> Unbroken(a) && Unbroken(b)
  {
    assert forall i :: 0 <= i < |a| ==> (a + b)[i] == a[i];
    assert forall i :: 0 <= i < |b| ==> (a + b)[|a| + i] == b[i];
  }

  /** plugins.txt round trip: scanning the text the operator writes and cutting each line at its first colon gives
      what the required lines say and then the kept user plugins, exactly when no user id holds a colon. */
  lemma {:induction false} PluginsTxtRoundTrip(fold: char -> char, required: seq<string>, plugins: seq<Plugin>)
    requires ColonFoldsAlone(fold) && Scannable(required) && LineSafe(plugins)
    ensures var kept := Kept(fold, required, plugins, |plugins|);
            ParseLines(ScanLines(Join(PluginList(fold, required, plugins), '\n'))) == ParseLines(required) + kept <==>
              PlainIds(plugins)
  {
    hide ParseLines, ScanLines, Join, Lines, PluginList, Kept, PlainIds;
    var kept := Kept(fold, required, plugins, |plugins|);
    KeptLineSafe(fold, required, plugins, |plugins|);
    PluginsTxtLines(fold, required, plugins);
    PluginListIsPrefixAndFirstAppearances(fold, required, plugins);
    KeptPlain(fold, required, plugins, |plugins|);
    assert plugins[..|plugins|] == plugins;
    ParseConcat(required, kept);
  }

  lemma ParseConcat(a: seq<string>, kept: seq<Plugin>)
    ensures ParseLines(a + Lines(kept)) == ParseLines(a) + kept <==> PlainIds(kept)
  {
    hide ParseLine, Line, PlainIds;
    LinesParse(kept);
    var parsed := ParseLines(a + Lines(kept));
    assert parsed == ParseLines(a) + ParseLines(Lines(kept));
    assert parsed[|a|..] == ParseLines(Lines(kept));
    assert (ParseLines(a) + kept)[|a|..] == kept;
  }

  /** When the required lines were written from plugins too, all pairs come back. */
  lemma {:induction false} RequiredPairsRoundTrip(fold: char -> char, required: seq<Plugin>, plugins: seq<Plugin>)
    requires ColonFoldsAlone(fold) && LineSafe(required) && PlainIds(required) && LineSafe(plugins) && PlainIds(plugins)
    ensures ParseLines(ScanLines(Join(PluginList(fold, Lines(required), plugins), '\n'))) ==
            required + Kept(fold, Lines(required), plugins, |plugins|)
  {
    LineSafeIsScannable(required);
    LinesParse(required);
    PluginsTxtRoundTrip(fold, Lines(required), plugins);
  }

  lemma {:induction false} KeptLineSafe(fold: char -> char, required: seq<string>, plugins: seq<Plugin>, upTo: nat)
    requires upTo <= |plugins| && LineSafe(plugins)
    ensures LineSafe(Kept(fold, required, plugins, upTo))
  {
    if upTo > 0 {
      KeptLineSafe(fold, required, plugins, upTo - 1);
    }
  }

  /** An id that holds a colon is always kept. */
  lemma {:induction false} KeptPlain(fold: char -> char, required: seq<string>, plugins: seq<Plugin>, upTo: nat)
    requires upTo <= |plugins| && ColonFoldsAlone(fold)
    ensures PlainIds(Kept(fold, required, plugins, upTo)) <==> PlainIds(plugins[..upTo])
  {
    if upTo > 0 {
      KeptPlain(fold, required, plugins, upTo - 1);
      var p := plugins[upTo - 1];
      var before := Kept(fold, required, plugins, upTo - 1);
      PlainAppend(before, p);
      PlainAppend(plugins[..upTo - 1], p);
      assert plugins[..upTo] == plugins[..upTo - 1] + [p];
      if ':' in p.id {
        ColonIsKept(fold, required, plugins, upTo - 1);
      }
    }
    assert plugins[..0] == [];
  }

  lemma PlainAppend(plugins: seq<Plugin>, p: Plugin)
    ensures PlainIds(plugins + [p]) <==> PlainIds(plugins) && ':' !in p.id
  {
    var more := plugins + [p];
    assert more[|plugins|] == p && forall i :: 0 <= i < |plugins| ==> more[i] == plugins[i];
  }

  lemma ColonIsKept(fold: char -> char, required: seq<string>, plugins: seq<Plugin>, n: nat)
    requires ColonFoldsAlone(fold) && n < |plugins| && ':' in plugins[n].id
    ensures FirstAppearance(fold, required, plugins, n)
  {
    var id := plugins[n].id;
    forall line: string ensures !EqualFold(fold, Head(line, ':'), id) {
      if EqualFold(fold, Head(line, ':'), id) {
        HeadsHaveNoColon(fold, line, id);
      }
    }
  }
}
