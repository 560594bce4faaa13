/** The data of the setup ConfigMap as a reader of its two files finds it. */
module PluginsFile {
  import opened Text
  import opened Plugins
  import opened Api
  import opened Protocol

  /** Before its first colon the line has this id, ignoring case. */
  ghost predicate Carries(fold: char -> char, line: string, id: string)
  {
    exists head :: IsHead(line, head) && |head| == |id| && forall i :: 0 <= i < |id| ==> fold(head[i]) == fold(id[i])
  }

  predicate IsHead(line: string, head: string)
  {
    ':' !in head && (line == head || head + ":" <= line)
  }

  lemma HeadIsHead(line: string, head: string)
    ensures IsHead(line, head) <==> head == Head(line, ':')
  {
    var parts := Split(line, ':');
    SplitPartsFree(line, ':');
    JoinSplit(line, ':');
    var first := parts[0];
    assert ':' !in first;
    if |parts| > 1 {
      assert line == first + [':'] + Join(parts[1..], ':');
      assert line[..|first| + 1] == first + ":";
    }
    if IsHead(line, head) {
      if line == head {
        SplitFree(head, ':');
      } else {
        var rest := line[|head| + 1..];
        assert line == head + [':'] + rest;
        SplitHead(head, ':', rest);
      }
    }
  }

  lemma CarriesIs(fold: char -> char, line: string, id: string)
    ensures Carries(fold, line, id) <==> EqualFold(fold, Head(line, ':'), id)
  {
    hide Head;
    HeadIsHead(line, Head(line, ':'));
    if head :| IsHead(line, head) && |head| == |id| && forall i :: 0 <= i < |id| ==> fold(head[i]) == fold(id[i]) {
      HeadIsHead(line, head);
    }
  }

  /** Some line carries the id. */
  ghost predicate IsCarried(fold: char -> char, lines: seq<string>, id: string)
  {
    exists i :: 0 <= i < |lines| && Carries(fold, lines[i], id)
  }

  lemma IsCarriedIs(fold: char -> char, lines: seq<string>, id: string)
    ensures IsCarried(fold, lines, id) <==> Listed(fold, lines, id)
  {
    hide Head, EqualFold, Carries;
    forall i | 0 <= i < |lines| ensures Carries(fold, lines[i], id) <==> EqualFold(fold, Head(lines[i], ':'), id) {
      CarriesIs(fold, lines[i], id);
    }
  }

  /** Line `j` was written for one of the user's plugins, whose id no line before it carries. */
  ghost predicate IsUserLine(fold: char -> char, lines: seq<string>, j: nat, plugins: seq<Plugin>)
    requires j < |lines|
  {
    exists n :: 0 <= n < |plugins| && lines[j] == plugins[n].id + ":" + plugins[n].version
                && !IsCarried(fold, lines[..j], plugins[n].id)
  }

  /** Behind the required lines come lines of the user's plugins, none for an id that is there already. */
  lemma {:induction false} UserLinesAreNew(fold: char -> char, required: seq<string>, plugins: seq<Plugin>, j: nat)
    requires |required| <= j < |PluginList(fold, required, plugins)|
    ensures IsUserLine(fold, PluginList(fold, required, plugins), j, plugins)
  {
    hide Listed, IsCarried;
    var list, last := PluginList(fold, required, plugins), |plugins| - 1;
    var before := PluginList(fold, required, plugins[..last]);
    if j < |before| {
      UserLinesAreNew(fold, required, plugins[..last], j);
      assert list[..j] == before[..j] && list[j] == before[j];
      var n :| 0 <= n < last && before[j] == plugins[..last][n].id + ":" + plugins[..last][n].version
               && !IsCarried(fold, before[..j], plugins[..last][n].id);
      assert plugins[..last][n] == plugins[n];
    } else {
      IsCarriedIs(fold, before, plugins[last].id);
      assert list[..j] == before && list[j] == Line(plugins[last]);
    }
  }

  /** The keys of the new ConfigMap, and the configuration in it. */
  lemma DataKeys(cfg: Config, req: Name, inst: Instance)
    requires inst.body.spec.cascConfig.Some?
    ensures var data, config := NewConfigMap(cfg, req, inst).body.data, inst.body.spec.cascConfig.value.configString;
            && data.Keys == {"plugins.txt"} + (if config == "" then {} else {"jenkins.yaml"})
            && (config != "" ==> data["jenkins.yaml"] == config)
  {
    hide PluginsTxt, Labels;
    var data, config := NewConfigMap(cfg, req, inst).body.data, inst.body.spec.cascConfig.value.configString;
    if config == "" {
      assert data == map["plugins.txt" := PluginsTxt(cfg, inst.body.spec)];
    } else {
      assert data == map["plugins.txt" := PluginsTxt(cfg, inst.body.spec), "jenkins.yaml" := config];
    }
  }

  /** Scanning plugins.txt finds the required lines first, then only lines of the user's plugins, each for an id that
      is not carried before; and every id that holds no colon is carried by some line. */
  lemma PluginsTxtSays(cfg: Config, req: Name, inst: Instance)
    requires inst.body.spec.cascConfig.Some? && ColonFoldsAlone(cfg.fold)
    requires Scannable(cfg.requiredPlugins) && LineSafe(inst.body.spec.plugins)
    ensures "plugins.txt" in NewConfigMap(cfg, req, inst).body.data
    ensures var lines := ScanLines(NewConfigMap(cfg, req, inst).body.data["plugins.txt"]);
            var plugins := inst.body.spec.plugins;
            && cfg.requiredPlugins <= lines
            && (forall j :: |cfg.requiredPlugins| <= j < |lines| ==>
                  IsUserLine(cfg.fold, lines, j, plugins))
            && (forall n :: 0 <= n < |plugins| && ':' !in plugins[n].id ==>
                  IsCarried(cfg.fold, lines, plugins[n].id))
  {
    hide ScanLines, Join, IsUserLine, IsCarried, Listed, LineSafe, Scannable, ColonFoldsAlone, Labels, PluginList;
    var plugins, fold, required := inst.body.spec.plugins, cfg.fold, cfg.requiredPlugins;
    var lines := PluginList(fold, required, plugins);
    DataKeys(cfg, req, inst);
    PluginsTxtScans(fold, required, plugins);
    var chosen := RequiredThenUserLines(fold, required, plugins);
    forall j | |required| <= j < |lines|
      ensures IsUserLine(fold, lines, j, plugins)
    {
      UserLinesAreNew(fold, required, plugins, j);
    }
    forall n | 0 <= n < |plugins| && ':' !in plugins[n].id ensures IsCarried(fold, lines, plugins[n].id) {
      PlainIdRepresented(fold, required, plugins, n);
      IsCarriedIs(fold, lines, plugins[n].id);
    }
  }

  lemma PluginsTxtScans(fold: char -> char, required: seq<string>, plugins: seq<Plugin>)
    requires ColonFoldsAlone(fold) && Scannable(required) && LineSafe(plugins)
    ensures ScanLines(Join(PluginList(fold, required, plugins), '\n')) == PluginList(fold, required, plugins)
  {
    hide ScanLines, Join, PluginList, ColonFoldsAlone, LineSafe, DropCR, Kept;
    KeptLineSafe(fold, required, plugins, |plugins|);
    PluginsTxtLines(fold, required, plugins);
  }

  /** And cutting each line at its first colon gives the ids and versions back, exactly when no id holds a colon. */
  lemma PluginsTxtReads(cfg: Config, req: Name, inst: Instance)
    requires inst.body.spec.cascConfig.Some? && ColonFoldsAlone(cfg.fold)
    requires Scannable(cfg.requiredPlugins) && LineSafe(inst.body.spec.plugins)
    ensures var plugins := inst.body.spec.plugins;
            "plugins.txt" in NewConfigMap(cfg, req, inst).body.data
            && (ParseLines(ScanLines(NewConfigMap(cfg, req, inst).body.data["plugins.txt"]))
                == ParseLines(cfg.requiredPlugins) + Kept(cfg.fold, cfg.requiredPlugins, plugins, |plugins|)
                <==> forall n :: 0 <= n < |plugins| ==> ':' !in plugins[n].id)
  {
    hide ParseLines, ScanLines, Join, PluginList, Kept, LineSafe, Scannable, ColonFoldsAlone;
    DataKeys(cfg, req, inst);
    PluginsTxtRoundTrip(cfg.fold, cfg.requiredPlugins, inst.body.spec.plugins);
  }

  /** Merging into a ConfigMap that is there: its own values stay, and only a missing file is added. */
  lemma MergedSays(cfg: Config, req: Name, inst: Instance, cm: ConfigMap)
    requires inst.body.spec.cascConfig.Some?
    ensures var built := NewConfigMap(cfg, req, inst).body.data;
            var merged := UpdatedConfigMap(cfg, req, inst, cm).body.data;
            && merged.Keys == built.Keys + cm.body.data.Keys
            && (forall k :: k in merged ==> merged[k] == if k in cm.body.data then cm.body.data[k] else built[k])
  {
  }
}
