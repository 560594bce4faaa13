/** The parts of the Jenkins pod that newDeployment assembles: environment, volumes and mounts. */
module PodBuilder {
  import opened Basics
  import opened Text
  import opened Api

  // ---- environment -------------------------------------------------------------------------

  /** Every line can be split at a colon: what `envComponents[1]` demands of the embedded asset. */
  predicate Splittable(lines: seq<string>)
  {
    forall i :: 0 <= i < |lines| ==> ':' in lines[i]
  }

  function ParseEnvLine(line: string): EnvVar
    requires ':' in line
  {
    SplitCount(line, ':');
    EnvVar(Split(line, ':')[0], Split(line, ':')[1])
  }

  function JvmEnv(lines: seq<string>): (r: seq<EnvVar>)
    requires Splittable(lines)
    ensures |r| == |lines|
  {
    seq(|lines|, i requires 0 <= i < |lines| => ParseEnvLine(lines[i]))
  }

  const CascVars := [
    EnvVar("CASC_JENKINS_CONFIG", "/var/jenkins_home/casc_configs"),
    EnvVar("SECRETS", "/var/jenkins_home/casc_secrets")]

  /** The user's variables, visited in the given order. */
  function UserEnv(env: Data, order: seq<string>): (r: seq<EnvVar>)
    requires forall k :: k in order ==> k in env
    ensures |r| == |order|
  {
    seq(|order|, i requires 0 <= i < |order| => EnvVar(order[i], env[order[i]]))
  }

  function EnvList(jvmLines: seq<string>, env: Data, order: seq<string>): seq<EnvVar>
    requires Splittable(jvmLines) && forall k :: k in order ==> k in env
  {
    JvmEnv(jvmLines) + CascVars + UserEnv(env, order)
  }

  /** What a container sees: of several variables with one name the last wins. */
  function Effective(env: seq<EnvVar>): Data
  {
    if |env| == 0 then map[]
    else
      var last := env[|env| - 1];
      Effective(env[..|env| - 1])[last.name := last.value]
  }

  lemma {:induction false} EffectiveConcat(a: seq<EnvVar>, b: seq<EnvVar>)
    ensures Effective(a + b) == Effective(a) + Effective(b)
  {
    if |b| == 0 {
      assert a + b == a;
    } else {
      EffectiveConcat(a, b[..|b| - 1]);
      assert (a + b)[..|a + b| - 1] == a + b[..|b| - 1];
    }
  }

  lemma {:induction false} EffectiveUserEnv(env: Data, order: seq<string>, n: nat)
    requires Enumerates(order, env.Keys) && n <= |order|
    ensures var seen := Effective(UserEnv(env, order)[..n]);
            && (forall k :: k in seen <==> k in order[..n])
            && (forall k :: k in seen ==> seen[k] == env[k])
  {
    if n > 0 {
      EffectiveUserEnv(env, order, n - 1);
      assert UserEnv(env, order)[..n][..n - 1] == UserEnv(env, order)[..n - 1];
      assert order[..n] == order[..n - 1] + [order[n - 1]];
    }
  }

  /** Whatever order Go visits the user's map in: JVM lines, overridden by the CASC variables,
      overridden by the user's variables; and no entry is lost or repeated. */
  lemma EffectiveEnvironment(jvmLines: seq<string>, env: Data, order: seq<string>)
    requires Splittable(jvmLines) && Enumerates(order, env.Keys)
    ensures Effective(EnvList(jvmLines, env, order)) ==
            Effective(JvmEnv(jvmLines))
            + map["CASC_JENKINS_CONFIG" := "/var/jenkins_home/casc_configs",
                "SECRETS" := "/var/jenkins_home/casc_secrets"]
            + env
    ensures |EnvList(jvmLines, env, order)| == |jvmLines| + 2 + |env|
  {
    var user := UserEnv(env, order);
    EffectiveUserEnv(env, order, |order|);
    assert user[..|order|] == user && order[..|order|] == order;
    assert Effective(user) == env;
    EffectiveConcat(JvmEnv(jvmLines), CascVars);
    EffectiveConcat(JvmEnv(jvmLines) + CascVars, user);
    EffectiveConcat([CascVars[0]], [CascVars[1]]);
    assert CascVars == [CascVars[0]] + [CascVars[1]];
    EnumerationLength(order, env.Keys);
  }

  /** A JVM line survives the parse exactly when it holds one colon; text after a second colon is dropped. */
  lemma EnvLineLossless(line: string)
    requires ':' in line
    ensures line == ParseEnvLine(line).name + ":" + ParseEnvLine(line).value <==> |Split(line, ':')| == 2
  {
    SplitCount(line, ':');
    var parts := Split(line, ':');
    JoinSplit(line, ':');
    if |parts| > 2 {
      assert Join(parts, ':') == parts[0] + [':'] + (parts[1] + [':'] + Join(parts[1..][1..], ':'));
    }
  }

  /** `line` is `name`, a colon and `value`, with nothing more than a second colon and what follows it. */
  predicate Says(line: string, name: string, value: string)
  {
    && ':' !in name && ':' !in value
    && (line == name + ":" + value || name + ":" + value + ":" <= line)
  }

  /** A line says one thing only. */
  lemma SaysOneThing(line: string, n: string, v: string, n': string, v': string)
    requires Says(line, n, v) && Says(line, n', v')
    ensures n == n' && v == v'
  {
    SaysParts(line, n, v);
    SaysParts(line, n', v');
  }

  lemma SaysParts(line: string, name: string, value: string)
    requires Says(line, name, value)
    ensures ':' in line && Split(line, ':')[0] == name && |Split(line, ':')| >= 2 && Split(line, ':')[1] == value
  {
    if line == name + ":" + value {
      assert line == name + [':'] + value;
      SplitHead(name, ':', value);
      SplitFree(value, ':');
    } else {
      var rest := line[|name| + 1 + |value| + 1..];
      assert line == name + [':'] + (value + [':'] + rest);
      SplitHead(name, ':', value + [':'] + rest);
      SplitHead(value, ':', rest);
    }
  }

  lemma SaysStarts(line: string, name: string, value: string)
    requires Says(line, name, value)
    ensures name + ":" <= line
  {
    var start := name + ":";
    assert (start + value)[..|start|] == start == (start + value + ":")[..|start|];
  }

  lemma ParsedLineSays(line: string)
    requires ':' in line
    ensures Says(line, ParseEnvLine(line).name, ParseEnvLine(line).value)
  {
    var parts := Split(line, ':');
    SplitCount(line, ':');
    SplitPartsFree(line, ':');
    JoinSplit(line, ':');
    assert parts == [parts[0]] + parts[1..] && parts[1..] == [parts[1]] + parts[2..];
    if |parts| > 2 {
      var head := parts[0] + ":" + parts[1] + ":";
      assert line == parts[0] + [':'] + (parts[1] + [':'] + Join(parts[2..], ':'));
      assert line[..|head|] == head;
    } else {
      assert Join(parts[1..], ':') == parts[1];
    }
  }

  /** The first variables of the list are what the JVM lines say, line by line; then come the two CASC variables and
      the user's, each with its value. */
  lemma EnvironmentByPosition(jvmLines: seq<string>, env: Data, order: seq<string>, i: nat)
    requires Splittable(jvmLines) && Enumerates(order, env.Keys) && i < |jvmLines| + 2 + |env|
    ensures |EnvList(jvmLines, env, order)| == |jvmLines| + 2 + |env|
    ensures var v, n := EnvList(jvmLines, env, order)[i], |jvmLines|;
            && (i < n ==> Says(jvmLines[i], v.name, v.value))
            && (i == n ==> v.name == "CASC_JENKINS_CONFIG" && v.value == "/var/jenkins_home/casc_configs")
            && (i == n + 1 ==> v.name == "SECRETS" && v.value == "/var/jenkins_home/casc_secrets")
            && (i >= n + 2 ==> v.name == order[i - n - 2] && v.name in env && v.value == env[v.name])
  {
    EnumerationLength(order, env.Keys);
    if i < |jvmLines| {
      assert ':' in jvmLines[i];
      ParsedLineSays(jvmLines[i]);
    }
  }

  /** The variable with this name that a container sees after the JVM lines: what the last line that says anything
      about it says. */
  lemma {:induction false} JvmEffective(jvmLines: seq<string>, k: string, value: string, i: nat)
    requires Splittable(jvmLines) && i < |jvmLines| && Says(jvmLines[i], k, value)
    requires forall j :: i < j < |jvmLines| ==> !(k + ":" <= jvmLines[j])
    ensures k in Effective(JvmEnv(jvmLines)) && Effective(JvmEnv(jvmLines))[k] == value
  {
    var last := |jvmLines| - 1;
    assert ':' in jvmLines[last];
    ParsedLineSays(jvmLines[last]);
    JvmEnvFront(jvmLines);
    var v := ParseEnvLine(jvmLines[last]);
    if i == last {
      SaysOneThing(jvmLines[i], k, value, v.name, v.value);
    } else {
      JvmEffective(jvmLines[..last], k, value, i);
      SaysStarts(jvmLines[last], v.name, v.value);
    }
  }

  lemma JvmEnvFront(jvmLines: seq<string>)
    requires Splittable(jvmLines) && |jvmLines| > 0
    ensures var last := |jvmLines| - 1;
            && Splittable(jvmLines[..last]) && ':' in jvmLines[last]
            && JvmEnv(jvmLines) == JvmEnv(jvmLines[..last]) + [ParseEnvLine(jvmLines[last])]
  {
  }

  lemma {:induction false} JvmEffectiveNothing(jvmLines: seq<string>, k: string)
    requires Splittable(jvmLines) && forall j :: 0 <= j < |jvmLines| ==> !(k + ":" <= jvmLines[j])
    ensures k !in Effective(JvmEnv(jvmLines))
  {
    if |jvmLines| > 0 {
      var last := |jvmLines| - 1;
      JvmEnvFront(jvmLines);
      ParsedLineSays(jvmLines[last]);
      JvmEffectiveNothing(jvmLines[..last], k);
      var v := ParseEnvLine(jvmLines[last]);
      SaysStarts(jvmLines[last], v.name, v.value);
    }
  }

  /** What a container sees under a name: the user's value if the user gives one, else the CASC value, else what the
      last JVM line about it says, else nothing. */
  lemma EffectiveValue(jvmLines: seq<string>, env: Data, order: seq<string>, k: string)
    requires Splittable(jvmLines) && Enumerates(order, env.Keys)
    ensures var seen := Effective(EnvList(jvmLines, env, order));
            && (k in env ==> k in seen && seen[k] == env[k])
            && (k !in env && k == "CASC_JENKINS_CONFIG" ==> k in seen && seen[k] == "/var/jenkins_home/casc_configs")
            && (k !in env && k == "SECRETS" ==> k in seen && seen[k] == "/var/jenkins_home/casc_secrets")
            && (k !in env && k != "CASC_JENKINS_CONFIG" && k != "SECRETS" ==>
                  && (forall i, value ::
                        0 <= i < |jvmLines| && Says(jvmLines[i], k, value)
                        && (forall j :: i < j < |jvmLines| ==> !(k + ":" <= jvmLines[j])) ==>
                          k in seen && seen[k] == value)
                  && ((forall j :: 0 <= j < |jvmLines| ==> !(k + ":" <= jvmLines[j])) ==> k !in seen))
  {
    hide Says, JvmEnv, EnvList, Effective, Splittable, Enumerates;
    EffectiveEnvironment(jvmLines, env, order);
    forall i, value |
      0 <= i < |jvmLines| && Says(jvmLines[i], k, value)
      && (forall j :: i < j < |jvmLines| ==> !(k + ":" <= jvmLines[j]))
      ensures k in Effective(JvmEnv(jvmLines)) && Effective(JvmEnv(jvmLines))[k] == value
    {
      JvmEffective(jvmLines, k, value, i);
    }
    if forall j :: 0 <= j < |jvmLines| ==> !(k + ":" <= jvmLines[j]) {
      JvmEffectiveNothing(jvmLines, k);
    }
  }

  /** The environment loops of newDeployment, over the scanned lines of the embedded asset. */
  method BuildEnv(jvmLines: seq<string>, env: Data) returns (vars: seq<EnvVar>, ghost order: seq<string>)
    requires Splittable(jvmLines)
    ensures Enumerates(order, env.Keys) && vars == EnvList(jvmLines, env, order)
    ensures exists o :: Enumerates(o, env.Keys) && vars == EnvList(jvmLines, env, o)
  {
    vars := [];
    for i := 0 to |jvmLines|
      invariant vars == JvmEnv(jvmLines)[..i]
    {
      SplitCount(jvmLines[i], ':');
      var envComponents := Split(jvmLines[i], ':');
      vars := vars + [EnvVar(envComponents[0], envComponents[1])];
    }
    vars := vars + [EnvVar("CASC_JENKINS_CONFIG", "/var/jenkins_home/casc_configs")];
    vars := vars + [EnvVar("SECRETS", "/var/jenkins_home/casc_secrets")];
    assert vars == JvmEnv(jvmLines) + CascVars;
    vars, order := AppendUserEnv(vars, env);
  }

  method AppendUserEnv(before: seq<EnvVar>, env: Data) returns (vars: seq<EnvVar>, ghost order: seq<string>)
    ensures Enumerates(order, env.Keys)
    ensures vars == before + UserEnv(env, order)
  {
    vars, order := before, [];
    var rest := env.Keys;
    while rest != {}
      invariant rest <= env.Keys && Enumerates(order, env.Keys - rest)
      invariant vars == before + UserEnv(env, order)
      decreases rest
    {
      var k :| k in rest;
      EnumerationExtends(order, env.Keys - rest, k);
      assert env.Keys - (rest - {k}) == env.Keys - rest + {k};
      vars := vars + [EnvVar(k, env[k])];
      order := order + [k];
      rest := rest - {k};
    }
  }

  // ---- projected items ---------------------------------------------------------------------

  /** One projected file per key, named after the key. */
  function Items(order: seq<string>, suffix: string): (items: seq<Item>)
    ensures |items| == |order|
  {
    seq(|order|, i requires 0 <= i < |order| => Item(order[i], order[i] + suffix))
  }

  method BuildItems(data: Data, suffix: string) returns (items: seq<Item>, ghost order: seq<string>)
    ensures Enumerates(order, data.Keys) && items == Items(order, suffix)
    ensures exists o :: Enumerates(o, data.Keys) && items == Items(o, suffix)
  {
    items := [];
    order := [];
    var rest := data.Keys;
    while rest != {}
      invariant rest <= data.Keys && Enumerates(order, data.Keys - rest)
      invariant items == Items(order, suffix)
      decreases rest
    {
      var k :| k in rest;
      EnumerationExtends(order, data.Keys - rest, k);
      assert data.Keys - (rest - {k}) == data.Keys - rest + {k};
      items := items + [Item(k, k + suffix)];
      order := order + [k];
      rest := rest - {k};
    }
  }

  /** The items name every key once and project no two keys to one path. */
  lemma ItemsBijective(order: seq<string>, keys: set<string>, suffix: string)
    requires Enumerates(order, keys)
    ensures |Items(order, suffix)| == |keys|
    ensures forall k :: k in keys <==> exists i :: 0 <= i < |order| && Items(order, suffix)[i].key == k
    ensures forall i, j :: 0 <= i < j < |order| ==>
              && Items(order, suffix)[i].key != Items(order, suffix)[j].key
              && Items(order, suffix)[i].path != Items(order, suffix)[j].path
  {
    EnumerationLength(order, keys);
    forall k ensures k in keys <==> exists i :: 0 <= i < |order| && Items(order, suffix)[i].key == k {
      if k in keys {
        assert k in order;
        var i :| 0 <= i < |order| && order[i] == k;
        assert Items(order, suffix)[i].key == k;
      }
    }
    forall i, j | 0 <= i < j < |order| ensures order[i] + suffix != order[j] + suffix {
      SuffixKeepsDistinct(order[i], order[j], suffix);
    }
  }

  lemma SuffixKeepsDistinct(a: string, b: string, suffix: string)
    ensures a + suffix == b + suffix <==> a == b
  {
    assert (a + suffix)[..|a|] == a && (b + suffix)[..|b|] == b;
  }

  // ---- volumes and mounts ------------------------------------------------------------------

  function JobSource(name: string, spec: Spec): Source
  {
    if spec.storage.None? then EmptyDir else FromClaim(ClaimName(name, spec.storage.value))
  }

  /** cascconfig is absent, or says where the configuration is. */
  predicate CascSpecified(spec: Spec)
  {
    spec.cascConfig.Some? ==> spec.cascConfig.value.configMap != "" || spec.cascConfig.value.configString != ""
  }

  function BaseVolumes(name: string, spec: Spec): seq<Volume>
  {
    [Volume("required-plugins", FromConfigMap(name, [Item("plugins.txt", "plugins.txt")])),
     Volume("job-storage", JobSource(name, spec))]
  }

  function CascSecretVolumes(spec: Spec): seq<Volume>
  {
    if spec.cascSecret == "" then [] else [Volume("casc-secret", FromSecret(spec.cascSecret, []))]
  }

  function GroovyVolumes(spec: Spec, groovyOrder: seq<string>): seq<Volume>
  {
    if spec.groovySecret == "" then []
    else [Volume("groovy-secret", FromSecret(spec.groovySecret, Items(groovyOrder, ".groovy")))]
  }

  function CascVolumes(name: string, spec: Spec, cascOrder: seq<string>): seq<Volume>
  {
    if spec.cascConfig.None? then []
    else if spec.cascConfig.value.configMap != "" then
      [Volume("casc-config", FromConfigMap(spec.cascConfig.value.configMap, Items(cascOrder, ".yaml")))]
    else
      [Volume("casc-config", FromConfigMap(name, [Item("jenkins.yaml", "jenkins.yaml")]))]
  }

  function Volumes(name: string, spec: Spec, groovyOrder: seq<string>, cascOrder: seq<string>): seq<Volume>
  {
    BaseVolumes(name, spec) + CascSecretVolumes(spec) + GroovyVolumes(spec, groovyOrder) + CascVolumes(name, spec,
        cascOrder)
  }

  const BaseMounts := [
    Mount("casc-config", true, "/var/jenkins_home/casc_configs"),
    Mount("job-storage", false, "/var/jenkins_home/jobs"),
    Mount("required-plugins", true, "/var/jenkins_home/required_plugins")]

  function CascSecretMounts(spec: Spec): seq<Mount>
  {
    if spec.cascSecret == "" then [] else [Mount("casc-secret", true, "/var/jenkins_home/casc_secrets")]
  }

  function GroovyMounts(spec: Spec): seq<Mount>
  {
    if spec.groovySecret == "" then [] else [Mount("groovy-secret", false, "/var/jenkins_home/init.groovy.d")]
  }

  function Mounts(spec: Spec): seq<Mount>
  {
    BaseMounts + CascSecretMounts(spec) + GroovyMounts(spec)
  }

  ghost function VolumeNames(volumes: seq<Volume>): set<string>
  {
    set v | v in volumes :: v.name
  }

  ghost function MountNames(mounts: seq<Mount>): set<string>
  {
    set m | m in mounts :: m.name
  }

  lemma VolumeNameSet(name: string, spec: Spec, groovyOrder: seq<string>, cascOrder: seq<string>)
    ensures VolumeNames(Volumes(name, spec, groovyOrder, cascOrder)) ==
            {"required-plugins", "job-storage"}
            + (if spec.cascSecret == "" then {} else {"casc-secret"})
            + (if spec.groovySecret == "" then {} else {"groovy-secret"})
            + (if spec.cascConfig.None? then {} else {"casc-config"})
  {
    var base, secret := BaseVolumes(name, spec), CascSecretVolumes(spec);
    var groovy, casc := GroovyVolumes(spec, groovyOrder), CascVolumes(name, spec, cascOrder);
    VolumeNamesConcat(base, secret);
    VolumeNamesConcat(base + secret, groovy);
    VolumeNamesConcat(base + secret + groovy, casc);
    VolumeNamesConcat([base[0]], [base[1]]);
    assert base == [base[0]] + [base[1]];
  }

  lemma VolumeNamesConcat(a: seq<Volume>, b: seq<Volume>)
    ensures VolumeNames(a + b) == VolumeNames(a) + VolumeNames(b)
    ensures |a| == 1 ==> VolumeNames(a) == {a[0].name}
    ensures |b| == 1 ==> VolumeNames(b) == {b[0].name}
    ensures |b| == 0 ==> VolumeNames(b) == {}
  {
  }

  lemma MountNameSet(spec: Spec)
    ensures MountNames(Mounts(spec)) ==
            {"casc-config", "job-storage", "required-plugins"}
            + (if spec.cascSecret == "" then {} else {"casc-secret"})
            + (if spec.groovySecret == "" then {} else {"groovy-secret"})
  {
    MountNamesConcat(BaseMounts, CascSecretMounts(spec));
    MountNamesConcat(BaseMounts + CascSecretMounts(spec), GroovyMounts(spec));
    ThreeMountNames(BaseMounts[0], BaseMounts[1], BaseMounts[2]);
  }

  lemma ThreeMountNames(a: Mount, b: Mount, c: Mount)
    ensures MountNames([a, b, c]) == {a.name, b.name, c.name}
  {
    assert a in [a, b, c] && b in [a, b, c] && c in [a, b, c];
  }

  lemma MountNamesConcat(a: seq<Mount>, b: seq<Mount>)
    ensures MountNames(a + b) == MountNames(a) + MountNames(b)
    ensures |a| == 1 ==> MountNames(a) == {a[0].name}
    ensures |b| == 1 ==> MountNames(b) == {b[0].name}
    ensures |b| == 0 ==> MountNames(b) == {}
  {
  }

  /** The mounts name exactly the volumes if and only if cascconfig is set. */
  lemma MountsMatchVolumes(name: string, spec: Spec, groovyOrder: seq<string>, cascOrder: seq<string>)
    ensures MountNames(Mounts(spec)) == VolumeNames(Volumes(name, spec, groovyOrder, cascOrder))
            <==> spec.cascConfig.Some?
  {
    VolumeNameSet(name, spec, groovyOrder, cascOrder);
    MountNameSet(spec);
    if spec.cascConfig.None? {
      assert "casc-config" in MountNames(Mounts(spec));
      assert "casc-config" !in VolumeNames(Volumes(name, spec, groovyOrder, cascOrder));
    }
  }

  /** No volume name, mount name or mount path is used twice. */
  lemma NoNameTwice(name: string, spec: Spec, groovyOrder: seq<string>, cascOrder: seq<string>)
    ensures var volumes := Volumes(name, spec, groovyOrder, cascOrder);
            forall i, j :: 0 <= i < j < |volumes| ==> volumes[i].name != volumes[j].name
    ensures forall i, j :: 0 <= i < j < |Mounts(spec)| ==>
              Mounts(spec)[i].name != Mounts(spec)[j].name && Mounts(spec)[i].path != Mounts(spec)[j].path
  {
  }

  // ---- what the volumes and mounts say -----------------------------------------------------

  /** One file per key of `keys`, named after the key and the suffix. */
  ghost predicate FilePerKey(items: seq<Item>, keys: set<string>, suffix: string)
  {
    && (forall k :: k in keys <==> exists i :: 0 <= i < |items| && items[i].key == k)
    && (forall i :: 0 <= i < |items| ==> items[i].path == items[i].key + suffix)
    && (forall i, j :: 0 <= i < j < |items| ==> items[i].key != items[j].key)
  }

  lemma ItemsArePerKey(order: seq<string>, keys: set<string>, suffix: string)
    requires Enumerates(order, keys)
    ensures FilePerKey(Items(order, suffix), keys, suffix)
  {
    ItemsBijective(order, keys, suffix);
    forall k ensures k in keys <==> exists i :: 0 <= i < |Items(order, suffix)| && Items(order, suffix)[i].key == k {
    }
  }

  /** What a volume of this name holds, for an instance of this name and spec. */
  ghost predicate VolumeHolds(v: Volume, name: string, spec: Spec, groovy: set<string>, casc: set<string>)
  {
    && (v.name == "required-plugins" ==>
          v.source == FromConfigMap(name, [Item("plugins.txt", "plugins.txt")]))
    && (v.name == "job-storage" ==>
          v.source == if spec.storage.None? then EmptyDir
                      else FromClaim(if spec.storage.value.jobsPvc == "" then name else spec.storage.value.jobsPvc))
    && (v.name == "casc-secret" ==> v.source == FromSecret(spec.cascSecret, []))
    && (v.name == "groovy-secret" ==>
          v.source.FromSecret? && v.source.secret == spec.groovySecret
          && FilePerKey(v.source.items, groovy, ".groovy"))
    && (v.name == "casc-config" ==>
          && v.source.FromConfigMap? && spec.cascConfig.Some?
          && (if spec.cascConfig.value.configMap != "" then
                v.source.configMap == spec.cascConfig.value.configMap && FilePerKey(v.source.items, casc, ".yaml")
              else v.source == FromConfigMap(name, [Item("jenkins.yaml", "jenkins.yaml")])))
  }

  /** Every volume holds what its name promises. */
  lemma VolumesHold(name: string, spec: Spec, groovyOrder: seq<string>, groovy: set<string>, cascOrder: seq<string>,
                    casc: set<string>)
    requires Enumerates(groovyOrder, groovy) && Enumerates(cascOrder, casc)
    ensures forall v :: v in Volumes(name, spec, groovyOrder, cascOrder) ==> VolumeHolds(v, name, spec, groovy, casc)
  {
    hide FilePerKey, Items;
    ItemsArePerKey(groovyOrder, groovy, ".groovy");
    ItemsArePerKey(cascOrder, casc, ".yaml");
    forall v | v in Volumes(name, spec, groovyOrder, cascOrder) ensures VolumeHolds(v, name, spec, groovy, casc) {
      if v in BaseVolumes(name, spec) {
      } else if v in CascSecretVolumes(spec) {
      } else if v in GroovyVolumes(spec, groovyOrder) {
      } else {
        assert v in CascVolumes(name, spec, cascOrder);
      }
    }
  }

  /** Where Jenkins finds its files: the configuration and its secrets are mounted where the two CASC variables of the
      environment point, the jobs and init scripts where Jenkins looks for them, and all but those two read-only. */
  lemma MountsServe(spec: Spec, m: Mount)
    requires m in Mounts(spec)
    ensures m.name == "casc-config" ==> EnvVar("CASC_JENKINS_CONFIG", m.path) in CascVars
    ensures m.name == "casc-secret" ==> EnvVar("SECRETS", m.path) in CascVars
    ensures m.name == "job-storage" ==> m.path == "/var/jenkins_home/jobs"
    ensures m.name == "required-plugins" ==> m.path == "/var/jenkins_home/required_plugins"
    ensures m.name == "groovy-secret" ==> m.path == "/var/jenkins_home/init.groovy.d"
    ensures m.readOnly <==> m.name != "job-storage" && m.name != "groovy-secret"
  {
    assert EnvVar("CASC_JENKINS_CONFIG", "/var/jenkins_home/casc_configs") == CascVars[0];
    assert EnvVar("SECRETS", "/var/jenkins_home/casc_secrets") == CascVars[1];
  }

  // ---- the pod -----------------------------------------------------------------------------

  const JENKINS_REPLICAS := 1

  /** `pod` is what newDeployment may build from this instance and these key sets, for some visiting order of each
      map. */
  ghost predicate IsPodFor(jvmLines: seq<string>, name: string, inst: Instance, groovy: set<string>,
                           casc: set<string>, pod: Pod)
    requires Splittable(jvmLines)
  {
    exists envOrder, groovyOrder, cascOrder ::
      && Enumerates(envOrder, inst.body.spec.env.Keys)
      && Enumerates(groovyOrder, groovy)
      && Enumerates(cascOrder, casc)
      && pod == PodFrom(jvmLines, name, inst, envOrder, groovyOrder, cascOrder)
  }

  function PodFrom(jvmLines: seq<string>, name: string, inst: Instance,
                   envOrder: seq<string>, groovyOrder: seq<string>, cascOrder: seq<string>): Pod
    requires Splittable(jvmLines) && forall k :: k in envOrder ==> k in inst.body.spec.env
  {
    var spec := inst.body.spec;
    Pod(JENKINS_REPLICAS, Labels(name, inst), EnvList(jvmLines, spec.env, envOrder),
        Volumes(name, spec, groovyOrder, cascOrder), Mounts(spec), spec.serviceAccount, spec.podOptions)
  }
}
