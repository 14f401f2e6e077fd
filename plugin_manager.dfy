/**
 * The plugin bootstrap (bootsrap/PluginManager.js): parsing `key=value` plugin
 * manifests, parsing the `group:name:version` dependency declarations of the
 * configuration, reconciling the plugin jars already on disk with the declared
 * versions, and picking the manifests out of a jar's entries.
 *
 * Downloads, file deletion and zip reading are outside this model: reconciliation
 * returns which jars to delete and whether to download, and a jar is given as its
 * list of (entry name, content) pairs.
 */
module PluginManager {
  import opened Wrappers
  import opened JsText

  // ---------------------------------------------------------------------------
  // Manifests

  datatype PluginManifest = PluginManifest(name: string, path: string, version: string)

  /**
   * The property a manifest line sets, if any: the line is split on `=`, the first
   * fragment is the key and the second the value, both required to be truthy as they
   * stand and stored trimmed.
   */
  function LineEntry(line: string): Option<(string, string)> {
    var parts := Split(line, '=');
    if parts[0] != "" && |parts| >= 2 && parts[1] != "" then Some((Trim(parts[0]), Trim(parts[1]))) else None
  }

  /** The properties of the manifest lines read in order, a later line overwriting an earlier one. */
  function PropsOf(lines: seq<string>): map<string, string> {
    if lines == [] then map[]
    else
      var before := PropsOf(lines[..|lines| - 1]);
      match LineEntry(lines[|lines| - 1])
      case None => before
      case Some(e) => before[e.0 := e.1]
  }

  /** The manifest the properties describe: `name`, `path` and `version` must all be non-empty. */
  function ManifestOf(props: map<string, string>): (m: Option<PluginManifest>)
    ensures m.Some? <==>
      && "name" in props && props["name"] != ""
      && "path" in props && props["path"] != ""
      && "version" in props && props["version"] != ""
    ensures m.Some? ==> m.value == PluginManifest(props["name"], props["path"], props["version"])
  {
    if "name" in props && props["name"] != "" && "path" in props && props["path"] != ""
      && "version" in props && props["version"] != ""
    then Some(PluginManifest(props["name"], props["path"], props["version"]))
    else None
  }

  /** `parsePluginManifest`: reads the lines one by one into the properties, then builds the manifest. */
  method ParsePluginManifest(stream: string) returns (manifest: Option<PluginManifest>)
    ensures manifest == ManifestOf(PropsOf(Split(stream, '\n')))
    ensures manifest.Some? ==> manifest.value.name != "" && manifest.value.path != "" && manifest.value.version != ""
  {
    var lines := Split(stream, '\n');
    var props: map<string, string> := map[];
    var i := 0;
    while i < |lines|
      invariant 0 <= i <= |lines|
      invariant props == PropsOf(lines[..i])
    {
      assert lines[..i + 1][..i] == lines[..i];
      var entry := LineEntry(lines[i]);
      if entry.Some? {
        props := props[entry.value.0 := entry.value.1];
      }
      i := i + 1;
    }
    assert lines[..i] == lines;
    manifest := ManifestOf(props);
  }

  /** On a line with several `=`, the value is the text between the first and the second. */
  lemma ValueIsSecondFragment(key: string, value: string, rest: string)
    requires '=' !in key && '=' !in value && key != "" && value != ""
    ensures LineEntry(key + "=" + value + "=" + rest) == Some((Trim(key), Trim(value)))
  {
    var tail := value + ['='] + rest;
    var line := key + ['='] + tail;
    assert line == key + "=" + value + "=" + rest;
    SplitPrefix(value, '=', rest);
    SplitPrefix(key, '=', tail);
    var parts := Split(line, '=');
    assert parts == [key] + ([value] + Split(rest, '='));
    assert parts[0] == key && parts[1] == value;
  }

  /** A line without `=` sets nothing. */
  lemma NoSeparatorIgnored(line: string)
    requires '=' !in line
    ensures LineEntry(line) == None
  {
    SplitFree(line, '=');
  }

  /** A line with nothing before its first `=` sets nothing. */
  lemma EmptyKeyIgnored(rest: string)
    ensures LineEntry("=" + rest) == None
  {
    SplitPrefix([], '=', rest);
    assert [] + ['='] + rest == "=" + rest;
  }

  /** A line with nothing between its first `=` and the next `=` or the end sets nothing. */
  lemma EmptyValueIgnored(key: string, rest: string)
    requires '=' !in key && (rest == [] || rest[0] == '=')
    ensures LineEntry(key + "=" + rest) == None
  {
    SplitPrefix(key, '=', rest);
    assert key + ['='] + rest == key + "=" + rest;
  }

  /** The line sets `key`. */
  predicate SetsKey(line: string, key: string) {
    LineEntry(line).Some? && LineEntry(line).value.0 == key
  }

  /** A key ends up with the value of the last line that sets it. */
  lemma {:induction false} LastLineWins(lines: seq<string>, i: nat, key: string, value: string)
    requires i < |lines| && LineEntry(lines[i]) == Some((key, value))
    requires forall j :: i < j < |lines| ==> !SetsKey(lines[j], key)
    ensures key in PropsOf(lines) && PropsOf(lines)[key] == value
  {
    var init := lines[..|lines| - 1];
    var e := LineEntry(lines[|lines| - 1]);
    PropsOfLast(lines);
    if i < |lines| - 1 {
      forall j | i < j < |init| ensures !SetsKey(init[j], key) {
        assert init[j] == lines[j];
      }
      LastLineWins(init, i, key, value);
      assert !SetsKey(lines[|lines| - 1], key);
      assert e.None? || e.value.0 != key;
    }
  }

  /** The last line updates the properties of the lines before it. */
  lemma PropsOfLast(lines: seq<string>)
    requires lines != []
    ensures var before := PropsOf(lines[..|lines| - 1]);
      var e := LineEntry(lines[|lines| - 1]);
      PropsOf(lines) == if e.None? then before else before[e.value.0 := e.value.1]
  {
  }

  /** Only the lines' own keys appear among the properties. */
  lemma {:induction false} PropsKeys(lines: seq<string>, key: string)
    requires key in PropsOf(lines)
    ensures exists j :: 0 <= j < |lines| && SetsKey(lines[j], key)
  {
    var init := lines[..|lines| - 1];
    if SetsKey(lines[|lines| - 1], key) {
      assert 0 <= |lines| - 1 < |lines|;
    } else {
      assert key in PropsOf(init);
      PropsKeys(init, key);
      var j :| 0 <= j < |init| && SetsKey(init[j], key);
      assert init[j] == lines[j];
    }
  }

  // ---------------------------------------------------------------------------
  // Dependency declarations

  /** A plugin entry of the configuration. */
  datatype PluginDeclaration = PluginDeclaration(dependency: Option<string>, repository: Option<string>)

  /** A parsed declaration. */
  datatype Dependency = Dependency(group: string, name: string, version: string, repository: string)

  /** `repository.replace(/\/$/, '') + '/'`: one trailing slash dropped, one appended. */
  function NormalizeRepository(r: string): (n: string)
    ensures EndsWith(n, "/") && |n| >= 1
    ensures n == (if EndsWith(r, "/") then r else r + "/")
  {
    (if EndsWith(r, "/") then r[..|r| - 1] else r) + "/"
  }

  /** Normalising twice is normalising once. */
  lemma NormalizeIdempotent(r: string)
    ensures NormalizeRepository(NormalizeRepository(r)) == NormalizeRepository(r)
  {
  }

  /**
   * One declaration: without a (truthy) dependency it is dropped; a dependency that
   * does not split into exactly three fragments on `:` is an error naming it; the
   * declaration's own repository wins over the default. With neither repository set,
   * `replace` is called on `undefined` and throws.
   */
  function ParseDeclaration(d: PluginDeclaration, defaultRepository: Option<string>): (r: Result<Option<Dependency>, string>)
    ensures r.Ok? && r.value.Some? ==>
      var dep := r.value.value;
      && Truthy(d.dependency)
      && d.dependency.value == dep.group + ":" + dep.name + ":" + dep.version
      && ':' !in dep.group && ':' !in dep.name && ':' !in dep.version
      && [dep.group, dep.name, dep.version] == Split(d.dependency.value, ':')
      && EndsWith(dep.repository, "/")
      && (Truthy(d.repository) || defaultRepository.Some?)
      && dep.repository == NormalizeRepository(if Truthy(d.repository) then d.repository.value else defaultRepository.value)
    ensures r.Ok? && r.value.None? <==> !Truthy(d.dependency)
    ensures Truthy(d.dependency) && |Split(d.dependency.value, ':')| == 3 && !Truthy(d.repository) && defaultRepository.None? ==> r.Err?
  {
    if !Truthy(d.dependency) then Ok(None)
    else
      var dep := d.dependency.value;
      var fragments := Split(dep, ':');
      if |fragments| != 3 then Err("Invalid dependency \"" + dep + "\"")
      else
        var repository := if Truthy(d.repository) then d.repository else defaultRepository;
        if repository.None? then Err("Cannot read properties of undefined (reading 'replace')")
        else
          JoinSplit(dep, ':');
          JoinThree(fragments, ':');
          Ok(Some(Dependency(fragments[0], fragments[1], fragments[2], NormalizeRepository(repository.value))))
  }

  lemma JoinThree(parts: seq<string>, sep: char)
    requires |parts| == 3
    ensures Join(parts, sep) == parts[0] + [sep] + parts[1] + [sep] + parts[2]
  {
    var tail := parts[1..];
    assert tail[1..] == [parts[2]];
    assert Join(tail, sep) == parts[1] + [sep] + parts[2];
    assert Join(parts, sep) == parts[0] + [sep] + Join(tail, sep);
  }

  /**
   * A three-fragment dependency round-trips through the parser, with the
   * declaration's own repository winning over any default.
   */
  lemma ParseDependencyRoundTrip(group: string, name: string, version: string, repository: string, defaultRepository: Option<string>)
    requires ':' !in group && ':' !in name && ':' !in version && group + ":" + name + ":" + version != ""
    requires repository != ""
    ensures ParseDeclaration(PluginDeclaration(Some(group + ":" + name + ":" + version), Some(repository)), defaultRepository)
      == Ok(Some(Dependency(group, name, version, NormalizeRepository(repository))))
  {
    var parts := [group, name, version];
    JoinThree(parts, ':');
    SplitJoin(parts, ':');
  }

  /**
   * A declaration without its own repository (absent or empty) takes the default,
   * normalised to end in exactly one `/`.
   */
  lemma DefaultRepositoryApplies(group: string, name: string, version: string, own: Option<string>, defaultRepository: string)
    requires ':' !in group && ':' !in name && ':' !in version && group + ":" + name + ":" + version != ""
    requires !Truthy(own)
    ensures ParseDeclaration(PluginDeclaration(Some(group + ":" + name + ":" + version), own), Some(defaultRepository))
      == Ok(Some(Dependency(group, name, version, NormalizeRepository(defaultRepository))))
  {
    var parts := [group, name, version];
    JoinThree(parts, ':');
    SplitJoin(parts, ':');
  }

  /** A dependency with a fragment count other than three is rejected, naming it. */
  lemma WrongFragmentCount(d: PluginDeclaration, defaultRepository: Option<string>)
    requires Truthy(d.dependency) && Count(d.dependency.value, ':') != 2
    ensures ParseDeclaration(d, defaultRepository) == Err("Invalid dependency \"" + d.dependency.value + "\"")
  {
  }

  /** The `map` step: each declaration parsed on its own. */
  function ParsedEach(ds: seq<PluginDeclaration>, defaultRepository: Option<string>): (rs: seq<Result<Option<Dependency>, string>>)
    ensures |rs| == |ds| && forall i :: 0 <= i < |ds| ==> rs[i] == ParseDeclaration(ds[i], defaultRepository)
  {
    seq(|ds|, i requires 0 <= i < |ds| => ParseDeclaration(ds[i], defaultRepository))
  }

  /** The `filter(Boolean)` step: the dependencies that are present, in order. */
  function Present(rs: seq<Result<Option<Dependency>, string>>): seq<Dependency> {
    if rs == [] then []
    else (if rs[0].Ok? && rs[0].value.Some? then [rs[0].value.value] else []) + Present(rs[1..])
  }

  /** Declaration `i` is the first one that fails to parse. */
  predicate FirstFailing(ds: seq<PluginDeclaration>, defaultRepository: Option<string>, i: int) {
    && 0 <= i < |ds| && ParseDeclaration(ds[i], defaultRepository).Err?
    && forall j :: 0 <= j < i ==> ParseDeclaration(ds[j], defaultRepository).Ok?
  }

  /**
   * The `map(...).filter(Boolean)` over the declarations: the first declaration that
   * fails aborts the whole list with its error; otherwise the present dependencies, in order.
   */
  function ParseDeclarations(ds: seq<PluginDeclaration>, defaultRepository: Option<string>): (r: Result<seq<Dependency>, string>)
    ensures r.Ok? ==> |r.value| <= |ds|
    ensures r.Ok? <==> forall i :: 0 <= i < |ds| ==> ParseDeclaration(ds[i], defaultRepository).Ok?
    ensures r.Ok? ==> r.value == Present(ParsedEach(ds, defaultRepository))
    ensures r.Err? ==> exists i :: FirstFailing(ds, defaultRepository, i) && ParseDeclaration(ds[i], defaultRepository) == Err(r.error)
  {
    if ds == [] then Ok([])
    else
      var head := ParseDeclaration(ds[0], defaultRepository);
      var rest := ParseDeclarations(ds[1..], defaultRepository);
      if head.Err? then
        assert FirstFailing(ds, defaultRepository, 0);
        Err(head.error)
      else if rest.Err? then
        var k :| FirstFailing(ds[1..], defaultRepository, k) && ParseDeclaration(ds[1..][k], defaultRepository) == Err(rest.error);
        FirstFailingShift(ds, defaultRepository, k);
        Err(rest.error)
      else
        PresentCons(ds, defaultRepository);
        Ok((if head.value.Some? then [head.value.value] else []) + rest.value)
  }

  /** A failure that is first among the later declarations is first overall when the head parses. */
  lemma FirstFailingShift(ds: seq<PluginDeclaration>, defaultRepository: Option<string>, k: int)
    requires ds != [] && ParseDeclaration(ds[0], defaultRepository).Ok? && FirstFailing(ds[1..], defaultRepository, k)
    ensures FirstFailing(ds, defaultRepository, k + 1) && ds[k + 1] == ds[1..][k]
  {
    forall j | 0 <= j < k + 1 ensures ParseDeclaration(ds[j], defaultRepository).Ok? {
      if j > 0 {
        assert ds[j] == ds[1..][j - 1];
      }
    }
  }

  /** The present dependencies are the head's, if any, then those of the rest. */
  lemma PresentCons(ds: seq<PluginDeclaration>, defaultRepository: Option<string>)
    requires ds != []
    ensures var h := ParseDeclaration(ds[0], defaultRepository);
      Present(ParsedEach(ds, defaultRepository))
        == (if h.Ok? && h.value.Some? then [h.value.value] else []) + Present(ParsedEach(ds[1..], defaultRepository))
  {
    var each := ParsedEach(ds, defaultRepository);
    assert each[1..] == ParsedEach(ds[1..], defaultRepository);
  }

  /** What makes two declarations the same plugin. */
  function Id(d: Dependency): (string, string) {
    (d.group, d.name)
  }

  /** Some declaration of `u` is the plugin `id`. */
  predicate Listed(u: seq<Dependency>, id: (string, string)) {
    exists i :: 0 <= i < |u| && Id(u[i]) == id
  }

  /** The declarations with later duplicates of the same group and name dropped. */
  function UniqueDeclarations(ds: seq<Dependency>): (u: seq<Dependency>)
    ensures |u| <= |ds|
  {
    if ds == [] then []
    else
      var before := UniqueDeclarations(ds[..|ds| - 1]);
      if Listed(before, Id(ds[|ds| - 1])) then before else before + [ds[|ds| - 1]]
  }

  /** No plugin is declared twice after deduplication, every kept declaration is an original one, and none is lost. */
  lemma UniqueDeclarationsSound(ds: seq<Dependency>)
    ensures var u := UniqueDeclarations(ds);
      && (forall i, j :: 0 <= i < j < |u| ==> Id(u[i]) != Id(u[j]))
      && (forall i :: 0 <= i < |u| ==> u[i] in ds)
      && (forall d :: d in ds ==> Listed(u, Id(d)))
  {
    UniqueDistinct(ds);
    UniqueFromOriginals(ds);
    UniqueComplete(ds);
  }

  /** The deduplication step: the last declaration is kept exactly when its plugin is not kept already. */
  lemma UniqueStep(ds: seq<Dependency>)
    requires ds != []
    ensures var before := UniqueDeclarations(ds[..|ds| - 1]);
      var last := ds[|ds| - 1];
      UniqueDeclarations(ds) == if Listed(before, Id(last)) then before else before + [last]
  {
  }

  lemma {:induction false} UniqueDistinct(ds: seq<Dependency>)
    ensures var u := UniqueDeclarations(ds);
      forall i, j :: 0 <= i < j < |u| ==> Id(u[i]) != Id(u[j])
  {
    if ds != [] {
      var init := ds[..|ds| - 1];
      var last := ds[|ds| - 1];
      UniqueDistinct(init);
      UniqueStep(ds);
      var before := UniqueDeclarations(init);
      if !Listed(before, Id(last)) {
        var u := before + [last];
        forall i, j | 0 <= i < j < |u| ensures Id(u[i]) != Id(u[j]) {
          assert u[i] == before[i];
          if j < |before| {
            assert u[j] == before[j];
          }
        }
      }
    }
  }

  lemma {:induction false} UniqueFromOriginals(ds: seq<Dependency>)
    ensures var u := UniqueDeclarations(ds);
      forall i :: 0 <= i < |u| ==> u[i] in ds
  {
    if ds != [] {
      var init := ds[..|ds| - 1];
      var last := ds[|ds| - 1];
      UniqueFromOriginals(init);
      UniqueStep(ds);
      var before := UniqueDeclarations(init);
      var u := UniqueDeclarations(ds);
      assert ds == init + [last];
      forall i | 0 <= i < |u| ensures u[i] in ds {
        if i < |before| {
          assert u[i] == before[i] && before[i] in init;
        }
      }
    }
  }

  lemma {:induction false} UniqueComplete(ds: seq<Dependency>)
    ensures var u := UniqueDeclarations(ds);
      forall d :: d in ds ==> Listed(u, Id(d))
  {
    if ds != [] {
      var init := ds[..|ds| - 1];
      var last := ds[|ds| - 1];
      UniqueComplete(init);
      UniqueStep(ds);
      var before := UniqueDeclarations(init);
      var u := UniqueDeclarations(ds);
      assert ds == init + [last];
      forall d | d in ds ensures Listed(u, Id(d)) {
        if d == last {
          if !Listed(before, Id(last)) {
            assert Id(u[|before|]) == Id(d);
          }
        } else {
          assert d in init;
          var i :| 0 <= i < |before| && Id(before[i]) == Id(d);
          assert Id(u[i]) == Id(d);
        }
      }
    }
  }

  /** The first declaration of each plugin is the one kept. */
  lemma {:induction false} UniqueKeepsFirst(ds: seq<Dependency>, k: nat)
    requires k < |ds| && forall j :: 0 <= j < k ==> Id(ds[j]) != Id(ds[k])
    ensures ds[k] in UniqueDeclarations(ds)
  {
    var init := ds[..|ds| - 1];
    if k < |ds| - 1 {
      forall j | 0 <= j < k ensures Id(init[j]) != Id(init[k]) {
        assert init[j] == ds[j];
      }
      UniqueKeepsFirst(init, k);
      assert init[k] == ds[k];
    } else {
      UniqueNoNewIds(init, Id(ds[k]));
    }
  }

  /** Deduplication only keeps plugins that were declared. */
  lemma {:induction false} UniqueNoNewIds(ds: seq<Dependency>, id: (string, string))
    requires forall j :: 0 <= j < |ds| ==> Id(ds[j]) != id
    ensures !Listed(UniqueDeclarations(ds), id)
  {
    if ds != [] {
      var init := ds[..|ds| - 1];
      forall j | 0 <= j < |init| ensures Id(init[j]) != id {
        assert init[j] == ds[j];
      }
      UniqueNoNewIds(init, id);
    }
  }

  // ---------------------------------------------------------------------------
  // Reconciling the jars on disk

  /** A plugin jar found on disk with its manifest's name and version. */
  datatype PluginJar = PluginJar(name: string, version: string, file: string)

  /** The jars of the declared plugin with another version: the ones to delete. */
  function Stale(jars: seq<PluginJar>, d: Dependency): (r: seq<PluginJar>)
    ensures forall i :: 0 <= i < |r| ==> r[i] in jars && r[i].name == d.name && r[i].version != d.version
  {
    if jars == [] then []
    else
      var before := Stale(jars[..|jars| - 1], d);
      var j := jars[|jars| - 1];
      if j.name == d.name && j.version != d.version then before + [j] else before
  }

  /** Whether some jar of the declared plugin already has the declared version. */
  predicate HasCurrentVersion(jars: seq<PluginJar>, d: Dependency) {
    exists i :: 0 <= i < |jars| && jars[i].name == d.name && jars[i].version == d.version
  }

  /** A jar of the declared plugin is deleted exactly when its version differs. */
  lemma {:induction false} StaleExactly(jars: seq<PluginJar>, d: Dependency, j: PluginJar)
    ensures j in Stale(jars, d) <==> j in jars && j.name == d.name && j.version != d.version
  {
    if jars != [] {
      var init := jars[..|jars| - 1];
      StaleExactly(init, d, j);
      assert jars == init + [jars[|jars| - 1]];
    }
  }

  /**
   * The reconciliation of one declaration: walks the jars named like the plugin,
   * deleting every one of another version, and downloads exactly when none has the
   * declared version.
   */
  method Reconcile(jars: seq<PluginJar>, d: Dependency) returns (deleted: seq<PluginJar>, download: bool)
    ensures deleted == Stale(jars, d)
    ensures download <==> !HasCurrentVersion(jars, d)
  {
    deleted := [];
    var hasCurrent := false;
    var i := 0;
    while i < |jars|
      invariant 0 <= i <= |jars|
      invariant deleted == Stale(jars[..i], d)
      invariant hasCurrent <==> HasCurrentVersion(jars[..i], d)
    {
      assert jars[..i + 1][..i] == jars[..i];
      var jar := jars[i];
      if jar.name == d.name {
        if jar.version != d.version {
          deleted := deleted + [jar];
        } else {
          hasCurrent := true;
        }
      }
      assert HasCurrentVersion(jars[..i + 1], d) <==> HasCurrentVersion(jars[..i], d) || (jar.name == d.name && jar.version == d.version) by {
        if HasCurrentVersion(jars[..i + 1], d) && !(jar.name == d.name && jar.version == d.version) {
          var k :| 0 <= k < i + 1 && jars[..i + 1][k].name == d.name && jars[..i + 1][k].version == d.version;
          assert k < i && jars[..i][k] == jars[..i + 1][k];
        }
        if HasCurrentVersion(jars[..i], d) {
          var k :| 0 <= k < i && jars[..i][k].name == d.name && jars[..i][k].version == d.version;
          assert jars[..i + 1][k] == jars[..i][k];
        }
      }
      i := i + 1;
    }
    assert jars[..i] == jars;
    download := !hasCurrent;
  }

  /** The `group:name` string that, as written, stands for a declaration after deduplication. */
  function DeclarationKey(d: Dependency): string {
    d.group + ":" + d.name
  }

  /**
   * The reconciliation of one declaration as written: the deduplicated declaration
   * is the string `group:name`, whose `name` and `version` are `undefined`. No jar's
   * name equals `undefined`, so no jar is deleted and the plugin is always downloaded.
   */
  function ReconcileAsWritten(jars: seq<PluginJar>, key: string): (seq<PluginJar>, bool) {
    ([], true)
  }

  /**
   * As written, a plugin with a jar on disk is reconciled wrongly: a jar of the
   * declared version is downloaded again, or a jar of another version is kept.
   */
  lemma ReconcileAsWrittenDiffers(jars: seq<PluginJar>, d: Dependency, k: nat)
    requires k < |jars| && jars[k].name == d.name
    ensures ReconcileAsWritten(jars, DeclarationKey(d)) != (Stale(jars, d), !HasCurrentVersion(jars, d))
  {
    if jars[k].version != d.version {
      StaleExactly(jars, d, jars[k]);
    }
  }

  // ---------------------------------------------------------------------------
  // Manifests inside a jar

  /** Only `.properties` entries under `lavalink-plugins/` are manifests. */
  predicate IsManifestEntry(fileName: string) {
    EndsWith(fileName, ".properties") && StartsWith(fileName, "lavalink-plugins/")
  }

  /** The manifests of the jar's entries, in entry order: parseable manifest entries only. */
  function ManifestsOf(entries: seq<(string, string)>): seq<PluginManifest> {
    if entries == [] then []
    else
      var before := ManifestsOf(entries[..|entries| - 1]);
      var e := entries[|entries| - 1];
      var m := ManifestOf(PropsOf(Split(e.1, '\n')));
      if IsManifestEntry(e.0) && m.Some? then before + [m.value] else before
  }

  /** Entries that are not manifest entries contribute nothing. */
  lemma {:induction false} ManifestsOfIgnoresOthers(entries: seq<(string, string)>, other: seq<(string, string)>)
    requires forall i :: 0 <= i < |other| ==> !IsManifestEntry(other[i].0)
    ensures ManifestsOf(entries + other) == ManifestsOf(entries)
  {
    if other != [] {
      var init := other[..|other| - 1];
      assert (entries + other)[..|entries + other| - 1] == entries + init;
      ManifestsOfIgnoresOthers(entries, init);
    } else {
      assert entries + other == entries;
    }
  }

  /** `loadPluginManifests`: walks the entries, parsing each manifest entry and keeping what parses. */
  method LoadPluginManifests(entries: seq<(string, string)>) returns (manifests: seq<PluginManifest>)
    ensures manifests == ManifestsOf(entries)
  {
    manifests := [];
    var i := 0;
    while i < |entries|
      invariant 0 <= i <= |entries|
      invariant manifests == ManifestsOf(entries[..i])
    {
      assert entries[..i + 1][..i] == entries[..i];
      var fileName := entries[i].0;
      if IsManifestEntry(fileName) {
        var manifest := ParsePluginManifest(entries[i].1);
        if manifest.Some? {
          manifests := manifests + [manifest.value];
        }
      }
      i := i + 1;
    }
    assert entries[..i] == entries;
  }

  /** `loadJar`: a jar whose entries hold no manifest is an error naming the file. */
  method LoadJar(file: string, entries: seq<(string, string)>) returns (r: Result<seq<PluginManifest>, string>)
    ensures r.Ok? <==> ManifestsOf(entries) != []
    ensures r.Ok? ==> r.value == ManifestsOf(entries)
    ensures r.Err? ==> r.error == "No plugin manifest found in " + file
  {
    var manifests := LoadPluginManifests(entries);
    if |manifests| == 0 {
      return Err("No plugin manifest found in " + file);
    }
    return Ok(manifests);
  }
}
