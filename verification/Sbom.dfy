// The bill of materials: what the generator prints and what the structural validator accepts.
module Sbom {
  import opened Wrappers
  import opened Text
  import opened Lockfile
  import opened Reachability

  type byte = b: int | 0 <= b < 256
  type Hash = h: seq<byte> | |h| == 32 witness seq(32, _ => 0)

  // SHA-256 and encodeURIComponent
  datatype Env = Env(sha: string -> Hash, encode: string -> string)

  datatype Project = Project(name: Option<string>, version: Option<string>)

  datatype Component = Component(ref: string, name: string, version: string, purl: string,
                                 lockPath: string, isDev: bool, isOptional: bool)

  datatype Dependency = Dependency(ref: string, dependsOn: seq<string>)

  // rootRef is metadata.component['bom-ref']; an empty text stands for an absent field
  datatype Bom = Bom(format: string, spec: string, version: int, serial: string, rootRef: string,
                     rootName: string, rootPurl: string, components: seq<Component>, dependencies: seq<Dependency>)

  // ---------------------------------------------------------------- texts

  function Digit(b: byte, high: bool): (c: char)
    ensures c in HEX
  {
    HEX[if high then b / 16 else b % 16]
  }

  /** toString('hex') */
  function Hex(bytes: seq<byte>): (r: string)
    ensures |r| == 2 * |bytes|
    ensures forall i :: 0 <= i < |r| ==> r[i] in HEX
  {
    seq(2 * |bytes|, i requires 0 <= i < 2 * |bytes| => Digit(bytes[i / 2], i % 2 == 0))
  }

  /** String(x): an absent version prints as the word undefined. */
  function Shown(version: Option<string>): string {
    if version.Some? then version.value else "undefined"
  }

  function BomRef(env: Env, key: string, rec: Record): string {
    "urn:bevoac:npm:" + Hex(env.sha(key + ['\0'] + Shown(rec.version)))
  }

  /** deterministicUuid */
  function Uuid(hash: Hash): string {
    var b := hash[6 := hash[6] % 16 + 80][8 := hash[8] % 64 + 128];
    Hex(b[..4]) + "-" + Hex(b[4..6]) + "-" + Hex(b[6..8]) + "-" + Hex(b[8..10]) + "-" + Hex(b[10..16])
  }

  const DIRECTORY := "node_modules/"

  /** DIRECTORY stands at position i. */
  predicate DirectoryAt(s: string, i: nat) {
    i + |DIRECTORY| <= |s| && s[i..i + |DIRECTORY|] == DIRECTORY
  }

  function NameAfter(key: string, n: nat): string
    requires n <= |key|
  {
    if n == 0 then key[(if |key| < 12 then |key| else 12)..]
    else if DirectoryAt(key, n - 1) then key[n + 12..]
    else NameAfter(key, n - 1)
  }

  /** packageName: what follows the last "node_modules/". */
  function PackageName(key: string): string { NameAfter(key, |key|) }

  function FirstSlash(name: string): (r: nat)
    ensures r <= |name| && (r < |name| ==> name[r] == '/') && forall i :: 0 <= i < r ==> name[i] != '/'
  {
    if name == "" || name[0] == '/' then 0 else 1 + FirstSlash(name[1..])
  }

  function Purl(env: Env, name: string, version: string): string {
    if name != "" && name[0] == '@' then
      var slash := FirstSlash(name);
      // without a slash, indexOf is -1: slice(0, -1) and slice(0)
      var scope := if slash < |name| then name[..slash] else name[..|name| - 1];
      var local := if slash < |name| then name[slash + 1..] else name;
      "pkg:npm/" + env.encode(scope) + "/" + env.encode(local) + "@" + env.encode(version)
    else
      "pkg:npm/" + env.encode(name) + "@" + env.encode(version)
  }

  function RootRef(env: Env, project: Project): string {
    "pkg:npm/" + env.encode(Shown(project.name)) + "@" + env.encode(Shown(project.version))
  }

  function ComponentFor(env: Env, key: string, rec: Record): Component {
    var name := PackageName(key);
    Component(BomRef(env, key, rec), name, Shown(rec.version), Purl(env, name, Shown(rec.version)),
              key, rec.isDev, rec.isOptional)
  }

  function Components(env: Env, lock: Lock, keys: seq<string>): seq<Component>
    requires forall k :: k in keys ==> k in lock
  {
    seq(|keys|, i requires 0 <= i < |keys| => ComponentFor(env, keys[i], lock[keys[i]]))
  }

  /** The reference under which a package of the lockfile appears in the dependency graph. */
  function RefOf(env: Env, project: Project, lock: Lock, key: string): string
    requires key in lock
  {
    if key == "" then RootRef(env, project) else BomRef(env, key, lock[key])
  }

  // ---------------------------------------------------------------- what is generated

  /** Exactly the references of the packages that key depends on, in ascending order. */
  ghost predicate Links(env: Env, project: Project, lock: Lock, omitDev: bool, key: string, list: seq<string>) {
    && Ascending(list)
    && forall r :: r in list <==>
       exists to :: Edge(lock, omitDev, key, to) && to in lock && RefOf(env, project, lock, to) == r
  }

  /**
    * One component and one graph entry per reachable package, in the order
    * of their lockfile paths; the root's entry first.
    */
  ghost predicate Describes(env: Env, project: Project, lockText: string, lock: Lock, omitDev: bool,
                            keys: seq<string>, bom: Bom) {
    && "" in lock && project.name.Some?
    && Ascending(keys)
    && (forall k :: k in keys <==> k != "" && Reachable(lock, omitDev, k))
    && (forall k :: k in keys ==> k in lock)
    && bom.format == "CycloneDX" && bom.spec == "1.6" && bom.version == 1
    && bom.serial == "urn:uuid:" + Uuid(env.sha(lockText))
    && bom.rootRef == RootRef(env, project) && bom.rootName == project.name.value
    && (project.version.Some? ==>
          bom.rootRef == "pkg:npm/" + env.encode(project.name.value) + "@" + env.encode(project.version.value))
    && (project.version.None? ==>
          bom.rootRef == "pkg:npm/" + env.encode(project.name.value) + "@" + env.encode("undefined"))
    && bom.rootPurl == Purl(env, project.name.value, Shown(project.version))
    && bom.components == Components(env, lock, keys)
    && Graph(env, project, lock, omitDev, [""] + keys, bom.dependencies)
  }

  ghost predicate Entry(env: Env, project: Project, lock: Lock, omitDev: bool, key: string, entry: Dependency) {
    && key in lock && entry.ref == RefOf(env, project, lock, key)
    && Links(env, project, lock, omitDev, key, entry.dependsOn)
  }

  ghost predicate Graph(env: Env, project: Project, lock: Lock, omitDev: bool, keys: seq<string>,
                        entries: seq<Dependency>) {
    |entries| == |keys| && forall i :: 0 <= i < |keys| ==> Entry(env, project, lock, omitDev, keys[i], entries[i])
  }

  datatype GenerateError = UnsupportedVersion | Lockfile(cause: LockError) | NoProjectName

  ghost predicate Linked(env: Env, project: Project, lock: Lock, reachable: set<string>, key: string, name: string,
                         ref: string) {
    && Resolve(lock, key, name).Some?
    && Resolve(lock, key, name).value in reachable && Resolve(lock, key, name).value in lock
    && RefOf(env, project, lock, Resolve(lock, key, name).value) == ref
  }

  method AddLinks(env: Env, project: Project, lock: Lock, reachable: set<string>, key: string, names: seq<string>,
                  refs: set<string>)
    returns (refs': set<string>)
    ensures forall r :: r in refs' <==>
      r in refs || exists n :: n in names && Linked(env, project, lock, reachable, key, n, r)
  {
    refs' := refs;
    for i := 0 to |names|
      invariant forall r :: r in refs' <==>
        r in refs || exists n :: n in names[..i] && Linked(env, project, lock, reachable, key, n, r)
    {
      ghost var before := refs';
      var resolved := Resolve(lock, key, names[i]);
      ResolvedIsPresent(lock, key, names[i]);
      if resolved.Some? && resolved.value in reachable {
        refs' := refs' + {RefOf(env, project, lock, resolved.value)};
      }
      assert names[..i + 1] == names[..i] + [names[i]];
      assert forall r :: r in refs' <==> r in before || Linked(env, project, lock, reachable, key, names[i], r);
    }
    assert names[..|names|] == names;
  }

  /** The dependsOn list of one package. */
  method DependsOn(env: Env, project: Project, lock: Lock, omitDev: bool, reachable: set<string>, key: string)
    returns (list: seq<string>)
    requires key in reachable && key in lock && Closed(lock, omitDev, reachable)
    ensures Links(env, project, lock, omitDev, key, list)
  {
    var groups := Groups(lock[key], key == "", omitDev);
    var refs: set<string> := {};
    for g := 0 to |groups|
      invariant forall r :: r in refs <==> LinkedFrom(env, project, lock, reachable, key, groups, g, r)
    {
      refs := AddLinks(env, project, lock, reachable, key, groups[g], refs);
      forall r
        ensures r in refs <==> LinkedFrom(env, project, lock, reachable, key, groups, g + 1, r)
      {
        LinkedByOneMore(env, project, lock, reachable, key, groups, g, r);
      }
    }
    refs := AddLinks(env, project, lock, reachable, key, lock[key].peer, refs);
    list := SortedList(refs);
    forall r
      ensures r in list <==>
        exists to :: Edge(lock, omitDev, key, to) && to in lock && RefOf(env, project, lock, to) == r
    {
      LinkedIsEdge(env, project, lock, omitDev, reachable, key, r);
    }
  }

  ghost predicate LinkedFrom(env: Env, project: Project, lock: Lock, reachable: set<string>, key: string,
                             groups: seq<seq<string>>, count: nat, ref: string)
    requires count <= |groups|
  {
    exists g, n :: 0 <= g < count && n in groups[g] && Linked(env, project, lock, reachable, key, n, ref)
  }

  lemma LinkedByOneMore(env: Env, project: Project, lock: Lock, reachable: set<string>, key: string,
                        groups: seq<seq<string>>, g: nat, r: string)
    requires g < |groups|
    ensures LinkedFrom(env, project, lock, reachable, key, groups, g + 1, r) <==>
      LinkedFrom(env, project, lock, reachable, key, groups, g, r)
      || exists n :: n in groups[g] && Linked(env, project, lock, reachable, key, n, r)
  {
    if LinkedFrom(env, project, lock, reachable, key, groups, g + 1, r) {
      var i, n :| 0 <= i < g + 1 && n in groups[i] && Linked(env, project, lock, reachable, key, n, r);
      assert i == g ==> n in groups[g];
    }
    if LinkedFrom(env, project, lock, reachable, key, groups, g, r) {
      var i, n :| 0 <= i < g && n in groups[i] && Linked(env, project, lock, reachable, key, n, r);
      assert 0 <= i < g + 1;
    }
    if n :| n in groups[g] && Linked(env, project, lock, reachable, key, n, r) {
      assert 0 <= g < g + 1;
    }
  }

  lemma LinkedGivesEdge(env: Env, project: Project, lock: Lock, omitDev: bool, reachable: set<string>, key: string,
                        name: string, ref: string)
    requires Wants(lock, omitDev, key, name) && Linked(env, project, lock, reachable, key, name, ref)
    ensures exists to :: Edge(lock, omitDev, key, to) && to in lock && RefOf(env, project, lock, to) == ref
  {
    assert Edge(lock, omitDev, key, Resolve(lock, key, name).value);
  }

  /** The names of the groups and of the peers are the wanted names. */
  lemma WantedNames(lock: Lock, omitDev: bool, key: string, name: string)
    requires key in lock
    ensures var groups := Groups(lock[key], key == "", omitDev);
      Wants(lock, omitDev, key, name) <==> name in lock[key].peer || exists g :: 0 <= g < |groups| && name in groups[g]
  {
    var groups := Groups(lock[key], key == "", omitDev);
    GroupsAreWanted(lock, omitDev, key);
    if g :| 0 <= g < |groups| && name in groups[g] {
      assert AllRequired(lock, omitDev, key, groups[g]);
    }
    assert groups[0] == lock[key].dependencies && groups[1] == lock[key].optional;
    assert key == "" && !omitDev ==> groups[2] == lock[key].dev;
  }

  lemma LinkedIsEdge(env: Env, project: Project, lock: Lock, omitDev: bool, reachable: set<string>, key: string,
                     ref: string)
    requires key in reachable && key in lock && Closed(lock, omitDev, reachable)
    ensures var groups := Groups(lock[key], key == "", omitDev);
      (LinkedFrom(env, project, lock, reachable, key, groups, |groups|, ref)
       || exists n :: n in lock[key].peer && Linked(env, project, lock, reachable, key, n, ref))
      <==> exists to :: Edge(lock, omitDev, key, to) && to in lock && RefOf(env, project, lock, to) == ref
  {
    var groups := Groups(lock[key], key == "", omitDev);
    if LinkedFrom(env, project, lock, reachable, key, groups, |groups|, ref) {
      var g, n :| 0 <= g < |groups| && n in groups[g] && Linked(env, project, lock, reachable, key, n, ref);
      WantedNames(lock, omitDev, key, n);
      LinkedGivesEdge(env, project, lock, omitDev, reachable, key, n, ref);
    }
    if n :| n in lock[key].peer && Linked(env, project, lock, reachable, key, n, ref) {
      WantedNames(lock, omitDev, key, n);
      LinkedGivesEdge(env, project, lock, omitDev, reachable, key, n, ref);
    }
    if to :| Edge(lock, omitDev, key, to) && to in lock && RefOf(env, project, lock, to) == ref {
      var n :| Wants(lock, omitDev, key, n) && Resolve(lock, key, n) == Some(to);
      WantedNames(lock, omitDev, key, n);
      assert Linked(env, project, lock, reachable, key, n, ref);
    }
  }

  /** generate, without the files and the console. */
  method Generate(env: Env, project: Project, lockVersion: int, lockText: string, lock: Lock, omitDev: bool)
    returns (r: Result<Bom, GenerateError>, ghost keys: seq<string>)
    ensures r.Ok? ==> lockVersion == 3 && Describes(env, project, lockText, lock, omitDev, keys, r.value)
    ensures r == Err(UnsupportedVersion) <==> lockVersion != 3
    ensures r == Err(Lockfile(NoRoot)) <==> lockVersion == 3 && "" !in lock
    ensures lockVersion == 3 && "" in lock
      && (exists k, name :: Reachable(lock, omitDev, k) && Stuck(lock, omitDev, k, name))
      <==> r.Err? && r.error.Lockfile? && r.error.cause.Unresolved?
    ensures r == Err(NoProjectName) ==> project.name.None?
  {
    keys := [];
    if lockVersion != 3 {
      return Err(UnsupportedVersion), [];
    }
    var found := ReachablePackages(lock, omitDev);
    if found.Err? {
      return Err(Lockfile(found.error)), [];
    }
    var reachable := found.value;
    var packageKeys := SortedList(reachable - {""});
    keys := packageKeys;
    var components := Components(env, lock, packageKeys);
    var entries := DependencyList(env, project, lock, omitDev, reachable, [""] + packageKeys);
    if project.name.None? {
      return Err(NoProjectName), keys;
    }
    r := Ok(Bom("CycloneDX", "1.6", 1, "urn:uuid:" + Uuid(env.sha(lockText)), RootRef(env, project), project.name.value,
                Purl(env, project.name.value, Shown(project.version)), components, entries));
  }

  method DependencyList(env: Env, project: Project, lock: Lock, omitDev: bool, reachable: set<string>,
                        keys: seq<string>)
    returns (entries: seq<Dependency>)
    requires Closed(lock, omitDev, reachable)
    requires forall k :: k in keys ==> k in reachable && k in lock
    ensures Graph(env, project, lock, omitDev, keys, entries)
  {
    entries := [];
    for i := 0 to |keys|
      invariant Graph(env, project, lock, omitDev, keys[..i], entries)
    {
      var list := DependsOn(env, project, lock, omitDev, reachable, keys[i]);
      OneMoreEntry(env, project, lock, omitDev, keys, entries, list);
      entries := entries + [Dependency(RefOf(env, project, lock, keys[i]), list)];
    }
    assert keys[..|keys|] == keys;
  }

  lemma OneMoreEntry(env: Env, project: Project, lock: Lock, omitDev: bool, keys: seq<string>,
                     entries: seq<Dependency>, list: seq<string>)
    requires |entries| < |keys| && Graph(env, project, lock, omitDev, keys[..|entries|], entries)
    requires keys[|entries|] in lock && Links(env, project, lock, omitDev, keys[|entries|], list)
    ensures Graph(env, project, lock, omitDev, keys[..|entries| + 1],
                  entries + [Dependency(RefOf(env, project, lock, keys[|entries|]), list)])
  {
  }

  // ---------------------------------------------------------------- validate-cyclonedx-sbom.js

  /** The pattern of the serial number; its letters match in either case. */
  predicate SerialOk(serial: string) {
    && |serial| == 45
    && (forall i :: 0 <= i < 9 ==> LowerChar(serial[i]) == "urn:uuid:"[i])
    && (forall i :: 9 <= i < 45 ==> LowerChar(serial[i]) in HEX || serial[i] == '-')
  }

  /** The pattern, read off the serial number in small letters. */
  lemma SerialShape(serial: string)
    ensures SerialOk(serial) <==>
      exists uuid :: |uuid| == 36 && LowerCase(serial) == "urn:uuid:" + uuid
                     && forall i :: 0 <= i < 36 ==> uuid[i] in "0123456789abcdef-"
  {
    var small := LowerCase(serial);
    if SerialOk(serial) {
      var uuid := small[9..];
      forall i | 0 <= i < 36 ensures uuid[i] in "0123456789abcdef-" {
        HexOrHyphen(serial[9 + i]);
      }
      assert small == "urn:uuid:" + uuid;
    }
    if uuid :| |uuid| == 36 && small == "urn:uuid:" + uuid
               && forall i :: 0 <= i < 36 ==> uuid[i] in "0123456789abcdef-" {
      forall i | 9 <= i < 45 ensures LowerChar(serial[i]) in HEX || serial[i] == '-' {
        assert small[i] == uuid[i - 9];
        HexOrHyphen(serial[i]);
      }
      forall i | 0 <= i < 9 ensures LowerChar(serial[i]) == "urn:uuid:"[i] {
        assert small[i] == "urn:uuid:"[i];
      }
    }
  }

  lemma HexOrHyphen(c: char)
    ensures LowerChar(c) in "0123456789abcdef-" <==> LowerChar(c) in HEX || c == '-'
  {
    assert "0123456789abcdef-" == HEX + "-";
  }

  predicate Complete(c: Component) {
    c.ref != "" && c.name != "" && c.version != "" && c.purl != ""
  }

  /**
    * A well-formed envelope; complete components; no reference defined twice; a
    * graph over defined references with the root in it.
    */
  ghost predicate Valid(bom: Bom) {
    && bom.format == "CycloneDX" && bom.spec == "1.6" && bom.version == 1 && SerialOk(bom.serial) && bom.rootRef != ""
    && (forall c :: c in bom.components ==> Complete(c) && c.ref != bom.rootRef)
    && (forall i, j :: 0 <= i < j < |bom.components| ==> bom.components[i].ref != bom.components[j].ref)
    && (forall d :: d in bom.dependencies ==>
          Defined(bom, d.ref) && forall child :: child in d.dependsOn ==> Defined(bom, child))
    && (forall i, j :: 0 <= i < j < |bom.dependencies| ==> bom.dependencies[i].ref != bom.dependencies[j].ref)
    && exists d :: d in bom.dependencies && d.ref == bom.rootRef
  }

  ghost predicate Defined(bom: Bom, ref: string) {
    ref == bom.rootRef || exists c :: c in bom.components && c.ref == ref
  }

  method ValidateComponents(bom: Bom) returns (ok: bool, refs: set<string>)
    ensures ok <==>
      (forall c :: c in bom.components ==> Complete(c) && c.ref != bom.rootRef)
      && (forall i, j :: 0 <= i < j < |bom.components| ==> bom.components[i].ref != bom.components[j].ref)
    ensures ok ==> forall r :: r in refs <==> Defined(bom, r)
  {
    refs := {bom.rootRef};
    for i := 0 to |bom.components|
      invariant forall j :: 0 <= j < i ==> Complete(bom.components[j]) && bom.components[j].ref != bom.rootRef
      invariant forall j, k :: 0 <= j < k < i ==> bom.components[j].ref != bom.components[k].ref
      invariant forall r :: r in refs <==> r == bom.rootRef || exists j :: 0 <= j < i && bom.components[j].ref == r
    {
      var c := bom.components[i];
      if !Complete(c) || c.ref in refs {
        assert c in bom.components;
        return false, refs;
      }
      refs := refs + {c.ref};
    }
    ok := true;
  }

  method ValidateGraph(bom: Bom, refs: set<string>) returns (ok: bool)
    requires forall r :: r in refs <==> Defined(bom, r)
    ensures ok <==>
      (forall d :: d in bom.dependencies ==>
         Defined(bom, d.ref) && forall child :: child in d.dependsOn ==> Defined(bom, child))
      && (forall i, j :: 0 <= i < j < |bom.dependencies| ==> bom.dependencies[i].ref != bom.dependencies[j].ref)
      && exists d :: d in bom.dependencies && d.ref == bom.rootRef
  {
    var dependencyRefs: set<string> := {};
    for i := 0 to |bom.dependencies|
      invariant forall j :: 0 <= j < i ==>
        bom.dependencies[j].ref in refs && forall child :: child in bom.dependencies[j].dependsOn ==> child in refs
      invariant forall j, k :: 0 <= j < k < i ==> bom.dependencies[j].ref != bom.dependencies[k].ref
      invariant forall r :: r in dependencyRefs <==> exists j :: 0 <= j < i && bom.dependencies[j].ref == r
    {
      var d := bom.dependencies[i];
      assert d in bom.dependencies;
      if d.ref !in refs || d.ref in dependencyRefs {
        return false;
      }
      dependencyRefs := dependencyRefs + {d.ref};
      for c := 0 to |d.dependsOn|
        invariant forall j :: 0 <= j < c ==> d.dependsOn[j] in refs
      {
        if d.dependsOn[c] !in refs {
          assert d.dependsOn[c] in d.dependsOn;
          return false;
        }
      }
    }
    ok := bom.rootRef in dependencyRefs;
  }

  /** The checks of one file. */
  method Validate(bom: Bom) returns (ok: bool)
    ensures ok <==> Valid(bom)
    ensures ok ==> forall c :: c in bom.components ==> c.ref != "" && c.name != "" && c.version != "" && c.purl != ""
    ensures ok ==>
      exists uuid :: |uuid| == 36 && LowerCase(bom.serial) == "urn:uuid:" + uuid
                     && forall i :: 0 <= i < 36 ==> uuid[i] in "0123456789abcdef-"
  {
    SerialShape(bom.serial);
    if bom.format != "CycloneDX" || bom.spec != "1.6" || bom.version != 1 || !SerialOk(bom.serial)
      || bom.rootRef == "" {
      return false;
    }
    var refs;
    ok, refs := ValidateComponents(bom);
    if ok {
      ok := ValidateGraph(bom, refs);
    }
  }

  function ComponentCount(boms: seq<Bom>): nat {
    if boms == [] then 0 else ComponentCount(boms[..|boms| - 1]) + |boms[|boms| - 1].components|
  }

  /** All files of the command line: the printed total, or a failure at the first invalid one. */
  method ValidateAll(boms: seq<Bom>) returns (total: Option<nat>)
    ensures total.Some? <==> forall b :: b in boms ==> Valid(b)
    ensures total.Some? ==> total.value == ComponentCount(boms)
  {
    var sum := 0;
    for i := 0 to |boms|
      invariant forall j :: 0 <= j < i ==> Valid(boms[j])
      invariant sum == ComponentCount(boms[..i])
    {
      var ok := Validate(boms[i]);
      if !ok {
        assert boms[i] in boms;
        return None;
      }
      sum := sum + |boms[i].components|;
      assert boms[..i + 1][..i] == boms[..i];
    }
    assert boms[..|boms|] == boms;
    total := Some(sum);
  }
}
