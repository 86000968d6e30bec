// The generator and the validator agree, and the printed graph is the dependency closure.
module SbomAgreement {
  import opened Wrappers
  import opened Text
  import opened Lockfile
  import opened Reachability
  import opened Sbom

  // ---------------------------------------------------------------- the serial number

  lemma UuidLayout(hash: Hash, i: nat)
    requires i < 36
    ensures |Uuid(hash)| == 36
    ensures if i in {8, 13, 18, 23} then Uuid(hash)[i] == '-' else Uuid(hash)[i] in HEX
  {
  }

  lemma HighDigits(b: byte)
    ensures b / 16 == 5 ==> Digit(b, true) == '5'
    ensures 8 <= b / 16 < 12 ==> Digit(b, true) in "89ab"
  {
    if 8 <= b / 16 < 12 {
      assert Digit(b, true) == "89ab"[b / 16 - 8];
    }
  }

  /** The lower-case form of section 4 of RFC 9562, with version 5 and the variant of section 4.1. */
  lemma SerialIsAUuid(hash: Hash)
    ensures var u := Uuid(hash);
      |u| == 36 && (forall i :: 0 <= i < 36 ==> if i in {8, 13, 18, 23} then u[i] == '-' else u[i] in HEX)
      && u[14] == '5' && u[19] in "89ab"
  {
    forall i | 0 <= i < 36
      ensures if i in {8, 13, 18, 23} then Uuid(hash)[i] == '-' else Uuid(hash)[i] in HEX
    {
      UuidLayout(hash, i);
    }
    UuidLayout(hash, 0);
    VersionAndVariant(hash);
  }

  lemma VersionAndVariant(hash: Hash)
    ensures |Uuid(hash)| == 36 && Uuid(hash)[14] == '5' && Uuid(hash)[19] in "89ab"
  {
    var version: byte, variant: byte := hash[6] % 16 + 80, hash[8] % 64 + 128;
    HighDigits(version);
    HighDigits(variant);
    assert Uuid(hash)[14] == Digit(version, true);
    assert Uuid(hash)[19] == Digit(variant, true);
  }

  /** But for the version digit and the two variant bits, the identifier shows the first sixteen bytes in order. */
  lemma UuidShowsTheHash(hash: Hash)
    ensures var u := Uuid(hash);
      && |u| == 36 && u[..8] == Hex(hash[..4]) && u[9..13] == Hex(hash[4..6]) && u[15..18] == Hex(hash[6..8])[1..]
      && u[20..23] == Hex(hash[8..10])[1..] && u[24..] == Hex(hash[10..16])
  {
    var b := hash[6 := hash[6] % 16 + 80][8 := hash[8] % 64 + 128];
    assert b[..4] == hash[..4] && b[4..6] == hash[4..6] && b[10..16] == hash[10..16];
    LowBits(hash[6]);
    LowBits(hash[8]);
    LowDigits(b[6..8], hash[6..8]);
    LowDigits(b[8..10], hash[8..10]);
    var u, g3, g4 := Uuid(hash), Hex(b[6..8]), Hex(b[8..10]);
    assert u[14..18] == g3 && u[19..23] == g4;
    assert u[15..18] == g3[1..] && u[20..23] == g4[1..];
  }

  lemma LowBits(b: byte)
    ensures (b % 16 + 80) % 16 == b % 16 && (b % 64 + 128) % 16 == b % 16
  {
  }

  lemma AfterFirstDigit(bytes: seq<byte>)
    requires |bytes| == 2
    ensures Hex(bytes)[1..] == [Digit(bytes[0], false), Digit(bytes[1], true), Digit(bytes[1], false)]
  {
    var h := Hex(bytes);
    HexAt(bytes, 1);
    HexAt(bytes, 2);
    HexAt(bytes, 3);
    assert h[1..] == [h[1], h[2], h[3]];
  }

  lemma HexAt(bytes: seq<byte>, k: nat)
    requires k < 2 * |bytes|
    ensures Hex(bytes)[k] == Digit(bytes[k / 2], k % 2 == 0)
  {
  }

  lemma LowDigits(masked: seq<byte>, bytes: seq<byte>)
    requires |masked| == |bytes| == 2 && masked[1] == bytes[1] && masked[0] % 16 == bytes[0] % 16
    ensures Hex(masked)[1..] == Hex(bytes)[1..]
  {
    AfterFirstDigit(masked);
    AfterFirstDigit(bytes);
  }

  lemma SerialPasses(hash: Hash)
    ensures SerialOk("urn:uuid:" + Uuid(hash))
  {
    SerialIsAUuid(hash);
    var serial := "urn:uuid:" + Uuid(hash);
    forall i | 9 <= i < 45
      ensures LowerChar(serial[i]) in HEX || serial[i] == '-'
    {
      assert serial[i] == Uuid(hash)[i - 9];
      HexIsLowerCase(serial[i]);
    }
  }

  lemma HexIsLowerCase(c: char)
    ensures c in HEX ==> LowerChar(c) in HEX
  {
    if c in HEX {
      assert '0' <= c <= '9' || 'a' <= c <= 'f';
    }
  }

  // ---------------------------------------------------------------- what the generator prints passes the validator

  /** What the validator needs of a lockfile: named, versioned packages with different references. */
  ghost predicate Printable(env: Env, lock: Lock, keys: seq<string>)
    requires forall k :: k in keys ==> k in lock
  {
    && (forall k :: k in keys ==> NamedAndVersioned(lock[k], k))
    && forall i, j :: 0 <= i < j < |keys| ==> BomRef(env, keys[i], lock[keys[i]]) != BomRef(env, keys[j], lock[keys[j]])
  }

  /** No package shares the root's reference: one is a package URL, the other a URN. */
  lemma RootRefIsApart(env: Env, project: Project, key: string, rec: Record)
    ensures BomRef(env, key, rec) != RootRef(env, project)
    ensures BomRef(env, key, rec) != "" && RootRef(env, project) != ""
  {
    assert BomRef(env, key, rec)[0] == 'u';
    assert RootRef(env, project)[0] == 'p';
  }

  lemma PurlIsNotEmpty(env: Env, name: string, version: string)
    ensures Purl(env, name, version) != ""
  {
  }

  /** Every reference in the graph is the root's or a component's. */
  lemma GraphIsDefined(env: Env, project: Project, lockText: string, lock: Lock, omitDev: bool, keys: seq<string>,
                       bom: Bom, key: string)
    requires Describes(env, project, lockText, lock, omitDev, keys, bom)
    requires key in lock && Reachable(lock, omitDev, key)
    ensures Defined(bom, RefOf(env, project, lock, key))
  {
    if key != "" {
      var i :| 0 <= i < |keys| && keys[i] == key;
      assert bom.components[i].ref == BomRef(env, key, lock[key]);
      assert bom.components[i] in bom.components;
    }
  }

  lemma RootIsReachable(lock: Lock, omitDev: bool)
    ensures Reachable(lock, omitDev, "")
  {
  }

  lemma EntriesAreDefined(env: Env, project: Project, lockText: string, lock: Lock, omitDev: bool, keys: seq<string>,
                          bom: Bom, d: Dependency)
    requires Describes(env, project, lockText, lock, omitDev, keys, bom) && d in bom.dependencies
    ensures Defined(bom, d.ref) && forall child :: child in d.dependsOn ==> Defined(bom, child)
  {
    var all := [""] + keys;
    var i :| 0 <= i < |bom.dependencies| && bom.dependencies[i] == d;
    RootIsReachable(lock, omitDev);
    assert Entry(env, project, lock, omitDev, all[i], d);
    assert all[i] == "" || all[i] in keys;
    GraphIsDefined(env, project, lockText, lock, omitDev, keys, bom, all[i]);
    forall child | child in d.dependsOn
      ensures Defined(bom, child)
    {
      var to :| Edge(lock, omitDev, all[i], to) && to in lock && RefOf(env, project, lock, to) == child;
      EdgeReaches(lock, omitDev, all[i], to);
      GraphIsDefined(env, project, lockText, lock, omitDev, keys, bom, to);
    }
  }

  predicate NamedAndVersioned(rec: Record, key: string) {
    PackageName(key) != "" && Shown(rec.version) != ""
  }

  lemma ComponentOf(env: Env, project: Project, key: string, rec: Record)
    ensures var c := ComponentFor(env, key, rec);
      c.ref == BomRef(env, key, rec) && c.ref != RootRef(env, project)
      && (Complete(c) <==> NamedAndVersioned(rec, key))
  {
    RootRefIsApart(env, project, key, rec);
    PurlIsNotEmpty(env, PackageName(key), Shown(rec.version));
  }

  lemma ComponentAt(env: Env, project: Project, lock: Lock, keys: seq<string>, i: nat)
    requires (forall k :: k in keys ==> k in lock) && i < |keys|
    ensures var c, k := Components(env, lock, keys)[i], keys[i];
      k in lock && c.ref == BomRef(env, k, lock[k]) && c.ref != RootRef(env, project)
      && (Complete(c) <==> NamedAndVersioned(lock[k], k))
  {
    assert keys[i] in keys;
    ComponentOf(env, project, keys[i], lock[keys[i]]);
  }

  lemma AllComplete(env: Env, project: Project, lock: Lock, keys: seq<string>)
    requires forall k :: k in keys ==> k in lock
    ensures (forall k :: k in keys ==> NamedAndVersioned(lock[k], k)) <==>
      forall c :: c in Components(env, lock, keys) ==> Complete(c) && c.ref != RootRef(env, project)
  {
    var list := Components(env, lock, keys);
    if forall c :: c in list ==> Complete(c) && c.ref != RootRef(env, project) {
      forall k | k in keys ensures NamedAndVersioned(lock[k], k) {
        var i :| 0 <= i < |keys| && keys[i] == k;
        ComponentAt(env, project, lock, keys, i);
        assert list[i] in list;
      }
    }
    if forall k :: k in keys ==> NamedAndVersioned(lock[k], k) {
      forall c | c in list ensures Complete(c) && c.ref != RootRef(env, project) {
        var i :| 0 <= i < |list| && list[i] == c;
        ComponentAt(env, project, lock, keys, i);
      }
    }
  }

  lemma ComponentsComplete(env: Env, project: Project, lock: Lock, keys: seq<string>)
    requires forall k :: k in keys ==> k in lock
    ensures var list := Components(env, lock, keys);
      Printable(env, lock, keys) <==>
      (forall c :: c in list ==> Complete(c) && c.ref != RootRef(env, project))
      && (forall i, j :: 0 <= i < j < |list| ==> list[i].ref != list[j].ref)
  {
    AllComplete(env, project, lock, keys);
    forall i | 0 <= i < |keys|
      ensures Components(env, lock, keys)[i].ref == BomRef(env, keys[i], lock[keys[i]])
    {
      ComponentAt(env, project, lock, keys, i);
    }
  }

  /** Which key an entry of the graph is about. */
  lemma KeyOfEntry(keys: seq<string>, i: nat)
    requires i <= |keys|
    ensures ([""] + keys)[i] == if i == 0 then "" else keys[i - 1]
  {
  }

  lemma EntryIsOfComponent(env: Env, project: Project, lock: Lock, keys: seq<string>, i: nat, ref: string)
    requires i <= |keys| && "" !in keys && forall k :: k in keys ==> k in lock
    requires var key := if i == 0 then "" else keys[i - 1];
      key in lock && ref == RefOf(env, project, lock, key)
    ensures i == 0 ==> ref == RootRef(env, project)
    ensures i > 0 ==> ref == Components(env, lock, keys)[i - 1].ref
  {
    if i > 0 {
      assert keys[i - 1] in keys;
      ComponentAt(env, project, lock, keys, i - 1);
    }
  }

  /** The entry after the root's belongs to the i-th package. */
  lemma EntryRef(env: Env, project: Project, lockText: string, lock: Lock, omitDev: bool, keys: seq<string>, bom: Bom,
                 i: nat)
    requires Describes(env, project, lockText, lock, omitDev, keys, bom) && i <= |keys|
    ensures bom.dependencies[i].ref == if i == 0 then bom.rootRef else bom.components[i - 1].ref
  {
    KeyOfEntry(keys, i);
    assert Entry(env, project, lock, omitDev, ([""] + keys)[i], bom.dependencies[i]);
    EntryIsOfComponent(env, project, lock, keys, i, bom.dependencies[i].ref);
  }

  lemma EntriesDistinct(env: Env, project: Project, lockText: string, lock: Lock, omitDev: bool, keys: seq<string>,
                        bom: Bom)
    requires Describes(env, project, lockText, lock, omitDev, keys, bom)
    requires forall c :: c in bom.components ==> c.ref != bom.rootRef
    requires forall i, j :: 0 <= i < j < |bom.components| ==> bom.components[i].ref != bom.components[j].ref
    ensures forall i, j :: 0 <= i < j < |bom.dependencies| ==> bom.dependencies[i].ref != bom.dependencies[j].ref
    ensures exists d :: d in bom.dependencies && d.ref == bom.rootRef
  {
    forall i, j | 0 <= i < j < |bom.dependencies|
      ensures bom.dependencies[i].ref != bom.dependencies[j].ref
    {
      EntryRef(env, project, lockText, lock, omitDev, keys, bom, i);
      EntryRef(env, project, lockText, lock, omitDev, keys, bom, j);
      assert bom.components[j - 1] in bom.components;
    }
    EntryRef(env, project, lockText, lock, omitDev, keys, bom, 0);
    assert bom.dependencies[0] in bom.dependencies;
  }

  /**
    * The validator accepts what the generator prints, exactly if every
    * package is named, versioned and has its own reference.
    */
  lemma GeneratedIsValid(env: Env, project: Project, lockText: string, lock: Lock, omitDev: bool, keys: seq<string>,
                         bom: Bom)
    requires Describes(env, project, lockText, lock, omitDev, keys, bom)
    ensures Valid(bom) <==> Printable(env, lock, keys)
  {
    ComponentsComplete(env, project, lock, keys);
    if Printable(env, lock, keys) {
      SerialPasses(env.sha(lockText));
      EntriesDistinct(env, project, lockText, lock, omitDev, keys, bom);
      forall d | d in bom.dependencies
        ensures Defined(bom, d.ref) && forall child :: child in d.dependsOn ==> Defined(bom, child)
      {
        EntriesAreDefined(env, project, lockText, lock, omitDev, keys, bom, d);
      }
      assert bom.rootRef != "" by { RootRefIsApart(env, project, "", lock[""]); }
    }
  }

  // ---------------------------------------------------------------- when references differ

  lemma DigitsOf(bytes: seq<byte>, i: nat)
    requires i < |bytes|
    ensures Hex(bytes)[2 * i] == Digit(bytes[i], true) && Hex(bytes)[2 * i + 1] == Digit(bytes[i], false)
  {
    HexAt(bytes, 2 * i);
    HexAt(bytes, 2 * i + 1);
  }

  lemma DigitsDetermine(a: byte, b: byte)
    requires Digit(a, true) == Digit(b, true) && Digit(a, false) == Digit(b, false)
    ensures a == b
  {
    HexDigits(a / 16, b / 16);
    HexDigits(a % 16, b % 16);
  }

  lemma HexIsInjective(a: seq<byte>, b: seq<byte>)
    requires Hex(a) == Hex(b)
    ensures a == b
  {
    assert |a| == |b|;
    forall i | 0 <= i < |a| ensures a[i] == b[i] {
      DigitsOf(a, i);
      DigitsOf(b, i);
      DigitsDetermine(a[i], b[i]);
    }
  }

  lemma FirstNul(k: string, v: string)
    requires '\0' !in k
    ensures var s := k + ['\0'] + v; s[|k|] == '\0' && forall i :: 0 <= i < |k| ==> s[i] != '\0'
  {
    forall i | 0 <= i < |k| ensures (k + ['\0'] + v)[i] == k[i] && k[i] in k {}
  }

  lemma SplitAtNul(k: string, v: string, k': string, v': string)
    requires '\0' !in k && '\0' !in k' && k + ['\0'] + v == k' + ['\0'] + v'
    ensures k == k' && v == v'
  {
    var s := k + ['\0'] + v;
    FirstNul(k, v);
    FirstNul(k', v');
    assert s[..|k|] == k && s[..|k'|] == k';
    assert s[|k| + 1..] == v && s[|k'| + 1..] == v';
  }

  /** What is hashed for a reference: path and version, joined by a NUL character. */
  function RefInput(key: string, rec: Record): string { key + ['\0'] + Shown(rec.version) }

  /** Two references are equal exactly if path and version are, or the hash collides on these two inputs. */
  lemma RefsDiffer(env: Env, key: string, rec: Record, key': string, rec': Record)
    requires '\0' !in key && '\0' !in key'
    ensures BomRef(env, key, rec) == BomRef(env, key', rec') <==>
      || (key == key' && Shown(rec.version) == Shown(rec'.version))
      || (RefInput(key, rec) != RefInput(key', rec') && env.sha(RefInput(key, rec)) == env.sha(RefInput(key', rec')))
  {
    var x, x' := RefInput(key, rec), RefInput(key', rec');
    if BomRef(env, key, rec) == BomRef(env, key', rec') {
      var prefix := "urn:bevoac:npm:";
      assert BomRef(env, key, rec)[|prefix|..] == Hex(env.sha(x));
      assert BomRef(env, key', rec')[|prefix|..] == Hex(env.sha(x'));
      HexIsInjective(env.sha(x), env.sha(x'));
      if x == x' {
        SplitAtNul(key, Shown(rec.version), key', Shown(rec'.version));
      }
    }
  }

  // ---------------------------------------------------------------- the printed graph

  /** s holds the root and whatever its members depend on, by the entries of the bill of materials. */
  ghost predicate ClosedInGraph(bom: Bom, s: set<string>) {
    bom.rootRef in s && forall d, child :: d in bom.dependencies && d.ref in s && child in d.dependsOn ==> child in s
  }

  lemma DefinedIsReached(env: Env, project: Project, lockText: string, lock: Lock, omitDev: bool, keys: seq<string>,
                         bom: Bom, ref: string, s: set<string>)
    requires Describes(env, project, lockText, lock, omitDev, keys, bom)
    requires Defined(bom, ref) && ClosedInGraph(bom, s)
    ensures ref in s
  {
    if ref != bom.rootRef {
      var i :| 0 <= i < |bom.components| && bom.components[i].ref == ref;
      ComponentAt(env, project, lock, keys, i);
      ReachedInGraph(env, project, lockText, lock, omitDev, keys, bom, s, keys[i]);
    }
  }

  /** Reading only the printed graph: its components are exactly what the root reaches through dependsOn. */
  lemma ComponentsAreTheClosure(env: Env, project: Project, lockText: string, lock: Lock, omitDev: bool,
                                keys: seq<string>, bom: Bom, ref: string)
    requires Describes(env, project, lockText, lock, omitDev, keys, bom)
    ensures Defined(bom, ref) <==> forall s: set<string> :: ClosedInGraph(bom, s) ==> ref in s
  {
    if Defined(bom, ref) {
      forall s: set<string> | ClosedInGraph(bom, s) ensures ref in s {
        DefinedIsReached(env, project, lockText, lock, omitDev, keys, bom, ref, s);
      }
    } else {
      var s := {bom.rootRef} + set c | c in bom.components :: c.ref;
      forall d, child | d in bom.dependencies && d.ref in s && child in d.dependsOn
        ensures child in s
      {
        EntriesAreDefined(env, project, lockText, lock, omitDev, keys, bom, d);
        assert Defined(bom, child);
      }
      assert ClosedInGraph(bom, s);
    }
  }

  lemma ReachedInGraph(env: Env, project: Project, lockText: string, lock: Lock, omitDev: bool, keys: seq<string>,
                       bom: Bom, s: set<string>, key: string)
    requires Describes(env, project, lockText, lock, omitDev, keys, bom)
    requires ClosedInGraph(bom, s) && key in keys
    ensures BomRef(env, key, lock[key]) in s
  {
    var t := {""} + set k | k in keys && BomRef(env, k, lock[k]) in s;
    forall k, to | k in t && Edge(lock, omitDev, k, to)
      ensures to in t
    {
      EdgeInGraph(env, project, lockText, lock, omitDev, keys, bom, s, k, to);
    }
    assert Closed(lock, omitDev, t);
    RootIsNoKey(lock, omitDev, keys, key, t);
  }

  lemma RootIsNoKey(lock: Lock, omitDev: bool, keys: seq<string>, key: string, t: set<string>)
    requires key in keys && (forall k :: k in keys <==> k != "" && Reachable(lock, omitDev, k))
    requires Closed(lock, omitDev, t)
    ensures key in t && key != ""
  {
  }

  lemma EdgeInGraph(env: Env, project: Project, lockText: string, lock: Lock, omitDev: bool, keys: seq<string>,
                    bom: Bom, s: set<string>, key: string, to: string)
    requires Describes(env, project, lockText, lock, omitDev, keys, bom) && ClosedInGraph(bom, s)
    requires key == "" || (key in keys && BomRef(env, key, lock[key]) in s)
    requires Edge(lock, omitDev, key, to)
    ensures to == "" || (to in keys && BomRef(env, to, lock[to]) in s)
  {
    var all := [""] + keys;
    var i := if key == "" then 0 else (var j :| 0 <= j < |keys| && keys[j] == key; j + 1);
    assert all[i] == key;
    var d := bom.dependencies[i];
    assert Entry(env, project, lock, omitDev, key, d) && d in bom.dependencies;
    RootIsReachable(lock, omitDev);
    EdgeReaches(lock, omitDev, key, to);
    var name :| Wants(lock, omitDev, key, name) && Resolve(lock, key, name) == Some(to);
    ResolvedIsPresent(lock, key, name);
    assert RefOf(env, project, lock, to) in d.dependsOn;
  }

  // ---------------------------------------------------------------- the same content, the same bill

  /** The same packages with the same records, up to the order in which dependencies are listed. */
  ghost predicate SameContent(a: Lock, b: Lock) {
    && a.Keys == b.Keys
    && forall k :: k in a ==>
      a[k].version == b[k].version && a[k].isDev == b[k].isDev && a[k].isOptional == b[k].isOptional
      && SameNames(a[k].dependencies, b[k].dependencies) && SameNames(a[k].optional, b[k].optional)
      && SameNames(a[k].dev, b[k].dev) && SameNames(a[k].peer, b[k].peer)
  }

  predicate SameNames(a: seq<string>, b: seq<string>) {
    (forall n :: n in a ==> n in b) && (forall n :: n in b ==> n in a)
  }

  lemma {:induction false} SamePresence(a: Lock, b: Lock, paths: seq<string>)
    requires a.Keys == b.Keys
    ensures FirstPresent(a, paths) == FirstPresent(b, paths)
  {
    if paths != [] {
      SamePresence(a, b, paths[1..]);
    }
  }

  lemma SameEdges(a: Lock, b: Lock, omitDev: bool, key: string, to: string)
    requires SameContent(a, b)
    ensures Edge(a, omitDev, key, to) <==> Edge(b, omitDev, key, to)
  {
    forall name ensures Resolve(a, key, name) == Resolve(b, key, name) {
      SamePresence(a, b, Paths(Bases(key), name));
    }
    forall name ensures Wants(a, omitDev, key, name) <==> Wants(b, omitDev, key, name) {
      if key in a {}
    }
  }

  lemma SameReachable(a: Lock, b: Lock, omitDev: bool, key: string)
    requires SameContent(a, b) && Reachable(a, omitDev, key)
    ensures Reachable(b, omitDev, key)
  {
    forall s: set<string> | Closed(b, omitDev, s) ensures key in s {
      forall k, to | k in s && Edge(a, omitDev, k, to) ensures to in s {
        SameEdges(a, b, omitDev, k, to);
      }
      assert Closed(a, omitDev, s);
    }
  }

  lemma SymmetricContent(a: Lock, b: Lock)
    requires SameContent(a, b)
    ensures SameContent(b, a)
  {
  }

  lemma SameEntry(env: Env, project: Project, a: Lock, b: Lock, omitDev: bool, key: string, x: Dependency,
                  y: Dependency)
    requires SameContent(a, b)
    requires Entry(env, project, a, omitDev, key, x) && Entry(env, project, b, omitDev, key, y)
    ensures x == y
  {
    forall r ensures r in x.dependsOn <==> r in y.dependsOn {
      if r in x.dependsOn {
        var to :| Edge(a, omitDev, key, to) && to in a && RefOf(env, project, a, to) == r;
        SameEdges(a, b, omitDev, key, to);
        assert RefOf(env, project, b, to) == r;
      }
      if r in y.dependsOn {
        var to :| Edge(b, omitDev, key, to) && to in b && RefOf(env, project, b, to) == r;
        SameEdges(a, b, omitDev, key, to);
        assert RefOf(env, project, a, to) == r;
      }
    }
    AscendingIsUnique(x.dependsOn, y.dependsOn);
  }

  lemma UuidOfSerial(prefix: string, u: string, v: string)
    ensures prefix + u == prefix + v <==> u == v
  {
    assert (prefix + u)[|prefix|..] == u && (prefix + v)[|prefix|..] == v;
  }

  /**
    * Reproducible: the same content prints the same bill but for the
    * serial number, which is that of the lockfile's text.
    */
  lemma SameContentSameBom(env: Env, project: Project, lockText: string, lockText': string, a: Lock, b: Lock,
                           omitDev: bool, keys: seq<string>, keys': seq<string>, x: Bom, y: Bom)
    requires SameContent(a, b)
    requires Describes(env, project, lockText, a, omitDev, keys, x)
      && Describes(env, project, lockText', b, omitDev, keys', y)
    ensures x.(serial := y.serial) == y
    ensures x == y <==> Uuid(env.sha(lockText)) == Uuid(env.sha(lockText'))
  {
    UuidOfSerial("urn:uuid:", Uuid(env.sha(lockText)), Uuid(env.sha(lockText')));
    SymmetricContent(a, b);
    forall k ensures k in keys <==> k in keys' {
      if k in keys { SameReachable(a, b, omitDev, k); }
      if k in keys' { SameReachable(b, a, omitDev, k); }
    }
    AscendingIsUnique(keys, keys');
    forall i | 0 <= i < |keys| ensures x.components[i] == y.components[i] {
      assert keys[i] in keys;
    }
    var all := [""] + keys;
    forall i | 0 <= i < |all| ensures x.dependencies[i] == y.dependencies[i] {
      assert Entry(env, project, a, omitDev, all[i], x.dependencies[i]);
      assert Entry(env, project, b, omitDev, all[i], y.dependencies[i]);
      SameEntry(env, project, a, b, omitDev, all[i], x.dependencies[i], y.dependencies[i]);
    }
  }

  // ---------------------------------------------------------------- what components are called

  /** No further "node_modules/" in it, as in every package name. */
  ghost predicate PlainName(name: string) {
    forall i :: !DirectoryAt(name, i)
  }

  lemma DirectoryHasOneSlash(i: nat)
    ensures i < 13 ==> (DIRECTORY[i] == '/' <==> i == 12)
  {
  }

  lemma DirectoryInName(prefix: string, name: string, i: nat)
    ensures DirectoryAt(prefix + "node_modules/" + name, |prefix| + 13 + i) <==> DirectoryAt(name, i)
  {
    var key := prefix + "node_modules/" + name;
    if i + 13 <= |name| {
      assert key[|prefix| + 13 + i..|prefix| + 26 + i] == name[i..i + 13];
    }
  }

  lemma DirectoriesDoNotOverlap(s: string, i: nat, j: nat)
    requires DirectoryAt(s, i) && i < j < i + 13
    ensures !DirectoryAt(s, j)
  {
    assert s[i..i + 13][12] == s[i + 12];
    DirectoryHasOneSlash(i + 12 - j);
    assert j + 13 <= |s| ==> s[j..j + 13][i + 12 - j] == s[i + 12];
  }

  /** Behind a directory, the next one can only stand in what follows it. */
  lemma NoDirectoryInside(prefix: string, name: string, j: nat)
    requires PlainName(name) && |prefix| < j
    ensures !DirectoryAt(prefix + "node_modules/" + name, j)
  {
    var key := prefix + "node_modules/" + name;
    if j < |prefix| + 13 {
      assert key[|prefix|..|prefix| + 13] == "node_modules/";
      DirectoriesDoNotOverlap(key, |prefix|, j);
    } else {
      DirectoryInName(prefix, name, j - |prefix| - 13);
    }
  }

  lemma {:induction false} NameAfterLastDirectory(prefix: string, name: string, n: nat)
    requires PlainName(name) && |prefix| < n <= |prefix + "node_modules/" + name|
    ensures NameAfter(prefix + "node_modules/" + name, n) == name
    decreases n
  {
    var key := prefix + "node_modules/" + name;
    if n == |prefix| + 1 {
      assert key[n - 1..n + 12] == "node_modules/";
      assert key[n + 12..] == name;
    } else {
      NoDirectoryInside(prefix, name, n - 1);
      NameAfterLastDirectory(prefix, name, n - 1);
    }
  }

  /** A package is called what follows the last "node_modules/" of its path. */
  lemma NamedAfterLastDirectory(prefix: string, name: string)
    requires PlainName(name)
    ensures PackageName(prefix + "node_modules/" + name) == name
  {
    NameAfterLastDirectory(prefix, name, |prefix + "node_modules/" + name|);
  }

  /** A path without such a directory loses its first twelve characters: lastIndexOf is then -1. */
  lemma {:induction false} NameWithoutDirectory(key: string, n: nat)
    requires PlainName(key) && n <= |key|
    ensures NameAfter(key, n) == key[if |key| < 12 then |key| else 12..]
  {
    if n > 0 {
      NameWithoutDirectory(key, n - 1);
    }
  }

  lemma {:induction false} ResolvedPath(lock: Lock, bases: seq<string>, name: string)
    requires FirstPresent(lock, Paths(bases, name)).Some?
    ensures exists base :: FirstPresent(lock, Paths(bases, name)).value == PathIn(base, name)
  {
    var paths := Paths(bases, name);
    FirstPresentIsFirst(lock, paths);
    var i :| 0 <= i < |paths| && paths[i] == FirstPresent(lock, paths).value;
    assert paths[i] == PathIn(bases[i], name);
  }

  lemma PathIsNamed(base: string, name: string)
    requires PlainName(name)
    ensures PathIn(base, name) != "" && PackageName(PathIn(base, name)) == name
  {
    if base == "" {
      assert PathIn(base, name) == "" + "node_modules/" + name;
      NamedAfterLastDirectory("", name);
    } else {
      assert PathIn(base, name) == (base + "/") + "node_modules/" + name;
      NamedAfterLastDirectory(base + "/", name);
    }
  }

  /** Whatever a requirement resolves to is called as it was required. */
  lemma ResolvedIsNamed(lock: Lock, key: string, name: string)
    requires PlainName(name) && Resolve(lock, key, name).Some?
    ensures Resolve(lock, key, name).value != "" && PackageName(Resolve(lock, key, name).value) == name
  {
    ResolvedPath(lock, Bases(key), name);
    var base :| Resolve(lock, key, name).value == PathIn(base, name);
    PathIsNamed(base, name);
  }

  lemma FirstSlashOf(scope: string, local: string)
    requires '/' !in scope
    ensures FirstSlash(scope + "/" + local) == |scope|
  {
    var s := scope + "/" + local;
    assert s[|scope|] == '/';
    assert forall i :: 0 <= i < |scope| ==> s[i] == scope[i] && scope[i] in scope;
  }

  /** A scoped name is encoded in its two parts, any other one as a whole. */
  lemma PurlOf(env: Env, scope: string, local: string, version: string)
    requires scope != "" && scope[0] == '@' && '/' !in scope
    ensures Purl(env, scope + "/" + local, version)
      == "pkg:npm/" + env.encode(scope) + "/" + env.encode(local) + "@" + env.encode(version)
    ensures local != "" && local[0] != '@' ==>
      Purl(env, local, version) == "pkg:npm/" + env.encode(local) + "@" + env.encode(version)
    ensures Purl(env, scope, version)
      == "pkg:npm/" + env.encode(scope[..|scope| - 1]) + "/" + env.encode(scope) + "@" + env.encode(version)
  {
    FirstSlashOf(scope, local);
    var name := scope + "/" + local;
    assert name[0] == '@' && name[..|scope|] == scope && name[|scope| + 1..] == local;
  }

  /** Every requirement that is met shows up as a component with its name, version, package URL and flags. */
  lemma RequirementIsPrinted(env: Env, project: Project, lockText: string, lock: Lock, omitDev: bool,
                             keys: seq<string>, bom: Bom, key: string, name: string)
    requires Describes(env, project, lockText, lock, omitDev, keys, bom) && PlainName(name)
    requires Reachable(lock, omitDev, key) && Wants(lock, omitDev, key, name) && Resolve(lock, key, name).Some?
    ensures var to := Resolve(lock, key, name).value;
      && to in lock
      && exists c :: c in bom.components && c.lockPath == to && c.name == name
                     && c.version == (if lock[to].version.Some? then lock[to].version.value else "undefined")
                     && c.purl == Purl(env, name, Shown(lock[to].version)) && c.ref == BomRef(env, to, lock[to])
                     && c.isDev == lock[to].isDev && c.isOptional == lock[to].isOptional
  {
    var to := Resolve(lock, key, name).value;
    ResolvedIsPresent(lock, key, name);
    ResolvedIsNamed(lock, key, name);
    assert Edge(lock, omitDev, key, to);
    EdgeReaches(lock, omitDev, key, to);
    assert to in keys;
    var i :| 0 <= i < |keys| && keys[i] == to;
    assert bom.components[i] == ComponentFor(env, to, lock[to]);
    assert bom.components[i] in bom.components;
  }
}
