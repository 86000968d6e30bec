// Dependency resolution in package-lock.json: candidatePaths and resolveDependency.
module Lockfile {
  import opened Wrappers

  const MARK := "/node_modules/"

  // dependency names are the keys of the record's dependency objects
  datatype Record = Record(version: Option<string>, dependencies: seq<string>, optional: seq<string>,
                           dev: seq<string>, peer: seq<string>, isDev: bool, isOptional: bool)

  type Lock = map<string, Record>

  predicate MarkAt(s: string, i: nat) {
    i + |MARK| <= |s| && s[i..i + |MARK|] == MARK
  }

  /** lastIndexOf('/node_modules/') below position n. */
  function LastMarkBelow(s: string, n: nat): (r: Option<nat>)
    ensures r.Some? ==> r.value < n && MarkAt(s, r.value) && forall j :: r.value < j < n ==> !MarkAt(s, j)
    ensures r.None? ==> forall j :: 0 <= j < n ==> !MarkAt(s, j)
  {
    if n == 0 then None
    else if MarkAt(s, n - 1) then Some(n - 1)
    else LastMarkBelow(s, n - 1)
  }

  function LastMark(s: string): Option<nat> { LastMarkBelow(s, |s|) }

  /** The directories reached by cutting at the last mark, again and again. */
  function Chain(current: string): seq<string>
    decreases |current|
  {
    var cut := LastMark(current);
    if cut.None? then [] else [current[..cut.value]] + Chain(current[..cut.value])
  }

  function Bases(key: string): seq<string> {
    var chain := [key] + Chain(key);
    if "" in chain then chain else chain + [""]
  }

  function PathIn(base: string, name: string): string {
    if base == "" then MARK[1..] + name else base + MARK + name
  }

  function Paths(bases: seq<string>, name: string): (r: seq<string>)
    ensures |r| == |bases| && forall i :: 0 <= i < |r| ==> r[i] == PathIn(bases[i], name)
  {
    seq(|bases|, i requires 0 <= i < |bases| => PathIn(bases[i], name))
  }

  /** candidatePaths; spreading through a Set drops nothing, since no candidate repeats. */
  method CandidatePaths(key: string, name: string) returns (paths: seq<string>)
    ensures paths == Paths(Bases(key), name)
    ensures forall i, j :: 0 <= i < j < |paths| ==> |paths[i]| > |paths[j]|
  {
    var bases := [key];
    var current := key;
    while current != "" && LastMark(current).Some?
      invariant bases + Chain(current) == [key] + Chain(key)
      decreases |current|
    {
      var cut := LastMark(current).value;
      ghost var before, was := bases, current;
      current := current[..cut];
      bases := bases + [current];
      assert Chain(was) == [current] + Chain(current);
      assert before + Chain(was) == bases + Chain(current);
    }
    assert Chain(current) == [];
    if "" !in bases {
      bases := bases + [""];
    }
    paths := Paths(bases, name);
    BasesShrink(key);
  }

  // ---------------------------------------------------------------- which directories are tried

  /** base is key itself, the root, or a directory whose node_modules contains key. */
  predicate Encloses(base: string, key: string) {
    base == key || base == "" || (|base| <= |key| && key[..|base|] == base && MarkAt(key, |base|))
  }

  /** No package directory is itself called node_modules. */
  ghost predicate NoNestedMarks(key: string) {
    forall i :: 1 <= i ==> !(MarkAt(key, i) && MarkAt(key, i + |MARK| - 1))
  }

  lemma {:induction false} ChainEncloses(key: string, i: nat)
    requires i < |Chain(key)|
    ensures var b := Chain(key)[i]; |b| + |MARK| <= |key| && key[..|b|] == b && MarkAt(key, |b|)
    decreases |key|
  {
    var cut := LastMark(key).value;
    if i > 0 {
      ChainEncloses(key[..cut], i - 1);
      var b := Chain(key)[i];
      assert b == Chain(key[..cut])[i - 1];
      assert key[|b|..|b| + |MARK|] == key[..cut][|b|..|b| + |MARK|];
    }
  }

  /** Each directory of the chain is shorter than the one before by at least a mark. */
  lemma {:induction false} ChainShrinks(key: string, i: nat, j: nat)
    requires i < j < |Chain(key)|
    ensures |Chain(key)[j]| + |MARK| <= |Chain(key)[i]|
    decreases |key|
  {
    var cut := LastMark(key).value;
    if i > 0 {
      ChainShrinks(key[..cut], i - 1, j - 1);
    } else {
      ChainEncloses(key[..cut], j - 1);
    }
  }

  lemma BasesShrink(key: string)
    ensures var b := Bases(key); forall i, j :: 0 <= i < j < |b| ==>
      |b[j]| + |MARK| <= |b[i]| || (b[j] == "" && b[i] != "")
  {
    var b := Bases(key);
    forall i, j | 0 <= i < j < |b|
      ensures |b[j]| + |MARK| <= |b[i]| || (b[j] == "" && b[i] != "")
    {
      if j <= |Chain(key)| {
        if i > 0 { ChainShrinks(key, i - 1, j - 1); } else { ChainEncloses(key, j - 1); }
      }
    }
  }

  /** Everything tried encloses the package. */
  lemma OnlyEnclosingTried(key: string, base: string)
    requires base in Bases(key)
    ensures Encloses(base, key)
  {
    var b := Bases(key);
    var i :| 0 <= i < |b| && b[i] == base;
    if 0 < i <= |Chain(key)| {
      ChainEncloses(key, i - 1);
    }
  }

  lemma MarksOverlapByOne(s: string, i: nat, j: nat)
    requires MarkAt(s, i) && MarkAt(s, j) && i < j < i + |MARK|
    ensures j == i + |MARK| - 1
  {
    assert s[i..i + |MARK|][j - i] == s[j] == s[j..j + |MARK|][0];
    assert MARK[j - i] == '/';
  }

  lemma MarkInPrefix(s: string, cut: nat, i: nat)
    requires cut <= |s|
    ensures MarkAt(s[..cut], i) <==> MarkAt(s, i) && i + |MARK| <= cut
  {
    if i + |MARK| <= cut {
      assert s[..cut][i..i + |MARK|] == s[i..i + |MARK|];
    }
  }

  lemma {:induction false} ChainFindsAll(key: string, i: nat)
    requires 1 <= i && MarkAt(key, i) && NoNestedMarks(key)
    ensures key[..i] in Chain(key)
    decreases |key|
  {
    var cut := LastMark(key).value;
    if i < cut {
      if cut < i + |MARK| {
        MarksOverlapByOne(key, i, cut);
      }
      var shorter := key[..cut];
      MarkInPrefix(key, cut, i);
      forall k | 1 <= k
        ensures !(MarkAt(shorter, k) && MarkAt(shorter, k + |MARK| - 1))
      {
        MarkInPrefix(key, cut, k);
        MarkInPrefix(key, cut, k + |MARK| - 1);
      }
      ChainFindsAll(shorter, i);
      assert shorter[..i] == key[..i];
    }
  }

  lemma NestedMarkIsSkipped(key: string, i: nat)
    requires 1 <= i && MarkAt(key, i) && MarkAt(key, i + |MARK| - 1)
    ensures key[..i] !in Bases(key) || key[..i + |MARK| - 1] !in Bases(key)
  {
    var outer, inner := key[..i], key[..i + |MARK| - 1];
    var b := Bases(key);
    BasesShrink(key);
    forall x, y | 0 <= x < |b| && 0 <= y < |b|
      ensures !(b[x] == outer && b[y] == inner)
    {
      assert x == y ==> b[x] == b[y];
    }
  }

  /** Every enclosing directory is tried, exactly if no directory on the way is called node_modules. */
  lemma AllEnclosingTried(key: string)
    ensures (forall base :: Encloses(base, key) ==> base in Bases(key)) <==> NoNestedMarks(key)
  {
    if NoNestedMarks(key) {
      forall base | Encloses(base, key) ensures base in Bases(key) {
        if base != key && base != "" {
          ChainFindsAll(key, |base|);
        }
      }
    } else {
      var i :| 1 <= i && MarkAt(key, i) && MarkAt(key, i + |MARK| - 1);
      NestedMarkIsSkipped(key, i);
      assert Encloses(key[..i], key) && Encloses(key[..i + |MARK| - 1], key);
    }
  }

  // ---------------------------------------------------------------- resolveDependency

  function FirstPresent(lock: Lock, paths: seq<string>): Option<string> {
    if paths == [] then None
    else if paths[0] in lock then Some(paths[0])
    else FirstPresent(lock, paths[1..])
  }

  function Resolve(lock: Lock, key: string, name: string): Option<string> {
    FirstPresent(lock, Paths(Bases(key), name))
  }

  lemma {:induction false} FirstPresentIsFirst(lock: Lock, paths: seq<string>)
    ensures var r := FirstPresent(lock, paths);
      (r.None? ==> forall i :: 0 <= i < |paths| ==> paths[i] !in lock)
      && (r.Some? ==>
            r.value in lock
            && exists i :: 0 <= i < |paths| && paths[i] == r.value && forall j :: 0 <= j < i ==> paths[j] !in lock)
  {
    if paths != [] && paths[0] !in lock {
      FirstPresentIsFirst(lock, paths[1..]);
      var r := FirstPresent(lock, paths);
      if r.Some? {
        var i :| 0 <= i < |paths| - 1 && paths[1..][i] == r.value && forall j :: 0 <= j < i ==> paths[1..][j] !in lock;
        assert paths[i + 1] == r.value;
        assert forall j :: 0 <= j < i + 1 ==> paths[j] !in lock by {
          forall j | 0 <= j < i + 1 ensures paths[j] !in lock {
            if j > 0 { assert paths[j] == paths[1..][j - 1]; }
          }
        }
      }
    }
  }

  /** base/node_modules/name is the copy that the package at key sees. */
  ghost predicate DeepestCopy(lock: Lock, key: string, name: string, base: string) {
    && Encloses(base, key) && PathIn(base, name) in lock
    && forall deeper :: Encloses(deeper, key) && |deeper| > |base| ==> PathIn(deeper, name) !in lock
  }

  lemma BothEnclose(key: string, a: string, b: string)
    requires Encloses(a, key) && Encloses(b, key) && |a| == |b|
    ensures a == b
  {
  }

  /** Resolution picks the deepest enclosing node_modules that has the package, and fails only if none has it. */
  lemma ResolvesDeepest(lock: Lock, key: string, name: string)
    requires NoNestedMarks(key)
    ensures forall base :: DeepestCopy(lock, key, name, base) <==>
      Encloses(base, key) && Resolve(lock, key, name) == Some(PathIn(base, name))
    ensures Resolve(lock, key, name).None? <==> forall base :: Encloses(base, key) ==> PathIn(base, name) !in lock
  {
    AllEnclosingTried(key);
    var b := Bases(key);
    var paths := Paths(b, name);
    FirstPresentIsFirst(lock, paths);
    BasesShrink(key);
    forall base | Encloses(base, key)
      ensures base in b && PathIn(base, name) in paths
    {
      var i :| 0 <= i < |b| && b[i] == base;
      assert paths[i] == PathIn(base, name);
    }
    if Resolve(lock, key, name).Some? {
      var p := Resolve(lock, key, name).value;
      var i :| 0 <= i < |paths| && paths[i] == p && forall j :: 0 <= j < i ==> paths[j] !in lock;
      OnlyEnclosingTried(key, b[i]);
      FirstIsDeepest(lock, key, name, i);
      forall base
        ensures DeepestCopy(lock, key, name, base) <==> Encloses(base, key) && Some(p) == Some(PathIn(base, name))
      {
        if DeepestCopy(lock, key, name, base) || (Encloses(base, key) && p == PathIn(base, name)) {
          assert |base| == |b[i]|;
          BothEnclose(key, base, b[i]);
        }
      }
    } else {
      forall base | Encloses(base, key) ensures PathIn(base, name) !in lock {
        assert PathIn(base, name) in paths;
      }
    }
    if forall base :: Encloses(base, key) ==> PathIn(base, name) !in lock {
      assert Resolve(lock, key, name).None?;
    }
  }

  lemma FirstIsDeepest(lock: Lock, key: string, name: string, i: nat)
    requires NoNestedMarks(key) && i < |Bases(key)|
    requires var paths := Paths(Bases(key), name); paths[i] in lock && forall j :: 0 <= j < i ==> paths[j] !in lock
    ensures DeepestCopy(lock, key, name, Bases(key)[i])
  {
    AllEnclosingTried(key);
    BasesShrink(key);
    var b := Bases(key);
    OnlyEnclosingTried(key, b[i]);
    forall deeper | Encloses(deeper, key) && |deeper| > |b[i]|
      ensures PathIn(deeper, name) !in lock
    {
      var j :| 0 <= j < |b| && b[j] == deeper;
      assert j < i;
      assert Paths(b, name)[j] == PathIn(deeper, name);
    }
  }
}
