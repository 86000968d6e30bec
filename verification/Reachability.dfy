// reachablePackages: a worklist over the resolved dependency graph of a lockfile.
module Reachability {
  import opened Wrappers
  import opened Lockfile

  datatype LockError = NoRoot | Unresolved(name: string, key: string)

  /** dependencyGroups */
  function Groups(rec: Record, root: bool, omitDev: bool): seq<seq<string>> {
    [rec.dependencies, rec.optional] + if root && !omitDev then [rec.dev] else []
  }

  predicate Requires(lock: Lock, omitDev: bool, key: string, name: string) {
    key in lock && (name in lock[key].dependencies || name in lock[key].optional
                    || (key == "" && !omitDev && name in lock[key].dev))
  }

  predicate Wants(lock: Lock, omitDev: bool, key: string, name: string) {
    Requires(lock, omitDev, key, name) || (key in lock && name in lock[key].peer)
  }

  /** to is what key gets for one of the names it requires or would like. */
  ghost predicate Edge(lock: Lock, omitDev: bool, key: string, to: string) {
    exists name :: Wants(lock, omitDev, key, name) && Resolve(lock, key, name) == Some(to)
  }

  ghost predicate Closed(lock: Lock, omitDev: bool, s: set<string>) {
    "" in s && forall key, to :: key in s && Edge(lock, omitDev, key, to) ==> to in s
  }

  /** In every closed set, hence on a path from the root. */
  ghost predicate Reachable(lock: Lock, omitDev: bool, key: string) {
    forall s: set<string> :: Closed(lock, omitDev, s) ==> key in s
  }

  ghost predicate Stuck(lock: Lock, omitDev: bool, key: string, name: string) {
    Requires(lock, omitDev, key, name) && Resolve(lock, key, name) == None
  }

  lemma ResolvedIsPresent(lock: Lock, key: string, name: string)
    ensures Resolve(lock, key, name).Some? ==> Resolve(lock, key, name).value in lock
  {
    FirstPresentIsFirst(lock, Paths(Bases(key), name));
  }

  lemma EdgeReaches(lock: Lock, omitDev: bool, key: string, to: string)
    requires Reachable(lock, omitDev, key) && Edge(lock, omitDev, key, to)
    ensures Reachable(lock, omitDev, to)
  {
  }

  // ---------------------------------------------------------------- the worklist

  /** Reached so far: found is reachable and present, and the queue is part of it. */
  ghost predicate Found(lock: Lock, omitDev: bool, found: set<string>, queue: seq<string>) {
    && "" in found && found <= lock.Keys
    && (forall k :: k in found ==> Reachable(lock, omitDev, k))
    && (forall k :: k in queue ==> k in found)
  }

  /** The names of one package that have been handled: resolved into found. */
  ghost predicate Handled(lock: Lock, key: string, names: seq<string>, found: set<string>, strict: bool) {
    forall name :: name in names ==>
      (Resolve(lock, key, name).Some? ==> Resolve(lock, key, name).value in found)
      && (strict ==> Resolve(lock, key, name).Some?)
  }

  ghost predicate Done(lock: Lock, omitDev: bool, key: string, found: set<string>) {
    forall name :: Wants(lock, omitDev, key, name) ==>
      (Resolve(lock, key, name).Some? ==> Resolve(lock, key, name).value in found)
      && (Requires(lock, omitDev, key, name) ==> Resolve(lock, key, name).Some?)
  }

  /** What a loop over names may add: new members, all of them queued. */
  ghost predicate Grown(found: set<string>, queue: seq<string>, found': set<string>, queue': seq<string>) {
    && found <= found'
    && (forall k :: k in queue ==> k in queue')
    && (forall k :: k in found' && k !in found ==> k in queue')
    && (found' == found ==> queue' == queue)
  }

  lemma GrowOne(lock: Lock, omitDev: bool, found: set<string>, queue: seq<string>, mid: set<string>,
                midQueue: seq<string>, k: string)
    requires Found(lock, omitDev, mid, midQueue) && Grown(found, queue, mid, midQueue)
    requires Reachable(lock, omitDev, k) && k in lock && k !in mid
    ensures Found(lock, omitDev, mid + {k}, midQueue + [k]) && Grown(found, queue, mid + {k}, midQueue + [k])
  {
    assert k in mid + {k} && k !in found;
  }

  /** One name: a resolved package not met before is added to the set and to the queue. */
  method FollowOne(lock: Lock, omitDev: bool, key: string, name: string, found: set<string>, queue: seq<string>,
                   ghost f0: set<string>, ghost q0: seq<string>)
    returns (resolved: Option<string>, found': set<string>, queue': seq<string>)
    requires Found(lock, omitDev, found, queue) && Grown(f0, q0, found, queue) && Reachable(lock, omitDev, key)
    requires Wants(lock, omitDev, key, name)
    ensures Found(lock, omitDev, found', queue') && Grown(f0, q0, found', queue') && found <= found'
    ensures resolved == Resolve(lock, key, name) && (resolved.Some? ==> resolved.value in found')
  {
    found', queue' := found, queue;
    resolved := Resolve(lock, key, name);
    ResolvedIsPresent(lock, key, name);
    if resolved.Some? {
      EdgeReaches(lock, omitDev, key, resolved.value);
      if resolved.value !in found {
        GrowOne(lock, omitDev, f0, q0, found, queue, resolved.value);
        found', queue' := found + {resolved.value}, queue + [resolved.value];
      }
    }
  }

  lemma OneMoreHandled(lock: Lock, key: string, names: seq<string>, i: nat, found: set<string>, more: set<string>,
                       strict: bool)
    requires i < |names| && Handled(lock, key, names[..i], found, strict) && found <= more
    requires Resolve(lock, key, names[i]).Some? ==> Resolve(lock, key, names[i]).value in more
    requires strict ==> Resolve(lock, key, names[i]).Some?
    ensures Handled(lock, key, names[..i + 1], more, strict)
  {
    assert names[..i + 1] == names[..i] + [names[i]];
  }

  /** The loops over a dependency group (strict) and over peers. */
  method Follow(lock: Lock, omitDev: bool, key: string, names: seq<string>, strict: bool, found: set<string>,
                queue: seq<string>, ghost f0: set<string>, ghost q0: seq<string>)
    returns (missing: Option<string>, found': set<string>, queue': seq<string>)
    requires Found(lock, omitDev, found, queue) && Grown(f0, q0, found, queue) && Reachable(lock, omitDev, key)
    requires forall name :: name in names ==> Wants(lock, omitDev, key, name)
    ensures Found(lock, omitDev, found', queue') && Grown(f0, q0, found', queue') && found <= found'
    ensures missing.None? ==> Handled(lock, key, names, found', strict)
    ensures missing.Some? ==> strict && missing.value in names && Resolve(lock, key, missing.value).None?
  {
    missing, found', queue' := None, found, queue;
    for i := 0 to |names|
      invariant Found(lock, omitDev, found', queue') && Grown(f0, q0, found', queue') && found <= found'
      invariant missing.None? && Handled(lock, key, names[..i], found', strict)
    {
      ghost var mid := found';
      var resolved;
      resolved, found', queue' := FollowOne(lock, omitDev, key, names[i], found', queue', f0, q0);
      if resolved.None? && strict {
        return Some(names[i]), found', queue';
      }
      OneMoreHandled(lock, key, names, i, mid, found', strict);
    }
    assert names[..|names|] == names;
  }

  lemma HandledStaysHandled(lock: Lock, key: string, names: seq<string>, found: set<string>, more: set<string>,
                            strict: bool)
    requires Handled(lock, key, names, found, strict) && found <= more
    ensures Handled(lock, key, names, more, strict)
  {
  }

  lemma GroupsAreWanted(lock: Lock, omitDev: bool, key: string)
    requires key in lock
    ensures var groups := Groups(lock[key], key == "", omitDev);
      forall g :: 0 <= g < |groups| ==> AllRequired(lock, omitDev, key, groups[g])
  {
  }

  ghost predicate GroupsHandled(lock: Lock, key: string, groups: seq<seq<string>>, n: nat, found: set<string>)
    requires n <= |groups|
  {
    forall g :: 0 <= g < n ==> Handled(lock, key, groups[g], found, true)
  }

  lemma OneMoreGroup(lock: Lock, key: string, groups: seq<seq<string>>, n: nat, found: set<string>, more: set<string>)
    requires n < |groups| && GroupsHandled(lock, key, groups, n, found) && found <= more
    requires Handled(lock, key, groups[n], more, true)
    ensures GroupsHandled(lock, key, groups, n + 1, more)
  {
    forall g | 0 <= g < n ensures Handled(lock, key, groups[g], more, true) {
      HandledStaysHandled(lock, key, groups[g], found, more, true);
    }
  }

  ghost predicate AllRequired(lock: Lock, omitDev: bool, key: string, names: seq<string>) {
    forall name :: name in names ==> Requires(lock, omitDev, key, name)
  }

  method FollowGroups(lock: Lock, omitDev: bool, key: string, groups: seq<seq<string>>, found: set<string>,
                      queue: seq<string>)
    returns (missing: Option<string>, found': set<string>, queue': seq<string>)
    requires Found(lock, omitDev, found, queue) && Reachable(lock, omitDev, key)
    requires forall g :: 0 <= g < |groups| ==> AllRequired(lock, omitDev, key, groups[g])
    ensures Found(lock, omitDev, found', queue') && Grown(found, queue, found', queue')
    ensures missing.None? ==> GroupsHandled(lock, key, groups, |groups|, found')
    ensures missing.Some? ==> Stuck(lock, omitDev, key, missing.value)
  {
    missing, found', queue' := None, found, queue;
    for g := 0 to |groups|
      invariant Found(lock, omitDev, found', queue') && Grown(found, queue, found', queue')
      invariant missing.None? && GroupsHandled(lock, key, groups, g, found')
    {
      ghost var mid := found';
      assert AllRequired(lock, omitDev, key, groups[g]);
      missing, found', queue' := Follow(lock, omitDev, key, groups[g], true, found', queue', found, queue);
      if missing.Some? {
        return;
      }
      OneMoreGroup(lock, key, groups, g, mid, found');
    }
  }

  /** One package: its dependency groups, then its peers. */
  method Expand(lock: Lock, omitDev: bool, key: string, found: set<string>, queue: seq<string>)
    returns (missing: Option<string>, found': set<string>, queue': seq<string>)
    requires key in lock && Found(lock, omitDev, found, queue) && Reachable(lock, omitDev, key)
    ensures Found(lock, omitDev, found', queue') && Grown(found, queue, found', queue')
    ensures missing.None? ==> Done(lock, omitDev, key, found')
    ensures missing.Some? ==> Stuck(lock, omitDev, key, missing.value)
  {
    var groups := Groups(lock[key], key == "", omitDev);
    GroupsAreWanted(lock, omitDev, key);
    missing, found', queue' := FollowGroups(lock, omitDev, key, groups, found, queue);
    if missing.None? {
      ghost var mid := found';
      missing, found', queue' := Follow(lock, omitDev, key, lock[key].peer, false, found', queue', found, queue);
      AllGroupsHandled(lock, omitDev, key, groups, mid, found');
    }
  }

  lemma AllGroupsHandled(lock: Lock, omitDev: bool, key: string, groups: seq<seq<string>>, found: set<string>,
                         more: set<string>)
    requires key in lock && groups == Groups(lock[key], key == "", omitDev) && found <= more
    requires GroupsHandled(lock, key, groups, |groups|, found)
    requires Handled(lock, key, lock[key].peer, more, false)
    ensures Done(lock, omitDev, key, more)
  {
    assert groups[0] == lock[key].dependencies && groups[1] == lock[key].optional;
    assert key == "" && !omitDev ==> groups[2] == lock[key].dev;
    assert Handled(lock, key, groups[0], found, true) && Handled(lock, key, groups[1], found, true);
  }

  lemma DoneStaysDone(lock: Lock, omitDev: bool, key: string, found: set<string>, more: set<string>)
    requires Done(lock, omitDev, key, found) && found <= more
    ensures Done(lock, omitDev, key, more)
  {
  }

  /** reachablePackages: the least closed set, or an unresolvable requirement of a reachable package. */
  method ReachablePackages(lock: Lock, omitDev: bool) returns (r: Result<set<string>, LockError>)
    ensures r == Err(NoRoot) <==> "" !in lock
    ensures r.Ok? ==> Closed(lock, omitDev, r.value) && r.value <= lock.Keys
    ensures r.Ok? ==> forall k :: k in r.value <==> Reachable(lock, omitDev, k)
    ensures r.Ok? ==> forall k, name :: Reachable(lock, omitDev, k) ==> !Stuck(lock, omitDev, k, name)
    ensures r.Err? && r.error.Unresolved? ==>
      Reachable(lock, omitDev, r.error.key) && Stuck(lock, omitDev, r.error.key, r.error.name)
  {
    if "" !in lock {
      return Err(NoRoot);
    }
    var found, queue := {""}, [""];
    while queue != []
      invariant Found(lock, omitDev, found, queue)
      invariant forall k :: k in found && k !in queue ==> Done(lock, omitDev, k, found)
      decreases |lock.Keys - found|, |queue|
    {
      var key := queue[0];
      ghost var before, waiting := found, queue;
      assert forall k :: k in queue ==> k == key || k in queue[1..];
      var missing;
      missing, found, queue := Expand(lock, omitDev, key, found, queue[1..]);
      if missing.Some? {
        return Err(Unresolved(missing.value, key));
      }
      forall k | k in found && k !in queue
        ensures Done(lock, omitDev, k, found)
      {
        if k != key {
          assert k in before && k !in waiting;
          DoneStaysDone(lock, omitDev, k, before, found);
        }
      }
      if found != before {
        FewerLeft(lock.Keys, before, found);
      }
    }
    AllDoneIsClosed(lock, omitDev, found);
    r := Ok(found);
  }

  lemma FewerLeft(all: set<string>, before: set<string>, after: set<string>)
    requires before < after <= all
    ensures |all - after| < |all - before|
  {
    var k :| k in after && k !in before;
    assert all - after < all - before;
    ProperSubsetIsSmaller(all - after, all - before);
  }

  lemma {:induction false} ProperSubsetIsSmaller(a: set<string>, b: set<string>)
    requires a < b
    ensures |a| < |b|
  {
    var k :| k in b && k !in a;
    if a == {} {
    } else {
      var x :| x in a;
      ProperSubsetIsSmaller(a - {x}, b - {x});
    }
  }

  lemma AllDoneIsClosed(lock: Lock, omitDev: bool, found: set<string>)
    requires Found(lock, omitDev, found, []) && forall k :: k in found ==> Done(lock, omitDev, k, found)
    ensures Closed(lock, omitDev, found)
    ensures forall k :: k in found <==> Reachable(lock, omitDev, k)
    ensures forall k, name :: Reachable(lock, omitDev, k) ==> !Stuck(lock, omitDev, k, name)
  {
    assert Closed(lock, omitDev, found);
    forall k, name | Reachable(lock, omitDev, k)
      ensures !Stuck(lock, omitDev, k, name)
    {
      assert k in found && Done(lock, omitDev, k, found);
    }
  }

  /** Leaving out the root's dev dependencies can only shrink the result, and never makes it fail. */
  lemma OmittingDev(lock: Lock, key: string)
    requires Reachable(lock, true, key)
    ensures Reachable(lock, false, key)
    ensures forall name :: Stuck(lock, true, key, name) ==> Stuck(lock, false, key, name)
  {
    forall s: set<string> | Closed(lock, false, s)
      ensures key in s
    {
      forall k, to | k in s && Edge(lock, true, k, to)
        ensures to in s
      {
        var name :| Wants(lock, true, k, name) && Resolve(lock, k, name) == Some(to);
        assert Wants(lock, false, k, name);
        assert Edge(lock, false, k, to);
      }
      assert Closed(lock, true, s);
    }
  }
}
