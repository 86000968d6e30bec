// What the capped traversal returns, on trees and on arbitrary graphs; and what the summary counts.
module FindingsLaws {
  import opened Wrappers
  import opened Tables
  import opened Findings

  // ---------------------------------------------------------------- the cap only cuts the list

  function Uncapped(l: Limits): Limits { l.(maxFindings := None) }

  predicate Extends(a: State, b: State) {
    a.findings <= b.findings && a.visited <= b.visited
  }

  lemma {:induction false} VisitExtends(h: Heap, l: Limits, v: Value, path: string, depth: nat, st: State)
    ensures Extends(st, Visit(h, l, v, path, depth, st))
    decreases Room(l, depth), 0
  {
    if !Full(l, st) && depth <= l.maxDepth && v.Ref? {
      VisitAllExtends(h, l, Children(h, v.id, path), depth + 1, st);
      VisitAllExtends(h, l, Children(h, v.id, path), depth + 1, st.(visited := st.visited + {v.id}));
    }
  }

  lemma {:induction false} VisitAllExtends(h: Heap, l: Limits, children: seq<(string, Value)>, depth: nat, st: State)
    ensures Extends(st, VisitAll(h, l, children, depth, st))
    decreases Room(l, depth), |children|
  {
    if children != [] {
      var mid := Visit(h, l, children[0].1, children[0].0, depth, st);
      VisitExtends(h, l, children[0].1, children[0].0, depth, st);
      VisitAllExtends(h, l, children[1..], depth, mid);
    }
  }

  /** As long as the cap is not reached both traversals are in the same state; then one stands still. */
  predicate Capped(max: nat, capped: State, free: State) {
    if |free.findings| < max then capped == free
    else max <= |free.findings| && capped.findings == free.findings[..max]
  }

  lemma OnceFullStaysCut(max: nat, capped: State, free: State, more: State)
    requires Capped(max, capped, free) && max <= |free.findings| && Extends(free, more)
    ensures Capped(max, capped, more)
  {
    assert more.findings[..max] == free.findings[..max];
  }

  lemma {:induction false} VisitStaysCapped(h: Heap, l: Limits, max: nat, v: Value, path: string, depth: nat,
                                            capped: State, free: State)
    requires l.maxFindings == Some(max) && Capped(max, capped, free)
    ensures Capped(max, Visit(h, l, v, path, depth, capped), Visit(h, Uncapped(l), v, path, depth, free))
    decreases Room(l, depth), 0
  {
    if max <= |free.findings| {
      VisitExtends(h, Uncapped(l), v, path, depth, free);
      OnceFullStaysCut(max, capped, free, Visit(h, Uncapped(l), v, path, depth, free));
    } else if depth <= l.maxDepth && v.Ref? {
      var children := Children(h, v.id, path);
      VisitAllStaysCapped(h, l, max, children, depth + 1, capped, free);
      var marked := free.(visited := free.visited + {v.id});
      VisitAllStaysCapped(h, l, max, children, depth + 1, marked, marked);
    }
  }

  lemma {:induction false} VisitAllStaysCapped(h: Heap, l: Limits, max: nat, children: seq<(string, Value)>,
                                               depth: nat, capped: State, free: State)
    requires l.maxFindings == Some(max) && Capped(max, capped, free)
    ensures Capped(max, VisitAll(h, l, children, depth, capped), VisitAll(h, Uncapped(l), children, depth, free))
    decreases Room(l, depth), |children|
  {
    if children != [] {
      var v, path := children[0].1, children[0].0;
      VisitStaysCapped(h, l, max, v, path, depth, capped, free);
      VisitAllStaysCapped(h, l, max, children[1..], depth,
                          Visit(h, l, v, path, depth, capped), Visit(h, Uncapped(l), v, path, depth, free));
    }
  }

  /** On every graph, the capped result is the beginning of the uncapped one. */
  lemma CappedIsPrefix(h: Heap, l: Limits, max: nat, input: Value)
    requires l.maxFindings == Some(max)
    ensures var all := Collected(h, Uncapped(l), input);
      Collected(h, l, input) == all[..if |all| < max then |all| else max]
  {
    var start := State([], {});
    assert Capped(max, start, start);
    VisitStaysCapped(h, l, max, input, "$", 0, start, start);
    var all := Collected(h, Uncapped(l), input);
    assert all[..|all|] == all;
  }

  // ---------------------------------------------------------------- no object twice

  ghost predicate Once(h: Heap, st: State) {
    && (forall i :: 0 <= i < |st.findings| ==>
      st.findings[i].id in st.visited && LooksLikeFinding(h(st.findings[i].id)))
    && (forall i, j :: 0 <= i < j < |st.findings| ==> st.findings[i].id != st.findings[j].id)
  }

  lemma OneMoreReport(h: Heap, st: State, id: Id, path: string)
    requires Once(h, st) && id !in st.visited && LooksLikeFinding(h(id))
    ensures Once(h, State(st.findings + [ReportOf(h, id, path)], st.visited + {id}))
  {
  }

  lemma {:induction false} VisitReportsOnce(h: Heap, l: Limits, v: Value, path: string, depth: nat, st: State)
    requires Once(h, st)
    ensures Once(h, Visit(h, l, v, path, depth, st))
    decreases Room(l, depth), 0
  {
    if !Full(l, st) && depth <= l.maxDepth && v.Ref? {
      if h(v.id).Array? {
        VisitAllReportsOnce(h, l, Children(h, v.id, path), depth + 1, st);
      } else if v.id !in st.visited {
        if LooksLikeFinding(h(v.id)) {
          OneMoreReport(h, st, v.id, path);
        } else {
          VisitAllReportsOnce(h, l, Children(h, v.id, path), depth + 1, st.(visited := st.visited + {v.id}));
        }
      }
    }
  }

  lemma {:induction false} VisitAllReportsOnce(h: Heap, l: Limits, children: seq<(string, Value)>, depth: nat,
                                               st: State)
    requires Once(h, st)
    ensures Once(h, VisitAll(h, l, children, depth, st))
    decreases Room(l, depth), |children|
  {
    if children != [] {
      VisitReportsOnce(h, l, children[0].1, children[0].0, depth, st);
      VisitAllReportsOnce(h, l, children[1..], depth, Visit(h, l, children[0].1, children[0].0, depth, st));
    }
  }

  /** However the graph shares or cycles, each object is reported at most once, and only findings are. */
  lemma EachObjectOnce(h: Heap, l: Limits, input: Value, i: nat, j: nat)
    requires i < |Collected(h, l, input)| && j < |Collected(h, l, input)|
    ensures LooksLikeFinding(h(Collected(h, l, input)[i].id))
    ensures Collected(h, l, input)[i].id == Collected(h, l, input)[j].id ==> i == j
  {
    VisitReportsOnce(h, l, input, "$", 0, State([], {}));
  }

  // ---------------------------------------------------------------- trees

  /**
    * The findings below v in preorder, a findings array before the other
    * fields; nothing below a finding, nothing too deep.
    */
  function Preorder(h: Heap, l: Limits, v: Value, path: string, depth: nat): seq<Finding>
    decreases Room(l, depth), 0
  {
    if depth > l.maxDepth || !v.Ref? then []
    else if LooksLikeFinding(h(v.id)) then [ReportOf(h, v.id, path)]
    else PreorderAll(h, l, Children(h, v.id, path), depth + 1)
  }

  function PreorderAll(h: Heap, l: Limits, children: seq<(string, Value)>, depth: nat): seq<Finding>
    decreases Room(l, depth), |children|
  {
    if children == [] then []
    else Preorder(h, l, children[0].1, children[0].0, depth) + PreorderAll(h, l, children[1..], depth)
  }

  /** The objects met on the way, with repetitions. */
  function Met(h: Heap, l: Limits, v: Value, path: string, depth: nat): seq<Id>
    decreases Room(l, depth), 0
  {
    if depth > l.maxDepth || !v.Ref? then []
    else (if h(v.id).Object? then [v.id] else [])
         + if LooksLikeFinding(h(v.id)) then [] else MetAll(h, l, Children(h, v.id, path), depth + 1)
  }

  function MetAll(h: Heap, l: Limits, children: seq<(string, Value)>, depth: nat): seq<Id>
    decreases Room(l, depth), |children|
  {
    if children == [] then []
    else Met(h, l, children[0].1, children[0].0, depth) + MetAll(h, l, children[1..], depth)
  }

  predicate Distinct(ids: seq<Id>) { forall i, j :: 0 <= i < j < |ids| ==> ids[i] != ids[j] }

  predicate Apart(ids: seq<Id>, seen: set<Id>) { forall i :: 0 <= i < |ids| ==> ids[i] !in seen }

  function Elements(ids: seq<Id>): set<Id> { set i | 0 <= i < |ids| :: ids[i] }

  /** What a traversal that meets nothing twice adds. */
  predicate Added(st: State, found: seq<Finding>, met: seq<Id>, after: State) {
    after.findings == st.findings + found && after.visited == st.visited + Elements(met)
  }

  lemma SplitMet(a: seq<Id>, b: seq<Id>, seen: set<Id>)
    requires Distinct(a + b) && Apart(a + b, seen)
    ensures Distinct(a) && Apart(a, seen) && Distinct(b) && Apart(b, seen + Elements(a))
    ensures Elements(a + b) == Elements(a) + Elements(b)
  {
    forall i | 0 <= i < |a| ensures a[i] == (a + b)[i] {}
    forall j | 0 <= j < |b| ensures b[j] == (a + b)[|a| + j] {}
    assert Apart(a, seen) && Distinct(a);
    forall i, j | 0 <= i < j < |b| ensures b[i] != b[j] {
      assert (a + b)[|a| + i] != (a + b)[|a| + j];
    }
    forall j | 0 <= j < |b| ensures b[j] !in seen + Elements(a) {
      assert (a + b)[|a| + j] !in seen;
      forall i | 0 <= i < |a| ensures a[i] != b[j] { assert (a + b)[i] != (a + b)[|a| + j]; }
    }
    forall x ensures x in Elements(a + b) <==> x in Elements(a) + Elements(b) {
      if x in Elements(a + b) {
        var i :| 0 <= i < |a + b| && (a + b)[i] == x;
        assert i < |a| ==> a[i] == x;
        assert i >= |a| ==> b[i - |a|] == x;
      }
    }
  }

  lemma ElementsOfOne(id: Id)
    ensures Elements([id]) == {id}
  {
    assert [id][0] == id;
  }

  lemma {:induction false} VisitTree(h: Heap, l: Limits, v: Value, path: string, depth: nat, st: State)
    requires l.maxFindings.None?
    requires Distinct(Met(h, l, v, path, depth)) && Apart(Met(h, l, v, path, depth), st.visited)
    ensures Added(st, Preorder(h, l, v, path, depth), Met(h, l, v, path, depth), Visit(h, l, v, path, depth, st))
    decreases Room(l, depth), 0
  {
    if depth > l.maxDepth || !v.Ref? {
      assert st.findings + [] == st.findings && Elements([]) == {};
    } else {
      var children := Children(h, v.id, path);
      var below := if LooksLikeFinding(h(v.id)) then [] else MetAll(h, l, children, depth + 1);
      if h(v.id).Array? {
        assert Met(h, l, v, path, depth) == below by { assert [] + below == below; }
        VisitAllTree(h, l, children, depth + 1, st);
      } else {
        assert Met(h, l, v, path, depth) == [v.id] + below;
        SplitMet([v.id], below, st.visited);
        ElementsOfOne(v.id);
        assert ([v.id] + below)[0] == v.id;
        VisitObject(h, l, v.id, path, depth, st, below);
      }
    }
  }

  lemma {:induction false} VisitObject(h: Heap, l: Limits, id: Id, path: string, depth: nat, st: State, below: seq<Id>)
    requires l.maxFindings.None? && depth <= l.maxDepth && h(id).Object? && id !in st.visited
    requires below == if LooksLikeFinding(h(id)) then [] else MetAll(h, l, Children(h, id, path), depth + 1)
    requires Distinct(below) && Apart(below, st.visited + {id})
    ensures var after := Visit(h, l, Ref(id), path, depth, st);
      after.findings == st.findings + Preorder(h, l, Ref(id), path, depth)
          && after.visited == st.visited + {id} + Elements(below)
    decreases Room(l, depth), 0, 0
  {
    OneObject(h, l, id, path, depth, st);
    if !LooksLikeFinding(h(id)) {
      VisitAllTree(h, l, Children(h, id, path), depth + 1, st.(visited := st.visited + {id}));
    } else {
      assert Elements(below) == {};
    }
  }

  /** What a first visit of an object does, and what the list holds for it. */
  lemma OneObject(h: Heap, l: Limits, id: Id, path: string, depth: nat, st: State)
    requires l.maxFindings.None? && depth <= l.maxDepth && h(id).Object? && id !in st.visited
    ensures var marked, children := st.(visited := st.visited + {id}), Children(h, id, path);
      if LooksLikeFinding(h(id)) then
        Visit(h, l, Ref(id), path, depth, st) == marked.(findings := st.findings + [ReportOf(h, id, path)])
        && Preorder(h, l, Ref(id), path, depth) == [ReportOf(h, id, path)]
      else
        Visit(h, l, Ref(id), path, depth, st) == VisitAll(h, l, children, depth + 1, marked)
        && Preorder(h, l, Ref(id), path, depth) == PreorderAll(h, l, children, depth + 1)
  {
  }

  lemma {:induction false} VisitAllTree(h: Heap, l: Limits, children: seq<(string, Value)>, depth: nat, st: State)
    requires l.maxFindings.None?
    requires Distinct(MetAll(h, l, children, depth)) && Apart(MetAll(h, l, children, depth), st.visited)
    ensures Added(st, PreorderAll(h, l, children, depth), MetAll(h, l, children, depth),
        VisitAll(h, l, children, depth, st))
    decreases Room(l, depth), |children|
  {
    if children == [] {
      assert st.findings + [] == st.findings && Elements([]) == {};
    } else {
      var v, path := children[0].1, children[0].0;
      var first, rest := Met(h, l, v, path, depth), MetAll(h, l, children[1..], depth);
      SplitMet(first, rest, st.visited);
      var mid := Visit(h, l, v, path, depth, st);
      VisitTree(h, l, v, path, depth, st);
      VisitAllTree(h, l, children[1..], depth, mid);
      JoinAdded(st, mid, VisitAll(h, l, children[1..], depth, mid), Preorder(h, l, v, path, depth),
                PreorderAll(h, l, children[1..], depth), first, rest);
    }
  }

  lemma JoinAdded(st: State, mid: State, after: State, f: seq<Finding>, g: seq<Finding>, a: seq<Id>, b: seq<Id>)
    requires Added(st, f, a, mid) && Added(mid, g, b, after) && Elements(a + b) == Elements(a) + Elements(b)
    ensures Added(st, f + g, a + b, after)
  {
    assert st.findings + f + g == st.findings + (f + g);
  }

  /** Where no object is met twice (on every tree), the result is the first maxFindings of the preorder list. */
  lemma TreeIsPreorder(h: Heap, l: Limits, max: nat, input: Value)
    requires l.maxFindings == Some(max) && Distinct(Met(h, Uncapped(l), input, "$", 0))
    ensures var all := Preorder(h, Uncapped(l), input, "$", 0);
      Collected(h, l, input) == all[..if |all| < max then |all| else max]
  {
    CappedIsPrefix(h, l, max, input);
    VisitTree(h, Uncapped(l), input, "$", 0, State([], {}));
  }

  // ---------------------------------------------------------------- summarizeFindings

  function CountOf(labels: seq<string>, wanted: string): nat {
    if labels == [] then 0
    else CountOf(labels[..|labels| - 1], wanted) + if labels[|labels| - 1] == wanted then 1 else 0
  }

  function Severities(findings: seq<Finding>): seq<string> {
    seq(|findings|, i requires 0 <= i < |findings| => NormalizeSeverity(findings[i].severity))
  }

  function Statuses(findings: seq<Finding>): seq<string> {
    seq(|findings|, i requires 0 <= i < |findings| => NormalizeStatus(findings[i].status))
  }

  datatype Summary = Summary(findingCount: nat, bySeverity: map<string, nat>, byStatus: map<string, nat>)

  function Same(): nat -> int { n => n }

  const ZEROES: map<string, nat> := map s | s in SEVERITIES :: 0

  lemma ZeroTotal<K>(m: map<K, nat>)
    requires forall k :: k in m ==> m[k] == 0
    ensures Total(m, Same()) == 0
    decreases |m|
  {
    if k :| k in m {
      TotalRemove(m, k, Same());
      ZeroTotal(m - {k});
    }
  }

  /** m counts the labels, and its counts add up to their number. */
  ghost predicate Tally(m: map<string, nat>, labels: seq<string>) {
    && (forall k :: CountOf(labels, k) == if k in m then m[k] else 0)
    && Total(m, Same()) == |labels|
  }

  function Bumped(m: map<string, nat>, k: string): map<string, nat> {
    m[k := (if k in m then m[k] else 0) + 1]
  }

  lemma BumpTallies(m: map<string, nat>, labels: seq<string>, k: string)
    requires Tally(m, labels)
    ensures Tally(Bumped(m, k), labels + [k])
  {
    assert (labels + [k])[..|labels|] == labels;
    if k in m {
      TotalUpdate(m, k, m[k] + 1, Same());
    } else {
      TotalInsert(m, k, 1, Same());
    }
  }

  /** The loop over the findings, given by their normalised severities and statuses. */
  method Count(severities: seq<string>, statuses: seq<string>)
    returns (bySeverity: map<string, nat>, byStatus: map<string, nat>)
    requires |severities| == |statuses| && forall s :: s in severities ==> s in ZEROES
    ensures Tally(bySeverity, severities) && bySeverity.Keys == ZEROES.Keys
    ensures Tally(byStatus, statuses) && forall k :: k in byStatus ==> byStatus[k] > 0
  {
    bySeverity, byStatus := ZEROES, map[];
    ZeroTotal(bySeverity);
    for i := 0 to |severities|
      invariant Tally(bySeverity, severities[..i]) && bySeverity.Keys == ZEROES.Keys
      invariant Tally(byStatus, statuses[..i]) && forall k :: k in byStatus ==> byStatus[k] > 0
    {
      assert severities[..i + 1] == severities[..i] + [severities[i]];
      assert statuses[..i + 1] == statuses[..i] + [statuses[i]];
      BumpTallies(bySeverity, severities[..i], severities[i]);
      BumpTallies(byStatus, statuses[..i], statuses[i]);
      bySeverity, byStatus := Bumped(bySeverity, severities[i]), Bumped(byStatus, statuses[i]);
    }
    assert severities[..|severities|] == severities && statuses[..|statuses|] == statuses;
  }

  /**
    * Every severity has its count, every status that occurs has a positive
    * one, and both tables add up to the number of findings.
    */
  method SummarizeFindings(findings: seq<Finding>) returns (s: Summary)
    ensures s.findingCount == |findings|
    ensures Tally(s.bySeverity, Severities(findings)) && s.bySeverity.Keys == ZEROES.Keys
    ensures Tally(s.byStatus, Statuses(findings)) && forall k :: k in s.byStatus ==> s.byStatus[k] > 0
  {
    var bySeverity, byStatus := Count(Severities(findings), Statuses(findings));
    s := Summary(|findings|, bySeverity, byStatus);
  }
}
