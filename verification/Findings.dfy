// findings-collector.js: the depth-limited, capped traversal of a scan result, and its summary.
module Findings {
  import opened Wrappers
  import opened Text

  type Id = nat

  // a primitive is given by its String() form, empty if it is falsy
  datatype Value = Null | Primitive(text: string) | Ref(id: Id)

  // shown is what String() makes of the object or array
  datatype Node =
    | Array(items: seq<Value>, shown: string)
    | Object(fields: seq<(string, Value)>, shown: string)

  // objects may be shared, and a graph may have cycles
  type Heap = Id -> Node

  datatype Finding = Finding(id: Id, severity: string, status: string, path: string)

  const SEVERITIES := ["CRITICAL", "HIGH", "MEDIUM", "LOW", "INFO", "UNKNOWN"]

  // ---------------------------------------------------------------- normalisers

  function Field(fields: seq<(string, Value)>, name: string): (r: Option<Value>)
    ensures r.Some? <==> exists i :: 0 <= i < |fields| && fields[i].0 == name
  {
    if fields == [] then None
    else if fields[0].0 == name then Some(fields[0].1)
    else
      var r := Field(fields[1..], name);
      assert r.None? ==> forall i :: 1 <= i < |fields| ==> fields[1..][i - 1] == fields[i] && fields[i].0 != name;
      r
  }

  /** String(value || 'UNKNOWN') */
  function Shown(h: Heap, v: Option<Value>): string {
    match v
    case Some(Primitive(text)) => if text == "" then "UNKNOWN" else text
    case Some(Ref(id)) => h(id).shown
    case _ => "UNKNOWN"
  }

  function NormalizeSeverity(text: string): (r: string)
    ensures r in SEVERITIES
    ensures text in SEVERITIES ==> r == text
  {
    var s := UpperCase(Trim(if text == "" then "UNKNOWN" else text, IsJsSpace));
    assert text in SEVERITIES ==> s == text by {
      if text in SEVERITIES { AlreadyNormal(text); }
    }
    if s in SEVERITIES then s else
      assert SEVERITIES[5] == "UNKNOWN";
      "UNKNOWN"
  }

  lemma AlreadyNormal(text: string)
    requires text != "" && forall i :: 0 <= i < |text| ==> 'A' <= text[i] <= 'Z'
    ensures UpperCase(Trim(text, IsJsSpace)) == text
  {
  }

  function NormalizeStatus(text: string): string {
    var s := UpperCase(Trim(if text == "" then "UNKNOWN" else text, IsJsSpace));
    if s == "" then "UNKNOWN" else s
  }

  const DESCRIBING := {"title", "controlId", "resourceId", "recommendation", "remediation"}

  predicate LooksLikeFinding(node: Node) {
    && node.Object?
    && Field(node.fields, "severity").Some?
    && exists name :: name in DESCRIBING && Field(node.fields, name).Some?
  }

  function ReportOf(h: Heap, id: Id, path: string): Finding
    requires h(id).Object?
  {
    Finding(id, NormalizeSeverity(Shown(h, Field(h(id).fields, "severity"))),
            NormalizeStatus(Shown(h, Field(h(id).fields, "status"))), path)
  }

  // ---------------------------------------------------------------- what is visited below a value

  function Indexed(items: seq<Value>, path: string): seq<(string, Value)> {
    seq(|items|, i requires 0 <= i < |items| => (path + "[" + Decimal(i) + "]", items[i]))
  }

  function Named(fields: seq<(string, Value)>, path: string): seq<(string, Value)> {
    if fields == [] then []
    else (if fields[0].0 != "findings" && fields[0].1.Ref? then [(path + "." + fields[0].0, fields[0].1)] else [])
         + Named(fields[1..], path)
  }

  /** The elements of a findings array first, then the other fields that hold objects or arrays. */
  function Children(h: Heap, id: Id, path: string): seq<(string, Value)> {
    match h(id)
    case Array(items, _) => Indexed(items, path)
    case Object(fields, _) =>
      (match Field(fields, "findings")
       case Some(Ref(list)) => if h(list).Array? then Indexed(h(list).items, path + ".findings") else []
       case _ => [])
      + Named(fields, path)
  }

  // ---------------------------------------------------------------- the traversal as a function of its state

  // no cap when maxFindings is None
  datatype Limits = Limits(maxDepth: nat, maxFindings: Option<nat>)

  datatype State = State(findings: seq<Finding>, visited: set<Id>)

  predicate Full(l: Limits, st: State) {
    l.maxFindings.Some? && |st.findings| >= l.maxFindings.value
  }

  function Room(l: Limits, depth: nat): nat { if depth > l.maxDepth then 0 else l.maxDepth + 1 - depth }

  function Visit(h: Heap, l: Limits, v: Value, path: string, depth: nat, st: State): State
    decreases Room(l, depth), 0
  {
    if Full(l, st) || depth > l.maxDepth || !v.Ref? then st
    else if h(v.id).Array? then VisitAll(h, l, Children(h, v.id, path), depth + 1, st)
    else if v.id in st.visited then st
    else
      var marked := st.(visited := st.visited + {v.id});
      if LooksLikeFinding(h(v.id)) then marked.(findings := st.findings + [ReportOf(h, v.id, path)])
      else VisitAll(h, l, Children(h, v.id, path), depth + 1, marked)
  }

  function VisitAll(h: Heap, l: Limits, children: seq<(string, Value)>, depth: nat, st: State): State
    decreases Room(l, depth), |children|
  {
    if children == [] then st
    else VisitAll(h, l, children[1..], depth, Visit(h, l, children[0].1, children[0].0, depth, st))
  }

  function Collected(h: Heap, l: Limits, input: Value): seq<Finding> {
    Visit(h, l, input, "$", 0, State([], {})).findings
  }

  // ---------------------------------------------------------------- the traversal as it is run

  class Collector {
    const h: Heap
    const limits: Limits
    var findings: seq<Finding>
    var visited: set<Id>

    constructor (h: Heap, limits: Limits)
      ensures this.h == h && this.limits == limits && Now() == State([], {})
    {
      this.h, this.limits, findings, visited := h, limits, [], {};
    }

    function Now(): State
      reads this
    {
      State(findings, visited)
    }

    method VisitValue(value: Value, path: string, depth: nat)
      modifies this
      ensures Now() == Visit(h, limits, value, path, depth, old(Now()))
      decreases Room(limits, depth), 0
    {
      if limits.maxFindings.Some? && |findings| >= limits.maxFindings.value {
        return;
      }
      if value == Null || depth > limits.maxDepth {
        return;
      }
      match value
      case Primitive(_) =>
      case Ref(id) =>
        if h(id).Array? {
          VisitList(Children(h, id, path), depth + 1);
          return;
        }
        if id in visited {
          return;
        }
        visited := visited + {id};
        if LooksLikeFinding(h(id)) {
          findings := findings + [ReportOf(h, id, path)];
          return;
        }
        VisitList(Children(h, id, path), depth + 1);
    }

    method VisitList(children: seq<(string, Value)>, depth: nat)
      modifies this
      ensures Now() == VisitAll(h, limits, children, depth, old(Now()))
      decreases Room(limits, depth), |children|
    {
      ghost var start := Now();
      for i := 0 to |children|
        invariant VisitAll(h, limits, children, depth, start) == VisitAll(h, limits, children[i..], depth, Now())
      {
        assert children[i..][1..] == children[i + 1..];
        VisitValue(children[i].1, children[i].0, depth);
      }
    }
  }

  /** collectFindings */
  method CollectFindings(h: Heap, limits: Limits, input: Value) returns (findings: seq<Finding>)
    ensures findings == Collected(h, limits, input)
  {
    var c := new Collector(h, limits);
    c.VisitValue(input, "$", 0);
    findings := c.findings;
  }
}
