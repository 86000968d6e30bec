// What a reported finding says: the way to its object, its severity and its status.
module FindingsReports {
  import opened Wrappers
  import opened Text
  import opened TextLaws
  import opened Findings

  // ---------------------------------------------------------------- the way to a finding

  /**
    * to is reached from a value in n steps, each to a child; no step starts
    * at a finding. Both ends come with their paths.
    */
  ghost predicate Route(h: Heap, from: (string, Value), to: (string, Value), n: nat)
    decreases n
  {
    if n == 0 then from == to
    else
      from.1.Ref? && !LooksLikeFinding(h(from.1.id))
      && exists c :: c in Children(h, from.1.id, from.0) && Route(h, c, to, n - 1)
  }

  /** f describes the object at the end of a route of at most limit steps. */
  ghost predicate Witnessed(h: Heap, from: (string, Value), f: Finding, limit: int) {
    && LooksLikeFinding(h(f.id)) && f == ReportOf(h, f.id, f.path)
    && exists n: nat :: n <= limit && Route(h, from, (f.path, Ref(f.id)), n)
  }

  lemma OneStepBefore(h: Heap, from: (string, Value), c: (string, Value), f: Finding, limit: int)
    requires from.1.Ref? && !LooksLikeFinding(h(from.1.id)) && c in Children(h, from.1.id, from.0)
    requires Witnessed(h, c, f, limit)
    ensures Witnessed(h, from, f, limit + 1)
  {
    var n: nat :| n <= limit && Route(h, c, (f.path, Ref(f.id)), n);
    assert Route(h, from, (f.path, Ref(f.id)), n + 1);
  }

  lemma {:induction false} VisitWitnesses(h: Heap, l: Limits, v: Value, path: string, depth: nat, st: State, f: Finding)
    requires f in Visit(h, l, v, path, depth, st).findings
    ensures f in st.findings || Witnessed(h, (path, v), f, l.maxDepth - depth)
    decreases Room(l, depth), 0
  {
    if f in st.findings {
      return;
    }
    VisitAdds(h, l, v, path, depth, st, f);
    if LooksLikeFinding(h(v.id)) {
      WitnessedAtOnce(h, v.id, path, l.maxDepth - depth);
    } else {
      var before := if h(v.id).Array? then st else st.(visited := st.visited + {v.id});
      VisitAllWitnesses(h, l, Children(h, v.id, path), depth + 1, before, f);
      WitnessedBelow(h, v.id, path, f, l.maxDepth - depth);
    }
  }

  /** A new finding is the visited object itself, or is found below it. */
  lemma VisitAdds(h: Heap, l: Limits, v: Value, path: string, depth: nat, st: State, f: Finding)
    requires f in Visit(h, l, v, path, depth, st).findings && f !in st.findings
    ensures depth <= l.maxDepth && v.Ref?
    ensures LooksLikeFinding(h(v.id)) ==> f == ReportOf(h, v.id, path)
    ensures !LooksLikeFinding(h(v.id)) ==>
      f in VisitAll(h, l, Children(h, v.id, path), depth + 1,
                    if h(v.id).Array? then st else st.(visited := st.visited + {v.id})).findings
  {
  }

  lemma WitnessedBelow(h: Heap, id: Id, path: string, f: Finding, limit: int)
    requires !LooksLikeFinding(h(id)) && exists c :: c in Children(h, id, path) && Witnessed(h, c, f, limit - 1)
    ensures Witnessed(h, (path, Ref(id)), f, limit)
  {
    var c :| c in Children(h, id, path) && Witnessed(h, c, f, limit - 1);
    OneStepBefore(h, (path, Ref(id)), c, f, limit - 1);
  }

  lemma WitnessedAtOnce(h: Heap, id: Id, path: string, limit: nat)
    requires LooksLikeFinding(h(id))
    ensures Witnessed(h, (path, Ref(id)), ReportOf(h, id, path), limit)
  {
    assert Route(h, (path, Ref(id)), (path, Ref(id)), 0);
  }

  lemma {:induction false} VisitAllWitnesses(h: Heap, l: Limits, children: seq<(string, Value)>, depth: nat,
                                             st: State, f: Finding)
    requires f in VisitAll(h, l, children, depth, st).findings
    ensures f in st.findings || exists c :: c in children && Witnessed(h, c, f, l.maxDepth - depth)
    decreases Room(l, depth), |children|
  {
    if children != [] {
      var first := children[0];
      var mid := Visit(h, l, first.1, first.0, depth, st);
      VisitAllWitnesses(h, l, children[1..], depth, mid, f);
      if f in mid.findings {
        VisitWitnesses(h, l, first.1, first.0, depth, st, f);
        assert first in children;
      } else {
        var c :| c in children[1..] && Witnessed(h, c, f, l.maxDepth - depth);
        assert c in children;
      }
    }
  }

  /**
    * On every graph, the path of a finding leads from the root to an object
    * that looks like one, past no other finding and not too deep.
    */
  lemma FindingsAreWhereTheySay(h: Heap, l: Limits, input: Value, f: Finding)
    requires f in Collected(h, l, input)
    ensures Witnessed(h, ("$", input), f, l.maxDepth)
  {
    VisitWitnesses(h, l, input, "$", 0, State([], {}), f);
  }

  // ---------------------------------------------------------------- children and their paths

  predicate HasField(fields: seq<(string, Value)>, name: string) {
    exists i :: 0 <= i < |fields| && fields[i].0 == name
  }

  /** Which objects count as findings. */
  lemma FindingsByFields(fields: seq<(string, Value)>, shown: string)
    ensures LooksLikeFinding(Object(fields, shown)) <==>
      && HasField(fields, "severity")
      && (HasField(fields, "title") || HasField(fields, "controlId") || HasField(fields, "resourceId")
          || HasField(fields, "recommendation") || HasField(fields, "remediation"))
  {
  }

  lemma {:induction false} NamedConcat(a: seq<(string, Value)>, b: seq<(string, Value)>, path: string)
    ensures Named(a + b, path) == Named(a, path) + Named(b, path)
  {
    if a == [] {
      assert a + b == b;
    } else {
      assert (a + b)[1..] == a[1..] + b;
      NamedConcat(a[1..], b, path);
    }
  }

  /** A field adds its object or array under its own name, in the place of the field; the list of findings is apart. */
  lemma FieldInPlace(before: seq<(string, Value)>, name: string, v: Value, after: seq<(string, Value)>, path: string)
    ensures Named(before + [(name, v)] + after, path)
         == Named(before, path) + (if v.Ref? && name != "findings" then [(path + "." + name, v)] else [])
            + Named(after, path)
  {
    NamedConcat(before + [(name, v)], after, path);
    NamedConcat(before, [(name, v)], path);
  }

  /** The first field of that name is the one that counts. */
  lemma {:induction false} FirstField(before: seq<(string, Value)>, name: string, v: Value, after: seq<(string, Value)>)
    requires !HasField(before, name)
    ensures Field(before + [(name, v)] + after, name) == Some(v)
  {
    var fields := before + [(name, v)] + after;
    if before != [] {
      assert before[0].0 != name;
      assert fields[1..] == before[1..] + [(name, v)] + after;
      forall i | 0 <= i < |before[1..]| ensures before[1..][i].0 != name {
        assert before[1..][i] == before[i + 1];
      }
      FirstField(before[1..], name, v, after);
    }
  }

  /** The i-th element of a list of findings comes i-th, before every other field; so does that of a list by itself. */
  lemma ListedFirst(h: Heap, id: Id, path: string, list: Id, i: nat)
    requires h(list).Array? && i < |h(list).items|
    requires h(id).Object? && Field(h(id).fields, "findings") == Some(Ref(list))
    ensures |Children(h, id, path)| == |h(list).items| + |Named(h(id).fields, path)|
    ensures Children(h, id, path)[i] == (path + ".findings" + "[" + Decimal(i) + "]", h(list).items[i])
    ensures Children(h, list, path)[i] == (path + "[" + Decimal(i) + "]", h(list).items[i])
    ensures Children(h, id, path)[|h(list).items|..] == Named(h(id).fields, path)
  {
    var listed := Indexed(h(list).items, path + ".findings");
    assert Children(h, id, path) == listed + Named(h(id).fields, path);
    assert listed[i] == (path + ".findings" + "[" + Decimal(i) + "]", h(list).items[i]);
  }

  // ---------------------------------------------------------------- severity and status

  /** The severities are the six listed ones; anything else is UNKNOWN. */
  lemma SeverityIs(text: string)
    ensures var s := UpperCase(Trim(text, IsJsSpace));
      NormalizeSeverity(text)
      == if s in ["CRITICAL", "HIGH", "MEDIUM", "LOW", "INFO"] then s else "UNKNOWN"
  {
    AlreadyNormal("UNKNOWN");
  }

  /** The status is the text itself, or UNKNOWN if there is nothing in it. */
  lemma StatusIs(text: string)
    ensures NormalizeStatus(text) == if AllWhite(text) then "UNKNOWN" else UpperCase(Trim(text, IsJsSpace))
  {
    AlreadyNormal("UNKNOWN");
    BlankTrims(text);
  }

  lemma BlankTrims(text: string)
    ensures AllWhite(text) <==> Trim(text, IsJsSpace) == ""
  {
    if AllWhite(text) {
      assert "" + "" + text == text;
      TrimRemovesPadding("", "", text);
    } else {
      var i :| 0 <= i < |text| && text[i] !in WHITE;
      WhiteIsSpace(text[i]);
      KeptOnTheLeft(text, i);
    }
  }

  lemma {:induction false} KeptOnTheLeft(text: string, i: nat)
    requires i < |text| && !IsJsSpace(text[i])
    ensures Trim(text, IsJsSpace) != ""
  {
    if IsJsSpace(text[0]) {
      KeptOnTheLeft(text[1..], i - 1);
    } else {
      KeptOnTheRight(text);
    }
  }

  lemma {:induction false} KeptOnTheRight(text: string)
    requires text != "" && !IsJsSpace(text[0])
    ensures TrimRight(text, IsJsSpace) != ""
  {
    if |text| > 1 {
      KeptOnTheRight(text[..|text| - 1]);
    }
  }

  /** Padding and letter case make no difference to either. */
  lemma LabelsForgetPaddingAndCase(before: string, text: string, after: string)
    requires AllWhite(before) && AllWhite(after)
    ensures NormalizeSeverity(before + UpperCase(text) + after) == NormalizeSeverity(before + text + after)
         == NormalizeSeverity(text)
    ensures NormalizeStatus(before + UpperCase(text) + after) == NormalizeStatus(before + text + after)
         == NormalizeStatus(text)
  {
    PaddingAndCaseVanish(before, text, after);
    var capital, plain := before + UpperCase(text) + after, before + text + after;
    CaseFolds(Trim(capital, IsJsSpace), Trim(text, IsJsSpace));
    CaseFolds(Trim(plain, IsJsSpace), Trim(text, IsJsSpace));
    forall t | t in {capital, plain, text}
      ensures NormalizeSeverity(t) == NormalizeSeverity(text) && NormalizeStatus(t) == NormalizeStatus(text)
    {
      SeverityIs(t);
      SeverityIs(text);
      SameStatus(t, text);
    }
  }

  lemma SameStatus(a: string, b: string)
    requires UpperCase(Trim(a, IsJsSpace)) == UpperCase(Trim(b, IsJsSpace))
    ensures NormalizeStatus(a) == NormalizeStatus(b)
  {
    AlreadyNormal("UNKNOWN");
  }

  /** A report takes its severity and its status from the fields of these names; a field that is absent says UNKNOWN. */
  lemma ReportSays(h: Heap, id: Id, path: string)
    requires h(id).Object?
    ensures var r, severity, status :=
              ReportOf(h, id, path), Field(h(id).fields, "severity"), Field(h(id).fields, "status");
      && r.id == id && r.path == path
      && (severity.Some? && severity.value.Primitive? ==> r.severity == NormalizeSeverity(severity.value.text))
      && (severity.Some? && severity.value.Ref? ==> r.severity == NormalizeSeverity(h(severity.value.id).shown))
      && (severity == None || severity == Some(Null) ==> r.severity == "UNKNOWN")
      && (status.Some? && status.value.Primitive? ==> r.status == NormalizeStatus(status.value.text))
      && (status.Some? && status.value.Ref? ==> r.status == NormalizeStatus(h(status.value.id).shown))
      && (status == None || status == Some(Null) ==> r.status == "UNKNOWN")
  {
    AlreadyNormal("UNKNOWN");
  }
}
