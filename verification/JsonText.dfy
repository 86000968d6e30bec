// JSON.stringify on canonical values: different values have different texts.
module JsonText {
  import opened Text
  import opened CanonicalJson

  // ---------------------------------------------------------------- quoting (section 7 of RFC 8259)

  function Escape(c: char): string {
    if c == '"' then "\\\""
    else if c == '\\' then "\\\\"
    else if c as int == 8 then "\\b"
    else if c == '\t' then "\\t"
    else if c == '\n' then "\\n"
    else if c as int == 12 then "\\f"
    else if c == '\r' then "\\r"
    else if (c as int) < 32 then "\\u00" + [HEX[c as int / 16], HEX[c as int % 16]]
    else [c]
  }

  /** The rest of a quoted text, up to the closing quote. */
  function Quoted(s: string): string {
    if s == "" then ['"'] else Escape(s[0]) + Quoted(s[1..])
  }

  // ---------------------------------------------------------------- printing

  function Print(v: Json): string {
    match v
    case Null => "null"
    case Undefined => "null"
    case Bool(b) => if b then "true" else "false"
    case Str(s) => ['"'] + Quoted(s)
    case Arr(items) => ['['] + if items.NoItems? then "]" else Print(items.head) + PrintItems(items.tail)
    case Obj(fields) =>
      if fields.NoFields? then "{}"
        else ['{', '"'] + Quoted(fields.key) + [':'] + Print(fields.value) + PrintFields(fields.rest)
  }

  function PrintItems(items: Items): string {
    if items.NoItems? then "]" else [','] + Print(items.head) + PrintItems(items.tail)
  }

  function PrintFields(f: Fields): string {
    if f.NoFields? then "}" else [',', '"'] + Quoted(f.key) + [':'] + Print(f.value) + PrintFields(f.rest)
  }

  /** stableStringify */
  function Stable(v: Json): string { Print(Canon(v)) }

  // ---------------------------------------------------------------- reading a prefix back

  lemma SameHead(a: string, x: string, b: string, y: string)
    requires a + x == b + y
    ensures a != "" && b != "" ==> a[0] == b[0]
    ensures |a| == |b| ==> a == b && x == y
  {
    if |a| == |b| {
      assert a == (a + x)[..|a|] && b == (b + y)[..|b|];
      assert x == (a + x)[|a|..] && y == (b + y)[|b|..];
    }
    if a != "" && b != "" {
      assert (a + x)[0] == a[0] && (b + y)[0] == b[0];
    }
  }

  /** The length of an escape, from its first two characters. */
  function EscapeLength(s: string): nat
    requires |s| >= 1
  {
    if s[0] != '\\' then 1 else if |s| >= 2 && s[1] == 'u' then 6 else 2
  }

  lemma EscapeShape(c: char)
    ensures |Escape(c)| == EscapeLength(Escape(c)) && Escape(c)[0] != '"'
    ensures |Escape(c)| == 1 || Escape(c)[0] == '\\'
  {
  }

  lemma EscapeIsInjective(c: char, d: char)
    requires Escape(c) == Escape(d)
    ensures c == d
  {
    if |Escape(c)| == 6 {
      assert Escape(c)[4] == HEX[c as int / 16] && Escape(c)[5] == HEX[c as int % 16];
      assert Escape(d)[4] == HEX[d as int / 16] && Escape(d)[5] == HEX[d as int % 16];
      HexDigits(c as int / 16, d as int / 16);
      HexDigits(c as int % 16, d as int % 16);
    } else if |Escape(c)| == 2 {
      assert Escape(c)[1] == Escape(d)[1];
    } else {
      assert Escape(c)[0] == Escape(d)[0];
    }
  }

  lemma EscapePrefix(c: char, x: string, d: char, y: string)
    requires Escape(c) + x == Escape(d) + y
    ensures c == d && x == y
  {
    var e, f := Escape(c), Escape(d);
    EscapeShape(c);
    EscapeShape(d);
    SameHead(e, x, f, y);
    if |e| >= 2 && |f| >= 2 {
      assert (e + x)[1] == e[1] && (f + y)[1] == f[1];
    }
    assert |e| == |f|;
    EscapeIsInjective(c, d);
  }

  lemma {:induction false} QuotedPrefix(s: string, x: string, t: string, y: string)
    requires Quoted(s) + x == Quoted(t) + y
    ensures s == t && x == y
    decreases |s|
  {
    QuotedHead(s);
    QuotedHead(t);
    SameHead(Quoted(s), x, Quoted(t), y);
    if s != "" && t != "" {
      Shift(Escape(s[0]), Quoted(s[1..]), x);
      Shift(Escape(t[0]), Quoted(t[1..]), y);
      EscapePrefix(s[0], Quoted(s[1..]) + x, t[0], Quoted(t[1..]) + y);
      QuotedPrefix(s[1..], x, t[1..], y);
      assert s == [s[0]] + s[1..] && t == [t[0]] + t[1..];
    }
  }

  lemma QuotedHead(s: string)
    ensures Quoted(s) != "" && (Quoted(s)[0] == '"' <==> s == "")
  {
    if s != "" {
      EscapeShape(s[0]);
    }
  }

  lemma Shift(a: string, b: string, c: string)
    ensures (a + b) + c == a + (b + c)
  {
  }

  lemma PrintHead(v: Json)
    ensures Print(v) != ""
    ensures Print(v)[0] == match v case Null => 'n' case Undefined => 'n' case Bool(b) => if b then 't' else 'f'
                                   case Str(_) => '"' case Arr(_) => '[' case Obj(_) => '{'
  {
  }

  /** A quoted name, a colon, a value and what follows. */
  lemma {:induction false} FieldPrefix(k: string, v: Json, p: string, l: string, w: Json, q: string)
    requires Canonical(v) && Canonical(w)
    requires Quoted(k) + ([':'] + (Print(v) + p)) == Quoted(l) + ([':'] + (Print(w) + q))
    ensures k == l && v == w && p == q
    decreases v, 1
  {
    QuotedPrefix(k, [':'] + (Print(v) + p), l, [':'] + (Print(w) + q));
    SameHead([':'], Print(v) + p, [':'], Print(w) + q);
    PrintPrefix(v, p, w, q);
  }

  lemma {:induction false} PrintPrefix(v: Json, x: string, w: Json, y: string)
    requires Canonical(v) && Canonical(w) && Print(v) + x == Print(w) + y
    ensures v == w && x == y
    decreases v, 0
  {
    PrintHead(v);
    PrintHead(w);
    SameHead(Print(v), x, Print(w), y);
    match v
    case Str(s) =>
      Shift(['"'], Quoted(s), x);
      Shift(['"'], Quoted(w.s), y);
      SameHead(['"'], Quoted(s) + x, ['"'], Quoted(w.s) + y);
      QuotedPrefix(s, x, w.s, y);
    case Arr(items) => ArrayPrefix(items, x, w.items, y);
    case Obj(fields) => ObjectPrefix(fields, x, w.fields, y);
    case _ =>
  }

  lemma {:induction false} ArrayPrefix(a: Items, x: string, b: Items, y: string)
    requires CanonicalItems(a) && CanonicalItems(b) && Print(Arr(a)) + x == Print(Arr(b)) + y
    ensures a == b && x == y
    decreases a
  {
    if a.Item? && b.Item? {
      Shift(['['], Print(a.head) + PrintItems(a.tail), x);
      Shift(['['], Print(b.head) + PrintItems(b.tail), y);
      Shift(Print(a.head), PrintItems(a.tail), x);
      Shift(Print(b.head), PrintItems(b.tail), y);
      SameHead(['['], Print(a.head) + (PrintItems(a.tail) + x), ['['], Print(b.head) + (PrintItems(b.tail) + y));
      PrintPrefix(a.head, PrintItems(a.tail) + x, b.head, PrintItems(b.tail) + y);
      ItemsPrefix(a.tail, x, b.tail, y);
    } else {
      EmptyArray(a, x, b, y);
    }
  }

  lemma EmptyArray(a: Items, x: string, b: Items, y: string)
    requires (a.NoItems? || b.NoItems?) && Print(Arr(a)) + x == Print(Arr(b)) + y
    ensures a == b && x == y
  {
    var s, t := Print(Arr(a)), Print(Arr(b));
    if a.Item? { PrintHead(a.head); }
    if b.Item? { PrintHead(b.head); }
    assert (s + x)[1] == s[1] && (t + y)[1] == t[1];
    SameHead(s, x, t, y);
  }

  lemma {:induction false} ItemsPrefix(a: Items, x: string, b: Items, y: string)
    requires CanonicalItems(a) && CanonicalItems(b) && PrintItems(a) + x == PrintItems(b) + y
    ensures a == b && x == y
    decreases a
  {
    SameHead(PrintItems(a), x, PrintItems(b), y);
    if a.Item? && b.Item? {
      Shift([','] + Print(a.head), PrintItems(a.tail), x);
      Shift([','] + Print(b.head), PrintItems(b.tail), y);
      Shift([','], Print(a.head), PrintItems(a.tail) + x);
      Shift([','], Print(b.head), PrintItems(b.tail) + y);
      SameHead([','], Print(a.head) + (PrintItems(a.tail) + x), [','], Print(b.head) + (PrintItems(b.tail) + y));
      PrintPrefix(a.head, PrintItems(a.tail) + x, b.head, PrintItems(b.tail) + y);
      ItemsPrefix(a.tail, x, b.tail, y);
    }
  }

  /** The text of a field after its opening quote, with what follows. */
  lemma FieldText(before: string, f: Fields, x: string)
    requires f.Field?
    ensures (before + Quoted(f.key) + [':'] + Print(f.value) + PrintFields(f.rest)) + x
         == before + (Quoted(f.key) + ([':'] + (Print(f.value) + (PrintFields(f.rest) + x))))
  {
    var q, c, v, r := Quoted(f.key), [':'], Print(f.value), PrintFields(f.rest);
    Shift(before + q + c + v, r, x);
    Shift(before + q + c, v, r + x);
    Shift(before + q, c, v + (r + x));
    Shift(before, q, c + (v + (r + x)));
  }

  lemma {:induction false} ObjectPrefix(a: Fields, x: string, b: Fields, y: string)
    requires CanonicalFields(a) && CanonicalFields(b) && Print(Obj(a)) + x == Print(Obj(b)) + y
    ensures a == b && x == y
    decreases a
  {
    if a.Field? && b.Field? {
      FieldText(['{', '"'], a, x);
      FieldText(['{', '"'], b, y);
      SameHead(['{', '"'], Quoted(a.key) + ([':'] + (Print(a.value) + (PrintFields(a.rest) + x))),
               ['{', '"'], Quoted(b.key) + ([':'] + (Print(b.value) + (PrintFields(b.rest) + y))));
      FieldPrefix(a.key, a.value, PrintFields(a.rest) + x, b.key, b.value, PrintFields(b.rest) + y);
      FieldsPrefix(a.rest, x, b.rest, y);
    } else {
      EmptyObject(a, x, b, y);
    }
  }

  lemma EmptyObject(a: Fields, x: string, b: Fields, y: string)
    requires (a.NoFields? || b.NoFields?) && Print(Obj(a)) + x == Print(Obj(b)) + y
    ensures a == b && x == y
  {
    var s, t := Print(Obj(a)), Print(Obj(b));
    assert (s + x)[1] == s[1] && (t + y)[1] == t[1];
    SameHead(s, x, t, y);
  }

  lemma {:induction false} FieldsPrefix(a: Fields, x: string, b: Fields, y: string)
    requires CanonicalFields(a) && CanonicalFields(b) && PrintFields(a) + x == PrintFields(b) + y
    ensures a == b && x == y
    decreases a
  {
    SameHead(PrintFields(a), x, PrintFields(b), y);
    if a.Field? && b.Field? {
      FieldText([',', '"'], a, x);
      FieldText([',', '"'], b, y);
      SameHead([',', '"'], Quoted(a.key) + ([':'] + (Print(a.value) + (PrintFields(a.rest) + x))),
               [',', '"'], Quoted(b.key) + ([':'] + (Print(b.value) + (PrintFields(b.rest) + y))));
      FieldPrefix(a.key, a.value, PrintFields(a.rest) + x, b.key, b.value, PrintFields(b.rest) + y);
      FieldsPrefix(a.rest, x, b.rest, y);
    }
  }

  // ---------------------------------------------------------------- main result

  /** stableStringify gives equal texts exactly to values that differ in the order of keys at most. */
  lemma StableMeans(v: Json, w: Json)
    requires Proper(v) && Proper(w)
    ensures Stable(v) == Stable(w) <==> Mean(v) == Mean(w)
  {
    CanonIsCanonical(v);
    CanonIsCanonical(w);
    CanonForgetsOrderOnly(v, w);
    if Stable(v) == Stable(w) {
      PrintPrefix(Canon(v), "", Canon(w), "");
    }
  }
}
