// A reader for the texts that JSON.stringify prints, after RFC 8259: what is printed can be read back.
module JsonReader {
  import opened Wrappers
  import opened Text
  import opened CanonicalJson
  import opened JsonText

  // ---------------------------------------------------------------- quoted texts (section 7 of RFC 8259)

  function HexValue(c: char): Option<nat> {
    if '0' <= c <= '9' then Some(c as nat - '0' as nat)
    else if 'a' <= c <= 'f' then Some(c as nat - 'a' as nat + 10)
    else if 'A' <= c <= 'F' then Some(c as nat - 'A' as nat + 10)
    else None
  }

  /** Four hexadecimal digits; the halves of surrogate pairs, which are never printed, are not read. */
  function HexCode(s: string): Option<char>
    requires |s| == 4
  {
    var a, b, c, d := HexValue(s[0]), HexValue(s[1]), HexValue(s[2]), HexValue(s[3]);
    if a.None? || b.None? || c.None? || d.None? then None
    else
      var code := a.value * 4096 + b.value * 256 + c.value * 16 + d.value;
      if code < 0xd800 || 0xe000 <= code < 0x10000 then Some(code as char) else None
  }

  /** The character after a backslash. */
  function Unescape(c: char): Option<char> {
    match c
    case '"' => Some('"')
    case '\\' => Some('\\')
    case '/' => Some('/')
    case 'b' => Some('\U{8}')
    case 'f' => Some('\U{c}')
    case 'n' => Some('\n')
    case 'r' => Some('\r')
    case 't' => Some('\t')
    case _ => None
  }

  /** One character of a quoted text, and what follows it. */
  function ReadChar(s: string): (r: Option<(char, string)>)
    ensures r.Some? ==> |r.value.1| < |s|
  {
    if s == "" || s[0] == '"' || (s[0] as int) < 32 then None
    else if s[0] != '\\' then Some((s[0], s[1..]))
    else if |s| < 2 then None
    else if s[1] == 'u' then
      if |s| < 6 || HexCode(s[2..6]).None? then None else Some((HexCode(s[2..6]).value, s[6..]))
    else if Unescape(s[1]).None? then None
    else Some((Unescape(s[1]).value, s[2..]))
  }

  /** A text after its opening quote. */
  function ReadQuoted(s: string): (r: Option<(string, string)>)
    ensures r.Some? ==> |r.value.1| < |s|
    decreases |s|
  {
    if s != "" && s[0] == '"' then Some(("", s[1..]))
    else
      var c := ReadChar(s);
      if c.None? then None
      else
        var rest := ReadQuoted(c.value.1);
        if rest.None? then None else Some(([c.value.0] + rest.value.0, rest.value.1))
  }

  // ---------------------------------------------------------------- values (sections 3 to 5 of RFC 8259)

  function ReadWord(s: string, word: string, v: Json): Option<(Json, string)> {
    if word <= s then Some((v, s[|word|..])) else None
  }

  function ReadValue(s: string): (r: Option<(Json, string)>)
    ensures r.Some? ==> |r.value.1| < |s|
    decreases |s|, 0
  {
    if s == "" then None
    else if s[0] == 'n' then ReadWord(s, "null", Null)
    else if s[0] == 't' then ReadWord(s, "true", Bool(true))
    else if s[0] == 'f' then ReadWord(s, "false", Bool(false))
    else if s[0] == '"' then
      var text := ReadQuoted(s[1..]);
      if text.None? then None else Some((Str(text.value.0), text.value.1))
    else if s[0] == '[' then ReadArray(s[1..])
    else if s[0] == '{' then ReadObject(s[1..])
    else None
  }

  /** After the opening bracket. */
  function ReadArray(s: string): (r: Option<(Json, string)>)
    ensures r.Some? ==> |r.value.1| < |s|
    decreases |s|, 1
  {
    if s != "" && s[0] == ']' then Some((Arr(NoItems), s[1..]))
    else
      var head := ReadValue(s);
      if head.None? then None
      else
        var tail := ReadItems(head.value.1);
        if tail.None? then None else Some((Arr(Item(head.value.0, tail.value.0)), tail.value.1))
  }

  function ReadItems(s: string): (r: Option<(Items, string)>)
    ensures r.Some? ==> |r.value.1| < |s|
    decreases |s|, 2
  {
    if s == "" then None
    else if s[0] == ']' then Some((NoItems, s[1..]))
    else if s[0] != ',' then None
    else
      var head := ReadValue(s[1..]);
      if head.None? then None
      else
        var tail := ReadItems(head.value.1);
        if tail.None? then None else Some((Item(head.value.0, tail.value.0), tail.value.1))
  }

  /** After the opening brace. */
  function ReadObject(s: string): (r: Option<(Json, string)>)
    ensures r.Some? ==> |r.value.1| < |s|
    decreases |s|, 1
  {
    if s != "" && s[0] == '}' then Some((Obj(NoFields), s[1..]))
    else if s == "" || s[0] != '"' then None
    else
      var f := ReadField(s[1..]);
      if f.None? then None
      else
        var rest := ReadFields(f.value.2);
        if rest.None? then None else Some((Obj(Field(f.value.0, f.value.1, rest.value.0)), rest.value.1))
  }

  /** A name after its opening quote, a colon and a value. */
  function ReadField(s: string): (r: Option<(string, Json, string)>)
    ensures r.Some? ==> |r.value.2| < |s|
    decreases |s|, 0
  {
    var key := ReadQuoted(s);
    if key.None? || key.value.1 == "" || key.value.1[0] != ':' then None
    else
      var value := ReadValue(key.value.1[1..]);
      if value.None? then None else Some((key.value.0, value.value.0, value.value.1))
  }

  function ReadFields(s: string): (r: Option<(Fields, string)>)
    ensures r.Some? ==> |r.value.1| < |s|
    decreases |s|, 2
  {
    if s == "" then None
    else if s[0] == '}' then Some((NoFields, s[1..]))
    else if |s| < 2 || s[0] != ',' || s[1] != '"' then None
    else
      var f := ReadField(s[2..]);
      if f.None? then None
      else
        var rest := ReadFields(f.value.2);
        if rest.None? then None else Some((Field(f.value.0, f.value.1, rest.value.0), rest.value.1))
  }

  // ---------------------------------------------------------------- what is printed is read back

  lemma HexDigitValue(n: nat)
    requires n < 16
    ensures HexValue(HEX[n]) == Some(n)
  {
  }

  lemma EscapeReads(c: char, x: string)
    ensures ReadChar(Escape(c) + x) == Some((c, x)) && Escape(c) != "" && Escape(c)[0] != '"'
  {
    var e := Escape(c);
    var s := e + x;
    assert s[|e|..] == x;
    if |e| == 6 {
      HexDigitValue(0);
      HexDigitValue(c as int / 16);
      HexDigitValue(c as int % 16);
      assert s[2..6] == e[2..] == ['0', '0', HEX[c as int / 16], HEX[c as int % 16]];
      assert c as int == c as int / 16 * 16 + c as int % 16;
      assert HexCode(s[2..6]) == Some(c);
    }
  }

  lemma {:induction false} QuotedReads(t: string, x: string)
    ensures ReadQuoted(Quoted(t) + x) == Some((t, x))
  {
    if t == "" {
      assert (Quoted(t) + x)[1..] == x;
    } else {
      var rest := Quoted(t[1..]) + x;
      assert Quoted(t) + x == Escape(t[0]) + rest;
      EscapeReads(t[0], rest);
      QuotedReads(t[1..], x);
      assert t == [t[0]] + t[1..];
    }
  }

  lemma WordReads(v: Json, x: string)
    requires v.Null? || v.Bool?
    ensures ReadValue(Print(v) + x) == Some((v, x))
  {
    assert (Print(v) + x)[|Print(v)|..] == x;
  }

  lemma TextReads(t: string, x: string)
    ensures ReadValue(Print(Str(t)) + x) == Some((Str(t), x))
  {
    assert (Print(Str(t)) + x)[1..] == Quoted(t) + x;
    QuotedReads(t, x);
  }

  lemma {:induction false} ValueReads(v: Json, x: string)
    requires Canonical(v)
    ensures ReadValue(Print(v) + x) == Some((v, x))
    decreases v, 0
  {
    match v
    case Null => WordReads(v, x);
    case Bool(b) => WordReads(v, x);
    case Str(t) => TextReads(t, x);
    case Arr(items) =>
      ArrayReads(items, x);
    case Obj(fields) =>
      ObjectReads(fields, x);
  }

  lemma {:induction false} ArrayReads(items: Items, x: string)
    requires CanonicalItems(items)
    ensures ReadArray((Print(Arr(items)) + x)[1..]) == Some((Arr(items), x))
    decreases items, 1
  {
    var s := (Print(Arr(items)) + x)[1..];
    if items.NoItems? {
      assert s == "]" + x && s[1..] == x;
    } else {
      var rest := PrintItems(items.tail) + x;
      assert s == Print(items.head) + rest;
      ValueReads(items.head, rest);
      ValueStarts(items.head);
      ItemsRead(items.tail, x);
    }
  }

  /** No value begins like the end of a list. */
  lemma ValueStarts(v: Json)
    ensures Print(v) != "" && Print(v)[0] != ']'
  {
  }

  lemma {:induction false} ItemsRead(items: Items, x: string)
    requires CanonicalItems(items)
    ensures ReadItems(PrintItems(items) + x) == Some((items, x))
    decreases items, 1
  {
    var s := PrintItems(items) + x;
    if items.NoItems? {
      assert s[1..] == x;
    } else {
      var rest := PrintItems(items.tail) + x;
      assert s[1..] == Print(items.head) + rest;
      ValueReads(items.head, rest);
      ItemsRead(items.tail, x);
    }
  }

  /** A name after its opening quote, its value, and what follows. */
  function NameAndValue(f: Fields, rest: string): string
    requires f.Field?
  {
    Quoted(f.key) + ([':'] + (Print(f.value) + rest))
  }

  lemma FieldsPrinted(f: Fields, x: string)
    requires f.Field?
    ensures PrintFields(f) + x == [',', '"'] + NameAndValue(f, PrintFields(f.rest) + x)
    ensures Print(Obj(f)) + x == ['{', '"'] + NameAndValue(f, PrintFields(f.rest) + x)
  {
    var key, value, rest := Quoted(f.key), Print(f.value), PrintFields(f.rest);
    Regroup([',', '"'], key, value, rest, x);
    Regroup(['{', '"'], key, value, rest, x);
  }

  lemma AfterBrace(f: Fields, x: string)
    requires f.Field?
    ensures (Print(Obj(f)) + x)[1..] == ['"'] + NameAndValue(f, PrintFields(f.rest) + x)
  {
    var named := NameAndValue(f, PrintFields(f.rest) + x);
    FieldsPrinted(f, x);
    assert (['{', '"'] + named)[1..] == ['"'] + named;
  }

  lemma Regroup(start: string, key: string, value: string, rest: string, x: string)
    ensures start + key + [':'] + value + rest + x == start + (key + ([':'] + (value + (rest + x))))
  {
  }

  lemma {:induction false} FieldReads(f: Fields, x: string)
    requires f.Field? && Canonical(f.value)
    ensures ReadField(NameAndValue(f, x)) == Some((f.key, f.value, x))
    decreases f, 0
  {
    var rest := [':'] + (Print(f.value) + x);
    assert rest[1..] == Print(f.value) + x;
    QuotedReads(f.key, rest);
    ValueReads(f.value, x);
  }

  lemma {:induction false} ObjectReads(f: Fields, x: string)
    requires CanonicalFields(f)
    ensures ReadObject((Print(Obj(f)) + x)[1..]) == Some((Obj(f), x))
    decreases f, 1
  {
    if f.NoFields? {
      var s := (Print(Obj(f)) + x)[1..];
      assert s == "}" + x && s[1..] == x;
    } else {
      var rest := PrintFields(f.rest) + x;
      AfterBrace(f, x);
      FieldReads(f, rest);
      FieldsRead(f.rest, x);
      ObjectFromParts(NameAndValue(f, rest), f, rest, x);
    }
  }

  lemma ObjectFromParts(s: string, f: Fields, rest: string, x: string)
    requires f.Field? && ReadField(s) == Some((f.key, f.value, rest)) && ReadFields(rest) == Some((f.rest, x))
    ensures ReadObject(['"'] + s) == Some((Obj(f), x))
  {
    assert (['"'] + s)[1..] == s;
  }

  lemma {:induction false} FieldsRead(f: Fields, x: string)
    requires CanonicalFields(f)
    ensures ReadFields(PrintFields(f) + x) == Some((f, x))
    decreases f, 1
  {
    var s := PrintFields(f) + x;
    if f.NoFields? {
      assert s[1..] == x;
    } else {
      FieldsPrinted(f, x);
      var rest := PrintFields(f.rest) + x;
      assert s[2..] == NameAndValue(f, rest);
      FieldReads(f, rest);
      FieldsRead(f.rest, x);
    }
  }

  /** Reading the stable text gives the canonical value: everything the value means, and its names in their order. */
  lemma StableReadsBack(v: Json)
    requires Proper(v)
    ensures ReadValue(Stable(v)) == Some((Canon(v), ""))
  {
    CanonIsCanonical(v);
    ValueReads(Canon(v), "");
    assert Stable(v) + "" == Stable(v);
  }
}
