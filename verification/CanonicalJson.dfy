// canonical-json.js: canonicalize, and the text that JSON.stringify makes of the result.
module CanonicalJson {
  import opened Text

  // a JavaScript value made of texts, booleans, arrays and objects; an object's fields are in property order
  datatype Json = Null | Undefined | Bool(b: bool) | Str(s: string) | Arr(items: Items) | Obj(fields: Fields)

  datatype Items = NoItems | Item(head: Json, tail: Items)

  datatype Fields = NoFields | Field(key: string, value: Json, rest: Fields)

  function Keys(f: Fields): set<string> { if f.NoFields? then {} else {f.key} + Keys(f.rest) }

  // property names are distinct
  predicate Proper(v: Json) {
    match v
    case Arr(items) => ProperItems(items)
    case Obj(fields) => ProperFields(fields)
    case _ => true
  }

  predicate ProperItems(items: Items) { items.NoItems? || (Proper(items.head) && ProperItems(items.tail)) }

  predicate ProperFields(f: Fields) { f.NoFields?
      || (Proper(f.value) && f.key !in Keys(f.rest) && ProperFields(f.rest)) }

  // ---------------------------------------------------------------- the order of properties

  /** A canonical array index, which JavaScript lists before all other names, in numeric order. */
  predicate IsIndex(s: string) {
    s != "" && (forall i :: 0 <= i < |s| ==> '0' <= s[i] <= '9') && (s[0] == '0' ==> |s| == 1)
    && (|s| < 10 || (|s| == 10 && !Less("4294967294", s)))
  }

  /** The property order of an object whose names were added in sorted order. */
  predicate Before(a: string, b: string) {
    if IsIndex(a) && IsIndex(b) then |a| < |b| || (|a| == |b| && Less(a, b))
    else if IsIndex(a) || IsIndex(b) then IsIndex(a)
    else Less(a, b)
  }

  lemma BeforeIsTotal(a: string, b: string)
    ensures Before(a, b) || a == b || Before(b, a)
    ensures Before(a, b) ==> a != b && !Before(b, a)
  {
    LessIsTotal(a, b);
    LessIsStrict(a, b);
  }

  lemma BeforeIsTransitive(a: string, b: string, c: string)
    requires Before(a, b) && Before(b, c)
    ensures Before(a, c)
  {
    if Less(a, b) && Less(b, c) {
      LessIsTransitive(a, b, c);
    }
  }

  // ---------------------------------------------------------------- canonicalize

  function Insert(f: Fields, key: string, value: Json): (r: Fields)
    ensures Keys(r) == Keys(f) + {key}
    ensures r.Field? && (r.key == key || (f.Field? && r.key == f.key))
  {
    if f.NoFields? || Before(key, f.key) then Field(key, value, f)
    else Field(f.key, f.value, Insert(f.rest, key, value))
  }

  function Canon(v: Json): Json {
    match v
    case Undefined => Null
    case Arr(items) => Arr(CanonItems(items))
    case Obj(fields) => Obj(CanonFields(fields))
    case _ => v
  }

  function CanonItems(items: Items): Items {
    if items.NoItems? then NoItems else Item(Canon(items.head), CanonItems(items.tail))
  }

  function CanonFields(f: Fields): (r: Fields)
    ensures Keys(r) == Keys(f)
  {
    if f.NoFields? then NoFields else Insert(CanonFields(f.rest), f.key, Canon(f.value))
  }

  // ---------------------------------------------------------------- what a value means

  // objects are unordered (section 4 of RFC 8259); an undefined value counts as null
  datatype Meaning = MNull | MBool(b: bool) | MStr(s: string) | MArr(items: seq<Meaning>)
      | MObj(fields: map<string, Meaning>)

  function Mean(v: Json): Meaning {
    match v
    case Null => MNull
    case Undefined => MNull
    case Bool(b) => MBool(b)
    case Str(s) => MStr(s)
    case Arr(items) => MArr(MeanItems(items))
    case Obj(fields) => MObj(MeanFields(fields))
  }

  function MeanItems(items: Items): seq<Meaning> {
    if items.NoItems? then [] else [Mean(items.head)] + MeanItems(items.tail)
  }

  function MeanFields(f: Fields): (r: map<string, Meaning>)
    ensures r.Keys == Keys(f)
  {
    if f.NoFields? then map[] else MeanFields(f.rest)[f.key := Mean(f.value)]
  }

  // ---------------------------------------------------------------- canonical values

  predicate Canonical(v: Json) {
    match v
    case Undefined => false
    case Arr(items) => CanonicalItems(items)
    case Obj(fields) => CanonicalFields(fields)
    case _ => true
  }

  predicate CanonicalItems(items: Items) { items.NoItems? || (Canonical(items.head) && CanonicalItems(items.tail)) }

  predicate CanonicalFields(f: Fields) {
    f.NoFields? || (Canonical(f.value) && CanonicalFields(f.rest) && (f.rest.Field? ==> Before(f.key, f.rest.key)))
  }

  lemma {:induction false} FirstIsBefore(f: Fields, key: string)
    requires CanonicalFields(f) && f.Field? && key in Keys(f.rest)
    ensures Before(f.key, key)
  {
    if key != f.rest.key {
      FirstIsBefore(f.rest, key);
      BeforeIsTransitive(f.key, f.rest.key, key);
    }
  }

  lemma {:induction false} InsertKeepsOrder(f: Fields, key: string, value: Json)
    requires CanonicalFields(f) && Canonical(value) && key !in Keys(f)
    ensures CanonicalFields(Insert(f, key, value))
  {
    if f.Field? {
      BeforeIsTotal(key, f.key);
      if !Before(key, f.key) {
        InsertKeepsOrder(f.rest, key, value);
      }
    }
  }

  lemma UpdatesCommute(m: map<string, Meaning>, k: string, x: Meaning, k': string, x': Meaning)
    requires k != k'
    ensures m[k := x][k' := x'] == m[k' := x'][k := x]
  {
  }

  lemma {:induction false} InsertMeans(f: Fields, key: string, value: Json)
    requires key !in Keys(f)
    ensures MeanFields(Insert(f, key, value)) == MeanFields(f)[key := Mean(value)]
  {
    if f.NoFields? || Before(key, f.key) {
      assert Insert(f, key, value) == Field(key, value, f);
    } else {
      var rest := Insert(f.rest, key, value);
      assert Insert(f, key, value) == Field(f.key, f.value, rest);
      InsertMeans(f.rest, key, value);
      UpdatesCommute(MeanFields(f.rest), key, Mean(value), f.key, Mean(f.value));
    }
  }

  lemma {:induction false} CanonIsCanonical(v: Json)
    requires Proper(v)
    ensures Canonical(Canon(v)) && Mean(Canon(v)) == Mean(v)
  {
    match v
    case Arr(items) => CanonItemsAreCanonical(items);
    case Obj(fields) => CanonFieldsAreCanonical(fields);
    case _ =>
  }

  lemma {:induction false} CanonItemsAreCanonical(items: Items)
    requires ProperItems(items)
    ensures CanonicalItems(CanonItems(items)) && MeanItems(CanonItems(items)) == MeanItems(items)
  {
    if items.Item? {
      CanonIsCanonical(items.head);
      CanonItemsAreCanonical(items.tail);
    }
  }

  lemma {:induction false} CanonFieldsAreCanonical(f: Fields)
    requires ProperFields(f)
    ensures CanonicalFields(CanonFields(f)) && MeanFields(CanonFields(f)) == MeanFields(f)
  {
    if f.Field? {
      CanonIsCanonical(f.value);
      CanonFieldsAreCanonical(f.rest);
      InsertKeepsOrder(CanonFields(f.rest), f.key, Canon(f.value));
      InsertMeans(CanonFields(f.rest), f.key, Canon(f.value));
    }
  }

  /** A meaning has one canonical value. */
  lemma {:induction false} CanonicalIsUnique(v: Json, w: Json)
    requires Canonical(v) && Canonical(w) && Mean(v) == Mean(w)
    ensures v == w
  {
    match v
    case Arr(items) => CanonicalItemsAreUnique(items, w.items);
    case Obj(fields) => CanonicalFieldsAreUnique(fields, w.fields);
    case _ =>
  }

  lemma {:induction false} CanonicalItemsAreUnique(a: Items, b: Items)
    requires CanonicalItems(a) && CanonicalItems(b) && MeanItems(a) == MeanItems(b)
    ensures a == b
  {
    if a.Item? && b.Item? {
      assert MeanItems(a)[0] == MeanItems(b)[0] && MeanItems(a)[1..] == MeanItems(b)[1..];
      CanonicalIsUnique(a.head, b.head);
      CanonicalItemsAreUnique(a.tail, b.tail);
    }
  }

  lemma SmallestFirst(a: Fields, b: Fields)
    requires CanonicalFields(a) && CanonicalFields(b) && a.Field? && b.Field? && Keys(a) == Keys(b)
    ensures a.key == b.key && Keys(a.rest) == Keys(b.rest)
    ensures a.key !in Keys(a.rest) && b.key !in Keys(b.rest)
  {
    BeforeIsTotal(a.key, b.key);
    assert a.key in Keys(b) && b.key in Keys(a);
    if a.key != b.key {
      FirstIsBefore(a, b.key);
      FirstIsBefore(b, a.key);
    }
    NotAgain(a);
    NotAgain(b);
    assert Keys(a.rest) == Keys(a) - {a.key} && Keys(b.rest) == Keys(b) - {b.key};
  }

  lemma NotAgain(f: Fields)
    requires CanonicalFields(f) && f.Field?
    ensures f.key !in Keys(f.rest)
  {
    BeforeIsTotal(f.key, f.key);
    if f.key in Keys(f.rest) {
      FirstIsBefore(f, f.key);
    }
  }

  lemma NoKeys(f: Fields)
    ensures Keys(f) == {} <==> f.NoFields?
  {
    if f.Field? {
      assert f.key in Keys(f);
    }
  }

  lemma {:induction false} CanonicalFieldsAreUnique(a: Fields, b: Fields)
    requires CanonicalFields(a) && CanonicalFields(b) && MeanFields(a) == MeanFields(b)
    ensures a == b
  {
    assert Keys(a) == MeanFields(a).Keys == Keys(b);
    if a.Field? && b.Field? {
      SmallestFirst(a, b);
      assert Mean(a.value) == MeanFields(a)[a.key] == MeanFields(b)[b.key] == Mean(b.value);
      CanonicalIsUnique(a.value, b.value);
      assert MeanFields(a.rest) == MeanFields(a) - {a.key} && MeanFields(b.rest) == MeanFields(b) - {b.key};
      CanonicalFieldsAreUnique(a.rest, b.rest);
    } else {
      NoKeys(a);
      NoKeys(b);
    }
  }

  /** Independent of the order of keys, and of nothing else. */
  lemma CanonForgetsOrderOnly(v: Json, w: Json)
    requires Proper(v) && Proper(w)
    ensures Canon(v) == Canon(w) <==> Mean(v) == Mean(w)
  {
    CanonIsCanonical(v);
    CanonIsCanonical(w);
    if Mean(v) == Mean(w) {
      CanonicalIsUnique(Canon(v), Canon(w));
    }
  }

  lemma {:induction false} CanonicalIsProper(v: Json)
    requires Canonical(v)
    ensures Proper(v)
  {
    match v
    case Arr(items) => CanonicalItemsAreProper(items);
    case Obj(fields) => CanonicalFieldsAreProper(fields);
    case _ =>
  }

  lemma {:induction false} CanonicalItemsAreProper(items: Items)
    requires CanonicalItems(items)
    ensures ProperItems(items)
  {
    if items.Item? {
      CanonicalIsProper(items.head);
      CanonicalItemsAreProper(items.tail);
    }
  }

  lemma {:induction false} CanonicalFieldsAreProper(f: Fields)
    requires CanonicalFields(f)
    ensures ProperFields(f)
  {
    if f.Field? {
      CanonicalIsProper(f.value);
      CanonicalFieldsAreProper(f.rest);
      NotAgain(f);
    }
  }

  lemma CanonIsIdempotent(v: Json)
    requires Proper(v)
    ensures Canon(Canon(v)) == Canon(v)
  {
    CanonIsCanonical(v);
    CanonicalIsProper(Canon(v));
    CanonForgetsOrderOnly(Canon(v), v);
  }
}
