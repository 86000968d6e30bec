// The request fingerprint of an idempotency key (scan-service.js).
module Fingerprint {
  import opened Wrappers
  import opened Text
  import opened TextLaws
  import opened CanonicalJson
  import opened JsonText

  // the authorised request; an empty text counts as absent
  datatype Request = Request(cloud: string, profile: string, modules: seq<string>,
                             target: Option<string>, ms: Option<string>, subscriptions: seq<string>)

  // ---------------------------------------------------------------- normalizeFingerprintRequest

  function Clean(s: string): string { LowerCase(Trim(s, IsJsSpace)) }

  function Given(x: Option<string>): Option<string> { if x == Some("") then None else x }

  function Lowered(x: Option<string>): Option<string> {
    if x.None? || x.value == "" then None else Some(LowerCase(x.value))
  }

  /** map(Clean).filter(Boolean) */
  function CleanAll(items: seq<string>): (r: seq<string>)
    ensures forall x :: x in r <==> x != "" && Cleans(items, x)
  {
    if items == [] then []
    else
      var rest := CleanAll(items[1..]);
      var r := (if Clean(items[0]) != "" then [Clean(items[0])] else []) + rest;
      assert forall i :: 1 <= i < |items| ==> items[1..][i - 1] == items[i];
      r
  }

  function LowerAll(items: seq<string>): (r: seq<string>)
    ensures |r| == |items| && forall i :: 0 <= i < |r| ==> r[i] == LowerCase(items[i])
  {
    seq(|items|, i requires 0 <= i < |items| => LowerCase(items[i]))
  }

  function Normal(r: Request): Request {
    Request(Clean(r.cloud), Clean(r.profile), SortUnique(CleanAll(r.modules)), Given(r.target), Lowered(r.ms),
            SortUnique(LowerAll(r.subscriptions)))
  }

  // ---------------------------------------------------------------- the JSON text and its hash

  function OptionJson(x: Option<string>): Json { if x.None? then Null else Str(x.value) }

  function ListJson(s: seq<string>): Items { if s == [] then NoItems else Item(Str(s[0]), ListJson(s[1..])) }

  function ToJson(r: Request): Json {
    Obj(Field("cloudProvider", Str(r.cloud),
        Field("scanProfile", Str(r.profile),
        Field("modules", Arr(ListJson(r.modules)),
        Field("azure", AzureJson(r), NoFields)))))
  }

  function AzureJson(r: Request): Json {
    Obj(Field("targetUrl", OptionJson(r.target),
        Field("microsoftTenantId", OptionJson(r.ms),
        Field("subscriptions", Arr(ListJson(r.subscriptions)), NoFields))))
  }

  /** The text that is hashed. */
  function RequestText(r: Request): string { Stable(ToJson(Normal(r))) }

  /** buildRequestFingerprint, over any hash. */
  function RequestFingerprint(sha: string -> string, r: Request): string { sha(RequestText(r)) }

  // ---------------------------------------------------------------- what two requests must share

  /** Some module cleans to x; some subscription is x but for letter case. */
  predicate Cleans(items: seq<string>, x: string) { exists i :: 0 <= i < |items| && Clean(items[i]) == x }

  predicate Lowers(items: seq<string>, x: string) { exists i :: 0 <= i < |items| && LowerCase(items[i]) == x }

  ghost predicate SameCleaned(a: seq<string>, b: seq<string>) {
    forall x :: x != "" ==> (Cleans(a, x) <==> Cleans(b, x))
  }

  ghost predicate SameLowered(a: seq<string>, b: seq<string>) {
    forall x :: Lowers(a, x) <==> Lowers(b, x)
  }

  /**
    * The same request up to letter case, surrounding white space, order
    * and repetition; the target URL is taken literally.
    */
  ghost predicate Alike(r: Request, q: Request) {
    && Clean(r.cloud) == Clean(q.cloud) && Clean(r.profile) == Clean(q.profile)
    && SameCleaned(r.modules, q.modules)
    && Given(r.target) == Given(q.target) && Lowered(r.ms) == Lowered(q.ms)
    && SameLowered(r.subscriptions, q.subscriptions)
  }

  lemma CleanedMembers(a: seq<string>, x: string)
    ensures x in SortUnique(CleanAll(a)) <==> x != "" && Cleans(a, x)
  {
  }

  lemma SameModules(a: seq<string>, b: seq<string>)
    ensures SortUnique(CleanAll(a)) == SortUnique(CleanAll(b)) <==> SameCleaned(a, b)
  {
    var s, t := SortUnique(CleanAll(a)), SortUnique(CleanAll(b));
    forall x ensures (x in s <==> x != "" && Cleans(a, x)) && (x in t <==> x != "" && Cleans(b, x)) {
      CleanedMembers(a, x);
      CleanedMembers(b, x);
    }
    if SameCleaned(a, b) {
      AscendingIsUnique(s, t);
    }
    if s == t {
      forall x | x != "" ensures Cleans(a, x) <==> Cleans(b, x) {
        assert x in s <==> x in t;
      }
    }
  }

  lemma LoweredMembers(a: seq<string>, x: string)
    ensures x in SortUnique(LowerAll(a)) <==> Lowers(a, x)
  {
    if i :| 0 <= i < |a| && LowerCase(a[i]) == x {
      assert LowerAll(a)[i] == x;
    }
  }

  lemma SameSubscriptions(a: seq<string>, b: seq<string>)
    ensures SortUnique(LowerAll(a)) == SortUnique(LowerAll(b)) <==> SameLowered(a, b)
  {
    var s, t := SortUnique(LowerAll(a)), SortUnique(LowerAll(b));
    forall x ensures (x in s <==> Lowers(a, x)) && (x in t <==> Lowers(b, x)) {
      LoweredMembers(a, x);
      LoweredMembers(b, x);
    }
    if SameLowered(a, b) {
      AscendingIsUnique(s, t);
    }
    if s == t {
      forall x ensures Lowers(a, x) <==> Lowers(b, x) {
        assert x in s <==> x in t;
      }
    }
  }

  lemma NormalIffAlike(r: Request, q: Request)
    ensures Normal(r) == Normal(q) <==> Alike(r, q)
  {
    SameModules(r.modules, q.modules);
    SameSubscriptions(r.subscriptions, q.subscriptions);
  }

  // ---------------------------------------------------------------- the text determines the normalised request

  lemma {:induction false} ListIsInjective(a: seq<string>, b: seq<string>)
    requires MeanItems(ListJson(a)) == MeanItems(ListJson(b))
    ensures a == b
  {
    if a != [] && b != [] {
      var x, y := MeanItems(ListJson(a)), MeanItems(ListJson(b));
      assert x[0] == MStr(a[0]) && y[0] == MStr(b[0]);
      assert x[1..] == MeanItems(ListJson(a[1..])) && y[1..] == MeanItems(ListJson(b[1..]));
      ListIsInjective(a[1..], b[1..]);
      assert a == [a[0]] + a[1..] && b == [b[0]] + b[1..];
    }
  }

  lemma {:induction false} ListIsProper(a: seq<string>)
    ensures ProperItems(ListJson(a))
  {
    if a != [] {
      ListIsProper(a[1..]);
    }
  }

  lemma OneField(key: string, value: Json, rest: Fields)
    ensures MeanFields(Field(key, value, rest)) == MeanFields(rest)[key := Mean(value)]
    ensures Keys(Field(key, value, rest)) == {key} + Keys(rest)
    ensures Proper(value) && ProperFields(rest) && key !in Keys(rest) ==> ProperFields(Field(key, value, rest))
  {
  }

  lemma AzureMeans(r: Request)
    ensures Mean(AzureJson(r)).MObj? && Proper(AzureJson(r))
    ensures var m := Mean(AzureJson(r)).fields;
      m.Keys == {"targetUrl", "microsoftTenantId", "subscriptions"}
      && m["targetUrl"] == Mean(OptionJson(r.target)) && m["microsoftTenantId"] == Mean(OptionJson(r.ms))
      && m["subscriptions"] == MArr(MeanItems(ListJson(r.subscriptions)))
  {
    var c := Field("subscriptions", Arr(ListJson(r.subscriptions)), NoFields);
    var b := Field("microsoftTenantId", OptionJson(r.ms), c);
    ListIsProper(r.subscriptions);
    OneField("subscriptions", Arr(ListJson(r.subscriptions)), NoFields);
    OneField("microsoftTenantId", OptionJson(r.ms), c);
    OneField("targetUrl", OptionJson(r.target), b);
    assert AzureJson(r) == Obj(Field("targetUrl", OptionJson(r.target), b));
  }

  lemma RequestMeans(r: Request)
    ensures Mean(ToJson(r)).MObj? && Proper(ToJson(r))
    ensures var m := Mean(ToJson(r)).fields;
      m.Keys == {"cloudProvider", "scanProfile", "modules", "azure"}
      && m["cloudProvider"] == MStr(r.cloud) && m["scanProfile"] == MStr(r.profile)
      && m["modules"] == MArr(MeanItems(ListJson(r.modules))) && m["azure"] == Mean(AzureJson(r))
  {
    var d := Field("azure", AzureJson(r), NoFields);
    var c := Field("modules", Arr(ListJson(r.modules)), d);
    var b := Field("scanProfile", Str(r.profile), c);
    AzureMeans(r);
    ListIsProper(r.modules);
    OneField("azure", AzureJson(r), NoFields);
    OneField("modules", Arr(ListJson(r.modules)), d);
    OneField("scanProfile", Str(r.profile), c);
    OneField("cloudProvider", Str(r.cloud), b);
    assert ToJson(r) == Obj(Field("cloudProvider", Str(r.cloud), b));
  }

  lemma AzureIsInjective(r: Request, q: Request)
    requires Mean(AzureJson(r)) == Mean(AzureJson(q))
    ensures r.target == q.target && r.ms == q.ms && r.subscriptions == q.subscriptions
  {
    AzureMeans(r);
    AzureMeans(q);
    var a, b := Mean(AzureJson(r)).fields, Mean(AzureJson(q)).fields;
    assert a["targetUrl"] == b["targetUrl"] && a["microsoftTenantId"] == b["microsoftTenantId"];
    assert a["subscriptions"] == b["subscriptions"];
    ListIsInjective(r.subscriptions, q.subscriptions);
  }

  lemma MeaningIsInjective(r: Request, q: Request)
    requires Mean(ToJson(r)) == Mean(ToJson(q))
    ensures r == q
  {
    RequestMeans(r);
    RequestMeans(q);
    var a, b := Mean(ToJson(r)).fields, Mean(ToJson(q)).fields;
    assert a["cloudProvider"] == b["cloudProvider"] && a["scanProfile"] == b["scanProfile"];
    assert a["modules"] == b["modules"] && a["azure"] == b["azure"];
    ListIsInjective(r.modules, q.modules);
    AzureIsInjective(r, q);
  }

  /** Different requests have different canonical texts. */
  lemma TextIsInjective(r: Request, q: Request)
    ensures Stable(ToJson(r)) == Stable(ToJson(q)) <==> r == q
  {
    assert Proper(ToJson(r)) by { RequestMeans(r); }
    assert Proper(ToJson(q)) by { RequestMeans(q); }
    StableMeans(ToJson(r), ToJson(q));
    if Stable(ToJson(r)) == Stable(ToJson(q)) {
      MeaningIsInjective(r, q);
    }
  }

  // ---------------------------------------------------------------- main results

  /** Two requests share a fingerprint exactly if they are alike, or the hash collides on their two texts. */
  lemma FingerprintsAgree(sha: string -> string, r: Request, q: Request)
    ensures RequestText(r) == RequestText(q) <==> Alike(r, q)
    ensures RequestFingerprint(sha, r) == RequestFingerprint(sha, q) <==>
      Alike(r, q) || (RequestText(r) != RequestText(q) && sha(RequestText(r)) == sha(RequestText(q)))
  {
    NormalIffAlike(r, q);
    TextIsInjective(Normal(r), Normal(q));
  }

  /** What createScanRequest stores of an authorised request, and buildStoredRequestFingerprint reads back. */
  function Stored(r: Request): Request {
    r.(target := Given(r.target), ms := Given(r.ms))
  }

  /** The fingerprint recomputed from the stored row is the request's. */
  lemma StoredRoundTrip(sha: string -> string, r: Request)
    ensures RequestFingerprint(sha, Stored(r)) == RequestFingerprint(sha, r)
    ensures Alike(Stored(r), r)
  {
    assert Normal(Stored(r)) == Normal(r);
    NormalIffAlike(Stored(r), r);
  }

  // ---------------------------------------------------------------- normalising twice

  predicate Trimmed(s: string) { s == "" || (!IsJsSpace(s[0]) && !IsJsSpace(s[|s| - 1])) }

  lemma {:induction false} TrimRightTrims(s: string)
    ensures var r := TrimRight(s, IsJsSpace); r <= s && (r == "" || !IsJsSpace(r[|r| - 1]))
  {
    if s != "" && IsJsSpace(s[|s| - 1]) {
      TrimRightTrims(s[..|s| - 1]);
    }
  }

  lemma {:induction false} TrimLeftTrims(s: string)
    ensures var r := TrimLeft(s, IsJsSpace); r == "" || !IsJsSpace(r[0])
  {
    if s != "" && IsJsSpace(s[0]) {
      TrimLeftTrims(s[1..]);
    }
  }

  lemma CleanIsClean(s: string)
    ensures Clean(Clean(s)) == Clean(s)
  {
    var left := TrimLeft(s, IsJsSpace);
    TrimLeftTrims(s);
    TrimRightTrims(left);
    var t := Trim(s, IsJsSpace);
    assert Trimmed(t);
    forall c: char ensures LowerChar(LowerChar(c)) == LowerChar(c) && (IsJsSpace(LowerChar(c)) <==> IsJsSpace(c)) {}
    assert Trimmed(LowerCase(t));
    assert Trim(LowerCase(t), IsJsSpace) == LowerCase(t);
    assert LowerCase(LowerCase(t)) == LowerCase(t);
  }

  /** Normalising is idempotent, so a normalised request has the same fingerprint. */
  lemma NormalIsNormal(r: Request)
    ensures Normal(Normal(r)) == Normal(r)
  {
    var n := Normal(r);
    CleanIsClean(r.cloud);
    CleanIsClean(r.profile);
    assert SameCleaned(n.modules, r.modules) by { CleanedModules(r.modules); }
    assert SameLowered(n.subscriptions, r.subscriptions) by { LoweredSubscriptions(r.subscriptions); }
    assert Lowered(n.ms) == n.ms by { if n.ms.Some? { LowerTwice(r.ms.value); } }
    NormalIffAlike(n, r);
  }

  lemma LowerTwice(s: string)
    ensures LowerCase(LowerCase(s)) == LowerCase(s)
  {
  }

  lemma CleanedModules(items: seq<string>)
    ensures SameCleaned(SortUnique(CleanAll(items)), items)
  {
    var s := SortUnique(CleanAll(items));
    forall x | x != "" ensures Cleans(s, x) <==> Cleans(items, x) {
      if i :| 0 <= i < |s| && Clean(s[i]) == x {
        CleanedMembers(items, s[i]);
        var j :| 0 <= j < |items| && Clean(items[j]) == s[i];
        CleanIsClean(items[j]);
      }
      if j :| 0 <= j < |items| && Clean(items[j]) == x {
        CleanedMembers(items, x);
        var i :| 0 <= i < |s| && s[i] == x;
        CleanIsClean(items[j]);
      }
    }
  }

  lemma LoweredSubscriptions(items: seq<string>)
    ensures SameLowered(SortUnique(LowerAll(items)), items)
  {
    var s := SortUnique(LowerAll(items));
    forall x ensures Lowers(s, x) <==> Lowers(items, x) {
      if i :| 0 <= i < |s| && LowerCase(s[i]) == x {
        LoweredMembers(items, s[i]);
        var j :| 0 <= j < |items| && LowerCase(items[j]) == s[i];
        LowerTwice(items[j]);
      }
      if j :| 0 <= j < |items| && LowerCase(items[j]) == x {
        LoweredMembers(items, x);
        var i :| 0 <= i < |s| && s[i] == x;
        LowerTwice(items[j]);
      }
    }
  }

  // ---------------------------------------------------------------- what spelling matters

  function RespellAll(items: seq<string>, before: string, after: string): (r: seq<string>)
    ensures |r| == |items| && forall i :: 0 <= i < |r| ==> r[i] == before + UpperCase(items[i]) + after
  {
    seq(|items|, i requires 0 <= i < |items| => before + UpperCase(items[i]) + after)
  }

  /** White space around provider, profile and modules; capitals there and in the identifiers. */
  function Respelled(r: Request, before: string, after: string): Request {
    Request(before + UpperCase(r.cloud) + after, before + UpperCase(r.profile) + after,
            RespellAll(r.modules, before, after), r.target,
            if r.ms.Some? then Some(UpperCase(r.ms.value)) else None,
            RespellAll(r.subscriptions, "", ""))
  }

  /** None of this changes the text that is hashed. */
  lemma SpellingDoesNotMatter(r: Request, before: string, after: string)
    requires AllWhite(before) && AllWhite(after)
    ensures RequestText(Respelled(r, before, after)) == RequestText(r)
  {
    var q := Respelled(r, before, after);
    forall s ensures Clean(before + UpperCase(s) + after) == Clean(s) {
      PaddingAndCaseVanish(before, s, after);
    }
    assert SameCleaned(q.modules, r.modules) by {
      forall x ensures Cleans(q.modules, x) <==> Cleans(r.modules, x) {
        assert forall i :: 0 <= i < |r.modules| ==> Clean(q.modules[i]) == Clean(r.modules[i]);
      }
    }
    RespelledSubscriptions(r.subscriptions);
    if r.ms.Some? {
      CaseFolds(r.ms.value, "");
    }
    FingerprintsAgree(_ => "", q, r);
  }

  lemma RespelledSubscriptions(items: seq<string>)
    ensures SameLowered(RespellAll(items, "", ""), items)
  {
    var q := RespellAll(items, "", "");
    forall i | 0 <= i < |items| ensures LowerCase(q[i]) == LowerCase(items[i]) {
      assert q[i] == UpperCase(items[i]);
      CaseFolds(items[i], "");
    }
    forall x ensures Lowers(q, x) <==> Lowers(items, x) {
    }
  }

  /** No capitals and no white space around it. */
  predicate IsPlain(s: string) { !HasCapital(s) && (s == "" || (s[0] !in WHITE && s[|s| - 1] !in WHITE)) }

  lemma PlainIsClean(s: string)
    requires IsPlain(s)
    ensures Clean(s) == s
  {
    assert "" + s + "" == s;
    TrimRemovesPadding("", s, "");
    CaseFolds(s, s);
  }

  /** A request spelled plainly, with ascending lists and no empty text, is hashed as it stands. */
  lemma PlainRequestsStand(r: Request)
    requires IsPlain(r.cloud) && IsPlain(r.profile) && r.target != Some("") && r.ms != Some("")
    requires r.ms.Some? ==> !HasCapital(r.ms.value)
    requires Ascending(r.modules) && forall m :: m in r.modules ==> IsPlain(m) && m != ""
    requires Ascending(r.subscriptions) && forall s :: s in r.subscriptions ==> !HasCapital(s)
    ensures Normal(r) == r && RequestText(r) == Stable(ToJson(r))
  {
    PlainIsClean(r.cloud);
    PlainIsClean(r.profile);
    PlainModules(r.modules);
    PlainSubscriptions(r.subscriptions);
    if r.ms.Some? {
      CaseFolds(r.ms.value, "");
    }
  }

  lemma PlainModules(modules: seq<string>)
    requires Ascending(modules) && forall m :: m in modules ==> IsPlain(m) && m != ""
    ensures SortUnique(CleanAll(modules)) == modules
  {
    forall x ensures x in SortUnique(CleanAll(modules)) <==> x in modules {
      if x in modules {
        var i :| 0 <= i < |modules| && modules[i] == x;
        PlainIsClean(modules[i]);
      }
      if Cleans(modules, x) {
        var i :| 0 <= i < |modules| && Clean(modules[i]) == x;
        PlainIsClean(modules[i]);
      }
    }
    AscendingIsUnique(SortUnique(CleanAll(modules)), modules);
  }

  lemma PlainSubscriptions(subscriptions: seq<string>)
    requires Ascending(subscriptions) && forall s :: s in subscriptions ==> !HasCapital(s)
    ensures SortUnique(LowerAll(subscriptions)) == subscriptions
  {
    forall i | 0 <= i < |subscriptions| ensures LowerCase(subscriptions[i]) == subscriptions[i] {
      assert subscriptions[i] in subscriptions;
      CaseFolds(subscriptions[i], "");
    }
    assert LowerAll(subscriptions) == subscriptions;
    AscendingIsUnique(SortUnique(subscriptions), subscriptions);
  }
}
