// Strings as JavaScript's sort() orders them, and the sorted list of a set of strings.
module Text {
  import opened Wrappers

  function LowerChar(c: char): char {
    if 'A' <= c <= 'Z' then c - 'A' + 'a' else c
  }

  function UpperChar(c: char): char {
    if 'a' <= c <= 'z' then c - 'a' + 'A' else c
  }

  function UpperCase(s: string): (r: string)
    ensures |r| == |s|
  {
    seq(|s|, i requires 0 <= i < |s| => UpperChar(s[i]))
  }

  function LowerCase(s: string): (r: string)
    ensures |r| == |s|
  {
    seq(|s|, i requires 0 <= i < |s| => LowerChar(s[i]))
  }

  function TrimLeft(s: string, space: char -> bool): string {
    if s != "" && space(s[0]) then TrimLeft(s[1..], space) else s
  }

  function TrimRight(s: string, space: char -> bool): string {
    if s != "" && space(s[|s| - 1]) then TrimRight(s[..|s| - 1], space) else s
  }

  function Trim(s: string, space: char -> bool): string { TrimRight(TrimLeft(s, space), space) }

  /** What JavaScript's trim() removes: its white space and line terminators. */
  predicate IsJsSpace(c: char) {
    var n := c as int;
    9 <= n <= 13 || n == 32 || n == 0xa0 || n == 0x1680 || 0x2000 <= n <= 0x200a
    || n == 0x2028 || n == 0x2029 || n == 0x202f || n == 0x205f || n == 0x3000 || n == 0xfeff
  }

  const HEX := "0123456789abcdef"

  lemma HexDigits(i: nat, j: nat)
    requires i < 16 && j < 16 && HEX[i] == HEX[j]
    ensures i == j
  {
    assert forall k :: 0 <= k < 10 ==> HEX[k] as int == '0' as int + k;
    assert forall k :: 10 <= k < 16 ==> HEX[k] as int == 'a' as int + k - 10;
  }

  predicate IsUuid(s: string) {
    && |s| == 36
    && (forall i :: 0 <= i < 36 ==> if i in {8, 13, 18, 23} then s[i] == '-' else s[i] in HEX)
    && s[14] in "12345" && s[19] in "89ab"
  }

  /** normalizeUuid and assertTenantId */
  function Normalized(raw: string): (r: Option<string>)
    ensures r.Some? ==> IsUuid(r.value)
  {
    var s := LowerCase(Trim(raw, IsJsSpace));
    if IsUuid(s) then Some(s) else None
  }

  /** A natural number in decimal digits. */
  function Decimal(n: nat): string {
    if n < 10 then [('0' as int + n) as char] else Decimal(n / 10) + [('0' as int + n % 10) as char]
  }

  /** Lexicographic order by character code. */
  predicate Less(a: string, b: string) {
    b != [] && (a == [] || a[0] < b[0] || (a[0] == b[0] && Less(a[1..], b[1..])))
  }

  lemma {:induction false} LessIsTotal(a: string, b: string)
    ensures Less(a, b) || a == b || Less(b, a)
  {
    if a != [] && b != [] && a[0] == b[0] {
      LessIsTotal(a[1..], b[1..]);
      if a[1..] == b[1..] {
        assert a == [a[0]] + a[1..] && b == [b[0]] + b[1..];
      }
    }
  }

  lemma {:induction false} LessIsStrict(a: string, b: string)
    ensures Less(a, b) ==> a != b && !Less(b, a)
  {
    if a != [] && b != [] {
      LessIsStrict(a[1..], b[1..]);
    }
  }

  lemma {:induction false} LessIsTransitive(a: string, b: string, c: string)
    requires Less(a, b) && Less(b, c)
    ensures Less(a, c)
  {
    if a != [] && a[0] == b[0] && b[0] == c[0] {
      LessIsTransitive(a[1..], b[1..], c[1..]);
    }
  }

  predicate Ascending(s: seq<string>) {
    forall i, j :: 0 <= i < j < |s| ==> Less(s[i], s[j])
  }

  function Insert(s: seq<string>, x: string): (r: seq<string>)
    requires Ascending(s)
    ensures Ascending(r)
    ensures forall y :: y in r <==> y == x || y in s
  {
    if s == [] then [x]
    else if x == s[0] then s
    else if Less(x, s[0]) then
      assert Ascending([x] + s) by { SmallerFirst(x, s); }
      [x] + s
    else
      assert Ascending(s[1..]);
      var rest := Insert(s[1..], x);
      assert Ascending([s[0]] + rest) by {
        LessIsTotal(x, s[0]);
        assert forall y :: y in rest ==> Less(s[0], y);
      }
      assert s == [s[0]] + s[1..];
      [s[0]] + rest
  }

  lemma SmallerFirst(x: string, s: seq<string>)
    requires Ascending(s) && s != [] && Less(x, s[0])
    ensures forall i :: 0 <= i < |s| ==> Less(x, s[i])
  {
    forall i | 0 <= i < |s| ensures Less(x, s[i]) {
      if i > 0 {
        LessIsTransitive(x, s[0], s[i]);
      }
    }
  }

  /** [...new Set(items)].sort() */
  function SortUnique(items: seq<string>): (r: seq<string>)
    ensures Ascending(r)
    ensures forall y :: y in r <==> y in items
  {
    if items == [] then [] else Insert(SortUnique(items[1..]), items[0])
  }

  lemma HeadIsLeast(s: seq<string>, y: string)
    requires Ascending(s) && y in s && y != s[0]
    ensures Less(s[0], y)
  {
  }

  /** A set has one ascending list. */
  lemma {:induction false} AscendingIsUnique(a: seq<string>, b: seq<string>)
    requires Ascending(a) && Ascending(b) && forall y :: y in a <==> y in b
    ensures a == b
  {
    if a == [] || b == [] {
      HeadIn(a);
      HeadIn(b);
    } else {
      assert a[0] in b && b[0] in a;
      if a[0] != b[0] {
        HeadIsLeast(a, b[0]);
        HeadIsLeast(b, a[0]);
        LessIsStrict(a[0], b[0]);
      }
      forall y ensures y in a[1..] <==> y in b[1..] {
        TailMembers(a, y);
        TailMembers(b, y);
      }
      AscendingIsUnique(a[1..], b[1..]);
      assert a == [a[0]] + a[1..] && b == [b[0]] + b[1..];
    }
  }

  lemma TailMembers(s: seq<string>, y: string)
    requires Ascending(s) && s != []
    ensures y in s[1..] <==> y in s && y != s[0]
  {
    if y in s[1..] {
      var i :| 0 <= i < |s| - 1 && s[1..][i] == y;
      assert s[i + 1] == y;
      LessIsStrict(s[0], y);
    }
    if y in s && y != s[0] {
      var i :| 0 <= i < |s| && s[i] == y;
      assert s[1..][i - 1] == y;
    }
  }

  /** Spreading a Set into a list and sorting it. */
  method SortedList(items: set<string>) returns (r: seq<string>)
    ensures Ascending(r)
    ensures forall y :: y in r <==> y in items
  {
    r := [];
    var rest := items;
    while rest != {}
      invariant Ascending(r) && rest <= items
      invariant forall y :: y in r <==> y in items && y !in rest
      decreases |rest|
    {
      var x :| x in rest;
      r := Insert(r, x);
      rest := rest - {x};
    }
  }
}
