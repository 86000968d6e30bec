// The brace check of terraform-static-reference-check.py, on the stripped text.
module Braces {
  import opened Hcl

  function Delta(c: char): int { if c == '{' then 1 else if c == '}' then -1 else 0 }

  function Depth(s: string): int {
    if s == "" then 0 else Depth(s[..|s| - 1]) + Delta(s[|s| - 1])
  }

  /** No closing brace comes before its opening one. */
  predicate NeverNegative(s: string) {
    s == "" || (NeverNegative(s[..|s| - 1]) && Depth(s) >= 0)
  }

  predicate Balanced(s: string) { NeverNegative(s) && Depth(s) == 0 }

  datatype Verdict = Accepted | UnexpectedClosing | Unbalanced(balance: int)

  lemma {:induction false} PrefixNeverNegative(s: string, k: nat)
    requires NeverNegative(s) && k <= |s|
    ensures NeverNegative(s[..k])
  {
    if k < |s| {
      assert s[..|s| - 1][..k] == s[..k];
      PrefixNeverNegative(s[..|s| - 1], k);
    } else {
      assert s[..k] == s;
    }
  }

  method CheckBraces(structure: string) returns (v: Verdict)
    ensures v == Accepted <==> Balanced(structure)
    ensures v == UnexpectedClosing <==> !NeverNegative(structure)
    ensures v.Unbalanced? ==> v.balance == Depth(structure) > 0
  {
    var balance := 0;
    for i := 0 to |structure|
      invariant balance == Depth(structure[..i]) && NeverNegative(structure[..i])
    {
      assert structure[..i + 1][..i] == structure[..i];
      if structure[i] == '{' {
        balance := balance + 1;
      } else if structure[i] == '}' {
        balance := balance - 1;
        if balance < 0 {
          assert !NeverNegative(structure) by {
            if NeverNegative(structure) { PrefixNeverNegative(structure, i + 1); }
          }
          return UnexpectedClosing;
        }
      }
    }
    assert structure[..|structure|] == structure;
    v := if balance != 0 then Unbalanced(balance) else Accepted;
  }

  lemma {:induction false} NewlinesDoNotCount(s: string)
    ensures Depth(WithoutNewlines(s)) == Depth(s) && (NeverNegative(WithoutNewlines(s)) <==> NeverNegative(s))
  {
    if s != "" {
      var c := s[|s| - 1];
      NewlinesDoNotCount(s[..|s| - 1]);
      var w := WithoutNewlines(s[..|s| - 1]);
      if c != '\n' {
        assert (w + [c])[..|w + [c]| - 1] == w;
      } else {
        assert w + "" == w;
        assert NeverNegative(s[..|s| - 1]) ==> Depth(s[..|s| - 1]) >= 0;
      }
    }
  }

  /** A file passes exactly if the braces of its code are balanced. */
  method CheckFile(text: string) returns (v: Verdict)
    ensures v == Accepted <==> Balanced(CodeOf(text))
    ensures v == UnexpectedClosing <==> !NeverNegative(CodeOf(text))
  {
    var structure := Strip(text);
    NewlinesDoNotCount(structure);
    v := CheckBraces(structure);
  }

  // ---------------------------------------------------------------- balanced means properly nested

  datatype Blocks = Nothing | Plain(c: char, rest: Blocks) | Braced(inside: Blocks, rest: Blocks)

  predicate Proper(t: Blocks) {
    match t
    case Nothing => true
    case Plain(c, rest) => c != '{' && c != '}' && Proper(rest)
    case Braced(inside, rest) => Proper(inside) && Proper(rest)
  }

  function Print(t: Blocks): string {
    match t
    case Nothing => ""
    case Plain(c, rest) => [c] + Print(rest)
    case Braced(inside, rest) => Wrap(Print(inside)) + Print(rest)
  }

  function Wrap(s: string): string { ['{'] + s + ['}'] }

  lemma Push(s: string, c: char)
    ensures Depth(s + [c]) == Depth(s) + Delta(c)
    ensures NeverNegative(s + [c]) <==> NeverNegative(s) && Depth(s) + Delta(c) >= 0
  {
    assert (s + [c])[..|s|] == s;
  }

  lemma Associate(a: string, b: string, c: string)
    ensures (a + b) + c == a + (b + c)
  {
  }

  /** s, which leaves the depth alone wherever it is put, still does inside braces. */
  lemma WrappedIsLevel(p: string, s: string)
    requires NeverNegative(p) && Depth(p) >= 0
    requires NeverNegative((p + ['{']) + s) && Depth((p + ['{']) + s) == Depth(p) + 1
    ensures NeverNegative(p + Wrap(s)) && Depth(p + Wrap(s)) == Depth(p)
  {
    var inner := (p + ['{']) + s;
    Push(inner, '}');
    assert inner + ['}'] == p + Wrap(s);
  }

  lemma {:induction false} PrintedIsLevel(p: string, t: Blocks)
    requires NeverNegative(p) && Depth(p) >= 0 && Proper(t)
    ensures NeverNegative(p + Print(t)) && Depth(p + Print(t)) == Depth(p)
    decreases t
  {
    match t
    case Nothing => assert p + "" == p;
    case Plain(c, rest) =>
      Push(p, c);
      PrintedIsLevel(p + [c], rest);
      Associate(p, [c], Print(rest));
    case Braced(inside, rest) =>
      Push(p, '{');
      PrintedIsLevel(p + ['{'], inside);
      WrappedIsLevel(p, Print(inside));
      PrintedIsLevel(p + Wrap(Print(inside)), rest);
      Associate(p, Wrap(Print(inside)), Print(rest));
  }

  function Join(t: Blocks, u: Blocks): (r: Blocks)
    ensures Proper(t) && Proper(u) ==> Proper(r)
  {
    match t
    case Nothing => u
    case Plain(c, rest) => Plain(c, Join(rest, u))
    case Braced(inside, rest) => Braced(inside, Join(rest, u))
  }

  lemma {:induction false} JoinPrints(t: Blocks, u: Blocks)
    ensures Print(Join(t, u)) == Print(t) + Print(u)
  {
    match t
    case Nothing => assert "" + Print(u) == Print(u);
    case Plain(c, rest) =>
      JoinPrints(rest, u);
      Associate([c], Print(rest), Print(u));
    case Braced(inside, rest) =>
      JoinPrints(rest, u);
      Associate(Wrap(Print(inside)), Print(rest), Print(u));
  }

  // what has been read at top level, and inside each block still open
  datatype Stack = Top(read: Blocks) | Inside(outer: Stack, read: Blocks)

  predicate ProperStack(k: Stack) {
    Proper(k.read) && (k.Inside? ==> ProperStack(k.outer))
  }

  function PrintStack(k: Stack): string {
    match k
    case Top(read) => Print(read)
    case Inside(outer, read) => (PrintStack(outer) + ['{']) + Print(read)
  }

  function Height(k: Stack): nat { if k.Top? then 0 else 1 + Height(k.outer) }

  /** t has been read. */
  function Add(k: Stack, t: Blocks): Stack { k.(read := Join(k.read, t)) }

  lemma AddPrints(k: Stack, t: Blocks)
    requires ProperStack(k) && Proper(t)
    ensures PrintStack(Add(k, t)) == PrintStack(k) + Print(t) && ProperStack(Add(k, t))
      && Height(Add(k, t)) == Height(k)
  {
    JoinPrints(k.read, t);
    if k.Inside? {
      Associate(PrintStack(k.outer) + ['{'], Print(k.read), Print(t));
    }
  }

  lemma ClosePrints(k: Stack)
    requires ProperStack(k) && k.Inside?
    ensures var closed := Add(k.outer, Braced(k.read, Nothing));
      PrintStack(closed) == PrintStack(k) + ['}'] && ProperStack(closed) && Height(closed) == Height(k) - 1
  {
    var block := Braced(k.read, Nothing);
    AddPrints(k.outer, block);
    var outer, read := PrintStack(k.outer), Print(k.read);
    assert Print(block) == Wrap(read) + "" == Wrap(read);
    Associate(outer, ['{'] + read, ['}']);
    Associate(outer, ['{'], read);
  }

  /** Reading a text whose depth never falls below zero. */
  lemma {:induction false} Parse(s: string) returns (k: Stack)
    requires NeverNegative(s)
    ensures PrintStack(k) == s && ProperStack(k) && Height(k) == Depth(s)
  {
    if s == "" {
      return Top(Nothing);
    }
    var c := s[|s| - 1];
    k := Parse(s[..|s| - 1]);
    assert s == s[..|s| - 1] + [c];
    if c == '{' {
      k := Inside(k, Nothing);
      assert PrintStack(k) == s + "";
    } else if c == '}' {
      ClosePrints(k);
      k := Add(k.outer, Braced(k.read, Nothing));
    } else {
      assert Print(Plain(c, Nothing)) == [c] + "";
      AddPrints(k, Plain(c, Nothing));
      k := Add(k, Plain(c, Nothing));
    }
  }

  /** Balanced texts are exactly the properly nested ones. */
  lemma BalancedIsNested(s: string)
    ensures Balanced(s) <==> exists t :: Proper(t) && Print(t) == s
  {
    if Balanced(s) {
      var k := Parse(s);
    }
    if t :| Proper(t) && Print(t) == s {
      PrintedIsLevel("", t);
      assert "" + Print(t) == s;
    }
  }
}
