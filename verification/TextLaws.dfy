// What the normalisers of Text do to whole texts: letter case, padding, identifiers, order.
module TextLaws {
  import opened Wrappers
  import opened Text

  // ---------------------------------------------------------------- letter case

  predicate HasCapital(s: string) { exists i :: 0 <= i < |s| && 'A' <= s[i] <= 'Z' }

  predicate HasSmall(s: string) { exists i :: 0 <= i < |s| && 'a' <= s[i] <= 'z' }

  /** Both ways of folding letter case identify the same texts, undo each other, and touch ASCII letters only. */
  lemma CaseFolds(s: string, t: string)
    ensures LowerCase(s) == LowerCase(t) <==> UpperCase(s) == UpperCase(t)
    ensures LowerCase(UpperCase(s)) == LowerCase(s) && UpperCase(LowerCase(s)) == UpperCase(s)
    ensures LowerCase(s) == s <==> !HasCapital(s)
    ensures UpperCase(s) == s <==> !HasSmall(s)
  {
    var lower, upper := LowerCase(s), UpperCase(s);
    if |s| == |t| && lower == LowerCase(t) {
      forall i | 0 <= i < |s| ensures upper[i] == UpperCase(t)[i] {
        assert lower[i] == LowerCase(t)[i];
      }
    }
    if |s| == |t| && upper == UpperCase(t) {
      forall i | 0 <= i < |s| ensures lower[i] == LowerCase(t)[i] {
        assert upper[i] == UpperCase(t)[i];
      }
    }
    assert forall i :: 0 <= i < |s| ==> (lower[i] == s[i] <==> !('A' <= s[i] <= 'Z'));
    assert forall i :: 0 <= i < |s| ==> (upper[i] == s[i] <==> !('a' <= s[i] <= 'z'));
  }

  // ---------------------------------------------------------------- order

  /** a and b agree up to i, where a ends or has the smaller character. */
  predicate FirstDifference(a: string, b: string, i: nat) {
    && i <= |a| && i < |b| && a[..i] == b[..i]
    && (i < |a| ==> a[i] < b[i])
  }

  lemma {:induction false} LessByFirstDifference(a: string, b: string)
    ensures Less(a, b) <==> exists i: nat :: FirstDifference(a, b, i)
  {
    if a == [] || b == [] || a[0] != b[0] {
      if Less(a, b) {
        assert FirstDifference(a, b, 0);
      }
      if i: nat :| FirstDifference(a, b, i) {
        assert i > 0 ==> a[..i][0] == b[..i][0];
      }
    } else {
      LessByFirstDifference(a[1..], b[1..]);
      if i: nat :| FirstDifference(a[1..], b[1..], i) {
        assert a[..i + 1] == [a[0]] + a[1..][..i] && b[..i + 1] == [b[0]] + b[1..][..i];
        assert FirstDifference(a, b, i + 1);
      }
      if i: nat :| FirstDifference(a, b, i) {
        assert i > 0;
        assert a[1..][..i - 1] == a[..i][1..] && b[1..][..i - 1] == b[..i][1..];
        assert FirstDifference(a[1..], b[1..], i - 1);
      }
    }
  }

  // ---------------------------------------------------------------- white space

  /** What ECMAScript calls white space and line terminators. */
  const WHITE := "\t\n\U{b}\U{c}\r \U{a0}\U{1680}\U{2000}\U{2001}\U{2002}\U{2003}\U{2004}\U{2005}"
    + "\U{2006}\U{2007}\U{2008}\U{2009}\U{200a}\U{2028}\U{2029}\U{202f}\U{205f}\U{3000}\U{feff}"

  predicate AllWhite(s: string) { forall i :: 0 <= i < |s| ==> s[i] in WHITE }

  lemma WhiteIsSpace(c: char)
    ensures IsJsSpace(c) <==> c in WHITE
  {
  }

  lemma {:induction false} PaddingOnTheLeft(pad: string, s: string)
    requires AllWhite(pad)
    ensures TrimLeft(pad + s, IsJsSpace) == TrimLeft(s, IsJsSpace)
  {
    if pad == "" {
      assert pad + s == s;
    } else {
      WhiteIsSpace(pad[0]);
      assert (pad + s)[1..] == pad[1..] + s;
      PaddingOnTheLeft(pad[1..], s);
    }
  }

  lemma {:induction false} PaddingOnTheRight(s: string, pad: string)
    requires AllWhite(pad)
    ensures TrimRight(s + pad, IsJsSpace) == TrimRight(s, IsJsSpace)
  {
    if pad == "" {
      assert s + pad == s;
    } else {
      WhiteIsSpace(pad[|pad| - 1]);
      assert (s + pad)[..|s + pad| - 1] == s + pad[..|pad| - 1];
      PaddingOnTheRight(s, pad[..|pad| - 1]);
    }
  }

  lemma {:induction false} TrimWithPadding(s: string, pad: string)
    requires AllWhite(pad)
    ensures Trim(s + pad, IsJsSpace) == Trim(s, IsJsSpace)
  {
    if s == "" {
      PaddingOnTheLeft(pad, "");
      assert s + pad == pad + "" == pad;
    } else if IsJsSpace(s[0]) {
      assert (s + pad)[1..] == s[1..] + pad;
      TrimWithPadding(s[1..], pad);
    } else {
      PaddingOnTheRight(s, pad);
    }
  }

  lemma {:induction false} TrimLeftInUpperCase(s: string)
    ensures TrimLeft(UpperCase(s), IsJsSpace) == UpperCase(TrimLeft(s, IsJsSpace))
  {
    if s != "" {
      assert UpperCase(s)[1..] == UpperCase(s[1..]);
      TrimLeftInUpperCase(s[1..]);
    }
  }

  lemma {:induction false} TrimRightInUpperCase(s: string)
    ensures TrimRight(UpperCase(s), IsJsSpace) == UpperCase(TrimRight(s, IsJsSpace))
  {
    if s != "" {
      assert UpperCase(s)[..|s| - 1] == UpperCase(s[..|s| - 1]);
      TrimRightInUpperCase(s[..|s| - 1]);
    }
  }

  /** White space around a text does not matter, and neither does its letter case. */
  lemma PaddingAndCaseVanish(before: string, s: string, after: string)
    requires AllWhite(before) && AllWhite(after)
    ensures LowerCase(Trim(before + UpperCase(s) + after, IsJsSpace)) == LowerCase(Trim(s, IsJsSpace))
    ensures LowerCase(Trim(before + s + after, IsJsSpace)) == LowerCase(Trim(s, IsJsSpace))
  {
    forall t ensures Trim(before + t + after, IsJsSpace) == Trim(t, IsJsSpace) {
      TrimWithPadding(before + t, after);
      PaddingOnTheLeft(before, t);
    }
    var left := TrimLeft(s, IsJsSpace);
    TrimLeftInUpperCase(s);
    TrimRightInUpperCase(left);
    CaseFolds(Trim(s, IsJsSpace), "");
  }

  /** Exactly the white space around a text goes. */
  lemma TrimRemovesPadding(before: string, s: string, after: string)
    requires AllWhite(before) && AllWhite(after)
    ensures Trim(before + s + after, IsJsSpace) == s <==> s == "" || (s[0] !in WHITE && s[|s| - 1] !in WHITE)
  {
    TrimWithPadding(before + s, after);
    PaddingOnTheLeft(before, s);
    if s != "" {
      WhiteIsSpace(s[0]);
      WhiteIsSpace(s[|s| - 1]);
      if IsJsSpace(s[0]) || IsJsSpace(s[|s| - 1]) {
        TrimEnds(s);
      }
    }
  }

  lemma {:induction false} TrimEnds(s: string)
    requires s != "" && (IsJsSpace(s[0]) || IsJsSpace(s[|s| - 1]))
    ensures Trim(s, IsJsSpace) != s
  {
    ShorterLeft(s);
    ShorterRight(TrimLeft(s, IsJsSpace));
  }

  lemma {:induction false} ShorterLeft(s: string)
    ensures |TrimLeft(s, IsJsSpace)| <= |s| && (s != "" && IsJsSpace(s[0]) ==> |TrimLeft(s, IsJsSpace)| < |s|)
  {
    if s != "" {
      ShorterLeft(s[1..]);
    }
  }

  lemma {:induction false} ShorterRight(s: string)
    ensures |TrimRight(s, IsJsSpace)| <= |s|
    ensures s != "" && IsJsSpace(s[|s| - 1]) ==> |TrimRight(s, IsJsSpace)| < |s|
  {
    if s != "" {
      ShorterRight(s[..|s| - 1]);
    }
  }

  /** So two spellings of an identifier are accepted alike, as the same identifier. */
  lemma NormalizedForgetsPaddingAndCase(before: string, s: string, after: string)
    requires AllWhite(before) && AllWhite(after)
    ensures Normalized(before + UpperCase(s) + after) == Normalized(before + s + after) == Normalized(s)
  {
    PaddingAndCaseVanish(before, s, after);
  }

  // ---------------------------------------------------------------- identifiers

  lemma HexIsPlain(c: char)
    requires c in HEX || c == '-'
    ensures !IsJsSpace(c) && LowerChar(c) == c
  {
  }

  /** An identifier in normal form is its own normal form. */
  lemma UuidIsNormal(s: string)
    requires IsUuid(s)
    ensures Normalized(s) == Some(s)
  {
    forall i | 0 <= i < 36 ensures !IsJsSpace(s[i]) && LowerChar(s[i]) == s[i] {
      HexIsPlain(s[i]);
    }
    assert LowerCase(s) == s;
  }

  predicate AllHex(s: string, length: nat) { |s| == length && forall i :: 0 <= i < length ==> s[i] in HEX }

  /** Groups of 8, 4, 4, 4 and 12 hexadecimal digits; the third begins with the version, the fourth with the variant. */
  lemma UuidByGroups(a: string, b: string, c: string, d: string, e: string)
    requires |a| == 8 && |b| == |c| == |d| == 4
    ensures IsUuid(a + "-" + b + "-" + c + "-" + d + "-" + e) <==>
      && AllHex(a, 8) && AllHex(b, 4) && AllHex(c, 4) && AllHex(d, 4) && AllHex(e, 12)
      && c[0] in ['1', '2', '3', '4', '5'] && d[0] in ['8', '9', 'a', 'b']
  {
    var s := a + "-" + b + "-" + c + "-" + d + "-" + e;
    assert s[..8] == a && s[9..13] == b && s[14..18] == c && s[19..23] == d && s[24..] == e;
    assert s[8] == s[13] == s[18] == s[23] == '-';
    if |e| == 12 {
      assert forall i :: 0 <= i < 8 ==> s[i] == a[i];
      assert forall i :: 0 <= i < 4 ==> s[9 + i] == b[i] && s[14 + i] == c[i] && s[19 + i] == d[i];
      assert forall i :: 0 <= i < 12 ==> s[24 + i] == e[i];
    }
  }

  // ---------------------------------------------------------------- decimal digits

  function Read(digits: string): int {
    if digits == "" then 0 else Read(digits[..|digits| - 1]) * 10 + (digits[|digits| - 1] as int - '0' as int)
  }

  /** The printed number reads as the number, in digits and without leading zeros. */
  lemma {:induction false} DecimalReads(n: nat)
    ensures Read(Decimal(n)) == n && Decimal(n) != ""
    ensures forall i :: 0 <= i < |Decimal(n)| ==> '0' <= Decimal(n)[i] <= '9'
    ensures n > 0 ==> Decimal(n)[0] != '0'
  {
    if n < 10 {
      assert Decimal(n)[..0] == "";
    } else {
      DecimalReads(n / 10);
      assert Decimal(n)[..|Decimal(n)| - 1] == Decimal(n / 10);
    }
  }

  /** Numbers without leading zeros are ordered by length first, then as texts. */
  predicate Shortlex(a: string, b: string) { |a| < |b| || (|a| == |b| && Less(a, b)) }

  lemma {:induction false} LessBeforeEnds(a: string, b: string, x: char, y: char)
    requires |a| == |b|
    ensures Less(a + [x], b + [y]) <==> Less(a, b) || (a == b && x < y)
  {
    if a != [] {
      assert (a + [x])[1..] == a[1..] + [x] && (b + [y])[1..] == b[1..] + [y];
      LessBeforeEnds(a[1..], b[1..], x, y);
      assert a == [a[0]] + a[1..] && b == [b[0]] + b[1..];
    }
  }

  lemma {:induction false} DecimalOrder(m: nat, n: nat)
    requires m < n
    ensures Shortlex(Decimal(m), Decimal(n))
    decreases n
  {
    if n >= 10 && m >= 10 {
      var x, y := ('0' as int + m % 10) as char, ('0' as int + n % 10) as char;
      if m / 10 < n / 10 {
        DecimalOrder(m / 10, n / 10);
      }
      if |Decimal(m / 10)| == |Decimal(n / 10)| {
        LessBeforeEnds(Decimal(m / 10), Decimal(n / 10), x, y);
      }
    } else if n >= 10 {
      DecimalReads(n / 10);
    }
  }

  /** Digits without a leading zero are the decimal form of their value. */
  lemma {:induction false} DigitsAreDecimal(s: string)
    requires s != "" && (forall i :: 0 <= i < |s| ==> '0' <= s[i] <= '9') && (s[0] == '0' ==> |s| == 1)
    ensures Read(s) >= 0 && s == Decimal(Read(s))
  {
    var front, last := s[..|s| - 1], s[|s| - 1];
    assert s == front + [last];
    if front == "" {
      assert Read(front) == 0;
    } else {
      DigitsAreDecimal(front);
      DecimalReads(Read(front));
      assert Read(front) > 0;
    }
  }
}
