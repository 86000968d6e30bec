// In which order a canonical object lists its names: array indices by value, then the others as texts.
module CanonicalOrder {
  import opened Text
  import opened TextLaws
  import opened CanonicalJson

  const MAX_INDEX: nat := 4294967294

  lemma MaxIndexDigits()
    ensures Decimal(MAX_INDEX) == "4294967294"
  {
    assert Decimal(4294) == "4294";
    assert Decimal(4294967) == "4294967";
    assert Decimal(4294967294) == "4294967294";
  }

  /** The array indices of ECMAScript: the decimal forms of 0 to 2^32 - 2. */
  lemma IndicesAre(s: string)
    ensures IsIndex(s) <==> exists n: nat :: n <= MAX_INDEX && s == Decimal(n)
  {
    MaxIndexDigits();
    if IsIndex(s) {
      DigitsAreDecimal(s);
      if Read(s) > MAX_INDEX {
        DecimalOrder(MAX_INDEX, Read(s));
      }
    }
    if n: nat :| n <= MAX_INDEX && s == Decimal(n) {
      IndexWithin(n);
    }
  }

  lemma IndexWithin(n: nat)
    requires n <= MAX_INDEX
    ensures IsIndex(Decimal(n))
  {
    MaxIndexDigits();
    DecimalReads(n);
    if n < MAX_INDEX {
      DecimalOrder(n, MAX_INDEX);
      LessIsStrict(Decimal(n), "4294967294");
    } else {
      LessIsStrict("4294967294", "4294967294");
    }
  }

  /** Two indices are listed by value, an index before any other name, and two other names by character codes. */
  lemma OrderOfNames(a: string, b: string, m: nat, n: nat)
    requires m <= MAX_INDEX && n <= MAX_INDEX
    ensures Before(Decimal(m), Decimal(n)) <==> m < n
    ensures !IsIndex(a) ==> Before(Decimal(m), a) && !Before(a, Decimal(m))
    ensures !IsIndex(a) && !IsIndex(b) ==>
      (Before(a, b) <==> exists i: nat :: FirstDifference(a, b, i))
  {
    IndexWithin(m);
    IndexWithin(n);
    LessByFirstDifference(a, b);
    if m < n {
      DecimalOrder(m, n);
    } else if n < m {
      DecimalOrder(n, m);
      LessIsStrict(Decimal(n), Decimal(m));
    } else {
      LessIsStrict(Decimal(n), Decimal(m));
    }
  }
}
