/**
 * Case-insensitive comparison of FString: TChar::ToLower on every
 * character, ASCII letters only. FString's `==`, `!=` and ordering
 * operators, and Equals with ESearchCase::IgnoreCase, compare the folded
 * strings.
 */
module TextCase {

  /** TChar::ToLower: ASCII letters only. */
  function ToLower(c: char): (l: char)
    ensures !('A' <= l <= 'Z')
    ensures !('A' <= c <= 'Z') ==> l == c
  {
    if 'A' <= c <= 'Z' then (c as int - 'A' as int + 'a' as int) as char else c
  }

  /** The string with every ASCII capital lowered. */
  function Fold(s: string): (f: string)
    ensures |f| == |s|
  {
    if s == [] then [] else [ToLower(s[0])] + Fold(s[1..])
  }

  /** Folding lowers each character in its place. */
  lemma {:induction false} FoldChars(s: string)
    ensures forall i :: 0 <= i < |s| ==> Fold(s)[i] == ToLower(s[i])
  {
    if s != [] {
      FoldChars(s[1..]);
    }
  }

  /** Folding twice is folding once. */
  lemma FoldIdempotent(s: string)
    ensures Fold(Fold(s)) == Fold(s)
  {
    var f := Fold(s);
    FoldChars(s);
    FoldChars(f);
    forall i | 0 <= i < |s|
      ensures Fold(f)[i] == f[i]
    {
    }
  }

  /** FString::Equals with ESearchCase::IgnoreCase. */
  predicate EqualsIgnoreCase(a: string, b: string)
  {
    Fold(a) == Fold(b)
  }

  /** Ignoring case is an equivalence that only relates strings of equal
      length, and it agrees with Equals on strings without capitals. */
  lemma EqualsIgnoreCaseProperties(a: string, b: string, c: string)
    ensures EqualsIgnoreCase(a, a)
    ensures EqualsIgnoreCase(a, b) ==> EqualsIgnoreCase(b, a) && |a| == |b|
    ensures EqualsIgnoreCase(a, b) && EqualsIgnoreCase(b, c) ==> EqualsIgnoreCase(a, c)
    ensures (forall i :: 0 <= i < |a| ==> !('A' <= a[i] <= 'Z')) &&
            (forall i :: 0 <= i < |b| ==> !('A' <= b[i] <= 'Z')) ==>
            (EqualsIgnoreCase(a, b) <==> a == b)
  {
    if (forall i :: 0 <= i < |a| ==> !('A' <= a[i] <= 'Z')) &&
       (forall i :: 0 <= i < |b| ==> !('A' <= b[i] <= 'Z')) {
      FoldChars(a);
      FoldChars(b);
      assert Fold(a) == a;
      assert Fold(b) == b;
    }
  }

  /** Two strings are equal ignoring case exactly when they have the same
      length and lower to the same character at every position. */
  lemma CaseOnlyDifferenceIgnored(a: string, b: string)
    ensures EqualsIgnoreCase(a, b) <==>
            |a| == |b| && forall i :: 0 <= i < |a| ==> ToLower(a[i]) == ToLower(b[i])
  {
    FoldChars(a);
    FoldChars(b);
  }

  /** An instance: "QUJD" and "qujd" differ, but not ignoring case. */
  lemma CaseOnlyDifferenceExample()
    ensures "QUJD" != "qujd" && EqualsIgnoreCase("QUJD", "qujd")
  {
    CaseOnlyDifferenceIgnored("QUJD", "qujd");
  }
}
