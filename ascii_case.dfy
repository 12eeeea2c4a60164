/**
 * Ruby's `String#capitalize` restricted to ASCII letters: the first
 * character is upper-cased, every other character is lower-cased, and
 * characters that are not ASCII letters are left alone.
 */
module AsciiCase {

  predicate IsUpper(c: char) { 'A' <= c <= 'Z' }

  predicate IsLower(c: char) { 'a' <= c <= 'z' }

  function UpcaseChar(c: char): char
  {
    if IsLower(c) then (c as int - 32) as char else c
  }

  function DowncaseChar(c: char): char
  {
    if IsUpper(c) then (c as int + 32) as char else c
  }

  /** Changing case in one direction and folding down forgets the first change. */
  lemma FoldChar(c: char)
    ensures DowncaseChar(UpcaseChar(c)) == DowncaseChar(c)
    ensures UpcaseChar(DowncaseChar(c)) == UpcaseChar(c)
  {
  }

  /** Ruby's `String#downcase` on ASCII. */
  function Downcase(s: string): (r: string)
    ensures |r| == |s|
    ensures forall i :: 0 <= i < |s| ==> r[i] == DowncaseChar(s[i])
    ensures forall i :: 0 <= i < |r| ==> !IsUpper(r[i])
  {
    if s == [] then [] else [DowncaseChar(s[0])] + Downcase(s[1..])
  }

  /** The shape `capitalize` gives a string: no lower-case head, no upper-case tail. */
  predicate IsCapitalized(s: string)
  {
    && (|s| > 0 ==> !IsLower(s[0]))
    && forall i :: 1 <= i < |s| ==> !IsUpper(s[i])
  }

  /** Ruby's `String#capitalize` on ASCII. */
  function Capitalize(s: string): (r: string)
    ensures |r| == |s|
    ensures |s| > 0 ==> r[0] == UpcaseChar(s[0])
    ensures forall i :: 1 <= i < |s| ==> r[i] == DowncaseChar(s[i])
    ensures IsCapitalized(r)
  {
    if s == [] then [] else [UpcaseChar(s[0])] + Downcase(s[1..])
  }

  /**
   * Two names capitalize to the same string exactly when they agree up to
   * letter case, i.e. when their lower-cased forms are equal.
   */
  lemma {:induction false} CapitalizeIgnoresCase(a: string, b: string)
    ensures Capitalize(a) == Capitalize(b) <==> Downcase(a) == Downcase(b)
  {
    if Capitalize(a) == Capitalize(b) {
      if |a| > 0 {
        assert UpcaseChar(a[0]) == UpcaseChar(b[0]) by {
          assert Capitalize(a)[0] == Capitalize(b)[0];
        }
        FoldChar(a[0]);
        FoldChar(b[0]);
        forall i | 0 <= i < |a| ensures Downcase(a)[i] == Downcase(b)[i] {
          if i > 0 {
            assert Capitalize(a)[i] == Capitalize(b)[i];
          }
        }
      }
      assert Downcase(a) == Downcase(b);
    }
    if Downcase(a) == Downcase(b) {
      if |a| > 0 {
        assert DowncaseChar(a[0]) == DowncaseChar(b[0]) by {
          assert Downcase(a)[0] == Downcase(b)[0];
        }
        FoldChar(a[0]);
        FoldChar(b[0]);
        forall i | 0 <= i < |a| ensures Capitalize(a)[i] == Capitalize(b)[i] {
          if i > 0 {
            assert Downcase(a)[i] == Downcase(b)[i];
          }
        }
      }
      assert Capitalize(a) == Capitalize(b);
    }
  }

  /** A string is left unchanged by `capitalize` exactly when it already has the capitalized shape. */
  lemma {:induction false} CapitalizeFixpoints(s: string)
    ensures Capitalize(s) == s <==> IsCapitalized(s)
  {
    if IsCapitalized(s) {
      forall i | 0 <= i < |s| ensures Capitalize(s)[i] == s[i] {
        if i > 0 {
          assert !IsUpper(s[i]);
        }
      }
      assert Capitalize(s) == s;
    }
  }

  /** `capitalize` is idempotent. */
  lemma {:induction false} CapitalizeIdempotent(s: string)
    ensures Capitalize(Capitalize(s)) == Capitalize(s)
  {
    CapitalizeFixpoints(Capitalize(s));
  }
}
