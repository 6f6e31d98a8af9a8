/**
 * Title keys. A title is lower-cased before comparison; only the ASCII
 * letters A-Z are folded (other characters, such as the CJK titles of
 * the showcase, have no case here). Keys are then compared code unit by
 * code unit, a proper prefix sorting first, as JavaScript's `>` does.
 */
module Strings {
  import opened Orders

  function LowerChar(c: char): char {
    if 'A' <= c <= 'Z' then (c as int + 32) as char else c
  }

  /** ASCII lower-casing of a whole string, character by character. */
  function Lower(s: string): (r: string)
    ensures |r| == |s|
    ensures forall i :: 0 <= i < |s| ==> r[i] == LowerChar(s[i])
    ensures forall i :: 0 <= i < |r| ==> !('A' <= r[i] <= 'Z')
  {
    if s == [] then [] else [LowerChar(s[0])] + Lower(s[1..])
  }

  /** Folding twice is folding once. */
  lemma LowerIdempotent(s: string)
    ensures Lower(Lower(s)) == Lower(s)
  {
  }

  /** Lexicographic `a < b` over characters. */
  function CodeUnitLess(a: string, b: string): bool {
    if b == [] then false
    else if a == [] then true
    else if a[0] != b[0] then a[0] < b[0]
    else CodeUnitLess(a[1..], b[1..])
  }

  /** `CodeUnitLess` holds exactly when `a` is a proper prefix of `b` or
      the first differing character of `a` is the smaller one. */
  lemma {:induction false} CodeUnitLessMeaning(a: string, b: string)
    ensures CodeUnitLess(a, b) <==>
      (|a| < |b| && a == b[..|a|]) ||
      (exists i :: 0 <= i < |a| && i < |b| && a[..i] == b[..i] && a[i] < b[i])
  {
    if a != [] && b != [] {
      CodeUnitLessMeaning(a[1..], b[1..]);
      if a[0] == b[0] {
        if CodeUnitLess(a, b) && !(|a| < |b| && a == b[..|a|]) {
          var i :| 0 <= i < |a[1..]| && i < |b[1..]| && a[1..][..i] == b[1..][..i] && a[1..][i] < b[1..][i];
          assert a[..i + 1] == [a[0]] + a[1..][..i];
          assert b[..i + 1] == [b[0]] + b[1..][..i];
        } else if !CodeUnitLess(a, b) {
          forall i | 0 < i < |a| && i < |b| && a[..i] == b[..i]
            ensures a[1..][..i - 1] == b[1..][..i - 1]
          {
            assert a[1..][..i - 1] == a[..i][1..];
            assert b[1..][..i - 1] == b[..i][1..];
          }
        }
      } else if CodeUnitLess(a, b) {
        assert a[..0] == b[..0];
      }
    } else if a == [] && b != [] {
      assert a == b[..0];
    }
  }

  lemma {:induction false} CodeUnitLessIrreflexive(a: string)
    ensures !CodeUnitLess(a, a)
  {
    if a != [] {
      CodeUnitLessIrreflexive(a[1..]);
    }
  }

  lemma {:induction false} CodeUnitLessTransitive(a: string, b: string, c: string)
    requires CodeUnitLess(a, b) && CodeUnitLess(b, c)
    ensures CodeUnitLess(a, c)
  {
    if a != [] && a[0] == b[0] && b[0] == c[0] {
      CodeUnitLessTransitive(a[1..], b[1..], c[1..]);
    }
  }

  lemma {:induction false} CodeUnitLessConnected(a: string, b: string)
    requires a != b
    ensures CodeUnitLess(a, b) || CodeUnitLess(b, a)
  {
    if a != [] && b != [] && a[0] == b[0] {
      assert a == [a[0]] + a[1..] && b == [b[0]] + b[1..];
      CodeUnitLessConnected(a[1..], b[1..]);
    }
  }

  /** Title comparison is a strict total order, so sorting by it is well defined. */
  lemma CodeUnitLessIsStrictTotal()
    ensures StrictTotalOrder(CodeUnitLess)
  {
    forall a: string ensures !CodeUnitLess(a, a) {
      CodeUnitLessIrreflexive(a);
    }
    forall a: string, b: string, c: string | CodeUnitLess(a, b) && CodeUnitLess(b, c)
      ensures CodeUnitLess(a, c)
    {
      CodeUnitLessTransitive(a, b, c);
    }
    forall a: string, b: string | a != b
      ensures CodeUnitLess(a, b) || CodeUnitLess(b, a)
    {
      CodeUnitLessConnected(a, b);
    }
  }
}
