/**
 * Orders on sort keys. The showcase is sorted with two key types: a
 * boolean (JavaScript orders `false` before `true` under `>`) and a
 * lower-cased title, compared code unit by code unit. Both are strict
 * total orders, and so is their lexicographic combination.
 */
module Orders {

  /** `lt` is irreflexive, transitive and relates any two distinct keys. */
  ghost predicate StrictTotalOrder<K(!new)>(lt: (K, K) -> bool) {
    && (forall x :: !lt(x, x))
    && (forall x, y, z :: lt(x, y) && lt(y, z) ==> lt(x, z))
    && (forall x, y :: x != y ==> lt(x, y) || lt(y, x))
  }

  /** JavaScript's `a < b` on booleans: only `false < true`. */
  function BoolLess(a: bool, b: bool): bool {
    !a && b
  }

  lemma BoolLessIsStrictTotal()
    ensures StrictTotalOrder(BoolLess)
  {
  }

  /** Lexicographic order on pairs: first components, then second ones. */
  function Lex<A(==), B>(lta: (A, A) -> bool, ltb: (B, B) -> bool): ((A, B), (A, B)) -> bool
  {
    (p: (A, B), q: (A, B)) => lta(p.0, q.0) || (p.0 == q.0 && ltb(p.1, q.1))
  }

  lemma {:induction false} LexIsStrictTotal<A(!new), B(!new)>(lta: (A, A) -> bool, ltb: (B, B) -> bool)
    requires StrictTotalOrder(lta) && StrictTotalOrder(ltb)
    ensures StrictTotalOrder(Lex(lta, ltb))
  {
    var lt := Lex(lta, ltb);
    forall p: (A, B)
      ensures !lt(p, p)
    {
      assert !lta(p.0, p.0) && !ltb(p.1, p.1);
    }
    forall p: (A, B), q: (A, B) | p != q
      ensures lt(p, q) || lt(q, p)
    {
      if p.0 == q.0 {
        assert p.1 != q.1;
      }
    }
    forall p: (A, B), q: (A, B), u: (A, B) | lt(p, q) && lt(q, u)
      ensures lt(p, u)
    {
      if lta(p.0, q.0) && lta(q.0, u.0) {
        assert lta(p.0, u.0);
      }
    }
  }
}
