/**
 * Two small catalogues showing the ordering of `sortUsers`: favourites
 * first, case-insensitive title order, and entries whose titles differ
 * only in case keeping their input order.
 */
module OrderingExamples {
  import opened Wrappers
  import opened Tags
  import opened Orders
  import opened Strings
  import opened Sorting
  import opened Showcase

  /** Selecting from three entries whose middle one alone is a
      favourite. */
  lemma BlocksOfThree(z: User, a: User, b: User)
    requires IsFavorite(a) && !IsFavorite(z) && !IsFavorite(b)
    ensures Favorites([z, a, b]) == [a]
    ensures Others([z, a, b]) == [z, b]
  {
    assert [z, a, b] == [z] + ([a] + [b]);
    WithKeyCons(z, [a] + [b], NotFavorite, false);
    WithKeyCons(a, [b], NotFavorite, false);
    WithKeyCons(b, [], NotFavorite, false);
    WithKeyCons(z, [a] + [b], NotFavorite, true);
    WithKeyCons(a, [b], NotFavorite, true);
    WithKeyCons(b, [], NotFavorite, true);
    assert [b] + [] == [b];
  }

  /** One entry is sorted. */
  lemma SortByTitleOne(b: User)
    ensures SortByTitle([b]) == [b]
  {
    CodeUnitLessIsStrictTotal();
    SortByCons(b, [], TitleKey, CodeUnitLess);
    assert [b] + [] == [b];
  }

  /** Two entries given in descending title order are swapped. */
  lemma SortByTitleSwap(z: User, b: User)
    requires CodeUnitLess(TitleKey(b), TitleKey(z))
    ensures SortByTitle([z, b]) == [b, z]
  {
    CodeUnitLessIsStrictTotal();
    SortByCons(b, [], TitleKey, CodeUnitLess);
    assert [b] + [] == [b];
    SortByConsSecond(z, [b], b, [], TitleKey, CodeUnitLess);
    assert [z] + [b] == [z, b];
    assert [b, z] + [] == [b, z];
  }

  /** A favourite between two other entries goes first; the other two
      follow in title order. */
  lemma FavoriteMovesToFront(z: User, a: User, b: User)
    requires IsFavorite(a) && !IsFavorite(z) && !IsFavorite(b)
    requires CodeUnitLess(TitleKey(b), TitleKey(z))
    ensures SortUsers([z, a, b]) == [a, b, z]
  {
    SortUsersBlocks([z, a, b]);
    BlocksOfThree(z, a, b);
    SortByTitleOne(a);
    SortByTitleSwap(z, b);
  }

  /** "Zeta", the favourite "alpha" and "Beta" come out as "alpha",
      "Beta", "Zeta". */
  lemma FavoriteThenCaseInsensitiveTitle()
    ensures SortUsers([User("Zeta", None, []), User("alpha", None, [Favorite]), User("Beta", None, [])])
         == [User("alpha", None, [Favorite]), User("Beta", None, []), User("Zeta", None, [])]
  {
    TitleBefore(User("Beta", None, []), User("Zeta", None, []));
    FavoriteMovesToFront(User("Zeta", None, []), User("alpha", None, [Favorite]), User("Beta", None, []));
  }

  /** Two entries with the same favourite status and the same lower-cased
      title stay in their input order. */
  lemma SameRankPairKeepsOrder(p: User, q: User)
    requires IsFavorite(p) == IsFavorite(q) && TitleKey(p) == TitleKey(q)
    ensures SortUsers([p, q]) == [p, q]
  {
    CodeUnitLessIsStrictTotal();
    BoolLessIsStrictTotal();
    LexIsStrictTotal(BoolLess, CodeUnitLess);
    var key, lt := Pair(NotFavorite, TitleKey), Lex(BoolLess, CodeUnitLess);
    assert NotFavorite(p) == NotFavorite(q);
    assert key(p) == (NotFavorite(p), TitleKey(p));
    assert key(q) == (NotFavorite(q), TitleKey(q));
    assert !lt(key(q), key(p));
    assert SortedBy([p, q], key, lt);
    SortByOfSorted([p, q], key, lt);
    SortUsersIsSingleSort([p, q]);
  }

  /** Strings that differ only in the case of their letters have the
      same lower-cased form. */
  lemma SameLower(s: string, t: string)
    requires |s| == |t|
    requires forall i :: 0 <= i < |s| ==> LowerChar(s[i]) == LowerChar(t[i])
    ensures Lower(s) == Lower(t)
  {
  }

  /** "Go-Admin" and "go-admin", both favourites, keep their input order. */
  lemma CaseVariantsKeepOrder()
    ensures SortUsers([User("Go-Admin", None, [Favorite]), User("go-admin", None, [Favorite])])
         == [User("Go-Admin", None, [Favorite]), User("go-admin", None, [Favorite])]
  {
    SameLower("Go-Admin", "go-admin");
    SameRankPairKeepsOrder(User("Go-Admin", None, [Favorite]), User("go-admin", None, [Favorite]));
  }
}
