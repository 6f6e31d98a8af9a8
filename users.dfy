/**
 * The showcase catalogue: the entries of the `Users` literal, the
 * two-pass ordering `sortUsers` and its result `sortedUsers`.
 *
 * `sortUsers` first sorts by the lower-cased title, then sorts that
 * result by `!tags.includes('favorite')`, both with the stable `sortBy`.
 * Since `false` sorts before `true`, favourites come first, and within
 * each block the title order of the first pass survives.
 */
module Showcase {
  import opened Wrappers
  import opened Tags
  import opened Orders
  import opened Strings
  import opened Sorting

  /** One showcase entry. `preview` is the asset path handed to the build
      tool's `require`; `None` would ask for a generated screenshot. The
      description and the two links are not part of this model. */
  datatype User = User(title: string, preview: Option<string>, tags: seq<TagType>)

  /** The hand-maintained catalogue, in source order. It is written here
      as four runs of thirteen entries, concatenated. */
  const Users: seq<User> := UsersPart0 + UsersPart1 + UsersPart2 + UsersPart3

  const UsersPart0: seq<User> := [
    User("GFast", Some("./showcase/gfast.png"), [OpenSource, Favorite, AdminUI, Product, V2]),
    User("Letga", Some("./showcase/letga.png"), [OpenSource, AdminUI, V2]),
    User("DMicro", Some("./showcase/dmicro.png"), [OpenSource, Micro, V2]),
    User("Jupiter", Some("./showcase/jupiter.png"), [OpenSource, Micro, V1]),
    User("HotGo", Some("./showcase/hotgo.png"), [OpenSource, Favorite, AdminUI, Product, V2]),
    User("DNSLog-GO", Some("./showcase/dnslog-go.png"), [OpenSource, FrontUI, V1]),
    User("Nemo", Some("./showcase/nemo.png"), [OpenSource, AdminUI, V1]),
    User("OpenSCRM", Some("./showcase/openscrm.png"), [OpenSource, AdminUI, V1]),
    User("Magma", Some("./showcase/magma.png"), [OpenSource, AdminUI, V1]),
    User("Hybridnet", Some("./showcase/hybridnet.png"), [OpenSource, CloudNative, V1]),
    User("EasyGoAdmin", Some("./showcase/easy-go-admin.png"), [OpenSource, Favorite, AdminUI, Product, V1]),
    User("SagooIOT", Some("./showcase/sagooiot.png"), [OpenSource, Favorite, AdminUI, Product, V2]),
    User("GF2-Demo", Some("./showcase/gf2-demo.png"), [OpenSource, V2])
  ]

  const UsersPart1: seq<User> := [
    User("Oldme-API", Some("./showcase/oldme-api.png"), [OpenSource, FrontUI, V2]),
    User("ZzeAdminGo", Some("./showcase/zze-admin-go.png"), [OpenSource, AdminUI, V2]),
    User("GF-CMS", Some("./showcase/gf-cms.jpg"), [OpenSource, AdminUI, FrontUI, V2]),
    User("UniTranslate", Some("./showcase/uni-translate.png"), [OpenSource, Tool, V2]),
    User("kkdl-go", Some("./showcase/kkdl-go.png"), [OpenSource, V2]),
    User("VncProxy", Some("./showcase/vncproxy.png"), [OpenSource, Tool, V2]),
    User("gdb-adapter", Some("./showcase/library.png"), [OpenSource, Library, V1]),
    User("gf-casbin-adapter", Some("./showcase/library.png"), [OpenSource, Library, V2]),
    User("csrf", Some("./showcase/library.png"), [OpenSource, Library, V2]),
    User("goframe-jsonrpc", Some("./showcase/library.png"), [OpenSource, Library, V2]),
    User("gf-x-tool", Some("./showcase/library.png"), [OpenSource, Library, V2]),
    User("gf-x-mqtt", Some("./showcase/library.png"), [OpenSource, Library, V2]),
    User("go-orm-helper", Some("./showcase/go-orm-helper.png"), [OpenSource, Tool, V2])
  ]

  const UsersPart2: seq<User> := [
    User("GoFrame-Helper", Some("./showcase/goframe-helper.png"), [OpenSource, Tool, V2]),
    User("50CMSgo", Some("./showcase/50CMSgo.jpg"), [OpenSource, AdminUI, FrontUI, V2]),
    User("TEN-Agent", Some("./showcase/TEN-Agent.png"), [OpenSource, AI, FrontUI, V1]),
    User("Go-Admin", Some("./showcase/go-admin.png"), [OpenSource, AdminUI, V2]),
    User("Cool-Go-Admin", Some("./showcase/cool-go-admin.png"), [OpenSource, Product, AdminUI, V2]),
    User("Jie", Some("./showcase/jie.png"), [OpenSource, Tool, V1]),
    User("Venom-Crawler", Some("./showcase/Venom-Crawler.png"), [OpenSource, Tool, V1]),
    User("gvc", Some("./showcase/gvc.png"), [OpenSource, Tool, V2]),
    User("veinmind-tools", Some("./showcase/veinmind-tools.png"), [OpenSource, Tool, V1]),
    User("gogs", Some("./showcase/gogs.png"), [OpenSource, V1]),
    User("wscan", Some("./showcase/wscan.png"), [OpenSource, Tool, V1]),
    User("scan4all", Some("./showcase/scan4all.png"), [OpenSource, Tool, V1]),
    User("crawlergo", Some("./showcase/crawlergo.png"), [OpenSource, Tool, V1])
  ]

  const UsersPart3: seq<User> := [
    User("智元 Fast API SDK", Some("./showcase/fastapi-sdk.png"), [OpenSource, AdminUI, V2]),
    User("skywalking-go", Some("./showcase/library.png"), [OpenSource, Library, V2]),
    User("web-firewall", Some("./showcase/web-firewall.jpg"), [OpenSource, AdminUI, Tool, V2]),
    User("蜂鸟(HummingBird)", Some("./showcase/hummingbird.png"), [OpenSource, AdminUI, V2]),
    User("Shopsuite Go商城系统", Some("./showcase/golershop.png"), [OpenSource, AdminUI, FrontUI, V2]),
    User("asciinema", Some("./showcase/asciinema.png"), [OpenSource, Tool, V2]),
    User("version-manager", Some("./showcase/version-manager.png"), [OpenSource, Tool, V2]),
    User("土拨鼠开源充电系统", Some("./showcase/HarmonyOS-groundhog-charging-system.png"), [OpenSource, AdminUI, FrontUI, V2]),
    User("智元 IIM", Some("./showcase/iim-client.png"), [OpenSource, AdminUI, FrontUI, V2]),
    User("Chatcat", Some("./showcase/chatcat.png"), [OpenSource, Tool, AI, V2]),
    User("KubeCube", Some("./showcase/kubecube.png"), [OpenSource, AdminUI, CloudNative, V2]),
    User("GoFrame-Vue-Element-Admin", Some("./showcase/goframe-vue-element-admin.png"), [OpenSource, AdminUI, V2]),
    User("devinggo", Some("./showcase/devinggo.png"), [OpenSource, AdminUI, V2])
  ]

  predicate IsFavorite(u: User) {
    Favorite in u.tags
  }

  /** Key of the second pass, `!user.tags.includes('favorite')`. */
  function NotFavorite(u: User): bool {
    !IsFavorite(u)
  }

  /** Key of the first pass, `user.title.toLowerCase()`. */
  function TitleKey(u: User): string {
    Lower(u.title)
  }

  /** One stable sort by lower-cased title. */
  function SortByTitle(users: seq<User>): seq<User> {
    CodeUnitLessIsStrictTotal();
    SortBy(users, TitleKey, CodeUnitLess)
  }

  /** `sortUsers`, over any list of entries: a stable sort by lower-cased
      title, then a stable sort by "not a favourite". The result holds the
      same entries, favourites first, titles ascending within each block. */
  function SortUsers(users: seq<User>): (r: seq<User>)
    ensures multiset(r) == multiset(users)
    ensures forall i, j :: 0 <= i < j < |r| && IsFavorite(r[j]) ==> IsFavorite(r[i])
    ensures forall i, j :: 0 <= i < j < |r| && IsFavorite(r[i]) == IsFavorite(r[j]) ==>
                           !CodeUnitLess(TitleKey(r[j]), TitleKey(r[i]))
  {
    CodeUnitLessIsStrictTotal();
    BoolLessIsStrictTotal();
    var byTitle := SortByTitle(users);
    var r := SortBy(byTitle, NotFavorite, BoolLess);
    TwoPassIsLexSort(users, NotFavorite, BoolLess, TitleKey, CodeUnitLess);
    CompositeOrder(r);
    r
  }

  /** What sortedness on the composite key says about two positions. */
  lemma CompositeOrder(r: seq<User>)
    requires SortedBy(r, Pair(NotFavorite, TitleKey), Lex(BoolLess, CodeUnitLess))
    ensures forall i, j :: 0 <= i < j < |r| && IsFavorite(r[j]) ==> IsFavorite(r[i])
    ensures forall i, j :: 0 <= i < j < |r| && IsFavorite(r[i]) == IsFavorite(r[j]) ==>
                           !CodeUnitLess(TitleKey(r[j]), TitleKey(r[i]))
  {
    forall i, j | 0 <= i < j < |r|
      ensures IsFavorite(r[j]) ==> IsFavorite(r[i])
      ensures IsFavorite(r[i]) == IsFavorite(r[j]) ==> !CodeUnitLess(TitleKey(r[j]), TitleKey(r[i]))
    {
      var p, q := Pair(NotFavorite, TitleKey)(r[j]), Pair(NotFavorite, TitleKey)(r[i]);
      assert p == (NotFavorite(r[j]), TitleKey(r[j])) && q == (NotFavorite(r[i]), TitleKey(r[i]));
      assert !Lex(BoolLess, CodeUnitLess)(p, q);
      assert !BoolLess(p.0, q.0) && (p.0 == q.0 ==> !CodeUnitLess(p.1, q.1));
    }
  }

  /** The sorted catalogue. */
  const SortedUsers: seq<User> := SortUsers(Users)

  /** The reference ordering: one stable sort on the composite key
      (favourites first, then lower-cased title ascending). */
  function SortByFavoriteThenTitle(users: seq<User>): seq<User> {
    CodeUnitLessIsStrictTotal();
    BoolLessIsStrictTotal();
    LexIsStrictTotal(BoolLess, CodeUnitLess);
    SortBy(users, Pair(NotFavorite, TitleKey), Lex(BoolLess, CodeUnitLess))
  }

  /** The favourite entries, in their order. */
  function Favorites(users: seq<User>): seq<User> {
    WithKey(users, NotFavorite, false)
  }

  /** The other entries, in their order. */
  function Others(users: seq<User>): seq<User> {
    WithKey(users, NotFavorite, true)
  }

  /** The entries with a given favourite status and lower-cased title, in
      their order: the entries the ordering cannot tell apart. */
  function SameRank(users: seq<User>, favorite: bool, title: string): seq<User> {
    WithKey(users, Pair(NotFavorite, TitleKey), (!favorite, title))
  }

  /** The two passes are one stable sort on the composite key. */
  lemma SortUsersIsSingleSort(users: seq<User>)
    ensures SortUsers(users) == SortByFavoriteThenTitle(users)
  {
    CodeUnitLessIsStrictTotal();
    BoolLessIsStrictTotal();
    TwoPassIsLexSort(users, NotFavorite, BoolLess, TitleKey, CodeUnitLess);
  }

  /** Stability: entries with the same favourite status and the same
      lower-cased title keep their relative order. */
  lemma SortUsersStable(users: seq<User>, favorite: bool, title: string)
    ensures SameRank(SortUsers(users), favorite, title) == SameRank(users, favorite, title)
  {
    SortUsersIsSingleSort(users);
  }

  /** Sorting the sorted catalogue again changes nothing. */
  lemma SortUsersIdempotent(users: seq<User>)
    ensures SortUsers(SortUsers(users)) == SortUsers(users)
  {
    CodeUnitLessIsStrictTotal();
    BoolLessIsStrictTotal();
    LexIsStrictTotal(BoolLess, CodeUnitLess);
    SortUsersIsSingleSort(users);
    SortUsersIsSingleSort(SortUsers(users));
    SortByIdempotent(users, Pair(NotFavorite, TitleKey), Lex(BoolLess, CodeUnitLess));
  }

  /** The result is the favourites sorted by title followed by the other
      entries sorted by title. */
  lemma SortUsersBlocks(users: seq<User>)
    ensures SortUsers(users) == SortByTitle(Favorites(users)) + SortByTitle(Others(users))
  {
    CodeUnitLessIsStrictTotal();
    TwoPassBlocks(users, NotFavorite, TitleKey, CodeUnitLess);
  }

  /** Without favourites, the result is the plain title sort. */
  lemma SortUsersWithoutFavorites(users: seq<User>)
    requires forall u :: u in users ==> !IsFavorite(u)
    ensures SortUsers(users) == SortByTitle(users)
  {
    SortUsersBlocks(users);
    WithKeyAll(users, NotFavorite, true);
    assert Favorites(users) == [];
  }

  /** An empty catalogue sorts to an empty list. */
  lemma SortUsersEmpty()
    ensures SortUsers([]) == []
  {
  }

  /** The block after the favourites holds no favourite. */
  lemma SortedOthersAreNotFavorites(users: seq<User>)
    ensures forall u :: u in SortByTitle(Others(users)) ==> !IsFavorite(u)
  {
    var rest := SortByTitle(Others(users));
    forall u | u in rest
      ensures !IsFavorite(u)
    {
      assert u in multiset(rest);
      assert u in multiset(Others(users));
      assert u in Others(users);
    }
  }

  /** Every tag of every entry has its entry in the `Tags` record. */
  lemma EveryEntryTagIsDescribed(users: seq<User>)
    ensures forall u, t :: u in users && t in u.tags ==> Lookup(TagTable, Key(t)).Some?
  {
    TagTableIsTotal();
  }

  /* The shipped catalogue. Facts about the literal are proved run by run
     and carried over to the whole list by lemmas over arbitrary lists. */

  /** GFast, HotGo, EasyGoAdmin and SagooIOT carry the favourite tag. */
  lemma FirstPartFavorites()
    ensures IsFavorite(UsersPart0[0]) && IsFavorite(UsersPart0[4])
    ensures IsFavorite(UsersPart0[10]) && IsFavorite(UsersPart0[11])
  {
  }

  /** No other entry of the first run does. */
  lemma FirstPartNoOtherFavorites()
    ensures forall m :: 0 <= m < |UsersPart0| && IsFavorite(UsersPart0[m]) ==> m in [0, 4, 10, 11]
  {
  }

  /** So 0, 4, 10 and 11 are the positions of the favourites there. */
  lemma FirstPartFavoritePositions()
    ensures PositionsOf([0, 4, 10, 11], UsersPart0, NotFavorite, false)
  {
    FirstPartFavorites();
    FirstPartNoOtherFavorites();
  }

  /** Selecting the favourites of a list from their four positions. */
  lemma FavoritesAt(s: seq<User>, idx: seq<int>)
    requires |idx| == 4 && PositionsOf(idx, s, NotFavorite, false)
    ensures Favorites(s) == [s[idx[0]], s[idx[1]], s[idx[2]], s[idx[3]]]
  {
    WithKeyAt(s, NotFavorite, false, idx);
  }

  lemma FavoritesOfFirstPart()
    ensures Favorites(UsersPart0) == [UsersPart0[0], UsersPart0[4], UsersPart0[10], UsersPart0[11]]
  {
    FirstPartFavoritePositions();
    FavoritesAt(UsersPart0, [0, 4, 10, 11]);
  }

  /** The three later runs hold no favourite. */
  lemma NoFavoriteInPart1()
    ensures forall u :: u in UsersPart1 ==> !IsFavorite(u)
  {
  }

  lemma NoFavoriteInPart2()
    ensures forall u :: u in UsersPart2 ==> !IsFavorite(u)
  {
  }

  lemma NoFavoriteInPart3()
    ensures forall u :: u in UsersPart3 ==> !IsFavorite(u)
  {
  }

  /** Appending runs without favourites adds no favourite. */
  lemma FavoritesOfRuns(p0: seq<User>, p1: seq<User>, p2: seq<User>, p3: seq<User>)
    requires forall u :: u in p1 ==> !IsFavorite(u)
    requires forall u :: u in p2 ==> !IsFavorite(u)
    requires forall u :: u in p3 ==> !IsFavorite(u)
    ensures Favorites(p0 + p1 + p2 + p3) == Favorites(p0)
  {
    WithKeyNone(p1, NotFavorite, false);
    WithKeyNone(p2, NotFavorite, false);
    WithKeyNone(p3, NotFavorite, false);
    WithKeyConcat(p0, p1, NotFavorite, false);
    WithKeyConcat(p0 + p1, p2, NotFavorite, false);
    WithKeyConcat(p0 + p1 + p2, p3, NotFavorite, false);
  }

  /** The shipped favourites, in catalogue order. */
  lemma ShippedFavorites()
    ensures Favorites(Users) == [UsersPart0[0], UsersPart0[4], UsersPart0[10], UsersPart0[11]]
  {
    FavoritesOfFirstPart();
    NoFavoriteInPart1();
    NoFavoriteInPart2();
    NoFavoriteInPart3();
    FavoritesOfRuns(UsersPart0, UsersPart1, UsersPart2, UsersPart3);
  }

  /** The titles of the four favourites. */
  lemma FavoriteTitles()
    ensures UsersPart0[0].title == "GFast" && UsersPart0[4].title == "HotGo"
    ensures UsersPart0[10].title == "EasyGoAdmin" && UsersPart0[11].title == "SagooIOT"
  {
  }

  /** Titles whose first letters differ, ignoring case, are ordered by
      those letters. */
  lemma TitleBefore(u: User, v: User)
    requires u.title != [] && v.title != []
    requires LowerChar(u.title[0]) < LowerChar(v.title[0])
    ensures CodeUnitLess(TitleKey(u), TitleKey(v))
  {
  }

  /** Their lower-cased titles in ascending order: "easygoadmin",
      "gfast", "hotgo", "sagooiot". */
  lemma FavoriteTitleOrder()
    ensures CodeUnitLess(TitleKey(UsersPart0[10]), TitleKey(UsersPart0[0]))
    ensures CodeUnitLess(TitleKey(UsersPart0[0]), TitleKey(UsersPart0[4]))
    ensures CodeUnitLess(TitleKey(UsersPart0[4]), TitleKey(UsersPart0[11]))
  {
    FavoriteTitles();
    TitleBefore(UsersPart0[10], UsersPart0[0]);
    TitleBefore(UsersPart0[0], UsersPart0[4]);
    TitleBefore(UsersPart0[4], UsersPart0[11]);
  }

  /** Four favourites whose titles rank second, third, first and fourth
      come out of the title sort in that order. */
  lemma FourFavoritesByTitle(users: seq<User>, a: User, b: User, c: User, d: User)
    requires Favorites(users) == [a, b, c, d]
    requires CodeUnitLess(TitleKey(c), TitleKey(a))
    requires CodeUnitLess(TitleKey(a), TitleKey(b))
    requires CodeUnitLess(TitleKey(b), TitleKey(d))
    ensures SortByTitle(Favorites(users)) == [c, a, b, d]
  {
    CodeUnitLessIsStrictTotal();
    SortByFour(a, b, c, d, TitleKey, CodeUnitLess);
  }

  /** The shipped favourites in title order: EasyGoAdmin, GFast, HotGo,
      SagooIOT. */
  lemma ShippedFavoritesByTitle()
    ensures SortByTitle(Favorites(Users)) == [UsersPart0[10], UsersPart0[0], UsersPart0[4], UsersPart0[11]]
  {
    ShippedFavorites();
    FavoriteTitleOrder();
    FourFavoritesByTitle(Users, UsersPart0[0], UsersPart0[4], UsersPart0[10], UsersPart0[11]);
  }

  /** The sorted catalogue is the favourites in title order, then the
      other entries in title order. */
  lemma SortedUsersBlocks()
    ensures SortedUsers == SortByTitle(Favorites(Users)) + SortByTitle(Others(Users))
  {
    SortUsersBlocks(Users);
  }
}
