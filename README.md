# Showcase catalogue ordering and tag taxonomy

This project models `src/data/users.tsx` of the GoFrame documentation site
and proves properties of it in Dafny. The file defines three things:

- the tag taxonomy: the `TagType` keys, the `Tags` record giving each key a
  label, a description and a colour, and `TagList`, the record's keys;
- the `Users` catalogue of showcase projects;
- `sortUsers`, which stably sorts the catalogue by lower-cased title and
  then stably by "not a favourite". Its result is exported as `sortedUsers`.

Modules:

- `Orders` (`orders.dfy`): strict total orders, JavaScript's `false < true`
  on booleans, and the lexicographic order on pairs.
- `Strings` (`strings.dfy`): ASCII lower-casing and string comparison
  character by character.
- `Sorting` (`sorting.dfy`): the `sortBy(array, getter)` helper. It is
  specified by its contract (ascending, stable) and written as an insertion
  sort. It is proved to be a permutation, sorted and stable.
  - Stability is stated without positions: for every key value, the entries
    carrying that key appear in the same order before and after the sort.
  - A sorted, stable result is unique. This gives the two-pass results: one
    sort on the composite key, idempotence, and the split into two blocks.
- `Tags` (`tags.dfy`): the taxonomy.
- `Showcase` (`users.dfy`): entries, the catalogue, `sortUsers` and
  `sortedUsers`, and facts about the shipped data.
- `OrderingExamples` (`ordering_examples.dfy`): small catalogues that show
  the ordering.
- `Wrappers` (`wrappers.dfy`): `Option`.

The catalogue literal is written as four runs of thirteen entries,
concatenated, in source order. The verifier reasons about each run
separately, and general lemmas carry the results over to the whole list.

The code declares twelve tag keys (src/data/users.tsx:5-17), and the
model follows the code. `TagList` follows the order of the `Tags` record,
where `frontui` comes before `adminui`. That differs from the order of the
`TagType` union.

## Model

| member | source | states |
|---|---|---|
| Orders.BoolLessIsStrictTotal | src/data/users.tsx:569 | `<` on booleans (only `false < true`) is a strict total order |
| Orders.LexIsStrictTotal | src/data/users.tsx:566-569 | comparing first keys, then second keys, is a strict total order when both key orders are |
| Strings.Lower | src/data/users.tsx:567 | `toLowerCase` keeps the length, folds each character, and leaves no ASCII upper-case letter |
| Strings.LowerIdempotent | src/data/users.tsx:567 | lower-casing a lower-cased title changes nothing |
| Strings.CodeUnitLessMeaning | src/data/users.tsx:567 | `a < b` on titles holds exactly when `a` is a proper prefix of `b` or the first differing character of `a` is smaller |
| Strings.CodeUnitLessIsStrictTotal | src/data/users.tsx:567 | string comparison is irreflexive, transitive and total on distinct strings |
| Sorting.WithKey | src/data/users.tsx:567-569 | the entries with a given key, in order: exactly the members of the input carrying that key |
| Sorting.Insert | src/data/users.tsx:567 | inserting adds exactly one occurrence of the element |
| Sorting.InsertWithKey | src/data/users.tsx:567 | insertion puts the element in front of its own key's entries and leaves other keys' entries alone |
| Sorting.InsertSorted | src/data/users.tsx:567 | inserting into a sorted list keeps it sorted |
| Sorting.SortBy | src/data/users.tsx:567-569 | `sortBy` returns a permutation of its input, sorted ascending by the key, and stable (the entries of each key keep their input order) |
| Sorting.SortedStableUnique | src/data/users.tsx:567-569 | two lists sorted by a key, with the same entries in the same order for each key, are equal |
| Sorting.SortByOfSorted | src/data/users.tsx:567-569 | sorting an already sorted list returns it unchanged |
| Sorting.SortByIdempotent | src/data/users.tsx:567-569 | sorting twice by the same key equals sorting once |
| Sorting.WithKeyConcat | src/data/users.tsx:567-569 | selecting by key distributes over concatenation |
| Sorting.TwoPassIsLexSort | src/data/users.tsx:566-569 | a stable sort by a second key, then a stable sort by a first key, equals one stable sort by the pair of keys in lexicographic order |
| Sorting.BoolSortIsPartition | src/data/users.tsx:569 | a stable sort by a boolean key puts the `false` entries first, then the `true` entries, each in input order |
| Sorting.TwoPassBlocks | src/data/users.tsx:566-569 | sort by a key, then by a boolean: equals the `false` entries sorted by the key, followed by the `true` entries sorted by the key |
| Sorting.WithKeyAt | src/data/users.tsx:569 | the entries with a key are those at the positions carrying it, in increasing order of position |
| Sorting.SortByFour | src/data/users.tsx:567 | four entries whose keys rank second, third, first and fourth sort to the order third, first, second, fourth |
| Tags.ParseTag | src/data/users.tsx:5-17 | a string is read as a tag key exactly when it is the spelling of one |
| Tags.KeyInjective | src/data/users.tsx:5-17 | distinct tag keys have distinct spellings |
| Tags.Lookup | src/data/users.tsx:454 | reading `Tags[key]`: a found tag is an entry of the record; none is found only when no entry has that key |
| Tags.Keys | src/data/users.tsx:563 | `Object.keys`: the record's keys, in order |
| Tags.TagListIsObjectKeys | src/data/users.tsx:563 | `TagList` has twelve keys, spelled as the record's keys in the record's order |
| Tags.TagListEnumeratesTagTypes | src/data/users.tsx:5-17 | `TagList` holds every tag key, each exactly once |
| Tags.TagTableIsTotal | src/data/users.tsx:454-561 | the `Tags` record has an entry for every tag key |
| Tags.TagTableIsClosed | src/data/users.tsx:454-561 | every entry of the record is keyed by a tag key, and no key is used twice |
| Tags.Describe | src/data/users.tsx:454-561 | `Tags[t]` is defined for every key and is that key's entry in the record |
| Showcase.SortUsers | src/data/users.tsx:564-571 | `sortUsers` returns the same entries with the same multiplicity, favourites before every other entry, lower-cased titles ascending within each block |
| Showcase.CompositeOrder | src/data/users.tsx:566-569 | sortedness on (not a favourite, lower-cased title) means favourites first, then titles ascending within each block |
| Showcase.SortUsersIsSingleSort | src/data/users.tsx:566-569 | the two passes equal one stable sort by favourite first, then lower-cased title |
| Showcase.SortUsersStable | src/data/users.tsx:567-569 | entries with the same favourite status and the same lower-cased title keep their input order |
| Showcase.SortUsersIdempotent | src/data/users.tsx:564-571 | sorting the sorted list again returns it unchanged |
| Showcase.SortUsersBlocks | src/data/users.tsx:566-569 | the result is the favourites sorted by title, followed by the other entries sorted by title |
| Showcase.SortUsersEmpty | src/data/users.tsx:564-571 | an empty catalogue sorts to an empty list |
| Showcase.SortUsersWithoutFavorites | src/data/users.tsx:569 | with no favourite, the result is the plain title sort |
| Showcase.SortedOthersAreNotFavorites | src/data/users.tsx:569 | the block after the favourites holds no favourite |
| Showcase.EveryEntryTagIsDescribed | src/data/users.tsx:445 | every tag of every entry has its entry in `Tags` |
| Showcase.FirstPartFavorites | src/data/users.tsx:21-124 | GFast, HotGo, EasyGoAdmin and SagooIOT carry the favourite tag |
| Showcase.FirstPartNoOtherFavorites | src/data/users.tsx:21-124 | no other entry of the first thirteen carries it |
| Showcase.FavoritesOfFirstPart | src/data/users.tsx:21-124 | the favourites among the first thirteen entries are entries 0, 4, 10 and 11, in that order |
| Showcase.NoFavoriteInPart1 | src/data/users.tsx:125-228 | entries 13 to 25 are not favourites |
| Showcase.NoFavoriteInPart2 | src/data/users.tsx:229-332 | entries 26 to 38 are not favourites |
| Showcase.NoFavoriteInPart3 | src/data/users.tsx:333-436 | entries 39 to 51 are not favourites |
| Showcase.FavoritesOfRuns | src/data/users.tsx:20-437 | appending runs without favourites adds no favourite |
| Showcase.ShippedFavorites | src/data/users.tsx:20-437 | the favourites of the shipped catalogue are exactly GFast, HotGo, EasyGoAdmin and SagooIOT, in that order |
| Showcase.FavoriteTitles | src/data/users.tsx:22-110 | the titles of those four entries |
| Showcase.TitleBefore | src/data/users.tsx:567 | titles whose first letters differ, ignoring case, are ordered by those letters |
| Showcase.FavoriteTitleOrder | src/data/users.tsx:567 | lower-cased, the four favourite titles rank easygoadmin, gfast, hotgo, sagooiot |
| Showcase.FourFavoritesByTitle | src/data/users.tsx:567 | four favourites in that title ranking come out of the title sort in title order |
| Showcase.ShippedFavoritesByTitle | src/data/users.tsx:566-573 | the first block of `sortedUsers` is EasyGoAdmin, GFast, HotGo, SagooIOT |
| Showcase.SortedUsersBlocks | src/data/users.tsx:573 | `sortedUsers` is that block, followed by the other entries sorted by title |
| OrderingExamples.BlocksOfThree | src/data/users.tsx:569 | with only the middle of three entries a favourite, it alone is selected as favourite, and the other two keep their order |
| OrderingExamples.FavoriteMovesToFront | src/data/users.tsx:564-571 | a favourite between two other entries goes first; the other two follow in title order |
| OrderingExamples.FavoriteThenCaseInsensitiveTitle | src/data/users.tsx:564-571 | "Zeta", favourite "alpha" and "Beta" sort to "alpha", "Beta", "Zeta" |
| OrderingExamples.SameRankPairKeepsOrder | src/data/users.tsx:567-569 | two entries with the same favourite status and lower-cased title stay in input order |
| OrderingExamples.CaseVariantsKeepOrder | src/data/users.tsx:567-569 | favourites "Go-Admin" and "go-admin" stay in input order |

## Left out

- The `description`, `website` and `source` fields of an entry are not part of `Showcase.User`. The ordering never reads them, and carrying 52 long text literals makes every fact about the catalogue costlier to prove.
- `preview` is the path passed to the build tool's `require`, kept as an opaque string. Asset resolution is not modelled.
- `translate` is an external i18n facility. A tag's label and description are the default message strings (with the message id), not translated text.
- `toLowerCase` is modelled as an ASCII A-Z fold. Full Unicode case mapping is not modelled. No non-ASCII character in any title has case, so the ASCII fold gives the same result as `toLowerCase` on the catalogue.
- Titles are compared as sequences of Unicode scalar values. JavaScript compares UTF-16 code units. The two agree on the Basic Multilingual Plane, which holds every title in the catalogue.
- The body of `sortBy` in `src/utils/jsUtils` is not part of this model. The model gives it its contract (a stable ascending sort by key) through an insertion sort, relying on the stability of `Array.prototype.sort` (section 23.1.3.30 of ECMA-262, 2023 edition).
- `docusaurus.config.ts` is declarative site configuration. Its one computed value is a clock read, so it is not part of this model.
- Showcase.SortedUsersBlocks: the head of `sortedUsers` is stated in two lemmas, this one and `Showcase.ShippedFavoritesByTitle`. A single statement about the sorted 52-entry literal is too costly for the verifier.
