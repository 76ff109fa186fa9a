# Song and Review search criteria (ManyMany), modelled in Dafny

This project models the query-building part of the ManyMany catalogue
(songs, genres, reviewers, reviews). It covers two Yii active-record models:

- `Song::search()` turns the filter inputs on a Song (name, artist, album,
  genre, review, reviewer), its `scenario` string and optional caller
  criteria into a data provider. The provider has a root model class, a
  criteria object and a fixed sort attribute map.
  - Scenario `SongGenre` roots on SongGenre.
  - Scenario `Review` roots on Review and may add the aggregated-genre
    subquery join (`gsq`).
  - Every other scenario roots on Song.
- `Song::getGenreNames()` is a memoised split of a song's genre-join rows into
  `pri` and `sec` name lists, using the `is_primary` flag.
- `Review::search()` is a three-condition criteria builder.
- Both models' `rules()` tables and `Review::relations()` are included as
  constants.

Files:

- `yii.dfy` (module `Yii`): the framework pieces these models use.
  - `DbCriteria` is a class whose `Compare`, `SetJoin` and `MergeWith` methods
    change its fields in place.
  - Also here: conditions, the sort attribute entry, the data provider value,
    the shapes of rules and relations, and PHP truthiness.
- `tokenize.dfy` (module `Tokenize`): `preg_split('/[\s,.]+/', …)` as the
  function `Split`. Its piece count is proved equal to one more than an
  independent count of separator runs, made one character at a time. Putting
  the removed runs back between the pieces is proved to rebuild the text.
- `songs.dfy` (module `Songs`): the `Song` class.
  - `Search` builds a fresh `DbCriteria` through the same sequence of
    `compare`/`join`/`mergeWith` steps as the PHP. Its branches are split
    into `CompareBySongGenre`, `CompareByReview` and the genre-piece loop
    `CompareGenrePieces`.
  - `Search` is proved equal to the specification function `SearchSpec`.
    The lemmas beside it state the properties of each branch.
  - `GetGenreNames` writes the nullable cache field `genreNames` and fills
    the two lists in a loop. It is proved against the reference filters
    `PrimaryNames` and `SecondaryNames`. The invariant `Valid()` says that a
    filled cache always has exactly the keys `pri` and `sec`.
- `reviews.dfy` (module `Reviews`): the `Review` class, its rules and its
  relations.

How values are represented:

- A PHP `null` filter input is `None`.
- `compare` is a plain append of `(column, value, partial, op)`.
- The join is a string property: `""` means unset, and the one join text the
  code sets is the constant `GenreAggregateJoin`.
- The caller's `criteria` property is only present or absent (`hasCriteria`).
- A merge is recorded as the number of conditions present when it ran. This
  makes "merged after all branch conditions" something the model can state.
- The sort directions that `CSort` would read from the request are an input
  set of keys.

Two quirks of the code are kept as written:

- In the Review branch, each genre piece after the first adds an OR condition
  carrying the whole untokenised genre text. The loop variable is never used.
- A genre input of `""` is not `null`. It therefore still adds the join and
  calls `compare` once with `""` on `gsq.gnames`. Yii's own `compare` would
  then drop that empty value (see the first line under "## Left out").

Other facts about the code that the model keeps:

- Scenario strings are compared literally: `SongGenre`, `Review`, and
  anything else.
- The `genre.name` compare in the SongGenre branch is a partial match.
- Sort keys other than `genres` have no effect on the result
  (`OnlyGenresSortKeyMatters`).
- The models do no escaping of the filter text.
- `search()` sets no group-by or limit of its own. Those come only through
  the caller's criteria.

## Model

| member | source | states |
|---|---|---|
| `Songs.Song.Search` | protected/models/Song.php:89-185 | the data provider built step by step on a fresh criteria object equals `SearchSpec` of the scenario, the filter inputs, the requested sort keys and the presence of caller criteria |
| `Songs.Song.CompareBySongGenre` | protected/models/Song.php:120-137 | starting from empty criteria, the SongGenre branch leaves exactly that branch's four conditions, its join (set only for the `genres` sort key) and no merge |
| `Songs.Song.CompareByReview` | protected/models/Song.php:138-167 | starting from empty criteria, the Review branch leaves exactly that branch's conditions (five fixed ones, then the genre conditions), its join and no merge |
| `Songs.CompareGenrePieces` | protected/models/Song.php:158-166 | the loop over the leftover genre pieces appends exactly `GenreConditions(genre)`: nothing for null, else one AND on the first piece and one OR on the whole text per remaining piece; join and merge untouched |
| `Songs.RootSelection` | protected/models/Song.php:120-175 | root is SongGenre iff scenario is `SongGenre`, Review iff `Review`, Song iff neither (so also for `search` and any other string) |
| `Songs.DefaultBranch` | protected/models/Song.php:169-175 | any other scenario gives exactly three partial AND compares on `name`, `artist`, `album` in that order with the matching inputs, and no join |
| `Songs.DefaultIgnoresGenreAndSort` | protected/models/Song.php:169-175 | in the default branch two calls agreeing on name, artist and album give the same provider, whatever the genre input and the sort keys |
| `Songs.SongGenreBranch` | protected/models/Song.php:120-137 | four partial AND compares on `song.name`, `song.artist`, `song.album`, `genre.name` with the matching inputs; the join is the aggregate iff `genres` is a requested sort key, and empty otherwise |
| `Songs.SongGenreJoinIgnoresGenre` | protected/models/Song.php:126-137 | in the SongGenre branch a non-null genre filter without the `genres` sort key leaves the join unset |
| `Songs.ReviewBranch` | protected/models/Song.php:138-157 | the first five conditions are partial AND compares on `song.name`, `song.artist`, `song.album`, `t.review`, `reviewer.name` with the matching inputs; the join is set iff `genres` is requested or genre is not null |
| `Songs.ReviewEmptyGenre` | protected/models/Song.php:146-161 | an empty-string genre still sets the join and adds one AND condition on `gsq.gnames` with value `""` |
| `Songs.ReviewGenreConditions` | protected/models/Song.php:158-166 | null genre: only the five fixed conditions; otherwise 6 + (number of separator runs) conditions, the sixth an AND on the first piece, every later one an OR on `gsq.gnames` with the whole genre text |
| `Songs.ReviewRockPop` | protected/models/Song.php:158-166 | genre `"rock, pop"` adds an AND on `"rock"` followed by an OR on `"rock, pop"` |
| `Songs.OrOnlyOnGenreNames` | protected/models/Song.php:120-175 | an OR condition only ever appears in the Review scenario and only on `gsq.gnames` |
| `Songs.JoinIsTheAggregate` | protected/models/Song.php:128-157 | the join is either unset or the single aggregated-genre join text, in every scenario |
| `Songs.MergeComesLast` | protected/models/Song.php:177-179 | caller criteria are merged iff present, and the merge happens after every branch condition has been appended |
| `Songs.OnlyGenresSortKeyMatters` | protected/models/Song.php:128-148 | the result depends on the requested sort keys only through whether `genres` is among them, so unknown keys are the same as none |
| `Songs.SortMapInEveryScenario` | protected/models/Song.php:93-118 | every scenario gets the same six sort keys in order; each maps to `<col> asc`/`<col> desc`, `review` to `t.review` and `genres` to `gsq.gnames` |
| `Songs.Song.GetGenreNames` | protected/models/Song.php:65-78 | the cache invariant holds before and after, and the result always has exactly the keys `pri` and `sec`; the first call returns and caches the map holding the names of the truthy-flag rows and of the others, in input order; a later call returns the cache unchanged and ignores the rows |
| `Songs.PartitionExtends` | protected/models/Song.php:71-74 | one more row extends exactly one of the two lists, chosen by its flag, by its name |
| `Songs.PartitionIsComplete` | protected/models/Song.php:65-78 | the two lists' lengths add up to the number of rows, and together they hold the multiset of all row names |
| `Songs.PartitionByFlag` | protected/models/Song.php:72-73 | each row's name is in `pri` when its flag is truthy and in `sec` otherwise |
| `Songs.SongSafeAttributes` | protected/models/Song.php:47-52 | name, artist, album are safe in `search`; all six filter inputs are safe in `SongGenre` and `Review`; nothing is safe in any other scenario |
| `Tokenize.Split` | protected/models/Song.php:159 | the split gives at least one piece, and no piece contains whitespace, a comma or a period |
| `Tokenize.SplitRoundTrip` | protected/models/Song.php:159 | the runs the split removes, one fewer than the pieces, are non-empty strings of separators; every piece strictly between two runs is non-empty; putting the runs back between the pieces rebuilds the text, so the pieces are exactly the segments between maximal separator runs |
| `Tokenize.SplitCount` | protected/models/Song.php:159-166 | the number of pieces is one more than the number of maximal separator runs, counted one character at a time |
| `Tokenize.FirstPiece` | protected/models/Song.php:159-161 | the piece `array_shift` takes is the longest separator-free prefix of the text |
| `Tokenize.SplitWithoutSeparator` | protected/models/Song.php:159-162 | text without separators is one piece, the whole text, so no OR condition follows |
| `Tokenize.RockPop` | protected/models/Song.php:159 | `"rock, pop"` splits into `"rock"` and `"pop"` |
| `Reviews.Review.Search` | protected/models/Review.php:41-51 | exactly three partial AND compares, in order `reviewer_id`, `song_id`, `review`, with the matching attributes; the root is Review; no join, no merge, no sort map |
| `Reviews.NoSafeAttributes` | protected/models/Review.php:22-24 | no attribute is safe in any scenario |
| `Reviews.TwoBelongsToRelations` | protected/models/Review.php:26-31 | exactly two BELONGS_TO relations: `reviewer` to Reviewer by `reviewer_id` and `song` to Song by `song_id`; no other name resolves |

## Left out

- `CDbCriteria::compare` internals are not modelled: skipping empty values,
  parsing a leading comparison operator, and LIKE escaping. Every call
  appends a condition, even for a null or empty value. The model therefore
  does not say that leaving all filter inputs empty adds no condition to the
  query, because only that skipping makes it true.
- `mergeWith` combination rules are not modelled. The caller's criteria are
  opaque (present or absent), and only the fact and the moment of the merge
  are recorded.
- CSort's parsing of directions from the request is not modelled. The
  requested keys are an input set.
- Pagination and the `CActiveDataProvider` page size are not modelled; they
  belong to the framework and the view.
- The SQL of the aggregated-genre subquery and all database execution are
  left out. The join text is an uninterpreted constant.
- `Reviews.Review.Search` roots on the model class Review. The model does not
  distinguish the Review instance itself from a fresh Review, because object
  identity does not reach the criteria.
- The relational loading `with('hasGenres', 'hasGenres.genre')` in
  `getGenreNames` is left out. The loaded rows are an input sequence.
- `Songs.Song.GetGenreNames`: the `is_primary` value is taken to be a nullable
  string as the database driver returns it. PHP truthiness of integer or
  boolean values is not modelled.
- Applying rules to a scenario is simplified. `on` lists are taken as already
  split, and `except` is not modelled, because neither model uses it.
  `SafeAttributeNames` counts only rules whose validator is `safe`.
  In Yii every validator except `unsafe` makes its attributes safe. This
  makes no difference for the two tables here, where every rule is `safe`.
- `tableName()`, `attributeLabels()`, `model()` and `Song::relations()` are
  declarative metadata with no effect on the criteria built.
- The grid view (`protected/views/song/grid.php`) is UI rendering and is left
  out. Its preset `with`/`group` reaches `search()` only as the opaque caller
  criteria.
