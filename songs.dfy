/** The Song model (protected/models/Song.php): the filter inputs it carries,
    its scenario-dependent search(), its memoised partition of genre names
    into primary and secondary, and its validation rules. */
module Songs {
  import opened Yii
  import opened Tokenize

  /** The filter inputs search() reads: the three table attributes and the
      three extra public properties (None stands for PHP null). */
  datatype Filters = Filters(name: Option<string>, artist: Option<string>, album: Option<string>,
                             genre: Option<string>, review: Option<string>, reviewer: Option<string>)

  /** The aggregated genre-names subquery join; only its identity matters here. */
  const GenreAggregateJoin: string :=
    "left join (select group_concat(distinct g.name separator \" \") as gnames, sg.song_id as sid "
    + "from song_genre sg inner join genre g on g.id = sg.genre_id group by sg.song_id) gsq "
    + "on gsq.sid = t.song_id"

  /** The sort key whose presence among the requested directions needs the join. */
  const GenresKey: string := "genres"

  /** The column the aggregated genre names are matched against. */
  const GenreNamesColumn: string := "gsq.gnames"

  /** The sort attribute map search() gives its CSort, in every scenario. */
  const SortMap: seq<SortAttribute> := [
    SortAttribute("song.name", "song.name asc", "song.name desc"),
    SortAttribute("song.artist", "song.artist asc", "song.artist desc"),
    SortAttribute("song.album", "song.album asc", "song.album desc"),
    SortAttribute("review", "t.review asc", "t.review desc"),
    SortAttribute("reviewer.name", "reviewer.name asc", "reviewer.name desc"),
    SortAttribute("genres", "gsq.gnames asc", "gsq.gnames desc")
  ]

  /** A partial-match condition combined with AND (compare(column, value, true)). */
  function Like(column: string, value: Option<string>): Condition
  {
    Condition(column, value, true, And)
  }

  /** The model class the data provider is rooted on, by scenario. */
  function RootFor(scenario: string): Root
  {
    if scenario == "SongGenre" then SongGenreRoot
    else if scenario == "Review" then ReviewRoot
    else SongRoot
  }

  /** The aggregated-genre conditions of the Review scenario: the first piece
      of the split filter text with AND, then one OR condition per remaining
      piece, each carrying the whole unsplit text. */
  function GenreConditions(genre: Option<string>): seq<Condition>
  {
    match genre
    case None => []
    case Some(g) =>
      var pieces := Split(g);
      [Like(GenreNamesColumn, Some(pieces[0]))]
      + seq(|pieces| - 1, _ => Condition(GenreNamesColumn, genre, true, Or))
  }

  /** The conditions each scenario adds, in the order it adds them. */
  function BranchConditions(scenario: string, f: Filters): seq<Condition>
  {
    if scenario == "SongGenre" then
      [Like("song.name", f.name), Like("song.artist", f.artist), Like("song.album", f.album),
       Like("genre.name", f.genre)]
    else if scenario == "Review" then
      [Like("song.name", f.name), Like("song.artist", f.artist), Like("song.album", f.album),
       Like("t.review", f.review), Like("reviewer.name", f.reviewer)]
      + GenreConditions(f.genre)
    else
      [Like("name", f.name), Like("artist", f.artist), Like("album", f.album)]
  }

  /** The join text each scenario sets ("" for none). */
  function BranchJoin(scenario: string, f: Filters, directions: set<string>): string
  {
    if scenario == "SongGenre" && GenresKey in directions then GenreAggregateJoin
    else if scenario == "Review" && (GenresKey in directions || f.genre.Some?) then GenreAggregateJoin
    else ""
  }

  /** The data provider search() returns, as a function of the scenario, the
      filter inputs, the requested sort keys and whether caller criteria are set. */
  function SearchSpec(scenario: string, f: Filters, directions: set<string>, hasCriteria: bool): DataProvider
  {
    var conditions := BranchConditions(scenario, f);
    DataProvider(RootFor(scenario),
                 CriteriaValue(conditions, BranchJoin(scenario, f, directions),
                               if hasCriteria then Some(|conditions|) else None),
                 Some(SortMap))
  }

  /** One row of the song's genre join (a SongGenre with its Genre loaded). */
  datatype GenreRow = GenreRow(isPrimary: Option<string>, genreName: string)

  /** Names of the rows flagged primary, in input order. */
  function PrimaryNames(rows: seq<GenreRow>): seq<string>
  {
    if rows == [] then []
    else (if Truthy(rows[0].isPrimary) then [rows[0].genreName] else []) + PrimaryNames(rows[1..])
  }

  /** Names of the rows not flagged primary, in input order. */
  function SecondaryNames(rows: seq<GenreRow>): seq<string>
  {
    if rows == [] then []
    else (if Truthy(rows[0].isPrimary) then [] else [rows[0].genreName]) + SecondaryNames(rows[1..])
  }

  /** Every row's name, in input order. */
  function AllNames(rows: seq<GenreRow>): (names: seq<string>)
    ensures |names| == |rows|
    ensures forall i :: 0 <= i < |rows| ==> names[i] == rows[i].genreName
  {
    if rows == [] then [] else [rows[0].genreName] + AllNames(rows[1..])
  }

  /** The rules() table. */
  const SongRules: seq<Rule> := [
    Rule(["name", "artist", "album"], "safe", ["search", "SongGenre", "Review"]),
    Rule(["genre", "review", "reviewer"], "safe", ["SongGenre", "Review"])
  ]

  class Song {
    var name: Option<string>
    var artist: Option<string>
    var album: Option<string>
    var genre: Option<string>
    var review: Option<string>
    var reviewer: Option<string>
    var scenario: string
    /** Whether the public criteria property holds caller criteria. */
    var hasCriteria: bool
    /** The private genre-name cache; None until first computed. */
    var genreNames: Option<map<string, seq<string>>>

    /** Whatever the cache holds is a partition with exactly the keys 'pri' and 'sec'. */
    ghost predicate Valid()
      reads this
    {
      genreNames.Some? ==> genreNames.value.Keys == {"pri", "sec"}
    }

    constructor (scenario: string)
      ensures Valid()
      ensures this.scenario == scenario && !hasCriteria && genreNames == None
      ensures Inputs() == Filters(None, None, None, None, None, None)
    {
      this.scenario := scenario;
      name, artist, album := None, None, None;
      genre, review, reviewer := None, None, None;
      hasCriteria := false;
      genreNames := None;
    }

    function Inputs(): (f: Filters)
      reads this
      ensures f.name == name && f.artist == artist && f.album == album
      ensures f.genre == genre && f.review == review && f.reviewer == reviewer
    {
      Filters(name, artist, album, genre, review, reviewer)
    }

    /** search(): builds a fresh criteria object branch by branch. */
    method Search(directions: set<string>) returns (dp: DataProvider)
      ensures dp == SearchSpec(scenario, Inputs(), directions, hasCriteria)
    {
      var criteria := new DbCriteria();
      var root: Root;
      if scenario == "SongGenre" {
        root := SongGenreRoot;
        CompareBySongGenre(criteria, directions);
      } else if scenario == "Review" {
        root := ReviewRoot;
        CompareByReview(criteria, directions);
      } else {
        root := SongRoot;
        criteria.Compare("name", name, true, And);
        criteria.Compare("artist", artist, true, And);
        criteria.Compare("album", album, true, And);
      }
      if hasCriteria {
        criteria.MergeWith();
      }
      dp := DataProvider(root, criteria.Value(), Some(SortMap));
    }

    /** The SongGenre branch of search(). */
    method CompareBySongGenre(criteria: DbCriteria, directions: set<string>)
      requires criteria.Value() == CriteriaValue([], "", None)
      modifies criteria
      ensures criteria.Value() == CriteriaValue(BranchConditions("SongGenre", Inputs()),
                                                BranchJoin("SongGenre", Inputs(), directions), None)
    {
      criteria.Compare("song.name", name, true, And);
      criteria.Compare("song.artist", artist, true, And);
      criteria.Compare("song.album", album, true, And);
      criteria.Compare("genre.name", genre, true, And);
      if GenresKey in directions {
        criteria.SetJoin(GenreAggregateJoin);
      }
    }

    /** The Review branch of search(), with its loop over the leftover genre pieces. */
    method CompareByReview(criteria: DbCriteria, directions: set<string>)
      requires criteria.Value() == CriteriaValue([], "", None)
      modifies criteria
      ensures criteria.Value() == CriteriaValue(BranchConditions("Review", Inputs()),
                                                BranchJoin("Review", Inputs(), directions), None)
    {
      criteria.Compare("song.name", name, true, And);
      criteria.Compare("song.artist", artist, true, And);
      criteria.Compare("song.album", album, true, And);
      criteria.Compare("t.review", review, true, And);
      criteria.Compare("reviewer.name", reviewer, true, And);
      if GenresKey in directions || genre.Some? {
        criteria.SetJoin(GenreAggregateJoin);
      }
      CompareGenrePieces(criteria, genre);
    }

    /** getGenreNames(): the first call partitions the given rows into the
        'pri' and 'sec' lists and caches the result; later calls return the
        cache without looking at the rows. */
    method GetGenreNames(rows: seq<GenreRow>) returns (names: map<string, seq<string>>)
      requires Valid()
      modifies this`genreNames
      ensures Valid() && names.Keys == {"pri", "sec"}
      ensures old(genreNames).Some? ==> names == old(genreNames).value && genreNames == old(genreNames)
      ensures old(genreNames).None? ==>
        names.Keys == {"pri", "sec"} && names["pri"] == PrimaryNames(rows)
        && names["sec"] == SecondaryNames(rows) && genreNames == Some(names)
    {
      if genreNames.None? {
        var partition: map<string, seq<string>> := map["pri" := [], "sec" := []];
        for i := 0 to |rows|
          invariant partition.Keys == {"pri", "sec"}
          invariant partition["pri"] == PrimaryNames(rows[..i])
          invariant partition["sec"] == SecondaryNames(rows[..i])
        {
          PartitionExtends(rows[..i], rows[i]);
          assert rows[..i + 1] == rows[..i] + [rows[i]];
          var key := if Truthy(rows[i].isPrimary) then "pri" else "sec";
          partition := partition[key := partition[key] + [rows[i].genreName]];
        }
        assert rows[..|rows|] == rows;
        genreNames := Some(partition);
      }
      names := genreNames.value;
    }
  }

  /** The genre tokenisation of search()'s Review branch: split the text,
      compare the first piece with AND, then loop over the remaining pieces
      comparing the whole text with OR each time. */
  method CompareGenrePieces(criteria: DbCriteria, genre: Option<string>)
    modifies criteria
    ensures criteria.conditions == old(criteria.conditions) + GenreConditions(genre)
    ensures criteria.join == old(criteria.join) && criteria.mergedAt == old(criteria.mergedAt)
  {
    if genre.Some? {
      var pieces := Split(genre.value);
      var first := pieces[0];
      var rest := pieces[1..];
      criteria.Compare(GenreNamesColumn, Some(first), true, And);
      ghost var before := criteria.conditions;
      ghost var alternative := Condition(GenreNamesColumn, genre, true, Or);
      for i := 0 to |rest|
        invariant criteria.conditions == before + seq(i, _ => alternative)
        invariant criteria.join == old(criteria.join) && criteria.mergedAt == old(criteria.mergedAt)
      {
        criteria.Compare(GenreNamesColumn, genre, true, Or);
        assert seq(i + 1, _ => alternative) == seq(i, _ => alternative) + [alternative];
      }
    }
  }

  /** Appending a row extends exactly one of the two lists, by its name. */
  lemma {:induction false} PartitionExtends(rows: seq<GenreRow>, row: GenreRow)
    ensures PrimaryNames(rows + [row]) == PrimaryNames(rows) + (if Truthy(row.isPrimary) then [row.genreName] else [])
    ensures SecondaryNames(rows + [row]) == SecondaryNames(rows) + (if Truthy(row.isPrimary) then [] else [row.genreName])
  {
    if rows != [] {
      assert (rows + [row])[1..] == rows[1..] + [row];
      PartitionExtends(rows[1..], row);
    } else {
      assert [row][1..] == [];
    }
  }

  /** The two lists together hold every row's name: their lengths add up to
      the number of rows and their contents to the multiset of all names. */
  lemma {:induction false} PartitionIsComplete(rows: seq<GenreRow>)
    ensures |PrimaryNames(rows)| + |SecondaryNames(rows)| == |rows|
    ensures multiset(PrimaryNames(rows)) + multiset(SecondaryNames(rows)) == multiset(AllNames(rows))
  {
    if rows != [] {
      PartitionIsComplete(rows[1..]);
    }
  }

  /** A row's name lands in 'pri' when its flag is truthy and in 'sec' otherwise. */
  lemma {:induction false} PartitionByFlag(rows: seq<GenreRow>, i: nat)
    requires i < |rows|
    ensures Truthy(rows[i].isPrimary) ==> rows[i].genreName in PrimaryNames(rows)
    ensures !Truthy(rows[i].isPrimary) ==> rows[i].genreName in SecondaryNames(rows)
  {
    if i > 0 {
      PartitionByFlag(rows[1..], i - 1);
    }
  }

  /** Root selection: 'SongGenre' roots on SongGenre, 'Review' on Review,
      every other scenario string on Song. */
  lemma RootSelection(scenario: string, f: Filters, directions: set<string>, hasCriteria: bool)
    ensures SearchSpec(scenario, f, directions, hasCriteria).root == SongGenreRoot <==> scenario == "SongGenre"
    ensures SearchSpec(scenario, f, directions, hasCriteria).root == ReviewRoot <==> scenario == "Review"
    ensures SearchSpec(scenario, f, directions, hasCriteria).root == SongRoot
            <==> scenario != "SongGenre" && scenario != "Review"
  {
  }

  /** The default branch: three partial AND conditions on the unqualified
      columns name, artist, album, and never a join. */
  lemma DefaultBranch(scenario: string, f: Filters, directions: set<string>, hasCriteria: bool)
    requires scenario != "SongGenre" && scenario != "Review"
    ensures var c := SearchSpec(scenario, f, directions, hasCriteria).criteria;
      && Columns(c.conditions) == ["name", "artist", "album"]
      && (forall i :: 0 <= i < |c.conditions| ==> c.conditions[i].partial && c.conditions[i].op == And)
      && c.conditions[0].value == f.name && c.conditions[1].value == f.artist
      && c.conditions[2].value == f.album
      && c.join == ""
  {
  }

  /** In the default branch neither the genre input nor the sort keys have
      any effect on the result. */
  lemma DefaultIgnoresGenreAndSort(scenario: string, f: Filters, g: Filters,
                                   d: set<string>, e: set<string>, hasCriteria: bool)
    requires scenario != "SongGenre" && scenario != "Review"
    requires f.name == g.name && f.artist == g.artist && f.album == g.album
    ensures SearchSpec(scenario, f, d, hasCriteria) == SearchSpec(scenario, g, e, hasCriteria)
  {
  }

  /** The SongGenre branch: four partial AND conditions on song.name,
      song.artist, song.album, genre.name; the join iff 'genres' is a
      requested sort key. */
  lemma SongGenreBranch(f: Filters, directions: set<string>, hasCriteria: bool)
    ensures var c := SearchSpec("SongGenre", f, directions, hasCriteria).criteria;
      && Columns(c.conditions) == ["song.name", "song.artist", "song.album", "genre.name"]
      && (forall i :: 0 <= i < |c.conditions| ==> c.conditions[i].partial && c.conditions[i].op == And)
      && c.conditions[0].value == f.name && c.conditions[1].value == f.artist
      && c.conditions[2].value == f.album && c.conditions[3].value == f.genre
      && (c.join == GenreAggregateJoin <==> GenresKey in directions)
      && (c.join == "" <==> GenresKey !in directions)
  {
  }

  /** In the SongGenre branch a genre filter alone never adds the join. */
  lemma SongGenreJoinIgnoresGenre(f: Filters, directions: set<string>, hasCriteria: bool)
    requires GenresKey !in directions
    requires f.genre.Some?
    ensures SearchSpec("SongGenre", f, directions, hasCriteria).criteria.join == ""
  {
  }

  /** The Review branch: five partial AND conditions on song.name,
      song.artist, song.album, t.review, reviewer.name come first; the join
      iff 'genres' is a requested sort key or the genre input is not null. */
  lemma ReviewBranch(f: Filters, directions: set<string>, hasCriteria: bool)
    ensures var c := SearchSpec("Review", f, directions, hasCriteria).criteria;
      && |c.conditions| >= 5
      && Columns(c.conditions[..5]) == ["song.name", "song.artist", "song.album", "t.review", "reviewer.name"]
      && (forall i :: 0 <= i < 5 ==> c.conditions[i].partial && c.conditions[i].op == And)
      && c.conditions[0].value == f.name && c.conditions[1].value == f.artist
      && c.conditions[2].value == f.album && c.conditions[3].value == f.review
      && c.conditions[4].value == f.reviewer
      && (c.join == GenreAggregateJoin <==> GenresKey in directions || f.genre.Some?)
      && (c.join == "" <==> GenresKey !in directions && f.genre.None?)
  {
  }

  /** An empty-string genre input is not null, so it still adds the join
      and one empty AND condition on the aggregated names. */
  lemma ReviewEmptyGenre(f: Filters, directions: set<string>, hasCriteria: bool)
    requires f.genre == Some("")
    ensures var c := SearchSpec("Review", f, directions, hasCriteria).criteria;
      c.join == GenreAggregateJoin && c.conditions[5..] == [Like(GenreNamesColumn, Some(""))]
  {
    assert Split("") == [""];
  }

  /** Genre tokenisation in the Review branch: after the five fixed
      conditions, the first piece of the split text is matched with AND and
      each remaining piece adds an OR condition carrying the whole text, so
      the number of aggregated-name conditions is one more than the number
      of separator runs in the text; a null genre adds none. */
  lemma {:induction false} ReviewGenreConditions(f: Filters, directions: set<string>, hasCriteria: bool)
    ensures var c := SearchSpec("Review", f, directions, hasCriteria).criteria.conditions;
      && (f.genre.None? ==> |c| == 5)
      && (f.genre.Some? ==>
            && |c| == 6 + Runs(f.genre.value)
            && c[5] == Like(GenreNamesColumn, Some(Split(f.genre.value)[0]))
            && (forall i :: 6 <= i < |c| ==> c[i] == Condition(GenreNamesColumn, f.genre, true, Or)))
  {
    if f.genre.Some? {
      SplitCount(f.genre.value);
    }
  }

  /** With the filter text "rock, pop" the Review branch matches "rock" with
      AND and the whole text "rock, pop" with OR. */
  lemma ReviewRockPop(f: Filters, directions: set<string>, hasCriteria: bool)
    requires f.genre == Some("rock, pop")
    ensures SearchSpec("Review", f, directions, hasCriteria).criteria.conditions[5..]
            == [Like(GenreNamesColumn, Some("rock")), Condition(GenreNamesColumn, Some("rock, pop"), true, Or)]
  {
    RockPop();
    var c := SearchSpec("Review", f, directions, hasCriteria).criteria.conditions;
    assert c[5..] == GenreConditions(f.genre);
  }

  /** Only the Review branch adds OR conditions, and only on the aggregated names. */
  lemma OrOnlyOnGenreNames(scenario: string, f: Filters, directions: set<string>, hasCriteria: bool)
    ensures var c := SearchSpec(scenario, f, directions, hasCriteria).criteria.conditions;
      forall i :: 0 <= i < |c| && c[i].op == Or ==> scenario == "Review" && c[i].column == GenreNamesColumn
  {
  }

  /** Whenever a join is set, it is the one aggregated-genre join. */
  lemma JoinIsTheAggregate(scenario: string, f: Filters, directions: set<string>, hasCriteria: bool)
    ensures var j := SearchSpec(scenario, f, directions, hasCriteria).criteria.join;
      j == "" || j == GenreAggregateJoin
  {
  }

  /** Caller criteria are merged iff present, after every branch condition. */
  lemma MergeComesLast(scenario: string, f: Filters, directions: set<string>, hasCriteria: bool)
    ensures var c := SearchSpec(scenario, f, directions, hasCriteria).criteria;
      (c.mergedAt.Some? <==> hasCriteria) && (hasCriteria ==> c.mergedAt == Some(|c.conditions|))
  {
  }

  /** The sort key 'genres' is the only requested key that changes the
      result: any other key, known or not, is the same as not asking. */
  lemma OnlyGenresSortKeyMatters(scenario: string, f: Filters, directions: set<string>, hasCriteria: bool)
    ensures SearchSpec(scenario, f, directions, hasCriteria)
            == SearchSpec(scenario, f, directions * {GenresKey}, hasCriteria)
  {
  }

  /** The sort map is the same six keys in every scenario, each ordering by
      its own column except 'review' (t.review) and 'genres' (gsq.gnames). */
  lemma SortMapInEveryScenario(scenario: string, f: Filters, directions: set<string>, hasCriteria: bool)
    ensures SearchSpec(scenario, f, directions, hasCriteria).sort == Some(SortMap)
    ensures |SortMap| == 6
    ensures [SortMap[0].key, SortMap[1].key, SortMap[2].key, SortMap[3].key, SortMap[4].key, SortMap[5].key]
            == ["song.name", "song.artist", "song.album", "review", "reviewer.name", "genres"]
    ensures forall i :: 0 <= i < |SortMap| ==>
      var col := if SortMap[i].key == "review" then "t.review"
                 else if SortMap[i].key == "genres" then GenreNamesColumn
                 else SortMap[i].key;
      SortMap[i].asc == col + " asc" && SortMap[i].desc == col + " desc"
  {
  }

  /** Which attributes rules() declares safe: name, artist, album in
      'search'; all six filter inputs in 'SongGenre' and 'Review'; none in
      any other scenario. */
  lemma SongSafeAttributes(scenario: string)
    ensures scenario == "search" ==> SafeAttributeNames(SongRules, scenario) == {"name", "artist", "album"}
    ensures scenario == "SongGenre" || scenario == "Review" ==>
      SafeAttributeNames(SongRules, scenario) == {"name", "artist", "album", "genre", "review", "reviewer"}
    ensures scenario != "search" && scenario != "SongGenre" && scenario != "Review" ==>
      SafeAttributeNames(SongRules, scenario) == {}
  {
  }
}
