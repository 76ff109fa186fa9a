/** The Review model (protected/models/Review.php): its empty rules(), its
    two BELONGS_TO relations and its search(). */
module Reviews {
  import opened Yii

  /** rules() declares nothing. */
  const ReviewRules: seq<Rule> := []

  /** relations(): the reviewer and the song a review belongs to. */
  const ReviewRelations: seq<Relation> := [
    Relation("reviewer", BelongsTo, "Reviewer", "reviewer_id", None),
    Relation("song", BelongsTo, "Song", "song_id", None)
  ]

  class Review {
    var reviewerId: Option<string>
    var songId: Option<string>
    var review: Option<string>

    constructor ()
      ensures reviewerId == None && songId == None && review == None
    {
      reviewerId, songId, review := None, None, None;
    }

    /** search(): three partial AND conditions on a fresh criteria object,
        rooted on the Review model itself, with no join, sort map or merge. */
    method Search() returns (dp: DataProvider)
      ensures dp.root == ReviewRoot && dp.sort == None
      ensures Columns(dp.criteria.conditions) == ["reviewer_id", "song_id", "review"]
      ensures forall i :: 0 <= i < |dp.criteria.conditions| ==>
                dp.criteria.conditions[i].partial && dp.criteria.conditions[i].op == And
      ensures dp.criteria.conditions[0].value == reviewerId
      ensures dp.criteria.conditions[1].value == songId
      ensures dp.criteria.conditions[2].value == review
      ensures dp.criteria.join == "" && dp.criteria.mergedAt == None
    {
      var criteria := new DbCriteria();
      criteria.Compare("reviewer_id", reviewerId, true, And);
      criteria.Compare("song_id", songId, true, And);
      criteria.Compare("review", review, true, And);
      dp := DataProvider(ReviewRoot, criteria.Value(), None);
    }
  }

  /** No attribute of a review is safe in any scenario. */
  lemma NoSafeAttributes(scenario: string)
    ensures SafeAttributeNames(ReviewRules, scenario) == {}
  {
  }

  /** Exactly two relations, both BELONGS_TO: 'reviewer' to Reviewer by
      reviewer_id and 'song' to Song by song_id. */
  lemma TwoBelongsToRelations()
    ensures |ReviewRelations| == 2
    ensures forall i :: 0 <= i < |ReviewRelations| ==>
      ReviewRelations[i].kind == BelongsTo && ReviewRelations[i].through == None
    ensures FindRelation(ReviewRelations, "reviewer") == Some(Relation("reviewer", BelongsTo, "Reviewer", "reviewer_id", None))
    ensures FindRelation(ReviewRelations, "song") == Some(Relation("song", BelongsTo, "Song", "song_id", None))
    ensures forall n :: n != "reviewer" && n != "song" ==> FindRelation(ReviewRelations, n) == None
  {
  }
}
