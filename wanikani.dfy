/**
 * The WaniKani class of wk_status.15m.rb: the in-place aggregation state
 * (@srs_stage, @reviews, @lessons) and the operations that update it, plus
 * the figures print_stages and print_level compute from it.
 */
module WkStatus {
  import opened Wrappers
  import opened Stages
  import opened Levels
  import opened Reviews
  import opened Settings

  /** How one pass of WaniKani#fetch ends. */
  datatype FetchOutcome =
    | Fetched
    | TokenNotConfigured      // the warning is printed and the process exits
    | StageRaised(error: StageError)
    | LessonsMissing          // `lessons[0]` was nil

  /** The figures of the "total items learned/learned+lessons" line. */
  datatype ItemTotals = ItemTotals(learned: nat, outOf: nat)

  class WaniKani {
    /** @srs_stage: five growable lists of subject ids. */
    var srsStage: Buckets
    /** @reviews: the number of reviews due. */
    var reviews: nat
    /** @lessons: the number of pending lessons. */
    var lessons: nat

    ghost predicate Valid()
      reads this
    {
      |srsStage| == BucketCount && NoDuplicates(srsStage)
    }

    constructor ()
      ensures Valid()
      ensures srsStage == Empty() && reviews == 0 && lessons == 0
    {
      srsStage := Empty();
      reviews := 0;
      lessons := 0;
    }

    /**
     * add_level: raise on a stage outside 0..9, ignore stage 0, and otherwise
     * append the id to its bucket unless that bucket already holds it.
     */
    method AddLevel(stage: int, id: int) returns (o: Outcome<StageError>)
      requires Valid()
      modifies this`srsStage
      ensures Valid()
      ensures Insert(old(srsStage), stage, id) == if o.Pass? then Success(srsStage) else Failure(o.error)
      ensures o.Fail? ==> srsStage == old(srsStage)
    {
      if stage < 0 || stage > MaxStage {
        return Fail(UnexpectedSrsStage(stage));
      }
      if stage == 0 {
        return Pass;
      }
      var k := StageIndex(stage);
      if id in srsStage[k] {
        return Pass;
      }
      InsertKeepsNoDuplicates(srsStage, stage, id);
      srsStage := srsStage[k := srsStage[k] + [id]];
      return Pass;
    }

    /** The inner loop of the classification in fetch: add_level for each assignment of one page. */
    method ClassifyPage(page: seq<Assignment>) returns (o: Outcome<StageError>)
      requires Valid()
      modifies this`srsStage
      ensures Valid()
      ensures srsStage == AddAll(old(srsStage), page).buckets
      ensures o.Pass? <==> AddAll(old(srsStage), page).failure.None?
      ensures o.Fail? ==> AddAll(old(srsStage), page).failure == Some(o.error)
    {
      ghost var start := srsStage;
      var j := 0;
      while j < |page|
        invariant 0 <= j <= |page|
        invariant Valid()
        invariant AddAll(start, page[..j]) == Classified(srsStage, None)
      {
        var a := page[j];
        AddAllSnoc(start, page[..j], a);
        assert page[..j + 1] == page[..j] + [a];
        o := AddLevel(a.srsStage, a.subjectId);
        if o.Fail? {
          AddAllConcat(start, page[..j + 1], page[j + 1..]);
          assert page[..j + 1] + page[j + 1..] == page;
          return;
        }
        j := j + 1;
      }
      assert page[..|page|] == page;
      o := Pass;
    }

    /** The classification loop of fetch over every fetched page, stopping at the first raise. */
    method ClassifyPages(pages: seq<seq<Assignment>>) returns (o: Outcome<StageError>)
      requires Valid()
      modifies this`srsStage
      ensures Valid()
      ensures srsStage == AddAll(old(srsStage), Flatten(pages)).buckets
      ensures o.Pass? <==> AddAll(old(srsStage), Flatten(pages)).failure.None?
      ensures o.Fail? ==> AddAll(old(srsStage), Flatten(pages)).failure == Some(o.error)
    {
      ghost var start := srsStage;
      var i := 0;
      while i < |pages|
        invariant 0 <= i <= |pages|
        invariant Valid()
        invariant AddAll(start, Flatten(pages[..i])) == Classified(srsStage, None)
      {
        assert pages[..i + 1][..i] == pages[..i];
        AddAllConcat(start, Flatten(pages[..i]), pages[i]);
        o := ClassifyPage(pages[i]);
        if o.Fail? {
          FlattenAppend(pages[..i + 1], pages[i + 1..]);
          assert pages[..i + 1] + pages[i + 1..] == pages;
          AddAllConcat(start, Flatten(pages[..i + 1]), Flatten(pages[i + 1..]));
          return;
        }
        i := i + 1;
      }
      assert pages[..|pages|] == pages;
      o := Pass;
    }

    /** The review loop of fetch: add the ids of every batch available strictly before `now`. */
    method CountDueReviews(batches: seq<ReviewBatch>, now: int)
      modifies this`reviews
      ensures reviews == old(reviews) + DueCount(batches, now)
    {
      var i := 0;
      while i < |batches|
        invariant 0 <= i <= |batches|
        invariant reviews == old(reviews) + DueCount(batches[..i], now)
      {
        assert batches[..i + 1][..i] == batches[..i];
        var review := batches[i];
        if !(review.availableAt >= now) {
          reviews := reviews + |review.subjectIds|;
        }
        i := i + 1;
      }
      assert batches[..|batches|] == batches;
    }

    /**
     * WaniKani#fetch with its network responses given: check the token,
     * classify every assignment of every page, then count the due reviews
     * and read the lessons count from the summary.
     */
    method Fetch(token: Option<string>, pages: seq<seq<Assignment>>, summary: Summary, now: int)
      returns (o: FetchOutcome)
      requires Valid()
      modifies this
      ensures Valid()
      ensures TokenMissing(token) ==>
        o == TokenNotConfigured && srsStage == old(srsStage) && reviews == old(reviews) && lessons == old(lessons)
      ensures !TokenMissing(token) ==>
        var r := AddAll(old(srsStage), Flatten(pages));
        && srsStage == r.buckets
        && (r.failure.Some? ==> o == StageRaised(r.failure.value) && reviews == old(reviews) && lessons == old(lessons))
        && (r.failure.None? ==> reviews == old(reviews) + DueCount(summary.reviews, now))
        && (r.failure.None? && LessonsCount(summary.lessons).Failure? ==> o == LessonsMissing && lessons == old(lessons))
        && (r.failure.None? && LessonsCount(summary.lessons).Success? ==>
              o == Fetched && lessons == LessonsCount(summary.lessons).value)
    {
      if token.None? || token.value == Placeholder || token.value == "" {
        return TokenNotConfigured;
      }
      var classified := ClassifyPages(pages);
      if classified.Fail? {
        return StageRaised(classified.error);
      }
      CountDueReviews(summary.reviews, now);
      if |summary.lessons| == 0 {
        return LessonsMissing;
      }
      lessons := |summary.lessons[0].subjectIds|;
      return Fetched;
    }
  }

  /** print_stages: the five bucket sizes, when the stages section is switched on. */
  function StageCounts(wk: WaniKani, showStages: Option<string>): (r: Option<seq<nat>>)
    reads wk
    requires |wk.srsStage| == BucketCount
    ensures r.Some? <==> SectionShown(showStages)
    ensures r.Some? ==> |r.value| == BucketCount && forall k :: 0 <= k < BucketCount ==> r.value[k] == |wk.srsStage[k]|
  {
    if showStages.None? || showStages.value != Enabled then None
    else Some([|wk.srsStage[0]|, |wk.srsStage[1]|, |wk.srsStage[2]|, |wk.srsStage[3]|, |wk.srsStage[4]|])
  }

  /**
   * print_level's totals: `learned` summed over the buckets and `learned + lessons`,
   * when the level section is switched on.
   */
  method LevelTotals(wk: WaniKani, showLevel: Option<string>) returns (r: Option<ItemTotals>)
    ensures r.Some? <==> SectionShown(showLevel)
    ensures r.Some? ==> r.value.learned == SumSizes(wk.srsStage)
    ensures r.Some? ==> r.value.outOf == r.value.learned + wk.lessons && r.value.outOf >= r.value.learned
  {
    if showLevel.None? {
      return None;
    }
    if showLevel.value != Enabled {
      return None;
    }
    var learned := 0;
    var i := 0;
    while i < |wk.srsStage|
      invariant 0 <= i <= |wk.srsStage|
      invariant learned == SumSizes(wk.srsStage[..i])
    {
      assert wk.srsStage[..i + 1][..i] == wk.srsStage[..i];
      learned := learned + |wk.srsStage[i]|;
      i := i + 1;
    }
    assert wk.srsStage[..|wk.srsStage|] == wk.srsStage;
    return Some(ItemTotals(learned, learned + wk.lessons));
  }

  /** The five counts print_stages shows add up to the learned total print_level shows. */
  lemma StageCountsAddUpToLearned(wk: WaniKani, showStages: Option<string>)
    requires |wk.srsStage| == BucketCount
    requires SectionShown(showStages)
    ensures
      var c := StageCounts(wk, showStages).value;
      c[0] + c[1] + c[2] + c[3] + c[4] == SumSizes(wk.srsStage)
  {
    SumSizesFive(wk.srsStage);
  }

  /** After a fresh WaniKani classifies pages without a raise, the learned total is at most the number of assignments. */
  lemma LearnedAtMostAssignments(pages: seq<seq<Assignment>>)
    ensures SumSizes(AddAll(Empty(), Flatten(pages)).buckets) <= |Flatten(pages)|
  {
    SumSizesFive(Empty());
    AddAllGrows(Empty(), Flatten(pages));
  }
}
