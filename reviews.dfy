/**
 * The summary figures of WaniKani#fetch (wk_status.15m.rb): the number of
 * reviews due before "now" and the number of pending lessons. Timestamps are
 * integers already parsed from the API's `available_at` strings.
 */
module Reviews {
  import opened Wrappers

  /** One entry of the summary's `reviews` list. */
  datatype ReviewBatch = ReviewBatch(availableAt: int, subjectIds: seq<int>)

  /** One entry of the summary's `lessons` list. */
  datatype LessonEntry = LessonEntry(subjectIds: seq<int>)

  /** The `data` part of the summary response the model uses. */
  datatype Summary = Summary(reviews: seq<ReviewBatch>, lessons: seq<LessonEntry>)

  /** Reading `lessons[0]` of an empty list yields nil, and asking nil for its `subject_ids` raises. */
  datatype SummaryError = NoLessonsEntry

  /** The number of subject ids in all batches, due or not. */
  function TotalIds(batches: seq<ReviewBatch>): nat
  {
    if batches == [] then 0
    else TotalIds(batches[..|batches| - 1]) + |batches[|batches| - 1].subjectIds|
  }

  /**
   * The due-review count of the loop in WaniKani#fetch: each batch adds the size
   * of its subject ids unless its time is at or after `now`.
   */
  function DueCount(batches: seq<ReviewBatch>, now: int): (n: nat)
    ensures n <= TotalIds(batches)
  {
    if batches == [] then 0
    else
      var last := batches[|batches| - 1];
      DueCount(batches[..|batches| - 1], now) + (if last.availableAt >= now then 0 else |last.subjectIds|)
  }

  /** The batches available strictly before `now`, in their original order. */
  function DueBatches(batches: seq<ReviewBatch>, now: int): (r: seq<ReviewBatch>)
    ensures |r| <= |batches|
    ensures forall b :: b in r ==> b in batches && b.availableAt < now
    ensures forall b :: b in batches && b.availableAt < now ==> b in r
    ensures forall b: ReviewBatch :: b.availableAt < now ==> multiset(r)[b] == multiset(batches)[b]
    ensures forall b: ReviewBatch :: b.availableAt >= now ==> multiset(r)[b] == 0
  {
    if batches == [] then []
    else
      var init, last := batches[..|batches| - 1], batches[|batches| - 1];
      assert batches == init + [last];
      assert multiset(batches) == multiset(init) + multiset{last};
      DueBatches(init, now) + (if last.availableAt < now then [last] else [])
  }

  /** The lessons count: the size of the first lessons entry only; an empty list is an error. */
  function LessonsCount(lessons: seq<LessonEntry>): (r: Result<nat, SummaryError>)
  {
    if |lessons| == 0 then Failure(NoLessonsEntry) else Success(|lessons[0].subjectIds|)
  }

  /** The sum over every lessons entry, which the lessons count is not. */
  function LessonsTotal(lessons: seq<LessonEntry>): nat
  {
    if lessons == [] then 0
    else LessonsTotal(lessons[..|lessons| - 1]) + |lessons[|lessons| - 1].subjectIds|
  }

  // ---------------------------------------------------------------------------
  // Due reviews

  lemma TotalIdsSnoc(batches: seq<ReviewBatch>, b: ReviewBatch)
    ensures TotalIds(batches + [b]) == TotalIds(batches) + |b.subjectIds|
  {
  }

  /** The due count is the number of ids in the batches available strictly before `now`. */
  lemma {:induction false} DueCountIsTotalOfDueBatches(batches: seq<ReviewBatch>, now: int)
    ensures DueCount(batches, now) == TotalIds(DueBatches(batches, now))
    decreases |batches|
  {
    if batches != [] {
      var init := batches[..|batches| - 1];
      var last := batches[|batches| - 1];
      DueCountIsTotalOfDueBatches(init, now);
      if last.availableAt < now {
        TotalIdsSnoc(DueBatches(init, now), last);
      } else {
        assert DueBatches(batches, now) == DueBatches(init, now);
      }
    }
  }

  /** Counting over two lists of batches one after the other adds up. */
  lemma {:induction false} DueCountAppend(xs: seq<ReviewBatch>, ys: seq<ReviewBatch>, now: int)
    ensures DueCount(xs + ys, now) == DueCount(xs, now) + DueCount(ys, now)
    decreases |ys|
  {
    if ys == [] {
      assert xs + ys == xs;
    } else {
      var init := ys[..|ys| - 1];
      assert (xs + ys)[..|xs + ys| - 1] == xs + init;
      assert (xs + ys)[|xs + ys| - 1] == ys[|ys| - 1];
      DueCountAppend(xs, init, now);
    }
  }

  /** A later "now" never makes fewer reviews due. */
  lemma {:induction false} DueCountMonotone(batches: seq<ReviewBatch>, now1: int, now2: int)
    requires now1 <= now2
    ensures DueCount(batches, now1) <= DueCount(batches, now2)
    decreases |batches|
  {
    if batches != [] {
      DueCountMonotone(batches[..|batches| - 1], now1, now2);
    }
  }

  /** The count is zero exactly when every batch available before `now` is empty. */
  lemma {:induction false} DueCountZero(batches: seq<ReviewBatch>, now: int)
    ensures DueCount(batches, now) == 0 <==>
      forall i :: 0 <= i < |batches| && batches[i].availableAt < now ==> batches[i].subjectIds == []
    decreases |batches|
  {
    if batches != [] {
      var init := batches[..|batches| - 1];
      DueCountZero(init, now);
      assert forall i :: 0 <= i < |init| ==> init[i] == batches[i];
    }
  }

  /** If every batch is available before `now`, every id is due. */
  lemma {:induction false} AllDue(batches: seq<ReviewBatch>, now: int)
    requires forall i :: 0 <= i < |batches| ==> batches[i].availableAt < now
    ensures DueCount(batches, now) == TotalIds(batches)
    decreases |batches|
  {
    if batches != [] {
      var init := batches[..|batches| - 1];
      assert forall i :: 0 <= i < |init| ==> init[i] == batches[i];
      AllDue(init, now);
    }
  }

  /** A batch available exactly at `now` is not counted. */
  lemma BoundaryBatchNotDue(batches: seq<ReviewBatch>, now: int, ids: seq<int>)
    ensures DueCount(batches + [ReviewBatch(now, ids)], now) == DueCount(batches, now)
  {
  }

  /** One batch an hour ago with two ids and one an hour ahead with one id: two reviews are due. */
  lemma DueExample(now: int, a: int, b: int, c: int)
    ensures DueCount([ReviewBatch(now - 3600, [a, b]), ReviewBatch(now + 3600, [c])], now) == 2
  {
  }

  // ---------------------------------------------------------------------------
  // Lessons

  /** The lessons count depends on the first entry alone and fails only on an empty list. */
  lemma LessonsFirstEntryOnly(first: LessonEntry, rest: seq<LessonEntry>)
    ensures LessonsCount([first] + rest) == Success(|first.subjectIds|)
    ensures LessonsCount([]) == Failure(NoLessonsEntry)
  {
  }

  /** The lessons count never exceeds the sum over all entries. */
  lemma {:induction false} LessonsAtMostTotal(lessons: seq<LessonEntry>)
    requires |lessons| > 0
    ensures LessonsCount(lessons).value <= LessonsTotal(lessons)
    decreases |lessons|
  {
    if |lessons| > 1 {
      var init := lessons[..|lessons| - 1];
      LessonsAtMostTotal(init);
      assert init[0] == lessons[0];
    }
  }

  /** With a second non-empty entry, the count and the sum differ. */
  lemma LessonsNotSummed(x: int, y: int)
    ensures LessonsCount([LessonEntry([x]), LessonEntry([y])]) == Success(1)
    ensures LessonsTotal([LessonEntry([x]), LessonEntry([y])]) == 2
  {
    var lessons := [LessonEntry([x]), LessonEntry([y])];
    assert lessons[..1] == [LessonEntry([x])];
    assert lessons[..1][..0] == [];
    assert LessonsTotal(lessons[..1]) == 1;
  }
}
