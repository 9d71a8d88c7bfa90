/**
 * The spaced-repetition stage classifier of WaniKani#get_stage_index
 * (wk_status.15m.rb), and the five named buckets it chooses between.
 */
module Stages {

  /** The five buckets of @srs_stage, in the order WaniKani#initialize creates them. */
  datatype Bucket = Apprentice | Guru | Master | Enlightened | Burned {

    /** The position of this bucket in @srs_stage. */
    function Index(): (k: nat)
      ensures k < BucketCount
    {
      match this
      case Apprentice => 0
      case Guru => 1
      case Master => 2
      case Enlightened => 3
      case Burned => 4
    }
  }

  /** @srs_stage holds five lists. */
  const BucketCount: nat := 5

  /** The largest stage add_level accepts ("burned"). */
  const MaxStage: int := 9

  /**
   * get_stage_index exactly as written: total over all integers, with the
   * `else` branch returning `stage - 5` for every value outside 1..6, so that
   * 0 yields -5 and 10 yields 5. Callers must exclude those values themselves.
   */
  function StageIndex(stage: int): int
  {
    if 1 <= stage <= 4 then 0
    else if 5 <= stage <= 6 then 1
    else stage - 5
  }

  /** What a raw stage value means for the aggregation. */
  datatype Classification = Invalid | Ignored | Into(bucket: Bucket)

  /**
   * An independent statement of the stage table: 0 is "not started" and is
   * ignored, 1-4 apprentice, 5-6 guru, 7 master, 8 enlightened, 9 burned, and
   * anything negative or above 9 is invalid.
   */
  function Classify(stage: int): Classification
  {
    if stage < 0 || stage > MaxStage then Invalid
    else if stage == 0 then Ignored
    else if stage <= 4 then Into(Apprentice)
    else if stage <= 6 then Into(Guru)
    else if stage == 7 then Into(Master)
    else if stage == 8 then Into(Enlightened)
    else Into(Burned)
  }

  /** On every stage add_level lets through to it, get_stage_index picks the bucket of the stage table. */
  lemma StageIndexMatchesClassify(stage: int)
    requires 1 <= stage <= MaxStage
    ensures Classify(stage).Into?
    ensures StageIndex(stage) == Classify(stage).bucket.Index()
    ensures 0 <= StageIndex(stage) < BucketCount
  {
  }

  /** Later stages never land in an earlier bucket. */
  lemma StageIndexMonotone(a: int, b: int)
    requires 1 <= a <= b <= MaxStage
    ensures StageIndex(a) <= StageIndex(b)
  {
  }

  /** Every bucket is reached by some valid stage, so get_stage_index is onto 0..4 on 1..9. */
  lemma EveryBucketReachable(b: Bucket)
    ensures exists stage :: 1 <= stage <= MaxStage && Classify(stage) == Into(b) && StageIndex(stage) == b.Index()
  {
    var stage := match b
      case Apprentice => 1
      case Guru => 5
      case Master => 7
      case Enlightened => 8
      case Burned => 9;
    assert Classify(stage) == Into(b) && StageIndex(stage) == b.Index();
  }

  /**
   * Outside 1..9 the `else` branch gives a value outside 0..4. Ruby indexes a
   * five-element array from the end for -5..-1, so without the early return of
   * add_level, stage 0 (giving -5) would land in apprentice. Stages -4..-1 and
   * 10..14 would give nil, and `include?` on nil would raise.
   */
  lemma StageIndexOutsideRange(stage: int)
    requires stage <= 0 || stage > MaxStage
    ensures StageIndex(stage) < 0 || StageIndex(stage) >= BucketCount
    ensures stage == 0 ==> StageIndex(stage) == -5
  {
  }
}
