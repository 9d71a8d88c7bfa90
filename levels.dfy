/**
 * The bucket accumulator behind WaniKani#add_level (wk_status.15m.rb), stated
 * on values: Insert is one add_level call, AddAll the classification loop of
 * WaniKani#fetch over every assignment, SumSizes the "learned" total.
 */
module Levels {
  import opened Wrappers
  import opened Stages

  /** The five lists of subject ids in @srs_stage. */
  type Buckets = seq<seq<int>>

  /** One assignment record: the subject it is about and its current stage. */
  datatype Assignment = Assignment(subjectId: int, srsStage: int)

  /** add_level's `raise 'unexpected srs_stage'`. */
  datatype StageError = UnexpectedSrsStage(stage: int)

  /** The stages add_level does not raise on. */
  predicate ValidStage(stage: int)
  {
    0 <= stage <= MaxStage
  }

  predicate Distinct(s: seq<int>)
  {
    forall i, j :: 0 <= i < j < |s| ==> s[i] != s[j]
  }

  /** No bucket lists an id twice (ids in different buckets are not compared). */
  predicate NoDuplicates(b: Buckets)
  {
    forall k :: 0 <= k < |b| ==> Distinct(b[k])
  }

  /** @srs_stage as WaniKani#initialize sets it. */
  function Empty(): (b: Buckets)
    ensures |b| == BucketCount && NoDuplicates(b)
    ensures forall k :: 0 <= k < |b| ==> b[k] == []
  {
    [[], [], [], [], []]
  }

  /**
   * One add_level(stage, id) call on the buckets it starts from: Failure when
   * the stage is negative or above 9 (nothing changed), no change for stage 0
   * or when the target bucket already holds the id, otherwise the id appended
   * to the end of the target bucket.
   */
  function Insert(b: Buckets, stage: int, id: int): (r: Result<Buckets, StageError>)
    requires |b| == BucketCount
    ensures r.Success? ==> |r.value| == BucketCount
  {
    if stage < 0 || stage > MaxStage then Failure(UnexpectedSrsStage(stage))
    else if stage == 0 then Success(b)
    else
      var k := StageIndex(stage);
      if id in b[k] then Success(b) else Success(b[k := b[k] + [id]])
  }

  /** Total number of ids over all buckets (the `learned` sum of print_level). */
  function SumSizes(b: Buckets): nat
  {
    if b == [] then 0 else SumSizes(b[..|b| - 1]) + |b[|b| - 1]|
  }

  /** The buckets after a run of add_level calls, and the error that stopped the run, if any. */
  datatype Classified = Classified(buckets: Buckets, failure: Option<StageError>)

  /**
   * add_level applied to every assignment in order, stopping at the first
   * raise; `buckets` are then the buckets just before the failing call.
   */
  function AddAll(b: Buckets, xs: seq<Assignment>): (r: Classified)
    requires |b| == BucketCount
    ensures |r.buckets| == BucketCount
    decreases |xs|
  {
    if xs == [] then Classified(b, None)
    else
      var p := AddAll(b, xs[..|xs| - 1]);
      var a := xs[|xs| - 1];
      if p.failure.Some? then p
      else
        match Insert(p.buckets, a.srsStage, a.subjectId)
        case Success(next) => Classified(next, None)
        case Failure(e) => Classified(p.buckets, Some(e))
  }

  /** The pages of assignments, concatenated in the order they were fetched. */
  function Flatten(pages: seq<seq<Assignment>>): seq<Assignment>
  {
    if pages == [] then [] else Flatten(pages[..|pages| - 1]) + pages[|pages| - 1]
  }

  /** Concatenating pages and then flattening is flattening each part. */
  lemma {:induction false} FlattenAppend(p: seq<seq<Assignment>>, q: seq<seq<Assignment>>)
    ensures Flatten(p + q) == Flatten(p) + Flatten(q)
    decreases |q|
  {
    if q == [] {
      assert p + q == p;
    } else {
      var init := q[..|q| - 1];
      assert (p + q)[..|p + q| - 1] == p + init;
      assert (p + q)[|p + q| - 1] == q[|q| - 1];
      FlattenAppend(p, init);
    }
  }

  /** Each bucket of `before` is a prefix of the same bucket of `after`: ids are only appended. */
  predicate Grows(before: Buckets, after: Buckets)
  {
    |before| == |after| && forall k :: 0 <= k < |before| ==> before[k] <= after[k]
  }

  // ---------------------------------------------------------------------------
  // One add_level call

  /**
   * Insert follows the stage table: invalid stages raise with the stage, stage 0
   * changes nothing, and a stage in 1..9 either leaves everything as it was
   * (the id is already in its bucket) or appends the id to that bucket alone.
   */
  lemma InsertFollowsClassify(b: Buckets, stage: int, id: int)
    requires |b| == BucketCount
    ensures Classify(stage) == Invalid <==> Insert(b, stage, id) == Failure(UnexpectedSrsStage(stage))
    ensures Classify(stage) == Ignored ==> Insert(b, stage, id) == Success(b)
    ensures Classify(stage).Into? ==>
      var k := Classify(stage).bucket.Index();
      var r := Insert(b, stage, id);
      && r.Success?
      && id in r.value[k]
      && (id in b[k] ==> r.value == b)
      && (id !in b[k] ==> r.value[k] == b[k] + [id])
      && (forall j :: 0 <= j < BucketCount && j != k ==> r.value[j] == b[j])
  {
  }

  /** add_level never puts an id twice into one bucket. */
  lemma InsertKeepsNoDuplicates(b: Buckets, stage: int, id: int)
    requires |b| == BucketCount && NoDuplicates(b)
    ensures Insert(b, stage, id).Success? ==> NoDuplicates(Insert(b, stage, id).value)
  {
  }

  /** add_level only appends, and grows the total by at most one. */
  lemma InsertGrows(b: Buckets, stage: int, id: int)
    requires |b| == BucketCount
    requires Insert(b, stage, id).Success?
    ensures Grows(b, Insert(b, stage, id).value)
    ensures SumSizes(b) <= SumSizes(Insert(b, stage, id).value) <= SumSizes(b) + 1
  {
    if 1 <= stage <= MaxStage {
      var k := StageIndex(stage);
      if id !in b[k] {
        SumSizesUpdate(b, k, b[k] + [id]);
      }
    }
  }

  /** A second add_level with the same stage and id has no effect. */
  lemma InsertIdempotent(b: Buckets, stage: int, id: int)
    requires |b| == BucketCount
    requires Insert(b, stage, id).Success?
    ensures Insert(Insert(b, stage, id).value, stage, id) == Insert(b, stage, id)
  {
  }

  /** Adding the same (stage, id) twice to fresh buckets leaves a bucket of size one. */
  lemma InsertTwiceSizeOne(stage: int, id: int)
    requires 1 <= stage <= MaxStage
    ensures
      var once := Insert(Empty(), stage, id).value;
      var twice := Insert(once, stage, id).value;
      |twice[StageIndex(stage)]| == 1 && SumSizes(twice) == 1
  {
    var k := StageIndex(stage);
    var once := Insert(Empty(), stage, id).value;
    assert Empty()[k] + [id] == [id];
    assert once == Empty()[k := [id]];
    SumSizesFive(Empty());
    SumSizesUpdate(Empty(), k, [id]);
  }

  // ---------------------------------------------------------------------------
  // The classification loop

  /** AddAll extended by one assignment is AddAll followed by one more add_level, unless it already failed. */
  lemma AddAllSnoc(b: Buckets, xs: seq<Assignment>, a: Assignment)
    requires |b| == BucketCount
    ensures AddAll(b, xs + [a]) ==
      var p := AddAll(b, xs);
      if p.failure.Some? then p
      else
        match Insert(p.buckets, a.srsStage, a.subjectId)
        case Success(next) => Classified(next, None)
        case Failure(e) => Classified(p.buckets, Some(e))
  {
  }

  /**
   * Running the loop over xs ++ ys is running it over xs and then, if that did
   * not raise, over ys from where it stopped; once it has raised, it stays as it was.
   */
  lemma {:induction false} AddAllConcat(b: Buckets, xs: seq<Assignment>, ys: seq<Assignment>)
    requires |b| == BucketCount
    ensures AddAll(b, xs + ys) ==
      var p := AddAll(b, xs);
      if p.failure.Some? then p else AddAll(p.buckets, ys)
    decreases |ys|
  {
    if ys == [] {
      assert xs + ys == xs;
    } else {
      var ys' := ys[..|ys| - 1];
      var a := ys[|ys| - 1];
      assert ys == ys' + [a];
      assert xs + ys == (xs + ys') + [a];
      AddAllConcat(b, xs, ys');
      AddAllSnoc(b, xs + ys', a);
      AddAllSnoc(AddAll(b, xs).buckets, ys', a);
    }
  }

  /** The loop keeps every bucket free of duplicates. */
  lemma {:induction false} AddAllKeepsNoDuplicates(b: Buckets, xs: seq<Assignment>)
    requires |b| == BucketCount && NoDuplicates(b)
    ensures NoDuplicates(AddAll(b, xs).buckets)
    decreases |xs|
  {
    if xs != [] {
      var xs' := xs[..|xs| - 1];
      var a := xs[|xs| - 1];
      AddAllKeepsNoDuplicates(b, xs');
      InsertKeepsNoDuplicates(AddAll(b, xs').buckets, a.srsStage, a.subjectId);
    }
  }

  /** The loop only appends, and adds at most one id per assignment. */
  lemma {:induction false} AddAllGrows(b: Buckets, xs: seq<Assignment>)
    requires |b| == BucketCount
    ensures Grows(b, AddAll(b, xs).buckets)
    ensures SumSizes(b) <= SumSizes(AddAll(b, xs).buckets) <= SumSizes(b) + |xs|
    decreases |xs|
  {
    if xs != [] {
      var xs' := xs[..|xs| - 1];
      var a := xs[|xs| - 1];
      AddAllGrows(b, xs');
      var p := AddAll(b, xs');
      if p.failure.None? && Insert(p.buckets, a.srsStage, a.subjectId).Success? {
        InsertGrows(p.buckets, a.srsStage, a.subjectId);
      }
    }
  }

  /**
   * The loop raises exactly when some assignment has a stage outside 0..9, and
   * then with the stage of the first such assignment.
   */
  lemma {:induction false} AddAllFailure(b: Buckets, xs: seq<Assignment>)
    requires |b| == BucketCount
    ensures AddAll(b, xs).failure.None? <==> forall i :: 0 <= i < |xs| ==> ValidStage(xs[i].srsStage)
    ensures AddAll(b, xs).failure.Some? ==>
      exists i :: 0 <= i < |xs| && !ValidStage(xs[i].srsStage)
        && AddAll(b, xs).failure.value == UnexpectedSrsStage(xs[i].srsStage)
        && forall j :: 0 <= j < i ==> ValidStage(xs[j].srsStage)
    decreases |xs|
  {
    if xs != [] {
      var xs' := xs[..|xs| - 1];
      var n := |xs| - 1;
      AddAllFailure(b, xs');
      assert forall i :: 0 <= i < n ==> xs'[i] == xs[i];
      var p := AddAll(b, xs');
      if p.failure.Some? {
        var i :| 0 <= i < n && !ValidStage(xs'[i].srsStage)
          && p.failure.value == UnexpectedSrsStage(xs'[i].srsStage)
          && forall j :: 0 <= j < i ==> ValidStage(xs'[j].srsStage);
        assert !ValidStage(xs[i].srsStage);
      } else if !ValidStage(xs[n].srsStage) {
        assert AddAll(b, xs).failure == Some(UnexpectedSrsStage(xs[n].srsStage));
      }
    }
  }

  /** When the loop does not raise, every assignment of stage 1..9 has its id in the bucket of its stage. */
  lemma {:induction false} AddAllComplete(b: Buckets, xs: seq<Assignment>)
    requires |b| == BucketCount
    requires AddAll(b, xs).failure.None?
    ensures forall i :: 0 <= i < |xs| && 1 <= xs[i].srsStage <= MaxStage ==>
      xs[i].subjectId in AddAll(b, xs).buckets[StageIndex(xs[i].srsStage)]
    decreases |xs|
  {
    if xs != [] {
      var xs' := xs[..|xs| - 1];
      var n := |xs| - 1;
      var a := xs[n];
      var p := AddAll(b, xs');
      AddAllComplete(b, xs');
      var r := Insert(p.buckets, a.srsStage, a.subjectId).value;
      InsertGrows(p.buckets, a.srsStage, a.subjectId);
      forall i | 0 <= i < |xs| && 1 <= xs[i].srsStage <= MaxStage
        ensures xs[i].subjectId in r[StageIndex(xs[i].srsStage)]
      {
        var k := StageIndex(xs[i].srsStage);
        if i < n {
          assert xs[i] == xs'[i];
          assert p.buckets[k] <= r[k];
        }
      }
    }
  }

  /**
   * Every id the loop leaves in bucket k was there before or comes from an
   * assignment whose stage, in 1..9, maps to k.
   */
  lemma {:induction false} AddAllSound(b: Buckets, xs: seq<Assignment>, k: nat, x: int)
    requires |b| == BucketCount
    requires k < BucketCount && x in AddAll(b, xs).buckets[k]
    ensures x in b[k] ||
      exists i :: 0 <= i < |xs| && xs[i].subjectId == x && 1 <= xs[i].srsStage <= MaxStage && StageIndex(xs[i].srsStage) == k
    decreases |xs|
  {
    if xs != [] {
      var xs' := xs[..|xs| - 1];
      var n := |xs| - 1;
      var a := xs[n];
      var p := AddAll(b, xs');
      if x in p.buckets[k] {
        AddAllSound(b, xs', k, x);
        if x !in b[k] {
          var i :| 0 <= i < |xs'| && xs'[i].subjectId == x
            && 1 <= xs'[i].srsStage <= MaxStage && StageIndex(xs'[i].srsStage) == k;
          assert xs[i] == xs'[i];
        }
      } else {
        assert xs[n].subjectId == x && 1 <= xs[n].srsStage <= MaxStage && StageIndex(xs[n].srsStage) == k;
      }
    }
  }

  /**
   * Deduplication is per bucket only: the same id classified under stages of
   * two different buckets ends up in both.
   */
  lemma SameIdInTwoBuckets(id: int)
    ensures
      var r := AddAll(Empty(), [Assignment(id, 1), Assignment(id, 5)]);
      r.failure.None? && id in r.buckets[0] && id in r.buckets[1]
  {
    var first := AddAll(Empty(), [] + [Assignment(id, 1)]);
    AddAllSnoc(Empty(), [], Assignment(id, 1));
    assert AddAll(Empty(), []) == Classified(Empty(), None);
    assert Empty()[0] + [id] == [id];
    assert first == Classified(Empty()[0 := [id]], None);
    AddAllSnoc(Empty(), [Assignment(id, 1)], Assignment(id, 5));
    assert [Assignment(id, 1)] + [Assignment(id, 5)] == [Assignment(id, 1), Assignment(id, 5)];
    assert [] + [Assignment(id, 1)] == [Assignment(id, 1)];
  }

  // ---------------------------------------------------------------------------
  // Totals

  /** Replacing one bucket changes the total by the difference in that bucket's size. */
  lemma {:induction false} SumSizesUpdate(b: Buckets, k: nat, s: seq<int>)
    requires k < |b|
    ensures SumSizes(b[k := s]) == SumSizes(b) - |b[k]| + |s|
    decreases |b|
  {
    var n := |b| - 1;
    if k == n {
      assert b[k := s][..n] == b[..n];
    } else {
      SumSizesUpdate(b[..n], k, s);
      assert b[k := s][..n] == b[..n][k := s];
    }
  }

  /** For the five buckets, the total is the sum of the five sizes print_stages shows. */
  lemma SumSizesFive(b: Buckets)
    requires |b| == BucketCount
    ensures SumSizes(b) == |b[0]| + |b[1]| + |b[2]| + |b[3]| + |b[4]|
  {
    assert b[..4][..3] == b[..3] && b[..3][..2] == b[..2] && b[..2][..1] == b[..1] && b[..1][..0] == [];
    assert SumSizes(b[..1]) == |b[0]|;
    assert SumSizes(b[..2]) == |b[0]| + |b[1]|;
    assert SumSizes(b[..3]) == |b[0]| + |b[1]| + |b[2]|;
    assert SumSizes(b[..4]) == |b[0]| + |b[1]| + |b[2]| + |b[3]|;
  }
}
