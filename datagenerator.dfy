/**
 * The two Keras `Sequence` adapters of src/datagenerator.py. Each holds the
 * sample IDs, their labels and the current epoch's ordering `indexes`; serves
 * batch `index` as the IDs at slots index*batchSize .. (index+1)*batchSize-1
 * of that ordering; and fills one label slot and one feature slot (one per
 * feature for MultiDataGenerator) per sample of the batch. The index logic is
 * EpochIndex's, the paths are SamplePaths'.
 */
module DataGenerators {
  import opened Outcomes
  import opened EpochIndex
  import opened SamplePaths

  /** The shape of a loaded feature array, as numpy's `.shape` gives it. */
  type Shape = seq<nat>

  /** One batch of DataGenerator: the feature array X and the label vector y. */
  datatype Batch<F> = Batch(x: array<F>, y: array<int>)

  /** One batch of MultiDataGenerator: one feature array per feature, and y. */
  datatype MultiBatch<F> = MultiBatch(xs: seq<array<F>>, y: array<int>)

  /** Position of the first ID that has no label, or |ids| when all have one. */
  function FirstUnlabelled(ids: seq<int>, labels: map<int, int>): (k: nat)
    ensures k <= |ids|
    ensures forall i :: 0 <= i < k ==> ids[i] in labels
    ensures k < |ids| ==> ids[k] !in labels
  {
    if |ids| == 0 || ids[0] !in labels then 0 else 1 + FirstUnlabelled(ids[1..], labels)
  }

  /** FirstUnlabelled is the only position with all IDs before it labelled and itself not. */
  lemma FirstUnlabelledAt(ids: seq<int>, labels: map<int, int>, i: nat)
    requires i <= |ids| && forall j :: 0 <= j < i ==> ids[j] in labels
    requires i < |ids| ==> ids[i] !in labels
    ensures FirstUnlabelled(ids, labels) == i
  {
  }

  /** The number of samples whose features a batch fill stores: up to and including the first unlabelled one. */
  function Stored(ids: seq<int>, labels: map<int, int>): (w: nat)
    ensures w <= |ids|
  {
    var k := FirstUnlabelled(ids, labels);
    if k < |ids| then k + 1 else k
  }

  /** The error the label lookup of a batch raises, if it raises one. */
  function LabelError(ids: seq<int>, labels: map<int, int>): (e: Option<Error>)
    ensures e.None? <==> forall i :: 0 <= i < |ids| ==> ids[i] in labels
    ensures e.Some? ==> e.value.key in ids && e.value.key !in labels
  {
    var k := FirstUnlabelled(ids, labels);
    if k == |ids| then None else Some(KeyError(ids[k]))
  }

  /** A helper of MultiDataGenerator.DataGeneration: the loader of feature `feat`, by sample ID. */
  function FeatureLoader<F>(load: string -> F, genDir: string, feat: string): int -> F {
    id => load(FeaturePath(genDir, feat, id))
  }

  /**
   * The constructor's loop over feat_list: the shape of each feature's probe
   * file, in the order of feat_list.
   */
  method ProbeShapes<F>(genDir: string, featList: seq<string>, load: string -> F, shapeOf: F -> Shape)
    returns (dims: seq<Shape>)
    ensures |dims| == |featList|
    ensures forall j :: 0 <= j < |featList| ==> dims[j] == shapeOf(load(ProbePath(genDir, featList[j])))
  {
    dims := [];
    for j := 0 to |featList|
      invariant |dims| == j
      invariant forall k :: 0 <= k < j ==> dims[k] == shapeOf(load(ProbePath(genDir, featList[k])))
    {
      dims := dims + [shapeOf(load(ProbePath(genDir, featList[j])))];
    }
  }

  class DataGenerator<F(0)> {
    const listIDs: seq<int>
    const labels: map<int, int>
    const batchSize: nat
    const shuffle: bool
    const genDir: string
    /** The feature files on disk: what np.load returns for each path. */
    const load: string -> F
    /** The current epoch's ordering of the positions of listIDs. */
    var indexes: array<int>

    ghost predicate Valid()
      reads this, indexes
    {
      batchSize > 0 && IsPermutationOf(indexes[..], |listIDs|)
    }

    constructor (listIDs: seq<int>, labels: map<int, int>, batchSize: nat, genDir: string,
                 load: string -> F, shuffle: bool := true)
      requires batchSize > 0
      ensures Valid() && fresh(indexes)
      ensures this.listIDs == listIDs && this.labels == labels && this.batchSize == batchSize
      ensures this.genDir == genDir && this.load == load && this.shuffle == shuffle
      ensures !shuffle ==> indexes[..] == Range(|listIDs|)
    {
      this.batchSize := batchSize;
      this.labels := labels;
      this.listIDs := listIDs;
      this.shuffle := shuffle;
      var ordering := ResetIndexes(|listIDs|, shuffle);
      indexes := ordering;
      this.genDir := genDir;
      this.load := load;
    }

    /** __len__: the number of full batches per epoch. */
    function Len(): (r: nat)
      requires batchSize > 0
      ensures r * batchSize <= |listIDs| < r * batchSize + batchSize
    {
      NumBatches(|listIDs|, batchSize)
    }

    /** on_epoch_end: a fresh ordering, in position order unless shuffled. */
    method OnEpochEnd()
      requires batchSize > 0
      modifies this
      ensures Valid() && fresh(indexes)
      ensures !shuffle ==> indexes[..] == Range(|listIDs|)
    {
      indexes := ResetIndexes(|listIDs|, shuffle);
    }

    /**
     * __getitem__: batch `index` of the epoch. It changes no field (it has no
     * modifies clause); sample i of the result is the i-th ID of the batch.
     */
    method GetItem(index: nat) returns (r: Result<Batch<F>>)
      requires Valid()
      ensures var ids := BatchIDs(listIDs, BatchPositions(indexes[..], index, batchSize));
        match r
        case Ok(b) =>
          fresh(b.x) && fresh(b.y) && b.x as object != b.y as object &&
          b.x.Length == batchSize && b.y.Length == batchSize &&
          forall i :: 0 <= i < |ids| ==>
            ids[i] in labels && b.y[i] == labels[ids[i]] && b.x[i] == load(SamplePath(genDir, ids[i]))
        case Err(e) => LabelError(ids, labels) == Some(e)
      ensures index < Len() ==>
        BatchIDs(listIDs, BatchPositions(indexes[..], index, batchSize)) == BatchIDsAt(listIDs, indexes[..], index, batchSize)
    {
      BatchPositionsBounded(indexes[..], |listIDs|, index, batchSize);
      var positions := BatchPositions(indexes[..], index, batchSize);
      var ids := BatchIDs(listIDs, positions);
      r := DataGeneration(ids);
    }

    /** __data_generation: allocates X and y for a batch, then fills them. */
    method DataGeneration(ids: seq<int>) returns (r: Result<Batch<F>>)
      requires |ids| <= batchSize
      ensures match r
        case Ok(b) =>
          fresh(b.x) && fresh(b.y) && b.x as object != b.y as object &&
          b.x.Length == batchSize && b.y.Length == batchSize &&
          forall i :: 0 <= i < |ids| ==>
            ids[i] in labels && b.y[i] == labels[ids[i]] && b.x[i] == load(SamplePath(genDir, ids[i]))
        case Err(e) => LabelError(ids, labels) == Some(e)
    {
      var x := new F[batchSize];
      var y := new int[batchSize];
      var missing := FillBatch(x, y, ids, id => load(SamplePath(genDir, id)));
      if missing.Some? {
        r := Err(missing.value);
      } else {
        r := Ok(Batch(x, y));
      }
    }

    /**
     * The loop of __data_generation: for each sample i, X[i] is the sample's
     * feature (`feature` stands for np.load of the sample's file), then y[i]
     * is its label; a missing label raises KeyError after that sample's
     * feature was stored. Slots past the samples handled keep their values.
     */
    method FillBatch(x: array<F>, y: array<int>, ids: seq<int>, feature: int -> F) returns (missing: Option<Error>)
      requires |ids| <= x.Length && |ids| <= y.Length && x as object != y as object
      modifies x, y
      ensures missing == LabelError(ids, labels)
      ensures forall i :: 0 <= i < FirstUnlabelled(ids, labels) ==> y[i] == labels[ids[i]]
      ensures forall i :: 0 <= i < Stored(ids, labels) ==> x[i] == feature(ids[i])
      ensures forall i :: Stored(ids, labels) <= i < x.Length ==> x[i] == old(x[i])
      ensures forall i :: FirstUnlabelled(ids, labels) <= i < y.Length ==> y[i] == old(y[i])
    {
      var i := 0;
      while i < |ids|
        invariant 0 <= i <= |ids|
        invariant forall j :: 0 <= j < i ==> ids[j] in labels && y[j] == labels[ids[j]]
        invariant forall j :: 0 <= j < i ==> x[j] == feature(ids[j])
        invariant forall j :: i <= j < x.Length ==> x[j] == old(x[j])
        invariant forall j :: i <= j < y.Length ==> y[j] == old(y[j])
      {
        x[i] := feature(ids[i]);
        if ids[i] !in labels {
          FirstUnlabelledAt(ids, labels, i);
          return Some(KeyError(ids[i]));
        }
        y[i] := labels[ids[i]];
        i := i + 1;
      }
      FirstUnlabelledAt(ids, labels, i);
      return None;
    }
  }

  class MultiDataGenerator<F(0)> {
    const listIDs: seq<int>
    const labels: map<int, int>
    const batchSize: nat
    const shuffle: bool
    const genDir: string
    const featList: seq<string>
    /** The feature files on disk: what np.load returns for each path. */
    const load: string -> F
    /** The shape of each feature, probed once by the constructor. */
    const dimList: seq<Shape>
    /** The current epoch's ordering of the positions of listIDs. */
    var indexes: array<int>

    ghost predicate Valid()
      reads this, indexes
    {
      batchSize > 0 && IsPermutationOf(indexes[..], |listIDs|) && |dimList| == |featList|
    }

    constructor (listIDs: seq<int>, labels: map<int, int>, batchSize: nat, genDir: string,
                 featList: seq<string>, load: string -> F, shapeOf: F -> Shape, shuffle: bool := true)
      requires batchSize > 0
      ensures Valid() && fresh(indexes)
      ensures this.listIDs == listIDs && this.labels == labels && this.batchSize == batchSize
      ensures this.genDir == genDir && this.featList == featList && this.load == load
      ensures this.shuffle == shuffle
      ensures !shuffle ==> indexes[..] == Range(|listIDs|)
      ensures forall j :: 0 <= j < |featList| ==> dimList[j] == shapeOf(load(ProbePath(genDir, featList[j])))
    {
      this.batchSize := batchSize;
      this.labels := labels;
      this.listIDs := listIDs;
      this.shuffle := shuffle;
      var ordering := ResetIndexes(|listIDs|, shuffle);
      indexes := ordering;
      this.genDir := genDir;
      this.featList := featList;
      this.load := load;
      var dims := ProbeShapes(genDir, featList, load, shapeOf);
      dimList := dims;
    }

    /** __len__: the number of full batches per epoch. */
    function Len(): (r: nat)
      requires batchSize > 0
      ensures r * batchSize <= |listIDs| < r * batchSize + batchSize
    {
      NumBatches(|listIDs|, batchSize)
    }

    /** on_epoch_end: a fresh ordering, in position order unless shuffled. */
    method OnEpochEnd()
      requires batchSize > 0 && |dimList| == |featList|
      modifies this
      ensures Valid() && fresh(indexes)
      ensures !shuffle ==> indexes[..] == Range(|listIDs|)
    {
      indexes := ResetIndexes(|listIDs|, shuffle);
    }

    /**
     * __getitem__: batch `index` of the epoch. It changes no field; array j
     * of the result holds feature featList[j] of each sample of the batch.
     */
    method GetItem(index: nat) returns (r: Result<MultiBatch<F>>)
      requires Valid()
      ensures var ids := BatchIDs(listIDs, BatchPositions(indexes[..], index, batchSize));
        match r
        case Ok(b) =>
          |b.xs| == |featList| && fresh(b.y) && b.y.Length == batchSize &&
          (forall j :: 0 <= j < |featList| ==>
            fresh(b.xs[j]) && b.xs[j] as object != b.y as object && b.xs[j].Length == batchSize) &&
          (forall j1, j2 :: 0 <= j1 < j2 < |featList| ==> b.xs[j1] != b.xs[j2]) &&
          (forall i :: 0 <= i < |ids| ==> ids[i] in labels && b.y[i] == labels[ids[i]]) &&
          forall j, i :: 0 <= j < |featList| && 0 <= i < |ids| ==>
            b.xs[j][i] == load(FeaturePath(genDir, featList[j], ids[i]))
        case Err(e) => LabelError(ids, labels) == Some(e)
      ensures index < Len() ==>
        BatchIDs(listIDs, BatchPositions(indexes[..], index, batchSize)) == BatchIDsAt(listIDs, indexes[..], index, batchSize)
    {
      BatchPositionsBounded(indexes[..], |listIDs|, index, batchSize);
      var positions := BatchPositions(indexes[..], index, batchSize);
      var ids := BatchIDs(listIDs, positions);
      r := DataGeneration(ids);
    }

    /** __data_generation: allocates y and one array per feature, then fills them. */
    method DataGeneration(ids: seq<int>) returns (r: Result<MultiBatch<F>>)
      requires |ids| <= batchSize && |dimList| == |featList|
      ensures match r
        case Ok(b) =>
          |b.xs| == |featList| && fresh(b.y) && b.y.Length == batchSize &&
          (forall j :: 0 <= j < |featList| ==>
            fresh(b.xs[j]) && b.xs[j] as object != b.y as object && b.xs[j].Length == batchSize) &&
          (forall j1, j2 :: 0 <= j1 < j2 < |featList| ==> b.xs[j1] != b.xs[j2]) &&
          (forall i :: 0 <= i < |ids| ==> ids[i] in labels && b.y[i] == labels[ids[i]]) &&
          forall j, i :: 0 <= j < |featList| && 0 <= i < |ids| ==>
            b.xs[j][i] == load(FeaturePath(genDir, featList[j], ids[i]))
        case Err(e) => LabelError(ids, labels) == Some(e)
    {
      var y := new int[batchSize];
      var xs := AllocateFeatureArrays(|dimList|);
      var features := seq(|featList|, j requires 0 <= j < |featList| => FeatureLoader(load, genDir, featList[j]));
      var missing := FillBatch(xs, y, ids, features);
      forall j, i | 0 <= j < |featList| && 0 <= i < Stored(ids, labels)
        ensures xs[j][i] == load(FeaturePath(genDir, featList[j], ids[i]))
      {
        assert xs[j][i] == features[j](ids[i]);
      }
      if missing.Some? {
        r := Err(missing.value);
      } else {
        r := Ok(MultiBatch(xs, y));
      }
    }

    /** The allocation loop of __data_generation: one fresh batch-sized array per feature. */
    method AllocateFeatureArrays(count: nat) returns (xs: seq<array<F>>)
      ensures |xs| == count
      ensures forall j :: 0 <= j < count ==> fresh(xs[j]) && xs[j].Length == batchSize
      ensures forall j1, j2 :: 0 <= j1 < j2 < count ==> xs[j1] != xs[j2]
    {
      xs := [];
      for j := 0 to count
        invariant |xs| == j
        invariant forall k :: 0 <= k < j ==> fresh(xs[k]) && xs[k].Length == batchSize
        invariant forall k1, k2 :: 0 <= k1 < k2 < j ==> xs[k1] != xs[k2]
      {
        var a := new F[batchSize];
        xs := xs + [a];
      }
    }

    /**
     * The nested loops of __data_generation: for each sample i, slot i of
     * array j is the sample's feature j (`features[j]` stands for np.load of
     * the sample's file of feature featList[j]), then y[i] is its label; a
     * missing label raises KeyError after that sample's features were stored.
     * Slots past the samples handled keep their values.
     */
    method FillBatch(xs: seq<array<F>>, y: array<int>, ids: seq<int>, features: seq<int -> F>)
      returns (missing: Option<Error>)
      requires |xs| == |features| && |ids| <= y.Length
      requires forall j :: 0 <= j < |xs| ==> |ids| <= xs[j].Length && xs[j] as object != y as object
      requires forall j1, j2 :: 0 <= j1 < j2 < |xs| ==> xs[j1] != xs[j2]
      modifies xs, y
      ensures missing == LabelError(ids, labels)
      ensures forall i :: 0 <= i < FirstUnlabelled(ids, labels) ==> y[i] == labels[ids[i]]
      ensures forall j, i :: 0 <= j < |xs| && 0 <= i < Stored(ids, labels) ==> xs[j][i] == features[j](ids[i])
      ensures forall j, i :: 0 <= j < |xs| && Stored(ids, labels) <= i < xs[j].Length ==>
        xs[j][i] == old(xs[j][i])
      ensures forall i :: FirstUnlabelled(ids, labels) <= i < y.Length ==> y[i] == old(y[i])
    {
      var i := 0;
      while i < |ids|
        invariant 0 <= i <= |ids|
        invariant forall k :: 0 <= k < i ==> ids[k] in labels && y[k] == labels[ids[k]]
        invariant forall j, k :: 0 <= j < |xs| && 0 <= k < i ==> xs[j][k] == features[j](ids[k])
        invariant forall j, k :: 0 <= j < |xs| && i <= k < xs[j].Length ==> xs[j][k] == old(xs[j][k])
        invariant forall k :: i <= k < y.Length ==> y[k] == old(y[k])
      {
        var j := 0;
        while j < |xs|
          invariant 0 <= j <= |xs|
          invariant forall k :: 0 <= k < i ==> y[k] == labels[ids[k]]
          invariant forall j', k :: 0 <= j' < |xs| && 0 <= k < i ==> xs[j'][k] == features[j'](ids[k])
          invariant forall j' :: 0 <= j' < j ==> xs[j'][i] == features[j'](ids[i])
          invariant forall j', k :: 0 <= j' < |xs| && i <= k < xs[j'].Length && (j <= j' || i < k) ==>
            xs[j'][k] == old(xs[j'][k])
          invariant forall k :: i <= k < y.Length ==> y[k] == old(y[k])
        {
          xs[j][i] := features[j](ids[i]);
          j := j + 1;
        }
        if ids[i] !in labels {
          FirstUnlabelledAt(ids, labels, i);
          return Some(KeyError(ids[i]));
        }
        y[i] := labels[ids[i]];
        i := i + 1;
      }
      FirstUnlabelledAt(ids, labels, i);
      return None;
    }
  }
}
