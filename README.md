# Batch generators for Keras, modelled in Dafny

`src/datagenerator.py` defines two Keras `Sequence` adapters that feed
training batches to a model:

- `DataGenerator` reads one feature file per sample, at
  `gen_dir + str(ID) + ".npy"`.
- `MultiDataGenerator` reads one file per sample and per feature, at
  `gen_dir + feat + "/" + str(ID) + ".npy"`.

Both keep the sample IDs `list_IDs`, a label dictionary `labels` and an
ordering `indexes` of the positions `0..n-1` of `list_IDs`:

- `on_epoch_end` resets the ordering and shuffles it unless `shuffle` is false.
- `__len__` is the number of full batches.
- `__getitem__(index)` takes entries `index*batch_size .. (index+1)*batch_size - 1` of the ordering, maps them to IDs, and fills one label slot per sample and one feature slot per sample and per feature (one feature for `DataGenerator`).

The project has three modules:

- **`EpochIndex`** (`epoch_index.dfy`) models the index logic once, since both classes share it.
  - The epoch reset is `ResetIndexes`, a fresh `0..n-1` array shuffled in place by `Shuffle`. The random draw is a nondeterministic choice, so the contract allows every permutation.
  - `NumBatches` models the batch count of `__len__` (line 24), `BatchPositions` the clamped Python slice of line 29, and `BatchIDs` and `BatchIDsAt` the ID lookup of line 32.
  - The lemmas prove what one epoch serves:
    - exact batch size;
    - disjoint batches;
    - the first `__len__()*batch_size` entries of the ordering, each once;
    - a dropped tail of `n mod batch_size` entries.
- **`SamplePaths`** (`sample_paths.dfy`) models the file paths.
  - It includes Python's `str()` of an integer ID.
  - It proves that parsing inverts each path builder, so distinct samples are read from distinct files. For the multi-feature generator this holds for distinct (feature, sample) pairs.
  - The constructor's shape probe reads the file of sample 0.
- **`DataGenerators`** (`datagenerator.dfy`) has the two classes.
  - `indexes` is an `array<int>` field that `OnEpochEnd` rebinds.
  - `GetItem` has no `modifies` clause, so it changes no field.
  - The batch-filling loops of `__data_generation` are `FillBatch` methods over the allocated arrays.
  - A label missing from `labels` (Python's `KeyError`) is the `Err` outcome of `GetItem`.

`Outcomes` (`outcomes.dfy`) holds the `Option`, `Result` and error types.

File contents are a constant function `load` from path to feature value, given to the constructor. The `.shape` of a loaded value is a function `shapeOf`, given to `MultiDataGenerator`'s constructor, which is the only one that probes shapes.

## Model

| member | source | states |
|---|---|---|
| EpochIndex.Range | src/datagenerator.py:41 | np.arange(n) is the sequence 0, 1, ..., n-1 |
| EpochIndex.Shuffle | src/datagenerator.py:42-43 | the in-place shuffle keeps the multiset of entries, so the result is some permutation of the input |
| EpochIndex.ResetIndexes | src/datagenerator.py:39-43 | the new ordering is a fresh array holding a permutation of 0..n-1, and is exactly 0..n-1 in order when shuffle is false |
| EpochIndex.PermutationShape | src/datagenerator.py:41-43 | an ordering with the multiset of 0..n-1 has length n and entries in 0..n-1, so every entry indexes list_IDs |
| EpochIndex.PermutationDistinct | src/datagenerator.py:41-43 | an epoch ordering repeats no position |
| EpochIndex.PermutationCovers | src/datagenerator.py:41-43 | an epoch ordering contains every position 0..n-1 |
| EpochIndex.NotInOtherSlice | src/datagenerator.py:29 | the entry at one slot of the ordering is in no slice that leaves that slot out |
| EpochIndex.NumBatches | src/datagenerator.py:22-24 | the batch count r is floor(n / batch_size): r*batch_size <= n < (r+1)*batch_size |
| DataGenerators.DataGenerator.Len | src/datagenerator.py:22-24 | __len__ is floor(len(list_IDs) / batch_size) |
| DataGenerators.MultiDataGenerator.Len | src/datagenerator.py:84-86 | __len__ is floor(len(list_IDs) / batch_size) |
| EpochIndex.BatchPositions | src/datagenerator.py:29 | the clamped slice starts at index*batch_size and has min(batch_size, n - index*batch_size) entries, or none when index*batch_size >= n |
| EpochIndex.BatchPositionsBounded | src/datagenerator.py:29 | any slice of the ordering, in range or past the end, has at most batch_size positions, each a valid position of list_IDs |
| EpochIndex.BatchIDs | src/datagenerator.py:32 | the comprehension has one ID per position, the k-th being list_IDs[positions[k]] |
| EpochIndex.BatchSlice | src/datagenerator.py:29 | for index < __len__(), the clamped slice is the plain slice of batch_size entries starting at index*batch_size |
| EpochIndex.BatchInRange | src/datagenerator.py:29 | for index < __len__(), the batch has exactly batch_size positions, the i-th being indexes[index*batch_size + i] |
| EpochIndex.BatchIDsAt | src/datagenerator.py:29-32 | for index < __len__(), the batch has exactly batch_size IDs, the i-th being list_IDs[indexes[index*batch_size + i]] |
| EpochIndex.TailBatch | src/datagenerator.py:29 | the slice at index __len__() is the tail indexes[__len__()*batch_size:], of length n mod batch_size |
| EpochIndex.BeyondTail | src/datagenerator.py:29 | past __len__(), the clamped slice is empty |
| EpochIndex.SlotOutsideBatch | src/datagenerator.py:29 | slot i of batch b1 lies outside the slot range of any other batch b2 |
| EpochIndex.SlotNotInOtherBatch | src/datagenerator.py:29 | the position at a slot of one in-range batch is not served by another in-range batch |
| EpochIndex.SlotsHoldDifferentPositions | src/datagenerator.py:29 | any slot of one in-range batch and any slot of another hold different positions |
| EpochIndex.BatchesDisjoint | src/datagenerator.py:29 | two distinct in-range batches of one epoch share no position |
| EpochIndex.PrefixThenBatch | src/datagenerator.py:29 | the entries before in-range batch b, followed by batch b, are the entries up to the end of batch b |
| EpochIndex.ServedIsPrefix | src/datagenerator.py:29 | batches 0..k-1 together are exactly the first k*batch_size entries of the ordering |
| EpochIndex.EpochServesEachPositionOnce | src/datagenerator.py:22-29 | one epoch serves exactly the first __len__()*batch_size entries of the ordering, no position twice and no position of the tail |
| EpochIndex.DroppedTail | src/datagenerator.py:22-29 | a position in the last n mod batch_size slots of the ordering belongs to no in-range batch |
| EpochIndex.SlotsHoldDifferentIDs | src/datagenerator.py:29-32 | with distinct IDs, a slot of one in-range batch and a slot of another hold different IDs |
| EpochIndex.BatchIDsDisjoint | src/datagenerator.py:29-32 | with distinct IDs, two distinct in-range batches share no ID |
| SamplePaths.DigitChar | src/datagenerator.py:54 | the character of a decimal digit is a digit character with that value |
| SamplePaths.NatToString | src/datagenerator.py:54 | str() of a natural number is a nonempty string of digits, with a leading '0' only for 0 |
| SamplePaths.IntToString | src/datagenerator.py:54 | str() of an ID is nonempty and contains no '/' |
| SamplePaths.NatRoundTrip | src/datagenerator.py:54 | parsing the decimal digits of n gives back n |
| SamplePaths.IntRoundTrip | src/datagenerator.py:54 | parsing str(ID) gives back ID, negative IDs included |
| SamplePaths.StemOf | src/datagenerator.py:54 | the text between gen_dir and ".npy" of gen_dir + m + ".npy" is m |
| SamplePaths.LastSlash | src/datagenerator.py:120 | the position of the last '/': it holds '/' and no '/' follows it, and None means the string has no '/' |
| SamplePaths.LastSlashBefore | src/datagenerator.py:120 | in a + "/" + b with no '/' in b, the last '/' is the one after a |
| SamplePaths.SamplePath | src/datagenerator.py:54 | the sample file is gen_dir, then str(ID), then ".npy", with no '/' added after gen_dir |
| SamplePaths.FeaturePath | src/datagenerator.py:120 | the feature file is gen_dir, then feat + "/" + str(ID), then ".npy", and the '/' after the feature name is the last '/' of the path |
| SamplePaths.ProbePath | src/datagenerator.py:81 | the shape probe gen_dir + f + "/0.npy" is the file that sample ID 0 of feature f is loaded from |
| SamplePaths.SamplePathRoundTrip | src/datagenerator.py:54 | the ID can be read back from gen_dir + str(ID) + ".npy" |
| SamplePaths.SamplePathInjective | src/datagenerator.py:54 | distinct IDs are loaded from distinct DataGenerator files |
| SamplePaths.FeaturePathRoundTrip | src/datagenerator.py:120 | the feature name and the ID can be read back from gen_dir + feat + "/" + str(ID) + ".npy", whatever the feature name contains |
| SamplePaths.FeaturePathInjective | src/datagenerator.py:120 | distinct (feature, ID) pairs are loaded from distinct MultiDataGenerator files |
| DataGenerators.FirstUnlabelled | src/datagenerator.py:59 | the first batch ID with no label: all IDs before it are labelled, and it is not |
| DataGenerators.FirstUnlabelledAt | src/datagenerator.py:59 | the first unlabelled position is the only one with all IDs before it labelled and itself not |
| DataGenerators.Stored | src/datagenerator.py:52-59 | the number of feature slots written before the loop stops is at most the batch length |
| DataGenerators.LabelError | src/datagenerator.py:59 | the label lookup raises no error exactly when every batch ID is labelled; a raised KeyError names a batch ID that has no label |
| DataGenerators.ProbeShapes | src/datagenerator.py:79-82 | dim_list has one entry per feature, in feat_list order, the j-th being the shape of the probe file of feat_list[j] |
| DataGenerators.DataGenerator.constructor | src/datagenerator.py:9-20 | the fields are the arguments, shuffle defaulting to true, and indexes is a fresh epoch ordering, 0..n-1 in order when shuffle is false |
| DataGenerators.DataGenerator.OnEpochEnd | src/datagenerator.py:39-43 | indexes is rebound to a fresh permutation of 0..n-1, in order when shuffle is false; no other field changes |
| DataGenerators.DataGenerator.GetItem | src/datagenerator.py:26-37 | for the IDs of the batch slice: on success, X and y are fresh, different arrays, y[i] holds the label and X[i] the sample file's contents of the i-th ID; a missing label is the KeyError of LabelError; in range, the IDs are exactly the batch_size IDs of BatchIDsAt; changes no field |
| DataGenerators.DataGenerator.DataGeneration | src/datagenerator.py:45-61 | allocates fresh batch_size arrays X and y, two different objects; on success, slot i of each holds the label and features of the i-th ID; otherwise the KeyError of the first unlabelled ID |
| DataGenerators.DataGenerator.FillBatch | src/datagenerator.py:52-59 | the loop writes the feature (up to and including the first unlabelled ID) and the label (before it) of each sample to its own slot, leaves every other slot unchanged, and reports the KeyError of LabelError |
| DataGenerators.MultiDataGenerator.constructor | src/datagenerator.py:67-82 | the fields are the arguments, shuffle defaulting to true, indexes is a fresh epoch ordering, and dim_list holds one probed shape per feature in feat_list order |
| DataGenerators.MultiDataGenerator.OnEpochEnd | src/datagenerator.py:101-105 | indexes is rebound to a fresh permutation of 0..n-1, in order when shuffle is false; no other field changes |
| DataGenerators.MultiDataGenerator.GetItem | src/datagenerator.py:88-99 | for the IDs of the batch slice: on success, one fresh batch_size array per feature, no two the same object and none the same as y, array j slot i holding feature feat_list[j] of the i-th ID, and y[i] its label; a missing label is the KeyError of LabelError; in range, the IDs are those of BatchIDsAt; changes no field |
| DataGenerators.MultiDataGenerator.DataGeneration | src/datagenerator.py:107-127 | allocates y and one fresh batch_size array per feature, no two the same object and none the same as y, then fills slot i of array j only from feature feat_list[j] of the i-th ID, and y[i] with its label; otherwise the KeyError of the first unlabelled ID |
| DataGenerators.MultiDataGenerator.AllocateFeatureArrays | src/datagenerator.py:111-114 | one fresh batch_size array per entry of dim_list, no two the same array |
| DataGenerators.MultiDataGenerator.FillBatch | src/datagenerator.py:116-125 | the nested loops write feature j of each sample only into array j at the sample's slot, and the label into y, up to the first unlabelled ID, leaving every other slot unchanged, and report the KeyError of LabelError |

## Left out

- File contents: `np.load` is the constant function `load` from path to value. A missing or unreadable file, which would raise in Python, is not modelled.
- Shapes and numeric payloads: `reshape`, `dim`, `n_channels`, dtypes and the float contents of X belong to numpy. A feature value has the abstract element type `F`, and `.shape` is `shapeOf`.
- Uninitialised memory: `np.empty` leaves garbage in slots the loop does not write. The model's arrays start at Dafny's default value, and no contract says anything about those slots.
- One-hot encoding: `keras.utils.to_categorical` is a library call. The model returns `y` as the raw integer labels, and `n_classes` is not a field. Its own errors are lost with it. Python's line 61 raises for a label outside `0..n_classes-1`. For a short batch at `index == __len__()`, it also reads the uninitialised slots of y left by line 49. In both cases Python can raise where the model's `GetItem` returns `Ok`.
- Randomness: `np.random.shuffle` is a nondeterministic choice of one swap partner per slot. The RNG and its seed are not modelled.
- Concurrency: the Keras `Sequence` protocol, its worker processes and the training loop that calls `__getitem__` and `on_epoch_end` are not modelled.
- Aliasing: Python keeps the caller's own `list_IDs`, `labels` and `feat_list` objects (lines 14-15, 71-72, 78), so a later change by the caller is seen by the generator. For example, an append makes `__len__` grow while `indexes` still covers the old length until `on_epoch_end`, and a removal can make line 32 raise `IndexError`. The model stores these as immutable values taken at construction, so it does not capture changes made through such aliases.
- Integer types: IDs are integers and `labels` is a map from ID to integer label. Other hashable ID types are not modelled.
- DataGenerators.DataGenerator.GetItem: takes a natural-number `index`. Python's negative indexes, which slice from the end of `indexes`, are not modelled.
- DataGenerators.MultiDataGenerator.GetItem: takes a natural-number `index`, for the same reason.
- DataGenerators.DataGenerator.constructor: requires `batch_size > 0`. With 0, `__len__` divides by zero, and negative sizes give meaningless slices.
- DataGenerators.MultiDataGenerator.constructor: requires `batch_size > 0`, for the same reason.
- EpochIndex.NumBatches: is exact integer floor division. `np.floor(n / batch_size)` goes through a float, which agrees for every `n` below 2^53.
- The constructors assign `on_epoch_end`'s result before `gen_dir` (src/datagenerator.py:19-20). The model keeps that order, which is harmless because the epoch reset reads no path.
- MultiDataGenerator's loops run over `range(len(dim_list))`. The model uses `|dimList| == |featList|` (its `Valid` invariant), which the constructor establishes.
