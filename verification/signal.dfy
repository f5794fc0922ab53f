/** The container itself: five parallel per-time-step sequences plus named
    additional-feature sequences, checked for equal length at construction
    (`__init__`, `_check_temporal_consistency`, `_set_snapshot_count`).
 */
module TemporalSignal {
  import opened Wrappers
  import opened Tensors

  /** The `AssertionError("Temporal dimension inconsistency.")` raised by a failed length check. */
  datatype ConstructionError = TemporalDimensionInconsistency

  /** One `**kwargs` entry: the attribute name and its per-time-step arrays. */
  type Keyword = (string, seq<NdArray>)

  /** A constructed container. Additional features are an explicit map from name
      to sequence, plus the names in the order they were passed. */
  datatype Signal = Signal(
    edgeIndices: seq<Option<NdArray>>,
    edgeWeights: seq<Option<NdArray>>,
    features: seq<Option<NdArray>>,
    targets: seq<Option<NdArray>>,
    batches: seq<Option<NdArray>>,
    additionalFeatureKeys: seq<string>,
    additionalFeatures: map<string, seq<NdArray>>,
    snapshotCount: nat)

  /** Keyword arguments of one Python call never repeat a name. */
  predicate DistinctNames(kwargs: seq<Keyword>)
  {
    forall i, j :: 0 <= i < j < |kwargs| ==> kwargs[i].0 != kwargs[j].0
  }

  /** Every name in the key list has a stored sequence. */
  predicate KeysRecorded(s: Signal)
  {
    forall k :: k in s.additionalFeatureKeys ==> k in s.additionalFeatures
  }

  /** The lengths every constructed container has: all five core sequences and
      every additional-feature sequence are as long as `features`. */
  predicate LengthsAgree(s: Signal)
    requires KeysRecorded(s)
  {
    var n := |s.features|;
    && |s.targets| == n
    && |s.edgeIndices| == n
    && |s.edgeWeights| == n
    && |s.batches| == n
    && forall k :: k in s.additionalFeatureKeys ==> |s.additionalFeatures[k]| == n
  }

  /** The invariant of a constructed container: the key list names each stored
      additional feature exactly once, and every sequence has `snapshotCount`
      elements. */
  predicate Valid(s: Signal)
  {
    && |s.features| == s.snapshotCount
    && |s.targets| == s.snapshotCount
    && |s.edgeIndices| == s.snapshotCount
    && |s.edgeWeights| == s.snapshotCount
    && |s.batches| == s.snapshotCount
    && (forall i, j :: 0 <= i < j < |s.additionalFeatureKeys| ==>
          s.additionalFeatureKeys[i] != s.additionalFeatureKeys[j])
    && (forall k :: k in s.additionalFeatures ==> k in s.additionalFeatureKeys)
    && (forall k :: k in s.additionalFeatureKeys ==> k in s.additionalFeatures)
    && (forall k :: k in s.additionalFeatures ==> |s.additionalFeatures[k]| == s.snapshotCount)
  }

  /** The `for key, value in kwargs.items()` loop: each value is stored under its
      name and the name is appended to the key list, in the order given. */
  function RecordAdditional(kwargs: seq<Keyword>): (r: (seq<string>, map<string, seq<NdArray>>))
    requires DistinctNames(kwargs)
    ensures |r.0| == |kwargs|
    ensures forall i :: 0 <= i < |kwargs| ==> r.0[i] == kwargs[i].0
    ensures forall i :: 0 <= i < |kwargs| ==> kwargs[i].0 in r.1 && r.1[kwargs[i].0] == kwargs[i].1
    ensures forall k :: k in r.1 <==> k in r.0
  {
    if kwargs == [] then ([], map[])
    else
      var (keys, attrs) := RecordAdditional(kwargs[..|kwargs| - 1]);
      var (key, value) := kwargs[|kwargs| - 1];
      (keys + [key], attrs[key := value])
  }

  /** The loop of length assertions over the additional-feature keys, in order:
      it passes exactly when every named sequence has length `n`. */
  function CheckKeys(keys: seq<string>, attrs: map<string, seq<NdArray>>, n: nat): (ok: bool)
    requires forall k :: k in keys ==> k in attrs
    ensures ok <==> forall i :: 0 <= i < |keys| ==> |attrs[keys[i]]| == n
  {
    if keys == [] then true
    else |attrs[keys[0]]| == n && CheckKeys(keys[1..], attrs, n)
  }

  /** `_check_temporal_consistency`: the four pairwise assertions on the core
      sequences, then one per additional feature against `targets`. Passing
      them is the same as all lengths agreeing. */
  function CheckTemporalConsistency(s: Signal): (ok: bool)
    requires KeysRecorded(s)
    ensures ok <==> LengthsAgree(s)
  {
    && |s.features| == |s.targets|
    && |s.edgeIndices| == |s.edgeWeights|
    && |s.features| == |s.edgeWeights|
    && |s.features| == |s.batches|
    && CheckKeys(s.additionalFeatureKeys, s.additionalFeatures, |s.targets|)
  }

  /** `__init__`: store the sequences, record the keyword arguments, check the
      lengths, then set `snapshot_count` to the number of feature entries. */
  function New(
    edgeIndices: seq<Option<NdArray>>,
    edgeWeights: seq<Option<NdArray>>,
    features: seq<Option<NdArray>>,
    targets: seq<Option<NdArray>>,
    batches: seq<Option<NdArray>>,
    kwargs: seq<Keyword>): (r: Result<Signal, ConstructionError>)
    requires DistinctNames(kwargs)
    ensures r.Success? <==>
      && |edgeIndices| == |features|
      && |edgeWeights| == |features|
      && |targets| == |features|
      && |batches| == |features|
      && forall i :: 0 <= i < |kwargs| ==> |kwargs[i].1| == |features|
    ensures r.Success? ==>
      && Valid(r.value)
      && r.value.snapshotCount == |features|
      && r.value.edgeIndices == edgeIndices
      && r.value.edgeWeights == edgeWeights
      && r.value.features == features
      && r.value.targets == targets
      && r.value.batches == batches
      && |r.value.additionalFeatureKeys| == |kwargs|
      && (forall i :: 0 <= i < |kwargs| ==> r.value.additionalFeatureKeys[i] == kwargs[i].0)
      && (forall i :: 0 <= i < |kwargs| ==> r.value.additionalFeatures[kwargs[i].0] == kwargs[i].1)
  {
    var (keys, attrs) := RecordAdditional(kwargs);
    var s := Signal(edgeIndices, edgeWeights, features, targets, batches, keys, attrs, 0);
    if CheckTemporalConsistency(s) then Success(s.(snapshotCount := |features|))
    else Failure(TemporalDimensionInconsistency)
  }
}
