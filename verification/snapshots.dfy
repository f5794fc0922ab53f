/** Per-index snapshot assembly: the `_get_*` converters and `__get_item__`.

  Every core field at a time index is either absent (passed through as absent)
  or converted to a tensor. Edge indices and batch vectors become LongTensors
  and edge weights and features become FloatTensors, whatever kind the source
  array has. Targets and additional features branch on the array kind instead.
 */
module Snapshots {
  import opened Wrappers
  import opened Tensors
  import opened TemporalSignal

  /** The record built by `Batch(x=..., edge_index=..., edge_attr=..., y=..., batch=..., **extras)`. */
  datatype Snapshot = Snapshot(
    x: Option<Tensor>,
    edgeIndex: Option<Tensor>,
    edgeAttr: Option<Tensor>,
    y: Option<Tensor>,
    batch: Option<Tensor>,
    extras: map<string, Option<Tensor>>)

  /** `dst` is what a fixed-role converter of tensor type `d` makes of `src`:
      absent stays absent, a present array keeps its values under type `d`. */
  ghost predicate CarriesAs(src: Option<NdArray>, dst: Option<Tensor>, d: DType)
  {
    match src
    case None => dst == None
    case Some(a) => dst == Some(Tensor(d, a.values))
  }

  /** `dst` is what the kind branch makes of a present array `a`: the tensor type
      the kind maps to and the same values, or nothing for any other kind. */
  ghost predicate CarriesByKind(a: NdArray, dst: Option<Tensor>)
  {
    match DTypeOf(a.kind)
    case None => dst == None
    case Some(d) => dst == Some(Tensor(d, a.values))
  }

  /** `snap` is a faithful view of time step `t` of `s`, field by field. */
  ghost predicate Depicts(s: Signal, t: nat, snap: Snapshot)
    requires Valid(s) && t < s.snapshotCount
  {
    && CarriesAs(s.features[t], snap.x, Float32)
    && CarriesAs(s.edgeIndices[t], snap.edgeIndex, Long)
    && CarriesAs(s.edgeWeights[t], snap.edgeAttr, Float32)
    && CarriesAs(s.batches[t], snap.batch, Long)
    && (match s.targets[t]
        case None => snap.y == None
        case Some(a) => CarriesByKind(a, snap.y))
    && (forall k :: k in snap.extras <==> k in s.additionalFeatureKeys)
    && (forall k :: k in snap.extras ==> CarriesByKind(s.additionalFeatures[k][t], snap.extras[k]))
  }

  /** `_get_edge_index`: absent passes through, otherwise a LongTensor. */
  function GetEdgeIndex(s: Signal, t: nat): (r: Option<Tensor>)
    requires t < |s.edgeIndices|
    ensures r.None? <==> s.edgeIndices[t].None?
    ensures r.Some? ==> r.value.dtype == Long && r.value.values == s.edgeIndices[t].value.values
  {
    if s.edgeIndices[t].None? then None else Some(LongTensor(s.edgeIndices[t].value))
  }

  /** `_get_batch_index`: absent passes through, otherwise a LongTensor. */
  function GetBatchIndex(s: Signal, t: nat): (r: Option<Tensor>)
    requires t < |s.batches|
    ensures r.None? <==> s.batches[t].None?
    ensures r.Some? ==> r.value.dtype == Long && r.value.values == s.batches[t].value.values
  {
    if s.batches[t].None? then None else Some(LongTensor(s.batches[t].value))
  }

  /** `_get_edge_weight`: absent passes through, otherwise a FloatTensor. */
  function GetEdgeWeight(s: Signal, t: nat): (r: Option<Tensor>)
    requires t < |s.edgeWeights|
    ensures r.None? <==> s.edgeWeights[t].None?
    ensures r.Some? ==> r.value.dtype == Float32 && r.value.values == s.edgeWeights[t].value.values
  {
    if s.edgeWeights[t].None? then None else Some(FloatTensor(s.edgeWeights[t].value))
  }

  /** `_get_feature`: absent passes through, otherwise a FloatTensor. */
  function GetFeature(s: Signal, t: nat): (r: Option<Tensor>)
    requires t < |s.features|
    ensures r.None? <==> s.features[t].None?
    ensures r.Some? ==> r.value.dtype == Float32 && r.value.values == s.features[t].value.values
  {
    if s.features[t].None? then None else Some(FloatTensor(s.features[t].value))
  }

  /** `_get_target`: absent passes through; a present target of kind `'i'`
      becomes a LongTensor, of kind `'f'` a FloatTensor, and of any other kind
      nothing, indistinguishable from an absent target. */
  function GetTarget(s: Signal, t: nat): (r: Option<Tensor>)
    requires t < |s.targets|
    ensures r.None? <==> s.targets[t].None? || s.targets[t].value.kind == Other
    ensures r.Some? ==> r.value.values == s.targets[t].value.values
    ensures r.Some? ==> (r.value.dtype == Long <==> s.targets[t].value.kind == Int)
    ensures r.Some? ==> (r.value.dtype == Float32 <==> s.targets[t].value.kind == Float)
  {
    if s.targets[t].None? then None else ConvertByKind(s.targets[t].value)
  }

  /** `_get_additional_feature`: the same kind branch as targets, but the
      element is always an array, so there is no absent pass-through. */
  function GetAdditionalFeature(s: Signal, t: nat, key: string): (r: Option<Tensor>)
    requires key in s.additionalFeatures && t < |s.additionalFeatures[key]|
    ensures r.None? <==> s.additionalFeatures[key][t].kind == Other
    ensures r.Some? ==> r.value.values == s.additionalFeatures[key][t].values
    ensures r.Some? ==> (r.value.dtype == Long <==> s.additionalFeatures[key][t].kind == Int)
    ensures r.Some? ==> (r.value.dtype == Float32 <==> s.additionalFeatures[key][t].kind == Float)
  {
    ConvertByKind(s.additionalFeatures[key][t])
  }

  /** `_get_additional_features`: one converted entry per name in the key list. */
  function GetAdditionalFeatures(s: Signal, t: nat): (r: map<string, Option<Tensor>>)
    requires forall k :: k in s.additionalFeatureKeys ==>
      k in s.additionalFeatures && t < |s.additionalFeatures[k]|
    ensures forall k :: k in r <==> k in s.additionalFeatureKeys
    ensures forall k :: k in r ==> CarriesByKind(s.additionalFeatures[k][t], r[k])
  {
    map k | k in s.additionalFeatureKeys :: GetAdditionalFeature(s, t, k)
  }

  /** `__get_item__`: the snapshot at index `t`, a faithful view of that step. */
  function GetItem(s: Signal, t: nat): (r: Snapshot)
    requires Valid(s) && t < s.snapshotCount
    ensures Depicts(s, t, r)
  {
    Snapshot(
      GetFeature(s, t),
      GetEdgeIndex(s, t),
      GetEdgeWeight(s, t),
      GetTarget(s, t),
      GetBatchIndex(s, t),
      GetAdditionalFeatures(s, t))
  }

  /** A step has exactly one faithful view, so `Depicts` fully specifies
      `GetItem`: any snapshot that depicts step `t` is the one it builds. */
  lemma DepictsDeterminesSnapshot(s: Signal, t: nat, snap: Snapshot)
    requires Valid(s) && t < s.snapshotCount
    ensures Depicts(s, t, snap) <==> snap == GetItem(s, t)
  {
  }

  /** A snapshot depends on nothing but time step `t`: two containers with the
      same elements at `t` and the same additional-feature keys give the same
      snapshot there, whatever their other steps hold. */
  lemma SnapshotIsLocal(s: Signal, u: Signal, t: nat)
    requires Valid(s) && t < s.snapshotCount
    requires Valid(u) && t < u.snapshotCount
    requires s.features[t] == u.features[t] && s.edgeIndices[t] == u.edgeIndices[t]
    requires s.edgeWeights[t] == u.edgeWeights[t] && s.batches[t] == u.batches[t]
    requires s.targets[t] == u.targets[t]
    requires s.additionalFeatureKeys == u.additionalFeatureKeys
    requires forall k :: k in s.additionalFeatures ==> s.additionalFeatures[k][t] == u.additionalFeatures[k][t]
    ensures GetItem(s, t) == GetItem(u, t)
  {
  }
}
