/** Two concrete containers of two time steps, worked through construction and
    indexed access. Float values are written as opaque stand-in integers. */
module Scenarios {
  import opened Wrappers
  import opened Tensors
  import opened TemporalSignal
  import opened Snapshots

  /** Features `[[1.0]], [[2.0]]`, integer targets `[0], [1]`, an edge index and
      edge weight absent at step 0 only, batch `[0]` at both steps, and an
      integer additional feature `weight_extra = [9], [10]`. */
  lemma TwoStepScenario()
    ensures
      var r := New(
        [None, Some(NdArray(Int, [0, 1]))],
        [None, Some(NdArray(Float, [5]))],
        [Some(NdArray(Float, [1])), Some(NdArray(Float, [2]))],
        [Some(NdArray(Int, [0])), Some(NdArray(Int, [1]))],
        [Some(NdArray(Int, [0])), Some(NdArray(Int, [0]))],
        [("weight_extra", [NdArray(Int, [9]), NdArray(Int, [10])])]);
      && r.Success?
      && r.value.snapshotCount == 2
      && GetItem(r.value, 0) == Snapshot(
           Some(Tensor(Float32, [1])), None, None, Some(Tensor(Long, [0])),
           Some(Tensor(Long, [0])), map["weight_extra" := Some(Tensor(Long, [9]))])
      && GetItem(r.value, 1) == Snapshot(
           Some(Tensor(Float32, [2])), Some(Tensor(Long, [0, 1])), Some(Tensor(Float32, [5])),
           Some(Tensor(Long, [1])), Some(Tensor(Long, [0])),
           map["weight_extra" := Some(Tensor(Long, [10]))])
  {
  }

  /** Three feature entries against two targets: construction fails. */
  lemma MismatchedLengthsFail()
    ensures New([None, None, None], [None, None, None], [None, None, None],
                [None, None], [None, None, None], []).Failure?
  {
  }

  /** A target of a kind other than `'i'` or `'f'` (a boolean array, say) reads
      back exactly as an absent target does. */
  lemma OtherKindTargetReadsAsAbsent(values: seq<Element>)
    ensures
      var present := Signal([None], [None], [None], [Some(NdArray(Other, values))], [None], [], map[], 1);
      var absent := present.(targets := [None]);
      GetItem(present, 0) == GetItem(absent, 0)
  {
  }
}
