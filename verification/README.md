# DynamicGraphTemporalSignalBatch, modelled in Dafny

A model of `DynamicGraphTemporalSignalBatch` from PyTorch Geometric Temporal: a
container for a dynamic graph observed over discrete time steps. It holds five
parallel per-step sequences (edge indices, edge weights, node features, targets,
batch vectors), each element an array or `None`, plus any number of named
additional-feature sequences passed as keyword arguments. Construction checks
that all sequences have the same length and records `snapshot_count`. Reading
step `t` converts each array into a torch tensor whose element type depends on
the field's role (or, for targets and additional features, on the array's dtype
kind) and assembles them into one snapshot. Iteration is a single shared cursor
`t`, reset by `__iter__` and advanced by `__next__`.

Modules, one per concern of the source class:

- `Wrappers` (`wrappers.dfy`): `Option` for "array or `None`", `Result` for construction.
- `Tensors` (`tensors.dfy`): arrays as a dtype kind (`Int` for `'i'`, `Float` for
  `'f'`, `Other` for every other kind letter) and a flat value sequence; tensors as
  an element type (`Long`, `Float32`) and the same values; the shared kind branch.
- `TemporalSignal` (`signal.dfy`): the container record, its invariant `Valid`,
  the keyword-argument recording loop, the length check and the constructor `New`.
- `Snapshots` (`snapshots.dfy`): the `_get_*` converters, `__get_item__`, and
  `Depicts`, a declarative description of a faithful snapshot of one step.
- `Iteration` (`iteration.dfy`): the cursor as a pure state machine (`NextStep`),
  full traversals (`Drain`, `Collect`), and a `SignalIterator` class holding the
  mutable cursor as the source object does.
- `Scenarios` (`scenarios.dfy`): concrete containers worked through construction
  and access.

Tensor conversion is modelled as a retyped copy that keeps the values. Element
values are opaque integers. The torch_geometric `Batch` object is a plain record
`Snapshot`, and additional features are an explicit map plus the ordered key list.

Three behaviours of the code that a reader might not expect; the model follows
the code:

- A target or additional feature whose dtype kind is neither `'i'` nor `'f'`
  yields no value (`None`). No error is raised.
- `__get_item__` has no bounds check of its own. The model requires
  `0 <= t < snapshotCount`.
- The additional-feature names are kept as an ordered list in argument order,
  not as a set.

## Model

| member | source | states |
|---|---|---|
| Tensors.ConvertByKind | torch_geometric_temporal/signal/dynamic_graph_temporal_signal_batch.py:110-113 | kind `'i'` gives a Long tensor and kind `'f'` a Float tensor, both with the array's values; any other kind gives no value |
| Tensors.ConvertByKindRoundTrip | torch_geometric_temporal/signal/dynamic_graph_temporal_signal_batch.py:103-106 | whenever the kind branch produces a tensor, reading it back gives the original array, kind and values alike |
| Tensors.RoleConversionRoundTrip | torch_geometric_temporal/signal/dynamic_graph_temporal_signal_batch.py:75-97 | fixed-role conversion keeps the values always, but reads back as the same array only when the source kind already matches the role |
| TemporalSignal.RecordAdditional | torch_geometric_temporal/signal/dynamic_graph_temporal_signal_batch.py:47-50 | the key list holds exactly the keyword names in the order passed, each name maps to its own sequence, and the map has no other names |
| TemporalSignal.CheckKeys | torch_geometric_temporal/signal/dynamic_graph_temporal_signal_batch.py:67-70 | the per-key assertions pass exactly when every listed additional sequence has the targets' length |
| TemporalSignal.CheckTemporalConsistency | torch_geometric_temporal/signal/dynamic_graph_temporal_signal_batch.py:54-70 | the four pairwise assertions plus the per-key ones pass exactly when all five core sequences and every additional sequence have one common length |
| TemporalSignal.New | torch_geometric_temporal/signal/dynamic_graph_temporal_signal_batch.py:33-73 | construction succeeds iff all five lengths and every keyword sequence length agree; on success the container is valid, stores the inputs unchanged, has `snapshotCount == len(features)` and keys in argument order; otherwise it fails with the inconsistency error |
| Snapshots.GetEdgeIndex | torch_geometric_temporal/signal/dynamic_graph_temporal_signal_batch.py:75-79 | absent iff the source element is absent; otherwise a Long tensor with the same values |
| Snapshots.GetBatchIndex | torch_geometric_temporal/signal/dynamic_graph_temporal_signal_batch.py:81-85 | absent iff the source element is absent; otherwise a Long tensor with the same values |
| Snapshots.GetEdgeWeight | torch_geometric_temporal/signal/dynamic_graph_temporal_signal_batch.py:87-91 | absent iff the source element is absent; otherwise a Float tensor with the same values |
| Snapshots.GetFeature | torch_geometric_temporal/signal/dynamic_graph_temporal_signal_batch.py:93-97 | absent iff the source element is absent; otherwise a Float tensor with the same values |
| Snapshots.GetTarget | torch_geometric_temporal/signal/dynamic_graph_temporal_signal_batch.py:99-106 | no value iff the target is absent or of a kind other than `'i'`/`'f'`; otherwise the same values, Long exactly for `'i'` and Float exactly for `'f'` |
| Snapshots.GetAdditionalFeature | torch_geometric_temporal/signal/dynamic_graph_temporal_signal_batch.py:108-113 | the element is always present; no value iff its kind is other than `'i'`/`'f'`, otherwise the same values, Long exactly for `'i'` and Float exactly for `'f'` |
| Snapshots.GetAdditionalFeatures | torch_geometric_temporal/signal/dynamic_graph_temporal_signal_batch.py:115-120 | the mapping has exactly the recorded keys, each value following the kind branch on that key's element at `t` |
| Snapshots.GetItem | torch_geometric_temporal/signal/dynamic_graph_temporal_signal_batch.py:122-132 | the snapshot at a valid index depicts that step: every field as its role or kind branch prescribes, extras keyed by exactly the recorded names |
| Snapshots.DepictsDeterminesSnapshot | torch_geometric_temporal/signal/dynamic_graph_temporal_signal_batch.py:122-132 | a snapshot depicts step `t` iff it is the one `__get_item__` builds, so the field-wise description specifies the assembly completely |
| Snapshots.SnapshotIsLocal | torch_geometric_temporal/signal/dynamic_graph_temporal_signal_batch.py:122-128 | the snapshot at `t` depends only on the elements at index `t` and the key list |
| Iteration.NextStep | torch_geometric_temporal/signal/dynamic_graph_temporal_signal_batch.py:134-141 | below the end it yields the snapshot depicting step `t` and moves to `t + 1`; at or past the end it stops and resets to 0; with no cursor it fails and leaves it unset; afterwards `t <= snapshotCount` always holds |
| Iteration.Drain | torch_geometric_temporal/signal/dynamic_graph_temporal_signal_batch.py:134-141 | repeated `__next__` from `t` yields the snapshots of indices `t .. snapshotCount - 1` in order and then leaves the cursor at 0 |
| Iteration.FullTraversal | torch_geometric_temporal/signal/dynamic_graph_temporal_signal_batch.py:134-145 | after `__iter__`, a traversal yields exactly the `snapshotCount` snapshots in index order and ends with the cursor at 0 |
| Iteration.SecondTraversalRepeats | torch_geometric_temporal/signal/dynamic_graph_temporal_signal_batch.py:139-145 | a traversal started from where a complete one left the cursor yields the same snapshots again |
| Iteration.Collect | torch_geometric_temporal/signal/dynamic_graph_temporal_signal_batch.py:134-145 | a loop of `__next__` calls until stop collects `snapshotCount` snapshots, the `i`-th depicting step `i`, and leaves the cursor at 0 |
| Iteration.SignalIterator.Iter | torch_geometric_temporal/signal/dynamic_graph_temporal_signal_batch.py:143-145 | resets the shared cursor to 0 and returns the container itself, keeping the object invariant `0 <= t <= snapshotCount` |
| Iteration.SignalIterator.Next | torch_geometric_temporal/signal/dynamic_graph_temporal_signal_batch.py:134-141 | one step of the cursor state machine applied to the shared cursor, keeping the object invariant `0 <= t <= snapshotCount` |
| Scenarios.TwoStepScenario | torch_geometric_temporal/signal/dynamic_graph_temporal_signal_batch.py:122-132 | two steps with absent edges at step 0 and an integer extra `weight_extra`: construction succeeds with count 2 and each snapshot holds the expected tensors, absences and extras |
| Scenarios.MismatchedLengthsFail | torch_geometric_temporal/signal/dynamic_graph_temporal_signal_batch.py:54-57 | three feature entries against two targets make construction fail |
| Scenarios.OtherKindTargetReadsAsAbsent | torch_geometric_temporal/signal/dynamic_graph_temporal_signal_batch.py:99-106 | a present target of another kind yields the same snapshot as an absent target |

## Left out

- Conversion internals of torch and numpy: `torch.LongTensor` and `torch.FloatTensor` are foreign calls, modelled as a retyped copy of the values; float rounding and integer narrowing are not modelled.
- Snapshots.GetEdgeIndex, Snapshots.GetBatchIndex: `torch.LongTensor` (lines 79 and 85) truncates float values; the model keeps the values unchanged.
- Snapshots.GetEdgeIndex, Snapshots.GetBatchIndex, Snapshots.GetEdgeWeight, Snapshots.GetFeature: the fixed-role converters (lines 79, 85, 91, 97) raise `TypeError` on arrays of kind `'O'`, `'U'`, `'S'` or `'M'`; the model's single `Other` kind does not tell these apart from convertible kinds such as `'b'` and `'u'`, and always returns a tensor.
- Array shapes: arrays and tensors are flat value sequences; element values are opaque.
- The torch_geometric `Batch` constructor (line 130-131) is a foreign library; the snapshot is a plain record.
- Dynamic `setattr` of additional features (line 49): modelled as an explicit map, so a keyword name that collides with an existing attribute (`features`, `t`, ...) is not modelled.
- Snapshots.GetItem: an additional feature named `x`, `edge_index`, `edge_attr`, `y` or `batch` makes the `Batch(...)` call at lines 130-131 raise `TypeError` (multiple values for one keyword argument); the model returns a snapshot holding both the core field and the extra instead.
- TemporalSignal.New: validation is a chain of `assert` statements (lines 55-70), which Python drops under `-O`; the model follows the default behaviour with assertions enabled, where a mismatch stops construction.
- Keyword names are assumed distinct, as Python guarantees for one call.
- Additional-feature elements are typed as arrays. A `None` element would make the source fail on `.dtype`; that failure is not modelled.
- `Valid` is the invariant every successfully constructed container has (`New` establishes it); `GetItem` and the iteration functions require it.
- Python's negative-index wrap-around and the list `IndexError` on direct access: `GetItem` requires `0 <= t < snapshotCount` instead.
- Iteration that starts before `__iter__` fails with `NoCursor`, standing for Python's `AttributeError`.
- Concurrent traversals sharing the one cursor: the source is single-threaded.
