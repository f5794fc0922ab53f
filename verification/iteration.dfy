/** The iteration protocol: `__iter__` resets the cursor `t` to 0 and
    `__next__` either yields the snapshot at `t` and advances, or resets `t` to 0
    and stops. The cursor is a pure state machine (`NextStep`), and the
    `SignalIterator` class wraps it around one mutable cursor as the source does.
 */
module Iteration {
  import opened TemporalSignal
  import opened Snapshots

  /** The cursor attribute `t`: unset until `__iter__` first runs, then an index. */
  datatype Cursor = Unset | At(t: nat)

  /** What one `__next__` call does: return a snapshot, raise `StopIteration`, or
      raise `AttributeError` because `__iter__` never set `t`. */
  datatype Step = Yield(snapshot: Snapshot) | StopIteration | NoCursor

  /** `__iter__`: the cursor every traversal starts from. */
  const Start: Cursor := At(0)

  /** `__next__` as a pure state transition from cursor `c`. The cursor bound
      `t <= snapshotCount` holds afterwards whatever `c` was, so every call
      keeps it. */
  function NextStep(s: Signal, c: Cursor): (r: (Step, Cursor))
    requires Valid(s)
    ensures r.1.At? ==> r.1.t <= s.snapshotCount
    ensures r.0.Yield? <==> c.At? && c.t < s.snapshotCount
    ensures r.0.Yield? ==> Depicts(s, c.t, r.0.snapshot) && r.1 == At(c.t + 1)
    ensures r.0.StopIteration? <==> c.At? && c.t >= s.snapshotCount
    ensures r.0.StopIteration? ==> r.1 == Start
    ensures r.0.NoCursor? <==> c.Unset?
    ensures r.0.NoCursor? ==> r.1 == c
  {
    match c
    case Unset => (NoCursor, Unset)
    case At(t) =>
      if t < |s.features| then (Yield(GetItem(s, t)), At(t + 1))
      else (StopIteration, Start)
  }

  /** The snapshots of every time step, in index order. */
  function AllSnapshots(s: Signal): (r: seq<Snapshot>)
    requires Valid(s)
  {
    seq(s.snapshotCount, i requires 0 <= i < s.snapshotCount => GetItem(s, i))
  }

  /** Calling `__next__` from index `t` until it stops: the snapshots it yields
      and the cursor it leaves. It yields one snapshot for each of the indices
      `t .. snapshotCount - 1`, in order, and leaves the cursor back at 0. */
  function Drain(s: Signal, t: nat): (r: (seq<Snapshot>, Cursor))
    requires Valid(s) && t <= s.snapshotCount
    ensures |r.0| == s.snapshotCount - t
    ensures forall i :: 0 <= i < |r.0| ==> r.0[i] == GetItem(s, t + i)
    ensures r.1 == Start
    decreases s.snapshotCount - t
  {
    var (step, c) := NextStep(s, At(t));
    if step.Yield? then
      var (rest, final) := Drain(s, c.t);
      ([step.snapshot] + rest, final)
    else ([], c)
  }

  /** A full traversal (`__iter__`, then `__next__` until it stops) yields
      exactly `snapshotCount` snapshots, the one for index `i` in position `i`,
      and ends with the cursor at 0. */
  lemma FullTraversal(s: Signal)
    requires Valid(s)
    ensures Drain(s, Start.t).0 == AllSnapshots(s)
    ensures Drain(s, Start.t).1 == Start
  {
  }

  /** The traversal is restartable: starting again from the cursor a complete
      traversal leaves, with or without a fresh `__iter__`, yields the same
      snapshots again. */
  lemma SecondTraversalRepeats(s: Signal)
    requires Valid(s)
    ensures Drain(s, Drain(s, Start.t).1.t) == Drain(s, Start.t)
  {
  }

  /** A `for` loop over the container: drive `NextStep` from `Start` until it stops,
      collecting what it yields. */
  method Collect(s: Signal) returns (snaps: seq<Snapshot>, final: Cursor)
    requires Valid(s)
    ensures |snaps| == s.snapshotCount
    ensures forall i :: 0 <= i < |snaps| ==> Depicts(s, i, snaps[i])
    ensures final == Start
  {
    var c := Start;
    snaps := [];
    var done := false;
    while !done
      invariant c.At? && c.t <= s.snapshotCount
      invariant !done ==> |snaps| == c.t
      invariant done ==> |snaps| == s.snapshotCount && c == Start
      invariant |snaps| <= s.snapshotCount
      invariant forall i :: 0 <= i < |snaps| ==> Depicts(s, i, snaps[i])
      decreases s.snapshotCount - |snaps|, if done then 0 else 1
    {
      var (step, next) := NextStep(s, c);
      if step.Yield? {
        snaps := snaps + [step.snapshot];
      } else {
        done := true;
      }
      c := next;
    }
    final := c;
  }

  /** The container's iteration state: the data and the one shared cursor `t`. */
  class SignalIterator {
    const data: Signal
    var cursor: Cursor

    /** The object invariant: the data is a constructed container and a set
        cursor never points past its end (`0 <= t <= snapshot_count`). */
    predicate CursorInBounds()
      reads this
    {
      Valid(data) && (cursor.At? ==> cursor.t <= data.snapshotCount)
    }

    /** A freshly constructed container has no cursor until `__iter__` runs. */
    constructor (s: Signal)
      requires Valid(s)
      ensures data == s && cursor == Unset
      ensures CursorInBounds()
    {
      data := s;
      cursor := Unset;
    }

    /** `__iter__`: reset the cursor to 0 and return the container itself. */
    method Iter() returns (it: SignalIterator)
      requires CursorInBounds()
      modifies this
      ensures it == this && cursor == Start
      ensures CursorInBounds()
    {
      cursor := Start;
      it := this;
    }

    /** `__next__`: one step of the cursor state machine. */
    method Next() returns (step: Step)
      requires CursorInBounds()
      modifies this
      ensures (step, cursor) == NextStep(data, old(cursor))
      ensures CursorInBounds()
    {
      var (st, c) := NextStep(data, cursor);
      step := st;
      cursor := c;
    }
  }
}
