// IndexedCriteria.score and IndexedAccumulator (worms/search.py lines 94-171):
// the second phase of a two-phase search.  Samples are scored by probing the
// index built by an IndexAccumulator, and the accumulator splices each tail
// index row with the head index row found in the index, around the join
// index produced by the splitting segment.
//
// The probe key (the bin of hinv(from_pos) @ cyclic_xform @ from_pos) is the
// abstract function `probeKey` of a sample's positions, shared by the
// criterion and the accumulator.  splitseg.merge_idx, applied to the last
// tail segment and the first head segment, is the abstract function `merge`.

module IndexedSearch {
  import opened Common
  import opened Batches

  /** The score of a sample whose key is not in the index (9e9). */
  const Miss: int := 9_000_000_000

  /** IndexedCriteria.score (lines 102-108), for one sample. */
  function IndexedScore<P, K>(index: map<K, seq<nat>>, probeKey: seq<P> -> K, segpos: seq<P>): (r: int)
    ensures r == 0 <==> probeKey(segpos) in index
    ensures r != 0 ==> r == Miss
  {
    if probeKey(segpos) in index then 0 else Miss
  }

  /** The exceptions IndexedAccumulator.checkpoint can raise. */
  datatype JoinError =
    | NonZeroScore        // assert np.all(scores == 0), line 137
    | MissingKey          // self.index[i], line 144
    | EmptyIndexRow       // lowidx[:, -1] or head_idx[:, 0] on a row with no entries, line 145-146
    | ConcatenateAxis     // np.concatenate(self.lowidx, lowidx), line 152, as written

  /** The buffer and the joined rows stored so far (None before the first store). */
  datatype IndexedState<P> = IndexedState(temporary: seq<Batch<P>>, lowidx: Option<seq<seq<nat>>>)

  /** Consuming a stream: the fields afterwards, and the exception that escaped, if any. */
  datatype IndexedRun<P> = IndexedRun(state: IndexedState<P>, raised: Option<JoinError>)

  /** One joined row (line 149-150): the tail row without its last entry, the
      join of the two split halves, then the head row without its first entry. */
  function JoinRow(tail: seq<nat>, head: seq<nat>, merge: (nat, nat) -> seq<nat>): (r: seq<nat>)
    requires |tail| >= 1 && |head| >= 1
    ensures |r| == |tail| - 1 + |merge(tail[|tail| - 1], head[0])| + |head| - 1
    ensures r[..|tail| - 1] == tail[..|tail| - 1]
    ensures r[|tail| - 1..|tail| - 1 + |merge(tail[|tail| - 1], head[0])|] == merge(tail[|tail| - 1], head[0])
    ensures r[|r| - (|head| - 1)..] == head[1..]
  {
    tail[..|tail| - 1] + merge(tail[|tail| - 1], head[0]) + head[1..]
  }

  /** The lookups of line 144 succeed for every row. */
  predicate AllKeysPresent<P, K>(rows: seq<Row<P>>, index: map<K, seq<nat>>, probeKey: seq<P> -> K)
  {
    forall i :: 0 <= i < |rows| ==> probeKey(rows[i].pos) in index
  }

  /** head_idx (line 144): the index row stored under each row's key. */
  function Heads<P, K>(rows: seq<Row<P>>, index: map<K, seq<nat>>, probeKey: seq<P> -> K): (r: seq<seq<nat>>)
    requires AllKeysPresent(rows, index, probeKey)
    ensures |r| == |rows|
    ensures forall i :: 0 <= i < |rows| ==> r[i] == index[probeKey(rows[i].pos)]
  {
    if rows == [] then []
    else Heads(rows[..|rows| - 1], index, probeKey) + [index[probeKey(rows[|rows| - 1].pos)]]
  }

  /** join_idx and the concatenation of lines 145-151, row by row. */
  function JoinChecked<P, K>(rows: seq<Row<P>>, index: map<K, seq<nat>>, probeKey: seq<P> -> K, merge: (nat, nat) -> seq<nat>): Result<seq<seq<nat>>, JoinError>
  {
    if exists i :: 0 <= i < |rows| && rows[i].score != 0 then Failure(NonZeroScore)
    else if !AllKeysPresent(rows, index, probeKey) then Failure(MissingKey)
    else
      var heads := Heads(rows, index, probeKey);
      if exists i :: 0 <= i < |rows| && (|rows[i].idx| == 0 || |heads[i]| == 0) then Failure(EmptyIndexRow)
      else Success(seq(|rows|, i requires 0 <= i < |rows| => JoinRow(rows[i].idx, heads[i], merge)))
  }

  /** The evidently intended store of line 150-154: joined rows are appended to the stored ones. */
  function AppendJoined(stored: Option<seq<seq<nat>>>, joined: seq<seq<nat>>): (r: seq<seq<nat>>)
    ensures stored.Some? ==> |r| == |stored.value| + |joined| && r[..|stored.value|] == stored.value && r[|stored.value|..] == joined
    ensures stored.None? ==> r == joined
  {
    if stored.Some? then stored.value + joined else joined
  }

  /** The store of lines 151-154 as written: `np.concatenate(self.lowidx, lowidx)`
      passes the new rows as the axis argument, which raises TypeError
      whenever rows are already stored. */
  function AppendAsWritten(stored: Option<seq<seq<nat>>>, joined: seq<seq<nat>>): (r: Result<seq<seq<nat>>, JoinError>)
    ensures r.Success? <==> stored.None?
  {
    if stored.Some? then Failure(ConcatenateAxis) else Success(joined)
  }

  /** IndexedAccumulator.checkpoint (lines 129-155), with the intended store.
      An empty buffer is a no-op; a buffer whose batches hold no rows returns
      early at line 136 without being emptied. */
  function CheckpointIndexed<P, K>(st: IndexedState<P>, index: map<K, seq<nat>>, probeKey: seq<P> -> K, merge: (nat, nat) -> seq<nat>): (r: Result<IndexedState<P>, JoinError>)
    requires AllWellFormed(st.temporary)
  {
    if st.temporary == [] then Success(st)
    else
      var all := Concat(st.temporary);
      if all.Size() == 0 then Success(st)
      else
        match JoinChecked(Rows(all), index, probeKey, merge)
        case Failure(e) => Failure(e)
        case Success(joined) => Success(IndexedState([], Some(AppendJoined(st.lowidx, joined))))
  }

  /** The same checkpoint with the store as written. */
  function CheckpointAsWritten<P, K>(st: IndexedState<P>, index: map<K, seq<nat>>, probeKey: seq<P> -> K, merge: (nat, nat) -> seq<nat>): Result<IndexedState<P>, JoinError>
    requires AllWellFormed(st.temporary)
  {
    if st.temporary == [] then Success(st)
    else
      var all := Concat(st.temporary);
      if all.Size() == 0 then Success(st)
      else
        match JoinChecked(Rows(all), index, probeKey, merge)
        case Failure(e) => Failure(e)
        case Success(joined) =>
          match AppendAsWritten(st.lowidx, joined)
          case Failure(e) => Failure(e)
          case Success(stored) => Success(IndexedState([], Some(stored)))
  }

  /** One pass of the loop in IndexedAccumulator.accumulate (lines 157-164); nothing runs after a raise. */
  function StepIndexed<P, K>(run: IndexedRun<P>, item: Option<Batch<P>>, maxTmpSize: int, index: map<K, seq<nat>>, probeKey: seq<P> -> K, merge: (nat, nat) -> seq<nat>): (r: IndexedRun<P>)
    requires AllWellFormed(run.state.temporary) && (item.Some? ==> item.value.WellFormed())
    ensures AllWellFormed(r.state.temporary)
    ensures run.raised.Some? ==> r == run
  {
    if run.raised.Some? || item.None? then run
    else
      var buffered := run.state.(temporary := run.state.temporary + [item.value]);
      if |buffered.temporary| >= maxTmpSize then
        match CheckpointIndexed(buffered, index, probeKey, merge)
        case Success(s) => IndexedRun(s, None)
        case Failure(e) => IndexedRun(buffered, Some(e))
      else IndexedRun(buffered, None)
  }

  /** IndexedAccumulator.accumulate over a whole stream of finished jobs. */
  function AccumulateIndexed<P, K>(st: IndexedState<P>, gen: seq<Option<Batch<P>>>, maxTmpSize: int, index: map<K, seq<nat>>, probeKey: seq<P> -> K, merge: (nat, nat) -> seq<nat>): (r: IndexedRun<P>)
    requires AllWellFormed(st.temporary) && ItemsWellFormed(gen)
    ensures AllWellFormed(r.state.temporary)
  {
    if gen == [] then IndexedRun(st, None)
    else StepIndexed(AccumulateIndexed(st, gen[..|gen| - 1], maxTmpSize, index, probeKey, merge), gen[|gen| - 1], maxTmpSize, index, probeKey, merge)
  }

  /** IndexedAccumulator.final_result (lines 166-171): a last checkpoint, then the stored rows or None. */
  function FinalIndexed<P, K>(st: IndexedState<P>, index: map<K, seq<nat>>, probeKey: seq<P> -> K, merge: (nat, nat) -> seq<nat>): Result<Option<seq<seq<nat>>>, JoinError>
    requires AllWellFormed(st.temporary)
  {
    match CheckpointIndexed(st, index, probeKey, merge)
    case Success(s) => Success(s.lowidx)
    case Failure(e) => Failure(e)
  }

  // ---------------------------------------------------------------------
  // What a checkpoint stores

  /** The join raises exactly when a score is not 0, a key is missing from the
      index, or a row has no entries, in that order of precedence; otherwise
      row i of the result joins row i's tail with the head stored under its key. */
  lemma JoinCheckedSpec<P, K>(rows: seq<Row<P>>, index: map<K, seq<nat>>, probeKey: seq<P> -> K, merge: (nat, nat) -> seq<nat>)
    ensures var r := JoinChecked(rows, index, probeKey, merge);
      && (r == Failure(NonZeroScore) <==> exists i :: 0 <= i < |rows| && rows[i].score != 0)
      && (r == Failure(MissingKey) <==>
            (forall i :: 0 <= i < |rows| ==> rows[i].score == 0) && exists i :: 0 <= i < |rows| && probeKey(rows[i].pos) !in index)
      && (r.Success? <==>
            forall i :: 0 <= i < |rows| ==>
              rows[i].score == 0 && probeKey(rows[i].pos) in index && |rows[i].idx| >= 1 && |index[probeKey(rows[i].pos)]| >= 1)
      && (r.Success? ==>
            |r.value| == |rows| &&
            forall i :: 0 <= i < |rows| ==> r.value[i] == JoinRow(rows[i].idx, index[probeKey(rows[i].pos)], merge))
  {
  }

  /** The two phases fit together: if every buffered row carries the
      IndexedCriteria score of its positions against the same index, and passed
      a threshold `score < thresh` with thresh at most 9e9, then the join
      cannot raise at line 137 or line 144. */
  lemma PhaseTwoRowsJoin<P, K>(rows: seq<Row<P>>, index: map<K, seq<nat>>, probeKey: seq<P> -> K, merge: (nat, nat) -> seq<nat>, thresh: int)
    requires thresh <= Miss
    requires forall i :: 0 <= i < |rows| ==> rows[i].score == IndexedScore(index, probeKey, rows[i].pos) && rows[i].score < thresh
    ensures JoinChecked(rows, index, probeKey, merge) != Failure(NonZeroScore)
    ensures JoinChecked(rows, index, probeKey, merge) != Failure(MissingKey)
  {
    JoinCheckedSpec(rows, index, probeKey, merge);
  }

  /** A checkpoint whose buffer holds no rows changes nothing.  One with rows
      raises exactly when the join of its rows raises, with the same error;
      otherwise it empties the buffer, keeps every stored row, and appends
      after them, row by row in buffer order, the tail row joined with the
      head row stored under its probe key. */
  lemma CheckpointIndexedKeeps<P, K>(st: IndexedState<P>, index: map<K, seq<nat>>, probeKey: seq<P> -> K, merge: (nat, nat) -> seq<nat>)
    requires AllWellFormed(st.temporary)
    ensures var r := CheckpointIndexed(st, index, probeKey, merge);
      && (st.temporary != [] && Concat(st.temporary).Size() == 0 ==> r == Success(st))
      && (st.temporary != [] && Concat(st.temporary).Size() > 0 ==>
            var rows := Rows(Concat(st.temporary));
            && (r.Failure? <==> JoinChecked(rows, index, probeKey, merge).Failure?)
            && (r.Failure? ==> r.error == JoinChecked(rows, index, probeKey, merge).error))
      && (r.Success? && st.temporary != [] && Concat(st.temporary).Size() > 0 ==>
            var rows := Rows(Concat(st.temporary));
            var kept := if st.lowidx.Some? then |st.lowidx.value| else 0;
            && r.value.temporary == []
            && r.value.lowidx.Some?
            && |r.value.lowidx.value| == kept + |rows|
            && (st.lowidx.Some? ==> r.value.lowidx.value[..kept] == st.lowidx.value)
            && JoinedAfter(r.value.lowidx.value, kept, rows, index, probeKey, merge))
  {
    if st.temporary != [] && Concat(st.temporary).Size() > 0 {
      var rows := Rows(Concat(st.temporary));
      var joined := JoinChecked(rows, index, probeKey, merge);
      var r := CheckpointIndexed(st, index, probeKey, merge);
      if joined.Success? {
        assert r == Success(IndexedState([], Some(AppendJoined(st.lowidx, joined.value))));
        StoreJoined(st.lowidx, rows, index, probeKey, merge);
      } else {
        assert r == Failure(joined.error);
      }
    }
  }

  /** From position `kept` on, `out` holds each of `rows` joined with the head
      row stored under its probe key, in order; both rows are non-empty. */
  predicate JoinedAfter<P, K>(out: seq<seq<nat>>, kept: nat, rows: seq<Row<P>>, index: map<K, seq<nat>>, probeKey: seq<P> -> K, merge: (nat, nat) -> seq<nat>)
  {
    && |out| == kept + |rows|
    && forall i :: 0 <= i < |rows| ==>
         && probeKey(rows[i].pos) in index
         && |rows[i].idx| >= 1 && |index[probeKey(rows[i].pos)]| >= 1
         && out[kept + i] == JoinRow(rows[i].idx, index[probeKey(rows[i].pos)], merge)
  }

  /** A successful join stores, after the rows already stored, each row
      joined with the head row under its probe key. */
  lemma StoreJoined<P, K>(stored: Option<seq<seq<nat>>>, rows: seq<Row<P>>, index: map<K, seq<nat>>, probeKey: seq<P> -> K, merge: (nat, nat) -> seq<nat>)
    requires JoinChecked(rows, index, probeKey, merge).Success?
    ensures var kept := if stored.Some? then |stored.value| else 0;
      var out := AppendJoined(stored, JoinChecked(rows, index, probeKey, merge).value);
      && |out| == kept + |rows|
      && (stored.Some? ==> out[..kept] == stored.value)
      && JoinedAfter(out, kept, rows, index, probeKey, merge)
  {
    JoinCheckedSpec(rows, index, probeKey, merge);
    AppendJoinedAt(stored, JoinChecked(rows, index, probeKey, merge).value);
  }

  /** The joined rows sit after the stored ones, in order. */
  lemma AppendJoinedAt(stored: Option<seq<seq<nat>>>, joined: seq<seq<nat>>)
    ensures var kept := if stored.Some? then |stored.value| else 0;
      var r := AppendJoined(stored, joined);
      |r| == kept + |joined| && forall i :: 0 <= i < |joined| ==> r[kept + i] == joined[i]
  {
    var kept := if stored.Some? then |stored.value| else 0;
    var r := AppendJoined(stored, joined);
    assert r[kept..] == joined;
    forall i | 0 <= i < |joined|
      ensures r[kept + i] == joined[i]
    {
      assert r[kept..][i] == r[kept + i];
    }
  }

  /** Finding at line 152: as written, a second checkpoint that has rows to
      store raises TypeError, although the intended checkpoint stores them
      after the rows already held. */
  lemma SecondCheckpointRaises<P, K>(st: IndexedState<P>, index: map<K, seq<nat>>, probeKey: seq<P> -> K, merge: (nat, nat) -> seq<nat>)
    requires AllWellFormed(st.temporary) && st.lowidx.Some?
    requires CheckpointIndexed(st, index, probeKey, merge).Success?
    requires st.temporary != [] && Concat(st.temporary).Size() > 0
    ensures CheckpointAsWritten(st, index, probeKey, merge) == Failure(ConcatenateAxis)
    ensures CheckpointIndexed(st, index, probeKey, merge).value.lowidx.value[..|st.lowidx.value|] == st.lowidx.value
  {
    CheckpointIndexedKeeps(st, index, probeKey, merge);
  }

  /** One step of the stream (with the intended store) keeps every stored row. */
  lemma StepIndexedKeeps<P, K>(run: IndexedRun<P>, item: Option<Batch<P>>, maxTmpSize: int, index: map<K, seq<nat>>, probeKey: seq<P> -> K, merge: (nat, nat) -> seq<nat>)
    requires AllWellFormed(run.state.temporary) && (item.Some? ==> item.value.WellFormed()) && run.state.lowidx.Some?
    ensures var r := StepIndexed(run, item, maxTmpSize, index, probeKey, merge);
      && r.state.lowidx.Some?
      && |run.state.lowidx.value| <= |r.state.lowidx.value|
      && r.state.lowidx.value[..|run.state.lowidx.value|] == run.state.lowidx.value
  {
    if run.raised.None? && item.Some? {
      var buffered := run.state.(temporary := run.state.temporary + [item.value]);
      if |buffered.temporary| >= maxTmpSize {
        CheckpointIndexedKeeps(buffered, index, probeKey, merge);
      }
    }
  }

  /** Over a whole stream (with the intended store), rows once stored are never lost. */
  lemma {:induction false} AccumulateIndexedKeeps<P, K>(st: IndexedState<P>, gen: seq<Option<Batch<P>>>, maxTmpSize: int, index: map<K, seq<nat>>, probeKey: seq<P> -> K, merge: (nat, nat) -> seq<nat>)
    requires AllWellFormed(st.temporary) && ItemsWellFormed(gen) && st.lowidx.Some?
    ensures var r := AccumulateIndexed(st, gen, maxTmpSize, index, probeKey, merge);
      && r.state.lowidx.Some?
      && |st.lowidx.value| <= |r.state.lowidx.value|
      && r.state.lowidx.value[..|st.lowidx.value|] == st.lowidx.value
  {
    if gen != [] {
      var init := gen[..|gen| - 1];
      AccumulateIndexedKeeps(st, init, maxTmpSize, index, probeKey, merge);
      var run := AccumulateIndexed(st, init, maxTmpSize, index, probeKey, merge);
      StepIndexedKeeps(run, gen[|gen| - 1], maxTmpSize, index, probeKey, merge);
      var mid := run.state.lowidx.value;
      var after := AccumulateIndexed(st, gen, maxTmpSize, index, probeKey, merge).state.lowidx.value;
      assert after[..|mid|] == mid;
      assert after[..|st.lowidx.value|] == mid[..|st.lowidx.value|];
    }
  }

  /** Once a raise has escaped, the rest of the stream is not consumed. */
  lemma {:induction false} IndexedRaisedStops<P, K>(st: IndexedState<P>, gen: seq<Option<Batch<P>>>, j: nat, maxTmpSize: int, index: map<K, seq<nat>>, probeKey: seq<P> -> K, merge: (nat, nat) -> seq<nat>)
    requires AllWellFormed(st.temporary) && ItemsWellFormed(gen) && j <= |gen|
    requires AccumulateIndexed(st, gen[..j], maxTmpSize, index, probeKey, merge).raised.Some?
    ensures AccumulateIndexed(st, gen, maxTmpSize, index, probeKey, merge) == AccumulateIndexed(st, gen[..j], maxTmpSize, index, probeKey, merge)
  {
    if j < |gen| {
      var init := gen[..|gen| - 1];
      assert init[..j] == gen[..j];
      IndexedRaisedStops(st, init, j, maxTmpSize, index, probeKey, merge);
    } else {
      assert gen[..j] == gen;
    }
  }

  /** head_idx (line 144): look up every row's key, raising KeyError (None) at a missing one. */
  method LookupHeads<P, K>(rows: seq<Row<P>>, index: map<K, seq<nat>>, probeKey: seq<P> -> K) returns (heads: Option<seq<seq<nat>>>)
    ensures heads.Some? <==> AllKeysPresent(rows, index, probeKey)
    ensures heads.Some? ==> heads.value == Heads(rows, index, probeKey)
  {
    var found: seq<seq<nat>> := [];
    var i := 0;
    while i < |rows|
      invariant 0 <= i <= |rows|
      invariant |found| == i
      invariant forall j :: 0 <= j < i ==> probeKey(rows[j].pos) in index && found[j] == index[probeKey(rows[j].pos)]
    {
      var key := probeKey(rows[i].pos);
      if key !in index {
        return None;
      }
      found := found + [index[key]];
      i := i + 1;
    }
    return Some(found);
  }

  /** Lines 145-151: join every tail row with its head row, raising IndexError (None) at a row with no entries. */
  method JoinAll<P>(rows: seq<Row<P>>, heads: seq<seq<nat>>, merge: (nat, nat) -> seq<nat>) returns (joined: Option<seq<seq<nat>>>)
    requires |heads| == |rows|
    ensures joined.Some? <==> forall i :: 0 <= i < |rows| ==> |rows[i].idx| >= 1 && |heads[i]| >= 1
    ensures joined.Some? ==>
      |joined.value| == |rows| && forall i :: 0 <= i < |rows| ==> joined.value[i] == JoinRow(rows[i].idx, heads[i], merge)
  {
    var out: seq<seq<nat>> := [];
    var i := 0;
    while i < |rows|
      invariant 0 <= i <= |rows|
      invariant |out| == i
      invariant forall j :: 0 <= j < i ==> |rows[j].idx| >= 1 && |heads[j]| >= 1 && out[j] == JoinRow(rows[j].idx, heads[j], merge)
    {
      if |rows[i].idx| == 0 || |heads[i]| == 0 {
        return None;
      }
      out := out + [JoinRow(rows[i].idx, heads[i], merge)];
      i := i + 1;
    }
    return Some(out);
  }

  /** Lines 137-151 on the buffered rows: check the scores, look up the heads, join. */
  method JoinBuffer<P, K>(rows: seq<Row<P>>, index: map<K, seq<nat>>, probeKey: seq<P> -> K, merge: (nat, nat) -> seq<nat>) returns (r: Result<seq<seq<nat>>, JoinError>)
    ensures r == JoinChecked(rows, index, probeKey, merge)
  {
    if exists i :: 0 <= i < |rows| && rows[i].score != 0 {
      return Failure(NonZeroScore);
    }
    var heads := LookupHeads(rows, index, probeKey);
    if heads.None? {
      return Failure(MissingKey);
    }
    var joined := JoinAll(rows, heads.value, merge);
    if joined.None? {
      return Failure(EmptyIndexRow);
    }
    assert joined.value == JoinChecked(rows, index, probeKey, merge).value;
    return Success(joined.value);
  }

  // ---------------------------------------------------------------------
  // The class

  /** `merge` is splitseg.merge_idx applied to tail[-1] and head[0]; `probeKey`
      stands for the binner, from_seg and the cyclic transform of nfold. */
  class IndexedAccumulator<P(==), K(==)> {
    const merge: (nat, nat) -> seq<nat>
    const index: map<K, seq<nat>>
    const probeKey: seq<P> -> K
    const maxTmpSize: int
    var temporary: seq<Batch<P>>
    var hasLowidx: bool
    var lowidx: seq<seq<nat>>

    function State(): IndexedState<P>
      reads this
    {
      IndexedState(temporary, if hasLowidx then Some(lowidx) else None)
    }

    ghost predicate Valid()
      reads this
    {
      AllWellFormed(temporary)
    }

    constructor (merge: (nat, nat) -> seq<nat>, index: map<K, seq<nat>>, probeKey: seq<P> -> K, maxTmpSize: int)
      ensures Valid() && State() == IndexedState([], None)
      ensures this.merge == merge && this.index == index && this.probeKey == probeKey && this.maxTmpSize == maxTmpSize
    {
      this.merge := merge;
      this.index := index;
      this.probeKey := probeKey;
      this.maxTmpSize := maxTmpSize;
      temporary := [];
      hasLowidx := false;
      lowidx := [];
    }

    /** Join the buffered rows with their heads and store them; `raised` is the exception, if any. */
    method Checkpoint() returns (raised: Option<JoinError>)
      requires Valid()
      modifies this
      ensures Valid()
      ensures var r := CheckpointIndexed(old(State()), index, probeKey, merge);
        && (raised.None? <==> r.Success?)
        && (r.Success? ==> State() == r.value)
        && (r.Failure? ==> raised == Some(r.error) && State() == old(State()))
    {
      if |temporary| == 0 {
        return None;
      }
      var all := Concat(temporary);
      if |all.scores| == 0 {
        return None;
      }
      var joined := JoinBuffer(Rows(all), index, probeKey, merge);
      if joined.Failure? {
        return Some(joined.error);
      }
      lowidx := if hasLowidx then lowidx + joined.value else joined.value;
      hasLowidx := true;
      temporary := [];
      raised := None;
    }

    /** Consume the finished jobs in completion order, checkpointing whenever the buffer fills. */
    method Accumulate(gen: seq<Option<Batch<P>>>) returns (raised: Option<JoinError>)
      requires Valid() && ItemsWellFormed(gen)
      modifies this
      ensures Valid()
      ensures IndexedRun(State(), raised) == AccumulateIndexed(old(State()), gen, maxTmpSize, index, probeKey, merge)
    {
      var i := 0;
      while i < |gen|
        invariant 0 <= i <= |gen| && Valid()
        invariant IndexedRun(State(), None) == AccumulateIndexed(old(State()), gen[..i], maxTmpSize, index, probeKey, merge)
      {
        var result := gen[i];
        assert gen[..i + 1][..i] == gen[..i];
        if result.Some? {
          temporary := temporary + [result.value];
          if |temporary| >= maxTmpSize {
            raised := Checkpoint();
            if raised.Some? {
              IndexedRaisedStops(old(State()), gen, i + 1, maxTmpSize, index, probeKey, merge);
              return;
            }
          }
        }
        i := i + 1;
      }
      assert gen[..|gen|] == gen;
      raised := None;
    }

    /** A last checkpoint, then the stored rows, or None if none were ever stored. */
    method FinalResult() returns (r: Result<Option<seq<seq<nat>>>, JoinError>)
      requires Valid()
      modifies this
      ensures Valid()
      ensures r == FinalIndexed(old(State()), index, probeKey, merge)
      ensures var c := CheckpointIndexed(old(State()), index, probeKey, merge);
        && (c.Success? ==> State() == c.value)
        && (c.Failure? ==> State() == old(State()))
    {
      var raised := Checkpoint();
      if raised.Some? {
        r := Failure(raised.value);
      } else if hasLowidx {
        r := Success(Some(lowidx));
      } else {
        r := Success(None);
      }
    }
  }
}
