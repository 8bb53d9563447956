// IndexAccumulator (worms/search.py lines 53-91): collects the index rows of
// the samples that pass a threshold into a dictionary keyed by the bin of
// their from-seg/to-seg transform.
//
// The binning of the transform (XformBinner.get_bin_index of
// hinv(positions[:, from_seg]) @ positions[:, to_seg]) is the abstract key
// function `binKey` of a sample's positions.  The collision policy is the
// source's: within one checkpoint a later row overwrites an earlier one with
// the same key, and a key already in the index is never overwritten.

module IndexAccumulation {
  import opened Common
  import opened Batches

  /** The AssertionError of `assert np.all(indices < self.sizes)` (line 70). */
  datatype IndexError = IndexOutOfBounds

  datatype IndexState<P, K> = IndexState(tmp: seq<Batch<P>>, index: map<K, seq<nat>>)

  /** Consuming a stream: the fields afterwards, and whether an AssertionError escaped. */
  datatype IndexRun<P, K> = IndexRun(state: IndexState<P, K>, raised: bool)

  /** The line-70 assert: every row that passes `score <= thresh` lies within `sizes`. */
  predicate AdmittedInBounds<P>(rows: seq<Row<P>>, sizes: seq<nat>, thresh: int)
  {
    forall i :: 0 <= i < |rows| && rows[i].score <= thresh ==> InBounds(rows[i].idx, sizes)
  }

  /** Every value stored in the index lies within `sizes`. */
  predicate IndexInBounds<K>(index: map<K, seq<nat>>, sizes: seq<nat>)
  {
    forall k :: k in index ==> InBounds(index[k], sizes)
  }

  /** The dict of one checkpoint (line 76): bin key to index row for the rows with
      `score <= thresh`, in order, so a later row overwrites an earlier one. */
  function BatchIndex<P, K>(rows: seq<Row<P>>, thresh: int, binKey: seq<P> -> K): map<K, seq<nat>>
  {
    if rows == [] then map[]
    else
      var m := BatchIndex(rows[..|rows| - 1], thresh, binKey);
      var last := rows[|rows| - 1];
      if last.score <= thresh then m[binKey(last.pos) := last.idx] else m
  }

  /** Row `i` passes the threshold, has key `k`, and no later passing row has key `k`. */
  ghost predicate LastAdmitted<P, K>(rows: seq<Row<P>>, thresh: int, binKey: seq<P> -> K, k: K, i: int)
  {
    && 0 <= i < |rows| && rows[i].score <= thresh && binKey(rows[i].pos) == k
    && forall j :: i < j < |rows| && rows[j].score <= thresh ==> binKey(rows[j].pos) != k
  }

  /** IndexAccumulator.checkpoint (lines 66-78).  A failed assert raises before
      any field is assigned; otherwise the batch's dict is merged under the old
      index, which wins on shared keys, and the buffer is emptied. */
  function CheckpointIndex<P, K>(st: IndexState<P, K>, sizes: seq<nat>, thresh: int, binKey: seq<P> -> K): (r: Result<IndexState<P, K>, IndexError>)
    requires AllWellFormed(st.tmp)
    ensures st.tmp == [] ==> r == Success(st)
    ensures r.Success? ==> r.value.tmp == []
  {
    if st.tmp == [] then Success(st)
    else
      var rows := Rows(Concat(st.tmp));
      if !AdmittedInBounds(rows, sizes, thresh) then Failure(IndexOutOfBounds)
      else Success(IndexState([], BatchIndex(rows, thresh, binKey) + st.index))
  }

  /** One pass of the loop in IndexAccumulator.accumulate (lines 80-87); nothing runs after a raise. */
  function StepIndex<P, K>(run: IndexRun<P, K>, item: Option<Batch<P>>, sizes: seq<nat>, thresh: int, maxTmpSize: int, binKey: seq<P> -> K): (r: IndexRun<P, K>)
    requires AllWellFormed(run.state.tmp) && (item.Some? ==> item.value.WellFormed())
    ensures AllWellFormed(r.state.tmp)
    ensures !run.raised && BufferBounded(run.state.tmp, maxTmpSize) && !r.raised ==> BufferBounded(r.state.tmp, maxTmpSize)
    ensures run.raised ==> r == run
  {
    if run.raised || item.None? then run
    else
      var buffered := run.state.(tmp := run.state.tmp + [item.value]);
      if |buffered.tmp| >= maxTmpSize then
        match CheckpointIndex(buffered, sizes, thresh, binKey)
        case Success(s) => IndexRun(s, false)
        case Failure(_) => IndexRun(buffered, true)
      else IndexRun(buffered, false)
  }

  /** IndexAccumulator.accumulate over a whole stream of finished jobs. */
  function AccumulateIndex<P, K>(st: IndexState<P, K>, gen: seq<Option<Batch<P>>>, sizes: seq<nat>, thresh: int, maxTmpSize: int, binKey: seq<P> -> K): (r: IndexRun<P, K>)
    requires AllWellFormed(st.tmp) && ItemsWellFormed(gen)
    ensures AllWellFormed(r.state.tmp)
    ensures BufferBounded(st.tmp, maxTmpSize) && !r.raised ==> BufferBounded(r.state.tmp, maxTmpSize)
  {
    if gen == [] then IndexRun(st, false)
    else StepIndex(AccumulateIndex(st, gen[..|gen| - 1], sizes, thresh, maxTmpSize, binKey), gen[|gen| - 1], sizes, thresh, maxTmpSize, binKey)
  }

  /** IndexAccumulator.final_result (lines 89-91): a last checkpoint, then the index. */
  function FinalIndex<P, K>(st: IndexState<P, K>, sizes: seq<nat>, thresh: int, binKey: seq<P> -> K): Result<map<K, seq<nat>>, IndexError>
    requires AllWellFormed(st.tmp)
  {
    match CheckpointIndex(st, sizes, thresh, binKey)
    case Success(s) => Success(s.index)
    case Failure(e) => Failure(e)
  }

  // ---------------------------------------------------------------------
  // What a checkpoint stores

  /** The dict of one batch has a key exactly when some row passing the
      threshold has that key, and then it holds the index row of the last such row. */
  lemma {:induction false} BatchIndexLastWins<P, K>(rows: seq<Row<P>>, thresh: int, binKey: seq<P> -> K, k: K)
    ensures k in BatchIndex(rows, thresh, binKey) <==>
            exists i :: 0 <= i < |rows| && rows[i].score <= thresh && binKey(rows[i].pos) == k
    ensures k in BatchIndex(rows, thresh, binKey) ==>
            exists i :: LastAdmitted(rows, thresh, binKey, k, i) && BatchIndex(rows, thresh, binKey)[k] == rows[i].idx
  {
    if rows != [] {
      var init := rows[..|rows| - 1];
      var last := rows[|rows| - 1];
      BatchIndexLastWins(init, thresh, binKey, k);
      if last.score <= thresh && binKey(last.pos) == k {
        assert LastAdmitted(rows, thresh, binKey, k, |rows| - 1);
      } else if k in BatchIndex(init, thresh, binKey) {
        var i :| LastAdmitted(init, thresh, binKey, k, i) && BatchIndex(init, thresh, binKey)[k] == init[i].idx;
        assert LastAdmitted(rows, thresh, binKey, k, i);
      } else {
        forall i | 0 <= i < |rows| && rows[i].score <= thresh
          ensures binKey(rows[i].pos) != k
        {
          if i < |init| {
            assert rows[i] == init[i];
          }
        }
      }
    }
  }

  /** Every value of the batch's dict is the index row of a row that passed the threshold. */
  lemma {:induction false} BatchIndexValues<P, K>(rows: seq<Row<P>>, thresh: int, binKey: seq<P> -> K, sizes: seq<nat>)
    requires AdmittedInBounds(rows, sizes, thresh)
    ensures IndexInBounds(BatchIndex(rows, thresh, binKey), sizes)
  {
    if rows != [] {
      var init := rows[..|rows| - 1];
      assert AdmittedInBounds(init, sizes, thresh) by {
        forall i | 0 <= i < |init| && init[i].score <= thresh
          ensures InBounds(init[i].idx, sizes)
        {
          assert init[i] == rows[i];
        }
      }
      BatchIndexValues(init, thresh, binKey, sizes);
    }
  }

  /** What one checkpoint of a non-empty buffer does: it raises exactly when a
      row passing the threshold is out of bounds; otherwise the new index has
      the old keys with their old rows, plus, for every other key of a passing
      row, the index row of the last passing row with that key, and nothing else. */
  lemma CheckpointIndexSpec<P, K>(st: IndexState<P, K>, sizes: seq<nat>, thresh: int, binKey: seq<P> -> K, k: K)
    requires AllWellFormed(st.tmp) && st.tmp != []
    ensures var rows := Rows(Concat(st.tmp));
      var r := CheckpointIndex(st, sizes, thresh, binKey);
      && (r.Failure? <==> exists i :: 0 <= i < |rows| && rows[i].score <= thresh && !InBounds(rows[i].idx, sizes))
      && (r.Success? ==>
            && r.value.tmp == []
            && (k in r.value.index <==>
                  k in st.index || exists i :: 0 <= i < |rows| && rows[i].score <= thresh && binKey(rows[i].pos) == k)
            && (k in st.index ==> r.value.index[k] == st.index[k])
            && (k in r.value.index && k !in st.index ==>
                  exists i :: LastAdmitted(rows, thresh, binKey, k, i) && r.value.index[k] == rows[i].idx))
  {
    var rows := Rows(Concat(st.tmp));
    BatchIndexLastWins(rows, thresh, binKey, k);
    if AdmittedInBounds(rows, sizes, thresh) {
      var batch := BatchIndex(rows, thresh, binKey);
      var merged := batch + st.index;
      assert CheckpointIndex(st, sizes, thresh, binKey).value.index == merged;
      assert k in merged <==> k in batch || k in st.index;
      if k !in st.index && k in batch {
        assert merged[k] == batch[k];
      }
    }
  }

  /** A checkpoint that does not raise keeps every stored row within `sizes`. */
  lemma CheckpointIndexInBounds<P, K>(st: IndexState<P, K>, sizes: seq<nat>, thresh: int, binKey: seq<P> -> K)
    requires AllWellFormed(st.tmp) && IndexInBounds(st.index, sizes)
    ensures var r := CheckpointIndex(st, sizes, thresh, binKey);
      r.Success? ==> IndexInBounds(r.value.index, sizes)
  {
    if st.tmp != [] {
      var rows := Rows(Concat(st.tmp));
      if AdmittedInBounds(rows, sizes, thresh) {
        BatchIndexValues(rows, thresh, binKey, sizes);
      }
    }
  }

  // ---------------------------------------------------------------------
  // What a stream stores

  /** Over a whole stream, stored rows stay within `sizes` and a stored key is never overwritten. */
  lemma {:induction false} AccumulateIndexKeeps<P, K>(st: IndexState<P, K>, gen: seq<Option<Batch<P>>>, sizes: seq<nat>, thresh: int, maxTmpSize: int, binKey: seq<P> -> K)
    requires AllWellFormed(st.tmp) && ItemsWellFormed(gen) && IndexInBounds(st.index, sizes)
    ensures var r := AccumulateIndex(st, gen, sizes, thresh, maxTmpSize, binKey);
      && IndexInBounds(r.state.index, sizes)
      && forall k :: k in st.index ==> k in r.state.index && r.state.index[k] == st.index[k]
  {
    if gen != [] {
      var init := gen[..|gen| - 1];
      var item := gen[|gen| - 1];
      AccumulateIndexKeeps(st, init, sizes, thresh, maxTmpSize, binKey);
      var run := AccumulateIndex(st, init, sizes, thresh, maxTmpSize, binKey);
      if !run.raised && item.Some? {
        var buffered := run.state.(tmp := run.state.tmp + [item.value]);
        if |buffered.tmp| >= maxTmpSize {
          CheckpointIndexInBounds(buffered, sizes, thresh, binKey);
          var r := CheckpointIndex(buffered, sizes, thresh, binKey);
          if r.Success? {
            forall k | k in st.index
              ensures k in r.value.index && r.value.index[k] == st.index[k]
            {
              CheckpointIndexSpec(buffered, sizes, thresh, binKey, k);
            }
          }
        }
      }
    }
  }

  /** Once a raise has escaped, the rest of the stream is not consumed. */
  lemma AccumulateIndexSnoc<P, K>(st: IndexState<P, K>, gen: seq<Option<Batch<P>>>, i: nat, sizes: seq<nat>, thresh: int, maxTmpSize: int, binKey: seq<P> -> K)
    requires AllWellFormed(st.tmp) && ItemsWellFormed(gen) && i < |gen|
    ensures AccumulateIndex(st, gen[..i + 1], sizes, thresh, maxTmpSize, binKey)
         == StepIndex(AccumulateIndex(st, gen[..i], sizes, thresh, maxTmpSize, binKey), gen[i], sizes, thresh, maxTmpSize, binKey)
  {
    assert gen[..i + 1][..i] == gen[..i];
  }

  lemma {:induction false} RaisedStops<P, K>(st: IndexState<P, K>, gen: seq<Option<Batch<P>>>, j: nat, sizes: seq<nat>, thresh: int, maxTmpSize: int, binKey: seq<P> -> K)
    requires AllWellFormed(st.tmp) && ItemsWellFormed(gen) && j <= |gen|
    requires AccumulateIndex(st, gen[..j], sizes, thresh, maxTmpSize, binKey).raised
    ensures AccumulateIndex(st, gen, sizes, thresh, maxTmpSize, binKey) == AccumulateIndex(st, gen[..j], sizes, thresh, maxTmpSize, binKey)
  {
    if j < |gen| {
      var init := gen[..|gen| - 1];
      assert init[..j] == gen[..j];
      RaisedStops(st, init, j, sizes, thresh, maxTmpSize, binKey);
    } else {
      assert gen[..j] == gen;
    }
  }

  // ---------------------------------------------------------------------
  // The class

  class IndexAccumulator<P(==), K(==)> {
    const sizes: seq<nat>
    const thresh: int
    const maxTmpSize: int
    const binKey: seq<P> -> K
    var tmp: seq<Batch<P>>
    var index: map<K, seq<nat>>

    function State(): IndexState<P, K>
      reads this
    {
      IndexState(tmp, index)
    }

    ghost predicate Valid()
      reads this
    {
      AllWellFormed(tmp) && IndexInBounds(index, sizes)
    }

    constructor (sizes: seq<nat>, thresh: int, maxTmpSize: int, binKey: seq<P> -> K)
      ensures Valid() && State() == IndexState([], map[])
      ensures this.sizes == sizes && this.thresh == thresh && this.maxTmpSize == maxTmpSize && this.binKey == binKey
    {
      this.sizes := sizes;
      this.thresh := thresh;
      this.maxTmpSize := maxTmpSize;
      this.binKey := binKey;
      tmp := [];
      index := map[];
    }

    /** Merge the buffered rows that pass the threshold into the index; `raised` reports the line-70 AssertionError. */
    method Checkpoint() returns (raised: bool)
      requires Valid()
      modifies this
      ensures Valid()
      ensures var r := CheckpointIndex(old(State()), sizes, thresh, binKey);
        && (raised <==> r.Failure?)
        && (raised ==> State() == old(State()))
        && (!raised ==> State() == r.value)
    {
      if |tmp| == 0 {
        return false;
      }
      var rows := Rows(Concat(tmp));
      if !AdmittedInBounds(rows, sizes, thresh) {
        return true;
      }
      CheckpointIndexInBounds(State(), sizes, thresh, binKey);
      index := BatchIndex(rows, thresh, binKey) + index;
      tmp := [];
      raised := false;
    }

    /** One finished job: buffer its result, and checkpoint when the buffer is full. */
    method Feed(result: Option<Batch<P>>) returns (raised: bool)
      requires Valid() && (result.Some? ==> result.value.WellFormed())
      modifies this
      ensures Valid()
      ensures IndexRun(State(), raised) == StepIndex(IndexRun(old(State()), false), result, sizes, thresh, maxTmpSize, binKey)
    {
      raised := false;
      if result.Some? {
        tmp := tmp + [result.value];
        if |tmp| >= maxTmpSize {
          raised := Checkpoint();
        }
      }
    }

    /** Consume the finished jobs in completion order, checkpointing whenever the buffer fills. */
    method Accumulate(gen: seq<Option<Batch<P>>>) returns (raised: bool)
      requires Valid() && ItemsWellFormed(gen)
      modifies this
      ensures Valid()
      ensures IndexRun(State(), raised) == AccumulateIndex(old(State()), gen, sizes, thresh, maxTmpSize, binKey)
    {
      ghost var start := State();
      var i := 0;
      while i < |gen|
        invariant 0 <= i <= |gen| && Valid()
        invariant IndexRun(State(), false) == AccumulateIndex(start, gen[..i], sizes, thresh, maxTmpSize, binKey)
      {
        AccumulateIndexSnoc(start, gen, i, sizes, thresh, maxTmpSize, binKey);
        raised := Feed(gen[i]);
        if raised {
          RaisedStops(start, gen, i + 1, sizes, thresh, maxTmpSize, binKey);
          return;
        }
        i := i + 1;
      }
      assert gen[..|gen|] == gen;
      raised := false;
    }

    /** A last checkpoint, then the index. */
    method FinalResult() returns (r: Result<map<K, seq<nat>>, IndexError>)
      requires Valid()
      modifies this
      ensures Valid()
      ensures r == FinalIndex(old(State()), sizes, thresh, binKey)
      ensures r.Success? ==> State() == IndexState([], r.value)
      ensures r.Failure? ==> State() == old(State())
    {
      var raised := Checkpoint();
      if raised {
        r := Failure(IndexOutOfBounds);
      } else {
        r := Success(index);
      }
    }
  }
}
