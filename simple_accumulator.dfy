// SimpleAccumulator (worms/search.py lines 14-50): the bounded top-k reducer
// that collects the batches returned by search jobs.
//
// The class keeps the source's fields; its methods are specified by the pure
// transition functions below (CheckpointState, StepState, AccumulateState,
// FinalState) over SimpleState, the value the fields hold.  The lemmas after
// them say what the reducer computes: after any stream of batches, in any
// order, the result holds min(max_results, #rows fed) rows, sorted, and they
// are a best-scoring selection of all rows ever fed.

module SimpleAccumulation {
  import opened Common
  import opened Batches

  /** The buffer and, once a checkpoint has stored one, the running result
      (hasattr(self, 'scores') is `best.Some?`). */
  datatype SimpleState<P> = SimpleState(temporary: seq<Batch<P>>, best: Option<Batch<P>>)

  /** Shape invariant: aligned arrays, and a stored result is sorted and within the cap. */
  predicate Shaped<P>(st: SimpleState<P>, maxResults: nat)
  {
    && AllWellFormed(st.temporary)
    && (st.best.Some? ==>
          st.best.value.WellFormed() && st.best.value.Size() <= maxResults && Sorted(st.best.value.scores))
  }

  /** What a checkpoint concatenates: the buffered batches, then the stored result. */
  function Pending<P>(st: SimpleState<P>): seq<Batch<P>>
  {
    st.temporary + (if st.best.Some? then [st.best.value] else [])
  }

  /** SimpleAccumulator.checkpoint (lines 21-34). */
  function CheckpointState<P>(st: SimpleState<P>, maxResults: nat): (r: SimpleState<P>)
    requires Shaped(st, maxResults)
    ensures Shaped(r, maxResults) && r.temporary == []
    ensures st.temporary == [] ==> r == st
    ensures st.temporary != [] ==> r.best.Some?
  {
    if st.temporary == [] then st
    else
      var all := Concat(Pending(st));
      TopKIsTopK(all, maxResults);
      SimpleState([], Some(TopK(all, maxResults)))
  }

  /** One pass of the loop in SimpleAccumulator.accumulate (lines 38-42). */
  function StepState<P>(st: SimpleState<P>, item: Option<Batch<P>>, maxTmpSize: int, maxResults: nat): (r: SimpleState<P>)
    requires Shaped(st, maxResults) && (item.Some? ==> item.value.WellFormed())
    ensures Shaped(r, maxResults)
    ensures BufferBounded(st.temporary, maxTmpSize) ==> BufferBounded(r.temporary, maxTmpSize)
  {
    match item
    case None => st
    case Some(b) =>
      var buffered := st.(temporary := st.temporary + [b]);
      if |buffered.temporary| >= maxTmpSize then CheckpointState(buffered, maxResults) else buffered
  }

  /** SimpleAccumulator.accumulate over a whole stream of finished jobs. */
  function AccumulateState<P>(st: SimpleState<P>, gen: seq<Option<Batch<P>>>, maxTmpSize: int, maxResults: nat): (r: SimpleState<P>)
    requires Shaped(st, maxResults) && ItemsWellFormed(gen)
    ensures Shaped(r, maxResults)
    ensures BufferBounded(st.temporary, maxTmpSize) ==> BufferBounded(r.temporary, maxTmpSize)
  {
    if gen == [] then st
    else StepState(AccumulateState(st, gen[..|gen| - 1], maxTmpSize, maxResults), gen[|gen| - 1], maxTmpSize, maxResults)
  }

  /** The fold over a prefix one item longer takes one more step. */
  lemma AccumulateSnoc<P>(st: SimpleState<P>, gen: seq<Option<Batch<P>>>, i: nat, maxTmpSize: int, maxResults: nat)
    requires Shaped(st, maxResults) && ItemsWellFormed(gen) && i < |gen|
    ensures AccumulateState(st, gen[..i + 1], maxTmpSize, maxResults)
         == StepState(AccumulateState(st, gen[..i], maxTmpSize, maxResults), gen[i], maxTmpSize, maxResults)
  {
    assert gen[..i + 1][..i] == gen[..i];
  }

  /** SimpleAccumulator.final_result (lines 45-50): checkpoint, then the stored result or None. */
  function FinalState<P>(st: SimpleState<P>, maxResults: nat): Option<Batch<P>>
    requires Shaped(st, maxResults)
  {
    CheckpointState(st, maxResults).best
  }

  // ---------------------------------------------------------------------
  // What the reducer computes

  /** final_result is None exactly when nothing was ever buffered: no earlier
      result, nothing in the buffer and no non-None item in the stream. */
  lemma {:induction false} FinalNoneIff<P>(st: SimpleState<P>, gen: seq<Option<Batch<P>>>, maxTmpSize: int, maxResults: nat)
    requires Shaped(st, maxResults) && ItemsWellFormed(gen)
    ensures FinalState(AccumulateState(st, gen, maxTmpSize, maxResults), maxResults).None?
            <==> st.temporary == [] && st.best.None? && forall i :: 0 <= i < |gen| ==> gen[i].None?
  {
    if gen != [] {
      var init := gen[..|gen| - 1];
      FinalNoneIff(st, init, maxTmpSize, maxResults);
      assert forall i :: 0 <= i < |init| ==> init[i] == gen[i];
    }
  }

  /** The rows fed by a stream. */
  ghost function FedRows<P>(gen: seq<Option<Batch<P>>>): multiset<Row<P>>
    requires ItemsWellFormed(gen)
  {
    if gen == [] then multiset{}
    else
      FedRows(gen[..|gen| - 1]) +
      (if gen[|gen| - 1].Some? then multiset(Rows(gen[|gen| - 1].value)) else multiset{})
  }

  /** The rows a checkpoint would merge now. */
  ghost function PendingRows<P>(st: SimpleState<P>): multiset<Row<P>>
    requires AllWellFormed(st.temporary) && (st.best.Some? ==> st.best.value.WellFormed())
  {
    multiset(Rows(Concat(Pending(st))))
  }

  ghost function BestRows<P>(st: SimpleState<P>): multiset<Row<P>>
    requires st.best.Some? ==> st.best.value.WellFormed()
  {
    if st.best.Some? then multiset(Rows(st.best.value)) else multiset{}
  }

  /** Every row of `kept` scores at most every row of `dropped`. */
  ghost predicate Beats<P>(kept: multiset<Row<P>>, dropped: multiset<Row<P>>)
  {
    forall a, d :: a in kept && d in dropped ==> a.score <= d.score
  }

  /** History invariant, on multisets of rows: with `pending` the rows a
      checkpoint would merge now and `best` the stored ones, the pending rows
      come from `fed`, no stored row scores above a row dropped earlier, and
      once a row has been dropped the stored result is full. */
  ghost predicate JudgedRows<P>(pending: multiset<Row<P>>, best: multiset<Row<P>>, fed: multiset<Row<P>>, maxResults: nat)
  {
    && pending <= fed
    && Beats(best, fed - pending)
    && (fed - pending != multiset{} ==> |best| == maxResults)
  }

  ghost predicate Judged<P>(st: SimpleState<P>, fed: multiset<Row<P>>, maxResults: nat)
    requires Shaped(st, maxResults)
  {
    JudgedRows(PendingRows(st), BestRows(st), fed, maxResults)
  }

  lemma PendingSplit<P>(st: SimpleState<P>)
    requires AllWellFormed(st.temporary) && (st.best.Some? ==> st.best.value.WellFormed())
    ensures PendingRows(st) == multiset(Rows(Concat(st.temporary))) + BestRows(st)
  {
    if st.best.Some? {
      var p := Pending(st);
      assert p[..|p| - 1] == st.temporary;
    } else {
      assert Pending(st) == st.temporary;
    }
  }

  lemma CardMono<T>(a: multiset<T>, b: multiset<T>)
    requires a <= b
    ensures |a| <= |b|
  {
    assert b == a + (b - a);
  }

  /** A kept row that scores above a row dropped earlier would force the
      whole full stored result to survive beside it: one row too many. */
  lemma MergeBeatsOld<P>(buffered: multiset<Row<P>>, best: multiset<Row<P>>, kept: multiset<Row<P>>, maxResults: nat, a: Row<P>, d: Row<P>)
    requires |best| == maxResults && Beats(best, multiset{d})
    requires |kept| <= maxResults && Beats(kept, buffered + best - kept)
    requires a in kept
    ensures a.score <= d.score
  {
    if a.score > d.score {
      var pending := buffered + best;
      forall s | s in best
        ensures s.score < a.score
      {
        assert d in multiset{d};
      }
      assert forall s :: best[s] > kept[s] ==> s in pending - kept;
      assert best <= kept;
      assert a !in best;
      assert best + multiset{a} <= kept;
      CardMono(best + multiset{a}, kept);
    }
  }

  /** Once something has been dropped, the merged result is full. */
  lemma MergeFull<P>(pending: multiset<Row<P>>, best: multiset<Row<P>>, kept: multiset<Row<P>>, fed: multiset<Row<P>>, maxResults: nat)
    requires pending <= fed && best <= pending
    requires fed - pending != multiset{} ==> |best| == maxResults
    requires kept <= pending && |kept| == Min(maxResults, |pending|)
    requires fed - kept != multiset{}
    ensures |kept| == maxResults
  {
    if fed - pending != multiset{} {
      CardMono(best, pending);
    } else {
      var d :| d in fed - kept;
      assert (fed - pending)[d] == 0;
      assert d in pending - kept;
      assert pending == kept + (pending - kept);
    }
  }

  /** The merge step on multisets: the buffered rows and the stored rows are
      merged, and `kept` is a best-scoring selection of min(max_results, all)
      of them.  Then the history invariant holds with `kept` stored alone. */
  lemma MergeJudged<P>(buffered: multiset<Row<P>>, best: multiset<Row<P>>, kept: multiset<Row<P>>, fed: multiset<Row<P>>, maxResults: nat)
    requires JudgedRows(buffered + best, best, fed, maxResults)
    requires kept <= buffered + best && |kept| == Min(maxResults, |buffered + best|)
    requires Beats(kept, buffered + best - kept)
    ensures JudgedRows(kept, kept, fed, maxResults)
  {
    var pending := buffered + best;
    forall a, d | a in kept && d in fed - kept
      ensures a.score <= d.score
    {
      if d !in pending - kept {
        assert d in fed - pending;
        MergeBeatsOld(buffered, best, kept, maxResults, a, d);
      }
    }
    if fed - kept != multiset{} {
      MergeFull(pending, best, kept, fed, maxResults);
    }
  }

  /** Index form of Beats for a batch's rows. */
  lemma BeatsFromScores<P>(b: Batch<P>, dropped: multiset<Row<P>>)
    requires b.WellFormed()
    requires forall x, d :: 0 <= x < b.Size() && d in dropped ==> b.scores[x] <= d.score
    ensures Beats(multiset(Rows(b)), dropped)
  {
    forall a, d | a in multiset(Rows(b)) && d in dropped
      ensures a.score <= d.score
    {
      var x :| 0 <= x < |Rows(b)| && Rows(b)[x] == a;
    }
  }

  /** Score form of Beats for a batch's rows. */
  lemma ScoresFromBeats<P>(b: Batch<P>, dropped: multiset<Row<P>>)
    requires b.WellFormed() && Beats(multiset(Rows(b)), dropped)
    ensures forall x, d :: 0 <= x < b.Size() && d in dropped ==> b.scores[x] <= d.score
  {
    forall x, d | 0 <= x < b.Size() && d in dropped
      ensures b.scores[x] <= d.score
    {
      assert Rows(b)[x] in multiset(Rows(b));
    }
  }

  /** TopK on multisets of rows: a selection of the right size that beats the rest. */
  lemma TopKRows<P>(all: Batch<P>, maxResults: nat)
    requires all.WellFormed()
    ensures var kept := multiset(Rows(TopK(all, maxResults)));
      && kept <= multiset(Rows(all))
      && |kept| == Min(maxResults, |multiset(Rows(all))|)
      && Beats(kept, multiset(Rows(all)) - kept)
  {
    TopKIsTopK(all, maxResults);
    BeatsFromScores(TopK(all, maxResults), multiset(Rows(all)) - multiset(Rows(TopK(all, maxResults))));
  }

  /** After a checkpoint, the only pending rows are the stored ones. */
  lemma StoredOnly<P>(b: Batch<P>)
    requires b.WellFormed()
    ensures PendingRows(SimpleState([], Some(b))) == multiset(Rows(b))
    ensures BestRows(SimpleState([], Some(b))) == multiset(Rows(b))
  {
    var st := SimpleState([], Some(b));
    assert Pending(st) == [b];
    assert [b][..0] == [];
    assert Rows(Concat([b][..0])) == [];
  }

  /** A checkpoint keeps the history invariant. */
  lemma CheckpointJudged<P>(st: SimpleState<P>, fed: multiset<Row<P>>, maxResults: nat)
    requires Shaped(st, maxResults) && Judged(st, fed, maxResults)
    ensures Judged(CheckpointState(st, maxResults), fed, maxResults)
  {
    if st.temporary != [] {
      var all := Concat(Pending(st));
      var kept := TopK(all, maxResults);
      assert CheckpointState(st, maxResults) == SimpleState([], Some(kept));
      TopKRows(all, maxResults);
      PendingSplit(st);
      StoredOnly(kept);
      MergeJudged(multiset(Rows(Concat(st.temporary))), BestRows(st), multiset(Rows(kept)), fed, maxResults);
    }
  }

  /** Rows that arrive count as fed and as pending, so what was dropped is unchanged. */
  lemma FeedJudged<P>(pending: multiset<Row<P>>, best: multiset<Row<P>>, fed: multiset<Row<P>>, more: multiset<Row<P>>, maxResults: nat)
    requires JudgedRows(pending, best, fed, maxResults)
    ensures JudgedRows(pending + more, best, fed + more, maxResults)
  {
    assert (fed + more) - (pending + more) == fed - pending;
  }

  /** Buffering a batch adds its rows to the pending ones. */
  lemma BufferRows<P>(st: SimpleState<P>, b: Batch<P>)
    requires AllWellFormed(st.temporary) && (st.best.Some? ==> st.best.value.WellFormed()) && b.WellFormed()
    ensures PendingRows(st.(temporary := st.temporary + [b])) == PendingRows(st) + multiset(Rows(b))
    ensures BestRows(st.(temporary := st.temporary + [b])) == BestRows(st)
  {
    var buffered := st.(temporary := st.temporary + [b]);
    PendingSplit(st);
    PendingSplit(buffered);
    assert (st.temporary + [b])[..|st.temporary|] == st.temporary;
  }

  /** One step of the stream keeps the history invariant, with the item's rows added to it. */
  lemma StepJudged<P>(st: SimpleState<P>, fed: multiset<Row<P>>, item: Option<Batch<P>>, maxTmpSize: int, maxResults: nat)
    requires Shaped(st, maxResults) && (item.Some? ==> item.value.WellFormed())
    requires Judged(st, fed, maxResults)
    ensures Judged(StepState(st, item, maxTmpSize, maxResults), fed + (if item.Some? then multiset(Rows(item.value)) else multiset{}), maxResults)
  {
    if item.Some? {
      var b := item.value;
      var buffered := st.(temporary := st.temporary + [b]);
      var fed' := fed + multiset(Rows(b));
      BufferRows(st, b);
      FeedJudged(PendingRows(st), BestRows(st), fed, multiset(Rows(b)), maxResults);
      assert Judged(buffered, fed', maxResults);
      if |buffered.temporary| >= maxTmpSize {
        CheckpointJudged(buffered, fed', maxResults);
        assert StepState(st, item, maxTmpSize, maxResults) == CheckpointState(buffered, maxResults);
      } else {
        assert StepState(st, item, maxTmpSize, maxResults) == buffered;
      }
    } else {
      assert fed + multiset{} == fed;
    }
  }

  /** The rows fed by a stream are those fed before its last item, plus the last item's. */
  lemma FedRowsLast<P>(gen: seq<Option<Batch<P>>>, fed: multiset<Row<P>>)
    requires ItemsWellFormed(gen) && gen != []
    ensures ItemsWellFormed(gen[..|gen| - 1])
    ensures var last := gen[|gen| - 1];
      fed + FedRows(gen) == fed + FedRows(gen[..|gen| - 1]) + (if last.Some? then multiset(Rows(last.value)) else multiset{})
  {
  }

  /** The stream keeps the history invariant over everything it fed. */
  lemma {:induction false} AccumulateJudged<P>(st: SimpleState<P>, fed: multiset<Row<P>>, gen: seq<Option<Batch<P>>>, maxTmpSize: int, maxResults: nat)
    requires Shaped(st, maxResults) && ItemsWellFormed(gen) && Judged(st, fed, maxResults)
    ensures Judged(AccumulateState(st, gen, maxTmpSize, maxResults), fed + FedRows(gen), maxResults)
  {
    if gen == [] {
      assert fed + FedRows(gen) == fed;
    } else {
      var init := gen[..|gen| - 1];
      FedRowsLast(gen, fed);
      AccumulateJudged(st, fed, init, maxTmpSize, maxResults);
      var mid := AccumulateState(st, init, maxTmpSize, maxResults);
      StepJudged(mid, fed + FedRows(init), gen[|gen| - 1], maxTmpSize, maxResults);
      assert AccumulateState(st, gen, maxTmpSize, maxResults) == StepState(mid, gen[|gen| - 1], maxTmpSize, maxResults);
    }
  }

  /** Streaming top-k is global top-k: starting empty, whatever the order the
      batches arrive in and wherever the buffer forces a checkpoint, the final
      result holds min(max_results, #rows fed) rows in ascending score order,
      each one a row that was fed (score, index row and positions together),
      and no row that was fed and left out scores below a row that was kept. */
  lemma FinalIsTopK<P>(gen: seq<Option<Batch<P>>>, maxTmpSize: int, maxResults: nat)
    requires ItemsWellFormed(gen)
    ensures var r := FinalState(AccumulateState(SimpleState([], None), gen, maxTmpSize, maxResults), maxResults);
      r.Some? ==>
        && r.value.Size() == Min(maxResults, |FedRows(gen)|)
        && Sorted(r.value.scores)
        && multiset(Rows(r.value)) <= FedRows(gen)
        && forall x, d :: 0 <= x < r.value.Size() && d in FedRows(gen) - multiset(Rows(r.value))
             ==> r.value.scores[x] <= d.score
  {
    var st0: SimpleState<P> := SimpleState([], None);
    var H := FedRows(gen);
    assert Pending(st0) == [];
    assert JudgedRows(PendingRows(st0), BestRows(st0), multiset{}, maxResults);
    assert multiset{} + H == H;
    AccumulateJudged(st0, multiset{}, gen, maxTmpSize, maxResults);
    var st := AccumulateState(st0, gen, maxTmpSize, maxResults);
    CheckpointJudged(st, H, maxResults);
    var fin := CheckpointState(st, maxResults);
    if fin.best.Some? {
      var b := fin.best.value;
      var K := multiset(Rows(b));
      PendingSplit(fin);
      assert Concat(fin.temporary) == Batch([], [], []);
      assert PendingRows(fin) == K && BestRows(fin) == K;
      JudgedResult(b, H, maxResults);
    }
  }

  /** A stored batch that is all that is pending, judged against the fed rows,
      is the top max_results of them. */
  lemma JudgedResult<P>(b: Batch<P>, fed: multiset<Row<P>>, maxResults: nat)
    requires b.WellFormed() && JudgedRows(multiset(Rows(b)), multiset(Rows(b)), fed, maxResults)
    requires b.Size() <= maxResults
    ensures b.Size() == Min(maxResults, |fed|)
    ensures multiset(Rows(b)) <= fed
    ensures forall x, d :: 0 <= x < b.Size() && d in fed - multiset(Rows(b)) ==> b.scores[x] <= d.score
  {
    var K := multiset(Rows(b));
    ScoresFromBeats(b, fed - K);
    CardMono(K, fed);
    if fed - K == multiset{} {
      assert fed == K + (fed - K);
    }
  }

  // ---------------------------------------------------------------------
  // The class

  class SimpleAccumulator<P(==)> {
    const maxTmpSize: int
    const maxResults: nat
    var temporary: seq<Batch<P>>
    var hasScores: bool
    var scores: seq<int>
    var lowidx: seq<seq<nat>>
    var lowpos: seq<seq<P>>

    function State(): SimpleState<P>
      reads this
    {
      SimpleState(temporary, if hasScores then Some(Batch(scores, lowidx, lowpos)) else None)
    }

    ghost predicate Valid()
      reads this
    {
      Shaped(State(), maxResults) && BufferBounded(temporary, maxTmpSize)
    }

    constructor (maxResults: nat, maxTmpSize: int)
      ensures Valid() && State() == SimpleState([], None)
      ensures this.maxResults == maxResults && this.maxTmpSize == maxTmpSize
    {
      this.maxTmpSize := maxTmpSize;
      this.maxResults := maxResults;
      temporary := [];
      hasScores := false;
      scores, lowidx, lowpos := [], [], [];
    }

    /** Merge the buffer into the stored result: concatenate, argsort, keep max_results. */
    method Checkpoint()
      requires Shaped(State(), maxResults)
      modifies this
      ensures Valid() && State() == CheckpointState(old(State()), maxResults)
    {
      ghost var st := State();
      if |temporary| == 0 {
        return;
      }
      var pending := temporary + (if hasScores then [Batch(scores, lowidx, lowpos)] else []);
      var all := Concat(pending);
      var order := ArgSort(all.scores);
      var keep := order[..Min(maxResults, |order|)];
      scores := Pick(all.scores, keep);
      lowidx := Pick(all.lowidx, keep);
      lowpos := Pick(all.lowpos, keep);
      hasScores := true;
      temporary := [];
      assert pending == Pending(st);
      assert Batch(scores, lowidx, lowpos) == TopK(all, maxResults);
      assert State() == CheckpointState(st, maxResults);
    }

    /** Consume the finished jobs in completion order, checkpointing whenever the buffer fills. */
    method Accumulate(gen: seq<Option<Batch<P>>>)
      requires Valid() && ItemsWellFormed(gen)
      modifies this
      ensures Valid() && State() == AccumulateState(old(State()), gen, maxTmpSize, maxResults)
    {
      var i := 0;
      while i < |gen|
        invariant 0 <= i <= |gen| && Valid()
        invariant State() == AccumulateState(old(State()), gen[..i], maxTmpSize, maxResults)
      {
        ghost var before := State();
        var result := gen[i];
        if result.Some? {
          temporary := temporary + [result.value];
          ghost var buffered := State();
          assert buffered == before.(temporary := before.temporary + [result.value]);
          if |temporary| >= maxTmpSize {
            Checkpoint();
            assert State() == CheckpointState(buffered, maxResults);
          }
        }
        assert State() == StepState(before, gen[i], maxTmpSize, maxResults);
        AccumulateSnoc(old(State()), gen, i, maxTmpSize, maxResults);
        i := i + 1;
      }
      assert gen[..|gen|] == gen;
    }

    /** A last checkpoint, then the stored result, or None if there is none. */
    method FinalResult() returns (r: Option<Batch<P>>)
      requires Valid()
      modifies this
      ensures Valid() && State() == CheckpointState(old(State()), maxResults)
      ensures r == FinalState(old(State()), maxResults)
    {
      Checkpoint();
      if hasScores {
        r := Some(Batch(scores, lowidx, lowpos));
      } else {
        r := None;
      }
    }
  }
}
