// The job plan of grow (worms/search.py lines 174-178 and 237-270): where the
// segment chain is split into a prefix enumerated inside each chunk and a
// suffix enumerated across chunks, and how the chunks are sampled and dealt
// out to jobs.
//
// Sizes and memsize are integers; the float quotient int(ntot / max_samples)
// is integer floor division over non-negative integers; the sqrt-derived job
// count of line 245 is the input `rawJobs`.

module Planning {
  import opened Common

  /** The loop condition of _get_chunk_end_seg: the split at `e` leaves too few
      chunks for the workers, or the prefix is too big for memory. */
  predicate TooFine(sizes: seq<nat>, maxWorkers: int, memsize: int, e: nat)
    requires e <= |sizes|
  {
    Prod(sizes[e..]) < maxWorkers || memsize <= 64 * Prod(sizes[..e])
  }

  /** What _get_chunk_end_seg returns: start at the last segment and move the
      split left while it is too fine, but never below 1. */
  ghost predicate IsChunkEnd(sizes: seq<nat>, maxWorkers: int, memsize: int, e: int)
  {
    && e <= |sizes| - 1
    && (|sizes| <= 2 ==> e == |sizes| - 1)
    && (|sizes| > 2 ==>
          && 1 <= e
          && (e > 1 ==> !TooFine(sizes, maxWorkers, memsize, e))
          && forall e' :: e < e' < |sizes| ==> TooFine(sizes, maxWorkers, memsize, e'))
  }

  /** _get_chunk_end_seg (lines 174-178). */
  method ChunkEndSeg(sizes: seq<nat>, maxWorkers: int, memsize: int) returns (end: int)
    ensures IsChunkEnd(sizes, maxWorkers, memsize, end)
    ensures end == ChunkEnd(sizes, maxWorkers, memsize)
  {
    end := |sizes| - 1;
    while end > 1 && (Prod(sizes[end..]) < maxWorkers || memsize <= 64 * Prod(sizes[..end]))
      invariant end <= |sizes| - 1
      invariant |sizes| <= 2 ==> end == |sizes| - 1
      invariant |sizes| > 2 ==> 1 <= end
      invariant forall e' :: end < e' < |sizes| ==> TooFine(sizes, maxWorkers, memsize, e')
      decreases end
    {
      end := end - 1;
    }
    ChunkEndUnique(sizes, maxWorkers, memsize, end, ChunkEnd(sizes, maxWorkers, memsize));
  }

  /** The split _get_chunk_end_seg returns, as a function of its inputs. */
  function ChunkEnd(sizes: seq<nat>, maxWorkers: int, memsize: int): (e: int)
    ensures IsChunkEnd(sizes, maxWorkers, memsize, e)
  {
    ChunkEndFrom(sizes, maxWorkers, memsize, |sizes| - 1)
  }

  function ChunkEndFrom(sizes: seq<nat>, maxWorkers: int, memsize: int, e: int): (r: int)
    requires e <= |sizes| - 1
    requires |sizes| <= 2 ==> e == |sizes| - 1
    requires |sizes| > 2 ==> 1 <= e
    requires forall e' :: e < e' < |sizes| ==> TooFine(sizes, maxWorkers, memsize, e')
    ensures IsChunkEnd(sizes, maxWorkers, memsize, r)
    decreases e
  {
    if e > 1 && TooFine(sizes, maxWorkers, memsize, e) then ChunkEndFrom(sizes, maxWorkers, memsize, e - 1) else e
  }

  /** The same inputs always give the same split. */
  lemma ChunkEndUnique(sizes: seq<nat>, maxWorkers: int, memsize: int, e1: int, e2: int)
    requires IsChunkEnd(sizes, maxWorkers, memsize, e1) && IsChunkEnd(sizes, maxWorkers, memsize, e2)
    ensures e1 == e2
  {
  }

  /** The figures grow computes before dispatching jobs. */
  datatype Plan = Plan(
    end: nat,
    ntot: nat,
    chunksize: nat,
    nchunks: nat,
    maxSamples: Option<int>,
    everyOther: nat,
    nworker: nat,
    njob: nat)

  datatype PlanError =
    | NoChunks              // njob == 0: int() of an infinite or undefined quotient at line 250
    | SamplesUnformattable  // '{:,}'.format(None) at lines 257-258, when verbosity >= 0 and max_samples is None
    | SystemTooBig          // ValueError('system too big'), line 270

  const JobLimit: int := 1_000_000_000
  const Int64Limit: int := 0x8000_0000_0000_0000

  /** Line 242: np.clip(chunksize * max_workers, max_samples, ntot), when max_samples is given. */
  function ClippedSamples(chunksize: nat, maxWorkers: nat, maxSamples: Option<int>, ntot: nat): (r: Option<int>)
    ensures r.Some? <==> maxSamples.Some?
    ensures r.Some? ==> 0 <= r.value <= ntot
    ensures r.Some? && chunksize * maxWorkers <= maxSamples.value <= ntot ==> r.value == maxSamples.value
    ensures r.Some? && maxSamples.value >= ntot ==> r.value == ntot
    ensures r.Some? && maxSamples.value < chunksize * maxWorkers ==> r.value == Min(chunksize * maxWorkers, ntot)
  {
    if maxSamples.Some? then Some(Clip(chunksize * maxWorkers, maxSamples.value, ntot)) else None
  }

  /** Line 243: every_other, the stride that keeps about max_samples of the ntot samples. */
  function Stride(ntot: nat, samples: Option<int>): (r: nat)
    requires samples.Some? ==> 0 <= samples.value <= ntot
    ensures r >= 1
    ensures samples.Some? && samples.value > 0 ==> r * samples.value <= ntot < (r + 1) * samples.value
  {
    if samples.Some? && samples.value != 0 then Max(1, ntot / samples.value) else 1
  }

  /** Lines 237-270 of grow. `maxWorkers` is already resolved to a positive
      count; `rawJobs` is the value line 245 computes from sqrt(nchunks / every_other). */
  function MakePlan(sizes: seq<nat>, maxWorkers: nat, memsize: int, maxSamples: Option<int>, rawJobs: nat, verbosity: int): Result<Plan, PlanError>
    requires |sizes| >= 1 && maxWorkers >= 1
  {
    var end := ChunkEnd(sizes, maxWorkers, memsize);
    var ntot := Prod(sizes);
    var chunksize := Prod(sizes[..end]);
    var nchunks := Prod(sizes[end..]);
    var samples := ClippedSamples(chunksize, maxWorkers, maxSamples, ntot);
    var everyOther := Stride(ntot, samples);
    var nworker := maxWorkers;
    var njob := Clip(nworker, rawJobs, nchunks);
    if njob == 0 then Failure(NoChunks)
    else if verbosity >= 0 && samples.None? then Failure(SamplesUnformattable)
    else if njob > JobLimit || nchunks >= Int64Limit || everyOther >= Int64Limit then Failure(SystemTooBig)
    else Success(Plan(end, ntot, chunksize, nchunks, samples, everyOther, nworker, njob))
  }

  /** The plan's figures are consistent: the prefix and suffix sizes factor the
      total, the clipped sample count is within the total, the stride is at
      least 1, the job count is the clipped raw count and lies between 1 and
      the number of chunks, and the limits of line 265 hold.  A max_samples of
      at least ntot (the default 1e12) is clipped to ntot, so every sample is
      searched: the stride is 1; so it is when max_samples is None, which only
      a silent run (verbosity < 0) gets past. */
  lemma MakePlanSound(sizes: seq<nat>, maxWorkers: nat, memsize: int, maxSamples: Option<int>, rawJobs: nat, verbosity: int)
    requires |sizes| >= 1 && maxWorkers >= 1
    ensures var r := MakePlan(sizes, maxWorkers, memsize, maxSamples, rawJobs, verbosity);
      r.Success? ==>
        var p := r.value;
        && 0 <= p.end < |sizes| && (|sizes| >= 2 ==> p.end >= 1)
        && p.ntot == p.chunksize * p.nchunks
        && (p.maxSamples.Some? <==> maxSamples.Some?)
        && (p.maxSamples.Some? ==> 0 <= p.maxSamples.value <= p.ntot)
        && p.everyOther >= 1
        && p.nworker == maxWorkers
        && p.njob == Min(Max(maxWorkers, rawJobs), p.nchunks)
        && 1 <= p.njob <= p.nchunks
        && p.njob <= JobLimit && p.nchunks < Int64Limit && p.everyOther < Int64Limit
        && (maxSamples.Some? && maxSamples.value >= p.ntot > 0 ==> p.everyOther == 1)
        && (maxSamples.None? ==> verbosity < 0 && p.everyOther == 1)
  {
    var e := ChunkEnd(sizes, maxWorkers, memsize);
    if |sizes| <= 2 {
      assert e == |sizes| - 1;
    }
    ProdSplit(sizes, e);
    WholeStride(Prod(sizes[..e]), maxWorkers, maxSamples, Prod(sizes));
  }

  /** Keeping every sample, or having no max_samples, means a stride of 1. */
  lemma WholeStride(chunksize: nat, maxWorkers: nat, maxSamples: Option<int>, ntot: nat)
    ensures var samples := ClippedSamples(chunksize, maxWorkers, maxSamples, ntot);
      (maxSamples.None? || maxSamples.value >= ntot > 0) ==> Stride(ntot, samples) == 1
  {
    var samples := ClippedSamples(chunksize, maxWorkers, maxSamples, ntot);
    if maxSamples.Some? && maxSamples.value >= ntot > 0 {
      assert samples == Some(ntot);
      assert ntot / ntot == 1;
    }
  }

  /** Planning raises exactly when no chunk exists (a zero-sized suffix
      segment makes njob 0); or, with chunks, when max_samples is None and the
      plan is printed (verbosity >= 0); or otherwise when the plan is too big:
      more than 1e9 jobs, 2^63 chunks or more, or a stride of 2^63 or more. */
  lemma MakePlanFails(sizes: seq<nat>, maxWorkers: nat, memsize: int, maxSamples: Option<int>, rawJobs: nat, verbosity: int)
    requires |sizes| >= 1 && maxWorkers >= 1
    ensures var r := MakePlan(sizes, maxWorkers, memsize, maxSamples, rawJobs, verbosity);
      var end := ChunkEnd(sizes, maxWorkers, memsize);
      var ntot := Prod(sizes);
      var nchunks := Prod(sizes[end..]);
      var stride := Stride(ntot, ClippedSamples(Prod(sizes[..end]), maxWorkers, maxSamples, ntot));
      var njob := Min(Max(maxWorkers, rawJobs), nchunks);
      && (r == Failure(NoChunks) <==> nchunks == 0)
      && (r == Failure(SamplesUnformattable) <==> nchunks != 0 && verbosity >= 0 && maxSamples.None?)
      && (r == Failure(SystemTooBig) <==>
            nchunks != 0 && !(verbosity >= 0 && maxSamples.None?)
            && (njob > JobLimit || nchunks >= Int64Limit || stride >= Int64Limit))
  {
  }
}
