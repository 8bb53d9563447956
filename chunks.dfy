// The work of one job (worms/search.py lines 339-417): _grow_chunk scores every
// configuration of the prefix segments against one sample of the suffix
// segments; _grow_chunks runs it over a strided slice of the samples and keeps
// the best rows.
//
// Geometry is abstract: `scoreOf` is criteria.score read at one full index row,
// and `segPos(k, row[..k+1])` is the position of segment k, which depends on the
// choices of segments 0..k only (the chained transforms of _chain_xforms).
// util.MultiRange is the abstract `decode` from a flat sample number to a
// suffix index tuple.

module Chunks {
  import opened Common
  import opened Batches

  /** Per-segment tables read by the matchlast test: bodyid, entrysiteid and
      exitsiteid, one entry per configuration of the segment. */
  datatype SegmentTable = SegmentTable(bodyid: seq<int>, entrysite: seq<int>, exitsite: seq<int>)

  /** The part of the job context _grow_chunk reads. */
  datatype ChunkContext = ChunkContext(
    sizes: seq<nat>,
    tables: seq<SegmentTable>,
    end: nat,
    thresh: int,
    matchlast: Option<nat>,
    maxResults: nat)

  /** At least one prefix and one suffix segment (conpos[-1] and samp[-1] must
      exist), the tables match the segment sizes, and matchlast names a segment. */
  predicate ContextOk(ctx: ChunkContext)
  {
    && |ctx.tables| == |ctx.sizes|
    && 1 <= ctx.end < |ctx.sizes|
    && (forall k :: 0 <= k < |ctx.sizes| ==>
          |ctx.tables[k].bodyid| == ctx.sizes[k] && |ctx.tables[k].entrysite| == ctx.sizes[k] && |ctx.tables[k].exitsite| == ctx.sizes[k])
    && (ctx.matchlast.Some? ==> ctx.matchlast.value < |ctx.sizes|)
  }

  /** A sample: one in-range index for each suffix segment. */
  predicate SampleOk(ctx: ChunkContext, samp: seq<nat>)
    requires ContextOk(ctx)
  {
    InBounds(samp, ctx.sizes[ctx.end..])
  }

  /** bidB and site3: body and entry site of the last segment in this sample. */
  function LastBody(ctx: ChunkContext, samp: seq<nat>): int
    requires ContextOk(ctx) && SampleOk(ctx, samp)
  {
    ctx.tables[|ctx.sizes| - 1].bodyid[samp[|samp| - 1]]
  }

  function LastSite(ctx: ChunkContext, samp: seq<nat>): int
    requires ContextOk(ctx) && SampleOk(ctx, samp)
  {
    ctx.tables[|ctx.sizes| - 1].entrysite[samp[|samp| - 1]]
  }

  /** Configuration j of segment `ml` may meet the last segment: same body, and
      neither of its splice sites is the last segment's entry site. */
  predicate Compatible(ctx: ChunkContext, samp: seq<nat>, ml: nat, j: nat)
    requires ContextOk(ctx) && SampleOk(ctx, samp) && ml < |ctx.sizes| && j < ctx.sizes[ml]
  {
    && ctx.tables[ml].bodyid[j] == LastBody(ctx, samp)
    && ctx.tables[ml].entrysite[j] != LastSite(ctx, samp)
    && ctx.tables[ml].exitsite[j] != LastSite(ctx, samp)
  }

  /** matchlast is a prefix segment: the test filters that axis (lines 353-361). */
  predicate FiltersPrefix(ctx: ChunkContext)
  {
    ctx.matchlast.Some? && ctx.matchlast.value < ctx.end
  }

  /** matchlast is a suffix segment: the test is on the sample (lines 362-367). */
  predicate ChecksSample(ctx: ChunkContext)
  {
    ctx.matchlast.Some? && ctx.matchlast.value >= ctx.end
  }

  /** The `allowed` mask of line 357. */
  function Allowed(ctx: ChunkContext, samp: seq<nat>): (mask: seq<bool>)
    requires ContextOk(ctx) && SampleOk(ctx, samp) && FiltersPrefix(ctx)
    ensures |mask| == ctx.sizes[ctx.matchlast.value]
    ensures forall j :: 0 <= j < |mask| ==> (mask[j] <==> Compatible(ctx, samp, ctx.matchlast.value, j))
  {
    var ml := ctx.matchlast.value;
    seq(ctx.sizes[ml], j requires 0 <= j < ctx.sizes[ml] => Compatible(ctx, samp, ml, j))
  }

  /** The test of line 366 on the sample's own configuration of segment matchlast. */
  predicate SampleMatches(ctx: ChunkContext, samp: seq<nat>)
    requires ContextOk(ctx) && SampleOk(ctx, samp) && ChecksSample(ctx)
  {
    var ml := ctx.matchlast.value;
    Compatible(ctx, samp, ml, samp[ml - ctx.end])
  }

  // ---------------------------------------------------------------------
  // np.where and the grid of prefix configurations

  /** np.where(mask)[0]: the positions of the true entries, in increasing order. */
  function Where(mask: seq<bool>): (r: seq<nat>)
    ensures forall j :: j in r <==> 0 <= j < |mask| && mask[j]
    ensures forall a, b :: 0 <= a < b < |r| ==> r[a] < r[b]
  {
    if mask == [] then []
    else
      var init := Where(mask[..|mask| - 1]);
      assert forall j :: 0 <= j < |mask| - 1 ==> mask[..|mask| - 1][j] == mask[j];
      forall a | 0 <= a < |init|
        ensures init[a] < |mask| - 1
      {
        assert init[a] in init;
      }
      init + (if mask[|mask| - 1] then [|mask| - 1] else [])
  }

  lemma RangeMembers(n: nat, x: int)
    ensures x in Range(n) <==> 0 <= x < n
  {
    if 0 <= x < n {
      assert Range(n)[x] == x;
    }
  }

  /** Every head followed by every tail, heads outermost (C order). */
  function Extend(heads: seq<nat>, tails: seq<seq<nat>>): seq<seq<nat>>
  {
    if heads == [] then []
    else seq(|tails|, i requires 0 <= i < |tails| => [heads[0]] + tails[i]) + Extend(heads[1..], tails)
  }

  lemma {:induction false} ExtendMembers(heads: seq<nat>, tails: seq<seq<nat>>, c: seq<nat>)
    ensures c in Extend(heads, tails) <==> |c| >= 1 && c[0] in heads && c[1..] in tails
  {
    if heads != [] {
      var first := seq(|tails|, i requires 0 <= i < |tails| => [heads[0]] + tails[i]);
      assert Extend(heads, tails) == first + Extend(heads[1..], tails);
      ExtendMembers(heads[1..], tails, c);
      assert heads == [heads[0]] + heads[1..];
      if c in first {
        var i :| 0 <= i < |first| && first[i] == c;
        assert c[1..] == tails[i];
      }
      if |c| >= 1 && c[0] == heads[0] && c[1..] in tails {
        var i :| 0 <= i < |tails| && tails[i] == c[1..];
        assert c == [heads[0]] + tails[i];
        assert first[i] == c;
      }
    }
  }

  /** The index grid of a score array whose axis k runs over domains[k], in C order. */
  function Grid(domains: seq<seq<nat>>): seq<seq<nat>>
    decreases |domains|
  {
    if domains == [] then [[]] else Extend(domains[0], Grid(domains[1..]))
  }

  /** A row is in the grid exactly when each entry is in its axis' domain. */
  lemma {:induction false} GridMembers(domains: seq<seq<nat>>, c: seq<nat>)
    ensures c in Grid(domains) <==> |c| == |domains| && forall k :: 0 <= k < |c| ==> c[k] in domains[k]
    decreases |domains|
  {
    if domains == [] {
      if c in Grid(domains) {
        assert c == [];
      }
    } else {
      ExtendMembers(domains[0], Grid(domains[1..]), c);
      if |c| >= 1 {
        GridMembers(domains[1..], c[1..]);
        if |c| == |domains| && forall k :: 0 <= k < |c| ==> c[k] in domains[k] {
          forall k | 0 <= k < |c[1..]|
            ensures c[1..][k] in domains[1..][k]
          {
            assert c[1..][k] == c[k + 1];
          }
        }
        if c[0] in domains[0] && c[1..] in Grid(domains[1..]) {
          forall k | 0 <= k < |c|
            ensures c[k] in domains[k]
          {
            if k > 0 {
              assert c[k] == c[1..][k - 1];
            }
          }
        }
      }
    }
  }

  /** The axes of the score array: segment matchlast runs over idxmap when the
      mask filtered it, every other prefix segment over all its configurations.
      Entries are original configuration numbers, so the remap of lines 394-395 is
      already applied. */
  function Domains(ctx: ChunkContext, samp: seq<nat>): (d: seq<seq<nat>>)
    requires ContextOk(ctx) && SampleOk(ctx, samp)
    ensures |d| == ctx.end
  {
    seq(ctx.end, k requires 0 <= k < ctx.end =>
      if FiltersPrefix(ctx) && k == ctx.matchlast.value then Where(Allowed(ctx, samp)) else Range(ctx.sizes[k]))
  }

  /** Each prefix configuration followed by the sample (ilow1 + sampidx). */
  function Attach(configs: seq<seq<nat>>, samp: seq<nat>): (r: seq<seq<nat>>)
    ensures |r| == |configs|
    ensures forall i :: 0 <= i < |r| ==> r[i] == configs[i] + samp
  {
    seq(|configs|, i requires 0 <= i < |configs| => configs[i] + samp)
  }

  /** np.where(score < thresh) over the rows, order kept. */
  function Below(rows: seq<seq<nat>>, thresh: int, scoreOf: seq<nat> -> int): (r: seq<seq<nat>>)
    ensures forall row :: row in r <==> row in rows && scoreOf(row) < thresh
  {
    if rows == [] then []
    else
      assert rows == [rows[0]] + rows[1..];
      (if scoreOf(rows[0]) < thresh then [rows[0]] else []) + Below(rows[1..], thresh, scoreOf)
  }

  /** Positions of every segment in one row (the loop of lines 388-390). */
  function RowPositions<P>(row: seq<nat>, segPos: (nat, seq<nat>) -> P): seq<P>
  {
    seq(|row|, k requires 0 <= k < |row| => segPos(k, row[..k + 1]))
  }

  /** The three arrays _grow_chunk returns, built from the chosen rows. */
  function HitBatch<P>(rows: seq<seq<nat>>, scoreOf: seq<nat> -> int, segPos: (nat, seq<nat>) -> P): (b: Batch<P>)
    ensures b.WellFormed() && b.lowidx == rows
    ensures forall i :: 0 <= i < |rows| ==> b.scores[i] == scoreOf(rows[i]) && b.lowpos[i] == RowPositions(rows[i], segPos)
  {
    Batch(seq(|rows|, i requires 0 <= i < |rows| => scoreOf(rows[i])),
          rows,
          seq(|rows|, i requires 0 <= i < |rows| => RowPositions(rows[i], segPos)))
  }

  // ---------------------------------------------------------------------
  // The per-chunk cap of lines 385-387

  /** The cap as intended: more than max_results hits keeps the max_results
      best, in ascending score order; otherwise the hits stay as found. */
  function Cap<P>(b: Batch<P>, maxResults: nat): Batch<P>
    requires b.WellFormed()
  {
    if b.Size() > maxResults then TopK(b, maxResults) else b
  }

  lemma CapIsTopK<P>(b: Batch<P>, maxResults: nat)
    requires b.WellFormed()
    ensures var r := Cap(b, maxResults);
      && r.WellFormed()
      && r.Size() == Min(maxResults, b.Size())
      && multiset(Rows(r)) <= multiset(Rows(b))
      && (forall x, d :: 0 <= x < r.Size() && d in multiset(Rows(b)) - multiset(Rows(r)) ==> r.scores[x] <= d.score)
  {
    TopKIsTopK(b, maxResults);
  }

  /** A row the cap drops leaves the batch full and scores no better than any row kept. */
  lemma CapKeepsBest<P>(b: Batch<P>, maxResults: nat, j: nat)
    requires b.WellFormed() && j < b.Size()
    ensures var r := Cap(b, maxResults);
      b.lowidx[j] !in r.lowidx ==> r.Size() == maxResults && forall i :: 0 <= i < r.Size() ==> r.scores[i] <= b.scores[j]
  {
    var r := Cap(b, maxResults);
    if b.lowidx[j] !in r.lowidx {
      CapIsTopK(b, maxResults);
      var d := Rows(b)[j];
      assert d in multiset(Rows(b));
      assert d !in Rows(r);
      assert d in multiset(Rows(b)) - multiset(Rows(r));
    }
  }

  datatype CapError = TupleIndexedByArray

  /** The cap as written: `len(ilow0)` is the number of prefix axes, not the
      number of hits, and `ilow0[order[:max_results]]` indexes a tuple with an
      array, which raises. */
  function CapAsWritten<P>(b: Batch<P>, ndim: nat, maxResults: nat): Result<Batch<P>, CapError>
  {
    if ndim > maxResults then Failure(TupleIndexedByArray) else Success(b)
  }

  /** As written, a chunk with two prefix axes and three hits keeps all three
      when max_results is 2, and one with no hits at all raises when
      max_results is 1; the intended cap keeps two rows and accepts the empty chunk. */
  lemma CapAsWrittenMisses()
    ensures var b := Batch([5, 3, 4], [[0, 0], [0, 1], [1, 0]], [[0], [1], [2]]);
      && CapAsWritten(b, 2, 2) == Success(b) && b.Size() > 2
      && Cap(b, 2).Size() == 2
    ensures var e: Batch<int> := Batch([], [], []);
      && CapAsWritten(e, 2, 1) == Failure(TupleIndexedByArray)
      && Cap(e, 1) == e
  {
    var b := Batch([5, 3, 4], [[0, 0], [0, 1], [1, 0]], [[0], [1], [2]]);
    CapIsTopK(b, 2);
  }

  // ---------------------------------------------------------------------
  // _grow_chunk
  /** The rows of one chunk that score below the threshold, before the cap. */
  function ChunkHits(ctx: ChunkContext, samp: seq<nat>, scoreOf: seq<nat> -> int): seq<seq<nat>>
    requires ContextOk(ctx) && SampleOk(ctx, samp)
  {
    Below(Attach(Grid(Domains(ctx, samp)), samp), ctx.thresh, scoreOf)
  }

  /** _grow_chunk (lines 339-394): None when matchlast is a suffix segment and
      the sample fails the body/site test; otherwise the capped hits. */
  function GrowChunk<P>(ctx: ChunkContext, samp: seq<nat>, scoreOf: seq<nat> -> int, segPos: (nat, seq<nat>) -> P): Option<Batch<P>>
    requires ContextOk(ctx) && SampleOk(ctx, samp)
  {
    if ChecksSample(ctx) && !SampleMatches(ctx, samp) then None
    else Some(Cap(HitBatch(ChunkHits(ctx, samp, scoreOf), scoreOf, segPos), ctx.maxResults))
  }

  /** A row a chunk for `samp` may report: every entry in range, the sample as
      its suffix, a score below the threshold, and, when matchlast is a prefix
      segment, a configuration of it compatible with the last segment. */
  predicate Qualifies(ctx: ChunkContext, samp: seq<nat>, scoreOf: seq<nat> -> int, row: seq<nat>)
    requires ContextOk(ctx)
  {
    && SampleOk(ctx, samp)
    && InBounds(row, ctx.sizes)
    && row[ctx.end..] == samp
    && scoreOf(row) < ctx.thresh
    && (FiltersPrefix(ctx) ==> Compatible(ctx, samp, ctx.matchlast.value, row[ctx.matchlast.value]))
  }

  /** A prefix configuration on the (possibly filtered) grid. */
  predicate PrefixOk(ctx: ChunkContext, samp: seq<nat>, c: seq<nat>)
    requires ContextOk(ctx) && SampleOk(ctx, samp)
  {
    && |c| == ctx.end
    && (forall k :: 0 <= k < ctx.end ==> c[k] < ctx.sizes[k])
    && (FiltersPrefix(ctx) ==> Compatible(ctx, samp, ctx.matchlast.value, c[ctx.matchlast.value]))
  }

  /** The grid of the score array holds exactly the prefix configurations in
      range whose matchlast entry, when filtered, passes the mask. */
  lemma DomainsMembers(ctx: ChunkContext, samp: seq<nat>, c: seq<nat>)
    requires ContextOk(ctx) && SampleOk(ctx, samp)
    ensures c in Grid(Domains(ctx, samp)) <==> PrefixOk(ctx, samp, c)
  {
    var d := Domains(ctx, samp);
    GridMembers(d, c);
    if |c| == ctx.end {
      forall k | 0 <= k < ctx.end
        ensures c[k] in d[k] <==> c[k] < ctx.sizes[k] && (FiltersPrefix(ctx) && k == ctx.matchlast.value ==> Compatible(ctx, samp, k, c[k]))
      {
        if FiltersPrefix(ctx) && k == ctx.matchlast.value {
          var mask := Allowed(ctx, samp);
        } else {
          RangeMembers(ctx.sizes[k], c[k]);
        }
      }
    }
  }

  lemma AttachMembers(configs: seq<seq<nat>>, samp: seq<nat>, n: nat, row: seq<nat>)
    requires forall c :: c in configs ==> |c| == n
    ensures row in Attach(configs, samp) <==> |row| == n + |samp| && row[..n] in configs && row[n..] == samp
  {
    var attached := Attach(configs, samp);
    if row in attached {
      var i :| 0 <= i < |attached| && attached[i] == row;
      assert row[..n] == configs[i] && row[n..] == samp;
    }
    if |row| == n + |samp| && row[..n] in configs && row[n..] == samp {
      var i :| 0 <= i < |configs| && configs[i] == row[..n];
      assert row == configs[i] + samp;
      assert attached[i] == row;
    }
  }

  lemma QualifiesByPrefix(ctx: ChunkContext, samp: seq<nat>, scoreOf: seq<nat> -> int, row: seq<nat>)
    requires ContextOk(ctx) && SampleOk(ctx, samp)
    requires |row| == |ctx.sizes| && row[ctx.end..] == samp
    ensures Qualifies(ctx, samp, scoreOf, row) <==> PrefixOk(ctx, samp, row[..ctx.end]) && scoreOf(row) < ctx.thresh
  {
    var e := ctx.end;
    assert forall k :: 0 <= k < e ==> row[..e][k] == row[k];
    assert forall k :: e <= k < |row| ==> row[k] == samp[k - e];
  }

  /** The hits before the cap are exactly the qualifying rows. */
  lemma HitsAreQualifying(ctx: ChunkContext, samp: seq<nat>, scoreOf: seq<nat> -> int, row: seq<nat>)
    requires ContextOk(ctx) && SampleOk(ctx, samp)
    ensures row in ChunkHits(ctx, samp, scoreOf) <==> Qualifies(ctx, samp, scoreOf, row)
  {
    var configs := Grid(Domains(ctx, samp));
    forall c | c in configs
      ensures |c| == ctx.end
    {
      DomainsMembers(ctx, samp, c);
    }
    AttachMembers(configs, samp, ctx.end, row);
    if |row| == |ctx.sizes| && row[ctx.end..] == samp {
      DomainsMembers(ctx, samp, row[..ctx.end]);
      QualifiesByPrefix(ctx, samp, scoreOf, row);
    }
  }

  /** Every row a chunk reports qualifies for its sample and carries its own
      score and positions; there are at most max_results of them. */
  lemma GrowChunkSound<P>(ctx: ChunkContext, samp: seq<nat>, scoreOf: seq<nat> -> int, segPos: (nat, seq<nat>) -> P)
    requires ContextOk(ctx) && SampleOk(ctx, samp)
    ensures var r := GrowChunk(ctx, samp, scoreOf, segPos);
      r.Some? ==>
        && r.value.WellFormed()
        && r.value.Size() <= ctx.maxResults
        && forall i :: 0 <= i < r.value.Size() ==>
             && Qualifies(ctx, samp, scoreOf, r.value.lowidx[i])
             && r.value.scores[i] == scoreOf(r.value.lowidx[i])
             && r.value.lowpos[i] == RowPositions(r.value.lowidx[i], segPos)
  {
    var r := GrowChunk(ctx, samp, scoreOf, segPos);
    if r.Some? {
      var hits := ChunkHits(ctx, samp, scoreOf);
      var b := HitBatch(hits, scoreOf, segPos);
      var kept := r.value;
      CapIsTopK(b, ctx.maxResults);
      forall i | 0 <= i < kept.Size()
        ensures Qualifies(ctx, samp, scoreOf, kept.lowidx[i])
        ensures kept.scores[i] == scoreOf(kept.lowidx[i]) && kept.lowpos[i] == RowPositions(kept.lowidx[i], segPos)
      {
        var x := Rows(kept)[i];
        assert x in multiset(Rows(kept));
        assert x in Rows(b);
        var j :| 0 <= j < |Rows(b)| && Rows(b)[j] == x;
        HitsAreQualifying(ctx, samp, scoreOf, hits[j]);
      }
    }
  }

  /** A qualifying row is left out of a chunk only when the chunk is full and
      the row scores no better than every row kept. */
  lemma GrowChunkComplete<P>(ctx: ChunkContext, samp: seq<nat>, scoreOf: seq<nat> -> int, segPos: (nat, seq<nat>) -> P, row: seq<nat>)
    requires ContextOk(ctx) && SampleOk(ctx, samp)
    requires Qualifies(ctx, samp, scoreOf, row)
    ensures var r := GrowChunk(ctx, samp, scoreOf, segPos);
      r.Some? && row !in r.value.lowidx ==>
        r.value.Size() == ctx.maxResults && forall i :: 0 <= i < r.value.Size() ==> r.value.scores[i] <= scoreOf(row)
  {
    var r := GrowChunk(ctx, samp, scoreOf, segPos);
    if r.Some? && row !in r.value.lowidx {
      var hits := ChunkHits(ctx, samp, scoreOf);
      HitsAreQualifying(ctx, samp, scoreOf, row);
      var j :| 0 <= j < |hits| && hits[j] == row;
      CapKeepsBest(HitBatch(hits, scoreOf, segPos), ctx.maxResults, j);
    }
  }

  /** The chunk is None exactly when matchlast is a suffix segment whose
      configuration in the sample fails the body/site test. */
  lemma GrowChunkNone<P>(ctx: ChunkContext, samp: seq<nat>, scoreOf: seq<nat> -> int, segPos: (nat, seq<nat>) -> P)
    requires ContextOk(ctx) && SampleOk(ctx, samp)
    ensures GrowChunk(ctx, samp, scoreOf, segPos).None? <==> ChecksSample(ctx) && !SampleMatches(ctx, samp)
  {
  }

  /** When matchlast is the last segment itself, its entry site always equals
      site3, so every chunk is None. */
  lemma MatchlastLastMatchesNothing<P>(ctx: ChunkContext, samp: seq<nat>, scoreOf: seq<nat> -> int, segPos: (nat, seq<nat>) -> P)
    requires ContextOk(ctx) && SampleOk(ctx, samp) && ctx.matchlast == Some(|ctx.sizes| - 1)
    ensures GrowChunk(ctx, samp, scoreOf, segPos).None?
  {
    var last := |ctx.sizes| - 1;
    assert ChecksSample(ctx);
    assert samp[last - ctx.end] == samp[|samp| - 1];
    assert ctx.tables[last].entrysite[samp[|samp| - 1]] == LastSite(ctx, samp);
    assert !SampleMatches(ctx, samp);
    GrowChunkNone(ctx, samp, scoreOf, segPos);
  }

  // ---------------------------------------------------------------------
  // Euclidean remainders, for the strided slices

  lemma MulAtLeast(a: int, n: nat)
    requires a >= 1
    ensures a * n >= n
    decreases a
  {
    if a > 1 {
      MulAtLeast(a - 1, n);
      assert a * n == (a - 1) * n + n;
    }
  }

  /** Division by n is unique: a quotient and a remainder in [0, n) are the ones. */
  lemma ModUnique(a: int, n: nat, q: int, r: int)
    requires n >= 1 && 0 <= r < n && a == q * n + r
    ensures a % n == r
  {
    var q0 := a / n;
    var r0 := a % n;
    assert a == q0 * n + r0;
    assert (q0 - q) * n == r - r0;
    if q0 - q >= 1 {
      MulAtLeast(q0 - q, n);
    } else if q - q0 >= 1 {
      MulAtLeast(q - q0, n);
    }
  }

  lemma ModShift(a: int, n: nat)
    requires n >= 1
    ensures (a + n) % n == a % n
  {
    assert a == (a / n) * n + a % n;
    assert a + n == (a / n + 1) * n + a % n;
    ModUnique(a + n, n, a / n + 1, a % n);
  }

  /** One step back keeps the remainder. */
  lemma StrideBack(d: int, n: nat)
    requires n >= 1
    ensures (d - n) % n == d % n
  {
    ModShift(d - n, n);
  }

  // ---------------------------------------------------------------------
  // _grow_chunks

  /** samples[ijob::step] over range(total). */
  function StridedSlice(start: nat, step: nat, total: nat): (r: seq<nat>)
    requires step >= 1
    ensures forall a :: 0 <= a < |r| ==> start <= r[a] < total
    ensures forall a, b :: 0 <= a < b < |r| ==> r[a] < r[b]
    decreases total - start
  {
    if start >= total then [] else [start] + StridedSlice(start + step, step, total)
  }

  /** The slice holds exactly the numbers from start below total that are a
      whole number of steps past start. */
  lemma {:induction false} StridedSliceMembers(start: nat, step: nat, total: nat, x: int)
    requires step >= 1
    ensures x in StridedSlice(start, step, total) <==> start <= x < total && (x - start) % step == 0
    decreases total - start
  {
    if start < total {
      assert StridedSlice(start, step, total) == [start] + StridedSlice(start + step, step, total);
      StridedSliceMembers(start + step, step, total, x);
      if x >= start + step {
        StrideBack(x - start, step);
      } else if start < x {
        ModUnique(x - start, step, 0, x - start);
      } else if x == start {
        ModUnique(0, step, 0, 0);
      }
    }
  }

  /** Distinct jobs below the step get disjoint samples. */
  lemma JobsDisjoint(i: nat, j: nat, step: nat, total: nat, x: int)
    requires 1 <= step && i < step && j < step && i != j
    ensures !(x in StridedSlice(i, step, total) && x in StridedSlice(j, step, total))
  {
    JobOfSample(i, step, total, x);
    JobOfSample(j, step, total, x);
  }

  /** With no thinning (every_other == 1) the njob jobs together cover every
      sample: sample x goes to job x % njob. */
  lemma JobsCover(njob: nat, total: nat, x: nat)
    requires njob >= 1 && x < total
    ensures x in StridedSlice(x % njob, njob * 1, total)
  {
    StridedSliceMembers(x % njob, njob, total, x);
    assert x - x % njob == (x / njob) * njob + 0;
    ModUnique(x - x % njob, njob, x / njob, 0);
  }

  /** Job ijob of the slice [ijob::step] gets exactly the sample numbers below
      total whose remainder modulo step is ijob.  With step = njob *
      every_other and ijob < njob, a number whose remainder is njob or more
      belongs to no job. */
  lemma JobOfSample(ijob: nat, step: nat, total: nat, x: int)
    requires ijob < step
    ensures x in StridedSlice(ijob, step, total) <==> 0 <= x < total && x % step == ijob
  {
    StridedSliceMembers(ijob, step, total, x);
    if x in StridedSlice(ijob, step, total) {
      var q := (x - ijob) / step;
      assert x - ijob == q * step + (x - ijob) % step;
      ModUnique(x, step, q, ijob);
    }
    if 0 <= x < total && x % step == ijob {
      var q := x / step;
      assert x == q * step + ijob;
      if q < 0 {
        MulAtLeast(-q, step);
      }
      ModUnique(x - ijob, step, q, 0);
    }
  }

  /** Every sample number of the suffix decodes to a valid sample. */
  predicate DecodeOk(ctx: ChunkContext, decode: nat -> seq<nat>)
    requires ContextOk(ctx)
  {
    forall n: nat :: n < Prod(ctx.sizes[ctx.end..]) ==> SampleOk(ctx, decode(n))
  }

  /** The samples of job ijob, decoded. */
  function JobSamples(ctx: ChunkContext, ijob: nat, njob: nat, everyOther: nat, decode: nat -> seq<nat>): (s: seq<seq<nat>>)
    requires ContextOk(ctx) && DecodeOk(ctx, decode) && njob * everyOther >= 1
    ensures forall i :: 0 <= i < |s| ==> SampleOk(ctx, s[i])
  {
    var ns := StridedSlice(ijob, njob * everyOther, Prod(ctx.sizes[ctx.end..]));
    seq(|ns|, i requires 0 <= i < |ns| => decode(ns[i]))
  }

  /** One chunk per sample, in sample order. */
  function ChunksOf<P>(ctx: ChunkContext, samples: seq<seq<nat>>, scoreOf: seq<nat> -> int, segPos: (nat, seq<nat>) -> P): (chunks: seq<Option<Batch<P>>>)
    requires ContextOk(ctx) && forall i :: 0 <= i < |samples| ==> SampleOk(ctx, samples[i])
    ensures |chunks| == |samples|
  {
    seq(|samples|, i requires 0 <= i < |samples| => GrowChunk(ctx, samples[i], scoreOf, segPos))
  }

  /** The chunks that were not None, in sample order. */
  function Present<P>(chunks: seq<Option<Batch<P>>>): (r: seq<Batch<P>>)
    ensures |r| == 0 <==> forall i :: 0 <= i < |chunks| ==> chunks[i].None?
    ensures forall k :: 0 <= k < |r| ==> Some(r[k]) in chunks
    ensures forall i :: 0 <= i < |chunks| && chunks[i].Some? ==> chunks[i].value in r
  {
    if chunks == [] then []
    else
      assert chunks == [chunks[0]] + chunks[1..];
      assert forall i :: 1 <= i < |chunks| ==> chunks[i] == chunks[1..][i - 1];
      (if chunks[0].Some? then [chunks[0].value] else []) + Present(chunks[1..])
  }

  /** A reported row: a qualifying row for one of the samples, with its own score. */
  predicate ReportedRow<P>(ctx: ChunkContext, samples: seq<seq<nat>>, scoreOf: seq<nat> -> int, x: Row<P>)
    requires ContextOk(ctx)
  {
    && |x.idx| == |ctx.sizes|
    && x.idx[ctx.end..] in samples
    && x.score == scoreOf(x.idx)
    && Qualifies(ctx, x.idx[ctx.end..], scoreOf, x.idx)
  }

  predicate AllReported<P>(ctx: ChunkContext, samples: seq<seq<nat>>, scoreOf: seq<nat> -> int, b: Batch<P>)
    requires ContextOk(ctx)
  {
    b.WellFormed() && forall j :: 0 <= j < b.Size() ==> ReportedRow(ctx, samples, scoreOf, Rows(b)[j])
  }

  /** Every chunk that is not None reports only rows of its own sample. */
  predicate ChunksReported<P>(ctx: ChunkContext, samples: seq<seq<nat>>, scoreOf: seq<nat> -> int, chunks: seq<Option<Batch<P>>>)
    requires ContextOk(ctx)
  {
    forall i :: 0 <= i < |chunks| && chunks[i].Some? ==> AllReported(ctx, samples, scoreOf, chunks[i].value)
  }

  lemma ChunksOfReported<P>(ctx: ChunkContext, samples: seq<seq<nat>>, scoreOf: seq<nat> -> int, segPos: (nat, seq<nat>) -> P)
    requires ContextOk(ctx) && forall i :: 0 <= i < |samples| ==> SampleOk(ctx, samples[i])
    ensures ChunksReported(ctx, samples, scoreOf, ChunksOf(ctx, samples, scoreOf, segPos))
  {
    var chunks := ChunksOf(ctx, samples, scoreOf, segPos);
    forall i | 0 <= i < |chunks| && chunks[i].Some?
      ensures AllReported(ctx, samples, scoreOf, chunks[i].value)
    {
      assert chunks[i] == GrowChunk(ctx, samples[i], scoreOf, segPos);
      GrowChunkSound(ctx, samples[i], scoreOf, segPos);
    }
  }

  lemma PresentReported<P>(ctx: ChunkContext, samples: seq<seq<nat>>, scoreOf: seq<nat> -> int, chunks: seq<Option<Batch<P>>>)
    requires ContextOk(ctx) && ChunksReported(ctx, samples, scoreOf, chunks)
    ensures forall k :: 0 <= k < |Present(chunks)| ==> AllReported(ctx, samples, scoreOf, Present(chunks)[k])
  {
    var found := Present(chunks);
    forall k | 0 <= k < |found|
      ensures AllReported(ctx, samples, scoreOf, found[k])
    {
      var s :| 0 <= s < |chunks| && chunks[s] == Some(found[k]);
    }
  }

  /** np.concatenate keeps every row of every part, and only those. */
  lemma {:induction false} ConcatReported<P>(ctx: ChunkContext, samples: seq<seq<nat>>, scoreOf: seq<nat> -> int, bs: seq<Batch<P>>)
    requires ContextOk(ctx) && forall k :: 0 <= k < |bs| ==> AllReported(ctx, samples, scoreOf, bs[k])
    ensures AllWellFormed(bs) && AllReported(ctx, samples, scoreOf, Concat(bs))
  {
    if bs != [] {
      var init := bs[..|bs| - 1];
      var last := bs[|bs| - 1];
      ConcatReported(ctx, samples, scoreOf, init);
      var all := Concat(bs);
      assert Rows(all) == Rows(Concat(init)) + Rows(last);
      forall j | 0 <= j < all.Size()
        ensures ReportedRow(ctx, samples, scoreOf, Rows(all)[j])
      {
        if j >= Concat(init).Size() {
          assert Rows(all)[j] == Rows(last)[j - Concat(init).Size()];
        } else {
          assert Rows(all)[j] == Rows(Concat(init))[j];
        }
      }
    }
  }

  /** The top-k step keeps only rows of its input. */
  lemma TopKReported<P>(ctx: ChunkContext, samples: seq<seq<nat>>, scoreOf: seq<nat> -> int, b: Batch<P>, k: nat)
    requires ContextOk(ctx) && AllReported(ctx, samples, scoreOf, b)
    ensures AllReported(ctx, samples, scoreOf, TopK(b, k))
  {
    var kept := TopK(b, k);
    TopKIsTopK(b, k);
    forall i | 0 <= i < kept.Size()
      ensures ReportedRow(ctx, samples, scoreOf, Rows(kept)[i])
    {
      var x := Rows(kept)[i];
      assert x in multiset(Rows(kept));
      assert x in Rows(b);
    }
  }

  /** Lines 406-417: one chunk per sample, the None chunks dropped, the rest
      concatenated and cut to the max_results best. */
  function BestOfChunks<P>(ctx: ChunkContext, samples: seq<seq<nat>>, scoreOf: seq<nat> -> int, segPos: (nat, seq<nat>) -> P): Option<Batch<P>>
    requires ContextOk(ctx) && forall i :: 0 <= i < |samples| ==> SampleOk(ctx, samples[i])
  {
    var found := Present(ChunksOf(ctx, samples, scoreOf, segPos));
    if found == [] then None
    else
      FoundReported(ctx, samples, scoreOf, segPos);
      Some(TopK(Concat(found), ctx.maxResults))
  }

  lemma FoundReported<P>(ctx: ChunkContext, samples: seq<seq<nat>>, scoreOf: seq<nat> -> int, segPos: (nat, seq<nat>) -> P)
    requires ContextOk(ctx) && forall i :: 0 <= i < |samples| ==> SampleOk(ctx, samples[i])
    ensures var found := Present(ChunksOf(ctx, samples, scoreOf, segPos));
      AllWellFormed(found) && AllReported(ctx, samples, scoreOf, Concat(found))
  {
    var chunks := ChunksOf(ctx, samples, scoreOf, segPos);
    ChunksOfReported(ctx, samples, scoreOf, segPos);
    PresentReported(ctx, samples, scoreOf, chunks);
    ConcatReported(ctx, samples, scoreOf, Present(chunks));
  }

  /** _grow_chunks (lines 399-417) for job ijob. */
  function GrowChunks<P>(ctx: ChunkContext, ijob: nat, njob: nat, everyOther: nat, decode: nat -> seq<nat>,
                         scoreOf: seq<nat> -> int, segPos: (nat, seq<nat>) -> P): Option<Batch<P>>
    requires ContextOk(ctx) && DecodeOk(ctx, decode) && njob * everyOther >= 1
  {
    BestOfChunks(ctx, JobSamples(ctx, ijob, njob, everyOther, decode), scoreOf, segPos)
  }

  /** The result is None exactly when every chunk is None. */
  lemma BestOfChunksNone<P>(ctx: ChunkContext, samples: seq<seq<nat>>, scoreOf: seq<nat> -> int, segPos: (nat, seq<nat>) -> P)
    requires ContextOk(ctx) && forall i :: 0 <= i < |samples| ==> SampleOk(ctx, samples[i])
    ensures BestOfChunks(ctx, samples, scoreOf, segPos).None? <==>
        forall i :: 0 <= i < |samples| ==> GrowChunk(ctx, samples[i], scoreOf, segPos).None?
  {
    var chunks := ChunksOf(ctx, samples, scoreOf, segPos);
    assert forall i :: 0 <= i < |chunks| ==> chunks[i] == GrowChunk(ctx, samples[i], scoreOf, segPos);
  }

  /** When some chunk is not None: min(max_results, rows found) rows in
      ascending score order, each a qualifying row of one of the samples with
      its own score; no row found but dropped scores below a row kept. */
  lemma BestOfChunksBest<P>(ctx: ChunkContext, samples: seq<seq<nat>>, scoreOf: seq<nat> -> int, segPos: (nat, seq<nat>) -> P)
    requires ContextOk(ctx) && forall i :: 0 <= i < |samples| ==> SampleOk(ctx, samples[i])
    ensures var found := Present(ChunksOf(ctx, samples, scoreOf, segPos));
      var r := BestOfChunks(ctx, samples, scoreOf, segPos);
      r.Some? ==>
        && AllWellFormed(found)
        && r.value.Size() == Min(ctx.maxResults, Concat(found).Size())
        && r.value.Size() == Min(ctx.maxResults, TotalRows(found))
        && Sorted(r.value.scores)
        && AllReported(ctx, samples, scoreOf, r.value)
        && (forall x, d :: 0 <= x < r.value.Size() && d in multiset(Rows(Concat(found))) - multiset(Rows(r.value))
              ==> r.value.scores[x] <= d.score)
  {
    var found := Present(ChunksOf(ctx, samples, scoreOf, segPos));
    if found != [] {
      FoundReported(ctx, samples, scoreOf, segPos);
      TopKIsTopK(Concat(found), ctx.maxResults);
      TopKReported(ctx, samples, scoreOf, Concat(found), ctx.maxResults);
      ConcatSize(found);
    }
  }

  /** The rows of a chunk that is not None are among the rows the job concatenates. */
  lemma ChunkRowsFound<P>(ctx: ChunkContext, samples: seq<seq<nat>>, scoreOf: seq<nat> -> int, segPos: (nat, seq<nat>) -> P, i: nat)
    requires ContextOk(ctx) && forall j :: 0 <= j < |samples| ==> SampleOk(ctx, samples[j])
    requires i < |samples|
    ensures var c := GrowChunk(ctx, samples[i], scoreOf, segPos);
      var found := Present(ChunksOf(ctx, samples, scoreOf, segPos));
      c.Some? ==>
        && found != []
        && AllWellFormed(found)
        && multiset(Rows(c.value)) <= multiset(Rows(Concat(found)))
  {
    var chunks := ChunksOf(ctx, samples, scoreOf, segPos);
    var c := GrowChunk(ctx, samples[i], scoreOf, segPos);
    if c.Some? {
      assert chunks[i] == c;
      var found := Present(chunks);
      var k :| 0 <= k < |found| && found[k] == c.value;
      FoundReported(ctx, samples, scoreOf, segPos);
      ConcatContains(found, k);
    }
  }

  /** No qualifying row is lost unless the job is full of rows at least as
      good: when the chunk of sample i is not None, the job's result is not
      None, and a qualifying row of that sample that the result does not hold
      leaves max_results rows, each scoring at most the row's score. */
  lemma BestOfChunksComplete<P>(ctx: ChunkContext, samples: seq<seq<nat>>, scoreOf: seq<nat> -> int, segPos: (nat, seq<nat>) -> P,
                                i: nat, row: seq<nat>)
    requires ContextOk(ctx) && forall j :: 0 <= j < |samples| ==> SampleOk(ctx, samples[j])
    requires i < |samples| && Qualifies(ctx, samples[i], scoreOf, row)
    ensures var r := BestOfChunks(ctx, samples, scoreOf, segPos);
      GrowChunk(ctx, samples[i], scoreOf, segPos).Some? ==>
        && r.Some?
        && (row !in r.value.lowidx ==>
              && r.value.Size() == ctx.maxResults
              && forall y :: 0 <= y < r.value.Size() ==> r.value.scores[y] <= scoreOf(row))
  {
    var c := GrowChunk(ctx, samples[i], scoreOf, segPos);
    if c.Some? {
      var found := Present(ChunksOf(ctx, samples, scoreOf, segPos));
      ChunkRowsFound(ctx, samples, scoreOf, segPos, i);
      GrowChunkSound(ctx, samples[i], scoreOf, segPos);
      GrowChunkComplete(ctx, samples[i], scoreOf, segPos, row);
      TopKKeepsRow(Concat(found), c.value, ctx.maxResults, row, scoreOf(row));
    }
  }
}
