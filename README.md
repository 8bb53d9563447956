# A verified model of the search core of worms

`worms/search.py` grows "worms": chains of protein segments spliced end to
end, one configuration per segment, searched exhaustively over the grid of
all configurations.  The search is split into a prefix of segments that one
job enumerates in full (a *chunk*, scored as one array) and a suffix whose
configurations (*samples*) are dealt out to jobs.  Each job keeps its best
rows; a reducer collects the jobs' results as they finish.

This project models that core in Dafny and proves what it computes:

- `SimpleAccumulation` — `SimpleAccumulator`, the bounded top-k reducer.
  After any stream of job results, in any completion order, `final_result`
  holds `min(max_results, rows fed)` rows, sorted by score, drawn from the
  rows fed, and no row it kept scores above a row it dropped.
- `IndexAccumulation` — `IndexAccumulator`, the first phase of a two-phase
  search.  It builds a dictionary from the transform bin of each passing
  sample to its index row.  The collision policy is proved: a key already in
  the index keeps its row, and within one checkpoint the last passing row
  with a key wins.  An out-of-range index row raises the assertion of line 70.
- `IndexedSearch` — `IndexedCriteria.score` and `IndexedAccumulator`, the
  second phase.  A sample scores 0 exactly when its probe key is in the index.
  The accumulator splices each tail index row with the head row found in the
  index, around the join produced by the splitting segment.
- `Planning` — `_get_chunk_end_seg` and the job plan `grow` computes:
  where the chain is split, the sample stride, the number of jobs, and the
  two ways planning fails.
- `Topology` — `_check_topology`: which chains are accepted, in the
  order the checks run, and what `expert=True` does and does not lift.
- `Chunks` — `_grow_chunk` and `_grow_chunks`.  The rows one chunk reports
  are exactly the rows for its sample that score below the threshold and
  pass the matchlast filter, capped to the best `max_results`.  Job `ijob`
  takes exactly the samples x with x mod (njob * every_other) == ijob, so
  no two jobs share a sample.  With every_other 1 the jobs cover every
  sample; with a larger stride, the samples whose remainder is njob or more
  go to no job.  A job's result is the best `max_results` of its chunks'
  rows: a qualifying row of one of its samples that the job does not return
  leaves it full of rows scoring at most that row.
- `Batches` and `Common` — the shared vocabulary.  This covers a result batch
  as three aligned arrays (scores, index rows, positions), `np.concatenate`,
  `np.argsort` and the top-k selection built on it, `np.clip`,
  `util.bigprod`, and Python list indexing with negative indices.

The stateful classes (`SimpleAccumulator`, `IndexAccumulator`,
`IndexedAccumulator`) are Dafny classes with the source's fields.  Each
method's postcondition ties the new state to a pure transition function of
the old state (`State() == CheckpointState(old(State()), maxResults)`), and
the lemmas state what those functions compute.  Loops in the source
(`accumulate`, `_get_chunk_end_seg`, the checks of `_check_topology`, the
lookups and joins of `IndexedAccumulator.checkpoint`) are methods with loop
invariants.

Everything geometric is a parameter of the model:

- `scoreOf`: `criteria.score` read at one full index row.
- `segPos(k, row[..k+1])`: the position of segment k, which depends only on
  the choices of segments 0..k, as the chained transforms do.
- `binKey`: the transform bin an `IndexAccumulator` stores a sample under.
- `probeKey`: the transform bin an indexed search probes.
- `merge`: `splitseg.merge_idx`.
- `sameBodies`: `Segment.same_bodies_as`.
- `decode`: `util.MultiRange`.
- `rawJobs`: the square-root job count of line 245.

Positions are an opaque type `P` and bin keys an opaque type `K`.  Scores are
integers; the miss score 9e9 is the integer 9000000000.

## Model

| member | source | states |
|---|---|---|
| Common.Clip | worms/search.py:242-246 | np.clip: the input when it lies between the bounds, the lower bound below them, the upper bound above them or when the bounds are crossed |
| Common.Prod | worms/search.py:239-240 | util.bigprod; Common.ProdSplit states how the product factors at a split point |
| Common.ProdSplit | worms/search.py:239-240 | the total size of the chain is the product of the prefix size and the suffix size, at any split point |
| Common.PyIndex | worms/search.py:440 | a Python list index denotes a position exactly when it lies in [-n, n), and then it is the index itself or n plus it; otherwise IndexError |
| Batches.Append | worms/search.py:27-29 | concatenating the three aligned arrays of two batches concatenates their rows, in order |
| Batches.Concat | worms/search.py:27-29 | np.concatenate of a list of batches: empty for no batches, and each batch's rows after those of the ones before (Batches.Append); Batches.ConcatSize and Batches.ConcatContains state its size and contents |
| Batches.ConcatSize | worms/search.py:27-29 | concatenating a list of batches keeps every row: the size is the sum of the parts |
| Batches.ConcatContains | worms/search.py:27-29 | every row of every batch in the list is a row of the concatenation, counted with multiplicity |
| Batches.ArgSort | worms/search.py:30 | np.argsort of the scores; Batches.ArgSortIsArgSort states what it returns |
| Batches.ArgSortIsArgSort | worms/search.py:30 | the argsort is a permutation of the positions that reads the scores in non-decreasing order |
| Batches.TopK | worms/search.py:30-33 | arr[order[:k]] for each array of a batch; Batches.TopKIsTopK states what it keeps |
| Batches.TopKIsTopK | worms/search.py:30-33 | keeping arr[order[:k]] gives min(k, n) rows, sorted, a sub-multiset of the rows, and no kept row scores above a dropped one |
| Batches.TopKDropped | worms/search.py:30-33 | a row the top-k drops leaves exactly k rows, all scoring at most the dropped row |
| Batches.TopKFullBelow | worms/search.py:30-33 | when the batch holds at least k rows scoring at most s, the top-k is full and all its rows score at most s |
| Batches.TopKKeepsRow | worms/search.py:30-33 | a row of a part of the batch that the top-k of the whole does not keep leaves k rows scoring at most that row |
| SimpleAccumulation.CheckpointState | worms/search.py:21-34 | an empty buffer changes nothing; otherwise the buffer is emptied and a stored result exists, sorted and within max_results |
| SimpleAccumulation.StepState | worms/search.py:37-42 | one finished job keeps the stored result sorted and capped, and keeps the buffer below max_tmp_size |
| SimpleAccumulation.AccumulateState | worms/search.py:36-43 | a whole stream keeps the stored result sorted and capped, and keeps the buffer below max_tmp_size |
| SimpleAccumulation.AccumulateSnoc | worms/search.py:37-42 | consuming one more job of the stream is one more step of the loop |
| SimpleAccumulation.FinalNoneIff | worms/search.py:45-50 | final_result is None exactly when nothing was stored or buffered before and every job returned None |
| SimpleAccumulation.CheckpointJudged | worms/search.py:21-34 | a checkpoint keeps the history invariant: stored rows come from the rows fed and beat every row dropped so far, and the stored result is full once anything was dropped |
| SimpleAccumulation.StepJudged | worms/search.py:37-42 | one step keeps the history invariant with the job's rows added to the rows fed |
| SimpleAccumulation.AccumulateJudged | worms/search.py:36-43 | a whole stream keeps the history invariant over every row it fed |
| SimpleAccumulation.FinalIsTopK | worms/search.py:14-50 | after any stream, final_result holds min(max_results, rows fed) rows, sorted, drawn from the rows fed, each scoring at most every row left out |
| SimpleAccumulation.JudgedResult | worms/search.py:45-50 | a stored result under the history invariant holds min(max_results, rows fed) rows, drawn from the rows fed, each scoring at most every row left out |
| SimpleAccumulation.SimpleAccumulator.constructor | worms/search.py:16-19 | a new reducer has an empty buffer, no stored result, and the given caps |
| SimpleAccumulation.SimpleAccumulator.Checkpoint | worms/search.py:21-34 | the fields afterwards are the checkpoint of the fields before |
| SimpleAccumulation.SimpleAccumulator.Accumulate | worms/search.py:36-43 | the fields afterwards are the fold of the loop over the stream |
| SimpleAccumulation.SimpleAccumulator.FinalResult | worms/search.py:45-50 | checkpoints, then returns the stored result, or None if there is none |
| IndexAccumulation.CheckpointIndex | worms/search.py:66-78 | an empty buffer changes nothing; a checkpoint that does not raise empties the buffer |
| IndexAccumulation.StepIndex | worms/search.py:80-87 | nothing runs after a raise; otherwise the buffer stays below max_tmp_size |
| IndexAccumulation.AccumulateIndex | worms/search.py:80-87 | a stream that does not raise leaves the buffer below max_tmp_size |
| IndexAccumulation.BatchIndexLastWins | worms/search.py:76 | the dict of one checkpoint has a key exactly when a row passing the threshold has that key, and it holds the index row of the last such row |
| IndexAccumulation.BatchIndex | worms/search.py:76 | the dict of one checkpoint; IndexAccumulation.BatchIndexLastWins states its keys and values |
| IndexAccumulation.BatchIndexValues | worms/search.py:69-76 | when every passing row is in range, every value of the checkpoint's dict is in range |
| IndexAccumulation.CheckpointIndexSpec | worms/search.py:66-78 | the checkpoint raises exactly when a passing row is out of range; otherwise the keys are the old keys plus the passing rows' keys, an old key keeps its row, and a new key holds its last passing row |
| IndexAccumulation.CheckpointIndexInBounds | worms/search.py:70-76 | a checkpoint that does not raise keeps every index value within the segment sizes |
| IndexAccumulation.AccumulateIndexKeeps | worms/search.py:76-87 | over any stream, every key already in the index keeps its row, and every value stays within the segment sizes |
| IndexAccumulation.RaisedStops | worms/search.py:80-87 | once the assertion has raised, the rest of the stream is not consumed |
| IndexAccumulation.AccumulateIndexSnoc | worms/search.py:80-87 | consuming one more job of the stream is one more step of the loop, unless the loop has already raised |
| IndexAccumulation.IndexAccumulator.constructor | worms/search.py:55-64 | a new accumulator has an empty buffer and an empty index |
| IndexAccumulation.IndexAccumulator.Checkpoint | worms/search.py:66-78 | raises exactly when the checkpoint of the fields fails, leaving them unchanged; otherwise the fields become that checkpoint |
| IndexAccumulation.IndexAccumulator.Accumulate | worms/search.py:80-87 | the fields and the raise afterwards are the fold of the loop over the stream |
| IndexAccumulation.IndexAccumulator.Feed | worms/search.py:81-87 | one iteration of the loop body: the fields and the raise afterwards are one step of the fold |
| IndexAccumulation.IndexAccumulator.FinalResult | worms/search.py:89-91 | checkpoints, then returns the index, or the assertion error |
| IndexedSearch.IndexedScore | worms/search.py:102-108 | a sample scores 0 exactly when its probe key is in the index, and 9e9 otherwise |
| IndexedSearch.JoinRow | worms/search.py:145-150 | a joined row is the tail row without its last entry, then the merge of the two split choices, then the head row without its first entry |
| IndexedSearch.Heads | worms/search.py:144 | the head row of each sample is the index entry under its probe key |
| IndexedSearch.JoinCheckedSpec | worms/search.py:137-150 | the join raises on a non-zero score, then on a missing key, then on an empty row; otherwise every buffered row is joined with its head row, in order |
| IndexedSearch.JoinChecked | worms/search.py:137-150 | the assert, lookups and join of one checkpoint; IndexedSearch.JoinCheckedSpec states its errors and its rows |
| IndexedSearch.PhaseTwoRowsJoin | worms/search.py:137-144 | rows scored by the indexed criterion below a threshold of at most 9e9 pass the score assertion and every index lookup |
| IndexedSearch.CheckpointIndexed | worms/search.py:128-155 | the intended checkpoint; IndexedSearch.CheckpointIndexedKeeps states what it stores |
| IndexedSearch.CheckpointAsWritten | worms/search.py:128-155 | the checkpoint as written; IndexedSearch.SecondCheckpointRaises states where it departs from the intended one |
| IndexedSearch.StoreJoined | worms/search.py:145-154 | storing the joined rows keeps the stored rows as a prefix and puts after them, in order, each buffered row joined with the head row under its probe key |
| IndexedSearch.AppendJoinedAt | worms/search.py:151-154 | the store puts the new rows after the stored ones, whether or not anything was stored |
| IndexedSearch.CheckpointIndexedKeeps | worms/search.py:128-155 | a buffer of zero rows is kept as it is; otherwise the checkpoint fails exactly when the checked join of the buffered rows fails, with its error, and on success empties the buffer, keeps the stored rows as a prefix and appends, in order, each buffered row joined with the head row under its probe key |
| IndexedSearch.SecondCheckpointRaises | worms/search.py:151-152 | as written, every checkpoint of rows after the first store raises, where the intended store keeps the stored rows |
| IndexedSearch.StepIndexedKeeps | worms/search.py:157-164 | one step never loses a stored row |
| IndexedSearch.AccumulateIndexedKeeps | worms/search.py:157-164 | over any stream, rows once stored are kept as a prefix of what is stored |
| IndexedSearch.IndexedRaisedStops | worms/search.py:157-164 | once an exception has escaped, the rest of the stream is not consumed |
| IndexedSearch.LookupHeads | worms/search.py:144 | the lookup succeeds exactly when every probe key is in the index, and then returns the head rows |
| IndexedSearch.JoinAll | worms/search.py:145-150 | the join succeeds exactly when no tail or head row is empty, and then returns the joined rows in order |
| IndexedSearch.JoinBuffer | worms/search.py:137-150 | the assert, the lookups and the join together give the checked join of the buffered rows |
| IndexedSearch.IndexedAccumulator.constructor | worms/search.py:116-126 | a new accumulator has an empty buffer, no stored rows, and the given index, probe and merge |
| IndexedSearch.IndexedAccumulator.Checkpoint | worms/search.py:128-155 | returns the exception exactly when the checkpoint of the fields fails, leaving them unchanged; otherwise the fields become that checkpoint |
| IndexedSearch.IndexedAccumulator.Accumulate | worms/search.py:157-164 | the fields and the exception afterwards are the fold of the loop over the stream |
| IndexedSearch.IndexedAccumulator.FinalResult | worms/search.py:166-171 | checkpoints, then returns the stored rows, None if none were stored, or the exception; the fields become the checkpoint of the fields before, or stay as they were when it raises |
| Planning.ChunkEndSeg | worms/search.py:174-178 | starting at the last segment, the split moves left while too few chunks remain for the workers or the prefix is too big for memory, but never below 1 |
| Planning.ChunkEnd | worms/search.py:174-178 | the split as a function: every split to its right is too fine, and it is not too fine itself unless it is 1 |
| Planning.ChunkEndUnique | worms/search.py:174-178 | these conditions determine the split uniquely |
| Planning.ClippedSamples | worms/search.py:241-242 | a given max_samples is clipped into [0, ntot]: kept when it lies between chunksize * max_workers and ntot, ntot when it is at least ntot, and min(chunksize * max_workers, ntot) when it is below chunksize * max_workers |
| Planning.Stride | worms/search.py:243 | every_other is at least 1 and is the floor of ntot / max_samples when the sample count is positive |
| Planning.WholeStride | worms/search.py:241-243 | a max_samples of at least ntot, or none, gives every_other 1 |
| Planning.MakePlan | worms/search.py:237-270 | the plan grow computes; Planning.MakePlanSound and Planning.MakePlanFails state when it succeeds and what it holds |
| Planning.MakePlanSound | worms/search.py:237-270 | an accepted plan factors ntot as chunksize * nchunks, has 1 <= njob <= nchunks with njob the clipped raw job count, a stride of at least 1 and the limits of line 265; a max_samples of at least ntot (the default 1e12) gives every_other 1, and max_samples None is accepted only in a silent run, with every_other 1 |
| Planning.MakePlanFails | worms/search.py:245-270 | planning fails exactly when there are no chunks; with chunks, it raises TypeError exactly when max_samples is None and the plan is printed (verbosity >= 0, line 258); otherwise it fails with "system too big" exactly when njob > 1e9, nchunks >= 2^63 or every_other >= 2^63 |
| Topology.CheckTopology | worms/search.py:420-459 | the checks in source order: the first failing one names the error; otherwise the result is criteria.last_body_same_as |
| Topology.Verdict | worms/search.py:420-459 | the checks of _check_topology in source order; Topology.AcceptedChain, Topology.ExpertOnlyRelaxes and Topology.ExpertKeepsHardChecks state what it accepts |
| Topology.CheckSites | worms/search.py:441-458 | the site-count loops give the first site check that fails, or none |
| Topology.JunctionAlternates | worms/search.py:425-430 | two segments can be spliced exactly when the first has an exit polarity and the second enters with the other polarity |
| Topology.AcceptedChain | worms/search.py:420-459 | an accepted chain is non-empty, has no entry at its start and no exit at its end, alternates N and C across every junction and hands on last_body_same_as; without expert, last_body_same_as indexes a segment with the last segment's bodies; a cyclic chain has to_seg last, a valid from_seg, max_sites covering the required sites and, without expert, min_sites covering them too |
| Topology.ExpertOnlyRelaxes | worms/search.py:431-458 | expert=True never rejects a chain that passes without it, and returns the same value |
| Topology.ExpertKeepsHardChecks | worms/search.py:431-458 | with expert=True no chain fails on matchlast or on min_sites; a verdict expert changes was a matchlast or min_sites failure, so every other failure (ends, polarity, to_seg, from_seg, max_sites) stays the same with expert |
| Chunks.Where | worms/search.py:360 | np.where returns exactly the positions of the true entries, in increasing order |
| Chunks.GrowChunk | worms/search.py:339-396 | _grow_chunk; Chunks.GrowChunkSound, Chunks.GrowChunkComplete and Chunks.GrowChunkNone state what it reports |
| Chunks.AttachMembers | worms/search.py:388-396 | a row is reported for a configuration exactly when it is that configuration followed by the sample |
| Chunks.Below | worms/search.py:384 | exactly the rows scoring below the threshold are kept |
| Chunks.GridMembers | worms/search.py:357-359 | a configuration is on the grid exactly when each entry is in its axis's domain |
| Chunks.DomainsMembers | worms/search.py:352-360 | the grid holds exactly the in-range prefix configurations whose matchlast choice is allowed |
| Chunks.QualifiesByPrefix | worms/search.py:352-384 | a full row for the sample qualifies exactly when its prefix is on the filtered grid and it scores below the threshold |
| Chunks.HitsAreQualifying | worms/search.py:367-384 | the hits of a chunk before the cap are exactly the qualifying rows for its sample |
| Chunks.CapIsTopK | worms/search.py:384-387 | the intended cap keeps min(max_results, hits) rows, drawn from the hits, none scoring above a dropped hit |
| Chunks.CapKeepsBest | worms/search.py:384-387 | a hit the cap drops leaves max_results rows, all scoring at most the dropped hit |
| Chunks.Cap | worms/search.py:384-387 | the intended cap; Chunks.CapIsTopK and Chunks.CapKeepsBest state what it keeps |
| Chunks.CapAsWritten | worms/search.py:385-387 | the cap as written; Chunks.CapAsWrittenMisses shows where it departs from the intended one |
| Chunks.CapAsWrittenMisses | worms/search.py:385-387 | as written, three hits over two axes with max_results 2 are all kept, and two axes with max_results 1 raise, where the intended cap keeps two rows and nothing |
| Chunks.GrowChunkSound | worms/search.py:339-396 | every row a chunk reports qualifies for its sample, with its own score and positions, and there are at most max_results of them |
| Chunks.GrowChunkComplete | worms/search.py:384-396 | a qualifying row a chunk does not report leaves it full, with every reported row scoring at most that row |
| Chunks.GrowChunkNone | worms/search.py:361-366 | a chunk returns None exactly when matchlast is a suffix segment whose configuration in the sample is incompatible with the last segment |
| Chunks.MatchlastLastMatchesNothing | worms/search.py:350-366 | when matchlast is the last segment itself, every chunk returns None |
| Chunks.StridedSlice | worms/search.py:404 | a strided slice is strictly increasing and lies in [start, total) |
| Chunks.StridedSliceMembers | worms/search.py:404 | a number is in the slice exactly when it lies in [start, total) and is start plus a multiple of the step |
| Chunks.JobOfSample | worms/search.py:404 | job ijob holds sample x exactly when x is in range and x mod (njob * every_other) == ijob |
| Chunks.JobsDisjoint | worms/search.py:404 | two different jobs never get the same sample |
| Chunks.JobsCover | worms/search.py:404 | with every_other 1, sample x goes to job x mod njob |
| Chunks.JobSamples | worms/search.py:404 | every sample of a job is a valid suffix configuration |
| Chunks.ChunksOf | worms/search.py:406-408 | a job computes one chunk per sample |
| Chunks.Present | worms/search.py:409-410 | dropping the None chunks leaves nothing exactly when every chunk was None, keeps only chunks that were computed, and keeps every chunk that was computed |
| Chunks.ChunksOfReported | worms/search.py:406-408 | every chunk a job computes reports only qualifying rows of its own sample |
| Chunks.PresentReported | worms/search.py:409 | dropping the None chunks keeps that property |
| Chunks.ConcatReported | worms/search.py:411-413 | concatenating the chunks keeps that property |
| Chunks.TopKReported | worms/search.py:414-417 | the top-k of reported rows reports only those rows |
| Chunks.FoundReported | worms/search.py:406-413 | the concatenated rows of a job are qualifying rows of its samples |
| Chunks.ChunkRowsFound | worms/search.py:406-413 | every row a computed chunk reports is among the job's concatenated rows |
| Chunks.BestOfChunksNone | worms/search.py:406-410 | a job returns None exactly when every one of its chunks is None |
| Chunks.BestOfChunks | worms/search.py:406-417 | the result of one job; Chunks.BestOfChunksNone, Chunks.BestOfChunksBest and Chunks.BestOfChunksComplete state it |
| Chunks.BestOfChunksBest | worms/search.py:406-417 | otherwise it returns min(max_results, rows found) rows, sorted, each a qualifying row of one of its samples, none scoring above a row found and dropped |
| Chunks.BestOfChunksComplete | worms/search.py:406-417 | a qualifying row of a job's sample whose chunk is computed makes the result non-empty, and if the result does not hold that row it is full of rows scoring at most it |
| Chunks.GrowChunks | worms/search.py:399-417 | _grow_chunks: the best of the chunks of the job's strided samples; Chunks.JobOfSample and the Chunks.BestOfChunks lemmas state it |

## Left out

- Geometry: `_chain_xforms`, the homogeneous transforms, `hinv` and the
  `XformBinner`.  They are the parameters `segPos`, `scoreOf`, `binKey` and
  `probeKey`; floating-point arithmetic is not modelled.
- `Segment.same_bodies_as`, `splitseg.merge_idx` and `util.MultiRange` are
  the parameters `sameBodies`, `merge` and `decode`.
- `grow` itself (the rest of lines 181-316) is not modelled.  That covers its
  argument defaults, the executor and futures, the verbose prints, the
  construction of the job context, and the square-root job count of line 245
  (the parameter `rawJobs`).
- `_grow` (lines 462 onward), which runs the jobs and hands their futures to
  an accumulator, is not modelled.  The accumulators take the results in
  completion order as a sequence `gen` of optional batches.
- The environment variables set at the top of each job, and the
  `__print_best` reporting of lines 376-382 (output only).
- Planning.MakePlan: the float quotients `ntot / max_samples` and the
  `actual_*` figures of lines 248-251 are integer floor division over
  non-negative integers.  `max_workers` is taken as already resolved to a
  positive count.
- Planning.MakePlan: the verbose prints of lines 252-263 are not modelled,
  except that `'{:,}'.format(None)` at line 258 raises TypeError when
  max_samples is None; the verbosity is a parameter.
- Chunks.GrowChunks: a chain of one segment (end 0) is not modelled.  Every
  job of such a chain calls `_chain_xforms(segments[:0])` at line 405, which
  raises IndexError at line 322; the model's job context has at least one
  prefix segment.
- Planning.MakePlanFails: the error it names NoChunks is whichever Python
  error `int()` of an infinite or undefined quotient raises at line 250.
- Topology.CheckTopology: the warning printed under `expert=True` at
  line 458 is not modelled, since it is output only.
- Chunks.GrowChunk: a negative `last_body_same_as` inside a job is not
  modelled: matchlast is a segment position.  The result arrays are row
  sequences; their numpy shapes and dtypes are not modelled.
- Batches.TopKIsTopK: the order among rows of equal score is not promised,
  since `np.argsort` is not stable by default.  The model's argsort is one
  particular sort, and no lemma depends on its tie order.
- IndexedSearch.IndexedAccumulator.constructor: the source's constructor
  reads `self.splitseg` before assigning it (line 118), so it always raises
  AttributeError.  The model takes the merge function of the splitting
  segment as a parameter instead, so the rest of the class can be stated.
- IndexedSearch.CheckpointIndexed: the `sc, li, lp` values of lines 130-133
  are computed and never used, so they are not modelled.  A buffer of
  batches with zero rows returns at line 136 without being emptied, as
  written, so the buffer of an IndexedAccumulator is not bounded by
  max_tmp_size.  Rows of unequal width, on which `np.concatenate` and
  `np.stack` of lines 138-150 raise ValueError, are joined as they are; all
  rows of one search have the chain's width.
- IndexedSearch.IndexedScore: one sample at a time; the vectorised array
  form is not modelled.

## Findings

| source | as written | input that shows it | evidently intended | confidence | as-written member | corrected member |
|---|---|---|---|---|---|---|
| worms/search.py:152 | `np.concatenate(self.lowidx, lowidx)` passes the new rows as the axis argument, which raises TypeError | any second checkpoint of an IndexedAccumulator with rows buffered, after a first one stored rows | `np.concatenate([self.lowidx, lowidx])`: append the new joined rows to the stored ones | high; not executed | IndexedSearch.SecondCheckpointRaises | IndexedSearch.CheckpointIndexedKeeps |
| worms/search.py:385-387 | `len(ilow0)` is the number of axes of the score array, not the number of hits; when it exceeds max_results, indexing the tuple `ilow0` with an array raises TypeError | three hits over two prefix axes with max_results 2 keep all three; two axes with max_results 1 raise even with no hits | keep the max_results best-scoring hits of the chunk | high; not executed | Chunks.CapAsWrittenMisses | Chunks.CapIsTopK |
