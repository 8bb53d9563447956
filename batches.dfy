// Result batches and the "argsort, then keep the first max_results" step that
// worms/search.py applies in SimpleAccumulator.checkpoint (lines 27-33) and in
// _grow_chunks (lines 411-417).
//
// A batch is the triple of numpy arrays (scores, lowidx, lowpos) that a search
// job returns: one score, one index row and one row of positions per kept
// candidate.  Reordering applies one shared order to all three arrays; Rows()
// zips them so that "the three arrays stay aligned" is stated once, as a fact
// about rows.

module Batches {
  import opened Common

  /** One scored candidate: its score, its index row (one configuration per
      segment) and its per-segment positions. */
  datatype Row<P> = Row(score: int, idx: seq<nat>, pos: seq<P>)

  /** Three parallel arrays, one entry per candidate. */
  datatype Batch<P> = Batch(scores: seq<int>, lowidx: seq<seq<nat>>, lowpos: seq<seq<P>>)
  {
    predicate WellFormed()
    {
      |scores| == |lowidx| == |lowpos|
    }

    function Size(): nat
    {
      |scores|
    }
  }

  predicate AllWellFormed<P>(bs: seq<Batch<P>>)
  {
    forall i :: 0 <= i < |bs| ==> bs[i].WellFormed()
  }

  /** The results of finished jobs, in completion order: None for a job that found nothing. */
  predicate ItemsWellFormed<P>(gen: seq<Option<Batch<P>>>)
  {
    forall i :: 0 <= i < |gen| && gen[i].Some? ==> gen[i].value.WellFormed()
  }

  /** An accumulator's buffer after each item: empty, or shorter than max_tmp_size. */
  predicate BufferBounded<P>(buffer: seq<Batch<P>>, maxTmpSize: int)
  {
    |buffer| == 0 || |buffer| < maxTmpSize
  }

  /** The rows of a batch, the three arrays read side by side. */
  function Rows<P>(b: Batch<P>): (r: seq<Row<P>>)
    requires b.WellFormed()
    ensures |r| == |b.scores|
    ensures forall j :: 0 <= j < |r| ==> r[j] == Row(b.scores[j], b.lowidx[j], b.lowpos[j])
  {
    seq(|b.scores|, j requires 0 <= j < |b.scores| => Row(b.scores[j], b.lowidx[j], b.lowpos[j]))
  }

  /** np.concatenate of two batches, array by array. */
  function Append<P>(a: Batch<P>, b: Batch<P>): (r: Batch<P>)
    requires a.WellFormed() && b.WellFormed()
    ensures r.WellFormed() && Rows(r) == Rows(a) + Rows(b)
  {
    var r := Batch(a.scores + b.scores, a.lowidx + b.lowidx, a.lowpos + b.lowpos);
    assert Rows(r) == Rows(a) + Rows(b);
    r
  }

  /** np.concatenate over a list of batches, in list order. */
  function Concat<P>(bs: seq<Batch<P>>): (r: Batch<P>)
    requires AllWellFormed(bs)
    ensures r.WellFormed()
  {
    if bs == [] then Batch([], [], [])
    else Append(Concat(bs[..|bs| - 1]), bs[|bs| - 1])
  }

  /** The total number of rows in a list of batches. */
  function TotalRows<P>(bs: seq<Batch<P>>): nat
  {
    if bs == [] then 0 else TotalRows(bs[..|bs| - 1]) + bs[|bs| - 1].Size()
  }

  /** Concatenation keeps every row: its size is the total of the parts. */
  lemma {:induction false} ConcatSize<P>(bs: seq<Batch<P>>)
    requires AllWellFormed(bs)
    ensures Concat(bs).Size() == TotalRows(bs)
  {
    if bs != [] {
      ConcatSize(bs[..|bs| - 1]);
    }
  }

  /** Concatenation keeps every row of every part. */
  lemma {:induction false} ConcatContains<P>(bs: seq<Batch<P>>, k: nat)
    requires AllWellFormed(bs) && k < |bs|
    ensures multiset(Rows(bs[k])) <= multiset(Rows(Concat(bs)))
  {
    var n := |bs| - 1;
    ConcatLast(bs);
    var front := Rows(Concat(bs[..n]));
    var last := Rows(bs[n]);
    MultisetOfSum(front, last);
    if k < n {
      ConcatContains(bs[..n], k);
      assert bs[..n][k] == bs[k];
      SubTrans(multiset(Rows(bs[k])), multiset(front), multiset(front + last));
      assert multiset(Rows(bs[k])) <= multiset(front + last);
    } else {
      assert k == n;
      assert Rows(bs[k]) == last;
      assert multiset(last) <= multiset(front + last);
      assert multiset(Rows(bs[k])) <= multiset(front + last);
    }
    assert multiset(front + last) == multiset(Rows(Concat(bs)));
  }

  /** Concatenating a list of batches appends the rows of its last batch. */
  lemma ConcatLast<P>(bs: seq<Batch<P>>)
    requires AllWellFormed(bs) && |bs| > 0
    ensures AllWellFormed(bs[..|bs| - 1])
    ensures Rows(Concat(bs)) == Rows(Concat(bs[..|bs| - 1])) + Rows(bs[|bs| - 1])
  {
  }

  lemma SubTrans<T>(a: multiset<T>, b: multiset<T>, c: multiset<T>)
    requires a <= b && b <= c
    ensures a <= c
  {
  }

  lemma MultisetOfSum<T>(a: seq<T>, b: seq<T>)
    ensures multiset(a) <= multiset(a + b) && multiset(b) <= multiset(a + b)
  {
    assert multiset(a + b) == multiset(a) + multiset(b);
  }

  // ---------------------------------------------------------------------
  // argsort

  predicate Indices(o: seq<nat>, n: nat)
  {
    forall j :: 0 <= j < |o| ==> o[j] < n
  }

  /** Reading `s` through the order `o` gives non-decreasing values. */
  predicate SortedBy(s: seq<int>, o: seq<nat>)
    requires Indices(o, |s|)
  {
    forall a, b :: 0 <= a < b < |o| ==> s[o[a]] <= s[o[b]]
  }

  /** [0, 1, ..., n - 1] */
  function Range(n: nat): (r: seq<nat>)
    ensures |r| == n && forall j :: 0 <= j < n ==> r[j] == j
  {
    if n == 0 then [] else Range(n - 1) + [n - 1]
  }

  /** What np.argsort promises: a permutation of the positions of `s` that
      reads `s` in ascending order.  Among equal scores any order is allowed. */
  ghost predicate IsArgSort(s: seq<int>, o: seq<nat>)
  {
    |o| == |s| && Indices(o, |s|) && multiset(o) == multiset(Range(|s|)) && SortedBy(s, o)
  }

  /** Insert position `i` into the order `o`, before the first position whose value is larger. */
  function Insert(s: seq<int>, o: seq<nat>, i: nat): (r: seq<nat>)
    requires i < |s| && Indices(o, |s|)
    ensures |r| == |o| + 1 && Indices(r, |s|)
    decreases o
  {
    if o == [] then [i]
    else if s[i] < s[o[0]] then [i] + o
    else [o[0]] + Insert(s, o[1..], i)
  }

  /** Insertion adds `i` and keeps every other position. */
  lemma {:induction false} InsertPermutes(s: seq<int>, o: seq<nat>, i: nat)
    requires i < |s| && Indices(o, |s|)
    ensures multiset(Insert(s, o, i)) == multiset(o) + multiset{i}
    decreases o
  {
    if o != [] && s[i] >= s[o[0]] {
      InsertPermutes(s, o[1..], i);
      assert o == [o[0]] + o[1..];
    }
  }

  lemma {:induction false} InsertSorted(s: seq<int>, o: seq<nat>, i: nat)
    requires i < |s| && Indices(o, |s|) && SortedBy(s, o)
    ensures SortedBy(s, Insert(s, o, i))
    decreases o
  {
    if o != [] && s[i] >= s[o[0]] {
      var rest := o[1..];
      InsertSorted(s, rest, i);
      var r := Insert(s, rest, i);
      InsertPermutes(s, rest, i);
      forall j | 0 <= j < |r|
        ensures s[o[0]] <= s[r[j]]
      {
        assert r[j] in multiset(r);
        if r[j] != i {
          assert r[j] in multiset(rest);
          var m :| 0 <= m < |rest| && rest[m] == r[j];
          assert o[m + 1] == r[j];
        }
      }
    }
  }

  /** Insertion argsort of the first n positions of `s`. */
  function ArgSortUpTo(s: seq<int>, n: nat): (o: seq<nat>)
    requires n <= |s|
    ensures |o| == n && Indices(o, |s|)
  {
    if n == 0 then [] else Insert(s, ArgSortUpTo(s, n - 1), n - 1)
  }

  lemma {:induction false} ArgSortUpToSorted(s: seq<int>, n: nat)
    requires n <= |s|
    ensures SortedBy(s, ArgSortUpTo(s, n))
  {
    if n > 0 {
      ArgSortUpToSorted(s, n - 1);
      InsertSorted(s, ArgSortUpTo(s, n - 1), n - 1);
    }
  }

  /** np.argsort (one admissible tie order among many). */
  function ArgSort(s: seq<int>): seq<nat>
  {
    ArgSortUpTo(s, |s|)
  }

  // ---------------------------------------------------------------------
  // fancy indexing: arr[order]

  /** `t[o]` for an integer index array `o`. */
  function Pick<T>(t: seq<T>, o: seq<nat>): (r: seq<T>)
    requires Indices(o, |t|)
    ensures |r| == |o|
  {
    if o == [] then [] else [t[o[0]]] + Pick(t, o[1..])
  }

  lemma {:induction false} PickAt<T>(t: seq<T>, o: seq<nat>)
    requires Indices(o, |t|)
    ensures forall j :: 0 <= j < |o| ==> Pick(t, o)[j] == t[o[j]]
  {
    if o != [] {
      PickAt(t, o[1..]);
    }
  }

  lemma PickCons<T>(t: seq<T>, x: nat, o: seq<nat>)
    requires x < |t| && Indices(o, |t|)
    ensures Pick(t, [x] + o) == [t[x]] + Pick(t, o)
  {
    assert ([x] + o)[1..] == o;
  }

  lemma {:induction false} PickInsert<T>(t: seq<T>, s: seq<int>, o: seq<nat>, i: nat)
    requires |t| == |s| && i < |s| && Indices(o, |s|)
    ensures multiset(Pick(t, Insert(s, o, i))) == multiset(Pick(t, o)) + multiset{t[i]}
    decreases o
  {
    if o == [] {
      assert Insert(s, o, i) == [i];
      PickCons(t, i, o);
    } else if s[i] < s[o[0]] {
      assert Insert(s, o, i) == [i] + o;
      PickCons(t, i, o);
    } else {
      var rest := o[1..];
      assert o == [o[0]] + rest;
      var insRest := Insert(s, rest, i);
      assert Insert(s, o, i) == [o[0]] + insRest;
      PickInsert(t, s, rest, i);
      PickConsBoth(t, o[0], rest, insRest, t[i]);
    }
  }

  /** Putting the same head in front of two orders keeps their multiset relation. */
  lemma PickConsBoth<T>(t: seq<T>, x: nat, o: seq<nat>, grown: seq<nat>, extra: T)
    requires x < |t| && Indices(o, |t|) && Indices(grown, |t|)
    requires multiset(Pick(t, grown)) == multiset(Pick(t, o)) + multiset{extra}
    ensures multiset(Pick(t, [x] + grown)) == multiset(Pick(t, [x] + o)) + multiset{extra}
  {
    PickCons(t, x, grown);
    PickCons(t, x, o);
    MultisetCons(t[x], Pick(t, grown), Pick(t, o), extra);
  }

  lemma MultisetCons<T>(a: T, grown: seq<T>, before: seq<T>, extra: T)
    requires multiset(grown) == multiset(before) + multiset{extra}
    ensures multiset([a] + grown) == multiset([a] + before) + multiset{extra}
  {
  }

  /** Reading any array aligned with `s` through the argsort of `s` permutes it. */
  lemma {:induction false} PickArgSort<T>(t: seq<T>, s: seq<int>, n: nat)
    requires |t| == |s| && n <= |s|
    ensures multiset(Pick(t, ArgSortUpTo(s, n))) == multiset(t[..n])
  {
    if n > 0 {
      var o := ArgSortUpTo(s, n - 1);
      PickArgSort(t, s, n - 1);
      ArgSortUpToStep(s, n);
      PickInsertLast(t, s, n, o);
    }
  }

  lemma ArgSortUpToStep(s: seq<int>, n: nat)
    requires 0 < n <= |s|
    ensures ArgSortUpTo(s, n) == Insert(s, ArgSortUpTo(s, n - 1), n - 1)
  {
  }

  lemma PickInsertLast<T>(t: seq<T>, s: seq<int>, n: nat, o: seq<nat>)
    requires |t| == |s| && 0 < n <= |s| && Indices(o, |s|)
    requires multiset(Pick(t, o)) == multiset(t[..n - 1])
    ensures multiset(Pick(t, Insert(s, o, n - 1))) == multiset(t[..n])
  {
    PickInsert(t, s, o, n - 1);
    MultisetSnoc(t, n, multiset(Pick(t, Insert(s, o, n - 1))), multiset(Pick(t, o)));
  }

  lemma MultisetSnoc<T>(t: seq<T>, n: nat, grown: multiset<T>, before: multiset<T>)
    requires 0 < n <= |t|
    requires before == multiset(t[..n - 1]) && grown == before + multiset{t[n - 1]}
    ensures grown == multiset(t[..n])
  {
    assert t[..n] == t[..n - 1] + [t[n - 1]];
  }

  /** The insertion argsort is an argsort: a sorted permutation of positions. */
  lemma ArgSortIsArgSort(s: seq<int>)
    ensures IsArgSort(s, ArgSort(s))
  {
    var o := ArgSort(s);
    ArgSortUpToSorted(s, |s|);
    PickArgSort(Range(|s|), s, |s|);
    PickAt(Range(|s|), o);
    assert Pick(Range(|s|), o) == o;
    assert Range(|s|)[..|s|] == Range(|s|);
  }

  /** The same index array applied to all three arrays. */
  function Take<P>(b: Batch<P>, o: seq<nat>): (r: Batch<P>)
    requires b.WellFormed() && Indices(o, b.Size())
    ensures r.WellFormed() && Rows(r) == Pick(Rows(b), o)
  {
    var r := Batch(Pick(b.scores, o), Pick(b.lowidx, o), Pick(b.lowpos, o));
    PickAt(b.scores, o);
    PickAt(b.lowidx, o);
    PickAt(b.lowpos, o);
    PickAt(Rows(b), o);
    assert Rows(r) == Pick(Rows(b), o);
    r
  }

  /** order = np.argsort(scores); keep arr[order[:k]] for each of the three arrays. */
  function TopK<P>(b: Batch<P>, k: nat): Batch<P>
    requires b.WellFormed()
  {
    var order := ArgSort(b.scores);
    Take(b, order[..Min(k, |order|)])
  }

  lemma {:induction false} PickSplit<T>(t: seq<T>, o: seq<nat>, m: nat)
    requires Indices(o, |t|) && m <= |o|
    ensures Pick(t, o) == Pick(t, o[..m]) + Pick(t, o[m..])
  {
    if m > 0 {
      PickSplit(t, o[1..], m - 1);
      assert o[1..][..m - 1] == o[..m][1..];
      assert o[1..][m - 1..] == o[m..];
    } else {
      assert o[m..] == o;
    }
  }

  /** The rows kept by the top-k step and the rows it drops together are the
      rows of the input: nothing is lost, duplicated or mixed between rows. */
  lemma TopKPermutes<P>(b: Batch<P>, k: nat)
    requires b.WellFormed()
    ensures var o := ArgSort(b.scores); var m := Min(k, |o|);
      multiset(Rows(TopK(b, k))) + multiset(Pick(Rows(b), o[m..])) == multiset(Rows(b))
  {
    var s := b.scores;
    var o := ArgSort(s);
    var m := Min(k, |o|);
    var R := Rows(b);
    PickArgSort(R, s, |s|);
    assert R[..|s|] == R;
    PickSplit(R, o, m);
  }

  /** Reading through a sorted order, an earlier position never scores above a later one. */
  lemma TopKOrdered<P>(b: Batch<P>, k: nat)
    requires b.WellFormed()
    ensures var o := ArgSort(b.scores); var m := Min(k, |o|); var r := TopK(b, k);
      Sorted(r.scores) &&
      forall x, y :: 0 <= x < r.Size() && 0 <= y < |o| - m ==> r.scores[x] <= Pick(Rows(b), o[m..])[y].score
  {
    var s := b.scores;
    var o := ArgSort(s);
    ArgSortIsArgSort(s);
    var m := Min(k, |o|);
    var R := Rows(b);
    var r := TopK(b, k);
    PickAt(s, o[..m]);
    PickAt(R, o[m..]);
    assert forall x :: 0 <= x < r.Size() ==> r.scores[x] == s[o[x]];
    assert forall y :: 0 <= y < |o| - m ==> Pick(R, o[m..])[y].score == s[o[m + y]];
  }

  /** The top-k step keeps exactly min(k, n) rows, in ascending score order;
      the rows it keeps are rows of the input with their score, index row and
      positions still together; and no row it drops scores below a row it keeps. */
  lemma TopKIsTopK<P>(b: Batch<P>, k: nat)
    requires b.WellFormed()
    ensures TopK(b, k).WellFormed() && TopK(b, k).Size() == Min(k, b.Size())
    ensures Sorted(TopK(b, k).scores)
    ensures multiset(Rows(TopK(b, k))) <= multiset(Rows(b))
    ensures forall x, d :: 0 <= x < TopK(b, k).Size() && d in multiset(Rows(b)) - multiset(Rows(TopK(b, k)))
              ==> TopK(b, k).scores[x] <= d.score
  {
    var o := ArgSort(b.scores);
    var m := Min(k, |o|);
    var r := TopK(b, k);
    var dropped := Pick(Rows(b), o[m..]);
    TopKPermutes(b, k);
    TopKOrdered(b, k);
    var all := multiset(Rows(b));
    var kept := multiset(Rows(r));
    MultisetParts(kept, multiset(dropped), all);
    forall x, d | 0 <= x < r.Size() && d in all - kept
      ensures r.scores[x] <= d.score
    {
      assert d in dropped;
      var y :| 0 <= y < |dropped| && dropped[y] == d;
    }
  }

  /** Two parts that add up to a whole: each is a sub-multiset, and taking one away leaves the other. */
  lemma MultisetParts<T>(a: multiset<T>, d: multiset<T>, b: multiset<T>)
    requires a + d == b
    ensures a <= b && b - a == d
  {
  }

  /** A sub-multiset and what is left of the whole add up to the whole. */
  lemma SubMultiset<T>(a: multiset<T>, b: multiset<T>)
    requires a <= b
    ensures b == a + (b - a) && |b| == |a| + |b - a|
  {
    assert b == a + (b - a);
  }

  /** When the top-k step drops some row, it kept k rows, each scoring at most the dropped one. */
  lemma TopKDropped<P>(b: Batch<P>, k: nat, d: Row<P>)
    requires b.WellFormed()
    requires d in multiset(Rows(b)) - multiset(Rows(TopK(b, k)))
    ensures TopK(b, k).Size() == k
    ensures forall x :: 0 <= x < TopK(b, k).Size() ==> TopK(b, k).scores[x] <= d.score
  {
    TopKIsTopK(b, k);
    SubMultiset(multiset(Rows(TopK(b, k))), multiset(Rows(b)));
    assert |multiset(Rows(b)) - multiset(Rows(TopK(b, k)))| >= 1;
  }

  /** When the input holds at least k rows scoring at most s, the top-k step
      keeps k rows, each scoring at most s. */
  lemma TopKFullBelow<P>(b: Batch<P>, k: nat, c: multiset<Row<P>>, s: int)
    requires b.WellFormed() && c <= multiset(Rows(b)) && |c| >= k
    requires forall x :: x in c ==> x.score <= s
    ensures TopK(b, k).Size() == k
    ensures forall y :: 0 <= y < TopK(b, k).Size() ==> TopK(b, k).scores[y] <= s
  {
    var kept := TopK(b, k);
    var bag := multiset(Rows(kept));
    TopKIsTopK(b, k);
    SubMultiset(c, multiset(Rows(b)));
    forall y | 0 <= y < kept.Size()
      ensures kept.scores[y] <= s
    {
      if c <= bag {
        SubMultiset(c, bag);
        assert bag - c == multiset{};
        assert Rows(kept)[y] in c;
      } else {
        var x :| c[x] > bag[x];
        assert x in multiset(Rows(b)) - bag;
      }
    }
  }

  /** Take a part c of a batch, and an index row idx that scores s wherever c
      holds it.  If c does not hold idx, say that c has at least k rows and
      none of them scores above s.  Then, if the top-k step does not keep idx,
      it keeps k rows and none of them scores above s. */
  lemma TopKKeepsRow<P>(all: Batch<P>, c: Batch<P>, k: nat, idx: seq<nat>, s: int)
    requires all.WellFormed() && c.WellFormed() && multiset(Rows(c)) <= multiset(Rows(all))
    requires forall j :: 0 <= j < c.Size() && c.lowidx[j] == idx ==> c.scores[j] == s
    requires idx !in c.lowidx ==> c.Size() >= k && forall j :: 0 <= j < c.Size() ==> c.scores[j] <= s
    ensures idx !in TopK(all, k).lowidx ==>
      && TopK(all, k).Size() == k
      && forall y :: 0 <= y < TopK(all, k).Size() ==> TopK(all, k).scores[y] <= s
  {
    var kept := TopK(all, k);
    TopKIsTopK(all, k);
    if idx !in kept.lowidx {
      if idx in c.lowidx {
        var j :| 0 <= j < |c.lowidx| && c.lowidx[j] == idx;
        var d := Rows(c)[j];
        forall m | 0 <= m < |Rows(kept)|
          ensures Rows(kept)[m] != d
        {
          assert kept.lowidx[m] != idx;
        }
        assert d in multiset(Rows(all)) - multiset(Rows(kept));
        TopKDropped(all, k, d);
      } else {
        forall x | x in multiset(Rows(c))
          ensures x.score <= s
        {
          var j :| 0 <= j < |Rows(c)| && Rows(c)[j] == x;
        }
        TopKFullBelow(all, k, multiset(Rows(c)), s);
      }
    }
  }
}
