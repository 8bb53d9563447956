// Shared vocabulary of the search model: optional values, results with
// errors, and the small integer helpers that worms/search.py borrows from
// numpy and from its util module.

module Common {

  datatype Option<T> = None | Some(value: T)

  datatype Result<T, E> = Success(value: T) | Failure(error: E)

  function Min(a: int, b: int): int { if a <= b then a else b }

  function Max(a: int, b: int): int { if a <= b then b else a }

  /** np.clip(a, lo, hi): raise to `lo`, then cap at `hi` (the cap wins when lo > hi). */
  function Clip(a: int, lo: int, hi: int): (r: int)
    ensures r <= hi
    ensures lo <= hi ==> lo <= r
    ensures lo <= a <= hi ==> r == a
    ensures a < lo <= hi ==> r == lo
    ensures a > hi || lo > hi ==> r == hi
  {
    Min(Max(a, lo), hi)
  }

  /** util.bigprod: the product of a list of sizes (1 for the empty list). */
  function Prod(s: seq<nat>): nat
  {
    if s == [] then 1 else s[0] * Prod(s[1..])
  }

  /** The size of a concatenated chain is the product of the sizes of its two parts. */
  lemma {:induction false} ProdAppend(a: seq<nat>, b: seq<nat>)
    ensures Prod(a + b) == Prod(a) * Prod(b)
  {
    if a == [] {
      assert a + b == b;
    } else {
      assert (a + b)[1..] == a[1..] + b;
      ProdAppend(a[1..], b);
    }
  }

  /** Splitting a chain at any point factors its size. */
  lemma ProdSplit(s: seq<nat>, k: nat)
    requires k <= |s|
    ensures Prod(s) == Prod(s[..k]) * Prod(s[k..])
  {
    assert s == s[..k] + s[k..];
    ProdAppend(s[..k], s[k..]);
  }

  /** A chain whose sizes are all positive has a positive size. */
  lemma {:induction false} ProdPositive(s: seq<nat>)
    requires forall i :: 0 <= i < |s| ==> s[i] > 0
    ensures Prod(s) > 0
  {
    if s != [] {
      ProdPositive(s[1..]);
    }
  }

  /** Python's `xs[i]` on a list of length n: the position it denotes, or None for IndexError. */
  function PyIndex(n: nat, i: int): (r: Option<nat>)
    ensures r.Some? <==> -(n as int) <= i < n
    ensures r.Some? ==> r.value < n && (r.value == i || r.value == n + i)
  {
    if 0 <= i < n then Some(i)
    else if -(n as int) <= i < 0 then Some(n + i)
    else None
  }

  /** Every element of `s` is at most every later element. */
  predicate Sorted(s: seq<int>)
  {
    forall a, b :: 0 <= a < b < |s| ==> s[a] <= s[b]
  }

  /** `row` indexes a configuration of every segment: elementwise below `sizes`. */
  predicate InBounds(row: seq<nat>, sizes: seq<nat>)
  {
    |row| == |sizes| && forall i :: 0 <= i < |row| ==> row[i] < sizes[i]
  }
}
