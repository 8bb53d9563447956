// _check_topology (worms/search.py lines 420-459): the checks grow runs on the
// chain of segments before searching, and the matchlast value it hands on.
//
// Polarities are the three values 'N', 'C' and None.  Segment.same_bodies_as
// is the abstract relation `sameBodies` on segment positions.

module Topology {
  import opened Common

  datatype Pol = N | C | NoPol

  /** Site counts per polarity: max_sites / min_sites of a segment. */
  datatype Sites = Sites(n: int, c: int)
  {
    function At(p: Pol): int
      requires p != NoPol
    {
      if p == N then n else c
    }
  }

  datatype Segment = Segment(entrypol: Pol, exitpol: Pol, maxSites: Sites, minSites: Sites)

  /** The criteria attributes _check_topology reads. */
  datatype Criteria = Criteria(lastBodySameAs: Option<int>, isCyclic: bool, fromSeg: int, toSeg: int)

  datatype TopologyError =
    | NoSegments                   // segments[0] on an empty chain
    | EntryAtBeginning             // line 422
    | ExitAtEnd                    // line 424
    | IncompatiblePolarity         // line 427
    | MatchlastOutOfRange          // segments[matchlast], line 432
    | MatchlastBodiesDiffer        // line 434
    | CyclicToSegNotLast           // line 437
    | FromSegOutOfRange            // segments[criteria.from_seg], line 441
    | NotEnoughSitesInAny(pol: Pol)  // line 452
    | NotEnoughSitesInAll(pol: Pol)  // line 457

  /** Two adjacent segments can be spliced: both sides have a polarity and they differ. */
  predicate Junction(a: Segment, b: Segment)
  {
    a.exitpol != NoPol && b.entrypol != NoPol && a.exitpol != b.entrypol
  }

  predicate ChainOk(segs: seq<Segment>)
  {
    forall i :: 0 <= i < |segs| - 1 ==> Junction(segs[i], segs[i + 1])
  }

  /** sites_required[p] after the three increments of lines 443-445. */
  function Required(beg: Segment, end: Segment, p: Pol): nat
  {
    (if beg.entrypol == p then 1 else 0) + (if beg.exitpol == p then 1 else 0) + (if end.entrypol == p then 1 else 0)
  }

  /** One polarity of the loop of lines 447-458 passes. */
  predicate SitePasses(beg: Segment, p: Pol, required: int, expert: bool)
    requires p != NoPol
  {
    beg.maxSites.At(p) >= required && (expert || beg.minSites.At(p) >= required)
  }

  /** The loop of lines 447-458 over 'N' then 'C'. */
  function SitesVerdict(beg: Segment, end: Segment, expert: bool): Option<TopologyError>
  {
    if beg.maxSites.At(N) < Required(beg, end, N) then Some(NotEnoughSitesInAny(N))
    else if !expert && beg.minSites.At(N) < Required(beg, end, N) then Some(NotEnoughSitesInAll(N))
    else if beg.maxSites.At(C) < Required(beg, end, C) then Some(NotEnoughSitesInAny(C))
    else if !expert && beg.minSites.At(C) < Required(beg, end, C) then Some(NotEnoughSitesInAll(C))
    else None
  }

  /** What _check_topology raises or returns, check by check in source order. */
  function Verdict(segs: seq<Segment>, crit: Criteria, expert: bool, sameBodies: (nat, nat) -> bool): Result<Option<int>, TopologyError>
  {
    if |segs| == 0 then Failure(NoSegments)
    else if segs[0].entrypol != NoPol then Failure(EntryAtBeginning)
    else if segs[|segs| - 1].exitpol != NoPol then Failure(ExitAtEnd)
    else if !ChainOk(segs) then Failure(IncompatiblePolarity)
    else if crit.lastBodySameAs.Some? && !expert && PyIndex(|segs|, crit.lastBodySameAs.value).None? then Failure(MatchlastOutOfRange)
    else if crit.lastBodySameAs.Some? && !expert && !sameBodies(PyIndex(|segs|, crit.lastBodySameAs.value).value, |segs| - 1) then
      Failure(MatchlastBodiesDiffer)
    else if crit.isCyclic && crit.toSeg != -1 && crit.toSeg != |segs| - 1 then Failure(CyclicToSegNotLast)
    else if crit.isCyclic && PyIndex(|segs|, crit.fromSeg).None? then Failure(FromSegOutOfRange)
    else if crit.isCyclic then
      match SitesVerdict(segs[PyIndex(|segs|, crit.fromSeg).value], segs[PyIndex(|segs|, crit.toSeg).value], expert)
      case Some(e) => Failure(e)
      case None => Success(crit.lastBodySameAs)
    else Success(crit.lastBodySameAs)
  }

  /** _check_topology (lines 420-459). */
  method CheckTopology(segs: seq<Segment>, crit: Criteria, expert: bool, sameBodies: (nat, nat) -> bool) returns (r: Result<Option<int>, TopologyError>)
    ensures r == Verdict(segs, crit, expert, sameBodies)
  {
    if |segs| == 0 {
      return Failure(NoSegments);
    }
    if segs[0].entrypol != NoPol {
      return Failure(EntryAtBeginning);
    }
    if segs[|segs| - 1].exitpol != NoPol {
      return Failure(ExitAtEnd);
    }
    var i := 0;
    while i < |segs| - 1
      invariant 0 <= i <= |segs| - 1
      invariant forall j :: 0 <= j < i ==> Junction(segs[j], segs[j + 1])
    {
      if !Junction(segs[i], segs[i + 1]) {
        return Failure(IncompatiblePolarity);
      }
      i := i + 1;
    }
    var matchlast := crit.lastBodySameAs;
    if matchlast.Some? && !expert {
      var m := PyIndex(|segs|, matchlast.value);
      if m.None? {
        return Failure(MatchlastOutOfRange);
      }
      if !sameBodies(m.value, |segs| - 1) {
        return Failure(MatchlastBodiesDiffer);
      }
    }
    if crit.isCyclic && crit.toSeg != -1 && crit.toSeg != |segs| - 1 {
      return Failure(CyclicToSegNotLast);
    }
    if crit.isCyclic {
      var b := PyIndex(|segs|, crit.fromSeg);
      if b.None? {
        return Failure(FromSegOutOfRange);
      }
      var beg := segs[b.value];
      var end := segs[PyIndex(|segs|, crit.toSeg).value];
      var e := CheckSites(beg, end, expert);
      if e.Some? {
        return Failure(e.value);
      }
    }
    return Success(matchlast);
  }

  /** Lines 443-458: count the sites the cyclic closure needs, then check
      them for 'N' and then 'C'. */
  method CheckSites(beg: Segment, end: Segment, expert: bool) returns (e: Option<TopologyError>)
    ensures e == SitesVerdict(beg, end, expert)
  {
    var required := map[N := 0, C := 0, NoPol := 0];
    forall p: Pol
      ensures p in required
    {
      assert p == N || p == C || p == NoPol;
    }
    required := required[beg.entrypol := required[beg.entrypol] + 1];
    required := required[beg.exitpol := required[beg.exitpol] + 1];
    required := required[end.entrypol := required[end.entrypol] + 1];
    assert required[N] == Required(beg, end, N) && required[C] == Required(beg, end, C);
    var pols := [N, C];
    var k := 0;
    while k < |pols|
      invariant 0 <= k <= |pols|
      invariant forall j :: 0 <= j < k ==> SitePasses(beg, pols[j], required[pols[j]], expert)
    {
      var pol := pols[k];
      if k == 1 {
        assert pols[0] == N && pol == C;
        assert SitePasses(beg, N, required[N], expert);
      }
      if beg.maxSites.At(pol) < required[pol] {
        return Some(NotEnoughSitesInAny(pol));
      }
      if beg.minSites.At(pol) < required[pol] && !expert {
        return Some(NotEnoughSitesInAll(pol));
      }
      k := k + 1;
    }
    assert pols[0] == N && pols[1] == C;
    assert SitePasses(beg, N, required[N], expert) && SitePasses(beg, C, required[C], expert);
    return None;
  }

  // ---------------------------------------------------------------------
  // What the checks guarantee

  function Flip(p: Pol): Pol
  {
    match p
    case N => C
    case C => N
    case NoPol => NoPol
  }

  /** A junction joins an exit N to an entry C or an exit C to an entry N. */
  lemma JunctionAlternates(a: Segment, b: Segment)
    ensures Junction(a, b) <==> a.exitpol != NoPol && b.entrypol == Flip(a.exitpol)
  {
  }

  /** An accepted chain starts without an entry, ends without an exit, and
      alternates N and C across every junction.  Unless expert is set, a
      matchlast names a segment with the same bodies as the last one.  A
      cyclic chain closes on the last segment, from_seg names a segment, and
      that segment has enough sites of each polarity in some of its
      configurations, and in all of them unless expert is set.  The value
      returned is criteria.last_body_same_as. */
  lemma AcceptedChain(segs: seq<Segment>, crit: Criteria, expert: bool, sameBodies: (nat, nat) -> bool)
    requires Verdict(segs, crit, expert, sameBodies).Success?
    ensures |segs| >= 1 && segs[0].entrypol == NoPol && segs[|segs| - 1].exitpol == NoPol
    ensures forall i :: 0 <= i < |segs| - 1 ==> segs[i].exitpol != NoPol && segs[i + 1].entrypol == Flip(segs[i].exitpol)
    ensures crit.lastBodySameAs.Some? && !expert ==>
      var m := PyIndex(|segs|, crit.lastBodySameAs.value);
      m.Some? && sameBodies(m.value, |segs| - 1)
    ensures crit.isCyclic ==>
      && (crit.toSeg == -1 || crit.toSeg == |segs| - 1)
      && PyIndex(|segs|, crit.fromSeg).Some?
      && var beg := segs[PyIndex(|segs|, crit.fromSeg).value];
         var end := segs[|segs| - 1];
         forall p :: p != NoPol ==>
           && beg.maxSites.At(p) >= Required(beg, end, p)
           && (!expert ==> beg.minSites.At(p) >= Required(beg, end, p))
    ensures Verdict(segs, crit, expert, sameBodies).value == crit.lastBodySameAs
  {
    forall i | 0 <= i < |segs| - 1
      ensures segs[i].exitpol != NoPol && segs[i + 1].entrypol == Flip(segs[i].exitpol)
    {
      JunctionAlternates(segs[i], segs[i + 1]);
    }
    if crit.isCyclic {
      var beg := segs[PyIndex(|segs|, crit.fromSeg).value];
      var end := segs[|segs| - 1];
      assert PyIndex(|segs|, crit.toSeg).value == |segs| - 1;
      forall p | p != NoPol
        ensures beg.maxSites.At(p) >= Required(beg, end, p)
        ensures !expert ==> beg.minSites.At(p) >= Required(beg, end, p)
      {
        assert p == N || p == C;
      }
    }
  }

  /** expert only lifts checks: whatever passes without it passes with it, with the same value. */
  lemma ExpertOnlyRelaxes(segs: seq<Segment>, crit: Criteria, sameBodies: (nat, nat) -> bool)
    requires Verdict(segs, crit, false, sameBodies).Success?
    ensures Verdict(segs, crit, true, sameBodies) == Verdict(segs, crit, false, sameBodies)
  {
  }

  /** expert lifts exactly the matchlast check and the min_sites check: with
      it no chain fails on those, and whenever the verdict with expert
      differs from the one without, the one without failed on one of them.
      So, by the second ensures, a chain that fails on its ends, on polarity,
      on a cyclic to_seg that is not the last segment, on a bad from_seg or on
      too few max_sites gets the same verdict with expert; the third spells
      out the to_seg case. */
  lemma ExpertKeepsHardChecks(segs: seq<Segment>, crit: Criteria, sameBodies: (nat, nat) -> bool)
    ensures var r := Verdict(segs, crit, true, sameBodies);
      r.Failure? ==> r.error != MatchlastOutOfRange && r.error != MatchlastBodiesDiffer && !r.error.NotEnoughSitesInAll?
    ensures var r := Verdict(segs, crit, false, sameBodies);
      Verdict(segs, crit, true, sameBodies) != r ==>
        r.Failure? && (r.error == MatchlastOutOfRange || r.error == MatchlastBodiesDiffer || r.error.NotEnoughSitesInAll?)
    ensures |segs| >= 1 && segs[0].entrypol == NoPol && segs[|segs| - 1].exitpol == NoPol && ChainOk(segs)
      && crit.isCyclic && crit.toSeg != -1 && crit.toSeg != |segs| - 1
      ==> Verdict(segs, crit, true, sameBodies) == Failure(CyclicToSegNotLast)
  {
  }
}
