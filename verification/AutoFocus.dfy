/**
 * The contrast autofocus: a coarse sweep, then a hill climb with a shrinking
 * step, over any fixed focus curve. A failed probe reads -1.
 */
module AutoFocus {
  import opened Numbers

  const FOCUS_MIN := 0
  const FOCUS_MAX := 1023

  type Curve = int -> real

  datatype Sample = Sample(pos: int, fv: real)

  // Where set_focus leaves the lens.
  function LensAt(pos: int): int { Max(FOCUS_MIN, Min(pos, FOCUS_MAX)) }

  predicate OnLens(pos: int) { FOCUS_MIN <= pos <= FOCUS_MAX }

  /** The coarse sweep. */

  predicate IsCoarse(pos: int) { OnLens(pos) && pos % 128 == 0 }

  // The spread test in floating point: a division by zero gives an infinity or
  // no number, and neither is below 1.05.
  predicate Unreliable(best: real, worst: real) {
    worst != 0.0 && best / worst < 1.05
  }

  const NEVER := 1000000000000000000000000000000.0

  // hi and lo are the extremes of the sweep, from their initial values.
  ghost predicate Spread(f: Curve, hi: real, lo: real) {
    && (forall q :: IsCoarse(q) ==> lo <= f(q) <= hi)
    && -1.0 <= hi && (hi == -1.0 || exists q :: IsCoarse(q) && f(q) == hi)
    && lo <= NEVER && (lo == NEVER || exists q :: IsCoarse(q) && f(q) == lo)
  }

  method Sweep(f: Curve) returns (best: Sample, worst: real)
    ensures Spread(f, best.fv, worst)
    ensures best == Sample(-1, -1.0) || (IsCoarse(best.pos) && best.fv == f(best.pos) && best.fv > -1.0)
  {
    best, worst := Sample(-1, -1.0), NEVER;
    var pos := FOCUS_MIN;
    while pos <= FOCUS_MAX
      invariant FOCUS_MIN <= pos && pos % 128 == 0
      invariant forall q :: IsCoarse(q) && q < pos ==> worst <= f(q) <= best.fv
      invariant best == Sample(-1, -1.0) || (IsCoarse(best.pos) && best.fv == f(best.pos) && best.fv > -1.0)
      invariant worst == NEVER || exists q :: IsCoarse(q) && f(q) == worst
      invariant worst <= NEVER
      decreases FOCUS_MAX + 128 - pos
    {
      var s := Sample(pos, f(pos));
      assert IsCoarse(pos);
      if s.fv > best.fv { best := s; }
      if s.fv < worst { worst := s.fv; }
      forall q | IsCoarse(q) && q < pos + 128 ensures q <= pos {
        NextMultiple(pos, q);
      }
      pos := pos + 128;
    }
  }

  lemma NextMultiple(pos: int, q: int)
    requires pos % 128 == 0 && q % 128 == 0 && q < pos + 128
    ensures q <= pos
  {
  }

  /** The refinement. */

  predicate Probed(best: int, step: int, q: int) {
    OnLens(q) && (q == best - step || q == best - step / 2 || q == best + step / 2 || q == best + step)
  }

  // One round: the best of the four points around best, at step and half step.
  method Round(f: Curve, best: Sample, step: int) returns (local: Sample)
    requires OnLens(best.pos) && best.fv == f(best.pos) && 4 <= step && step % 2 == 0
    ensures local == best || (Probed(best.pos, step, local.pos) && local.fv == f(local.pos) && local.fv > best.fv)
    ensures forall q :: Probed(best.pos, step, q) ==> f(q) <= local.fv
  {
    local := best;
    var i := 0;
    var pos := best.pos - step;
    while pos <= best.pos + step
      invariant 0 <= i <= 5 && pos == best.pos - step + i * (step / 2)
      invariant local == best || (Probed(best.pos, step, local.pos) && local.fv == f(local.pos) && local.fv > best.fv)
      invariant local.fv >= best.fv
      invariant forall q :: Probed(best.pos, step, q) && q < pos ==> f(q) <= local.fv
      decreases 5 - i
    {
      FivePoints(best.pos, step, pos, i);
      if OnLens(pos) && pos != best.pos {
        var s := Sample(pos, f(pos));
        if s.fv > local.fv { local := s; }
      }
      pos := pos + step / 2;
      i := i + 1;
    }
  }

  lemma FivePoints(best: int, step: int, pos: int, i: int)
    requires 4 <= step && step % 2 == 0 && 0 <= i && pos == best - step + i * (step / 2) && pos <= best + step
    ensures i < 5
    ensures OnLens(pos) && pos != best ==> Probed(best, step, pos)
    ensures forall q :: Probed(best, step, q) && q < pos + step / 2 ==> q <= pos
  {
    var half := step / 2;
    assert step == 2 * half;
    assert i >= 5 ==> i * half >= 5 * half;
  }

  // The positions a climb can still move to.
  ghost function Better(f: Curve, fv: real): set<int> {
    set q | FOCUS_MIN <= q <= FOCUS_MAX && f(q) > fv
  }

  lemma BetterShrinks(f: Curve, was: real, now: Sample)
    requires OnLens(now.pos) && now.fv == f(now.pos) && now.fv > was
    ensures Better(f, now.fv) < Better(f, was)
  {
    assert now.pos in Better(f, was) && now.pos !in Better(f, now.fv);
  }

  predicate Neighbour(pos: int, q: int) {
    OnLens(q) && (q == pos - 4 || q == pos - 2 || q == pos + 2 || q == pos + 4)
  }

  // The positions one round probes around best.
  ghost function RoundSet(best: int, step: int): set<int> {
    set q | FOCUS_MIN <= q <= FOCUS_MAX && Probed(best, step, q)
  }

  lemma ProbedInRound(best: int, step: int, q: int)
    requires Probed(best, step, q) && best % 2 == 0 && step % 4 == 0
    ensures q in RoundSet(best, step) && q % 2 == 0
  {
    var k, quarter := best / 2, step / 4;
    assert best == 2 * k && step == 4 * quarter && step / 2 == 2 * quarter;
    assert q == 2 * (k - 2 * quarter) || q == 2 * (k - quarter) || q == 2 * (k + quarter) || q == 2 * (k + 2 * quarter);
  }

  // No position of the set is off the lens or better than fv.
  ghost predicate NoneBetter(f: Curve, seen: set<int>, fv: real) {
    forall q :: q in seen ==> OnLens(q) && f(q) <= fv
  }

  lemma NoneBetterGrows(f: Curve, seen: set<int>, best: Sample, local: Sample, step: int)
    requires NoneBetter(f, seen, best.fv) && best.fv <= local.fv
    requires forall q :: Probed(best.pos, step, q) ==> f(q) <= local.fv
    ensures NoneBetter(f, seen + RoundSet(best.pos, step), local.fv)
  {
  }

  lemma LastRoundNeighbours(pos: int)
    ensures forall q :: Neighbour(pos, q) ==> q in RoundSet(pos, 4)
  {
  }

  predicate IsStep(step: int) { step in {4, 8, 16, 32, 64, 128} }

  // At this step some centre was probed all around and nothing there was better.
  ghost predicate Settled(f: Curve, seen: set<int>, step: int) {
    exists c :: OnLens(c) && RoundSet(c, step) <= seen && NoneBetter(f, RoundSet(c, step), f(c))
  }

  lemma SettledLater(f: Curve, seen: set<int>, more: set<int>, above: int)
    requires seen <= more && forall s :: IsStep(s) && s > above ==> Settled(f, seen, s)
    ensures forall s :: IsStep(s) && s > above ==> Settled(f, more, s)
  {
    hide RoundSet, NoneBetter;
    forall s | IsStep(s) && s > above ensures Settled(f, more, s) {
      assert Settled(f, seen, s);
    }
  }

  lemma SettledNow(f: Curve, best: Sample, step: int, seen: set<int>)
    requires OnLens(best.pos) && best.fv == f(best.pos) && RoundSet(best.pos, step) <= seen
    requires forall q :: Probed(best.pos, step, q) ==> f(q) <= best.fv
    ensures Settled(f, seen, step)
  {
    assert NoneBetter(f, RoundSet(best.pos, step), f(best.pos));
  }

  // Climbs while some probed point is better, else halves the step. seen: every
  // position probed in any round, the last one around the result at step four.
  method Refine(f: Curve, start: Sample) returns (best: Sample, ghost seen: set<int>)
    requires OnLens(start.pos) && start.fv == f(start.pos) && start.pos % 2 == 0
    ensures OnLens(best.pos) && best.fv == f(best.pos) && best.fv >= start.fv && best.pos % 2 == 0
    ensures best.pos == start.pos || best.pos in seen
    ensures NoneBetter(f, seen, best.fv)
    ensures RoundSet(start.pos, 128) + RoundSet(best.pos, 4) <= seen
    ensures forall s :: IsStep(s) ==> Settled(f, seen, s)
  {
    best, seen := start, {};
    var step := 128;
    while step >= 4
      invariant step in {2, 4, 8, 16, 32, 64, 128}
      invariant OnLens(best.pos) && best.fv == f(best.pos) && best.fv >= start.fv && best.pos % 2 == 0
      invariant best.pos == start.pos || best.pos in seen
      invariant NoneBetter(f, seen, best.fv)
      invariant step == 2 ==> RoundSet(best.pos, 4) <= seen
      invariant forall s :: IsStep(s) && s > step ==> Settled(f, seen, s)
      invariant (step == 128 && best == start) || RoundSet(start.pos, 128) <= seen
      decreases Better(f, best.fv), step
    {
      hide NoneBetter, RoundSet, Probed, Better, Settled;
      var local := Round(f, best, step);
      NoneBetterGrows(f, seen, best, local, step);
      SettledLater(f, seen, seen + RoundSet(best.pos, step), step);
      seen := seen + RoundSet(best.pos, step);
      if local.fv > best.fv {
        BetterShrinks(f, best.fv, local);
        ProbedInRound(best.pos, step, local.pos);
        best := local;
      } else {
        SettledNow(f, best, step, seen);
        step := step / 2;
      }
    }
  }

  /** The whole run. */

  datatype Outcome = Outcome(best: Sample, reliable: bool, lens: int)

  // Strictly rising to the peak, strictly falling after it.
  ghost predicate StrictPeak(f: Curve, peak: int) {
    && OnLens(peak)
    && (forall p, q :: FOCUS_MIN <= p < q <= peak ==> f(p) < f(q))
    && (forall p, q :: peak <= p < q <= FOCUS_MAX ==> f(p) > f(q))
  }

  ghost function CoarseSet(): set<int> {
    set q | FOCUS_MIN <= q <= FOCUS_MAX && IsCoarse(q)
  }

  // The loop takes eight points, the last one at 896.
  lemma EightCoarsePoints()
    ensures CoarseSet() == {0, 128, 256, 384, 512, 640, 768, 896} && |CoarseSet()| == 8
    ensures 896 in CoarseSet() && forall q :: q in CoarseSet() ==> q <= 896
  {
    forall q | q in CoarseSet() ensures q in {0, 128, 256, 384, 512, 640, 768, 896} {
      assert q == 128 * (q / 128) && 0 <= q / 128 <= 7;
    }
    assert CoarseSet() == {0, 128, 256, 384, 512, 640, 768, 896};
  }

  // What a run that passed the spread test promises.
  ghost predicate Focused(f: Curve, r: Outcome, seen: set<int>) {
    && r.best.pos in seen && r.lens == r.best.pos && r.best.fv == f(r.best.pos) && r.best.pos % 2 == 0
    && (forall q :: Neighbour(r.best.pos, q) ==> q in seen)
    && (forall s :: IsStep(s) ==> Settled(f, seen, s))
  }

  // seen: every position the sweep and the refinement probed. The peak of a
  // strictly unimodal curve is met when it is even and missed by exactly one when it
  // is odd: every probed position is even.
  method Focus(f: Curve) returns (r: Outcome, ghost seen: set<int>)
    ensures r.lens == LensAt(r.best.pos)
    ensures CoarseSet() <= seen && forall q :: q in seen ==> OnLens(q) && f(q) <= r.best.fv
    ensures r.reliable ==> Focused(f, r, seen)
    ensures !r.reliable ==> r.best == Sample(-1, -1.0) || (r.best.pos in seen && r.best.fv == f(r.best.pos))
    ensures forall hi, lo :: Spread(f, hi, lo) ==> (r.reliable <==> !Unreliable(hi, lo))
    ensures (exists q :: IsCoarse(q) && f(q) < 0.0) ==> !r.reliable
    ensures forall hi, lo :: Spread(f, hi, lo) ==> (r.reliable <==> lo == 0.0 || (lo > 0.0 && 20.0 * hi >= 21.0 * lo))
    ensures forall peak :: r.reliable && StrictPeak(f, peak) ==>
              -1 <= r.lens - peak <= 1 && (r.lens == peak <==> peak % 2 == 0)
  {
    hide Unreliable, Spread, StrictPeak, IsCoarse, Probed, CoarseSet, RoundSet, Neighbour, Settled;
    var best, worst := Sweep(f);
    seen := CoarseSet();
    SweptBounds(f, best.fv, worst);
    SpreadUnique(f, best.fv, worst);
    NegativeSamplesAreUnreliable(f, best.fv, worst);
    SpreadTest(f, best.fv, worst);
    if Unreliable(best.fv, worst) {
      if best != Sample(-1, -1.0) { SweptInCoarse(best); }
      return Outcome(best, false, LensAt(best.pos)), seen;
    }
    SweptSome(f, best, worst);
    ghost var probed: set<int>;
    best, probed := Refine(f, best);
    SettledLater(f, probed, seen + probed, 0);
    seen := seen + probed;
    LastRoundNeighbours(best.pos);
    NeighboursBoundPeak(f, best, seen);
    return Outcome(best, true, LensAt(best.pos)), seen;
  }

  lemma SweptBounds(f: Curve, hi: real, lo: real)
    requires Spread(f, hi, lo)
    ensures NoneBetter(f, CoarseSet(), hi)
  {
  }

  lemma SpreadUnique(f: Curve, hi: real, lo: real)
    requires Spread(f, hi, lo)
    ensures forall hi', lo' :: Spread(f, hi', lo') ==> hi == hi' && lo == lo'
  {
  }

  // A sweep that saw nothing above -1 never passes the spread test.
  lemma SweptSome(f: Curve, best: Sample, worst: real)
    requires !Unreliable(best.fv, worst)
    requires Spread(f, best.fv, worst)
    requires best == Sample(-1, -1.0) || (IsCoarse(best.pos) && best.fv == f(best.pos) && best.fv > -1.0)
    ensures best.pos in CoarseSet() && best.fv == f(best.pos) && OnLens(best.pos) && best.pos % 2 == 0
  {
    assert IsCoarse(best.pos);
  }

  lemma SweptInCoarse(best: Sample)
    requires IsCoarse(best.pos)
    ensures best.pos in CoarseSet()
  {
  }

  lemma PeakWithinOne(f: Curve, peak: int, best: Sample)
    requires StrictPeak(f, peak) && OnLens(best.pos) && best.fv == f(best.pos)
    requires forall q :: Neighbour(best.pos, q) ==> f(q) <= best.fv
    ensures -1 <= best.pos - peak <= 1
  {
    if best.pos + 2 <= peak {
      assert Neighbour(best.pos, best.pos + 2);
    } else if peak + 2 <= best.pos {
      assert Neighbour(best.pos, best.pos - 2);
    }
  }

  lemma NeighboursBoundPeak(f: Curve, best: Sample, seen: set<int>)
    requires OnLens(best.pos) && best.fv == f(best.pos)
    requires NoneBetter(f, seen, best.fv) && (forall q :: Neighbour(best.pos, q) ==> q in seen)
    requires best.pos % 2 == 0
    ensures forall peak :: StrictPeak(f, peak) ==>
              -1 <= best.pos - peak <= 1 && (best.pos == peak <==> peak % 2 == 0)
  {
    forall peak | StrictPeak(f, peak) ensures -1 <= best.pos - peak <= 1 && (best.pos == peak <==> peak % 2 == 0) {
      PeakWithinOne(f, peak, best);
    }
  }

  // A failed coarse probe, or any negative sample, makes every sweep unreliable: the
  // quotient of best and worst is at most one.
  lemma NegativeSampleIsUnreliable(f: Curve, hi: real, lo: real, q: int)
    requires Spread(f, hi, lo) && IsCoarse(q) && f(q) < 0.0
    ensures Unreliable(hi, lo)
  {
    assert lo <= f(q) <= hi;
    QuotientAtMostOne(hi, lo);
  }

  lemma NegativeSamplesAreUnreliable(f: Curve, hi: real, lo: real)
    requires Spread(f, hi, lo)
    ensures (exists q :: IsCoarse(q) && f(q) < 0.0) ==> Unreliable(hi, lo)
  {
    forall q | IsCoarse(q) && f(q) < 0.0 ensures Unreliable(hi, lo) {
      NegativeSampleIsUnreliable(f, hi, lo, q);
    }
  }

  // The test by the numbers: 5 % between best and worst.
  lemma SpreadTest(f: Curve, hi: real, lo: real)
    requires Spread(f, hi, lo)
    ensures !Unreliable(hi, lo) <==> lo == 0.0 || (lo > 0.0 && 20.0 * hi >= 21.0 * lo)
  {
    assert IsCoarse(0) && lo <= f(0) <= hi;
    hide Spread;
    if lo < 0.0 {
      QuotientAtMostOne(hi, lo);
    } else if lo > 0.0 {
      QuotientTest(hi, lo);
    }
  }

  lemma QuotientTest(hi: real, lo: real)
    requires lo > 0.0
    ensures hi / lo < 1.05 <==> 20.0 * hi < 21.0 * lo
  {
    var r := hi / lo;
    assert r * lo == hi;
    assert r < 1.05 ==> (1.05 - r) * lo > 0.0;
    assert r >= 1.05 ==> (r - 1.05) * lo >= 0.0;
  }

  lemma QuotientAtMostOne(hi: real, lo: real)
    requires lo <= hi && lo < 0.0
    ensures hi / lo <= 1.0
  {
    var r := hi / lo;
    assert r * lo == hi;
    assert r > 1.0 ==> (r - 1.0) * lo < 0.0;
  }
}
