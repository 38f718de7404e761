/** The victory scene: a four-phase cascade, an XP counter that eases out
    (cubic) from 0 to 15847 over progress 0.12..0.72, and the rank reveal. */
module VictorySequence {
  import opened Common
  import opened Thresholds

  /** Phases 1, 2 and 3 begin at these progress values. */
  const PhaseStarts: seq<real> := [0.12, 0.35, 0.65]

  /** The memoised if-cascade. */
  function Phase(progress: real): (phase: nat)
    ensures phase <= 3
  {
    if progress < 0.12 then 0
    else if progress < 0.35 then 1
    else if progress < 0.65 then 2
    else 3
  }

  /** The cascade counts the phase starts already reached. */
  lemma PhaseCountsStarts(progress: real)
    ensures Phase(progress) == Reached(PhaseStarts, progress)
  {
    ReachedIs(PhaseStarts, progress, Phase(progress));
  }

  lemma PhaseMonotone(p: real, q: real)
    requires p <= q
    ensures Phase(p) <= Phase(q)
  {
    PhaseCountsStarts(p);
    PhaseCountsStarts(q);
    ReachedMonotone(PhaseStarts, p, q);
  }

  const TargetXp: nat := 15847

  /** The counter starts at this progress and runs for `XpSpan`. */
  const XpStart: real := 0.12
  const XpSpan: real := 0.6

  /** `min((p - 0.12) / 0.6, 1)`. */
  function XpProgress(progress: real): (x: real)
    ensures XpStart <= progress ==> 0.0 <= x <= 1.0
    ensures x == 1.0 <==> progress >= XpStart + XpSpan
  {
    Min((progress - XpStart) / XpSpan, 1.0)
  }

  function Cube(y: real): real {
    y * y * y
  }

  /** Cubic ease-out, `1 - (1 - x)^3`. */
  function Eased(x: real): (e: real)
    requires 0.0 <= x <= 1.0
    ensures 0.0 <= e <= 1.0
    ensures x == 1.0 ==> e == 1.0
  {
    CubeBounds(1.0 - x);
    1.0 - Cube(1.0 - x)
  }

  lemma CubeBounds(y: real)
    requires 0.0 <= y <= 1.0
    ensures 0.0 <= Cube(y) <= 1.0
  {
    UnitProduct(y, y);
    UnitProduct(y * y, y);
  }

  /** A product of two values in [0, 1] lies between 0 and either of them. */
  lemma UnitProduct(x: real, y: real)
    requires 0.0 <= x <= 1.0 && 0.0 <= y <= 1.0
    ensures 0.0 <= x * y <= y
  {
    ProductMonotone(0.0, x, y);
    assert 0.0 * y == 0.0;
    ProductMonotone(x, 1.0, y);
    assert 1.0 * y == y;
  }

  /** `a <= b` and `c >= 0` give `a c <= b c`. */
  lemma ProductMonotone(a: real, b: real, c: real)
    requires a <= b && 0.0 <= c
    ensures a * c <= b * c
  {
    assert (b - a) * c >= 0.0;
  }

  lemma {:induction false} CubeMonotone(a: real, b: real)
    requires 0.0 <= a <= b
    ensures Cube(a) <= Cube(b)
  {
    var aa, bb := a * a, b * b;
    ProductMonotone(a, b, a);
    ProductMonotone(a, b, b);
    assert b * a == a * b;
    assert aa <= bb;
    ProductMonotone(aa, bb, a);
    ProductMonotone(a, b, bb);
    assert bb * a == a * bb;
    assert Cube(a) == aa * a && Cube(b) == bb * b;
  }

  lemma EasedMonotone(x: real, y: real)
    requires 0.0 <= x <= y <= 1.0
    ensures Eased(x) <= Eased(y)
  {
    CubeMonotone(1.0 - y, 1.0 - x);
  }

  /** The XP counter: 0 before 0.12, then `floor(eased * 15847)`. */
  function XpCount(progress: real): (xp: int)
    ensures 0 <= xp <= TargetXp
    ensures progress < XpStart ==> xp == 0
    ensures progress >= XpStart + XpSpan ==> xp == TargetXp
  {
    if progress < XpStart then 0
    else
      var e := Eased(XpProgress(progress));
      ProductMonotone(e, 1.0, TargetXp as real);
      (e * TargetXp as real).Floor
  }

  /** The counter never runs backwards as progress grows. */
  lemma XpCountMonotone(p: real, q: real)
    requires p <= q
    ensures XpCount(p) <= XpCount(q)
  {
    if XpStart <= p {
      assert XpProgress(p) <= XpProgress(q);
      EasedMonotone(XpProgress(p), XpProgress(q));
      ProductMonotone(Eased(XpProgress(p)), Eased(XpProgress(q)), TargetXp as real);
    }
  }

  /** The rank letter shows strictly after 0.45. */
  predicate RankRevealed(progress: real) {
    progress > 0.45
  }

  /** The rank is hidden through phase 1 and shown throughout phase 3. */
  lemma RankRevealedWithinPhases(progress: real)
    ensures RankRevealed(progress) ==> Phase(progress) >= 2
    ensures Phase(progress) == 3 ==> RankRevealed(progress)
  {
  }
}
