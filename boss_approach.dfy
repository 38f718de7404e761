/** The boss-approach scene: screen shakes near six fixed progress points
    with an intensity growing with progress, and a four-phase cascade that
    ends with the boss-name reveal and the battle prompt. */
module BossApproach {
  import opened Common
  import opened Thresholds

  const ShakePoints: seq<real> := [0.2, 0.35, 0.5, 0.65, 0.8, 0.95]

  /** Half-width of the window around a shake point, strict on both sides. */
  const ShakeWindow: real := 0.04

  predicate NearShakePoint(progress: real, i: nat)
    requires i < |ShakePoints|
  {
    Abs(progress - ShakePoints[i]) < ShakeWindow
  }

  /** The `some` over the shake points. */
  predicate IsShaking(progress: real) {
    exists i :: 0 <= i < |ShakePoints| && NearShakePoint(progress, i)
  }

  /** `6 + 8p` while shaking, 0 otherwise. */
  function ShakeIntensity(progress: real): (s: real)
    ensures !IsShaking(progress) ==> s == 0.0
    ensures IsShaking(progress) && 0.0 <= progress ==> 6.0 <= s
  {
    if IsShaking(progress) then 6.0 + progress * 8.0 else 0.0
  }

  /** Consecutive shake points are 0.15 apart. */
  lemma ShakePointsSpaced()
    ensures forall i, j :: 0 <= i < j < |ShakePoints| ==> ShakePoints[i] + 0.15 <= ShakePoints[j]
  {
  }

  /** The windows do not overlap: at most one point is near any progress. */
  lemma AtMostOneShakePoint(progress: real, i: nat, j: nat)
    requires i < |ShakePoints| && j < |ShakePoints|
    requires NearShakePoint(progress, i) && NearShakePoint(progress, j)
    ensures i == j
  {
    ShakePointsSpaced();
  }

  /** The scene opens without shaking. */
  lemma NoShakeAtStart()
    ensures !IsShaking(0.0) && ShakeIntensity(0.0) == 0.0
  {
    assert !NearShakePoint(0.0, 0);
  }

  /** Phases 1, 2 and 3 begin at these progress values. */
  const PhaseStarts: seq<real> := [0.2, 0.45, 0.7]

  /** The memoised if-cascade. */
  function Phase(progress: real): (phase: nat)
    ensures phase <= 3
  {
    if progress < 0.2 then 0
    else if progress < 0.45 then 1
    else if progress < 0.7 then 2
    else 3
  }

  /** The cascade counts the phase starts already reached. */
  lemma PhaseCountsStarts(progress: real)
    ensures Phase(progress) == Reached(PhaseStarts, progress)
  {
    ReachedIs(PhaseStarts, progress, Phase(progress));
  }

  lemma PhaseMonotone(p: real, q: real)
    requires p <= q
    ensures Phase(p) <= Phase(q)
  {
    PhaseCountsStarts(p);
    PhaseCountsStarts(q);
    ReachedMonotone(PhaseStarts, p, q);
  }

  /** The full name reveal and the battle prompt share one condition. */
  predicate RevealShown(phase: nat) {
    phase >= 3
  }

  lemma RevealFromLastPhase(progress: real)
    ensures RevealShown(Phase(progress)) <==> progress >= 0.7
  {
  }
}
