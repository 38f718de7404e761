/** The final scene: a four-phase cascade (look forward, teaser, credits)
    and a paint-splatter list rebuilt from progress once it passes 0.3, with
    ids in order and colours cycling through a seven-colour palette. */
module FinalCinematic {
  import opened Thresholds

  /** Phases 1, 2 and 3 begin at these progress values. */
  const PhaseStarts: seq<real> := [0.2, 0.5, 0.8]

  /** The effect's if-cascade. */
  function Phase(progress: real): (phase: nat)
    ensures phase <= 3
  {
    if progress < 0.2 then 0
    else if progress < 0.5 then 1
    else if progress < 0.8 then 2
    else 3
  }

  /** The cascade counts the phase starts already reached. */
  lemma PhaseCountsStarts(progress: real)
    ensures Phase(progress) == Reached(PhaseStarts, progress)
  {
    ReachedIs(PhaseStarts, progress, Phase(progress));
  }

  lemma PhaseMonotone(p: real, q: real)
    requires p <= q
    ensures Phase(p) <= Phase(q)
  {
    PhaseCountsStarts(p);
    PhaseCountsStarts(q);
    ReachedMonotone(PhaseStarts, p, q);
  }

  /** The colourful background replaces the dark one from phase 2 on. */
  predicate ColorfulBackground(phase: nat) {
    phase >= 2
  }

  lemma ColorfulFromHalfway(progress: real)
    ensures ColorfulBackground(Phase(progress)) <==> progress >= 0.5
  {
  }

  /** Splatters appear only after this progress. */
  const SplatterStart: real := 0.3

  const Colors: seq<string> := ["#dc2626", "#2563eb", "#16a34a", "#eab308", "#ec4899", "#8b5cf6", "#06b6d4"]

  /** One splatter; its position and size are random and not modelled. */
  datatype Splatter = Splatter(id: nat, color: string)

  /** `floor((p - 0.3) * 30)`, over the reals. */
  function SplatterCount(progress: real): (count: nat)
    requires progress > SplatterStart
  {
    ((progress - SplatterStart) * 30.0).Floor
  }

  /** The count grows with progress and stays at most 21 within the scene. */
  lemma SplatterCountBounds(p: real, q: real)
    requires SplatterStart < p <= q
    ensures SplatterCount(p) <= SplatterCount(q)
    ensures q <= 1.0 ==> SplatterCount(q) <= 21
  {
    assert (p - SplatterStart) * 30.0 <= (q - SplatterStart) * 30.0;
  }

  /** A list is in build order: entry i has id i and the i-th colour, cyclically. */
  predicate InBuildOrder(splatters: seq<Splatter>) {
    forall i :: 0 <= i < |splatters| ==> splatters[i] == Splatter(i, Colors[i % |Colors|])
  }

  /** The `push` loop building `count` splatters. */
  method BuildSplatters(count: nat) returns (splatters: seq<Splatter>)
    ensures |splatters| == count && InBuildOrder(splatters)
  {
    splatters := [];
    for i := 0 to count
      invariant |splatters| == i && InBuildOrder(splatters)
    {
      splatters := splatters + [Splatter(i, Colors[i % |Colors|])];
    }
  }

  /** Colours repeat every seven entries, and ids are distinct. */
  lemma BuildOrderCycles(splatters: seq<Splatter>, i: nat, j: nat)
    requires InBuildOrder(splatters) && i < j < |splatters|
    ensures splatters[i].id != splatters[j].id
    ensures j == i + |Colors| ==> splatters[i].color == splatters[j].color
  {
  }

  class FinalScene {
    var phase: nat
    var paintSplatters: seq<Splatter>

    ghost predicate Valid()
      reads this
    {
      phase <= 3 && InBuildOrder(paintSplatters)
    }

    constructor ()
      ensures Valid() && phase == 0 && paintSplatters == []
    {
      phase := 0;
      paintSplatters := [];
    }

    /** The progress effect: set the phase; past 0.3 replace the list by a
        freshly built one of the current count, otherwise leave it alone. */
    method Update(progress: real)
      requires Valid()
      modifies this
      ensures Valid()
      ensures phase == Phase(progress)
      ensures progress > SplatterStart ==> |paintSplatters| == SplatterCount(progress)
      ensures progress <= SplatterStart ==> paintSplatters == old(paintSplatters)
    {
      if progress < 0.2 {
        phase := 0;
      } else if progress < 0.5 {
        phase := 1;
      } else if progress < 0.8 {
        phase := 2;
      } else {
        phase := 3;
      }
      if progress > SplatterStart {
        var count := ((progress - SplatterStart) * 30.0).Floor;
        paintSplatters := BuildSplatters(count);
      }
    }
  }
}
