/** The intro scene: a five-phase cascade and the four layers it shows in
    turn — the studio card, the title card, the chapter card and the fade
    to black. */
module Intro {
  import opened Thresholds

  /** Phases 1..4 begin at these progress values. */
  const PhaseStarts: seq<real> := [0.15, 0.4, 0.65, 0.88]

  /** The memoised if-cascade. */
  function Phase(progress: real): (phase: nat)
    ensures phase <= 4
  {
    if progress < 0.15 then 0
    else if progress < 0.4 then 1
    else if progress < 0.65 then 2
    else if progress < 0.88 then 3
    else 4
  }

  /** The cascade counts the phase starts already reached. */
  lemma PhaseCountsStarts(progress: real)
    ensures Phase(progress) == Reached(PhaseStarts, progress)
  {
    ReachedIs(PhaseStarts, progress, Phase(progress));
  }

  lemma PhaseMonotone(p: real, q: real)
    requires p <= q
    ensures Phase(p) <= Phase(q)
  {
    PhaseCountsStarts(p);
    PhaseCountsStarts(q);
    ReachedMonotone(PhaseStarts, p, q);
  }

  /** The studio card phase ends at 0.15 and the last phase begins at 0.88. */
  lemma FirstAndLastPhase(progress: real)
    ensures Phase(progress) == 0 <==> progress < 0.15
    ensures Phase(progress) == 4 <==> progress >= 0.88
  {
  }

  /** The layers, each fully opaque in its own phases and transparent otherwise. */
  datatype Layer = StudioCard | TitleCard | ChapterCard | FadeOut

  predicate Opaque(layer: Layer, phase: nat) {
    match layer
    case StudioCard => phase == 0
    case TitleCard => phase == 1 || phase == 2
    case ChapterCard => phase == 3
    case FadeOut => phase == 4
  }

  /** Exactly one layer is opaque at any progress. */
  lemma OneLayerAtATime(progress: real, a: Layer, b: Layer)
    requires Opaque(a, Phase(progress)) && Opaque(b, Phase(progress))
    ensures a == b
  {
  }

  lemma SomeLayerShown(progress: real)
    ensures exists layer :: Opaque(layer, Phase(progress))
  {
    var phase := Phase(progress);
    if phase == 0 {
      assert Opaque(StudioCard, phase);
    } else if phase <= 2 {
      assert Opaque(TitleCard, phase);
    } else if phase == 3 {
      assert Opaque(ChapterCard, phase);
    } else {
      assert Opaque(FadeOut, phase);
    }
  }

  /** Each layer's progress interval. */
  lemma LayerIntervals(progress: real)
    ensures Opaque(StudioCard, Phase(progress)) <==> progress < 0.15
    ensures Opaque(TitleCard, Phase(progress)) <==> 0.15 <= progress < 0.65
    ensures Opaque(ChapterCard, Phase(progress)) <==> 0.65 <= progress < 0.88
    ensures Opaque(FadeOut, Phase(progress)) <==> 0.88 <= progress
  {
  }
}
