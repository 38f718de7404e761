/** The skills scene: six skill cards revealed one by one as progress
    crosses their thresholds, the last revealed card selected, the HUD shown
    after a short delay and the "Skill Master" popup once every card is in. */
module GameplaySkills {
  import opened Thresholds
  import opened Cursor

  datatype Level = Mastered | AdvancedLevel

  datatype Skill = Skill(name: string, level: Level, xp: nat, icon: string)

  const Skills: seq<Skill> := [
    Skill("Linear Equations", Mastered, 2500, "f(x)"),
    Skill("Graphing", Mastered, 2200, "xy"),
    Skill("Slope-Intercept", Mastered, 2800, "m"),
    Skill("Systems of Equations", AdvancedLevel, 1900, "sys"),
    Skill("Substitution", Mastered, 2400, "sub"),
    Skill("Elimination", Mastered, 2600, "elim")
  ]

  /** Card i appears once progress reaches `SkillThresholds[i]`. */
  const SkillThresholds: seq<real> := [0.08, 0.18, 0.28, 0.48, 0.68, 0.88]

  /** The HUD slides in strictly after this progress. */
  const HudDelay: real := 0.03

  /** Number of revealed cards: the thresholds at or below the progress. */
  function VisibleSkills(progress: real): (n: nat)
    ensures n <= |Skills|
  {
    Reached(SkillThresholds, progress)
  }

  /** The memoised counting loop over the thresholds. */
  method CountVisibleSkills(progress: real) returns (count: nat)
    ensures count == VisibleSkills(progress)
  {
    count := CountReached(SkillThresholds, progress);
  }

  /** Card k is revealed exactly when its own threshold has been reached. */
  lemma VisibleSkillsByThreshold(progress: real, k: nat)
    requires k < |Skills|
    ensures k < VisibleSkills(progress) <==> SkillThresholds[k] <= progress
  {
    ReachedAscending(SkillThresholds, progress);
  }

  /** Cards never disappear as progress grows. */
  lemma VisibleSkillsMonotone(p: real, q: real)
    requires p <= q
    ensures VisibleSkills(p) <= VisibleSkills(q)
  {
    ReachedMonotone(SkillThresholds, p, q);
  }

  /** The selected card: the last revealed one, or -1 before any is revealed. */
  function SelectedSkill(progress: real): (s: int)
    ensures -1 <= s < |Skills|
    ensures s == -1 <==> VisibleSkills(progress) == 0
    ensures 0 <= s ==> s + 1 == VisibleSkills(progress)
  {
    var n := VisibleSkills(progress);
    if n > 0 then n - 1 else -1
  }

  predicate IsVisible(i: nat, progress: real) {
    i < VisibleSkills(progress)
  }

  predicate IsSelected(i: nat, progress: real) {
    i == SelectedSkill(progress)
  }

  /** The selected card, if any, is a revealed one, and every card after it is hidden. */
  lemma SelectedIsLastVisible(i: nat, progress: real)
    requires i < |Skills|
    ensures IsSelected(i, progress) ==> IsVisible(i, progress)
    ensures IsSelected(i, progress) ==> forall j :: i < j < |Skills| ==> !IsVisible(j, progress)
    ensures IsVisible(i, progress) && !IsVisible(i + 1, progress) ==> IsSelected(i, progress)
  {
  }

  predicate ShowHud(progress: real) {
    progress > HudDelay
  }

  /** The HUD is already up whenever a card is revealed. */
  lemma HudShownWithFirstCard(progress: real)
    ensures VisibleSkills(progress) > 0 ==> ShowHud(progress)
  {
    VisibleSkillsByThreshold(progress, 0);
  }

  /** The "Skill Master" popup: every card is revealed. */
  predicate PopupShown(progress: real) {
    VisibleSkills(progress) == |Skills|
  }

  /** The popup shows exactly from the last threshold on. */
  lemma PopupIffLastThreshold(progress: real)
    ensures PopupShown(progress) <==> progress >= 0.88
  {
    VisibleSkillsByThreshold(progress, 5);
  }

  /** The cards are revealed exactly at the click times of the skills cursor script. */
  lemma SkillThresholdsMatchCursorClicks()
    ensures ClickTimes(SkillsScript) == SkillThresholds
  {
    MiddleSkillClicks();
    assert ClickTimesFrom(SkillsScript, 3) == [0.18, 0.28, 0.48, 0.68, 0.88];
  }

  /** The clicks from the third card on. */
  lemma MiddleSkillClicks()
    ensures ClickTimesFrom(SkillsScript, 4) == [0.28, 0.48, 0.68, 0.88]
  {
    LastSkillClicks();
    assert ClickTimesFrom(SkillsScript, 7) == [0.48, 0.68, 0.88];
  }

  /** The clicks on the last two cards. */
  lemma LastSkillClicks()
    ensures ClickTimesFrom(SkillsScript, 8) == [0.68, 0.88]
  {
    assert ClickTimesFrom(SkillsScript, 11) == [0.88];
  }
}
