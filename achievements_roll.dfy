/** The achievements scene: six cards unlocked as progress crosses their
    thresholds, the last unlocked card selected and raised above the others,
    the details panel for the selected card, and the rarity styling. */
module AchievementsRoll {
  import opened Thresholds

  datatype Achievement = Achievement(name: string, desc: string, rarity: string, icon: string)

  const Achievements: seq<Achievement> := [
    Achievement("First Blood", "Complete your first equation", "COMMON", "I"),
    Achievement("Quick Learner", "Master 3 skills in one week", "RARE", "II"),
    Achievement("Equation Slayer", "Solve 100 equations", "EPIC", "III"),
    Achievement("Graph Master", "Perfect score on graphing test", "LEGENDARY", "IV"),
    Achievement("Untouchable", "Complete exam with no mistakes", "LEGENDARY", "V"),
    Achievement("The Saga Complete", "Finish Algebra I Semester", "MYTHIC", "VI")
  ]

  const CardCount: nat := 6

  const AchievementThresholds: seq<real> := [0.12, 0.25, 0.37, 0.50, 0.62, 0.87]

  /** Unlocked cards: the thresholds at or below the progress, capped at the number of cards. */
  function VisibleCount(progress: real): (n: nat)
    ensures n <= CardCount
  {
    var count := Reached(AchievementThresholds, progress);
    if count < CardCount then count else CardCount
  }

  /** The memoised count: the threshold scan, then the cap. */
  method CountVisible(progress: real) returns (n: nat)
    ensures n == VisibleCount(progress)
  {
    var count := CountReached(AchievementThresholds, progress);
    n := if count < CardCount then count else CardCount;
  }

  /** The cap never bites: at most six thresholds can be reached. */
  lemma VisibleCountIsReached(progress: real)
    ensures VisibleCount(progress) == Reached(AchievementThresholds, progress)
  {
  }

  /** Card k is unlocked exactly when its own threshold has been reached. */
  lemma VisibleCountByThreshold(progress: real, k: nat)
    requires k < CardCount
    ensures k < VisibleCount(progress) <==> AchievementThresholds[k] <= progress
  {
    ReachedAscending(AchievementThresholds, progress);
  }

  /** Unlocked cards stay unlocked as progress grows. */
  lemma VisibleCountMonotone(p: real, q: real)
    requires p <= q
    ensures VisibleCount(p) <= VisibleCount(q)
  {
    ReachedMonotone(AchievementThresholds, p, q);
  }

  /** `max(0, min(visibleCount - 1, 5))`: the last unlocked card, or card 0 before any is unlocked. */
  function SelectedIndex(progress: real): (i: nat)
    ensures i < CardCount
    ensures VisibleCount(progress) == 0 ==> i == 0
    ensures VisibleCount(progress) > 0 ==> i + 1 == VisibleCount(progress)
  {
    Clamp(VisibleCount(progress) - 1, 0, CardCount - 1)
  }

  /** `max(lo, min(x, hi))`. */
  function Clamp(x: int, lo: int, hi: int): (r: int)
    requires lo <= hi
    ensures lo <= r <= hi
    ensures lo <= x <= hi ==> r == x
    ensures x < lo ==> r == lo
    ensures hi < x ==> r == hi
  {
    var m := if x < hi then x else hi;
    if lo < m then m else lo
  }

  predicate IsVisible(i: nat, progress: real) {
    i < VisibleCount(progress)
  }

  /** A card is selected only when it is also unlocked. */
  predicate IsSelected(i: nat, progress: real) {
    i == SelectedIndex(progress) && IsVisible(i, progress)
  }

  /** Before the first unlock no card is selected; afterwards exactly the last unlocked one is. */
  lemma SelectionIsLastUnlocked(progress: real)
    ensures VisibleCount(progress) == 0 ==> forall i: nat :: !IsSelected(i, progress)
    ensures VisibleCount(progress) > 0 ==>
      forall i: nat :: IsSelected(i, progress) <==> i + 1 == VisibleCount(progress)
  {
  }

  function Distance(i: nat, j: nat): nat {
    if i < j then j - i else i - j
  }

  /** Stacking order: 15 for the selected card, `10 - |i - selectedIndex|` for the others. */
  function ZIndex(i: nat, progress: real): int {
    if IsSelected(i, progress) then 15 else 10 - Distance(i, SelectedIndex(progress))
  }

  /** The selected card is strictly above every other card, and the other
      cards step down with their distance from the selected index. */
  lemma SelectedCardOnTop(i: nat, j: nat, progress: real)
    requires i != j
    ensures IsSelected(i, progress) ==> ZIndex(j, progress) < ZIndex(i, progress)
    ensures !IsSelected(i, progress) && !IsSelected(j, progress) ==>
      (ZIndex(i, progress) < ZIndex(j, progress) <==>
       Distance(j, SelectedIndex(progress)) < Distance(i, SelectedIndex(progress)))
  {
  }

  /** The details panel of the selected card. */
  predicate DetailsShown(progress: real) {
    VisibleCount(progress) > 0
  }

  /** The panel appears with the first unlock, and then always describes a selected card. */
  lemma DetailsShownIffFirstUnlock(progress: real)
    ensures DetailsShown(progress) <==> progress >= 0.12
    ensures DetailsShown(progress) ==> IsSelected(SelectedIndex(progress), progress)
  {
    VisibleCountByThreshold(progress, 0);
  }

  const DefaultColor: string := "border-foreground/30"
  const DefaultBg: string := "bg-foreground/5"

  /** The known rarities, in ascending order. */
  const Rarities: seq<string> := ["COMMON", "RARE", "EPIC", "LEGENDARY", "MYTHIC"]

  /** Border and text classes of a rarity; an unknown rarity gets the plain border. */
  function RarityColor(rarity: string): string {
    match rarity
    case "COMMON" => "border-foreground/30 text-foreground/60"
    case "RARE" => "border-blue-500 text-blue-400"
    case "EPIC" => "border-purple-500 text-purple-400"
    case "LEGENDARY" => "border-accent text-accent"
    case "MYTHIC" => "border-red-500 text-red-400"
    case _ => DefaultColor
  }

  /** Card background of a rarity; an unknown rarity gets the faint default. */
  function RarityBg(rarity: string): string {
    match rarity
    case "COMMON" => "bg-foreground/5"
    case "RARE" => "bg-blue-500/10"
    case "EPIC" => "bg-purple-500/10"
    case "LEGENDARY" => "bg-accent/10"
    case "MYTHIC" => "bg-gradient-to-br from-red-500/20 via-purple-500/20 to-accent/20"
    case _ => DefaultBg
  }

  /** Every known rarity gets its own colour, different from the default. */
  lemma RarityColorsDistinct()
    ensures forall i, j :: 0 <= i < j < |Rarities| ==> RarityColor(Rarities[i]) != RarityColor(Rarities[j])
    ensures forall i :: 0 <= i < |Rarities| ==> RarityColor(Rarities[i]) != DefaultColor
  {
  }

  /** Known rarities get distinct backgrounds; the default background is COMMON's. */
  lemma RarityBgsDistinct()
    ensures forall i, j :: 0 <= i < j < |Rarities| ==> RarityBg(Rarities[i]) != RarityBg(Rarities[j])
    ensures RarityBg("COMMON") == DefaultBg
  {
  }

  /** Any string outside the known rarities falls through to the defaults. */
  lemma UnknownRarityGetsDefault(rarity: string)
    requires rarity !in Rarities
    ensures RarityColor(rarity) == DefaultColor && RarityBg(rarity) == DefaultBg
  {
  }

  /** Every achievement in the table has a known rarity. */
  lemma AchievementRaritiesKnown()
    ensures forall i :: 0 <= i < |Achievements| ==> Achievements[i].rarity in Rarities
    ensures |Achievements| == CardCount
  {
  }
}
