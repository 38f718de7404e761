# Cinematic presentation: scheduler, cursor script and scene logic

This project models the logic of a browser "cinematic presentation". The
presentation plays eight scenes in a fixed order, each for a fixed duration:
intro, origin, skills, boss approach, boss fight, victory, achievements and
final.

The page component (`presentation-fix/app/page.tsx`) does the following:
- keeps the playback state: scene index, scene progress, playing flag and
  start screen;
- advances progress from animation frames and moves to the next scene when
  a scene's time is up;
- dispatches keys and clicks;
- grows the letterbox bars;
- drives a simulated cursor from a constant table of timed waypoints per
  scene;
- draws one progress dot per scene.

Each scene component turns the scene progress (a number from 0 to 1) into
what it shows:
- phase cascades;
- reveal counters, which count the thresholds already reached;
- a typewriter that types the current narration line;
- an eased XP counter;
- a screen shake;
- a rebuilt list of paint splatters;
- in the boss fight, a combat state machine. An attack fires at most once
  per band. It has a combo counter, append-and-trim lists and a one-way
  quick-time-event latch.

The modules follow the source files:

| module | file |
|---|---|
| `Common` | small real helpers (`Min`, `Max`, `Abs`) |
| `Thresholds` | the shared "thresholds reached" count behind every cascade and reveal counter, and its counting loop |
| `Cursor` | the waypoint tables and the cursor lookup of `page.tsx` |
| `Scheduler` | the scene table and the `Presentation` class: the state, effects and handlers of `page.tsx` |
| `BossFightScene` | `boss-fight.tsx`: the `BossFight` class and the pure firing and QTE models |
| `GameplaySkills` | `gameplay-skills.tsx` |
| `AchievementsRoll` | `achievements-roll.tsx` |
| `OriginCutscene` | `origin-cutscene.tsx`: the line lookup and the `Typewriter` class |
| `FinalCinematic` | `final-cinematic.tsx`: the phase cascade and the `FinalScene` class |
| `BossApproach` | `boss-approach.tsx` |
| `VictorySequence` | `victory-sequence.tsx` |
| `Intro` | `intro.tsx` |

Modelling conventions:
- Progress is a `real`, so every property is stated over the reals.
- Durations are whole milliseconds.
- Timers are explicit pending flags, counters or queues in the classes. The
  environment fires them by calling an event method. This covers
  `setTimeout`, `setInterval` and `requestAnimationFrame`.
- Each React effect is one method. The environment calls it after the state
  it depends on has changed.

Every phase cascade and reveal counter is proved equal to one reference
definition, `Thresholds.Reached` (the number of ascending thresholds at or
below the progress). The achievement counter caps that count at 6, and
`AchievementsRoll.VisibleCountIsReached` shows the cap never changes it. Its bounds and monotonicity are proved once, by
induction.

## Model

| member | source | states |
|---|---|---|
| Thresholds.LastReached | presentation-fix/components/cinematic/boss-fight.tsx:55-59 | the scan keeping the last index whose threshold is at or below p: -1 or an index whose threshold is reached, with every later threshold above p |
| Thresholds.ReachedMonotone | presentation-fix/components/cinematic/gameplay-skills.tsx:19-24 | the count of thresholds reached never decreases as progress grows |
| Thresholds.ReachedAscending | presentation-fix/components/cinematic/gameplay-skills.tsx:19-24 | for ascending thresholds, index k is below the count exactly when threshold k is reached |
| Thresholds.LastReachedIsCountMinusOne | presentation-fix/components/cinematic/boss-fight.tsx:53-59 | for ascending thresholds the last reached index is the count of reached thresholds minus one |
| Thresholds.CountReached | presentation-fix/components/cinematic/achievements-roll.tsx:19-21 | the counting loop (one increment per threshold at or below p) returns exactly the reference count |
| Cursor.ScriptFor | presentation-fix/app/page.tsx:174 | the script lookup by scene id is empty exactly for ids missing from the table |
| Cursor.EarlyScriptsWellFormed | presentation-fix/app/page.tsx:30-67 | the intro, origin, skills and boss-approach scripts start at time 0 with strictly increasing times |
| Cursor.LateScriptsWellFormed | presentation-fix/app/page.tsx:68-103 | the boss-fight, victory, achievements and final scripts start at time 0 with strictly increasing times |
| Cursor.ScriptsWellFormed | presentation-fix/app/page.tsx:26-103 | every script in the table is well formed |
| Cursor.TargetIndex | presentation-fix/app/page.tsx:182-187 | the cursor's waypoint index is in range, is reached (or is index 0 when none is), and no later waypoint is reached |
| Cursor.ResolveTarget | presentation-fix/app/page.tsx:182-187 | the waypoint loop (start at the first waypoint, keep the last one with time at or below p) returns the waypoint at `TargetIndex` |
| Cursor.TargetIsGreatestReached | presentation-fix/app/page.tsx:182-187 | on a well-formed script with p >= 0, the waypoint chosen in list order has the greatest time at or below p |
| Cursor.TargetIndexCountsReached | presentation-fix/app/page.tsx:182-187 | on a well-formed script with p >= 0, the chosen index is the number of reached waypoints minus one |
| Cursor.HoldClearsOnRewind | presentation-fix/app/page.tsx:196-201 | `HoldReached` (some hold waypoint at or below p) is recomputed from progress, so it is not latched: the boss-fight hold is on at 0.85 and off again at 0.75 |
| Scheduler.ScenesWellFormed | presentation-fix/app/page.tsx:14-23 | scene ids are unique, every duration is positive and `RenderScene` gives every id a scene component |
| Scheduler.ScenesHaveScripts | presentation-fix/app/page.tsx:173-174 | every scene of the table has a well-formed cursor script |
| Scheduler.Progress | presentation-fix/app/page.tsx:146-148 | `min(elapsed/duration, 1)` lies in [0, 1] for elapsed >= 0, is 1 exactly when elapsed >= duration, and is 0 on the first frame |
| Scheduler.NextIndex | presentation-fix/app/page.tsx:130-135 | a forward skip adds one below the last scene, stays on the last scene, and never leaves [0, 7] |
| Scheduler.PrevIndex | presentation-fix/app/page.tsx:224-229 | a backward step subtracts one above the first scene, stays on the first, and never leaves [0, 7] |
| Scheduler.KeyDispatch | presentation-fix/app/page.tsx:232-238 | playback starts exactly on Space or Enter on the start screen; a skip happens exactly on ArrowRight (start screen included) or on Space off the start screen |
| Scheduler.DotWidthsOrdered | presentation-fix/app/page.tsx:454-460 | `DotWidth` widths are full before the current scene, partial on it and empty after it: they never increase left to right and stay within [0, 100] |
| Scheduler.TotalDotWidthIsOverallProgress | presentation-fix/app/page.tsx:446-460 | the dots together show 100 per finished scene plus the current scene's progress |
| Scheduler.Advanced | presentation-fix/app/page.tsx:205-209 | an advance either keeps progress or adds exactly one tenth, and it moves progress exactly while playing below 1 |
| Scheduler.Rewound | presentation-fix/app/page.tsx:211-215 | a rewind either keeps progress or takes away exactly one tenth, and it moves progress exactly while playing above 0 |
| Scheduler.ManualStepRange | presentation-fix/app/page.tsx:205-215 | from progress in [0, 1], an advance lands in [0, 1.1) and a rewind in (-0.1, 1] |
| Scheduler.AdvanceRewindInverse | presentation-fix/app/page.tsx:205-215 | while playing, a rewind undoes an advance from [0, 1) and an advance undoes a rewind from (0, 1] |
| Scheduler.ManualStepsDoNotClamp | presentation-fix/app/page.tsx:205-215 | one manual step can leave [0, 1]: 0.95 advances past 1 and 0.05 rewinds below 0 |
| Scheduler.LetterboxStopsAfter67Ticks | presentation-fix/app/page.tsx:121-125 | the letterbox counter stays below 1 for 66 ticks and reaches it on the 67th |
| Scheduler.Presentation.constructor | presentation-fix/app/page.tsx:106-113 | the initial state: scene 0, start screen shown, not playing, cursor at (50, 80), no timer pending |
| Scheduler.Presentation.StartCinematic | presentation-fix/app/page.tsx:116-118 | leaving the start screen arms the start timeout and cancels any frame |
| Scheduler.Presentation.StartTimeoutFires | presentation-fix/app/page.tsx:118-122 | the timeout starts playback, resets the letterbox counter, starts its interval and requests a frame |
| Scheduler.Presentation.LetterboxTick | presentation-fix/app/page.tsx:121-125 | each tick adds 0.015, shows the counter capped at 1, and keeps the interval running exactly while the counter is below 1 |
| Scheduler.Presentation.SkipToNext | presentation-fix/app/page.tsx:130-135 | below the last scene: next scene, progress 0 and a fresh frame loop; on the last scene nothing changes |
| Scheduler.Presentation.GoToNextScene | presentation-fix/app/page.tsx:217-222 | the same contract as `SkipToNext` |
| Scheduler.Presentation.GoToPrevScene | presentation-fix/app/page.tsx:224-229 | above the first scene: previous scene, progress 0 and a fresh frame loop; on the first scene nothing changes |
| Scheduler.Presentation.AdvanceProgress | presentation-fix/app/page.tsx:205-209 | progress becomes `Advanced` of the old progress, and the playback invariant is kept |
| Scheduler.Presentation.RewindProgress | presentation-fix/app/page.tsx:211-215 | progress becomes `Rewound` of the old progress, and the playback invariant is kept |
| Scheduler.Presentation.Frame | presentation-fix/app/page.tsx:145-161 | see below |
| Scheduler.Presentation.UpdateCursor | presentation-fix/app/page.tsx:170-202 | while playing, the cursor follows the current scene's script; otherwise it is left unchanged |
| Scheduler.Presentation.FollowScript | presentation-fix/app/page.tsx:173-202 | see below |
| Scheduler.Presentation.ClickResetFires | presentation-fix/app/page.tsx:200 | the 150 ms reset ends the click flash |
| Scheduler.Presentation.KeyDown | presentation-fix/app/page.tsx:231-238 | a start key starts the cinematic and leaves scene, progress and playing alone; a skip key moves to `NextIndex`, resetting progress, start time and frame request before the last scene and changing none of them on it, while a pending start stays pending; any other key changes nothing |
| Scheduler.Presentation.PointerClick | presentation-fix/app/page.tsx:268-272 | a click on the start screen starts the cinematic and leaves scene, progress and playing alone; a click elsewhere (line 409) skips to `NextIndex` with the same reset-or-keep outcome as a skip key, keeping a pending start |
| BossFightScene.Health | presentation-fix/components/cinematic/boss-fight.tsx:49 | boss health `max(0, 100 - 110p)` is at least 0, at most 100 for p >= 0, and 0 exactly from p = 10/11 on |
| BossFightScene.HealthNonIncreasing | presentation-fix/components/cinematic/boss-fight.tsx:49 | health never rises as progress grows |
| BossFightScene.AttackIndex | presentation-fix/components/cinematic/boss-fight.tsx:53-59 | the attack index lies in [-1, 5]; if non-negative, its threshold is reached and no later one is |
| BossFightScene.AttackIndexCountsThresholds | presentation-fix/components/cinematic/boss-fight.tsx:53-59 | the attack index is the number of thresholds reached minus one |
| BossFightScene.AttackIndexMonotone | presentation-fix/components/cinematic/boss-fight.tsx:53-59 | the attack index never decreases as progress grows |
| BossFightScene.FindAttackIndex | presentation-fix/components/cinematic/boss-fight.tsx:53-59 | the effect's loop returns `AttackIndex` |
| BossFightScene.AttackThresholdsMatchCursorClicks | presentation-fix/components/cinematic/boss-fight.tsx:53 | the attack thresholds are exactly the click times of the boss-fight cursor script, in order |
| BossFightScene.NextLastAttack | presentation-fix/components/cinematic/boss-fight.tsx:61-62 | when an attack fires (`Fires`: a band is reached whose index differs from the guard), the guard becomes its index (a new value); otherwise the guard is kept |
| BossFightScene.RepeatedUpdateDoesNotRefire | presentation-fix/components/cinematic/boss-fight.tsx:61-62 | a second update with the same progress never fires again |
| BossFightScene.FiredUnderNonDecreasingProgress | presentation-fix/components/cinematic/boss-fight.tsx:53-62 | under non-decreasing progress the fired indices strictly increase; an index fires exactly when it is in range, above the starting guard and met by some update, so a band jumped over never fires |
| BossFightScene.SweepFiresEachAttackOnceInOrder | presentation-fix/components/cinematic/boss-fight.tsx:53-62 | a non-decreasing sweep that lands in every band fires attacks 0..5 exactly once each, in order |
| BossFightScene.AttackEffectsByIndex | presentation-fix/components/cinematic/boss-fight.tsx:68-91 | in the attack table, slow motion (`SlowsTime`) happens exactly for attacks 3 and 5, stagger (`Staggers`) exactly for 1, 3 and 5, shake (`ShakeFor`) is 12 exactly for 3 and 5 (6 otherwise), and the flash (`FlashFor`) is yellow exactly for 3, pink exactly for 5 and white otherwise |
| BossFightScene.LastTwo | presentation-fix/components/cinematic/boss-fight.tsx:135-137 | the trim keeps the last min(2, n) entries, as a suffix |
| BossFightScene.QteStep | presentation-fix/components/cinematic/boss-fight.tsx:141-146 | inside (0.78, 0.88) and not yet won, the prompt opens; at p >= 0.88 with the prompt shown, the QTE is won and the prompt hides; otherwise the flags are kept. Hence success is never cleared, is newly set only from an open prompt at p >= 0.88, and the prompt newly opens only inside the window |
| BossFightScene.QteArmedWins | presentation-fix/components/cinematic/boss-fight.tsx:141-146 | once the prompt is shown or the QTE won, any run that later reaches p >= 0.88 ends won |
| BossFightScene.QteWindowThenCloseWins | presentation-fix/components/cinematic/boss-fight.tsx:141-146 | from any flags, a run that visits (0.78, 0.88) and afterwards reaches p >= 0.88 ends won |
| BossFightScene.QteSuccessNeedsWindow | presentation-fix/components/cinematic/boss-fight.tsx:141-146 | from flags with neither prompt nor success, no run of updates wins unless one of them lies strictly inside (0.78, 0.88) |
| BossFightScene.QteSuccessIsFinal | presentation-fix/components/cinematic/boss-fight.tsx:141-146 | once won, every later run keeps success and the prompt (shown and not won) never shows again |
| BossFightScene.OneButtonLit | presentation-fix/components/cinematic/boss-fight.tsx:495-496 | no controller button is lit before the first attack; afterwards exactly one of the four is lit, at index `currentAttack mod 4` |
| BossFightScene.BossFight.constructor | presentation-fix/components/cinematic/boss-fight.tsx:33-46 | the initial state: health 100, no attack, empty lists, combo 0, no QTE, no timer pending |
| BossFightScene.BossFight.Step | presentation-fix/components/cinematic/boss-fight.tsx:47-147 | see below |
| BossFightScene.BossFight.UpdateQte | presentation-fix/components/cinematic/boss-fight.tsx:141-146 | the QTE flags become `QteStep` of the old flags |
| BossFightScene.BossFight.Trigger | presentation-fix/components/cinematic/boss-fight.tsx:61-138 | the guard and the current attack become the index; the effects of that index's attack type are shown; its hit, reset and trim timeouts are queued |
| BossFightScene.BossFight.ShowAttack | presentation-fix/components/cinematic/boss-fight.tsx:66-81 | the player attacks; shake and flash follow the attack type; only the big attack types start slow motion and queue its end |
| BossFightScene.BossFight.HitLands | presentation-fix/components/cinematic/boss-fight.tsx:84-124 | see below |
| BossFightScene.BossFight.ResetFires | presentation-fix/components/cinematic/boss-fight.tsx:127-132 | the 500 ms reset clears attack, hit, stagger, shake and flash |
| BossFightScene.BossFight.TrimFires | presentation-fix/components/cinematic/boss-fight.tsx:135-137 | the 2000 ms trim keeps the last two damage numbers; splatters are untouched |
| BossFightScene.BossFight.SlowMoEnds | presentation-fix/components/cinematic/boss-fight.tsx:80 | the 800 ms timeout ends slow motion |
| GameplaySkills.VisibleSkills | presentation-fix/components/cinematic/gameplay-skills.tsx:18-25 | the number of revealed cards is at most 6 |
| GameplaySkills.CountVisibleSkills | presentation-fix/components/cinematic/gameplay-skills.tsx:18-25 | the memoised counting loop returns `VisibleSkills` |
| GameplaySkills.VisibleSkillsByThreshold | presentation-fix/components/cinematic/gameplay-skills.tsx:19-24 | card k is revealed exactly when progress reaches its threshold |
| GameplaySkills.VisibleSkillsMonotone | presentation-fix/components/cinematic/gameplay-skills.tsx:19-24 | revealed cards never disappear as progress grows |
| GameplaySkills.SelectedSkill | presentation-fix/components/cinematic/gameplay-skills.tsx:27 | the selection is -1 exactly when no card is revealed, and otherwise the last revealed card |
| GameplaySkills.SelectedIsLastVisible | presentation-fix/components/cinematic/gameplay-skills.tsx:121-122 | a selected card is revealed, every card after it is hidden, and the last revealed card is the selected one |
| GameplaySkills.HudShownWithFirstCard | presentation-fix/components/cinematic/gameplay-skills.tsx:16 | the HUD (`ShowHud`, p > 0.03) is already up whenever any card is revealed |
| GameplaySkills.PopupIffLastThreshold | presentation-fix/components/cinematic/gameplay-skills.tsx:201 | the "all mastered" popup (`PopupShown`: every skill revealed) shows exactly when p >= 0.88 |
| GameplaySkills.SkillThresholdsMatchCursorClicks | presentation-fix/components/cinematic/gameplay-skills.tsx:19 | the card thresholds are exactly the click times of the skills cursor script, in order |
| AchievementsRoll.VisibleCount | presentation-fix/components/cinematic/achievements-roll.tsx:16-23 | the unlocked count is at most 6 |
| AchievementsRoll.VisibleCountIsReached | presentation-fix/components/cinematic/achievements-roll.tsx:16-23 | the cap at 6 never bites: the unlocked count equals the number of thresholds reached |
| AchievementsRoll.CountVisible | presentation-fix/components/cinematic/achievements-roll.tsx:16-23 | the memoised loop and cap return `VisibleCount` |
| AchievementsRoll.VisibleCountByThreshold | presentation-fix/components/cinematic/achievements-roll.tsx:17-21 | card k is unlocked exactly when progress reaches its threshold |
| AchievementsRoll.VisibleCountMonotone | presentation-fix/components/cinematic/achievements-roll.tsx:16-23 | unlocked cards stay unlocked as progress grows |
| AchievementsRoll.Clamp | presentation-fix/components/cinematic/achievements-roll.tsx:25 | `max(lo, min(x, hi))` lies in [lo, hi], is x inside it, lo below it and hi above it |
| AchievementsRoll.SelectedIndex | presentation-fix/components/cinematic/achievements-roll.tsx:25 | the selected index is 0 before any unlock and the last unlocked card afterwards |
| AchievementsRoll.SelectionIsLastUnlocked | presentation-fix/components/cinematic/achievements-roll.tsx:91-92 | with nothing unlocked no card is selected; otherwise exactly the last unlocked card is |
| AchievementsRoll.SelectedCardOnTop | presentation-fix/components/cinematic/achievements-roll.tsx:93-107 | in `ZIndex` stacking, the selected card is strictly above every other card; among the others, the nearer one to the selection is higher |
| AchievementsRoll.DetailsShownIffFirstUnlock | presentation-fix/components/cinematic/achievements-roll.tsx:171-180 | the details panel shows exactly from p >= 0.12 on, and then describes a selected card |
| AchievementsRoll.RarityColorsDistinct | presentation-fix/components/cinematic/achievements-roll.tsx:27-42 | `RarityColor` gives the five rarities five distinct colour classes, none of them the default |
| AchievementsRoll.RarityBgsDistinct | presentation-fix/components/cinematic/achievements-roll.tsx:44-59 | `RarityBg` gives the five rarities five distinct backgrounds; the default background equals COMMON's |
| AchievementsRoll.UnknownRarityGetsDefault | presentation-fix/components/cinematic/achievements-roll.tsx:27-59 | any other string gets the default colour and background |
| AchievementsRoll.AchievementRaritiesKnown | presentation-fix/components/cinematic/achievements-roll.tsx:5-12 | the table has six achievements, all of known rarity |
| OriginCutscene.TextIndex | presentation-fix/components/cinematic/origin-cutscene.tsx:25-28 | the line index is at most 5, and at least 0 for p >= 0 |
| OriginCutscene.TextIndexCountsSegments | presentation-fix/components/cinematic/origin-cutscene.tsx:25-28 | for p >= 0, the index is the number of segment starts k/6 (k = 1..5) already reached |
| OriginCutscene.TextIndexMonotone | presentation-fix/components/cinematic/origin-cutscene.tsx:25-28 | the line index never decreases as progress grows, for any progress |
| OriginCutscene.LastLineAtEnd | presentation-fix/components/cinematic/origin-cutscene.tsx:25-28 | the last line is shown from p = 5/6 on, including at p = 1 |
| OriginCutscene.Shown | presentation-fix/components/cinematic/origin-cutscene.tsx:47-50 | the text shown after n ticks is a prefix of the line, of length min(n, line length) |
| OriginCutscene.Typewriter.constructor | presentation-fix/components/cinematic/origin-cutscene.tsx:6-9 | starts with empty text, not typing, no line handled and no interval |
| OriginCutscene.Typewriter.OnProgress | presentation-fix/components/cinematic/origin-cutscene.tsx:31-45 | no change when the line index equals the last one handled; otherwise the new line is recorded, the text emptied, typing set and a fresh interval armed |
| OriginCutscene.Typewriter.Tick | presentation-fix/components/cinematic/origin-cutscene.tsx:47-57 | each tick adds one to the counter and shows that prefix of the line; one tick past the end shows the whole line and stops typing and the interval |
| OriginCutscene.Typewriter.Cleanup | presentation-fix/components/cinematic/origin-cutscene.tsx:60-65 | cleanup always clears the pending interval |
| OriginCutscene.Typewriter.TypeOut | presentation-fix/components/cinematic/origin-cutscene.tsx:47-57 | ticking a fresh line to the end takes exactly length + 1 ticks, leaves the character counter one past the line, and leaves the whole line shown, typing off and no interval |
| FinalCinematic.Phase | presentation-fix/components/cinematic/final-cinematic.tsx:12-15 | the phase lies in [0, 3] |
| FinalCinematic.PhaseCountsStarts | presentation-fix/components/cinematic/final-cinematic.tsx:12-15 | the phase is the number of boundaries 0.2/0.5/0.8 reached |
| FinalCinematic.PhaseMonotone | presentation-fix/components/cinematic/final-cinematic.tsx:12-15 | the phase never decreases as progress grows |
| FinalCinematic.ColorfulFromHalfway | presentation-fix/components/cinematic/final-cinematic.tsx:50 | the colourful background shows exactly from p >= 0.5 on |
| FinalCinematic.SplatterCountBounds | presentation-fix/components/cinematic/final-cinematic.tsx:18-19 | the splatter count (`SplatterCount`, floor of (p - 0.3) * 30) never decreases with progress and is at most 21 for p <= 1 |
| FinalCinematic.BuildSplatters | presentation-fix/components/cinematic/final-cinematic.tsx:29-38 | the push loop yields exactly `count` entries; entry i has id i and colour i mod 7 |
| FinalCinematic.BuildOrderCycles | presentation-fix/components/cinematic/final-cinematic.tsx:32-35 | ids of a built list are distinct, and colours repeat every seven entries |
| FinalCinematic.FinalScene.constructor | presentation-fix/components/cinematic/final-cinematic.tsx:6-9 | starts in phase 0 with no splatters |
| FinalCinematic.FinalScene.Update | presentation-fix/components/cinematic/final-cinematic.tsx:11-41 | the phase becomes `Phase(p)`; past 0.3 the list is rebuilt in build order with `SplatterCount(p)` entries; otherwise it is untouched |
| BossApproach.ShakeIntensity | presentation-fix/components/cinematic/boss-approach.tsx:8-9 | intensity is 0 when not shaking (`IsShaking`: within 0.04 of a shake point), and at least 6 when shaking at p >= 0 |
| BossApproach.ShakePointsSpaced | presentation-fix/components/cinematic/boss-approach.tsx:7 | shake points are at least 0.15 apart |
| BossApproach.AtMostOneShakePoint | presentation-fix/components/cinematic/boss-approach.tsx:7-8 | no progress value is within 0.04 of two different shake points |
| BossApproach.NoShakeAtStart | presentation-fix/components/cinematic/boss-approach.tsx:7-9 | the scene does not shake at p = 0 |
| BossApproach.Phase | presentation-fix/components/cinematic/boss-approach.tsx:20-25 | the phase lies in [0, 3] |
| BossApproach.PhaseCountsStarts | presentation-fix/components/cinematic/boss-approach.tsx:20-25 | the phase is the number of boundaries 0.2/0.45/0.7 reached |
| BossApproach.PhaseMonotone | presentation-fix/components/cinematic/boss-approach.tsx:20-25 | the phase never decreases as progress grows |
| BossApproach.RevealFromLastPhase | presentation-fix/components/cinematic/boss-approach.tsx:228-230 | the name reveal and the battle prompt show exactly from p >= 0.7 on |
| VictorySequence.Phase | presentation-fix/components/cinematic/victory-sequence.tsx:7-12 | the phase lies in [0, 3] |
| VictorySequence.PhaseCountsStarts | presentation-fix/components/cinematic/victory-sequence.tsx:7-12 | the phase is the number of boundaries 0.12/0.35/0.65 reached |
| VictorySequence.PhaseMonotone | presentation-fix/components/cinematic/victory-sequence.tsx:7-12 | the phase never decreases as progress grows |
| VictorySequence.XpProgress | presentation-fix/components/cinematic/victory-sequence.tsx:18 | the counter's own progress lies in [0, 1] from 0.12 on, and is 1 exactly from 0.72 on |
| VictorySequence.Eased | presentation-fix/components/cinematic/victory-sequence.tsx:19 | the cubic ease-out maps [0, 1] into [0, 1] and 1 to 1 |
| VictorySequence.EasedMonotone | presentation-fix/components/cinematic/victory-sequence.tsx:19 | the ease-out is non-decreasing on [0, 1] |
| VictorySequence.XpCount | presentation-fix/components/cinematic/victory-sequence.tsx:15-21 | XP lies in [0, 15847], is 0 before 0.12 and is 15847 from 0.72 on |
| VictorySequence.XpCountMonotone | presentation-fix/components/cinematic/victory-sequence.tsx:15-21 | the XP counter never decreases as progress grows |
| VictorySequence.RankRevealedWithinPhases | presentation-fix/components/cinematic/victory-sequence.tsx:23 | the rank (`RankRevealed`, p > 0.45) is hidden through phase 1 and shown throughout phase 3 |
| Intro.Phase | presentation-fix/components/cinematic/intro.tsx:7-13 | the phase lies in [0, 4] |
| Intro.PhaseCountsStarts | presentation-fix/components/cinematic/intro.tsx:7-13 | the phase is the number of boundaries 0.15/0.4/0.65/0.88 reached |
| Intro.PhaseMonotone | presentation-fix/components/cinematic/intro.tsx:8-12 | the phase never decreases as progress grows |
| Intro.FirstAndLastPhase | presentation-fix/components/cinematic/intro.tsx:8-12 | the phase is 0 exactly below 0.15 and 4 exactly from 0.88 on |
| Intro.OneLayerAtATime | presentation-fix/components/cinematic/intro.tsx:55-176 | no two of the studio card, title card, chapter card and fade are opaque at once |
| Intro.SomeLayerShown | presentation-fix/components/cinematic/intro.tsx:55-176 | at every progress one of the four layers is opaque |
| Intro.LayerIntervals | presentation-fix/components/cinematic/intro.tsx:83 | the title card is opaque exactly for 0.15 <= p < 0.65, the fade exactly from 0.88; the studio and chapter cards have their own intervals |

Notes on the longer contracts:

- `Scheduler.Presentation.Frame`:
  - The first frame of a scene fixes the start time, so its elapsed time
    is 0. Progress is elapsed over duration, capped at 1.
  - Before the duration, the same scene keeps playing and another frame is
    requested.
  - After it, a non-last scene advances by exactly one with progress 0 and
    a new loop.
  - The last scene stops playing and requests no frame.
  - The scene index never grows by more than one.
- `Scheduler.Presentation.FollowScript`:
  - With an empty script, the cursor goes to (50, 50).
  - Otherwise it goes to the target waypoint.
  - A click flash starts when a click waypoint lies within 0.02
    (`Cursor.ClickDue`) and none is showing.
  - Holding is recomputed on every update as `Cursor.HoldReached`, "some
    hold waypoint is reached". Stepping progress back below the hold
    waypoint clears it (`Cursor.HoldClearsOnRewind`).
- `BossFightScene.BossFight.Step`:
  - Health follows `Health`, the guard follows `NextLastAttack` and the QTE
    flags follow `QteStep`.
  - When an attack fires, its effects are set and its hit, reset, trim and
    (for big hits) slow-motion timeouts are queued.
  - Otherwise none of these change.
  - The combo equals the number of splatters.
- `BossFightScene.BossFight.HitLands`:
  - The oldest pending hit appends one damage number carrying that attack's
    damage, type and colour, and one splatter, `SplatterFor` of that type
    (size fixed at 200 for ULTIMATE and FINISHER, random otherwise).
  - It adds exactly 1 to the combo.
  - The boss staggers exactly for the SUPER, ULTIMATE and FINISHER types.

## Left out

- Rendering: JSX, CSS, transitions, gradients, z-layering other than the achievement cards' rule, and number formatting.
- The game-cursor component is not part of this model. It only renders the cursor tuple: position, clicking, holding and visibility.
- Randomness, because it is outside the model:
  - positions, sizes and rotations from `Math.random`;
  - the boss-fight splatter colour;
  - the `Date.now()` ids of boss-fight list entries.
  
  A boss-fight splatter keeps only whether its size is the fixed 200 or random.
- Trigonometric camera drift and shake offsets: the intro drift, the origin pan, and the boss-approach offset memo.
- Wall-clock timing. The 150 ms, 200/500/800/2000 ms, 40 ms and 16 ms timers and the animation frames are events fired by the environment. Frame timestamps are parameters.
- React semantics beyond "an effect runs after its inputs change and its cleanup runs first".
  - Batching and re-render order are not modelled.
  - Neither is development-mode double invocation. Under it, the origin effect's second run would see the index already handled and leave the typewriter disarmed.
- IEEE floating point: every property is over the reals. The 1/6 segment size of the origin scene, the 0.015 letterbox step and `(p - 0.3) * 30` may round differently in doubles.
- Unwired handlers: `advanceProgress`, `rewindProgress`, `goToNextScene` and `goToPrevScene` are modelled, but no key or click handler calls them.
- Scheduler.Presentation.UpdateCursor: the 150 ms click-reset timeout is not a separate pending flag. The click flag itself says the reset is pending, and `ClickResetFires` ends it.
- OriginCutscene.Typewriter.OnProgress: requires progress >= 0. A negative progress (reachable only through the unwired rewind) would index the narration at -1.
- OriginCutscene.TextIndexCountsSegments: stated for progress >= 0 only, for the same reason.
- BossFightScene.BossFight.Step: no history of fired attacks is kept in the class. Firing order and at-most-once are proved on the pure `Fired` model of a run of updates.
