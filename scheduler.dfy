/** The scene scheduler of the presentation page: the fixed scene table, the
    playback state (scene index, progress, playing, start screen), the frame
    loop, navigation, keyboard and pointer dispatch, the letterbox intro and
    the cursor effect. Timers and the frame callback are explicit pending
    flags; the environment fires them through the event methods. */
module Scheduler {
  import opened Common
  import opened Thresholds
  import opened Cursor

  datatype Scene = Scene(id: string, duration: nat)

  /** Durations are in milliseconds. */
  const Scenes: seq<Scene> := [
    Scene("intro", 14000), Scene("origin", 18000), Scene("skills", 22000),
    Scene("boss-approach", 12000), Scene("boss-fight", 32000), Scene("victory", 16000),
    Scene("achievements", 24000), Scene("final", 20000)
  ]

  const LastScene: nat := |Scenes| - 1

  /** Letterbox growth per 16 ms interval tick. */
  const LetterboxStep: real := 0.015

  /** The scene component rendered for a scene id. */
  datatype Component =
    | IntroComponent | OriginComponent | SkillsComponent | BossApproachComponent
    | BossFightComponent | VictoryComponent | AchievementsComponent | FinalComponent

  function RenderScene(id: string): Option<Component> {
    match id
    case "intro" => Some(IntroComponent)
    case "origin" => Some(OriginComponent)
    case "skills" => Some(SkillsComponent)
    case "boss-approach" => Some(BossApproachComponent)
    case "boss-fight" => Some(BossFightComponent)
    case "victory" => Some(VictoryComponent)
    case "achievements" => Some(AchievementsComponent)
    case "final" => Some(FinalComponent)
    case _ => None
  }

  /** The scene table is well formed: ids are unique, durations positive, and
      every scene has a component. */
  lemma ScenesWellFormed()
    ensures forall i, j :: 0 <= i < j < |Scenes| ==> Scenes[i].id != Scenes[j].id
    ensures forall i :: 0 <= i < |Scenes| ==> Scenes[i].duration > 0 && RenderScene(Scenes[i].id).Some?
  {
  }

  /** Every scene has a well-formed cursor script. */
  lemma ScenesHaveScripts()
    ensures forall i :: 0 <= i < |Scenes| ==> WellFormed(ScriptFor(Scenes[i].id))
  {
    ScriptsWellFormed();
  }

  /** Scene progress from elapsed time: `min(elapsed / duration, 1)`. */
  function Progress(elapsed: real, duration: nat): (p: real)
    requires duration > 0
    ensures 0.0 <= elapsed ==> 0.0 <= p <= 1.0
    ensures p == 1.0 <==> elapsed >= duration as real
    ensures elapsed == 0.0 ==> p == 0.0
  {
    Min(elapsed / duration as real, 1.0)
  }

  /** The index after a forward skip: one more, except on the last scene. */
  function NextIndex(i: nat): (j: nat)
    requires i <= LastScene
    ensures j <= LastScene
    ensures i < LastScene ==> j == i + 1
    ensures i == LastScene ==> j == i
  {
    if i < LastScene then i + 1 else i
  }

  /** The index after a backward step: one less, except on the first scene. */
  function PrevIndex(i: nat): (j: nat)
    requires i <= LastScene
    ensures j <= LastScene
    ensures 0 < i ==> j == i - 1
    ensures i == 0 ==> j == 0
  {
    if i > 0 then i - 1 else i
  }

  /** What a key press does. */
  datatype KeyAction = StartPlayback | SkipScene | IgnoreKey

  function KeyDispatch(showStartScreen: bool, code: string): (a: KeyAction)
    ensures a == StartPlayback <==> showStartScreen && (code == "Space" || code == "Enter")
    ensures a == SkipScene <==> code == "ArrowRight" || (code == "Space" && !showStartScreen)
  {
    if showStartScreen && (code == "Space" || code == "Enter") then StartPlayback
    else if code == "Space" || code == "ArrowRight" then SkipScene
    else IgnoreKey
  }

  /** Width, in percent, of the progress dot of scene `idx`. */
  function DotWidth(idx: nat, current: nat, progress: real): real {
    if idx < current then 100.0
    else if idx == current then progress * 100.0
    else 0.0
  }

  function TotalDotWidth(n: nat, current: nat, progress: real): real {
    if n == 0 then 0.0 else TotalDotWidth(n - 1, current, progress) + DotWidth(n - 1, current, progress)
  }

  /** Dots fill left to right: full before the current scene, partial on it,
      empty after it, never wider than a full dot for progress in [0, 1]. */
  lemma DotWidthsOrdered(i: nat, j: nat, current: nat, progress: real)
    requires i <= j && 0.0 <= progress <= 1.0
    ensures 0.0 <= DotWidth(j, current, progress) <= DotWidth(i, current, progress) <= 100.0
  {
  }

  /** Together the dots show the overall position: 100% per finished scene
      plus the current scene's progress. */
  lemma {:induction false} TotalDotWidthIsOverallProgress(n: nat, current: nat, progress: real)
    requires current < n
    ensures TotalDotWidth(n, current, progress) == 100.0 * (current as real + progress)
  {
    if n - 1 > current {
      TotalDotWidthIsOverallProgress(n - 1, current, progress);
    } else {
      FullDotsBefore(current, progress);
    }
  }

  lemma {:induction false} FullDotsBefore(n: nat, progress: real)
    ensures TotalDotWidth(n, n, progress) == 100.0 * n as real
  {
    if n > 0 {
      FullDotsBefore(n - 1, progress);
      TotalDotWidthIgnoresLater(n - 1, n, progress);
    }
  }

  lemma {:induction false} TotalDotWidthIgnoresLater(n: nat, current: nat, progress: real)
    requires n <= current
    ensures TotalDotWidth(n, current, progress) == TotalDotWidth(n, n, progress)
  {
    if n > 0 {
      TotalDotWidthIgnoresLater(n - 1, current, progress);
      TotalDotWidthIgnoresLater(n - 1, n, progress);
    }
  }

  /** `advanceProgress` adds 0.1 without clamping. */
  function Advanced(isPlaying: bool, progress: real): (p: real)
    ensures p == progress || p == progress + 0.1
    ensures p != progress <==> isPlaying && progress < 1.0
  {
    if isPlaying && progress < 1.0 then progress + 0.1 else progress
  }

  /** `rewindProgress` subtracts 0.1 without clamping. */
  function Rewound(isPlaying: bool, progress: real): (p: real)
    ensures p == progress || p == progress - 0.1
    ensures p != progress <==> isPlaying && progress > 0.0
  {
    if isPlaying && progress > 0.0 then progress - 0.1 else progress
  }

  /** From inside [0, 1] one manual step stays within a tenth of it: an
      advance lands in [0, 1.1), a rewind in (-0.1, 1]. */
  lemma ManualStepRange(isPlaying: bool, p: real)
    requires 0.0 <= p <= 1.0
    ensures 0.0 <= Advanced(isPlaying, p) < 1.1
    ensures -0.1 < Rewound(isPlaying, p) <= 1.0
  {
  }

  /** While playing, a rewind undoes an advance from below 1, and an advance
      undoes a rewind from above 0. */
  lemma AdvanceRewindInverse(p: real)
    ensures 0.0 <= p < 1.0 ==> Rewound(true, Advanced(true, p)) == p
    ensures 0.0 < p <= 1.0 ==> Advanced(true, Rewound(true, p)) == p
  {
  }

  /** Neither manual step clamps: one step can leave [0, 1] on either side. */
  lemma ManualStepsDoNotClamp()
    ensures Advanced(true, 0.95) > 1.0
    ensures Rewound(true, 0.05) < 0.0
  {
  }

  class Presentation {
    var currentScene: nat
    var isPlaying: bool
    var showStartScreen: bool
    var sceneProgress: real
    var letterboxProgress: real
    var cursorX: int
    var cursorY: int
    /** The click flash is showing; its 150 ms reset timeout is pending exactly while it does. */
    var cursorClicking: bool
    var cursorHolding: bool

    /** The 800 ms start timeout of `startCinematic` is pending. */
    var startPending: bool
    /** The letterbox interval is running; `lb` is its closure counter. */
    var letterboxRunning: bool
    var lb: real
    ghost var letterboxTicks: nat
    /** A frame callback of the animation loop is requested; `startTime` is its closure start. */
    var framePending: bool
    var startTime: Option<real>

    /** The playback invariant. It does not read the cursor fields, so the
        cursor effect and the click reset keep it by their frames alone. */
    ghost predicate Valid()
      reads this`currentScene, this`framePending, this`isPlaying, this`showStartScreen, this`startPending,
        this`letterboxRunning, this`letterboxTicks, this`lb, this`letterboxProgress
    {
      && currentScene <= LastScene
      && (framePending ==> isPlaying && !showStartScreen)
      && (showStartScreen ==> !isPlaying && !startPending)
      && (showStartScreen || startPending ==> !letterboxRunning && letterboxTicks == 0)
      && (startPending ==> !isPlaying)
      && lb == LetterboxStep * letterboxTicks as real
      && letterboxProgress == Min(lb, 1.0)
      && (letterboxRunning ==> lb < 1.0)
      && 0.0 <= letterboxProgress <= 1.0
    }

    constructor ()
      ensures Valid()
      ensures currentScene == 0 && !isPlaying && showStartScreen && sceneProgress == 0.0
      ensures letterboxProgress == 0.0 && cursorX == 50 && cursorY == 80
      ensures !cursorClicking && !cursorHolding
      ensures !startPending && !letterboxRunning && !framePending
    {
      currentScene := 0;
      isPlaying := false;
      showStartScreen := true;
      sceneProgress := 0.0;
      letterboxProgress := 0.0;
      cursorX, cursorY := 50, 80;
      cursorClicking, cursorHolding := false, false;
      startPending := false;
      letterboxRunning := false;
      lb := 0.0;
      letterboxTicks := 0;
      framePending := false;
      startTime := None;
    }

    /** `startCinematic`: hide the start screen and arm the 800 ms start timeout.
        It is only reachable from the start screen (its key and its click handler). */
    method StartCinematic()
      requires Valid() && showStartScreen
      modifies this`showStartScreen, this`startPending, this`framePending, this`startTime
      ensures Valid()
      ensures !showStartScreen && startPending
      ensures !framePending && startTime == None
    {
      showStartScreen := false;
      startPending := true;
      // The scene-loop effect re-runs: its cleanup cancels any frame, and it
      // starts a new loop only while playing off the start screen.
      framePending := false;
      startTime := None;
    }

    /** The start timeout fires: playback begins and the letterbox interval starts. */
    method StartTimeoutFires()
      requires Valid() && startPending
      modifies this`startPending, this`isPlaying, this`lb, this`letterboxTicks, this`letterboxRunning
      modifies this`framePending, this`startTime
      ensures Valid()
      ensures isPlaying && !startPending
      ensures letterboxRunning && lb == 0.0 && letterboxTicks == 0
      ensures framePending == !showStartScreen && startTime == None
    {
      startPending := false;
      isPlaying := true;
      lb := 0.0;
      letterboxTicks := 0;
      letterboxRunning := true;
      framePending := !showStartScreen;
      startTime := None;
    }

    /** One 16 ms letterbox tick: grow by 0.015, clamp the shown value at 1,
        stop the interval once the counter reaches 1. */
    method LetterboxTick()
      requires Valid() && letterboxRunning
      modifies this`lb, this`letterboxTicks, this`letterboxProgress, this`letterboxRunning
      ensures Valid()
      ensures lb == old(lb) + LetterboxStep && letterboxTicks == old(letterboxTicks) + 1
      ensures letterboxProgress == Min(lb, 1.0)
      ensures letterboxRunning <==> lb < 1.0
    {
      lb := lb + LetterboxStep;
      letterboxTicks := letterboxTicks + 1;
      letterboxProgress := Min(lb, 1.0);
      if lb >= 1.0 {
        letterboxRunning := false;
      }
    }

    /** `skipToNext` (and the identical `goToNextScene`): advance one scene and
        reset progress, except on the last scene, where nothing changes. */
    method SkipToNext()
      requires Valid()
      modifies this`currentScene, this`sceneProgress, this`framePending, this`startTime
      ensures Valid()
      ensures currentScene == NextIndex(old(currentScene))
      ensures old(currentScene) < LastScene ==>
        sceneProgress == 0.0 && startTime == None && framePending == (isPlaying && !showStartScreen)
      ensures old(currentScene) == LastScene ==>
        sceneProgress == old(sceneProgress) && startTime == old(startTime) && framePending == old(framePending)
    {
      if currentScene < LastScene {
        currentScene := currentScene + 1;
        sceneProgress := 0.0;
        // The scene changed, so the scene-loop effect restarts its clock.
        framePending := isPlaying && !showStartScreen;
        startTime := None;
      }
    }

    method GoToNextScene()
      requires Valid()
      modifies this`currentScene, this`sceneProgress, this`framePending, this`startTime
      ensures Valid()
      ensures currentScene == NextIndex(old(currentScene))
      ensures old(currentScene) < LastScene ==>
        sceneProgress == 0.0 && startTime == None && framePending == (isPlaying && !showStartScreen)
      ensures old(currentScene) == LastScene ==>
        sceneProgress == old(sceneProgress) && startTime == old(startTime) && framePending == old(framePending)
    {
      SkipToNext();
    }

    /** `goToPrevScene`: go back one scene and reset progress, except on the first scene. */
    method GoToPrevScene()
      requires Valid()
      modifies this`currentScene, this`sceneProgress, this`framePending, this`startTime
      ensures Valid()
      ensures currentScene == PrevIndex(old(currentScene))
      ensures 0 < old(currentScene) ==>
        sceneProgress == 0.0 && startTime == None && framePending == (isPlaying && !showStartScreen)
      ensures old(currentScene) == 0 ==>
        sceneProgress == old(sceneProgress) && startTime == old(startTime) && framePending == old(framePending)
    {
      if currentScene > 0 {
        currentScene := currentScene - 1;
        sceneProgress := 0.0;
        framePending := isPlaying && !showStartScreen;
        startTime := None;
      }
    }

    /** `advanceProgress`: +0.1 while playing below 1, unclamped. */
    method AdvanceProgress()
      requires Valid()
      modifies this`sceneProgress
      ensures Valid()
      ensures sceneProgress == Advanced(isPlaying, old(sceneProgress))
    {
      if isPlaying && sceneProgress < 1.0 {
        sceneProgress := sceneProgress + 0.1;
      }
    }

    /** `rewindProgress`: -0.1 while playing above 0, unclamped. */
    method RewindProgress()
      requires Valid()
      modifies this`sceneProgress
      ensures Valid()
      ensures sceneProgress == Rewound(isPlaying, old(sceneProgress))
    {
      if isPlaying && sceneProgress > 0.0 {
        sceneProgress := sceneProgress - 0.1;
      }
    }

    /** One animation frame at `timestamp`. The first frame of a scene fixes
        the start time (so its progress is 0); progress is elapsed over
        duration capped at 1. Once the duration has elapsed a non-last scene
        advances by exactly one with progress 0 and the loop restarts for it;
        the last scene stops playback and requests no further frame. */
    method Frame(timestamp: real)
      requires Valid() && framePending
      modifies this`startTime, this`sceneProgress, this`currentScene, this`isPlaying, this`framePending
      ensures Valid()
      ensures var start := if old(startTime).None? || old(startTime) == Some(0.0) then timestamp
                           else old(startTime).value;
              var elapsed := timestamp - start;
              var duration := Scenes[old(currentScene)].duration;
              duration > 0 &&
              (old(startTime).None? ==> elapsed == 0.0) &&
              (elapsed < duration as real ==>
                 currentScene == old(currentScene) && sceneProgress == Progress(elapsed, duration)
                 && isPlaying && framePending && startTime == Some(start)) &&
              (elapsed >= duration as real && old(currentScene) < LastScene ==>
                 currentScene == old(currentScene) + 1 && sceneProgress == 0.0
                 && isPlaying && framePending && startTime == None) &&
              (elapsed >= duration as real && old(currentScene) == LastScene ==>
                 currentScene == old(currentScene) && sceneProgress == 1.0
                 && !isPlaying && !framePending && startTime == Some(start))
      ensures currentScene == old(currentScene) || currentScene == old(currentScene) + 1
    {
      if startTime.None? || startTime == Some(0.0) {
        startTime := Some(timestamp);
      }
      var elapsed := timestamp - startTime.value;
      var duration := Scenes[currentScene].duration;
      sceneProgress := Progress(elapsed, duration);
      if elapsed >= duration as real {
        framePending := false;
        if currentScene < LastScene {
          currentScene := currentScene + 1;
          sceneProgress := 0.0;
          // New scene: the loop effect re-runs with a fresh clock.
          framePending := true;
          startTime := None;
        } else {
          isPlaying := false;
        }
      } else {
        framePending := true;
      }
    }

    /** The cursor effect: while playing, follow the current scene's script. */
    method UpdateCursor()
      requires Valid()
      modifies this`cursorX, this`cursorY, this`cursorClicking, this`cursorHolding
      ensures !isPlaying ==>
        cursorX == old(cursorX) && cursorY == old(cursorY) && cursorClicking == old(cursorClicking)
        && cursorHolding == old(cursorHolding)
      ensures isPlaying ==> Followed(ScriptFor(Scenes[currentScene].id), sceneProgress)
    {
      if isPlaying {
        FollowScript(ScriptFor(Scenes[currentScene].id));
      }
    }

    /** The cursor state after following `script` at progress `p`: the target
        waypoint (or the neutral spot for an empty script), a click flash
        started when a click waypoint is within the window, and holding
        recomputed. */
    twostate predicate Followed(script: seq<Waypoint>, p: real)
      reads this
    {
      if script == [] then
        cursorX == NeutralX && cursorY == NeutralY && cursorClicking == old(cursorClicking)
        && cursorHolding == old(cursorHolding)
      else
        var target := script[TargetIndex(script, p)];
        cursorX == target.x && cursorY == target.y
        && cursorClicking == (old(cursorClicking) || ClickDue(script, p))
        && cursorHolding == HoldReached(script, p)
    }

    /** One pass of the cursor effect over `script`: move to the target waypoint
        (or the neutral spot when the scene has no script), start a click
        flash when a click waypoint is within the window and no flash is
        showing, and recompute holding. */
    method FollowScript(script: seq<Waypoint>)
      modifies this`cursorX, this`cursorY, this`cursorClicking, this`cursorHolding
      ensures Followed(script, sceneProgress)
    {
      if script == [] {
        cursorX, cursorY := NeutralX, NeutralY;
        return;
      }
      var target := ResolveTarget(script, sceneProgress);
      cursorX, cursorY := target.x, target.y;
      if ClickDue(script, sceneProgress) && !cursorClicking {
        cursorClicking := true;
      }
      cursorHolding := HoldReached(script, sceneProgress);
    }

    /** The 150 ms click reset fires. */
    method ClickResetFires()
      requires cursorClicking
      modifies this`cursorClicking
      ensures !cursorClicking
    {
      cursorClicking := false;
    }

    /** The keydown handler. */
    method KeyDown(code: string)
      requires Valid()
      modifies this`showStartScreen, this`startPending, this`framePending, this`startTime
      modifies this`currentScene, this`sceneProgress
      ensures Valid()
      ensures KeyDispatch(old(showStartScreen), code) == StartPlayback ==>
        !showStartScreen && startPending && currentScene == old(currentScene)
        && sceneProgress == old(sceneProgress) && isPlaying == old(isPlaying)
      ensures KeyDispatch(old(showStartScreen), code) == SkipScene ==>
        currentScene == NextIndex(old(currentScene)) && showStartScreen == old(showStartScreen)
        && isPlaying == old(isPlaying) && startPending == old(startPending)
      ensures KeyDispatch(old(showStartScreen), code) == SkipScene && old(currentScene) < LastScene ==>
        sceneProgress == 0.0 && startTime == None && framePending == (isPlaying && !showStartScreen)
      ensures KeyDispatch(old(showStartScreen), code) == SkipScene && old(currentScene) == LastScene ==>
        sceneProgress == old(sceneProgress) && startTime == old(startTime) && framePending == old(framePending)
      ensures KeyDispatch(old(showStartScreen), code) == IgnoreKey ==>
        currentScene == old(currentScene) && showStartScreen == old(showStartScreen)
        && isPlaying == old(isPlaying) && sceneProgress == old(sceneProgress)
        && startPending == old(startPending) && framePending == old(framePending)
        && startTime == old(startTime)
    {
      match KeyDispatch(showStartScreen, code)
      case StartPlayback => StartCinematic();
      case SkipScene => SkipToNext();
      case IgnoreKey =>
    }

    /** A click on the page: starts playback on the start screen, skips otherwise. */
    method PointerClick()
      requires Valid()
      modifies this`showStartScreen, this`startPending, this`framePending, this`startTime
      modifies this`currentScene, this`sceneProgress
      ensures Valid()
      ensures old(showStartScreen) ==>
        !showStartScreen && startPending && currentScene == old(currentScene)
        && sceneProgress == old(sceneProgress) && isPlaying == old(isPlaying)
      ensures !old(showStartScreen) ==>
        currentScene == NextIndex(old(currentScene)) && !showStartScreen && isPlaying == old(isPlaying)
        && startPending == old(startPending)
      ensures !old(showStartScreen) && old(currentScene) < LastScene ==>
        sceneProgress == 0.0 && startTime == None && framePending == isPlaying
      ensures !old(showStartScreen) && old(currentScene) == LastScene ==>
        sceneProgress == old(sceneProgress) && startTime == old(startTime) && framePending == old(framePending)
    {
      if showStartScreen {
        StartCinematic();
      } else {
        SkipToNext();
      }
    }
  }

  /** The letterbox interval stops on its 67th tick: 66 ticks stay below 1, 67 reach it. */
  lemma LetterboxStopsAfter67Ticks(n: nat)
    ensures LetterboxStep * n as real < 1.0 <==> n <= 66
  {
  }
}
