/** The cursor-script interpreter of the presentation page: per scene, a
    constant list of timed waypoints, and the lookup from a progress value to
    the waypoint the simulated cursor sits on, whether a click is due and
    whether a hold is in force. */
module Cursor {
  import opened Common
  import opened Thresholds

  /** One timed cursor instruction; `click` and `hold` are absent (false) unless set. */
  datatype Waypoint = Waypoint(time: real, x: int, y: int, click: bool, hold: bool)

  function Move(time: real, x: int, y: int): Waypoint { Waypoint(time, x, y, false, false) }
  function Click(time: real, x: int, y: int): Waypoint { Waypoint(time, x, y, true, false) }
  function Hold(time: real, x: int, y: int): Waypoint { Waypoint(time, x, y, false, true) }

  /** Where the cursor goes when a scene has no script. */
  const NeutralX: int := 50
  const NeutralY: int := 50

  /** Half-width of the window, in progress units, in which a click waypoint fires. */
  const ClickWindow: real := 0.02

  const IntroScript: seq<Waypoint> :=
    [Move(0.0, 50, 60), Move(0.2, 50, 55), Move(0.5, 50, 50), Move(0.8, 52, 52)]

  const OriginScript: seq<Waypoint> :=
    [Move(0.0, 50, 70), Move(0.15, 50, 65), Move(0.35, 52, 60), Move(0.55, 50, 55),
     Move(0.75, 48, 52), Move(0.95, 50, 50)]

  /** Each skill card is approached from above, then clicked. */
  const SkillsScript: seq<Waypoint> :=
    [Move(0.0, 30, 42), Click(0.08, 30, 48), Move(0.12, 50, 42), Click(0.18, 50, 48),
     Move(0.22, 70, 42), Click(0.28, 70, 48),
     Move(0.4, 30, 58), Click(0.48, 30, 64), Move(0.6, 50, 58), Click(0.68, 50, 64),
     Move(0.8, 70, 58), Click(0.88, 70, 64), Move(0.95, 50, 55)]

  const BossApproachScript: seq<Waypoint> :=
    [Move(0.0, 50, 80), Move(0.25, 50, 75), Click(0.5, 50, 70), Move(0.75, 50, 65),
     Click(0.95, 50, 60)]

  /** One click per attack, then a hold for the quick-time event. */
  const BossFightScript: seq<Waypoint> :=
    [Move(0.0, 35, 55), Click(0.1, 65, 45), Click(0.2, 68, 42), Click(0.3, 70, 38),
     Click(0.4, 66, 44), Click(0.5, 72, 40), Click(0.6, 68, 42), Move(0.7, 50, 50),
     Hold(0.8, 50, 50), Move(0.95, 50, 50)]

  const VictoryScript: seq<Waypoint> :=
    [Move(0.0, 50, 60), Move(0.3, 50, 55), Move(0.6, 52, 53), Move(0.9, 50, 50)]

  /** One click per achievement card. */
  const AchievementsScript: seq<Waypoint> :=
    [Move(0.0, 25, 50), Click(0.12, 30, 50), Move(0.25, 40, 50), Click(0.37, 45, 50),
     Move(0.5, 55, 50), Click(0.62, 60, 50), Move(0.75, 70, 50), Click(0.87, 75, 50),
     Move(0.95, 50, 50)]

  const FinalScript: seq<Waypoint> :=
    [Move(0.0, 50, 55), Move(0.3, 50, 52), Move(0.6, 48, 50), Move(0.9, 50, 50)]

  /** The script table lookup by scene id, empty for an id the table lacks. */
  function ScriptFor(id: string): (script: seq<Waypoint>)
    ensures script == [] <==> id !in {"intro", "origin", "skills", "boss-approach", "boss-fight",
                                      "victory", "achievements", "final"}
  {
    if id == "intro" then IntroScript
    else if id == "origin" then OriginScript
    else if id == "skills" then SkillsScript
    else if id == "boss-approach" then BossApproachScript
    else if id == "boss-fight" then BossFightScript
    else if id == "victory" then VictoryScript
    else if id == "achievements" then AchievementsScript
    else if id == "final" then FinalScript
    else []
  }

  function Times(script: seq<Waypoint>): (ts: seq<real>)
    ensures |ts| == |script| && forall i :: 0 <= i < |script| ==> ts[i] == script[i].time
  {
    seq(|script|, i requires 0 <= i < |script| => script[i].time)
  }

  /** Times of the click waypoints, in list order. */
  function ClickTimes(script: seq<Waypoint>): seq<real> {
    ClickTimesFrom(script, 0)
  }

  /** Times of the click waypoints from index `i` on. */
  function ClickTimesFrom(script: seq<Waypoint>, i: nat): seq<real>
    decreases |script| - i
  {
    if i >= |script| then []
    else (if script[i].click then [script[i].time] else []) + ClickTimesFrom(script, i + 1)
  }

  /** A script as every table entry is written: starts at time 0, times strictly increase. */
  predicate WellFormed(script: seq<Waypoint>) {
    script != [] && script[0].time == 0.0 && Ascending(Times(script))
  }

  /** The index the cursor sits on: the last waypoint whose time is at or
      below `p`, or the first waypoint when none is. */
  function TargetIndex(script: seq<Waypoint>, p: real): (i: nat)
    requires script != []
    ensures i < |script|
    ensures script[i].time <= p || (i == 0 && forall j :: 0 <= j < |script| ==> p < script[j].time)
    ensures forall j :: i < j < |script| ==> p < script[j].time
  {
    var last := LastReached(Times(script), p);
    if last < 0 then 0 else last
  }

  /** Some click waypoint lies strictly within `ClickWindow` of `p` (the page's `find`). */
  predicate ClickDue(script: seq<Waypoint>, p: real) {
    exists i :: 0 <= i < |script| && script[i].click && Abs(script[i].time - p) < ClickWindow
  }

  /** Some hold waypoint has been reached. Recomputed on every update. */
  predicate HoldReached(script: seq<Waypoint>, p: real) {
    exists i :: 0 <= i < |script| && script[i].hold && p >= script[i].time
  }

  /** The waypoint scan of the cursor effect: start from the first waypoint and
      keep the last one whose time is at or below the progress. */
  method ResolveTarget(script: seq<Waypoint>, p: real) returns (target: Waypoint)
    requires script != []
    ensures target == script[TargetIndex(script, p)]
  {
    target := script[0];
    ghost var ts := Times(script);
    for i := 0 to |script|
      invariant target == script[if LastReached(ts[..i], p) < 0 then 0 else LastReached(ts[..i], p)]
    {
      assert ts[..i + 1][..i] == ts[..i];
      if script[i].time <= p {
        target := script[i];
      }
    }
    assert ts[..|script|] == ts;
  }

  /** Every script in the table is well formed. */
  lemma ScriptsWellFormed()
    ensures WellFormed(IntroScript) && WellFormed(OriginScript) && WellFormed(SkillsScript)
    ensures WellFormed(BossApproachScript) && WellFormed(BossFightScript) && WellFormed(VictoryScript)
    ensures WellFormed(AchievementsScript) && WellFormed(FinalScript)
  {
    EarlyScriptsWellFormed();
    LateScriptsWellFormed();
  }

  lemma EarlyScriptsWellFormed()
    ensures WellFormed(IntroScript) && WellFormed(OriginScript) && WellFormed(SkillsScript)
    ensures WellFormed(BossApproachScript)
  {
  }

  lemma LateScriptsWellFormed()
    ensures WellFormed(BossFightScript) && WellFormed(VictoryScript)
    ensures WellFormed(AchievementsScript) && WellFormed(FinalScript)
  {
  }

  /** For a well-formed script and progress p >= 0, the lookup lands on the
      waypoint with the greatest time at or below p. */
  lemma TargetIsGreatestReached(script: seq<Waypoint>, p: real)
    requires WellFormed(script) && 0.0 <= p
    ensures var i := TargetIndex(script, p);
      script[i].time <= p && forall j :: 0 <= j < |script| && script[j].time <= p ==> script[j].time <= script[i].time
  {
    var i := TargetIndex(script, p);
    forall j | 0 <= j < |script| && script[j].time <= p
      ensures script[j].time <= script[i].time
    {
      if j < i {
        AscendingOrdered(Times(script), j, i);
      }
    }
  }

  /** For a well-formed script, the index is one less than the number of reached waypoints. */
  lemma TargetIndexCountsReached(script: seq<Waypoint>, p: real)
    requires WellFormed(script) && 0.0 <= p
    ensures TargetIndex(script, p) == Reached(Times(script), p) - 1
  {
    LastReachedIsCountMinusOne(Times(script), p);
  }

  /** Holds are not latched: stepping progress back below the hold waypoint clears it. */
  lemma HoldClearsOnRewind()
    ensures HoldReached(BossFightScript, 0.85)
    ensures !HoldReached(BossFightScript, 0.75)
  {
    assert BossFightScript[8].hold;
  }
}
