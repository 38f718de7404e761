/** The origin scene: progress split into six equal segments, one narration
    line each, and a typewriter that types the current line one character
    per 40 ms tick, restarting whenever the segment changes. */
module OriginCutscene {
  import opened Thresholds

  const Narration: seq<string> := [
    "kaboom",
    "In the halls of knowledge, a warrior rises...",
    "Armed with nothing but determination and a mechanical pencil.",
    "They said algebra was impossible.",
    "They were wrong.",
    "His name... is LORENZO."
  ]

  const LastLine: nat := 5

  /** `min(floor(p / (1/6)), 5)`, over the reals. */
  function TextIndex(progress: real): (i: int)
    ensures i <= LastLine
    ensures 0.0 <= progress ==> 0 <= i
  {
    var segment := (progress * 6.0).Floor;
    if segment < LastLine then segment else LastLine
  }

  /** Where lines 1..5 begin. */
  const SegmentStarts: seq<real> := [1.0 / 6.0, 2.0 / 6.0, 3.0 / 6.0, 4.0 / 6.0, 5.0 / 6.0]

  /** For non-negative progress the line index counts the segment starts
      already passed. */
  lemma TextIndexCountsSegments(progress: real)
    requires 0.0 <= progress
    ensures TextIndex(progress) == Reached(SegmentStarts, progress)
  {
    var k := TextIndex(progress);
    var f := (progress * 6.0).Floor;
    assert f as real <= progress * 6.0 < f as real + 1.0;
    assert 0 < k ==> SegmentStarts[k - 1] == k as real / 6.0;
    assert k < 5 ==> SegmentStarts[k] == (k + 1) as real / 6.0;
    ReachedIs(SegmentStarts, progress, k);
  }

  /** The line index never decreases as progress grows. */
  lemma TextIndexMonotone(p: real, q: real)
    requires p <= q
    ensures TextIndex(p) <= TextIndex(q)
  {
    var fp, fq := (p * 6.0).Floor, (q * 6.0).Floor;
    assert fp as real <= p * 6.0 <= q * 6.0 < fq as real + 1.0;
  }

  /** The scene ends on the last line. */
  lemma LastLineAtEnd()
    ensures TextIndex(1.0) == LastLine
    ensures forall p: real :: 5.0 / 6.0 <= p ==> TextIndex(p) == LastLine
  {
    forall p: real | 5.0 / 6.0 <= p ensures TextIndex(p) == LastLine {
      assert 5.0 <= p * 6.0;
    }
  }

  /** The text shown after `ticks` steps of typing `line`: its first
      `min(ticks, |line|)` characters. */
  function Shown(line: string, ticks: nat): (shown: string)
    ensures shown <= line
    ensures |shown| == if ticks < |line| then ticks else |line|
  {
    if ticks < |line| then line[..ticks] else line
  }

  class Typewriter {
    var displayedText: string
    var isTyping: bool
    /** The last line index the effect handled, -1 before the first. */
    var lastTextIndex: int
    /** The interval is armed (the typewriter ref is non-null). */
    var intervalRunning: bool
    /** The interval closure's line and character counter. */
    var currentText: string
    var charIdx: nat

    /** The shown text is always what `charIdx` ticks of the current line
        give; a running interval has at most reached the end of the line and
        marks typing; one tick past the end has stopped both. */
    ghost predicate Valid()
      reads this
    {
      && lastTextIndex <= LastLine
      && charIdx <= |currentText| + 1
      && displayedText == Shown(currentText, charIdx)
      && (intervalRunning ==> charIdx <= |currentText| && isTyping)
      && (charIdx == |currentText| + 1 ==> !intervalRunning && !isTyping)
    }

    constructor ()
      ensures Valid()
      ensures displayedText == "" && !isTyping && lastTextIndex == -1 && !intervalRunning
    {
      displayedText := "";
      isTyping := false;
      lastTextIndex := -1;
      intervalRunning := false;
      currentText := "";
      charIdx := 0;
    }

    /** The typewriter effect for the line index of `progress`: nothing when
        the index is the one last handled; otherwise clear any running
        interval, empty the text, mark typing and arm a fresh interval on the
        new line. Negative progress has no line (its index would be
        negative), so it is excluded. */
    method OnProgress(progress: real)
      requires Valid() && 0.0 <= progress
      modifies this
      ensures Valid()
      ensures TextIndex(progress) == old(lastTextIndex) ==>
        displayedText == old(displayedText) && isTyping == old(isTyping) && intervalRunning == old(intervalRunning)
        && currentText == old(currentText) && charIdx == old(charIdx) && lastTextIndex == old(lastTextIndex)
      ensures TextIndex(progress) != old(lastTextIndex) ==>
        lastTextIndex == TextIndex(progress) && currentText == Narration[lastTextIndex]
        && charIdx == 0 && displayedText == "" && isTyping && intervalRunning
    {
      var index := TextIndex(progress);
      if index == lastTextIndex {
        return;
      }
      lastTextIndex := index;
      Cleanup();
      currentText := Narration[index];
      charIdx := 0;
      displayedText := "";
      isTyping := true;
      intervalRunning := true;
    }

    /** One 40 ms interval tick: advance the counter; within the line show
        that many characters, past its end stop typing and clear the interval. */
    method Tick()
      requires Valid() && intervalRunning
      modifies this`charIdx, this`displayedText, this`isTyping, this`intervalRunning
      ensures Valid()
      ensures charIdx == old(charIdx) + 1
      ensures displayedText == Shown(currentText, charIdx)
      ensures charIdx <= |currentText| ==> isTyping && intervalRunning
      ensures charIdx == |currentText| + 1 ==> displayedText == currentText && !isTyping && !intervalRunning
    {
      charIdx := charIdx + 1;
      if charIdx <= |currentText| {
        displayedText := currentText[..charIdx];
      } else {
        isTyping := false;
        intervalRunning := false;
      }
    }

    /** The effect's cleanup: the pending interval is cleared, nothing else changes. */
    method Cleanup()
      modifies this`intervalRunning
      ensures !intervalRunning
    {
      intervalRunning := false;
    }

    /** Ticking a freshly started line until the interval stops takes
        exactly `|line| + 1` ticks and ends with the whole line shown and
        typing off. */
    method TypeOut() returns (ticks: nat)
      requires Valid() && intervalRunning && charIdx == 0
      modifies this`charIdx, this`displayedText, this`isTyping, this`intervalRunning
      ensures Valid()
      ensures ticks == |currentText| + 1 && charIdx == |currentText| + 1
      ensures displayedText == currentText && !isTyping && !intervalRunning
    {
      ticks := 0;
      while intervalRunning
        invariant Valid() && currentText == old(currentText)
        invariant charIdx == ticks
        invariant intervalRunning ==> ticks <= |currentText|
        invariant !intervalRunning ==> ticks == |currentText| + 1
        decreases |currentText| + 1 - charIdx
      {
        Tick();
        ticks := ticks + 1;
      }
    }
  }
}
