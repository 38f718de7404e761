/** The boss-fight scene: boss health as a function of progress, six attacks
    fired once each as progress crosses their thresholds (guarded by the last
    fired index), their type-dependent effects, the damage-number and
    splatter lists, the combo counter and the one-way quick-time-event latch.
    The 200/500/800/2000 ms timeouts are explicit pending entries fired by
    event methods. */
module BossFightScene {
  import opened Common
  import opened Thresholds
  import opened Cursor

  datatype AttackKind = Critical | Super | Normal | Ultimate | Finisher

  datatype Attack = Attack(name: string, damage: nat, kind: AttackKind, color: string)

  const Attacks: seq<Attack> := [
    Attack("SUBSTITUTION STRIKE", 2847, Critical, "#ef4444"),
    Attack("ELIMINATION BLAST", 4203, Super, "#8b5cf6"),
    Attack("GRAPH THEORY SLASH", 1654, Normal, "#f5f5f5"),
    Attack("LINEAR DEVASTATION", 6156, Ultimate, "#fbbf24"),
    Attack("SLOPE INTERCEPT", 3892, Critical, "#ef4444"),
    Attack("FINAL CALCULATION", 9999, Finisher, "#ff0080")
  ]

  const AttackThresholds: seq<real> := [0.1, 0.2, 0.3, 0.4, 0.5, 0.6]

  const QteOpen: real := 0.78
  const QteClose: real := 0.88

  /** Boss health, `max(0, 100 - 110 p)`: independent of which attacks fired. */
  function Health(progress: real): (h: real)
    ensures 0.0 <= h
    ensures 0.0 <= progress ==> h <= 100.0
    ensures h == 0.0 <==> progress >= 10.0 / 11.0
  {
    Max(0.0, 100.0 - progress * 110.0)
  }

  lemma HealthNonIncreasing(p: real, q: real)
    requires p <= q
    ensures Health(q) <= Health(p)
  {
  }

  /** The band progress lies in: the last threshold reached, or -1. */
  function AttackIndex(progress: real): (i: int)
    ensures -1 <= i < |Attacks|
    ensures 0 <= i ==> AttackThresholds[i] <= progress
    ensures forall j :: i < j < |AttackThresholds| ==> progress < AttackThresholds[j]
  {
    LastReached(AttackThresholds, progress)
  }

  /** With ascending thresholds the band is the count of reached thresholds minus one. */
  lemma AttackIndexCountsThresholds(progress: real)
    ensures AttackIndex(progress) == Reached(AttackThresholds, progress) - 1
  {
    assert Ascending(AttackThresholds);
    LastReachedIsCountMinusOne(AttackThresholds, progress);
  }

  lemma AttackIndexMonotone(p: real, q: real)
    requires p <= q
    ensures AttackIndex(p) <= AttackIndex(q)
  {
    AttackIndexCountsThresholds(p);
    AttackIndexCountsThresholds(q);
    ReachedMonotone(AttackThresholds, p, q);
  }

  /** The attack thresholds are exactly the click times of the boss-fight cursor script. */
  lemma AttackThresholdsMatchCursorClicks()
    ensures ClickTimes(BossFightScript) == AttackThresholds
  {
    LaterAttackClicks();
    assert ClickTimesFrom(BossFightScript, 2) == [0.2, 0.3, 0.4, 0.5, 0.6];
  }

  /** The clicks from the fourth attack on; the hold and the moves add none. */
  lemma LaterAttackClicks()
    ensures ClickTimesFrom(BossFightScript, 4) == [0.4, 0.5, 0.6]
  {
    assert ClickTimesFrom(BossFightScript, 6) == [0.6];
  }

  /** The index guard: an attack fires only when a band is reached and differs from the last fired one. */
  predicate Fires(lastAttack: int, progress: real) {
    var i := AttackIndex(progress);
    0 <= i < |Attacks| && i != lastAttack
  }

  /** The guard after one update. */
  function NextLastAttack(lastAttack: int, progress: real): (last: int)
    ensures Fires(lastAttack, progress) ==> last == AttackIndex(progress)
    ensures !Fires(lastAttack, progress) ==> last == lastAttack
    ensures Fires(lastAttack, progress) ==> last != lastAttack
  {
    if Fires(lastAttack, progress) then AttackIndex(progress) else lastAttack
  }

  /** Updating twice with the same progress fires at most once. */
  lemma RepeatedUpdateDoesNotRefire(lastAttack: int, progress: real)
    ensures !Fires(NextLastAttack(lastAttack, progress), progress)
  {
  }

  /** The attack indices fired by a run of updates, in firing order. */
  function Fired(ps: seq<real>, lastAttack: int): seq<int> {
    if ps == [] then []
    else if Fires(lastAttack, ps[0]) then [AttackIndex(ps[0])] + Fired(ps[1..], AttackIndex(ps[0]))
    else Fired(ps[1..], lastAttack)
  }

  /** The band of each update of a run. */
  function Bands(ps: seq<real>): (bs: seq<int>)
    ensures |bs| == |ps| && forall k :: 0 <= k < |ps| ==> bs[k] == AttackIndex(ps[k])
  {
    seq(|ps|, k requires 0 <= k < |ps| => AttackIndex(ps[k]))
  }

  /** The same firing rule read off the bands alone. */
  function FiredBands(bs: seq<int>, lastAttack: int): seq<int> {
    if bs == [] then []
    else if 0 <= bs[0] < |Attacks| && bs[0] != lastAttack then [bs[0]] + FiredBands(bs[1..], bs[0])
    else FiredBands(bs[1..], lastAttack)
  }

  lemma {:induction false} FiredReadsBands(ps: seq<real>, lastAttack: int)
    ensures Fired(ps, lastAttack) == FiredBands(Bands(ps), lastAttack)
  {
    if ps != [] {
      assert Bands(ps)[1..] == Bands(ps[1..]);
      FiredReadsBands(ps[1..], NextLastAttack(lastAttack, ps[0]));
    }
  }

  predicate NonDecreasing(ps: seq<real>) {
    forall i :: 0 < i < |ps| ==> ps[i - 1] <= ps[i]
  }

  predicate StrictlyIncreasing(s: seq<int>) {
    forall i, j :: 0 <= i < j < |s| ==> s[i] < s[j]
  }

  /** Which bands fire: those in range, above the starting guard, met by some update. */
  lemma {:induction false} FiredBandsMembers(bs: seq<int>, lastAttack: int)
    requires forall i :: 0 < i < |bs| ==> bs[i - 1] <= bs[i]
    requires bs != [] ==> lastAttack <= bs[0]
    ensures forall x :: x in FiredBands(bs, lastAttack) <==> 0 <= x < |Attacks| && lastAttack < x && x in bs
  {
    if bs != [] {
      var rest := bs[1..];
      var next := if 0 <= bs[0] < |Attacks| && bs[0] != lastAttack then bs[0] else lastAttack;
      if rest != [] {
        NonDecreasingFromFirst(bs, 1);
      }
      FiredBandsMembers(rest, next);
      RestAboveHead(bs);
      var f := FiredBands(rest, next);
      var fires := 0 <= bs[0] < |Attacks| && bs[0] != lastAttack;
      assert FiredBands(bs, lastAttack) == if fires then [bs[0]] + f else f;
      forall x ensures x in FiredBands(bs, lastAttack) <==> 0 <= x < |Attacks| && lastAttack < x && x in bs {
        assert x in bs <==> x == bs[0] || x in rest by {
          assert bs == [bs[0]] + rest;
        }
      }
    }
  }

  /** Later bands are never below the first. */
  lemma RestAboveHead(bs: seq<int>)
    requires forall i :: 0 < i < |bs| ==> bs[i - 1] <= bs[i]
    requires bs != []
    ensures forall x :: x in bs[1..] ==> bs[0] <= x
  {
    forall x | x in bs[1..] ensures bs[0] <= x {
      var k :| 0 <= k < |bs[1..]| && bs[1..][k] == x;
      NonDecreasingFromFirst(bs, k + 1);
    }
  }

  lemma {:induction false} FiredBandsIncreasing(bs: seq<int>, lastAttack: int)
    requires forall i :: 0 < i < |bs| ==> bs[i - 1] <= bs[i]
    requires bs != [] ==> lastAttack <= bs[0]
    ensures StrictlyIncreasing(FiredBands(bs, lastAttack))
  {
    if bs != [] {
      var rest := bs[1..];
      var next := if 0 <= bs[0] < |Attacks| && bs[0] != lastAttack then bs[0] else lastAttack;
      if rest != [] {
        NonDecreasingFromFirst(bs, 1);
      }
      FiredBandsIncreasing(rest, next);
      if 0 <= bs[0] < |Attacks| && bs[0] != lastAttack {
        var f := FiredBands(rest, next);
        FiredBandsMembers(rest, next);
        forall k | 0 <= k < |f| ensures bs[0] < f[k] {
          assert f[k] in f;
        }
        assert FiredBands(bs, lastAttack) == [bs[0]] + f;
      }
    }
  }

  lemma {:induction false} NonDecreasingFromFirst(bs: seq<int>, j: nat)
    requires forall i :: 0 < i < |bs| ==> bs[i - 1] <= bs[i]
    requires j < |bs|
    ensures bs[0] <= bs[j]
  {
    if j > 0 {
      NonDecreasingFromFirst(bs, j - 1);
    }
  }

  /** Under non-decreasing progress the fired indices strictly increase, all
      lie above the starting guard, and an index fires iff some update lands
      in its band; so each attack fires at most once, at most six fire, and a
      band jumped over in one update never fires. */
  lemma FiredUnderNonDecreasingProgress(ps: seq<real>, lastAttack: int)
    requires NonDecreasing(ps)
    requires ps != [] ==> lastAttack <= AttackIndex(ps[0])
    ensures StrictlyIncreasing(Fired(ps, lastAttack))
    ensures forall x :: x in Fired(ps, lastAttack) <==> 0 <= x && lastAttack < x && x in Bands(ps)
  {
    var bs := Bands(ps);
    forall i | 0 < i < |bs| ensures bs[i - 1] <= bs[i] {
      AttackIndexMonotone(ps[i - 1], ps[i]);
    }
    FiredReadsBands(ps, lastAttack);
    FiredBandsMembers(bs, lastAttack);
    FiredBandsIncreasing(bs, lastAttack);
  }

  function Range(n: nat): (s: seq<int>)
    ensures |s| == n && forall k :: 0 <= k < n ==> s[k] == k
  {
    seq(n, k requires 0 <= k => k)
  }

  /** A strictly increasing list covering exactly lo..lo+n-1 is that range. */
  lemma {:induction false} IncreasingCover(s: seq<int>, lo: int, n: nat)
    requires StrictlyIncreasing(s)
    requires forall x :: x in s <==> lo <= x < lo + n
    ensures |s| == n && forall k :: 0 <= k < n ==> s[k] == lo + k
  {
    assert |s| > 0 ==> s[0] in s;
    assert n > 0 ==> lo in s;
    if n > 0 {
      CoverHead(s, lo, n);
      CoverTail(s, lo, n);
      IncreasingCover(s[1..], lo + 1, n - 1);
      forall k | 0 <= k < n ensures s[k] == lo + k {
        if k > 0 {
          assert s[k] == s[1..][k - 1];
        }
      }
    }
  }

  /** The least element of the covered range comes first. */
  lemma CoverHead(s: seq<int>, lo: int, n: nat)
    requires StrictlyIncreasing(s) && n > 0
    requires forall x :: x in s <==> lo <= x < lo + n
    ensures |s| > 0 && s[0] == lo
  {
    assert lo in s;
    var j :| 0 <= j < |s| && s[j] == lo;
    assert s[0] in s;
  }

  /** Dropping the first element leaves the rest of the range. */
  lemma CoverTail(s: seq<int>, lo: int, n: nat)
    requires StrictlyIncreasing(s) && n > 0 && |s| > 0 && s[0] == lo
    requires forall x :: x in s <==> lo <= x < lo + n
    ensures forall x :: x in s[1..] <==> lo + 1 <= x < lo + n
  {
    forall x ensures x in s[1..] <==> lo + 1 <= x < lo + n {
      if x in s[1..] {
        var m :| 0 <= m < |s[1..]| && s[1..][m] == x;
        assert s[m + 1] == x && s[0] < s[m + 1];
        assert x in s;
      }
      if lo + 1 <= x < lo + n {
        assert x in s;
        var m :| 0 <= m < |s| && s[m] == x;
        assert m != 0;
        assert s[1..][m - 1] == x;
      }
    }
  }

  /** A sweep of non-decreasing progress from the start of the scene that
      lands in every band fires each attack exactly once, in order. */
  lemma SweepFiresEachAttackOnceInOrder(ps: seq<real>)
    requires NonDecreasing(ps)
    requires forall i :: 0 <= i < |Attacks| ==> i in Bands(ps)
    ensures Fired(ps, -1) == Range(|Attacks|)
  {
    FiredUnderNonDecreasingProgress(ps, -1);
    var f := Fired(ps, -1);
    forall x ensures x in f <==> 0 <= x < |Attacks| {
      if x in Bands(ps) {
        var k :| 0 <= k < |ps| && Bands(ps)[k] == x;
        assert x < |Attacks|;
      }
    }
    IncreasingCover(f, 0, |Attacks|);
  }

  /** Screen shake by attack type. */
  function ShakeFor(kind: AttackKind): (s: nat)
  {
    if kind == Ultimate || kind == Finisher then 12 else 6
  }

  /** The screen flash: none (the empty string in the scene), or a colour. */
  datatype Flash = NoFlash | Yellow | Pink | White

  /** Flash colour by attack type. */
  function FlashFor(kind: AttackKind): (c: Flash)
  {
    if kind == Ultimate then Yellow else if kind == Finisher then Pink else White
  }

  predicate SlowsTime(kind: AttackKind) {
    kind == Ultimate || kind == Finisher
  }

  predicate Staggers(kind: AttackKind) {
    kind == Super || kind == Ultimate || kind == Finisher
  }

  /** In the attack table: slow motion only on attacks 3 and 5, stagger on 1, 3
      and 5, the big shake on 3 and 5, a yellow flash on 3, a pink one on 5 and
      a white one on every other attack. */
  lemma AttackEffectsByIndex()
    ensures forall i :: 0 <= i < |Attacks| ==> (SlowsTime(Attacks[i].kind) <==> i == 3 || i == 5)
    ensures forall i :: 0 <= i < |Attacks| ==> (Staggers(Attacks[i].kind) <==> i == 1 || i == 3 || i == 5)
    ensures forall i :: 0 <= i < |Attacks| ==> ShakeFor(Attacks[i].kind) == (if i == 3 || i == 5 then 12 else 6)
    ensures forall i :: 0 <= i < |Attacks| ==>
      FlashFor(Attacks[i].kind) == (if i == 3 then Yellow else if i == 5 then Pink else White)
  {
  }

  datatype DamageNumber = DamageNumber(value: nat, kind: AttackKind, color: string)

  /** A splatter's size is fixed at 200 for big hits and random otherwise. */
  datatype SplatterSize = FixedSize200 | RandomSize

  datatype PaintSplatter = PaintSplatter(size: SplatterSize)

  function SplatterFor(kind: AttackKind): PaintSplatter {
    if kind == Ultimate || kind == Finisher then PaintSplatter(FixedSize200) else PaintSplatter(RandomSize)
  }

  /** `slice(-2)`: the last two entries, or all of them when there are fewer. */
  function LastTwo<T>(s: seq<T>): (r: seq<T>)
    ensures |r| == if |s| < 2 then |s| else 2
    ensures r == s[|s| - |r|..]
  {
    if |s| <= 2 then s else s[|s| - 2..]
  }

  /** The quick-time-event flags. */
  datatype Qte = Qte(show: bool, success: bool)

  /** One update of the QTE flags: open the prompt inside the window unless
      already won, win once past the window while the prompt is open. */
  function QteStep(q: Qte, progress: real): (r: Qte)
    ensures q.success ==> r.success
    ensures r.success && !q.success ==> q.show && progress >= QteClose
    ensures r.show && !q.show ==> QteOpen < progress < QteClose
    ensures r.success && !q.success ==> !r.show
    ensures QteOpen < progress < QteClose && !q.success ==> r.show && !r.success
    ensures progress >= QteClose && q.show ==> r.success && !r.show
    ensures !(QteOpen < progress < QteClose && !q.success) && !(progress >= QteClose && q.show) ==> r == q
  {
    if QteOpen < progress < QteClose && !q.success then Qte(true, q.success)
    else if progress >= QteClose && q.show then Qte(false, true)
    else q
  }

  function QteAfter(q: Qte, ps: seq<real>): Qte
    decreases |ps|
  {
    if ps == [] then q else QteAfter(QteStep(q, ps[0]), ps[1..])
  }

  /** The prompt is on screen iff it is shown and not yet won. */
  predicate PromptVisible(q: Qte) {
    q.show && !q.success
  }

  /** Success needs a visit to the window: from the initial flags, no run of
      updates wins unless one of its progress values lies strictly inside it. */
  lemma {:induction false} QteSuccessNeedsWindow(q: Qte, ps: seq<real>)
    requires QteAfter(q, ps).success
    ensures q.success || q.show || exists k :: 0 <= k < |ps| && QteOpen < ps[k] < QteClose
    decreases |ps|
  {
    if ps != [] {
      var q' := QteStep(q, ps[0]);
      QteSuccessNeedsWindow(q', ps[1..]);
      if exists k :: 0 <= k < |ps[1..]| && QteOpen < ps[1..][k] < QteClose {
        var k :| 0 <= k < |ps[1..]| && QteOpen < ps[1..][k] < QteClose;
        assert ps[k + 1] == ps[1..][k];
      }
    }
  }

  /** Success is never cleared, so after it the prompt never shows again. */
  lemma {:induction false} QteSuccessIsFinal(q: Qte, ps: seq<real>)
    requires q.success
    ensures QteAfter(q, ps).success && !PromptVisible(QteAfter(q, ps))
    decreases |ps|
  {
    if ps != [] {
      QteSuccessIsFinal(QteStep(q, ps[0]), ps[1..]);
    }
  }

  /** Once the prompt is shown (or the QTE won), any run that reaches the
      end of the window wins. */
  lemma {:induction false} QteArmedWins(q: Qte, ps: seq<real>, j: nat)
    requires q.show || q.success
    requires j < |ps| && ps[j] >= QteClose
    ensures QteAfter(q, ps).success
    decreases |ps|
  {
    var q' := QteStep(q, ps[0]);
    if j == 0 {
      QteSuccessIsFinal(q', ps[1..]);
    } else {
      assert ps[1..][j - 1] == ps[j];
      QteArmedWins(q', ps[1..], j - 1);
    }
  }

  /** Liveness of the QTE: a run that visits the window and later reaches
      0.88 ends won, whatever the flags it started from. */
  lemma {:induction false} QteWindowThenCloseWins(q: Qte, ps: seq<real>, i: nat, j: nat)
    requires i < j < |ps|
    requires QteOpen < ps[i] < QteClose && ps[j] >= QteClose
    ensures QteAfter(q, ps).success
    decreases |ps|
  {
    var q' := QteStep(q, ps[0]);
    assert ps[1..][j - 1] == ps[j];
    if i == 0 {
      QteArmedWins(q', ps[1..], j - 1);
    } else {
      assert ps[1..][i - 1] == ps[i];
      QteWindowThenCloseWins(q', ps[1..], i - 1, j - 1);
    }
  }

  /** Controller button `i` is lit when an attack is current and `i` is its index mod 4. */
  predicate ButtonLit(i: nat, currentAttack: int) {
    currentAttack >= 0 && i == currentAttack % 4
  }

  /** Exactly one of the four buttons is lit once an attack has fired, none before. */
  lemma OneButtonLit(currentAttack: int)
    requires -1 <= currentAttack < |Attacks|
    ensures currentAttack == -1 ==> forall i :: 0 <= i < 4 ==> !ButtonLit(i, currentAttack)
    ensures currentAttack >= 0 ==> exists i :: 0 <= i < 4 && ButtonLit(i, currentAttack)
    ensures forall i, j :: 0 <= i < j < 4 ==> !(ButtonLit(i, currentAttack) && ButtonLit(j, currentAttack))
  {
    if currentAttack >= 0 {
      assert ButtonLit(currentAttack % 4, currentAttack);
    }
  }

  /** The attack-index loop of the effect: keep the last threshold reached. */
  method FindAttackIndex(progress: real) returns (attackIndex: int)
    ensures attackIndex == AttackIndex(progress)
  {
    attackIndex := -1;
    for i := 0 to |AttackThresholds|
      invariant attackIndex == LastReached(AttackThresholds[..i], progress)
    {
      assert AttackThresholds[..i + 1][..i] == AttackThresholds[..i];
      if progress >= AttackThresholds[i] {
        attackIndex := i;
      }
    }
    assert AttackThresholds[..|AttackThresholds|] == AttackThresholds;
  }

  class BossFight {
    var bossHealth: real
    var currentAttack: int
    var comboCount: nat
    var shake: nat
    var flash: Flash
    var showQTE: bool
    var qteSuccess: bool
    var playerAttacking: bool
    var bossHit: bool
    var bossStagger: bool
    var paintSplatters: seq<PaintSplatter>
    var damageNumbers: seq<DamageNumber>
    var slowMo: bool
    var lastAttack: int

    /** Attacks whose 200 ms hit reaction is pending, oldest first. */
    var pendingHits: seq<nat>
    /** Pending 500 ms resets, 2000 ms damage-number trims and 800 ms slow-motion ends. */
    var pendingResets: nat
    var pendingTrims: nat
    var pendingSlowMoEnds: nat

    ghost predicate Valid()
      reads this
    {
      && -1 <= lastAttack < 6
      && currentAttack == lastAttack
      && (forall k :: 0 <= k < |pendingHits| ==> pendingHits[k] < 6)
      && comboCount == |paintSplatters|
    }

    constructor ()
      ensures Valid()
      ensures bossHealth == 100.0 && currentAttack == -1 && lastAttack == -1 && comboCount == 0
      ensures shake == 0 && flash == NoFlash && !showQTE && !qteSuccess && !slowMo
      ensures !playerAttacking && !bossHit && !bossStagger
      ensures paintSplatters == [] && damageNumbers == []
      ensures pendingHits == [] && pendingResets == 0 && pendingTrims == 0 && pendingSlowMoEnds == 0
    {
      bossHealth := 100.0;
      currentAttack, lastAttack := -1, -1;
      comboCount := 0;
      shake, flash := 0, NoFlash;
      showQTE, qteSuccess := false, false;
      playerAttacking, bossHit, bossStagger := false, false, false;
      paintSplatters, damageNumbers := [], [];
      slowMo := false;
      pendingHits, pendingResets, pendingTrims, pendingSlowMoEnds := [], 0, 0, 0;
    }

    /** The progress effect. */
    method Step(progress: real)
      requires Valid()
      modifies this`bossHealth, this`showQTE, this`qteSuccess
      modifies this`lastAttack, this`currentAttack, this`pendingHits, this`pendingResets, this`pendingTrims
      modifies this`playerAttacking, this`shake, this`flash, this`slowMo, this`pendingSlowMoEnds
      ensures Valid()
      ensures bossHealth == Health(progress)
      ensures lastAttack == NextLastAttack(old(lastAttack), progress)
      ensures Qte(showQTE, qteSuccess) == QteStep(Qte(old(showQTE), old(qteSuccess)), progress)
      ensures Fires(old(lastAttack), progress) ==>
        var a := Attacks[lastAttack];
        && pendingHits == old(pendingHits) + [lastAttack]
        && playerAttacking && shake == ShakeFor(a.kind) && flash == FlashFor(a.kind)
        && slowMo == (SlowsTime(a.kind) || old(slowMo))
        && pendingSlowMoEnds == old(pendingSlowMoEnds) + (if SlowsTime(a.kind) then 1 else 0)
        && pendingResets == old(pendingResets) + 1 && pendingTrims == old(pendingTrims) + 1
      ensures !Fires(old(lastAttack), progress) ==>
        && pendingHits == old(pendingHits)
        && playerAttacking == old(playerAttacking) && shake == old(shake) && flash == old(flash)
        && slowMo == old(slowMo) && pendingSlowMoEnds == old(pendingSlowMoEnds)
        && pendingResets == old(pendingResets) && pendingTrims == old(pendingTrims)
    {
      bossHealth := Health(progress);
      var attackIndex := FindAttackIndex(progress);
      if attackIndex >= 0 && attackIndex < |Attacks| && attackIndex != lastAttack {
        Trigger(attackIndex);
      }
      UpdateQte(progress);
    }

    /** The quick-time-event part of the effect. */
    method UpdateQte(progress: real)
      modifies this`showQTE, this`qteSuccess
      ensures Qte(showQTE, qteSuccess) == QteStep(Qte(old(showQTE), old(qteSuccess)), progress)
    {
      if QteOpen < progress < QteClose && !qteSuccess {
        showQTE := true;
      } else if progress >= QteClose && showQTE {
        showQTE := false;
        qteSuccess := true;
      }
    }

    /** Trigger attack `i`: record it in the guard, show the player's attack
        and arm the hit, reset and trim timeouts. */
    method Trigger(i: nat)
      requires Valid() && i < 6 && i != lastAttack
      modifies this`lastAttack, this`currentAttack, this`pendingHits, this`pendingResets, this`pendingTrims
      modifies this`playerAttacking, this`shake, this`flash, this`slowMo, this`pendingSlowMoEnds
      ensures Valid()
      ensures lastAttack == i && pendingHits == old(pendingHits) + [i]
      ensures pendingResets == old(pendingResets) + 1 && pendingTrims == old(pendingTrims) + 1
      ensures var kind := Attacks[i].kind;
        && playerAttacking && shake == ShakeFor(kind) && flash == FlashFor(kind)
        && slowMo == (SlowsTime(kind) || old(slowMo))
        && pendingSlowMoEnds == old(pendingSlowMoEnds) + (if SlowsTime(kind) then 1 else 0)
    {
      lastAttack, currentAttack := i, i;
      ShowAttack(Attacks[i].kind);
      pendingHits := pendingHits + [i];
      pendingResets, pendingTrims := pendingResets + 1, pendingTrims + 1;
    }

    /** The attack's visual effects: the type's shake and flash, and slow
        motion with its 800 ms end for the two big attack types. */
    method ShowAttack(kind: AttackKind)
      modifies this`playerAttacking, this`shake, this`flash, this`slowMo, this`pendingSlowMoEnds
      ensures playerAttacking && shake == ShakeFor(kind) && flash == FlashFor(kind)
      ensures slowMo == (SlowsTime(kind) || old(slowMo))
      ensures pendingSlowMoEnds == old(pendingSlowMoEnds) + (if SlowsTime(kind) then 1 else 0)
    {
      playerAttacking := true;
      shake, flash := ShakeFor(kind), FlashFor(kind);
      if SlowsTime(kind) {
        slowMo := true;
        pendingSlowMoEnds := pendingSlowMoEnds + 1;
      }
    }

    /** The oldest 200 ms hit reaction lands: the boss reacts, one damage
        number carrying the attack's damage and one splatter are appended,
        and the combo grows by exactly one. */
    method HitLands()
      requires Valid() && pendingHits != []
      modifies this`bossHit, this`bossStagger, this`damageNumbers, this`paintSplatters, this`comboCount, this`pendingHits
      ensures Valid()
      ensures var a := Attacks[old(pendingHits)[0]];
        && bossHit && bossStagger == Staggers(a.kind)
        && damageNumbers == old(damageNumbers) + [DamageNumber(a.damage, a.kind, a.color)]
        && paintSplatters == old(paintSplatters) + [SplatterFor(a.kind)]
        && comboCount == old(comboCount) + 1
        && pendingHits == old(pendingHits)[1..]
    {
      var attack := Attacks[pendingHits[0]];
      bossHit := true;
      bossStagger := Staggers(attack.kind);
      damageNumbers := damageNumbers + [DamageNumber(attack.damage, attack.kind, attack.color)];
      paintSplatters := paintSplatters + [SplatterFor(attack.kind)];
      comboCount := comboCount + 1;
      pendingHits := pendingHits[1..];
    }

    /** A 500 ms reset fires. */
    method ResetFires()
      requires Valid() && pendingResets > 0
      modifies this`playerAttacking, this`bossHit, this`bossStagger, this`shake, this`flash, this`pendingResets
      ensures Valid()
      ensures !playerAttacking && !bossHit && !bossStagger && shake == 0 && flash == NoFlash
      ensures pendingResets == old(pendingResets) - 1
    {
      playerAttacking := false;
      bossHit, bossStagger := false, false;
      shake := 0;
      flash := NoFlash;
      pendingResets := pendingResets - 1;
    }

    /** A 2000 ms trim fires: keep the last two damage numbers. */
    method TrimFires()
      requires Valid() && pendingTrims > 0
      modifies this`damageNumbers, this`pendingTrims
      ensures Valid()
      ensures damageNumbers == LastTwo(old(damageNumbers))
      ensures pendingTrims == old(pendingTrims) - 1
    {
      damageNumbers := LastTwo(damageNumbers);
      pendingTrims := pendingTrims - 1;
    }

    /** An 800 ms slow-motion end fires. */
    method SlowMoEnds()
      requires Valid() && pendingSlowMoEnds > 0
      modifies this`slowMo, this`pendingSlowMoEnds
      ensures Valid()
      ensures !slowMo && pendingSlowMoEnds == old(pendingSlowMoEnds) - 1
    {
      slowMo := false;
      pendingSlowMoEnds := pendingSlowMoEnds - 1;
    }
  }
}
