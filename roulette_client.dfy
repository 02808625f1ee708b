/**
 * The roulette page of roulette.js: the wheel order and colour lists, the
 * rotation the wheel spins to for the server's number, the ease-out curve of the
 * spin, and the play request behind the shared `isPlaying` guard.  Angles are
 * measured in full turns (one turn is 2π radians).
 */
module RouletteClient {
  import opened Common
  import opened Rules
  import opened Server
  import opened ClientPage

  /** The pockets around the wheel, clockwise from zero. */
  const WheelOrder: seq<int> := [0, 32, 15, 19, 4, 21, 2, 25, 17, 34, 6, 27, 13, 36, 11, 30, 8, 23, 10,
                                 5, 24, 16, 33, 1, 20, 14, 31, 9, 22, 18, 29, 7, 28, 12, 35, 3, 26]

  /** The client's own copy of the red numbers. */
  const ClientRedNumbers: seq<int> := [1, 3, 5, 7, 9, 12, 14, 16, 18, 19, 21, 23, 25, 27, 30, 32, 34, 36]

  /** Where each number 0..36 sits in WheelOrder: the inverse of the wheel. */
  const PocketOf: seq<int> := [0, 23, 6, 35, 4, 19, 10, 31, 16, 27, 18, 14, 33, 12, 25, 2, 21, 8, 29,
                               3, 24, 5, 28, 17, 20, 7, 36, 11, 32, 30, 15, 26, 1, 22, 9, 34, 13]

  lemma PocketOfInvertsLowerHalf()
    ensures forall i :: 0 <= i < 19 ==> 0 <= WheelOrder[i] <= 36 && PocketOf[WheelOrder[i]] == i
  {
  }

  lemma PocketOfInvertsUpperHalf()
    ensures forall i :: 19 <= i < 37 ==> 0 <= WheelOrder[i] <= 36 && PocketOf[WheelOrder[i]] == i
  {
  }

  lemma WheelOrderInvertsPocketOf()
    ensures forall n :: 0 <= n <= 36 ==> WheelOrder[PocketOf[n]] == n
  {
  }

  /** The wheel has 37 pockets holding each of 0..36 exactly once. */
  lemma WheelOrderIsPermutation()
    ensures |WheelOrder| == 37
    ensures NoDuplicates(WheelOrder)
    ensures forall n :: n in WheelOrder <==> 0 <= n <= 36
  {
    PocketOfInvertsLowerHalf();
    PocketOfInvertsUpperHalf();
    WheelOrderInvertsPocketOf();
    forall n | 0 <= n <= 36
      ensures n in WheelOrder
    {
      assert WheelOrder[PocketOf[n]] == n;
    }
    forall i, j | 0 <= i < j < 37
      ensures WheelOrder[i] != WheelOrder[j]
    {
      assert PocketOf[WheelOrder[i]] == i;
    }
  }

  /** `Array.prototype.indexOf`: the first index holding x, or -1. */
  function IndexOf(s: seq<int>, x: int): (i: int)
    ensures -1 <= i < |s|
    ensures i == -1 <==> x !in s
    ensures 0 <= i ==> s[i] == x && x !in s[..i]
  {
    if |s| == 0 then -1
    else if s[0] == x then 0
    else
      var j := IndexOf(s[1..], x);
      assert s[1..][..if j < 0 then 0 else j] == s[1..if j < 0 then 1 else j + 1];
      if j == -1 then -1 else j + 1
  }

  /** Every number the server can draw has a pocket, and the pocket found holds that number. */
  lemma WheelIndex(n: int)
    requires 0 <= n <= 36
    ensures 0 <= IndexOf(WheelOrder, n) < 37
    ensures WheelOrder[IndexOf(WheelOrder, n)] == n
  {
    WheelOrderIsPermutation();
  }

  /** The rotation the spin ends at: five full turns plus the pocket's share of a turn. */
  function TargetTurns(finalNumber: int): real {
    5.0 + IndexOf(WheelOrder, finalNumber) as real / 37.0
  }

  /** For a drawn number the target lies in the sixth turn, at the pocket of that number. */
  lemma TargetTurnsRange(n: int)
    requires 0 <= n <= 36
    ensures 5.0 <= TargetTurns(n) < 6.0
    ensures (TargetTurns(n) - 5.0) * 37.0 == IndexOf(WheelOrder, n) as real
  {
    WheelIndex(n);
  }

  /** The spin lasts 3000 ms. */
  const SpinDuration: real := 3000.0

  /** `min(elapsed / duration, 1)`. */
  function Progress(elapsed: real): (p: real)
    requires 0.0 <= elapsed
    ensures 0.0 <= p <= 1.0
    ensures p == 1.0 <==> elapsed >= SpinDuration
  {
    var q := elapsed / SpinDuration;
    if q < 1.0 then q else 1.0
  }

  /** x raised to the n-th power. */
  function Power(x: real, n: nat): real {
    if n == 0 then 1.0 else x * Power(x, n - 1)
  }

  function Cube(x: real): real {
    Power(x, 3)
  }

  /** The ease-out curve `1 - (1 - p)^3`. */
  function Ease(p: real): real {
    1.0 - Cube(1.0 - p)
  }

  lemma CubeIsProduct(x: real)
    ensures Cube(x) == x * (x * x)
  {
    assert Power(x, 1) == x * Power(x, 0) == x;
    assert Power(x, 2) == x * Power(x, 1);
    assert Power(x, 3) == x * Power(x, 2);
  }

  /** Scaling by a non-negative factor keeps the order. */
  lemma ScaleBy(x: real, y: real, z: real)
    requires 0.0 <= x && y <= z
    ensures x * y <= x * z && y * x <= z * x
  {
    assert x * (z - y) >= 0.0;
  }

  lemma CubeMonotone(a: real, b: real)
    requires 0.0 <= a <= b
    ensures 0.0 <= Cube(a) <= Cube(b)
  {
    CubeIsProduct(a);
    CubeIsProduct(b);
    var sa, sb := a * a, b * b;
    ScaleBy(a, a, b);
    ScaleBy(b, a, b);
    ScaleBy(a, 0.0, a);
    assert 0.0 <= sa <= sb;
    ScaleBy(a, sa, sb);
    ScaleBy(sb, a, b);
    ScaleBy(a, 0.0, sa);
    assert 0.0 <= a * sa <= a * sb <= b * sb;
  }

  /** The curve starts at 0 and ends at 1. */
  lemma EaseEnds()
    ensures Ease(0.0) == 0.0 && Ease(1.0) == 1.0
  {
  }

  /** The curve never decreases on [0, 1]. */
  lemma EaseMonotone(p: real, q: real)
    requires 0.0 <= p <= q <= 1.0
    ensures Ease(p) <= Ease(q)
  {
    CubeMonotone(1.0 - q, 1.0 - p);
  }

  /** The curve stays within [0, 1]. */
  lemma EaseBounded(p: real)
    requires 0.0 <= p <= 1.0
    ensures 0.0 <= Ease(p) <= 1.0
  {
    CubeMonotone(1.0 - p, 1.0);
  }

  lemma ProgressMonotone(e: real, e': real)
    requires 0.0 <= e <= e'
    ensures Progress(e) <= Progress(e')
  {
  }

  /**
   * A later frame never shows the wheel turned back, and no frame turns it
   * past the target.
   */
  lemma RotationMonotone(target: real, e: real, e': real)
    requires 0.0 <= target && 0.0 <= e <= e'
    ensures 0.0 <= target * Ease(Progress(e)) <= target * Ease(Progress(e')) <= target
  {
    var p, p' := Progress(e), Progress(e');
    ProgressMonotone(e, e');
    EaseMonotone(p, p');
    EaseBounded(p);
    EaseBounded(p');
    ScaleBy(target, Ease(p), Ease(p'));
    ScaleBy(target, 0.0, Ease(p));
    ScaleBy(target, Ease(p'), 1.0);
  }

  /**
   * animateRouletteWheel: each animation frame, at the elapsed times given,
   * turns the wheel to target × ease(progress) and asks for another frame while
   * progress < 1; the frame where progress reaches 1 shows the target and
   * resolves the spin.  Frames after that are not used.
   */
  method Spin(target: real, elapsed: seq<real>) returns (rotations: seq<real>, finished: bool)
    requires forall i :: 0 <= i < |elapsed| ==> 0.0 <= elapsed[i]
    ensures |rotations| <= |elapsed|
    ensures forall i :: 0 <= i < |rotations| ==> rotations[i] == target * Ease(Progress(elapsed[i]))
    ensures forall i :: 0 <= i < |rotations| - 1 ==> elapsed[i] < SpinDuration
    ensures finished <==> 0 < |rotations| && elapsed[|rotations| - 1] >= SpinDuration
    ensures !finished ==> |rotations| == |elapsed|
    ensures finished ==> rotations[|rotations| - 1] == target
  {
    rotations := [];
    finished := false;
    var k := 0;
    while k < |elapsed| && !finished
      invariant 0 <= k <= |elapsed| && |rotations| == k
      invariant forall i :: 0 <= i < k ==> rotations[i] == target * Ease(Progress(elapsed[i]))
      invariant forall i :: 0 <= i < k - 1 ==> elapsed[i] < SpinDuration
      invariant finished <==> 0 < k && elapsed[k - 1] >= SpinDuration
      decreases |elapsed| - k
    {
      var progress := Progress(elapsed[k]);
      rotations := rotations + [target * Ease(progress)];
      finished := !(progress < 1.0);
      k := k + 1;
    }
    if finished {
      EaseEnds();
      assert Progress(elapsed[k - 1]) == 1.0;
    }
  }

  datatype Colour = Green | Red | Dark

  /** The colour of a pocket and of the result: green for 0, red for the red list, dark otherwise. */
  function PocketColour(n: int): Colour {
    if n == 0 then Green
    else if n in ClientRedNumbers then Red
    else Dark
  }

  /** The client's red list is the server's, so on 1..36 red and dark are the server's red and black. */
  lemma PocketColourMatchesServer(n: int)
    requires 0 <= n <= 36
    ensures ClientRedNumbers == RedNumbers
    ensures PocketColour(n) == Green <==> n == 0
    ensures PocketColour(n) == Red <==> IsRed(n)
    ensures PocketColour(n) == Dark <==> IsBlack(n)
  {
    RedBlackDisjoint();
    RedBlackPartition();
  }

  class RouletteGame {
    /** The result box: None while it shows '...' or nothing yet. */
    var shownNumber: Option<int>
    var shownColour: Colour

    constructor ()
      ensures shownNumber.None?
    {
      shownNumber := None;
      shownColour := Green;
    }

    /** The opening of playRoulette: the shared guard; a sent play blanks the result box. */
    method PlayRequest(page: Page, bet: real) returns (sent: bool)
      modifies this, page
      ensures sent <==> !old(page.isPlaying) && Affordable(bet, old(page.currentBalance))
      ensures sent ==> page.isPlaying && page.currentBalance == old(page.currentBalance) && shownNumber.None?
      ensures !sent ==> unchanged(this) && unchanged(page)
    {
      sent := page.BeginPlay(bet);
      if sent {
        shownNumber := None;
      }
    }

    /**
     * The rest of playRoulette: a reply spins the wheel to the number's pocket;
     * once the spin resolves, the number is shown in its colour, the balance is
     * taken and the page is freed.  Until the spin has resolved the page stays
     * busy.  An error frees the page at once.
     */
    method PlayReply(page: Page, reply: Response<RouletteReply>, elapsed: seq<real>) returns (finished: bool)
      requires forall i :: 0 <= i < |elapsed| ==> 0.0 <= elapsed[i]
      modifies this, page
      ensures !reply.Answer? ==> finished && !page.isPlaying && page.currentBalance == old(page.currentBalance)
      ensures !reply.Answer? ==> shownNumber == old(shownNumber)
      ensures reply.Answer? && finished ==>
        && !page.isPlaying && page.currentBalance == reply.body.balance
        && shownNumber == Some(reply.body.number) && shownColour == PocketColour(reply.body.number)
      ensures reply.Answer? && !finished ==> unchanged(this) && unchanged(page)
    {
      if !reply.Answer? {
        page.EndPlay(None);
        return true;
      }
      var d := reply.body;
      var rotations;
      rotations, finished := Spin(TargetTurns(d.number), elapsed);
      if finished {
        shownNumber := Some(d.number);
        shownColour := PocketColour(d.number);
        page.EndPlay(Some(d.balance));
      }
    }
  }
}
