/**
 * The dice page of dice.js: the odds shown beside the target slider, the
 * over/under choice, the play request behind the shared `isPlaying` guard and
 * the 30-tick roll animation that ends on the server's roll.
 */
module DiceClient {
  import opened Common
  import opened Rules
  import opened Server
  import opened ClientPage

  /** The chance (in percent) and the multiplier shown by updateDiceStats. */
  datatype DiceStats = DiceStats(winChance: real, multiplier: real)

  /** updateDiceStats: the client computes the odds the server will pay. */
  function ShownStats(target: real, over: bool): (s: DiceStats)
    ensures s.winChance == DiceWinChance(target, over)
    ensures s.multiplier == DicePayout(DiceWinChance(target, over))
  {
    var winChance := if over then 100.0 - target else target;
    DiceStats(winChance, if winChance > 0.0 then 98.0 / winChance else 0.0)
  }

  /** The slider is bounded to [1, 99], so the chance shown is too and the multiplier is positive. */
  lemma SliderStats(target: real, over: bool)
    requires 1.0 <= target <= 99.0
    ensures 1.0 <= ShownStats(target, over).winChance <= 99.0
    ensures ShownStats(target, over).multiplier > 0.0
    ensures ShownStats(target, over).multiplier * ShownStats(target, over).winChance == 98.0
  {
    var c := ShownStats(target, over).winChance;
    assert (98.0 / c) * c == 98.0;
  }

  /** The number in the result box: the initial '?', a random roll while animating, or the final roll. */
  datatype Face = Blank | Rolling(value: real) | Final(roll: real, won: bool)

  /** The roll animation runs this many 50 ms ticks. */
  const MaxIterations: nat := 30

  /**
   * animateDiceRoll: each tick shows a random roll; the 30th tick stops the
   * interval and shows the server's roll, coloured by the server's `won` flag.
   * `noise` holds the random values of the ticks.
   */
  method AnimateRoll(finalRoll: real, won: bool, noise: seq<real>) returns (faces: seq<Face>)
    requires |noise| >= MaxIterations
    ensures |faces| == MaxIterations
    ensures faces[MaxIterations - 1] == Final(finalRoll, won)
    ensures forall i :: 0 <= i < MaxIterations - 1 ==> faces[i] == Rolling(noise[i])
  {
    var iterations := 0;
    var running := true;
    faces := [];
    while running
      invariant 0 <= iterations <= MaxIterations
      invariant running <==> iterations < MaxIterations
      invariant |faces| == iterations
      invariant forall i :: 0 <= i < iterations && i < MaxIterations - 1 ==> faces[i] == Rolling(noise[i])
      invariant !running ==> faces[MaxIterations - 1] == Final(finalRoll, won)
      decreases MaxIterations - iterations
    {
      var face := Rolling(noise[iterations]);
      iterations := iterations + 1;
      if iterations >= MaxIterations {
        running := false;
        face := Final(finalRoll, won);
      }
      faces := faces + [face];
    }
  }

  class DiceGame {
    /** `diceOver`: false (roll under) until a prediction button is clicked. */
    var over: bool
    var face: Face

    constructor ()
      ensures !over && face == Blank
    {
      over := false;
      face := Blank;
    }

    /** A prediction button sets `diceOver` from its `data-over` attribute. */
    method Choose(isOver: bool)
      modifies this
      ensures over == isOver && face == old(face)
    {
      over := isOver;
    }

    /** The opening of playDice: the shared guard, then the request with the current prediction. */
    method PlayRequest(page: Page, bet: real) returns (sent: bool, sentOver: bool)
      modifies page
      ensures sent <==> !old(page.isPlaying) && Affordable(bet, old(page.currentBalance))
      ensures sent ==> page.isPlaying && page.currentBalance == old(page.currentBalance) && sentOver == over
      ensures !sent ==> unchanged(page)
    {
      sent := page.BeginPlay(bet);
      sentOver := over;
    }

    /**
     * The rest of playDice: a reply plays the animation and then takes the
     * balance; an error shows nothing new; in every case `finally` frees the page.
     */
    method PlayReply(page: Page, reply: Response<DiceReply>, noise: seq<real>)
      requires |noise| >= MaxIterations
      modifies this, page
      ensures !page.isPlaying && over == old(over)
      ensures reply.Answer? ==>
        face == Final(reply.body.roll, reply.body.won) && page.currentBalance == reply.body.balance
      ensures !reply.Answer? ==> face == old(face) && page.currentBalance == old(page.currentBalance)
    {
      if reply.Answer? {
        var faces := AnimateRoll(reply.body.roll, reply.body.won, noise);
        face := faces[MaxIterations - 1];
        page.EndPlay(Some(reply.body.balance));
      } else {
        page.EndPlay(None);
      }
    }
  }
}
