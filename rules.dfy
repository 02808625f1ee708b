/**
 * The settlement rules of the single-shot games of app.py (plinko, crash, dice,
 * limbo, roulette) and the stake check that opens every wager.  The random draw
 * of each game is a parameter; everything else is what the route computes from it.
 */
module Rules {
  import opened Common

  // ---------------------------------------------------------------------------
  // Stake check and single-shot accounting

  datatype StakeError = InsufficientBalance | InvalidBet

  /** The check every route performs, as written: `if user.balance < bet_amount`. */
  function StakeCheckAsWritten(balance: real, bet: real): (r: Option<StakeError>)
    ensures r == None <==> bet <= balance
    ensures r != None ==> r == Some(InsufficientBalance)
  {
    if balance < bet then Some(InsufficientBalance) else None
  }

  /**
   * The check with stakes required to be positive, as the bet inputs of every
   * game page (min="1") evidently intend.  The balance comparison keeps its
   * place and its error, so a positive stake is treated exactly as before.
   */
  function StakeCheck(balance: real, bet: real): (r: Option<StakeError>)
    ensures r == None <==> 0.0 < bet <= balance
    ensures 0.0 < bet ==> r == StakeCheckAsWritten(balance, bet)
  {
    if balance < bet then Some(InsufficientBalance)
    else if bet <= 0.0 then Some(InvalidBet)
    else None
  }

  /** What a round pays back: the stake times the multiplier. */
  function Winnings(bet: real, multiplier: real): real {
    bet * multiplier
  }

  /** The new balance after a single-shot game: the stake is taken, the winnings added. */
  function SettledBalance(balance: real, bet: real, multiplier: real): real {
    balance - bet + Winnings(bet, multiplier)
  }

  /**
   * As written, a negative stake passes the check, and losing it raises the
   * balance: a balance of 100 and a bet of -10 that loses leaves 110.
   */
  lemma NegativeStakeMintsMoney()
    ensures StakeCheckAsWritten(100.0, -10.0) == None
    ensures SettledBalance(100.0, -10.0, 0.0) == 110.0
  {
  }

  /** With the corrected check an accepted stake can only lose what was staked,
   *  never drives the balance below zero, and a loss always costs money. */
  lemma StakeCheckProtectsBalance(balance: real, bet: real, multiplier: real)
    requires StakeCheck(balance, bet) == None
    requires multiplier >= 0.0
    ensures SettledBalance(balance, bet, multiplier) >= 0.0
    ensures multiplier < 1.0 ==> SettledBalance(balance, bet, multiplier) < balance
    ensures multiplier == 0.0 ==> SettledBalance(balance, bet, multiplier) == balance - bet
  {
    assert bet * multiplier >= 0.0;
    if multiplier < 1.0 {
      assert bet * multiplier < bet * 1.0;
    }
  }

  /** The outcome of an odds game: whether it won and the multiplier paid (0 on a loss). */
  datatype OddsOutcome = OddsOutcome(won: bool, multiplier: real)

  // ---------------------------------------------------------------------------
  // Plinko

  datatype Risk = Low | Medium | High

  /** `multipliers[risk_level]`: an unknown level is a KeyError in the route. */
  function ParseRisk(s: string): (r: Option<Risk>)
    ensures r.Some? <==> s == "low" || s == "medium" || s == "high"
  {
    if s == "low" then Some(Low)
    else if s == "medium" then Some(Medium)
    else if s == "high" then Some(High)
    else None
  }

  /** The server's bucket multipliers, one per risk level. */
  function PlinkoTable(risk: Risk): seq<real> {
    match risk
    case Low => [0.5, 0.7, 0.9, 1.0, 1.1, 1.3, 1.5, 1.3, 1.1, 1.0, 0.9, 0.7, 0.5]
    case Medium => [0.3, 0.5, 0.7, 1.0, 1.5, 2.0, 3.0, 2.0, 1.5, 1.0, 0.7, 0.5, 0.3]
    case High => [0.2, 0.3, 0.5, 1.0, 2.0, 5.0, 10.0, 5.0, 2.0, 1.0, 0.5, 0.3, 0.2]
  }

  predicate Palindrome(t: seq<real>) {
    forall i :: 0 <= i < |t| ==> t[i] == t[|t| - 1 - i]
  }

  /** Every table has 13 buckets, reads the same from both ends, and pays the most in the middle. */
  lemma PlinkoTableShape(risk: Risk)
    ensures |PlinkoTable(risk)| == 13
    ensures Palindrome(PlinkoTable(risk))
    ensures forall i :: 0 <= i < 13 ==> 0.0 < PlinkoTable(risk)[i] <= PlinkoTable(risk)[6]
  {
  }

  /** `max(0, min(12, position))`. */
  function Clamp(position: int): int {
    if position < 0 then 0 else if position > 12 then 12 else position
  }

  predicate IsDirection(d: int) {
    d == -1 || d == 1
  }

  /**
   * The walk the loop records: each direction moves the ball from the previous
   * position (8 before the first), clamped to the 13 buckets.
   */
  function Walk(directions: seq<int>): (path: seq<int>)
    ensures |path| == |directions|
  {
    if directions == [] then []
    else
      var before := Walk(directions[..|directions| - 1]);
      var from := if before == [] then 8 else before[|before| - 1];
      before + [Clamp(from + directions[|directions| - 1])]
  }

  /**
   * The 16-row ball walk of play_plinko: start at bucket 8, move by each drawn
   * direction, clamp to the 13 buckets, record every position.
   */
  method DropBall(directions: seq<int>) returns (path: seq<int>)
    requires |directions| == 16
    requires forall i :: 0 <= i < 16 ==> IsDirection(directions[i])
    ensures path == Walk(directions)
    ensures |path| == 16
    ensures forall i :: 0 <= i < 16 ==> 0 <= path[i] <= 12
    ensures path[0] == Clamp(8 + directions[0]) && 7 <= path[0] <= 9
    ensures forall i :: 0 <= i < 15 ==> path[i + 1] == Clamp(path[i] + directions[i + 1])
    ensures forall i :: 0 <= i < 15 ==> -1 <= path[i + 1] - path[i] <= 1
  {
    path := [];
    var position := 8;
    for row := 0 to 16
      invariant |path| == row
      invariant path == Walk(directions[..row])
      invariant 0 <= position <= 12
      invariant row == 0 ==> position == 8
      invariant row > 0 ==> position == path[row - 1]
      invariant forall i :: 0 <= i < row ==> 0 <= path[i] <= 12
      invariant row > 0 ==> path[0] == Clamp(8 + directions[0])
      invariant forall i :: 0 <= i < row - 1 ==> path[i + 1] == Clamp(path[i] + directions[i + 1])
    {
      position := Clamp(position + directions[row]);
      assert directions[..row + 1][..row] == directions[..row];
      path := path + [position];
    }
    assert directions[..16] == directions;
  }

  /** The multiplier a finished walk pays: the final bucket's entry. */
  function PlinkoMultiplier(risk: Risk, path: seq<int>): (m: real)
    requires |path| == 16 && 0 <= path[15] <= 12
    ensures m == PlinkoTable(risk)[path[15]]
    ensures m == PlinkoTable(risk)[12 - path[15]]
  {
    PlinkoTableShape(risk);
    PlinkoTable(risk)[path[15]]
  }

  // ---------------------------------------------------------------------------
  // Dice

  /** `100 - target` when rolling over, `target` when rolling under. */
  function DiceWinChance(target: real, over: bool): real {
    if over then 100.0 - target else target
  }

  /** `98 / win_chance`, or 0 when the chance is not positive. */
  function DicePayout(winChance: real): real {
    if winChance > 0.0 then 98.0 / winChance else 0.0
  }

  function DiceOutcome(target: real, over: bool, roll: real): (o: OddsOutcome)
    ensures o.won <==> (if over then roll > target else roll < target)
    ensures !o.won ==> o.multiplier == 0.0
    ensures o.won ==> o.multiplier == DicePayout(DiceWinChance(target, over))
  {
    var won := if over then roll > target else roll < target;
    OddsOutcome(won, if won then DicePayout(DiceWinChance(target, over)) else 0.0)
  }

  /** A winning roll in [0, 100] always has a positive chance, so it always pays 98/chance. */
  lemma DiceWinPays(target: real, over: bool, roll: real)
    requires 0.0 <= roll <= 100.0
    requires DiceOutcome(target, over, roll).won
    ensures DiceWinChance(target, over) > 0.0
    ensures DiceOutcome(target, over, roll).multiplier == 98.0 / DiceWinChance(target, over) > 0.0
  {
  }

  // ---------------------------------------------------------------------------
  // Crash

  /** `min(crash_point, 100.0)`. */
  function CrashPoint(drawn: real): (p: real)
    ensures p <= 100.0 && (p == drawn || p == 100.0)
  {
    if drawn < 100.0 then drawn else 100.0
  }

  function CrashOutcome(autoCashout: real, crashPoint: real): (o: OddsOutcome)
    ensures o.won <==> autoCashout <= crashPoint
    ensures o.multiplier == if o.won then autoCashout else 0.0
  {
    if autoCashout <= crashPoint then OddsOutcome(true, autoCashout) else OddsOutcome(false, 0.0)
  }

  /** A round wins exactly when the auto-cashout lies at or below the capped crash point;
   *  so an auto-cashout above 100 never wins. */
  lemma CrashWinRule(autoCashout: real, drawn: real)
    ensures CrashOutcome(autoCashout, CrashPoint(drawn)).won <==> autoCashout <= CrashPoint(drawn) <= 100.0
    ensures autoCashout > 100.0 ==> !CrashOutcome(autoCashout, CrashPoint(drawn)).won
  {
  }

  /**
   * The sample path of play_crash: start at 1.00, step 0.01, then 0.05 once past
   * 2.00, then 0.10 once past 5.00, while below the crash point, then the crash
   * point itself.  Exact reals stand for the rounded floats.
   */
  method CrashPath(crashPoint: real) returns (path: seq<real>)
    ensures |path| >= 1 && path[|path| - 1] == crashPoint
    ensures forall i :: 0 <= i < |path| - 1 ==> 1.0 <= path[i] < crashPoint
    ensures forall i :: 0 <= i < |path| - 1 ==> path[i] < path[i + 1] <= path[i] + 0.1
    ensures crashPoint > 1.0 ==> path[0] == 1.0
    ensures crashPoint <= 1.0 ==> path == [crashPoint]
  {
    path := [];
    var current := 1.0;
    var step := 0.01;
    while current < crashPoint
      invariant 0.01 <= step <= 0.1
      invariant current >= 1.0
      invariant |path| == 0 ==> current == 1.0
      invariant |path| > 0 ==> path[0] == 1.0
      invariant |path| > 0 ==> path[|path| - 1] < current <= path[|path| - 1] + 0.1
      invariant forall i :: 0 <= i < |path| ==> 1.0 <= path[i] < crashPoint
      invariant forall i :: 0 <= i < |path| - 1 ==> path[i] < path[i + 1] <= path[i] + 0.1
      decreases (crashPoint - current) * 100.0
    {
      path := path + [current];
      current := current + step;
      if current > 2.0 {
        step := 0.05;
      }
      if current > 5.0 {
        step := 0.1;
      }
    }
    path := path + [crashPoint];
  }

  // ---------------------------------------------------------------------------
  // Limbo

  /** The piecewise transform of the uniform draw into a result, before the cap. */
  function LimboDraw(r: real): real {
    if r < 0.5 then 1.0 + r * 2.0
    else if r < 0.8 then 2.0 + (r - 0.5) * 10.0
    else if r < 0.95 then 5.0 + (r - 0.8) * 100.0
    else 20.0 + (r - 0.95) * 1600.0
  }

  /** `min(result, 100.0)`. */
  function LimboResult(r: real): real {
    var d := LimboDraw(r);
    if d < 100.0 then d else 100.0
  }

  /** For a draw in [0, 1) the result lies in [1, 100] and grows with the draw. */
  lemma LimboResultRange(r: real, r': real)
    requires 0.0 <= r <= r' < 1.0
    ensures 1.0 <= LimboResult(r) <= LimboResult(r') <= 100.0
  {
  }

  function LimboOutcome(target: real, result: real): (o: OddsOutcome)
    ensures o.won <==> result >= target
    ensures o.multiplier == if o.won then target else 0.0
  {
    if result >= target then OddsOutcome(true, target) else OddsOutcome(false, 0.0)
  }

  /** Any target above the cap always loses. */
  lemma LimboTargetAboveCapLoses(target: real, r: real)
    requires target > 100.0
    ensures !LimboOutcome(target, LimboResult(r)).won
  {
  }

  // ---------------------------------------------------------------------------
  // Roulette

  const RedNumbers: seq<int> := [1, 3, 5, 7, 9, 12, 14, 16, 18, 19, 21, 23, 25, 27, 30, 32, 34, 36]
  const BlackNumbers: seq<int> := [2, 4, 6, 8, 10, 11, 13, 15, 17, 20, 22, 24, 26, 28, 29, 31, 33, 35]

  /** The if/elif chain of play_roulette. */
  function RouletteWins(betType: string, number: int): bool {
    if betType == "red" && number in RedNumbers then true
    else if betType == "black" && number in BlackNumbers then true
    else if betType == "even" && number > 0 && number % 2 == 0 then true
    else if betType == "odd" && number % 2 == 1 then true
    else if betType == "low" && 1 <= number <= 18 then true
    else if betType == "high" && 19 <= number <= 36 then true
    else false
  }

  function RouletteOutcome(betType: string, number: int): (o: OddsOutcome)
    ensures o.won == RouletteWins(betType, number)
    ensures o.multiplier == if o.won then 2.0 else 0.0
  {
    if RouletteWins(betType, number) then OddsOutcome(true, 2.0) else OddsOutcome(false, 0.0)
  }

  predicate IsRed(n: int) { n in RedNumbers }
  predicate IsBlack(n: int) { n in BlackNumbers }

  /** The red and black lists hold 18 distinct numbers each. */
  lemma RedBlackDistinct()
    ensures |RedNumbers| == 18 && |BlackNumbers| == 18
    ensures NoDuplicates(RedNumbers) && NoDuplicates(BlackNumbers)
  {
    AscendingNoDuplicates(RedNumbers);
    AscendingNoDuplicates(BlackNumbers);
  }

  /** No number is both red and black. */
  lemma RedBlackDisjoint()
    ensures forall n :: !(IsRed(n) && IsBlack(n))
  {
  }

  /** Together the red and black lists are exactly 1..36. */
  lemma RedBlackPartition()
    ensures forall n :: 1 <= n <= 36 <==> IsRed(n) || IsBlack(n)
  {
  }

  /** Zero loses every bet type; so does every bet type the route does not know. */
  lemma RouletteLosers(betType: string, number: int)
    ensures !RouletteWins(betType, 0)
    ensures betType !in ["red", "black", "even", "odd", "low", "high"] ==> !RouletteWins(betType, number)
  {
  }

  /** Each recognised bet type wins exactly on its set of numbers in 0..36. */
  lemma RouletteBetTypes(number: int)
    requires 0 <= number <= 36
    ensures RouletteWins("red", number) <==> IsRed(number)
    ensures RouletteWins("black", number) <==> IsBlack(number)
    ensures RouletteWins("even", number) <==> number != 0 && number % 2 == 0
    ensures RouletteWins("odd", number) <==> number % 2 == 1
    ensures RouletteWins("low", number) <==> 1 <= number <= 18
    ensures RouletteWins("high", number) <==> 19 <= number <= 36
  {
  }
}
