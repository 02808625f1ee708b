/**
 * The game routes of app.py for one logged-in user: the user's balance, the
 * transaction table rows of that user, and the three session entries
 * `mines_game`, `pump_game` and `blackjack_game`.  Every random draw is a
 * parameter; every route returns either its JSON reply or the error it sends.
 */
module Server {
  import opened Common
  import opened Rules
  import opened Cards
  import opened MinesOdds

  /** The balance of a newly registered user. */
  const StartingBalance: real := 1000.0

  /** How many transactions the history route returns. */
  const HistoryLimit: nat := 50

  /** The risk level play_plinko uses when the request names none. */
  const DefaultRisk: string := "medium"

  /** The auto cash-out play_crash uses when the request gives none. */
  const DefaultAutoCashout: real := 2.0

  /** The number of mines play_mines 'start' uses when the request gives none. */
  const DefaultMines: int := 3

  /** A row of the Transaction table (the user id and the timestamp are left out). */
  datatype Transaction = Transaction(game: string, bet: real, win: real, multiplier: real)

  /** The sum of `win - bet` over a list of transactions. */
  function NetProfit(txs: seq<Transaction>): real {
    if txs == [] then 0.0 else NetProfit(txs[..|txs| - 1]) + (txs[|txs| - 1].win - txs[|txs| - 1].bet)
  }

  lemma NetProfitAppend(txs: seq<Transaction>, t: Transaction)
    ensures NetProfit(txs + [t]) == NetProfit(txs) + (t.win - t.bet)
  {
    assert (txs + [t])[..|txs|] == txs;
  }

  /** One entry of the history reply. */
  datatype HistoryEntry = HistoryEntry(game: string, bet: real, win: real, multiplier: real, profit: real)

  function Entry(t: Transaction): HistoryEntry {
    HistoryEntry(t.game, t.bet, t.win, t.multiplier, t.win - t.bet)
  }

  /**
   * get_history: the newest transactions first, at most 50 of them, each with
   * its profit.  Transactions are kept here in the order they were recorded.
   */
  function History(txs: seq<Transaction>): (h: seq<HistoryEntry>)
    ensures |h| == if |txs| < HistoryLimit then |txs| else HistoryLimit
    ensures forall i :: 0 <= i < |h| ==> h[i] == Entry(txs[|txs| - 1 - i])
    ensures forall i :: 0 <= i < |h| ==> h[i].profit == h[i].win - h[i].bet
  {
    var k := if |txs| < HistoryLimit then |txs| else HistoryLimit;
    var newest := Reverse(txs[|txs| - k..]);
    seq(k, i requires 0 <= i < k => Entry(newest[i]))
  }

  datatype ServerError =
    | StakeRejected(reason: StakeError)
    | NoActiveGame
    | AlreadyRevealed
    | UnknownRisk
    | InvalidMineCount
    | DivisionByZero

  // Session entries

  datatype MinesSession = MinesSession(bet: real, mines: seq<int>, revealed: seq<int>, numMines: int)
  datatype PumpSession = PumpSession(bet: real, maxMultiplier: real)
  datatype BlackjackSession = BlackjackSession(bet: real, deck: seq<string>, player: seq<string>, dealer: seq<string>)

  /** `random.sample(range(25), n)`: n distinct board positions. */
  predicate IsMineSample(numMines: int, positions: seq<int>) {
    && |positions| == numMines
    && NoDuplicates(positions)
    && forall i :: 0 <= i < |positions| ==> 0 <= positions[i] < BoardSize
  }

  /**
   * A live Mines round: a valid mine sample, distinct revealed
   * positions none of which is a mine (a mine ends the round), and no more gems
   * than safe tiles (one more fails the division).
   */
  predicate MinesSessionValid(s: MinesSession) {
    && 0 <= s.numMines <= BoardSize
    && IsMineSample(s.numMines, s.mines)
    && NoDuplicates(s.revealed)
    && (forall i :: 0 <= i < |s.revealed| ==> s.revealed[i] !in s.mines)
    && |s.revealed| <= BoardSize - s.numMines
  }

  /** `max_mult = min(1 + expovariate(0.5), 50)`. */
  function PopPoint(sample: real): (m: real)
    requires 0.0 <= sample
    ensures 1.0 <= m <= 50.0
  {
    if 1.0 + sample < 50.0 then 1.0 + sample else 50.0
  }

  predicate PumpSessionValid(s: PumpSession) {
    1.0 <= s.maxMultiplier <= 50.0
  }

  /**
   * A live blackjack round: the 52 cards are split between deck and hands, the
   * dealer still holds the two dealt cards and the player has not busted.
   */
  predicate BlackjackSessionValid(s: BlackjackSession) {
    && AllDeckCards(s.deck) && AllDeckCards(s.player) && AllDeckCards(s.dealer)
    && multiset(s.deck) + multiset(s.player) + multiset(s.dealer) == multiset(StandardDeck())
    && |s.dealer| == 2 && 2 <= |s.player| <= 21 && |s.deck| + |s.player| == 50
    && HandScore(s.player) <= 21
  }

  // Replies

  datatype PlinkoReply = PlinkoReply(path: seq<int>, multiplier: real, win: real, balance: real)
  datatype CrashReply = CrashReply(crashPoint: real, path: seq<real>, won: bool, multiplier: real, win: real, balance: real)
  datatype DiceReply = DiceReply(roll: real, won: bool, multiplier: real, win: real, balance: real, winChance: real)
  datatype LimboReply = LimboReply(result: real, won: bool, multiplier: real, win: real, balance: real)
  datatype RouletteReply = RouletteReply(number: int, won: bool, multiplier: real, win: real, balance: real)

  datatype StartReply = StartReply(balance: real)
  datatype RevealReply = Hit(mines: seq<int>, balance: real) | Safe(multiplier: real, gemsFound: nat)
  datatype MinesCashoutReply = MinesCashoutReply(win: real, multiplier: real, mines: seq<int>, balance: real)

  datatype PumpStartReply = PumpStartReply(maxMultiplier: real, balance: real)
  datatype PopReply = PopReply(balance: real)
  datatype PumpCashoutReply = PumpCashoutReply(win: real, multiplier: real, balance: real)

  datatype DealReply = DealReply(playerHand: seq<string>, dealerHand: seq<string>, playerScore: int, dealerScore: int, balance: real)
  /** On a bust the hit reply also carries result 'lose', a win of 0 and the balance. */
  datatype BustReply = BustReply(win: real, balance: real)
  datatype HitReply = HitReply(playerHand: seq<string>, dealerHand: seq<string>, playerScore: int, dealerScore: int, gameOver: bool, bust: Option<BustReply>)
  datatype StandReply = StandReply(playerHand: seq<string>, dealerHand: seq<string>, playerScore: int, dealerScore: int,
                                   result: Verdict, win: real, multiplier: real, balance: real)

  /** A permutation of the deck holds 52 deck cards. */
  lemma ShuffledDeckCards(shuffled: seq<string>)
    requires multiset(shuffled) == multiset(StandardDeck())
    ensures |shuffled| == 52 && AllDeckCards(shuffled)
  {
    StandardDeckIsComplete();
    assert |shuffled| == |multiset(shuffled)| == |multiset(StandardDeck())| == 52;
    forall i | 0 <= i < |shuffled| ensures IsDeckCard(shuffled[i]) {
      assert shuffled[i] in multiset(StandardDeck());
    }
  }

  /**
   * The round a deal opens: the player takes the last and the second-to-last
   * card of the shuffled deck, the dealer the two before them.
   */
  function Deal(bet: real, shuffled: seq<string>): (g: BlackjackSession)
    requires |shuffled| == 52
    ensures g.bet == bet && g.deck == shuffled[..48]
    ensures g.player == [shuffled[51], shuffled[50]] && g.dealer == [shuffled[49], shuffled[48]]
  {
    BlackjackSession(bet, shuffled[..48], [shuffled[51], shuffled[50]], [shuffled[49], shuffled[48]])
  }

  /** The cards of a deal are deck cards, and no card is lost or duplicated. */
  lemma DealConserves(bet: real, shuffled: seq<string>)
    requires |shuffled| == 52 && AllDeckCards(shuffled)
    ensures var g := Deal(bet, shuffled);
      && AllDeckCards(g.deck) && AllDeckCards(g.player) && AllDeckCards(g.dealer)
      && multiset(g.deck) + multiset(g.player) + multiset(g.dealer) == multiset(shuffled)
  {
    var g := Deal(bet, shuffled);
    assert shuffled == g.deck + [g.dealer[1], g.dealer[0], g.player[1], g.player[0]];
  }

  /** A deal from a permutation of the deck opens a valid round. */
  lemma DealValid(bet: real, shuffled: seq<string>)
    requires multiset(shuffled) == multiset(StandardDeck())
    ensures |shuffled| == 52 && BlackjackSessionValid(Deal(bet, shuffled))
  {
    ShuffledDeckCards(shuffled);
    DealConserves(bet, shuffled);
    TwoCardsNeverBust(Deal(bet, shuffled).player);
  }

  /** The round after a hit that did not bust is still a valid round. */
  lemma HitValid(g: BlackjackSession)
    requires BlackjackSessionValid(g)
    requires HandScore(g.player + [g.deck[|g.deck| - 1]]) <= 21
    ensures BlackjackSessionValid(g.(player := g.player + [g.deck[|g.deck| - 1]], deck := g.deck[..|g.deck| - 1]))
  {
    var hand := g.player + [g.deck[|g.deck| - 1]];
    assert g.deck[..|g.deck| - 1] + [g.deck[|g.deck| - 1]] == g.deck;
    assert AllDeckCards(hand);
    ScoreBounds(hand);
  }

  class Casino {
    var balance: real
    /** This user's transactions, oldest first. */
    var transactions: seq<Transaction>
    var mines: Option<MinesSession>
    var pump: Option<PumpSession>
    var blackjack: Option<BlackjackSession>
    /** Stakes of rounds that a new start overwrote before they settled. */
    ghost var forfeited: real

    /** The stakes taken for rounds that have not settled yet. */
    function OpenStakes(): real
      reads this
    {
      (if mines.Some? then mines.value.bet else 0.0)
      + (if pump.Some? then pump.value.bet else 0.0)
      + (if blackjack.Some? then blackjack.value.bet else 0.0)
    }

    /**
     * Every unit of money is accounted for: the balance plus the open stakes
     * plus the forfeited ones is the starting balance plus the net profit of
     * the recorded transactions.
     */
    ghost predicate Valid()
      reads this
    {
      && balance + OpenStakes() + forfeited == StartingBalance + NetProfit(transactions)
      && (mines.Some? ==> MinesSessionValid(mines.value))
      && (pump.Some? ==> PumpSessionValid(pump.value))
      && (blackjack.Some? ==> BlackjackSessionValid(blackjack.value))
    }

    /** register: a new user starts with 1000 and no rounds. */
    constructor ()
      ensures Valid()
      ensures balance == StartingBalance && transactions == []
      ensures mines.None? && pump.None? && blackjack.None? && forfeited == 0.0
    {
      balance := StartingBalance;
      transactions := [];
      mines, pump, blackjack := None, None, None;
      forfeited := 0.0;
    }

    /** A single-shot round after an accepted stake: pay the stake, add the win, record one row. */
    method SettleSingleShot(game: string, bet: real, multiplier: real)
      requires Valid()
      modifies this
      ensures Valid()
      ensures balance == SettledBalance(old(balance), bet, multiplier)
      ensures transactions == old(transactions) + [Transaction(game, bet, Winnings(bet, multiplier), multiplier)]
      ensures mines == old(mines) && pump == old(pump) && blackjack == old(blackjack) && forfeited == old(forfeited)
    {
      NetProfitAppend(transactions, Transaction(game, bet, Winnings(bet, multiplier), multiplier));
      balance := balance - bet;
      balance := balance + Winnings(bet, multiplier);
      transactions := transactions + [Transaction(game, bet, Winnings(bet, multiplier), multiplier)];
    }

    /** play_plinko: `risk` is the request's optional risk name. */
    method PlayPlinko(bet: real, risk: Option<string>, directions: seq<int>) returns (r: Result<PlinkoReply, ServerError>)
      requires Valid()
      requires |directions| == 16 && forall i :: 0 <= i < 16 ==> IsDirection(directions[i])
      modifies this
      ensures Valid()
      ensures StakeCheckAsWritten(old(balance), bet).Some? ==> r == Err(StakeRejected(StakeCheckAsWritten(old(balance), bet).value)) && unchanged(this)
      ensures StakeCheckAsWritten(old(balance), bet).None? && ParseRisk(risk.GetOr(DefaultRisk)).None? ==>
        r == Err(UnknownRisk) && unchanged(this)
      ensures StakeCheckAsWritten(old(balance), bet).None? && ParseRisk(risk.GetOr(DefaultRisk)).Some? ==>
        && r.Ok? && r.value.path == Walk(directions) && |r.value.path| == 16 && 0 <= r.value.path[15] <= 12
        && r.value.multiplier == PlinkoTable(ParseRisk(risk.GetOr(DefaultRisk)).value)[r.value.path[15]]
        && r.value.win == Winnings(bet, r.value.multiplier)
        && balance == SettledBalance(old(balance), bet, r.value.multiplier) && r.value.balance == balance
        && transactions == old(transactions) + [Transaction("plinko", bet, r.value.win, r.value.multiplier)]
      ensures mines == old(mines) && pump == old(pump) && blackjack == old(blackjack)
    {
      var check := StakeCheckAsWritten(balance, bet);
      if check.Some? {
        return Err(StakeRejected(check.value));
      }
      var path := DropBall(directions);
      var level := ParseRisk(risk.GetOr(DefaultRisk));
      if level.None? {
        return Err(UnknownRisk);
      }
      var multiplier := PlinkoMultiplier(level.value, path);
      SettleSingleShot("plinko", bet, multiplier);
      r := Ok(PlinkoReply(path, multiplier, Winnings(bet, multiplier), balance));
    }

    /**
     * play_crash: `autoCashout` is the request's optional auto cash-out, and
     * `drawn` is the rounded `1 / (1 - r^2)` before the cap.
     */
    method PlayCrash(bet: real, autoCashout: Option<real>, drawn: real) returns (r: Result<CrashReply, ServerError>)
      requires Valid()
      modifies this
      ensures Valid()
      ensures StakeCheckAsWritten(old(balance), bet).Some? ==> r == Err(StakeRejected(StakeCheckAsWritten(old(balance), bet).value)) && unchanged(this)
      ensures StakeCheckAsWritten(old(balance), bet).None? ==>
        var o := CrashOutcome(autoCashout.GetOr(DefaultAutoCashout), CrashPoint(drawn));
        && r.Ok? && r.value.crashPoint == CrashPoint(drawn)
        && |r.value.path| >= 1 && r.value.path[|r.value.path| - 1] == r.value.crashPoint
        && (forall i :: 0 <= i < |r.value.path| - 1 ==> 1.0 <= r.value.path[i] < r.value.crashPoint)
        && (forall i :: 0 <= i < |r.value.path| - 1 ==> r.value.path[i] < r.value.path[i + 1] <= r.value.path[i] + 0.1)
        && (r.value.crashPoint > 1.0 ==> r.value.path[0] == 1.0)
        && (r.value.crashPoint <= 1.0 ==> r.value.path == [r.value.crashPoint])
        && r.value.won == o.won && r.value.multiplier == o.multiplier && r.value.win == Winnings(bet, o.multiplier)
        && balance == SettledBalance(old(balance), bet, o.multiplier) && r.value.balance == balance
        && transactions == old(transactions) + [Transaction("crash", bet, r.value.win, o.multiplier)]
      ensures mines == old(mines) && pump == old(pump) && blackjack == old(blackjack)
    {
      var check := StakeCheckAsWritten(balance, bet);
      if check.Some? {
        return Err(StakeRejected(check.value));
      }
      var crashPoint := CrashPoint(drawn);
      var path := CrashPath(crashPoint);
      var o := CrashOutcome(autoCashout.GetOr(DefaultAutoCashout), crashPoint);
      SettleSingleShot("crash", bet, o.multiplier);
      r := Ok(CrashReply(crashPoint, path, o.won, o.multiplier, Winnings(bet, o.multiplier), balance));
    }

    /** play_dice: `over` is the request's optional direction, roll-over when absent. */
    method PlayDice(bet: real, target: real, over: Option<bool>, roll: real) returns (r: Result<DiceReply, ServerError>)
      requires Valid()
      modifies this
      ensures Valid()
      ensures StakeCheckAsWritten(old(balance), bet).Some? ==> r == Err(StakeRejected(StakeCheckAsWritten(old(balance), bet).value)) && unchanged(this)
      ensures StakeCheckAsWritten(old(balance), bet).None? ==>
        var o := DiceOutcome(target, over.GetOr(true), roll);
        && r.Ok? && r.value.roll == roll && r.value.winChance == DiceWinChance(target, over.GetOr(true))
        && r.value.won == o.won && r.value.multiplier == o.multiplier && r.value.win == Winnings(bet, o.multiplier)
        && balance == SettledBalance(old(balance), bet, o.multiplier) && r.value.balance == balance
        && transactions == old(transactions) + [Transaction("dice", bet, r.value.win, o.multiplier)]
      ensures mines == old(mines) && pump == old(pump) && blackjack == old(blackjack)
    {
      var check := StakeCheckAsWritten(balance, bet);
      if check.Some? {
        return Err(StakeRejected(check.value));
      }
      var o := DiceOutcome(target, over.GetOr(true), roll);
      SettleSingleShot("dice", bet, o.multiplier);
      r := Ok(DiceReply(roll, o.won, o.multiplier, Winnings(bet, o.multiplier), balance, DiceWinChance(target, over.GetOr(true))));
    }

    /** play_limbo: `draw` is `random.random()`. */
    method PlayLimbo(bet: real, target: real, draw: real) returns (r: Result<LimboReply, ServerError>)
      requires Valid()
      modifies this
      ensures Valid()
      ensures StakeCheckAsWritten(old(balance), bet).Some? ==> r == Err(StakeRejected(StakeCheckAsWritten(old(balance), bet).value)) && unchanged(this)
      ensures StakeCheckAsWritten(old(balance), bet).None? ==>
        var o := LimboOutcome(target, LimboResult(draw));
        && r.Ok? && r.value.result == LimboResult(draw)
        && r.value.won == o.won && r.value.multiplier == o.multiplier && r.value.win == Winnings(bet, o.multiplier)
        && balance == SettledBalance(old(balance), bet, o.multiplier) && r.value.balance == balance
        && transactions == old(transactions) + [Transaction("limbo", bet, r.value.win, o.multiplier)]
      ensures mines == old(mines) && pump == old(pump) && blackjack == old(blackjack)
    {
      var check := StakeCheckAsWritten(balance, bet);
      if check.Some? {
        return Err(StakeRejected(check.value));
      }
      var result := LimboResult(draw);
      var o := LimboOutcome(target, result);
      SettleSingleShot("limbo", bet, o.multiplier);
      r := Ok(LimboReply(result, o.won, o.multiplier, Winnings(bet, o.multiplier), balance));
    }

    /** play_roulette: `number` is `random.randint(0, 36)`. */
    method PlayRoulette(bet: real, betType: string, number: int) returns (r: Result<RouletteReply, ServerError>)
      requires Valid()
      requires 0 <= number <= 36
      modifies this
      ensures Valid()
      ensures StakeCheckAsWritten(old(balance), bet).Some? ==> r == Err(StakeRejected(StakeCheckAsWritten(old(balance), bet).value)) && unchanged(this)
      ensures StakeCheckAsWritten(old(balance), bet).None? ==>
        var o := RouletteOutcome(betType, number);
        && r.Ok? && r.value.number == number
        && r.value.won == o.won && r.value.multiplier == o.multiplier && r.value.win == Winnings(bet, o.multiplier)
        && balance == SettledBalance(old(balance), bet, o.multiplier) && r.value.balance == balance
        && transactions == old(transactions) + [Transaction("roulette", bet, r.value.win, o.multiplier)]
      ensures mines == old(mines) && pump == old(pump) && blackjack == old(blackjack)
    {
      var check := StakeCheckAsWritten(balance, bet);
      if check.Some? {
        return Err(StakeRejected(check.value));
      }
      var o := RouletteOutcome(betType, number);
      SettleSingleShot("roulette", bet, o.multiplier);
      r := Ok(RouletteReply(number, o.won, o.multiplier, Winnings(bet, o.multiplier), balance));
    }

    // -------------------------------------------------------------------------
    // Mines

    /**
     * play_mines 'start': take the stake and store a new round, replacing (and
     * forfeiting) any round still open.  `requested` is the request's optional mine
     * count, 3 when absent; `sample` is `random.sample(range(25), n)`, which
     * fails for a count outside 0..25.
     */
    method MinesStart(bet: real, requested: Option<int>, sample: seq<int>) returns (r: Result<StartReply, ServerError>)
      requires Valid()
      requires var numMines := requested.GetOr(DefaultMines);
        0 <= numMines <= BoardSize ==> IsMineSample(numMines, sample)
      modifies this
      ensures Valid()
      ensures StakeCheckAsWritten(old(balance), bet).Some? ==> r == Err(StakeRejected(StakeCheckAsWritten(old(balance), bet).value)) && unchanged(this)
      ensures var numMines := requested.GetOr(DefaultMines);
        StakeCheckAsWritten(old(balance), bet).None? && !(0 <= numMines <= BoardSize) ==> r == Err(InvalidMineCount) && unchanged(this)
      ensures var numMines := requested.GetOr(DefaultMines);
        StakeCheckAsWritten(old(balance), bet).None? && 0 <= numMines <= BoardSize ==>
        && mines == Some(MinesSession(bet, sample, [], numMines))
        && balance == old(balance) - bet && r == Ok(StartReply(balance))
        && transactions == old(transactions)
        && forfeited == old(forfeited) + (if old(mines).Some? then old(mines).value.bet else 0.0)
      ensures pump == old(pump) && blackjack == old(blackjack)
    {
      var check := StakeCheckAsWritten(balance, bet);
      if check.Some? {
        return Err(StakeRejected(check.value));
      }
      var numMines := requested.GetOr(DefaultMines);
      if !(0 <= numMines <= BoardSize) {
        return Err(InvalidMineCount);
      }
      if mines.Some? {
        forfeited := forfeited + mines.value.bet;
      }
      mines := Some(MinesSession(bet, sample, [], numMines));
      balance := balance - bet;
      r := Ok(StartReply(balance));
    }

    /**
     * play_mines 'reveal'.  A repeated position is refused; a mine ends the round
     * with a losing transaction; a safe position is recorded and the multiplier
     * for the gems found so far is returned.  Positions are not range-checked.
     */
    method MinesReveal(position: int) returns (r: Result<RevealReply, ServerError>)
      requires Valid()
      modifies this
      ensures Valid()
      ensures old(mines).None? ==> r == Err(NoActiveGame) && unchanged(this)
      ensures old(mines).Some? && position in old(mines).value.revealed ==> r == Err(AlreadyRevealed) && unchanged(this)
      ensures old(mines).Some? && position !in old(mines).value.revealed && position in old(mines).value.mines ==>
        && r == Ok(Hit(old(mines).value.mines, old(balance)))
        && mines.None? && balance == old(balance)
        && transactions == old(transactions) + [Transaction("mines", old(mines).value.bet, 0.0, 0.0)]
      ensures old(mines).Some? && position !in old(mines).value.revealed && position !in old(mines).value.mines ==>
        var s := old(mines).value;
        var gems := |s.revealed| + 1;
        if gems <= BoardSize - s.numMines then
          && r == Ok(Safe(MinesPayoutAsWritten(s.numMines, gems), gems))
          && mines == Some(s.(revealed := s.revealed + [position]))
          && balance == old(balance) && transactions == old(transactions)
        else
          r == Err(DivisionByZero) && unchanged(this)
      ensures pump == old(pump) && blackjack == old(blackjack) && forfeited == old(forfeited)
    {
      if mines.None? {
        return Err(NoActiveGame);
      }
      var s := mines.value;
      if position in s.revealed {
        return Err(AlreadyRevealed);
      }
      if position in s.mines {
        NetProfitAppend(transactions, Transaction("mines", s.bet, 0.0, 0.0));
        transactions := transactions + [Transaction("mines", s.bet, 0.0, 0.0)];
        mines := None;
        return Ok(Hit(s.mines, balance));
      }
      var gems := |s.revealed| + 1;
      var multiplier := MinesMultiplier(s.numMines, gems);
      if multiplier.Err? {
        return Err(DivisionByZero);
      }
      AppendFreshKeepsNoDuplicates(s.revealed, position);
      mines := Some(s.(revealed := s.revealed + [position]));
      r := Ok(Safe(multiplier.value, gems));
    }

    /** play_mines 'cashout': pay the multiplier for the gems found and end the round. */
    method MinesCashout() returns (r: Result<MinesCashoutReply, ServerError>)
      requires Valid()
      modifies this
      ensures Valid()
      ensures old(mines).None? ==> r == Err(NoActiveGame) && unchanged(this)
      ensures old(mines).Some? ==>
        var s := old(mines).value;
        var multiplier := MinesPayoutAsWritten(s.numMines, |s.revealed|);
        && r.Ok? && r.value.win == Winnings(s.bet, multiplier) && r.value.multiplier == multiplier
        && r.value.mines == s.mines && r.value.balance == balance
        && balance == old(balance) + Winnings(s.bet, multiplier)
        && transactions == old(transactions) + [Transaction("mines", s.bet, Winnings(s.bet, multiplier), multiplier)]
        && mines.None?
      ensures pump == old(pump) && blackjack == old(blackjack) && forfeited == old(forfeited)
    {
      if mines.None? {
        return Err(NoActiveGame);
      }
      var s := mines.value;
      var multiplier := MinesMultiplier(s.numMines, |s.revealed|);
      var win := Winnings(s.bet, multiplier.value);
      NetProfitAppend(transactions, Transaction("mines", s.bet, win, multiplier.value));
      balance := balance + win;
      transactions := transactions + [Transaction("mines", s.bet, win, multiplier.value)];
      mines := None;
      r := Ok(MinesCashoutReply(win, multiplier.value, s.mines, balance));
    }

    // -------------------------------------------------------------------------
    // Pump

    /** play_pump 'start': take the stake and store the pop point, replacing any open round. */
    method PumpStart(bet: real, sample: real) returns (r: Result<PumpStartReply, ServerError>)
      requires Valid()
      requires 0.0 <= sample
      modifies this
      ensures Valid()
      ensures StakeCheckAsWritten(old(balance), bet).Some? ==> r == Err(StakeRejected(StakeCheckAsWritten(old(balance), bet).value)) && unchanged(this)
      ensures StakeCheckAsWritten(old(balance), bet).None? ==>
        && pump == Some(PumpSession(bet, PopPoint(sample)))
        && balance == old(balance) - bet && r == Ok(PumpStartReply(PopPoint(sample), balance))
        && transactions == old(transactions)
        && forfeited == old(forfeited) + (if old(pump).Some? then old(pump).value.bet else 0.0)
      ensures mines == old(mines) && blackjack == old(blackjack)
    {
      var check := StakeCheckAsWritten(balance, bet);
      if check.Some? {
        return Err(StakeRejected(check.value));
      }
      if pump.Some? {
        forfeited := forfeited + pump.value.bet;
      }
      var maxMultiplier := PopPoint(sample);
      pump := Some(PumpSession(bet, maxMultiplier));
      balance := balance - bet;
      r := Ok(PumpStartReply(maxMultiplier, balance));
    }

    /** play_pump 'pop': the balloon burst; record the lost stake and end the round. */
    method PumpPop() returns (r: Result<PopReply, ServerError>)
      requires Valid()
      modifies this
      ensures Valid()
      ensures old(pump).None? ==> r == Err(NoActiveGame) && unchanged(this)
      ensures old(pump).Some? ==>
        && r == Ok(PopReply(old(balance))) && balance == old(balance) && pump.None?
        && transactions == old(transactions) + [Transaction("pump", old(pump).value.bet, 0.0, 0.0)]
      ensures mines == old(mines) && blackjack == old(blackjack) && forfeited == old(forfeited)
    {
      if pump.None? {
        return Err(NoActiveGame);
      }
      var bet := pump.value.bet;
      NetProfitAppend(transactions, Transaction("pump", bet, 0.0, 0.0));
      transactions := transactions + [Transaction("pump", bet, 0.0, 0.0)];
      pump := None;
      r := Ok(PopReply(balance));
    }

    /**
     * play_pump 'cashout': pay the stake times the multiplier the client sends.
     * The stored pop point is not consulted.
     */
    method PumpCashout(multiplier: real) returns (r: Result<PumpCashoutReply, ServerError>)
      requires Valid()
      modifies this
      ensures Valid()
      ensures old(pump).None? ==> r == Err(NoActiveGame) && unchanged(this)
      ensures old(pump).Some? ==>
        var bet := old(pump).value.bet;
        && r.Ok? && r.value.win == Winnings(bet, multiplier) && r.value.multiplier == multiplier && r.value.balance == balance
        && balance == old(balance) + Winnings(bet, multiplier) && pump.None?
        && transactions == old(transactions) + [Transaction("pump", bet, Winnings(bet, multiplier), multiplier)]
      ensures mines == old(mines) && blackjack == old(blackjack) && forfeited == old(forfeited)
    {
      if pump.None? {
        return Err(NoActiveGame);
      }
      var bet := pump.value.bet;
      NetProfitAppend(transactions, Transaction("pump", bet, Winnings(bet, multiplier), multiplier));
      balance := balance + Winnings(bet, multiplier);
      transactions := transactions + [Transaction("pump", bet, Winnings(bet, multiplier), multiplier)];
      pump := None;
      r := Ok(PumpCashoutReply(Winnings(bet, multiplier), multiplier, balance));
    }

    // -------------------------------------------------------------------------
    // Blackjack

    /**
     * play_blackjack 'deal': two cards each from the end of the shuffled deck,
     * player first; the reply shows the dealer's score of the first card only.
     */
    method BlackjackDeal(bet: real, shuffled: seq<string>) returns (r: Result<DealReply, ServerError>)
      requires Valid()
      requires multiset(shuffled) == multiset(StandardDeck())
      modifies this
      ensures Valid()
      ensures StakeCheckAsWritten(old(balance), bet).Some? ==> r == Err(StakeRejected(StakeCheckAsWritten(old(balance), bet).value)) && unchanged(this)
      ensures StakeCheckAsWritten(old(balance), bet).None? ==>
        && |shuffled| == 52
        && blackjack == Some(Deal(bet, shuffled))
        && balance == old(balance) - bet && transactions == old(transactions)
        && forfeited == old(forfeited) + (if old(blackjack).Some? then old(blackjack).value.bet else 0.0)
        && r.Ok? && r.value.playerHand == blackjack.value.player && r.value.dealerHand == blackjack.value.dealer
        && r.value.playerScore == HandScore(blackjack.value.player)
        && r.value.dealerScore == CardPoints(shuffled[49]) && r.value.balance == balance
      ensures mines == old(mines) && pump == old(pump)
    {
      var check := StakeCheckAsWritten(balance, bet);
      if check.Some? {
        return Err(StakeRejected(check.value));
      }
      DealValid(bet, shuffled);
      var g := Deal(bet, shuffled);
      if blackjack.Some? {
        forfeited := forfeited + blackjack.value.bet;
      }
      blackjack := Some(g);
      balance := balance - bet;
      var playerScore := Score(g.player);
      OneCardScore(g.dealer[0]);
      var dealerScore := Score([g.dealer[0]]);
      r := Ok(DealReply(g.player, g.dealer, playerScore, dealerScore, balance));
    }

    /**
     * play_blackjack 'hit': the player takes the deck's last card; a score over
     * 21 ends the round as a recorded loss.
     */
    method BlackjackHit() returns (r: Result<HitReply, ServerError>)
      requires Valid()
      modifies this
      ensures Valid()
      ensures old(blackjack).None? ==> r == Err(NoActiveGame) && unchanged(this)
      ensures old(blackjack).Some? ==>
        var g := old(blackjack).value;
        var hand := g.player + [g.deck[|g.deck| - 1]];
        && AllDeckCards(hand)
        && r.Ok? && r.value.playerHand == hand && r.value.dealerHand == g.dealer
        && r.value.playerScore == HandScore(hand) && r.value.dealerScore == CardPoints(g.dealer[0])
        && (r.value.gameOver <==> HandScore(hand) > 21)
        && balance == old(balance)
        && if r.value.gameOver then
             && r.value.bust == Some(BustReply(0.0, balance)) && blackjack.None?
             && transactions == old(transactions) + [Transaction("blackjack", g.bet, 0.0, 0.0)]
           else
             && r.value.bust.None? && transactions == old(transactions)
             && blackjack == Some(g.(player := hand, deck := g.deck[..|g.deck| - 1]))
      ensures mines == old(mines) && pump == old(pump) && forfeited == old(forfeited)
    {
      if blackjack.None? {
        return Err(NoActiveGame);
      }
      var g := blackjack.value;
      var card := g.deck[|g.deck| - 1];
      var hand := g.player + [card];
      var deck := g.deck[..|g.deck| - 1];
      assert deck + [card] == g.deck;
      var playerScore := Score(hand);
      OneCardScore(g.dealer[0]);
      var dealerScore := Score([g.dealer[0]]);
      var gameOver := playerScore > 21;
      if gameOver {
        NetProfitAppend(transactions, Transaction("blackjack", g.bet, 0.0, 0.0));
        transactions := transactions + [Transaction("blackjack", g.bet, 0.0, 0.0)];
        blackjack := None;
        r := Ok(HitReply(hand, g.dealer, playerScore, dealerScore, true, Some(BustReply(0.0, balance))));
      } else {
        HitValid(g);
        blackjack := Some(g.(player := hand, deck := deck));
        r := Ok(HitReply(hand, g.dealer, playerScore, dealerScore, false, None));
      }
    }

    /**
     * play_blackjack 'stand': the dealer draws to 17, the scores are compared,
     * the stake is paid back times 2, 1 or 0 and the round ends.
     */
    method BlackjackStand() returns (r: Result<StandReply, ServerError>)
      requires Valid()
      modifies this
      ensures Valid()
      ensures old(blackjack).None? ==> r == Err(NoActiveGame) && unchanged(this)
      ensures old(blackjack).Some? ==>
        var g := old(blackjack).value;
        && r.Ok? && r.value.playerHand == g.player
        && 2 <= |r.value.dealerHand| <= 2 + |g.deck|
        && r.value.dealerHand == g.dealer + Drawn(g.deck, |r.value.dealerHand| - 2)
        && AllDeckCards(r.value.dealerHand) && HandScore(r.value.dealerHand) >= 17
        && (forall j :: 2 <= j < |r.value.dealerHand| ==> HandScore(r.value.dealerHand[..j]) < 17)
        && r.value.playerScore == HandScore(g.player) <= 21 && r.value.dealerScore == HandScore(r.value.dealerHand)
        && r.value.result == StandVerdict(r.value.playerScore, r.value.dealerScore)
        && r.value.multiplier == VerdictMultiplier(r.value.result)
        && r.value.win == (match r.value.result case Win => 2.0 * g.bet case Push => g.bet case Lose => 0.0)
        && balance == old(balance) + r.value.win && r.value.balance == balance
        && transactions == old(transactions) + [Transaction("blackjack", g.bet, r.value.win, r.value.multiplier)]
        && blackjack.None?
      ensures mines == old(mines) && pump == old(pump) && forfeited == old(forfeited)
    {
      if blackjack.None? {
        return Err(NoActiveGame);
      }
      var g := blackjack.value;
      var dealerHand, rest := DealerPlay(g.dealer, g.deck);
      var playerScore := Score(g.player);
      var dealerScore := Score(dealerHand);
      var result := StandVerdict(playerScore, dealerScore);
      var multiplier := VerdictMultiplier(result);
      var win := Winnings(g.bet, multiplier);
      NetProfitAppend(transactions, Transaction("blackjack", g.bet, win, multiplier));
      balance := balance + win;
      transactions := transactions + [Transaction("blackjack", g.bet, win, multiplier)];
      blackjack := None;
      r := Ok(StandReply(g.player, dealerHand, playerScore, dealerScore, result, win, multiplier, balance));
    }
  }
}
