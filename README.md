# Karma casino — a Dafny model

Karma is a small browser casino. A Flask server (`app.py`) keeps each user's
balance and the table of settled rounds (transactions). It settles eight games:
plinko, crash, dice, limbo and roulette in one request each, and mines, pump and
blackjack as rounds kept in the session. The browser pages are `static/js/*.js`.
They check a stake against the balance they show, send the request, animate the
server's outcome and then take the balance from the reply. Chicken is a reskin
of the mines grid. The balance chart folds the served history back into a curve.

The model has two halves.

- **Server.** `Server.Casino` is a class holding the balance, the transactions
  (oldest first) and the three session entries. Every route is a method that
  returns the route's JSON reply or its error. The routes compute what
  `app.py` computes, including its stake check, which lets a stake of zero or
  below through, and its mines payout; the corrected versions of those two
  (see Findings) are stated and proved beside them in `Rules` and `MinesOdds`.
  An optional request field is an `Option`, and the route applies `app.py`'s
  default when it is absent. Every random draw is a
  parameter: the plinko directions, the crash draw, the dice roll, the mine
  sample, the pop point, the limbo draw, the wheel number and the shuffled deck.
  The class invariant is the books balance: balance, plus stakes of open rounds,
  plus stakes of overwritten rounds, equals 1000 plus the net profit of the
  recorded transactions. The game rules are pure functions:
  - `Rules` holds the stake check, plinko, dice, crash, limbo and roulette;
  - `Cards` holds the deck, `calculate_blackjack_score` and the dealer's turn;
  - `MinesOdds` holds the mines multiplier.
- **Client.** Each page is a class over its globals. The shared page
  (`ClientPage.Page`) holds `currentBalance` and the single `isPlaying` flag. A
  reply is a `Response`: the route's body, a body with an `error` field, or a
  failure that lands in `catch`.
  - A `setTimeout` callback is a pending timer that a `FireTimer` method runs.
  - A `setInterval` firing is a `Tick`.
  - A `requestAnimationFrame` loop is a method with a loop over the frames.
  - The chart is `Chart`.

Money and multipliers are exact reals.

## Model

| member | source | states |
|---|---|---|
| Rules.StakeCheckAsWritten | app.py:143-144 | the route accepts exactly the stakes with `bet <= balance`, and refuses the rest as insufficient balance |
| Rules.StakeCheck | app.py:143-144 | the corrected check accepts exactly `0 < bet <= balance` and agrees with the as-written check on every positive stake |
| Rules.NegativeStakeMintsMoney | app.py:143-166 | as written, a stake of −10 against a balance of 100 passes the check, and a losing round leaves 110 |
| Rules.StakeCheckProtectsBalance | app.py:165-166 | after an accepted stake and a non-negative multiplier, the balance stays non-negative; it drops when the multiplier is below 1, and by exactly the stake on a loss |
| Rules.ParseRisk | app.py:147-151 | a risk name is recognised exactly when it is "low", "medium" or "high" |
| Rules.PlinkoTableShape | app.py:147-151 | each table has 13 entries, reads the same from both ends, and is positive with its maximum in the centre |
| Rules.Walk | app.py:153-159 | the walk has one position per direction |
| Rules.DropBall | app.py:153-159 | the loop records exactly the walk of the directions; the path has 16 positions, all in [0, 12]; it starts at 8 ± 1 clamped, and each step moves at most one bucket |
| Rules.PlinkoMultiplier | app.py:161-162 | the multiplier is the table entry of the last position, and equally that of its mirror bucket |
| Rules.DiceOutcome | app.py:269-283 | the round wins exactly when the roll is above the target (over) or below it (under); a win pays 98 divided by the win chance, a loss pays 0 |
| Rules.DiceWinPays | app.py:269-277 | a winning roll in [0, 100] implies a positive win chance, so the multiplier is 98 / chance, and positive |
| Rules.CrashPoint | app.py:201-202 | the crash point is the draw, capped at 100 |
| Rules.CrashOutcome | app.py:218-226 | the round wins exactly when the auto-cashout is at most the crash point; a win pays the auto-cashout, a loss pays 0 |
| Rules.CrashWinRule | app.py:201-226 | an auto-cashout above 100 can never win |
| Rules.CrashPath | app.py:204-216 | the path ends on the crash point; earlier points start at 1, stay in [1, crash point), and strictly increase by at most 0.1 per step; a crash point of at most 1 gives the one-point path |
| Rules.LimboResultRange | app.py:541-557 | the limbo result is in [1, 100] and grows with the draw |
| Rules.LimboOutcome | app.py:559-566 | the round wins exactly when the result reaches the target, and then pays the target |
| Rules.LimboTargetAboveCapLoses | app.py:557-559 | a target above 100 never wins |
| Rules.RouletteOutcome | app.py:613-631 | the multiplier is 2 on a win and 0 otherwise |
| Rules.RedBlackDistinct | app.py:605-606 | the red and black lists each hold 18 distinct numbers |
| Rules.RedBlackDisjoint | app.py:605-606 | no number is both red and black |
| Rules.RedBlackPartition | app.py:605-606 | the numbers 1–36 are exactly those that are red or black |
| Rules.RouletteLosers | app.py:611-624 | zero never wins, and an unknown bet type never wins |
| Rules.RouletteBetTypes | app.py:613-624 | each bet type's winning numbers, both directions: red/black lists, even without 0, odd, 1–18, 19–36 |
| Cards.StandardDeck | app.py:672-674 | the unshuffled deck has 52 cards, suits outer and ranks inner |
| Cards.StandardDeckDistinct | app.py:672-674 | the 52 cards are distinct |
| Cards.StandardDeckIsComplete | app.py:672-674 | a string is in the deck exactly when it is a rank followed by a suit |
| Cards.DeckCardIndex | app.py:674 | every rank-suit string has a position in the unshuffled deck |
| Cards.CardAtParts | app.py:674 | slicing off the last character of a card gives back its rank, and the last character is its suit |
| Cards.RankPoints | app.py:804-811 | a rank is worth 2 to 11, and 11 exactly for the ace |
| Cards.CardPoints | app.py:803-811 | a card is worth 2 to 11, and 11 exactly when it is an ace |
| Cards.AceReductions | app.py:813-816 | never more aces are turned into 1 than there are |
| Cards.AceReductionsMinimal | app.py:813-816 | the loop turns as few aces into 1 as it must: over 21 only when every ace counts 1, and one ace fewer would still be over 21 |
| Cards.HardTotalLowerBound | app.py:799-818 | with every ace counted as 1, a hand totals between one and ten points per card |
| Cards.ScoreBounds | app.py:799-818 | the score lies between the hard and the soft total; it is over 21 exactly when the hard total is, and never below the number of cards |
| Cards.TwoCardsNeverBust | app.py:678-691 | a freshly dealt two-card hand never busts |
| Cards.OneCardScore | app.py:692 | the dealer score shown during play is the up card's points |
| Cards.Score | app.py:799-818 | the two loops of `calculate_blackjack_score` compute the hand score |
| Cards.Drawn | app.py:678-679 | popping n cards takes the last n of the deck, last first |
| Cards.DealerDrawStep | app.py:751-752 | one pass of the dealer's loop keeps the hand a draw from the end of the deck with no card lost or duplicated, and every hand drawn on below 17 |
| Cards.DealerPlay | app.py:751-752 | the dealer draws from the end of the deck until at 17 or more; every earlier hand was below 17, and the cards drawn are exactly the deck's last ones |
| Cards.StandVerdictCases | app.py:757-769 | below 22, the player wins exactly on a dealer bust or a higher score, loses exactly to a higher standing dealer, and pushes only on equal scores |
| MinesOdds.FactorBounds | app.py:385-386 | each factor of the product is in (0, 1] while safe tiles remain, 0 once they run out, and no larger with one more mine |
| MinesOdds.Factors | app.py:385-386 | the loop multiplies one factor per gem found |
| MinesOdds.SurvivalStep | app.py:385-386 | one more gem multiplies the survival chance by the next factor |
| MinesOdds.SurvivalInUnitRange | app.py:384-386 | the survival chance is in (0, 1] |
| MinesOdds.SurvivalShrinks | app.py:384-386 | the survival chance shrinks with every gem |
| MinesOdds.SurvivalBounds | app.py:384-388 | in (0, 1] and shrinking while gems fit on the safe tiles, and 0 beyond them, where the division fails |
| MinesOdds.SurvivalAntitoneInMines | app.py:384-386 | more mines never raise the survival chance |
| MinesOdds.AsWrittenFavoursPlayer | app.py:388 | as written, the expected return is 1/0.97 of the stake for every cash-out point, and cashing out before any reveal pays more than the stake |
| MinesOdds.MinesExpectedReturn | app.py:384-388 | the corrected payout returns 0.97 of the stake in expectation, for every number of mines and gems |
| MinesOdds.MinesPayoutBeforeReveal | app.py:410-414 | the corrected payout for a cash-out before any reveal is 0.97 |
| MinesOdds.MinesPayoutGrowsWithGems | app.py:384-388 | the corrected payout never falls as gems are found |
| MinesOdds.AsWrittenGrowsWithGems | app.py:384-388 | the payout the routes compute never falls as gems are found |
| MinesOdds.MinesPayoutGrowsWithMines | app.py:384-388 | the corrected payout never falls with more mines |
| MinesOdds.AsWrittenGrowsWithMines | app.py:384-388 | the payout the routes compute never falls with more mines |
| MinesOdds.AsWrittenOverpays | app.py:388 | the payout as written is the corrected payout divided by 0.97 twice, so it always pays more than the corrected one |
| MinesOdds.MinesMultiplier | app.py:384-388 | the loop fails (division by zero) exactly when more gems are counted than safe tiles, and otherwise yields `1 / (survival × 0.97)`, the payout as written |
| Server.NetProfitAppend | app.py:28-35 | recording a transaction adds its win minus its bet to the net profit |
| Server.History | app.py:120-130 | the history is the newest transactions first, at most 50, each with profit win minus bet |
| Server.PopPoint | app.py:458-459 | the pop point is in [1, 50] |
| Server.ShuffledDeckCards | app.py:674-675 | a shuffle of the deck holds 52 deck cards |
| Server.Deal | app.py:678-679 | the player takes the last two cards of the shuffled deck, the dealer the two before, and 48 remain |
| Server.DealConserves | app.py:678-679 | after a deal, deck plus hands are the shuffled cards, none lost or duplicated |
| Server.DealValid | app.py:665-686 | a deal from any shuffle of the deck opens a valid blackjack round, whatever the stake |
| Server.HitValid | app.py:706-713 | a hit that does not bust leaves a valid round |
| Server.Casino.constructor | app.py:75-91 | a new user has 1000, no transactions and no open rounds |
| Server.Casino.SettleSingleShot | app.py:165-179 | a single-shot round pays the stake, adds stake × multiplier, records one transaction, and keeps the books balanced |
| Server.Casino.PlayPlinko | app.py:133-184 | a stake above the balance (the only one refused; zero and negative stakes pass) or an unknown risk changes nothing, and a missing risk means "medium"; otherwise the path is the walk of the given directions, it ends in the bucket whose table entry is paid, and one transaction is recorded |
| Server.Casino.PlayCrash | app.py:187-249 | a stake above the balance changes nothing, any other stake is taken; a missing auto cash-out means 2; the reply carries the capped crash point and the win rule's outcome; its path starts at 1, stays in [1, crash point) and rises by at most 0.1 per step until it ends on the crash point (a crash point of at most 1 is the whole path); and the round settles once |
| Server.Casino.PlayDice | app.py:252-306 | a stake above the balance changes nothing, any other stake is taken; a missing direction means roll-over; the roll settles by the dice rule and the reply carries the win chance |
| Server.Casino.PlayLimbo | app.py:526-588 | a stake above the balance changes nothing, any other stake is taken; the drawn result (in [1, 100] by Rules.LimboResultRange) settles by the limbo rule |
| Server.Casino.PlayRoulette | app.py:591-653 | a stake above the balance changes nothing, any other stake is taken; the number settles by the bet type's rule |
| Server.Casino.MinesStart | app.py:318-339 | a stake above the balance or a mine count outside 0..25 changes nothing, and a missing count means 3; otherwise the stake is taken and a new round replaces any open one, whose stake is forfeited |
| Server.Casino.MinesReveal | app.py:341-396 | no round or a repeated tile is an error; a mine records a loss and ends the round; a safe tile is recorded and returns the as-written payout `1 / (survival × 0.97)` for the gems found; one gem past the safe tiles is the division error |
| Server.Casino.MinesCashout | app.py:398-439 | no round is an error; otherwise the stake times the as-written payout for the gems found is added, recorded and the round ends |
| Server.Casino.PumpStart | app.py:451-473 | a stake above the balance changes nothing; any other stake, zero and negative ones included, is taken, and the pop point is stored |
| Server.Casino.PumpPop | app.py:475-494 | no round is an error; otherwise a loss is recorded, the balance is unchanged and the round ends |
| Server.Casino.PumpCashout | app.py:496-523 | no round is an error; otherwise the stake times the client's multiplier is added and recorded |
| Server.Casino.BlackjackDeal | app.py:665-700 | a stake above the balance changes nothing; otherwise (zero and negative stakes included) the stake is taken, two cards each are dealt from the end, and the reply shows the player's score and the up card's score |
| Server.Casino.BlackjackHit | app.py:702-742 | no round is an error; the player takes the deck's last card; the reply shows the new score and the up card's score; a score over 21 records a loss and ends the round |
| Server.Casino.BlackjackStand | app.py:744-797 | no round is an error; the dealer draws to 17; the verdict pays 2, 1 or 0 times the stake; the round ends |
| ClientPage.Page.constructor | static/js/main.js:2 | the page starts with the given balance and no round in flight |
| ClientPage.Page.BeginPlay | static/js/plinko.js:135-149 | a request goes out exactly when no round is in flight and the stake is at most the shown balance; the page is then busy |
| ClientPage.Page.EndPlay | static/js/plinko.js:171-189 | the page is freed, and takes the reply's balance when one was applied |
| GridClient.RevealGrid.constructor | static/js/mines.js:66-67 | no round, nothing revealed, no timers |
| GridClient.RevealGrid.Start | static/js/mines.js:115-164 | a stake above the shown balance sends nothing; a reply opens the round with nothing revealed and takes its balance; an error re-enables the start button and leaves the round (same steps in Chicken.js 112-153) |
| GridClient.RevealGrid.Reveal | static/js/mines.js:166-228 | nothing is sent without a round or for a revealed tile; a safe reply appends the tile; a hit schedules the end; revealed tiles stay distinct and on the board (Chicken.js 155-216) |
| GridClient.RevealGrid.Cashout | static/js/mines.js:238-281 | ignored without a round; a reply schedules the settlement a second later, with the round still active until then (Chicken.js 226-268) |
| GridClient.RevealGrid.End | static/js/mines.js:283-294 | the round ends, the revealed list is cleared and the start button re-enabled |
| GridClient.RevealGrid.FireTimer | static/js/mines.js:193-207 | a pending callback ends the round, and a cash-out settlement first takes its reply's balance |
| PumpClient.BalloonScale | static/js/pump.js:137-139 | the scale grows by half the gain over 1, and is at least 1 |
| PumpClient.BalloonDisplay | static/js/pump.js:137-145 | a bigger multiplier shows a bigger balloon, and red means above 70% of the pop point |
| PumpClient.PumpRound.constructor | static/js/pump.js:59-62 | inactive at 1.00x with no interval, the balloon at its base look |
| PumpClient.PumpRound.ResetRound | static/js/pump.js:240-259 | `resetPump`: inactive, 1.00x, interval cleared, balloon back to scale 1, fully opaque, base colour |
| PumpClient.PumpRound.Start | static/js/pump.js:68-113 | a stake above the shown balance sends nothing; a reply starts at 1.00x with the server's pop point and takes the balance, leaving the balloon as it is; an error resets the round and the balloon |
| PumpClient.PumpRound.Tick | static/js/pump.js:123-172 | an inactive round only clears the interval and changes nothing else; otherwise the multiplier grows; reaching the pop point ends the round, shrinks the balloon to scale 0 and opacity 0, keeps its colour and schedules the pop request; below it the balloon is rescaled and turns to the danger colour once the multiplier passes 70% of the pop point; the multiplier never drops below 1 |
| PumpClient.PumpRound.CashoutClick | static/js/pump.js:200-215 | ignored when inactive; the round ends before the request with the local multiplier goes out, so a second click sends nothing |
| PumpClient.PumpRound.CashoutReply | static/js/pump.js:217-238 | a reply takes its balance and schedules the reset; an error body changes nothing; a failed request resets |
| PumpClient.PumpRound.FireTimer | static/js/pump.js:176-197 | the pop request takes its reply's balance and schedules the reset, or resets at once when it fails; a reset timer runs `resetPump` |
| BlackjackClient.DealerView | static/js/blackjack.js:218-221 | with the dealer hidden, the card at index 1 is replaced by '??' and the rest are shown |
| BlackjackClient.HiddenDealerShowsOnlyUpCard | static/js/blackjack.js:218-225 | while hidden, the only deck card shown for the dealer is the up card; revealed, the view is the hand itself |
| BlackjackClient.ShowsRedIsSuit | static/js/blackjack.js:228-229 | a deck card is drawn red exactly when its suit is hearts or diamonds |
| BlackjackClient.Classify | static/js/blackjack.js:244-255 | 'win' and 'lose' get their own banners, anything else shows a push |
| BlackjackClient.ClassifyVerdict | static/js/blackjack.js:244-255 | each verdict the server sends is shown as itself |
| BlackjackClient.BlackjackTable.constructor | static/js/blackjack.js:61 | no round and no banner |
| BlackjackClient.BlackjackTable.Display | static/js/blackjack.js:214-226 | shows both hands, with the dealer's second card and score hidden exactly when asked |
| BlackjackClient.BlackjackTable.End | static/js/blackjack.js:237-260 | the round ends with the reply's balance and the banner for its result |
| BlackjackClient.BlackjackTable.Deal | static/js/blackjack.js:133-173 | a stake above the shown balance sends nothing; a reply opens the round with the dealer hidden; an error changes nothing |
| BlackjackClient.BlackjackTable.Hit | static/js/blackjack.js:175-194 | the new hands are shown with the dealer hidden; the round ends as a loss only when the reply says the game is over |
| BlackjackClient.BlackjackTable.Stand | static/js/blackjack.js:196-212 | both hands and scores are shown, the dealer's revealed; the round always ends, with the verdict's banner and balance |
| DiceClient.ShownStats | static/js/dice.js:100-110 | the chance and the multiplier shown are the ones the server will use |
| DiceClient.SliderStats | static/js/dice.js:22 | on the slider's range [1, 99], the shown chance stays in [1, 99] and the multiplier is positive, with multiplier × chance = 98 |
| DiceClient.AnimateRoll | static/js/dice.js:171-201 | 30 ticks: the first 29 show random rolls, and the last shows the server's roll and its won flag |
| DiceClient.DiceGame.constructor | static/js/dice.js:63 | the prediction starts as "under" and the result box blank |
| DiceClient.DiceGame.Choose | static/js/dice.js:69-85 | a prediction button sets over/under |
| DiceClient.DiceGame.PlayRequest | static/js/dice.js:112-136 | the shared guard decides whether the request goes out, with the current prediction |
| DiceClient.DiceGame.PlayReply | static/js/dice.js:139-168 | a reply ends on the server's roll and takes its balance; an error shows nothing new; the page is always freed |
| LimboClient.ShownStats | static/js/limbo.js:70-80 | for every number typed: the chance shown is at most 99, exactly 99 when the target is in [0, 1] (0 divides to Infinity), negative for a negative target; the potential win is stake × target |
| LimboClient.AcceptedTargetStats | static/js/limbo.js:99-102 | for an accepted target the chance is 99/target, the potential win is what a win pays, and targets above the server's cap of 100 are accepted but never win |
| LimboClient.LimboGame.constructor | static/js/limbo.js:109 | no count running, '?' shown, no play yet, no pending display |
| LimboClient.LimboGame.PlayRequest | static/js/limbo.js:82-110 | a request goes out exactly when nothing is in flight, the stake is affordable and the target is in [1.01, 1000]; then a fresh count interval of this play starts beside any older one |
| LimboClient.LimboGame.CountTick | static/js/limbo.js:110-119 | a tick of one play's interval shows a counting number and counts one, and its 20th tick clears that interval only |
| LimboClient.LimboGame.PlayReply | static/js/limbo.js:128-182 | an error clears that play's count and shows '?'; a reply schedules its display; either way the page is freed before the display |
| LimboClient.LimboGame.FireDisplay | static/js/limbo.js:137-160 | the display clears the count of the play it answers and no other, shows the result and its won flag, and takes the reply's balance |
| RouletteClient.WheelOrderIsPermutation | static/js/roulette.js:206 | the wheel lists each number 0–36 exactly once |
| RouletteClient.WheelOrderInvertsPocketOf | static/js/roulette.js:206 | every number 0–36 has a position on the wheel |
| RouletteClient.IndexOf | static/js/roulette.js:207 | `indexOf` is −1 exactly for an absent value, and otherwise the first position holding it |
| RouletteClient.WheelIndex | static/js/roulette.js:207 | every number the server can draw is found on the wheel |
| RouletteClient.TargetTurnsRange | static/js/roulette.js:208-211 | the spin turns the wheel between 5 and 6 times, ending at the drawn number's segment |
| RouletteClient.Progress | static/js/roulette.js:218-219 | progress is in [0, 1], and 1 exactly once 3000 ms have elapsed |
| RouletteClient.EaseEnds | static/js/roulette.js:222 | the ease-out curve starts at 0 and ends at 1 |
| RouletteClient.EaseMonotone | static/js/roulette.js:222 | the curve never goes back |
| RouletteClient.EaseBounded | static/js/roulette.js:222 | the curve stays in [0, 1] |
| RouletteClient.ProgressMonotone | static/js/roulette.js:218-219 | progress never goes back in time |
| RouletteClient.RotationMonotone | static/js/roulette.js:218-223 | the wheel never turns back, and never passes its target |
| RouletteClient.Spin | static/js/roulette.js:204-236 | each frame's rotation is target × ease(progress); the animation stops at the first frame at 3000 ms or later, and then exactly on the target |
| RouletteClient.PocketColourMatchesServer | static/js/roulette.js:173-177 | the page's red list is the server's; a result shows green exactly for 0, red exactly for server-red, and dark exactly for server-black |
| RouletteClient.RouletteGame.constructor | static/js/roulette.js:134 | no number shown |
| RouletteClient.RouletteGame.PlayRequest | static/js/roulette.js:134-153 | the shared guard decides the request; while in flight the box shows no number |
| RouletteClient.RouletteGame.PlayReply | static/js/roulette.js:155-201 | a finished spin shows the drawn number in its colour and takes the balance; an error frees the page at once; an unfinished spin leaves the page busy |
| CrashClient.Chips | static/js/crash.js:59-65 | the panel shows the last ten entries, most recent first |
| CrashClient.ChipsAfterRecord | static/js/crash.js:141 | a new entry becomes the first chip and the others move one place along |
| CrashClient.ColourOf | static/js/crash.js:62 | a chip is green from 5x, red below 2x, blue in between |
| CrashClient.ScaleMax | static/js/crash.js:173 | the scale top is at least 10 and every point; it is 10 or one of the points |
| CrashClient.PathFitsCanvas | static/js/crash.js:173-222 | the divisor is at least 9, and every point at or above 1x is drawn within the plot |
| CrashClient.Replay | static/js/crash.js:166-250 | the replay shows every path point in order, then flashes three times |
| CrashClient.CrashGame.constructor | static/js/crash.js:37 | empty history, 1.00x shown |
| CrashClient.CrashGame.Generate | static/js/crash.js:50-57 | ten seeded entries, each 1 + 9 × draw and so in [1, 10] |
| CrashClient.CrashGame.PlayRequest | static/js/crash.js:104-119 | the shared guard decides the request |
| CrashClient.CrashGame.PlayReply | static/js/crash.js:121-190 | a reply appends its crash point, leaves the board drawn at the crash point and takes the balance; an error adds nothing; the page is always freed |
| PlinkoClient.ClientTableMatchesServer | static/js/plinko.js:58-62 | the page's tables are the server's, 13 entries each and symmetric |
| PlinkoClient.ColourOf | static/js/plinko.js:70 | green from 3x, red below 1x, yellow in [1, 1.5), blue otherwise |
| PlinkoClient.RedMeansLoss | static/js/plinko.js:70 | for a positive stake, a red bucket is exactly one that pays back less than the stake |
| PlinkoClient.Approach | static/js/plinko.js:278-279 | each frame leaves 70% of the distance to the target |
| PlinkoClient.ReplayRows | static/js/plinko.js:203-302 | the ball reaches all 16 rows, one at a time, and ends within a pixel of the last row |
| PlinkoClient.BucketCentreInSlot | static/js/plinko.js:211-213 | a bucket's centre lies inside its slot and on the board |
| PlinkoClient.GlideToBucket | static/js/plinko.js:216-245 | 20 drawings at progress k/20 on the line to the bucket centre, starting where the rows left the ball |
| PlinkoClient.ReplayEndsInPaidBucket | static/js/plinko.js:212-213 | a server path ends in a bucket on the board whose entry is the multiplier paid |
| PlinkoClient.PlinkoGame.constructor | static/js/plinko.js:38 | no bucket flashed |
| PlinkoClient.PlinkoGame.PlayRequest | static/js/plinko.js:134-150 | the shared guard decides the request |
| PlinkoClient.PlinkoGame.PlayReply | static/js/plinko.js:152-189 | a reply flashes the last bucket of its path and takes the balance; an error changes neither; the page is always freed |
| Chart.BalanceSeries | static/js/chart.js:97-107 | one point more than the history; the first point is (1000, 0), and point i is the running balance after the i oldest entries |
| Chart.MinBalance | static/js/chart.js:127 | at most 0 and every balance; 0 or one of them |
| Chart.MaxBalance | static/js/chart.js:128 | at least 1000 and every balance; 1000 or one of them |
| Chart.BalanceRange | static/js/chart.js:129 | the range is max − min and at least 1000, so the fallback to 1 never applies |
| Chart.Entries | app.py:123-130 | each transaction's history entry, in order |
| Chart.RunningIsNetProfit | static/js/chart.js:97-107 | folding transactions from 1000 adds their net profit |
| Chart.ReversedHistory | app.py:120-121 | the served history, reversed, is the entries of the newest 50 transactions |
| Chart.ChartOfHistory | static/js/chart.js:109-162 | the chart is drawn exactly when there is a transaction; up to 50 transactions, its last point is the balance the books record, and it is green exactly when the net profit is non-negative; beyond 50, it misses exactly the older rounds' net profit |

## Left out

- Authentication, login, registration forms, logout and the `Not authenticated` / `User not found` errors are not modelled: one logged-in user is assumed. Database commits are atomic assignments.
- Python's `round(…, 2)`, `toFixed` and floating-point error are not modelled. Money is exact. Rounded draws (crash point, pop point, roll, limbo result) are parameters that are already rounded.
- Randomness (`random.*`, `Math.random`, `random.shuffle`, `random.sample`) is a parameter of the operation that draws it.
- `parseFloat` and NaN are not modelled. A stake or target is a real number.
- DOM, canvas drawing, colours' CSS and notifications are not modelled. A colour is a datatype value; `loadHistory` is a separate read of `Server.History`.
- Concurrency is not modelled. Each request is one atomic method call; two requests in flight interleave only as whole calls.
- Rules.CrashPath: the path's exact values are not modelled. The step sizes 0.01 / 0.05 / 0.1 and the `round(current, 2)` of each point are not stated, because float accumulation decides them. The contract states the shape: it starts at 1, rises by at most 0.1 per step, stays below the crash point and ends on it.
- Server.Casino.PumpCashout: the multiplier is the client's, trusted as written. The stored pop point is not consulted, so a client can cash out past the pop point.
- Server.Casino.PlayPlinko: an unknown risk name is a `KeyError` in `app.py`, so the route fails with a server error after the stake check and before any change. The model returns `UnknownRisk` instead of the crash; nothing is changed in either.
- Server.Casino.MinesStart: a mine count outside 0..25 makes `random.sample` raise `ValueError`, a server error after the stake check and before any change. The model returns `InvalidMineCount` instead of the crash.
- Server.Casino.PlayDice: `over` is any JSON value, tested for truth. The model takes a boolean, or none for the default.
- Server.Casino.MinesReveal: `app.py` appends the position before the mine check. That list is deleted on a hit and unchanged on a division failure, so the model appends only on a safe tile. The failure is returned as an error, not a crash of the route.
- Server.Casino.MinesStart: a round still open is overwritten. Its stake is kept in a ghost `forfeited` total only so the books invariant can be stated.
- PumpClient.PumpRound.FireTimer: when the pop reply carries an `error`, `pump.js` sets `currentBalance` to `undefined`. Formatting it then throws, which lands in `catch` and resets. The model resets and keeps the old balance, because it has no undefined number.
- LimboClient.ShownStats uses 99 / target, as `limbo.js` does. The server's odds differ, and the shown chance is not the real one. A typed "-0" divides to −Infinity in JavaScript; the model has no negative zero and shows 99 for 0.
- LimboClient.LimboGame.FireDisplay: the page is freed before the one-second display. A later round's display can therefore overwrite a newer balance, and a newer play's count keeps running over an older display. The model keeps the pending displays and the running count intervals per play, so any order can be replayed. The random numbers the count shows and the three-second reset of the result box are not modelled.
- Chicken.js talks to a `/api/play/chicken` route that `app.py` does not define. Its page is modelled by `GridClient.RevealGrid` with `locksStart` false; its server side is not part of this model.
- PlinkoClient.GlideToBucket: the y coordinate of the glide is not modelled. The bucket flash interval and its one-second timer are a single step.
- PlinkoClient.ReplayRows: the row phase runs until the ball is within one pixel of each row. Its x coordinate is computed but not bounded.
- CrashClient.Replay: the timing is not modelled: frames 30 ms apart, the three flashes at 0, 200 and 400 ms, each redrawing the board 100 ms later, and the replay resolving at 1000 ms. The drawing of the curve is not modelled either. Only the values shown are.
- RouletteClient.Spin: `Date.now()` is a list of elapsed times, one per frame.
- The wheel drawing `drawRouletteWheel` and the board drawing of plinko and crash are not modelled.
- Chart: the canvas axes, labels and gradients are not modelled. A failed history fetch draws nothing and is not modelled.

## Findings

| source | as written | input that shows it | evidently intended | confidence | as-written member | corrected member |
|---|---|---|---|---|---|---|
| app.py:143 | `if user.balance < bet_amount` refuses only stakes above the balance, so a negative stake passes; the same check is at lines 197, 263, 322, 454, 536, 601 and 668 | balance 100, bet −10 on any single-shot game: a loss leaves 110 | only stakes with 0 < bet ≤ balance are accepted | not executed | Rules.NegativeStakeMintsMoney | Rules.StakeCheckProtectsBalance |
| app.py:388 | `1.0 / (multiplier * 0.97)` divides by the house factor, so the expected return is 1/0.97 ≈ 1.031 of the stake (also line 414) | 3 mines, cash out with no gem revealed: the payout is 1/0.97 > 1 | the house keeps 3%: payout 0.97 / survival chance, expected return 0.97 | not executed | MinesOdds.AsWrittenFavoursPlayer | MinesOdds.MinesExpectedReturn |
