/**
 * The reveal-grid round of mines.js and Chicken.js.  Both files keep the same two
 * globals (`minesGameActive`/`minesRevealed`, `chickenActive`/`chickenRevealed`)
 * and run the same start, reveal, cash-out and end steps; mines.js also disables
 * its start button while a start request is out.  Each `setTimeout` that ends a
 * round is a pending timer that `FireTimer` runs.
 */
module GridClient {
  import opened Common
  import opened Rules
  import opened ClientPage

  /** The grid is 5 by 5. */
  const Tiles: int := 25

  /** The reveal reply: a mine (or fox) was hit, or the tile was safe with the new multiplier. */
  datatype RevealAnswer = Struck | Safe(multiplier: real)

  /** The cash-out reply. */
  datatype CashoutAnswer = CashoutAnswer(win: real, multiplier: real, balance: real)

  /** A scheduled callback: the end of a round after a hit, or the settlement of a cash-out. */
  datatype GridTimer = EndAfterHit | SettleCashout(balance: real)

  class RevealGrid {
    /** True for mines.js, which disables its start button during the start request. */
    const locksStart: bool
    var active: bool
    var revealed: seq<int>
    var startDisabled: bool
    /** The multiplier and the potential win shown by updateMinesStats / updateChickenStats. */
    var shownMultiplier: real
    var potentialWin: real
    var timers: seq<GridTimer>

    /**
     * The revealed list holds distinct tiles of the grid, and is empty whenever
     * no round is active; a grid without a start button never disables one.
     */
    ghost predicate Valid()
      reads this
    {
      && NoDuplicates(revealed)
      && (forall i :: 0 <= i < |revealed| ==> 0 <= revealed[i] < Tiles)
      && (!active ==> revealed == [])
      && (!locksStart ==> !startDisabled)
    }

    constructor (locksStart: bool)
      ensures Valid()
      ensures this.locksStart == locksStart
      ensures !active && revealed == [] && !startDisabled && timers == []
    {
      this.locksStart := locksStart;
      active := false;
      revealed := [];
      startDisabled := false;
      shownMultiplier := 1.0;
      potentialWin := 0.0;
      timers := [];
    }

    /**
     * startMinesGame / startChickenGame: refused locally when the stake exceeds
     * the shown balance; otherwise the reply either opens the round with an empty
     * revealed list and the reply's balance, or leaves the round as it was.
     */
    method Start(page: Page, bet: real, reply: Response<real>) returns (sent: bool)
      requires Valid()
      modifies this, page
      ensures Valid()
      ensures sent <==> Affordable(bet, old(page.currentBalance))
      ensures !sent ==> unchanged(this) && unchanged(page)
      ensures sent && reply.Answer? ==>
        && active && revealed == [] && page.currentBalance == reply.body
        && shownMultiplier == 1.0 && potentialWin == Winnings(bet, 1.0)
        && startDisabled == locksStart
      ensures sent && !reply.Answer? ==>
        && active == old(active) && revealed == old(revealed) && !startDisabled
        && page.currentBalance == old(page.currentBalance)
        && shownMultiplier == old(shownMultiplier) && potentialWin == old(potentialWin)
      ensures timers == old(timers) && page.isPlaying == old(page.isPlaying)
    {
      if bet > page.currentBalance {
        return false;
      }
      sent := true;
      if locksStart {
        startDisabled := true;
      }
      match reply {
        case Answer(balance) =>
          active := true;
          revealed := [];
          page.currentBalance := balance;
          shownMultiplier := 1.0;
          potentialWin := Winnings(bet, 1.0);
        case _ =>
          if locksStart {
            startDisabled := false;
          }
      }
    }

    /**
     * revealMinesTile / revealChickenTile: nothing is sent when no round is
     * active or the tile is already revealed.  A safe reply appends the tile and
     * shows the new multiplier; a hit schedules the end of the round; an error
     * changes nothing.
     */
    method Reveal(position: int, bet: real, reply: Response<RevealAnswer>) returns (sent: bool)
      requires Valid()
      requires 0 <= position < Tiles
      modifies this
      ensures Valid()
      ensures sent <==> old(active) && position !in old(revealed)
      ensures !sent || !reply.Answer? ==> unchanged(this)
      ensures sent && reply == Answer(Struck) ==>
        && revealed == old(revealed) && active
        && timers == old(timers) + [EndAfterHit]
        && shownMultiplier == old(shownMultiplier) && potentialWin == old(potentialWin)
      ensures sent && reply.Answer? && reply.body.Safe? ==>
        && revealed == old(revealed) + [position] && active
        && shownMultiplier == reply.body.multiplier && potentialWin == Winnings(bet, reply.body.multiplier)
        && timers == old(timers)
      ensures startDisabled == old(startDisabled)
    {
      if !active || position in revealed {
        return false;
      }
      sent := true;
      match reply {
        case Answer(Struck) =>
          timers := timers + [EndAfterHit];
        case Answer(Safe(multiplier)) =>
          AppendFreshKeepsNoDuplicates(revealed, position);
          revealed := revealed + [position];
          shownMultiplier := multiplier;
          potentialWin := Winnings(bet, multiplier);
        case _ =>
      }
    }

    /**
     * cashoutMines / cashoutChicken: ignored when no round is active.  A reply
     * schedules the settlement a second later; until then the round stays active.
     */
    method Cashout(reply: Response<CashoutAnswer>) returns (sent: bool)
      requires Valid()
      modifies this
      ensures Valid()
      ensures sent <==> old(active)
      ensures sent && reply.Answer? ==>
        && timers == old(timers) + [SettleCashout(reply.body.balance)]
        && active && revealed == old(revealed)
      ensures !sent || !reply.Answer? ==> unchanged(this)
      ensures startDisabled == old(startDisabled) && shownMultiplier == old(shownMultiplier)
      ensures potentialWin == old(potentialWin)
    {
      if !active {
        return false;
      }
      sent := true;
      if reply.Answer? {
        timers := timers + [SettleCashout(reply.body.balance)];
      }
    }

    /** endMinesGame / endChickenGame: the round is over and the revealed list is cleared. */
    method End()
      requires Valid()
      modifies this
      ensures Valid()
      ensures !active && revealed == [] && !startDisabled
      ensures timers == old(timers) && shownMultiplier == old(shownMultiplier) && potentialWin == old(potentialWin)
    {
      active := false;
      revealed := [];
      startDisabled := false;
    }

    /**
     * Run the pending callback at index k: either way the round ends; a cash-out
     * settlement first takes the balance from its reply.
     */
    method FireTimer(page: Page, k: nat)
      requires Valid()
      requires k < |timers|
      modifies this, page
      ensures Valid()
      ensures timers == RemoveAt(old(timers), k)
      ensures !active && revealed == []
      ensures page.currentBalance == match old(timers[k])
        case EndAfterHit => old(page.currentBalance)
        case SettleCashout(balance) => balance
      ensures page.isPlaying == old(page.isPlaying)
    {
      var t := timers[k];
      timers := RemoveAt(timers, k);
      match t {
        case EndAfterHit =>
        case SettleCashout(balance) =>
          page.currentBalance := balance;
      }
      End();
    }
  }
}
