/**
 * The limbo page of limbo.js: the chance and potential win shown for a target,
 * the local checks before a play, the 20-tick counting animation, and the result
 * display that a one-second timer applies after the page has already been freed.
 */
module LimboClient {
  import opened Common
  import opened Rules
  import opened Server
  import opened ClientPage

  /** The chance (in percent) and the potential win shown by updateLimboStats. */
  datatype LimboStats = LimboStats(chance: real, potential: real)

  /**
   * updateLimboStats: `min(99 / target, 99)` and `bet * target`.  A target of 0
   * divides to Infinity, which the minimum turns into 99; a negative target
   * shows a negative chance.
   */
  function ShownStats(target: real, bet: real): (s: LimboStats)
    ensures s.chance <= 99.0
    ensures s.chance == 99.0 <==> 0.0 <= target <= 1.0
    ensures target < 0.0 ==> s.chance < 0.0
    ensures s.potential == Winnings(bet, target)
  {
    if target == 0.0 then LimboStats(99.0, bet * target)
    else
      var c := 99.0 / target;
      assert 0.0 < target <= 1.0 ==> c >= 99.0 by {
        if 0.0 < target <= 1.0 {
          assert c * target == 99.0;
        }
      }
      assert target > 1.0 ==> c < 99.0 by {
        if target > 1.0 {
          assert c * target == 99.0;
        }
      }
      assert target < 0.0 ==> c < 0.0 by {
        if target < 0.0 {
          assert c * target == 99.0;
        }
      }
      LimboStats(if c < 99.0 then c else 99.0, bet * target)
  }

  /** The range playLimbo accepts: a target below 1.01 or above 1000 is refused. */
  predicate TargetAccepted(target: real) {
    !(target < 1.01 || target > 1000.0)
  }

  /**
   * For an accepted target the shown chance is exactly 99/target, the potential
   * win is what the server pays when the round wins, and a target above the
   * server's cap of 100 is accepted although it can never win.
   */
  lemma AcceptedTargetStats(target: real, bet: real, r: real)
    requires TargetAccepted(target)
    ensures ShownStats(target, bet).chance == 99.0 / target
    ensures LimboOutcome(target, LimboResult(r)).won ==>
      ShownStats(target, bet).potential == Winnings(bet, LimboOutcome(target, LimboResult(r)).multiplier)
    ensures target > 100.0 ==> !LimboOutcome(target, LimboResult(r)).won
  {
    if target > 100.0 {
      LimboTargetAboveCapLoses(target, r);
    }
  }

  /** The counting animation stops after this many 50 ms ticks. */
  const CountTicks: nat := 20

  /** What the result box shows: '?', a counting number, or a result with its `won` flag. */
  datatype ResultBox = Unknown | Counting | Shown(result: real, won: bool)

  class LimboGame {
    /**
     * The count intervals still running, keyed by the play that started them,
     * with the ticks each has counted.  Each play's interval is its own
     * `countInterval`, so clearing one leaves the others running.
     */
    var counts: map<nat, nat>
    /** How many plays have started; the next play's number. */
    var plays: nat
    var shown: ResultBox
    /** Replies whose one-second display timer has not fired yet, with the play they answer. */
    var pendingDisplays: seq<(nat, LimboReply)>

    ghost predicate Valid()
      reads this
    {
      && (forall id :: id in counts ==> id < plays && counts[id] < CountTicks)
      && (forall i :: 0 <= i < |pendingDisplays| ==> pendingDisplays[i].0 < plays)
    }

    constructor ()
      ensures Valid() && counts == map[] && plays == 0 && shown == Unknown && pendingDisplays == []
    {
      counts := map[];
      plays := 0;
      shown := Unknown;
      pendingDisplays := [];
    }

    /**
     * The opening of playLimbo: ignored while any round is in flight; a stake
     * above the shown balance or a target outside [1.01, 1000] is refused before
     * any request; otherwise the page is marked busy and this play's count
     * interval starts beside any older one still running.
     */
    method PlayRequest(page: Page, bet: real, target: real) returns (sent: bool)
      requires Valid()
      modifies this, page
      ensures Valid()
      ensures sent <==> !old(page.isPlaying) && Affordable(bet, old(page.currentBalance)) && TargetAccepted(target)
      ensures sent ==>
        && page.isPlaying && page.currentBalance == old(page.currentBalance)
        && old(plays) !in old(counts) && counts == old(counts)[old(plays) := 0] && plays == old(plays) + 1
      ensures !sent ==> unchanged(this) && unchanged(page)
      ensures pendingDisplays == old(pendingDisplays) && shown == old(shown)
    {
      if page.isPlaying {
        return false;
      }
      if bet > page.currentBalance {
        return false;
      }
      if target < 1.01 || target > 1000.0 {
        return false;
      }
      page.isPlaying := true;
      counts := counts[plays := 0];
      plays := plays + 1;
      sent := true;
    }

    /** One firing of play `id`'s count interval: it shows a counting number, and its 20th tick clears it. */
    method CountTick(id: nat)
      requires Valid()
      requires id in counts
      modifies this
      ensures Valid()
      ensures shown == Counting
      ensures old(counts[id]) + 1 < CountTicks ==> counts == old(counts)[id := old(counts[id]) + 1]
      ensures old(counts[id]) + 1 >= CountTicks ==> counts == old(counts) - {id}
      ensures plays == old(plays) && pendingDisplays == old(pendingDisplays)
    {
      shown := Counting;
      var count := counts[id] + 1;
      if count >= CountTicks {
        counts := counts - {id};
      } else {
        counts := counts[id := count];
      }
    }

    /**
     * The rest of playLimbo for play `play`: an error clears that play's count
     * and shows '?'; a reply schedules its display a second later.  Either way
     * `finally` frees the page now, before the display.
     */
    method PlayReply(page: Page, play: nat, reply: Response<LimboReply>)
      requires Valid()
      requires play < plays
      modifies this, page
      ensures Valid()
      ensures !page.isPlaying && page.currentBalance == old(page.currentBalance)
      ensures reply.Answer? ==>
        pendingDisplays == old(pendingDisplays) + [(play, reply.body)] && counts == old(counts) && shown == old(shown)
      ensures !reply.Answer? ==>
        counts == old(counts) - {play} && shown == Unknown && pendingDisplays == old(pendingDisplays)
      ensures plays == old(plays)
    {
      if reply.Answer? {
        pendingDisplays := pendingDisplays + [(play, reply.body)];
      } else {
        counts := counts - {play};
        shown := Unknown;
      }
      page.EndPlay(None);
    }

    /**
     * The display timer of the k-th pending reply: clear the count of the play
     * it answers (and only that one), show the result, take the balance.
     */
    method FireDisplay(page: Page, k: nat)
      requires Valid()
      requires k < |pendingDisplays|
      modifies this, page
      ensures Valid()
      ensures counts == old(counts) - {old(pendingDisplays[k]).0}
      ensures shown == Shown(old(pendingDisplays[k]).1.result, old(pendingDisplays[k]).1.won)
      ensures page.currentBalance == old(pendingDisplays[k]).1.balance
      ensures pendingDisplays == RemoveAt(old(pendingDisplays), k)
      ensures plays == old(plays) && page.isPlaying == old(page.isPlaying)
    {
      var (play, d) := pendingDisplays[k];
      pendingDisplays := RemoveAt(pendingDisplays, k);
      counts := counts - {play};
      shown := Shown(d.result, d.won);
      page.currentBalance := d.balance;
    }
  }
}
