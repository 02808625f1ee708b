/**
 * The balloon round of pump.js: `pumpActive`, `pumpMultiplier`,
 * `pumpMaxMultiplier` and whether `pumpInterval` still runs.  Each firing of the
 * 100 ms interval is a call of `Tick` with the drawn increment; each pending
 * `setTimeout` (the pop request, the reset after a settled round) is a timer.
 */
module PumpClient {
  import opened Common
  import opened Server
  import opened ClientPage

  /** The balloon's size for a multiplier: half the gain over 1 is added to the base scale. */
  function BalloonScale(multiplier: real): (s: real)
    ensures multiplier >= 1.0 ==> s >= 1.0
    ensures s - 1.0 == (multiplier - 1.0) / 2.0
  {
    1.0 + (multiplier - 1.0) * 0.5
  }

  /** The balloon turns red once the multiplier passes 70% of the pop point. */
  predicate Endangered(multiplier: real, maxMultiplier: real)
    requires maxMultiplier > 0.0
  {
    multiplier / maxMultiplier > 0.7
  }

  /** A bigger multiplier shows a bigger balloon, and the danger threshold is 0.7 times the pop point. */
  lemma BalloonDisplay(m: real, m': real, maxMultiplier: real)
    requires maxMultiplier > 0.0
    ensures m < m' ==> BalloonScale(m) < BalloonScale(m')
    ensures Endangered(m, maxMultiplier) <==> m > 0.7 * maxMultiplier
  {
    var q := m / maxMultiplier;
    assert q * maxMultiplier == m;
    if q > 0.7 {
      assert (q - 0.7) * maxMultiplier > 0.0;
    } else {
      assert (0.7 - q) * maxMultiplier >= 0.0;
    }
  }

  /** The pending callbacks: the pop request half a second after the explosion, and the reset. */
  datatype PumpTimer = PopRequest | Reset

  class PumpRound {
    var active: bool
    var intervalRunning: bool
    var multiplier: real
    var maxMultiplier: real
    /** The balloon's look: its scale, whether it is drawn at full opacity, and whether it shows the danger colour. */
    var scale: real
    var visible: bool
    var danger: bool
    var timers: seq<PumpTimer>

    /** A running round always has its interval, and the multiplier never drops below 1. */
    ghost predicate Valid()
      reads this
    {
      && 1.0 <= multiplier
      && (active ==> intervalRunning)
    }

    constructor ()
      ensures Valid() && !active && !intervalRunning && multiplier == 1.0 && timers == []
      ensures scale == 1.0 && visible && !danger
    {
      active := false;
      intervalRunning := false;
      multiplier := 1.0;
      maxMultiplier := 1.0;
      scale := 1.0;
      visible := true;
      danger := false;
      timers := [];
    }

    /** resetPump: inactive, multiplier 1, interval cleared, balloon back to its base look. */
    method ResetRound()
      modifies this
      ensures Valid()
      ensures !active && !intervalRunning && multiplier == 1.0 && scale == 1.0 && visible && !danger
      ensures maxMultiplier == old(maxMultiplier) && timers == old(timers)
    {
      active := false;
      multiplier := 1.0;
      intervalRunning := false;
      scale := 1.0;
      visible := true;
      danger := false;
    }

    /**
     * startPump: refused locally when the stake exceeds the shown balance.  A
     * reply starts the round at 1.00x with the server's pop point and starts the
     * interval; an error body or a failed request resets the balloon.
     */
    method Start(page: Page, bet: real, reply: Response<PumpStartReply>) returns (sent: bool)
      requires Valid()
      modifies this, page
      ensures Valid()
      ensures sent <==> Affordable(bet, old(page.currentBalance))
      ensures !sent ==> unchanged(this) && unchanged(page)
      ensures sent && reply.Answer? ==>
        && active && intervalRunning && multiplier == 1.0
        && maxMultiplier == reply.body.maxMultiplier && page.currentBalance == reply.body.balance
        && scale == old(scale) && visible == old(visible) && danger == old(danger)
      ensures sent && !reply.Answer? ==>
        && !active && !intervalRunning && multiplier == 1.0 && page.currentBalance == old(page.currentBalance)
        && scale == 1.0 && visible && !danger
      ensures timers == old(timers) && page.isPlaying == old(page.isPlaying)
    {
      if bet > page.currentBalance {
        return false;
      }
      sent := true;
      match reply {
        case Answer(a) =>
          active := true;
          multiplier := 1.0;
          maxMultiplier := a.maxMultiplier;
          page.currentBalance := a.balance;
          intervalRunning := true;
        case _ =>
          ResetRound();
      }
    }

    /**
     * One firing of the interval.  An inactive round only clears the interval.
     * Otherwise the multiplier grows by the increment; reaching the pop point
     * stops the interval, ends the round, shrinks the balloon to nothing and
     * schedules the pop request, and below it the balloon is redrawn.
     */
    method Tick(increment: real)
      requires Valid()
      requires 0.01 <= increment < 0.03
      modifies this
      ensures Valid()
      ensures !old(active) ==> !intervalRunning && active == old(active) && multiplier == old(multiplier) && timers == old(timers)
      ensures old(active) ==> multiplier == old(multiplier) + increment > old(multiplier)
      ensures old(active) && multiplier >= maxMultiplier ==> !active && !intervalRunning && timers == old(timers) + [PopRequest]
      ensures old(active) && multiplier < maxMultiplier ==>
        active && intervalRunning && timers == old(timers) && scale == BalloonScale(multiplier)
      ensures old(active) && multiplier < maxMultiplier ==> danger == (old(danger) || Endangered(multiplier, maxMultiplier))
      ensures !old(active) ==> scale == old(scale) && visible == old(visible) && danger == old(danger)
      ensures old(active) && multiplier >= maxMultiplier ==> scale == 0.0 && !visible && danger == old(danger)
      ensures old(active) && multiplier < maxMultiplier ==> visible == old(visible)
      ensures maxMultiplier == old(maxMultiplier)
    {
      if !active {
        intervalRunning := false;
        return;
      }
      multiplier := multiplier + increment;
      if multiplier >= maxMultiplier {
        intervalRunning := false;
        active := false;
        scale := 0.0;
        visible := false;
        timers := timers + [PopRequest];
        return;
      }
      scale := BalloonScale(multiplier);
      if Endangered(multiplier, maxMultiplier) {
        danger := true;
      }
    }

    /**
     * The click half of cashoutPump: ignored when inactive; otherwise the interval
     * is cleared and the round made inactive before the request carrying the
     * local multiplier goes out, so a second click sends nothing.
     */
    method CashoutClick() returns (sent: bool, sentMultiplier: real)
      requires Valid()
      modifies this
      ensures Valid()
      ensures sent <==> old(active)
      ensures !sent ==> unchanged(this)
      ensures sent ==> !active && !intervalRunning && sentMultiplier == multiplier == old(multiplier)
      ensures timers == old(timers) && maxMultiplier == old(maxMultiplier)
    {
      if !active {
        return false, 0.0;
      }
      intervalRunning := false;
      active := false;
      sent, sentMultiplier := true, multiplier;
    }

    /**
     * The reply half of cashoutPump: a reply takes its balance and schedules the
     * reset; an error body changes nothing; a failed request resets at once.
     */
    method CashoutReply(page: Page, reply: Response<PumpCashoutReply>)
      requires Valid()
      modifies this, page
      ensures Valid()
      ensures reply.Answer? ==>
        && page.currentBalance == reply.body.balance && timers == old(timers) + [Reset]
        && active == old(active) && multiplier == old(multiplier)
      ensures reply.ErrorBody? ==> unchanged(this) && unchanged(page)
      ensures reply.TransportFailure? ==>
        !active && multiplier == 1.0 && timers == old(timers) && page.currentBalance == old(page.currentBalance)
      ensures page.isPlaying == old(page.isPlaying)
    {
      match reply {
        case Answer(a) =>
          page.currentBalance := a.balance;
          timers := timers + [Reset];
        case ErrorBody(_) =>
        case TransportFailure =>
          ResetRound();
      }
    }

    /**
     * Run the pending callback at index k.  The pop request takes the balance
     * from its reply and schedules the reset; when it fails the balloon resets
     * at once.  A reset timer runs resetPump.
     */
    method FireTimer(page: Page, k: nat, popReply: Response<PopReply>)
      requires Valid()
      requires k < |timers|
      modifies this, page
      ensures Valid()
      ensures old(timers[k]) == Reset ==> timers == RemoveAt(old(timers), k) && !active && multiplier == 1.0
      ensures old(timers[k]) == PopRequest && popReply.Answer? ==>
        && page.currentBalance == popReply.body.balance
        && timers == RemoveAt(old(timers), k) + [Reset] && active == old(active)
      ensures old(timers[k]) == PopRequest && !popReply.Answer? ==>
        && timers == RemoveAt(old(timers), k) && !active && multiplier == 1.0
        && page.currentBalance == old(page.currentBalance)
      ensures page.isPlaying == old(page.isPlaying)
    {
      var t := timers[k];
      timers := RemoveAt(timers, k);
      match t {
        case Reset =>
          ResetRound();
        case PopRequest =>
          if popReply.Answer? {
            page.currentBalance := popReply.body.balance;
            timers := timers + [Reset];
          } else {
            ResetRound();
          }
      }
    }
  }
}
