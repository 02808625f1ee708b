/**
 * The blackjack table of blackjack.js: the `bjGameActive` flag, the hands and
 * scores on display with the dealer's second card hidden until the stand, the
 * red-suit colour rule and the result banner.
 */
module BlackjackClient {
  import opened Common
  import opened Cards
  import opened Server
  import opened ClientPage

  /** The placeholder drawn in place of the hidden dealer card. */
  const HiddenCard: string := "??"

  /** The dealer's cards as drawn: with the dealer hidden, the card at index 1 becomes '??'. */
  function DealerView(hand: seq<string>, hidden: bool): (v: seq<string>)
    ensures |v| == |hand|
    ensures forall i :: 0 <= i < |hand| ==> v[i] == if hidden && i == 1 then HiddenCard else hand[i]
  {
    seq(|hand|, i requires 0 <= i < |hand| => if hidden && i == 1 then HiddenCard else hand[i])
  }

  /**
   * While the dealer is hidden the only deck card on display is the up card;
   * once revealed, the view is the hand itself.
   */
  lemma HiddenDealerShowsOnlyUpCard(hand: seq<string>)
    requires |hand| == 2
    ensures !IsDeckCard(HiddenCard)
    ensures forall c :: c in DealerView(hand, true) && IsDeckCard(c) ==> c == hand[0]
    ensures DealerView(hand, true)[0] == hand[0]
    ensures DealerView(hand, false) == hand
  {
    assert RankOf(HiddenCard) == "?";
    var v := DealerView(hand, true);
    assert v == [hand[0], HiddenCard];
  }

  /** createCardHTML: a card is drawn red when its string contains a heart or a diamond. */
  predicate ShowsRed(card: string) {
    '♥' in card || '♦' in card
  }

  /** For the 52 deck strings the colour rule is exactly the suit; the placeholder is dark. */
  lemma ShowsRedIsSuit(card: string)
    requires IsDeckCard(card)
    ensures ShowsRed(card) <==> SuitOf(card) == '♥' || SuitOf(card) == '♦'
    ensures !ShowsRed(HiddenCard)
  {
    var rank := RankOf(card);
    assert card == rank + [SuitOf(card)];
    assert '♥' !in rank && '♦' !in rank;
  }

  /** The `result` string the stand reply carries for each verdict. */
  function VerdictName(v: Verdict): string {
    match v
    case Win => "win"
    case Lose => "lose"
    case Push => "push"
  }

  /** The message endBlackJack shows. */
  datatype Banner = NoBanner | WinBanner | LoseBanner | PushBanner

  /** endBlackJack: 'win' and 'lose' are recognised, anything else reads as a push. */
  function Classify(result: string): (b: Banner)
    ensures b != NoBanner
    ensures b == WinBanner <==> result == "win"
    ensures b == LoseBanner <==> result == "lose"
  {
    if result == "win" then WinBanner
    else if result == "lose" then LoseBanner
    else PushBanner
  }

  /** Each verdict the server sends is shown as itself. */
  lemma ClassifyVerdict(v: Verdict)
    ensures Classify(VerdictName(v)) == match v
      case Win => WinBanner
      case Lose => LoseBanner
      case Push => PushBanner
  {
  }

  class BlackjackTable {
    var active: bool
    var hideDealer: bool
    var shownPlayer: seq<string>
    var shownDealer: seq<string>
    var shownPlayerScore: int
    /** None while the dealer score shows '?'. */
    var shownDealerScore: Option<int>
    var banner: Banner

    ghost predicate Valid()
      reads this
    {
      hideDealer <==> shownDealerScore.None?
    }

    constructor ()
      ensures Valid() && !active && banner == NoBanner
    {
      active := false;
      hideDealer := false;
      shownPlayer, shownDealer := [], [];
      shownPlayerScore := 0;
      shownDealerScore := Some(0);
      banner := NoBanner;
    }

    /** displayBlackJackHand. */
    method Display(player: seq<string>, dealer: seq<string>, playerScore: int, dealerScore: int, hidden: bool)
      modifies this
      ensures Valid()
      ensures hideDealer == hidden && shownPlayer == player && shownDealer == DealerView(dealer, hidden)
      ensures shownPlayerScore == playerScore && shownDealerScore == if hidden then None else Some(dealerScore)
      ensures active == old(active) && banner == old(banner)
    {
      hideDealer := hidden;
      shownPlayer := player;
      shownDealer := DealerView(dealer, hidden);
      shownPlayerScore := playerScore;
      shownDealerScore := if hidden then None else Some(dealerScore);
    }

    /** endBlackJack: the round is over, the reply's balance is shown with its banner. */
    method End(page: Page, result: string, balance: real)
      modifies this, page
      ensures !active && page.currentBalance == balance && banner == Classify(result)
      ensures hideDealer == old(hideDealer) && shownDealerScore == old(shownDealerScore)
      ensures shownPlayer == old(shownPlayer) && shownDealer == old(shownDealer)
      ensures shownPlayerScore == old(shownPlayerScore) && page.isPlaying == old(page.isPlaying)
    {
      active := false;
      page.currentBalance := balance;
      banner := Classify(result);
    }

    /**
     * dealBlackJack: refused locally when the stake exceeds the shown balance.  A
     * reply opens the round with the dealer hidden; an error leaves the table as
     * it was.
     */
    method Deal(page: Page, bet: real, reply: Response<DealReply>) returns (sent: bool)
      requires Valid()
      modifies this, page
      ensures Valid()
      ensures sent <==> Affordable(bet, old(page.currentBalance))
      ensures !sent || !reply.Answer? ==> unchanged(this) && unchanged(page)
      ensures sent && reply.Answer? ==>
        && active && page.currentBalance == reply.body.balance && banner == NoBanner
        && hideDealer && shownDealerScore.None?
        && shownPlayer == reply.body.playerHand && shownDealer == DealerView(reply.body.dealerHand, true)
      ensures page.isPlaying == old(page.isPlaying)
    {
      if bet > page.currentBalance {
        return false;
      }
      sent := true;
      if reply.Answer? {
        var d := reply.body;
        active := true;
        page.currentBalance := d.balance;
        Display(d.playerHand, d.dealerHand, d.playerScore, d.dealerScore, true);
        banner := NoBanner;
      }
    }

    /**
     * hitBlackJack: the new hands are shown with the dealer still hidden; the
     * round ends (as a loss) only when the reply says the game is over.  A reply
     * without hands lands in the `catch` block and changes nothing.
     */
    method Hit(page: Page, reply: Response<HitReply>)
      requires Valid()
      requires reply.Answer? && reply.body.gameOver ==> reply.body.bust.Some?
      modifies this, page
      ensures Valid()
      ensures !reply.Answer? ==> unchanged(this) && unchanged(page)
      ensures reply.Answer? ==>
        && hideDealer && shownDealerScore.None?
        && shownPlayer == reply.body.playerHand && shownDealer == DealerView(reply.body.dealerHand, true)
        && (reply.body.gameOver ==>
              !active && banner == LoseBanner && page.currentBalance == reply.body.bust.value.balance)
        && (!reply.body.gameOver ==>
              active == old(active) && banner == old(banner) && page.currentBalance == old(page.currentBalance))
      ensures page.isPlaying == old(page.isPlaying)
    {
      if reply.Answer? {
        var h := reply.body;
        Display(h.playerHand, h.dealerHand, h.playerScore, h.dealerScore, true);
        if h.gameOver {
          End(page, "lose", h.bust.value.balance);
        }
      }
    }

    /** standBlackJack: the dealer's hand is revealed and the round always ends. */
    method Stand(page: Page, reply: Response<StandReply>)
      requires Valid()
      modifies this, page
      ensures Valid()
      ensures !reply.Answer? ==> unchanged(this) && unchanged(page)
      ensures reply.Answer? ==>
        && !active && !hideDealer && shownDealerScore == Some(reply.body.dealerScore)
        && shownDealer == reply.body.dealerHand
        && shownPlayer == reply.body.playerHand && shownPlayerScore == reply.body.playerScore
        && banner == Classify(VerdictName(reply.body.result))
        && page.currentBalance == reply.body.balance
      ensures page.isPlaying == old(page.isPlaying)
    {
      if reply.Answer? {
        var s := reply.body;
        Display(s.playerHand, s.dealerHand, s.playerScore, s.dealerScore, false);
        End(page, VerdictName(s.result), s.balance);
      }
    }
  }
}
