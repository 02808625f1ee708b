/**
 * The blackjack card rules of app.py: the 52-card deck of rank-suit strings,
 * calculate_blackjack_score, the dealer's draw-to-17 loop and the stand verdict.
 */
module Cards {
  import opened Common

  const Suits: seq<char> := ['♠', '♥', '♦', '♣']
  const Ranks: seq<string> := ["A", "2", "3", "4", "5", "6", "7", "8", "9", "10", "J", "Q", "K"]

  /** The card at position `i` of the unshuffled deck: suits outer, ranks inner. */
  function CardAt(i: nat): string
    requires i < 52
  {
    Ranks[i % 13] + [Suits[i / 13]]
  }

  /** The deck before shuffling, in the order the list comprehension builds it. */
  function StandardDeck(): (d: seq<string>)
    ensures |d| == 52
    ensures forall i :: 0 <= i < 52 ==> d[i] == CardAt(i)
  {
    seq(52, i requires 0 <= i < 52 => CardAt(i))
  }

  /** `card[:-1]`: everything but the last character. */
  function RankOf(card: string): string
    requires |card| >= 1
  {
    card[..|card| - 1]
  }

  function SuitOf(card: string): char
    requires |card| >= 1
  {
    card[|card| - 1]
  }

  /** A rank string followed by a suit character. */
  predicate IsDeckCard(card: string) {
    |card| >= 2 && RankOf(card) in Ranks && SuitOf(card) in Suits
  }

  predicate AllDeckCards(hand: seq<string>) {
    forall i :: 0 <= i < |hand| ==> IsDeckCard(hand[i])
  }

  /** Slicing off the last character gives back the rank the card was built from. */
  lemma CardAtParts(i: nat)
    requires i < 52
    ensures |CardAt(i)| >= 2
    ensures RankOf(CardAt(i)) == Ranks[i % 13]
    ensures SuitOf(CardAt(i)) == Suits[i / 13]
    ensures IsDeckCard(CardAt(i))
  {
    var c := CardAt(i);
    assert c[..|c| - 1] == Ranks[i % 13];
  }

  lemma RanksAndSuitsDistinct()
    ensures NoDuplicates(Ranks) && NoDuplicates(Suits)
  {
  }

  /** The deck holds 52 distinct cards. */
  lemma StandardDeckDistinct()
    ensures NoDuplicates(StandardDeck())
  {
    var d := StandardDeck();
    RanksAndSuitsDistinct();
    forall i, j | 0 <= i < j < 52 ensures d[i] != d[j] {
      CardAtParts(i);
      CardAtParts(j);
      if i % 13 != j % 13 {
        assert RankOf(d[i]) != RankOf(d[j]);
      } else {
        assert i / 13 != j / 13;
        assert SuitOf(d[i]) != SuitOf(d[j]);
      }
    }
  }

  /** Every rank-suit string sits somewhere in the unshuffled deck. */
  lemma DeckCardIndex(c: string) returns (i: nat)
    requires IsDeckCard(c)
    ensures i < 52 && CardAt(i) == c
  {
    var r :| 0 <= r < 13 && Ranks[r] == RankOf(c);
    var s :| 0 <= s < 4 && Suits[s] == SuitOf(c);
    i := 13 * s + r;
    assert i % 13 == r && i / 13 == s;
    assert c == RankOf(c) + [SuitOf(c)];
  }

  /** The deck's cards are exactly the rank-suit strings. */
  lemma StandardDeckIsComplete()
    ensures AllDeckCards(StandardDeck())
    ensures forall c :: IsDeckCard(c) <==> c in StandardDeck()
  {
    var d := StandardDeck();
    forall i | 0 <= i < 52 ensures IsDeckCard(d[i]) {
      CardAtParts(i);
    }
    forall c | IsDeckCard(c) ensures c in d {
      var i := DeckCardIndex(c);
      assert d[i] == c;
    }
  }

  /** Python's `int()` on a string of decimal digits. */
  function DecimalValue(s: string): nat {
    if s == [] then 0
    else
      var d := s[|s| - 1] as int - '0' as int;
      DecimalValue(s[..|s| - 1]) * 10 + (if 0 <= d <= 9 then d else 0)
  }

  /** Face cards count 10, an ace 11, a number card its value. */
  function RankPoints(rank: string): (p: nat)
    requires rank in Ranks
    ensures 2 <= p <= 11
    ensures p == 11 <==> rank == "A"
  {
    if rank == "J" || rank == "Q" || rank == "K" then 10
    else if rank == "A" then 11
    else
      assert rank in Ranks[1..10];
      assert DecimalValue("10") == 10;
      DecimalValue(rank)
  }

  predicate IsAce(card: string)
    requires |card| >= 1
  {
    RankOf(card) == "A"
  }

  function CardPoints(card: string): (p: nat)
    requires IsDeckCard(card)
    ensures 2 <= p <= 11
    ensures p == 11 <==> IsAce(card)
  {
    RankPoints(RankOf(card))
  }

  /** The sum of the card points with every ace counted as 11. */
  function SoftTotal(hand: seq<string>): nat
    requires AllDeckCards(hand)
  {
    if hand == [] then 0 else SoftTotal(hand[..|hand| - 1]) + CardPoints(hand[|hand| - 1])
  }

  function AceCount(hand: seq<string>): nat
    requires AllDeckCards(hand)
  {
    if hand == [] then 0
    else AceCount(hand[..|hand| - 1]) + (if IsAce(hand[|hand| - 1]) then 1 else 0)
  }

  /** The sum with every ace counted as 1. */
  function HardTotal(hand: seq<string>): int
    requires AllDeckCards(hand)
  {
    SoftTotal(hand) - 10 * AceCount(hand)
  }

  /** How many aces are turned from 11 into 1: while over 21 and an ace remains. */
  function AceReductions(total: int, aces: nat): (k: nat)
    ensures k <= aces
    decreases aces
  {
    if total > 21 && aces > 0 then 1 + AceReductions(total - 10, aces - 1) else 0
  }

  /** calculate_blackjack_score as a value. */
  function HandScore(hand: seq<string>): int
    requires AllDeckCards(hand)
  {
    SoftTotal(hand) - 10 * AceReductions(SoftTotal(hand), AceCount(hand))
  }

  /**
   * The score counts each ace as 11 or 1, and turns as few aces into 1 as it
   * must: it counts k of them as 1 (k at most the number of aces), the score is
   * over 21 only when every ace already counts 1, and had it stopped one ace
   * earlier the total would still have been over 21.
   */
  lemma {:induction false} AceReductionsMinimal(total: int, aces: nat)
    ensures var k := AceReductions(total, aces);
      && (total - 10 * k > 21 ==> k == aces)
      && (k > 0 ==> total - 10 * (k - 1) > 21)
      && (total - 10 * aces <= 21 ==> total - 10 * k <= 21)
    decreases aces
  {
    if total > 21 && aces > 0 {
      AceReductionsMinimal(total - 10, aces - 1);
    }
  }

  lemma {:induction false} HardTotalLowerBound(hand: seq<string>)
    requires AllDeckCards(hand)
    ensures 0 <= AceCount(hand) <= |hand|
    ensures |hand| <= HardTotal(hand) <= 10 * |hand|
  {
    if hand != [] {
      HardTotalLowerBound(hand[..|hand| - 1]);
    }
  }

  /**
   * The score lies between the hard and the soft total, goes over 21 exactly
   * when the hard total does, and is never below the number of cards.
   */
  lemma ScoreBounds(hand: seq<string>)
    requires AllDeckCards(hand)
    ensures HardTotal(hand) <= HandScore(hand) <= SoftTotal(hand)
    ensures HandScore(hand) > 21 <==> HardTotal(hand) > 21
    ensures HandScore(hand) >= |hand|
  {
    AceReductionsMinimal(SoftTotal(hand), AceCount(hand));
    HardTotalLowerBound(hand);
  }

  /** The first two cards can never bust: at worst two tens make 20. */
  lemma TwoCardsNeverBust(hand: seq<string>)
    requires AllDeckCards(hand) && |hand| == 2
    ensures HandScore(hand) <= 21
  {
    HardTotalLowerBound(hand);
    ScoreBounds(hand);
  }

  /** The score of a single card is its points (the dealer's shown score). */
  lemma OneCardScore(card: string)
    requires IsDeckCard(card)
    ensures AllDeckCards([card])
    ensures HandScore([card]) == CardPoints(card)
  {
    assert [card][..0] == [];
    assert SoftTotal([card]) == CardPoints(card);
    assert AceCount([card]) <= 1;
  }

  /**
   * calculate_blackjack_score: one pass adding up the cards and counting aces,
   * then the ace adjustment loop.
   */
  method Score(hand: seq<string>) returns (score: int)
    requires AllDeckCards(hand)
    ensures score == HandScore(hand)
  {
    score := 0;
    var aces := 0;
    for i := 0 to |hand|
      invariant score == SoftTotal(hand[..i])
      invariant aces == AceCount(hand[..i])
    {
      assert hand[..i + 1][..i] == hand[..i];
      var rank := RankOf(hand[i]);
      if rank == "J" || rank == "Q" || rank == "K" {
        score := score + 10;
      } else if rank == "A" {
        aces := aces + 1;
        score := score + 11;
      } else {
        score := score + DecimalValue(rank);
      }
    }
    assert hand[..|hand|] == hand;
    ghost var reduced := 0;
    while score > 21 && aces > 0
      invariant 0 <= aces
      invariant reduced + AceReductions(score, aces) == AceReductions(SoftTotal(hand), AceCount(hand))
      invariant score == SoftTotal(hand) - 10 * reduced
      decreases aces
    {
      score := score - 10;
      aces := aces - 1;
      reduced := reduced + 1;
    }
  }

  /** `deck.pop()` `n` times: the last `n` cards, in the order they come off. */
  function Drawn(deck: seq<string>, n: nat): (d: seq<string>)
    requires n <= |deck|
    ensures |d| == n
    ensures forall i :: 0 <= i < n ==> d[i] == deck[|deck| - 1 - i]
  {
    if n == 0 then [] else [deck[|deck| - 1]] + Drawn(deck[..|deck| - 1], n - 1)
  }

  /** `hand` is the dealer's hand after drawing from the end of `deck` until `rest` remains. */
  predicate DealtFrom(dealer: seq<string>, deck: seq<string>, hand: seq<string>, rest: seq<string>) {
    && |rest| <= |deck| && rest == deck[..|rest|]
    && hand == dealer + Drawn(deck, |deck| - |rest|)
    && multiset(hand) + multiset(rest) == multiset(dealer) + multiset(deck)
  }

  /** Popping one more card keeps the hand a draw from the deck. */
  lemma DealtFromStep(dealer: seq<string>, deck: seq<string>, hand: seq<string>, rest: seq<string>)
    requires DealtFrom(dealer, deck, hand, rest) && |rest| > 0
    ensures DealtFrom(dealer, deck, hand + [rest[|rest| - 1]], rest[..|rest| - 1])
  {
    var card := rest[|rest| - 1];
    var n := |deck| - |rest|;
    DrawnStep(deck, n);
    assert deck[|deck| - 1 - n] == card;
    assert rest[..|rest| - 1] + [card] == rest;
    calc {
      multiset(hand + [card]) + multiset(rest[..|rest| - 1]);
      multiset(hand) + multiset(rest[..|rest| - 1] + [card]);
    }
  }

  /**
   * One pass of the dealer's loop: popping the deck's last card onto a hand
   * below 17 keeps the hand a draw from the deck, keeps every card a deck card,
   * and adds one more hand below 17 to those the dealer drew on.
   */
  lemma DealerDrawStep(dealer: seq<string>, deck: seq<string>, hand: seq<string>, rest: seq<string>,
                       hand': seq<string>, rest': seq<string>)
    requires DealtFrom(dealer, deck, hand, rest) && |rest| > 0
    requires AllDeckCards(hand) && AllDeckCards(rest) && HandScore(hand) < 17
    requires forall j :: |dealer| <= j < |hand| ==> HandScore(hand[..j]) < 17
    requires |dealer| <= |hand|
    requires hand' == hand + [rest[|rest| - 1]] && rest' == rest[..|rest| - 1]
    ensures DealtFrom(dealer, deck, hand', rest')
    ensures AllDeckCards(hand') && AllDeckCards(rest')
    ensures forall j :: |dealer| <= j < |hand'| ==> HandScore(hand'[..j]) < 17
  {
    DealtFromStep(dealer, deck, hand, rest);
    forall j | |dealer| <= j < |hand'| ensures HandScore(hand'[..j]) < 17 {
      if j < |hand| {
        assert hand'[..j] == hand[..j];
      } else {
        assert hand'[..j] == hand;
      }
    }
  }

  /**
   * The dealer's turn: draw from the end of the deck while the score is under 17.
   * The caller guarantees there are enough cards (17 cards always reach 17).
   */
  method DealerPlay(dealer: seq<string>, deck: seq<string>) returns (hand: seq<string>, rest: seq<string>)
    requires AllDeckCards(dealer) && AllDeckCards(deck)
    requires |dealer| + |deck| >= 17
    ensures DealtFrom(dealer, deck, hand, rest)
    ensures AllDeckCards(hand) && HandScore(hand) >= 17
    ensures forall j :: |dealer| <= j < |hand| ==> HandScore(hand[..j]) < 17
  {
    hand, rest := dealer, deck;
    var score := Score(hand);
    while score < 17
      invariant DealtFrom(dealer, deck, hand, rest) && |dealer| <= |hand|
      invariant |hand| + |rest| == |dealer| + |deck|
      invariant AllDeckCards(hand) && AllDeckCards(rest) && score == HandScore(hand)
      invariant forall j :: |dealer| <= j < |hand| ==> HandScore(hand[..j]) < 17
      decreases |rest|
    {
      ScoreBounds(hand);
      var hand', rest' := hand + [rest[|rest| - 1]], rest[..|rest| - 1];
      DealerDrawStep(dealer, deck, hand, rest, hand', rest');
      hand, rest := hand', rest';
      score := Score(hand);
    }
  }

  lemma {:induction false} DrawnStep(deck: seq<string>, n: nat)
    requires n < |deck|
    ensures Drawn(deck, n + 1) == Drawn(deck, n) + [deck[|deck| - 1 - n]]
  {
  }

  datatype Verdict = Win | Lose | Push

  /** The stand comparison: a dealer bust wins, then the higher score wins, equal scores push. */
  function StandVerdict(playerScore: int, dealerScore: int): Verdict {
    if dealerScore > 21 then Win
    else if playerScore > dealerScore then Win
    else if playerScore < dealerScore then Lose
    else Push
  }

  function VerdictMultiplier(v: Verdict): real {
    match v
    case Win => 2.0
    case Lose => 0.0
    case Push => 1.0
  }

  /**
   * For a player still at 21 or below: the player wins exactly when the dealer
   * busts or is beaten, loses exactly when the dealer stands on more, and pushes
   * only on equal scores; the multiplier returns twice, nothing, or the stake.
   */
  lemma StandVerdictCases(playerScore: int, dealerScore: int)
    requires playerScore <= 21
    ensures StandVerdict(playerScore, dealerScore) == Win <==> dealerScore > 21 || playerScore > dealerScore
    ensures StandVerdict(playerScore, dealerScore) == Lose <==> dealerScore <= 21 && playerScore < dealerScore
    ensures StandVerdict(playerScore, dealerScore) == Push <==> playerScore == dealerScore
    ensures StandVerdict(dealerScore, playerScore) == Push <==> StandVerdict(playerScore, dealerScore) == Push
  {
  }
}
