/**
 * The browser side's shared state: the balance shown in the header (declared in
 * main.js) and the one `isPlaying` flag (declared in plinko.js) that plinko, dice,
 * crash, roulette and limbo all consult, so at most one of those rounds is in flight.
 */
module ClientPage {
  import opened Common

  /**
   * What a `fetch` to the server yields: a JSON body with the route's fields, a
   * JSON body with an `error` field, or a failure that lands in the `catch` block.
   */
  datatype Response<T> = Answer(body: T) | ErrorBody(message: string) | TransportFailure

  /** The local stake check every game runs before it sends anything: `bet > currentBalance` refuses. */
  predicate Affordable(bet: real, balance: real) {
    bet <= balance
  }

  class Page {
    var currentBalance: real
    var isPlaying: bool

    constructor (balance: real)
      ensures currentBalance == balance && !isPlaying
    {
      currentBalance := balance;
      isPlaying := false;
    }

    /**
     * The opening of playPlinko, playDice, playCrash and playRoulette: return at
     * once while a round is in flight, refuse a stake above the shown balance,
     * otherwise mark the page busy and send the request.
     */
    method BeginPlay(bet: real) returns (sent: bool)
      modifies this
      ensures sent <==> !old(isPlaying) && Affordable(bet, old(currentBalance))
      ensures sent ==> isPlaying && currentBalance == old(currentBalance)
      ensures !sent ==> unchanged(this)
    {
      if isPlaying {
        return false;
      }
      if bet > currentBalance {
        return false;
      }
      isPlaying := true;
      sent := true;
    }

    /**
     * The end of a single-shot play: the balance from the reply when one was
     * applied, and in every case the `finally` block frees the page.
     */
    method EndPlay(balance: Option<real>)
      modifies this
      ensures !isPlaying
      ensures currentBalance == if balance.Some? then balance.value else old(currentBalance)
    {
      if balance.Some? {
        currentBalance := balance.value;
      }
      isPlaying := false;
    }
  }
}
