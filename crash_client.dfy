/**
 * The crash page of crash.js: the `crashHistory` feed with its ten seeded
 * entries and its most-recent-first panel, the chip colours, the replay of the
 * server's path and the vertical scale it is drawn against, and the play request
 * behind the shared `isPlaying` guard.
 */
module CrashClient {
  import opened Common
  import opened Server
  import opened ClientPage

  /** The panel shows at most this many chips. */
  const PanelSize: nat := 10

  /** The chips of the panel: the last ten entries, the most recent first. */
  function Chips(history: seq<real>): (c: seq<real>)
    ensures |c| == if |history| < PanelSize then |history| else PanelSize
    ensures forall i :: 0 <= i < |c| ==> c[i] == history[|history| - 1 - i]
  {
    var start := if |history| < PanelSize then 0 else |history| - PanelSize;
    Reverse(history[start..])
  }

  /** A new entry becomes the first chip, and the others move one place along. */
  lemma ChipsAfterRecord(history: seq<real>, x: real)
    ensures Chips(history + [x])[0] == x
    ensures forall i :: 1 <= i < |Chips(history + [x])| ==> Chips(history + [x])[i] == Chips(history)[i - 1]
  {
    var h := history + [x];
    assert h[|h| - 1] == x;
    forall i | 1 <= i < |Chips(h)|
      ensures Chips(h)[i] == Chips(history)[i - 1]
    {
      assert h[|h| - 1 - i] == history[|history| - 1 - (i - 1)];
    }
  }

  datatype ChipColour = Green | Blue | Red

  /** A chip is green from 5x, blue from 2x, red below. */
  function ColourOf(crash: real): (c: ChipColour)
    ensures c == Green <==> crash >= 5.0
    ensures c == Red <==> crash < 2.0
  {
    if crash >= 5.0 then Green
    else if crash >= 2.0 then Blue
    else Red
  }

  /** `Math.max(...path, 10)`: the top of the vertical scale. */
  function ScaleMax(path: seq<real>): (m: real)
    ensures m >= 10.0
    ensures forall i :: 0 <= i < |path| ==> path[i] <= m
    ensures m == 10.0 || exists i :: 0 <= i < |path| && path[i] == m
  {
    if |path| == 0 then 10.0
    else
      var rest := ScaleMax(path[1..]);
      assert forall i :: 1 <= i < |path| ==> path[i] == path[1..][i - 1];
      if path[0] > rest then path[0]
      else
        assert rest != 10.0 ==> exists i :: 0 <= i < |path| && path[i] == rest by {
          if rest != 10.0 {
            var j :| 0 <= j < |path[1..]| && path[1..][j] == rest;
            assert path[j + 1] == rest;
          }
        }
        rest
  }

  /** The height fraction a path point is drawn at: `(value - 1) / (max - 1)`. */
  function Height(value: real, max: real): real
    requires max >= 10.0
  {
    (value - 1.0) / (max - 1.0)
  }

  lemma FractionBounds(a: real, b: real)
    requires 0.0 <= a <= b && 0.0 < b
    ensures 0.0 <= a / b <= 1.0
  {
  }

  /**
   * The scale's divisor is at least 9, so the mapping is always defined, and
   * every point of a path at or above 1x is drawn within the plot area.
   */
  lemma PathFitsCanvas(path: seq<real>)
    requires forall i :: 0 <= i < |path| ==> 1.0 <= path[i]
    ensures ScaleMax(path) - 1.0 >= 9.0
    ensures forall i :: 0 <= i < |path| ==> 0.0 <= Height(path[i], ScaleMax(path)) <= 1.0
  {
    var m := ScaleMax(path);
    forall i | 0 <= i < |path|
      ensures 0.0 <= Height(path[i], m) <= 1.0
    {
      FractionBounds(path[i] - 1.0, m - 1.0);
    }
  }

  /** The flashes played once the path is exhausted. */
  const Flashes: nat := 3

  /**
   * animateCrash: each frame draws the path up to `currentIndex` and shows that
   * point's multiplier; once the index passes the end, three flashes are
   * scheduled and the replay resolves.  Returns the multipliers shown, frame by
   * frame, and the number of flashes.
   */
  method Replay(path: seq<real>) returns (shown: seq<real>, flashes: nat)
    ensures shown == path
    ensures flashes == Flashes
  {
    var currentIndex := 0;
    shown := [];
    while currentIndex < |path|
      invariant 0 <= currentIndex <= |path|
      invariant shown == path[..currentIndex]
    {
      shown := shown + [path[currentIndex]];
      currentIndex := currentIndex + 1;
    }
    assert path[..|path|] == path;
    flashes := 0;
    for flash := 0 to Flashes
      invariant flashes == flash
    {
      flashes := flashes + 1;
    }
  }

  class CrashGame {
    var history: seq<real>
    /** The multiplier the canvas is left showing: the crash point the board is redrawn with after the flashes. */
    var shownMultiplier: real

    constructor ()
      ensures history == [] && shownMultiplier == 1.0
    {
      history := [];
      shownMultiplier := 1.0;
    }

    /**
     * generateCrashHistory: ten entries `1 + 9 × r`, one per draw r in [0, 1),
     * so each lies in [1, 10].
     */
    method Generate(draws: seq<real>)
      requires |draws| >= PanelSize
      requires forall i :: 0 <= i < |draws| ==> 0.0 <= draws[i] < 1.0
      modifies this
      ensures |history| == PanelSize
      ensures forall i :: 0 <= i < PanelSize ==> history[i] == 1.0 + draws[i] * 9.0
      ensures forall i :: 0 <= i < PanelSize ==> 1.0 <= history[i] <= 10.0
      ensures shownMultiplier == old(shownMultiplier)
    {
      history := [];
      for i := 0 to PanelSize
        invariant |history| == i
        invariant forall j :: 0 <= j < i ==> history[j] == 1.0 + draws[j] * 9.0
        invariant forall j :: 0 <= j < i ==> 1.0 <= history[j] <= 10.0
        invariant shownMultiplier == old(shownMultiplier)
      {
        history := history + [1.0 + draws[i] * 9.0];
      }
    }

    /** The opening of playCrash: the shared guard, then the request. */
    method PlayRequest(page: Page, bet: real) returns (sent: bool)
      modifies page
      ensures sent <==> !old(page.isPlaying) && Affordable(bet, old(page.currentBalance))
      ensures sent ==> page.isPlaying && page.currentBalance == old(page.currentBalance)
      ensures !sent ==> unchanged(page)
    {
      sent := page.BeginPlay(bet);
    }

    /**
     * The rest of playCrash: a reply is replayed and the board redrawn at its
     * crash point, its crash point joins the
     * history (which is never trimmed) and its balance is taken; an error adds
     * nothing.  `finally` frees the page either way.
     */
    method PlayReply(page: Page, reply: Response<CrashReply>)
      modifies this, page
      ensures !page.isPlaying
      ensures reply.Answer? ==>
        && history == old(history) + [reply.body.crashPoint]
        && page.currentBalance == reply.body.balance
        && shownMultiplier == reply.body.crashPoint
      ensures !reply.Answer? ==>
        history == old(history) && shownMultiplier == old(shownMultiplier) && page.currentBalance == old(page.currentBalance)
    {
      if reply.Answer? {
        var d := reply.body;
        var shown, flashes := Replay(d.path);
        shownMultiplier := d.crashPoint;
        history := history + [d.crashPoint];
        page.EndPlay(Some(d.balance));
      } else {
        page.EndPlay(None);
      }
    }
  }
}
