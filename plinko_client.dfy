/**
 * The plinko page of plinko.js: the client's copy of the multiplier tables and
 * their colours, the replay of the server's 16-row path (the ball eases 30% of
 * the way to each row's peg per frame and moves on once within a pixel), the
 * glide into the final bucket, and the play request behind the shared
 * `isPlaying` guard.
 */
module PlinkoClient {
  import opened Common
  import opened Rules
  import opened Server
  import opened ClientPage

  /** The tables updatePlinkoMultipliers draws, keyed by the risk selector. */
  function ClientTable(risk: Risk): seq<real> {
    match risk
    case Low => [0.5, 0.7, 0.9, 1.0, 1.1, 1.3, 1.5, 1.3, 1.1, 1.0, 0.9, 0.7, 0.5]
    case Medium => [0.3, 0.5, 0.7, 1.0, 1.5, 2.0, 3.0, 2.0, 1.5, 1.0, 0.7, 0.5, 0.3]
    case High => [0.2, 0.3, 0.5, 1.0, 2.0, 5.0, 10.0, 5.0, 2.0, 1.0, 0.5, 0.3, 0.2]
  }

  /** The page shows the server's own tables: 13 entries, symmetric about the centre. */
  lemma ClientTableMatchesServer(risk: Risk)
    ensures ClientTable(risk) == PlinkoTable(risk)
    ensures |ClientTable(risk)| == 13 && Palindrome(ClientTable(risk))
  {
    PlinkoTableShape(risk);
  }

  datatype TableColour = Green | Blue | Yellow | Red

  /** A multiplier is green from 3x, blue from 1.5x, yellow from 1x, red below. */
  function ColourOf(m: real): (c: TableColour)
    ensures c == Green <==> m >= 3.0
    ensures c == Red <==> m < 1.0
    ensures c == Yellow <==> 1.0 <= m < 1.5
  {
    if m >= 3.0 then Green
    else if m >= 1.5 then Blue
    else if m >= 1.0 then Yellow
    else Red
  }

  /** For a positive stake, a red bucket is exactly one that pays back less than the stake. */
  lemma RedMeansLoss(bet: real, m: real)
    requires bet > 0.0
    ensures ColourOf(m) == Red <==> Winnings(bet, m) < bet
  {
    if m < 1.0 {
      assert bet * (1.0 - m) > 0.0;
    } else {
      assert bet * (m - 1.0) >= 0.0;
    }
  }

  const Rows: nat := 16
  const Buckets: nat := 13
  /** The ball starts at this height and the rows are this far apart. */
  const StartY: real := 40.0
  const RowSpacing: real := 35.0

  /** The height of the pegs of a row as the replay aims at them. */
  function RowY(row: nat): real {
    StartY + row as real * RowSpacing
  }

  /** Where the replay aims in a row: the peg gap the path names, centred on the row's pegs. */
  function RowX(width: real, row: nat, position: int): real {
    var pegsInRow := row + 3;
    var spacing := width / (pegsInRow + 1) as real;
    spacing * (position as real + 1.5 - (pegsInRow / 2) as real)
  }

  function Abs(x: real): real {
    if x < 0.0 then -x else x
  }

  /** One frame moves the ball 30% of the remaining distance, so 70% of it is left. */
  function Approach(current: real, target: real): (next: real)
    ensures next - target == 0.7 * (current - target)
  {
    current + (target - current) * 0.3
  }

  /**
   * The row phase of animatePlinko: from (width/2, 40), each frame approaches the
   * current row's target, and the row advances once the ball is within one pixel
   * of that row's height.  The phase ends after the 16th row, with the ball
   * within a pixel of the last row.  Returns the ball's final position and the
   * rows reached, frame by frame.
   */
  method ReplayRows(path: seq<int>, width: real) returns (x: real, y: real, rowsByFrame: seq<nat>)
    requires |path| >= Rows
    ensures Abs(y - RowY(Rows - 1)) < 1.0
    ensures |rowsByFrame| >= Rows
    ensures forall i :: 0 <= i < |rowsByFrame| ==> rowsByFrame[i] <= Rows
    ensures forall i :: 0 <= i < |rowsByFrame| - 1 ==> rowsByFrame[i] <= rowsByFrame[i + 1] <= rowsByFrame[i] + 1
    ensures |rowsByFrame| > 0 && rowsByFrame[|rowsByFrame| - 1] == Rows
  {
    var currentRow: nat := 0;
    x, y := width / 2.0, StartY;
    rowsByFrame := [];
    while currentRow < Rows
      invariant currentRow <= Rows
      invariant currentRow == Rows ==> Abs(y - RowY(Rows - 1)) < 1.0
      invariant |rowsByFrame| >= currentRow
      invariant forall i :: 0 <= i < |rowsByFrame| ==> rowsByFrame[i] <= currentRow
      invariant forall i :: 0 <= i < |rowsByFrame| - 1 ==> rowsByFrame[i] <= rowsByFrame[i + 1] <= rowsByFrame[i] + 1
      invariant |rowsByFrame| > 0 ==> rowsByFrame[|rowsByFrame| - 1] == currentRow
      invariant |rowsByFrame| == 0 ==> currentRow == 0
      decreases Rows - currentRow, Abs(RowY(currentRow) - y) * 10.0 / 3.0
    {
      var targetX := RowX(width, currentRow, path[currentRow]);
      var targetY := RowY(currentRow);
      x := Approach(x, targetX);
      ghost var before := y;
      y := Approach(y, targetY);
      if Abs(y - targetY) < 1.0 {
        currentRow := currentRow + 1;
      } else {
        assert Abs(y - targetY) == 0.7 * Abs(before - targetY);
      }
      rowsByFrame := rowsByFrame + [currentRow];
    }
  }

  /** The steps of the glide into the bucket. */
  const GlideSteps: nat := 20

  /** The centre of a bucket: `(position + 0.5) × width / 13`. */
  function BucketCentre(position: int, width: real): real {
    (position as real + 0.5) * (width / Buckets as real)
  }

  /** The centre of a bucket lies strictly inside that bucket's slot, and on the board. */
  lemma BucketCentreInSlot(position: int, width: real)
    requires 0 <= position < Buckets && width > 0.0
    ensures position as real * (width / Buckets as real) < BucketCentre(position, width)
    ensures BucketCentre(position, width) < (position + 1) as real * (width / Buckets as real)
    ensures 0.0 < BucketCentre(position, width) < width
  {
    var w := width / Buckets as real;
    var p := position as real;
    assert w > 0.0;
    assert (p + 0.5) * w == p * w + 0.5 * w;
    assert (p + 1.0) * w == p * w + w;
    assert p * w >= 0.0;
    assert (p + 1.0) * w <= 13.0 * w by {
      assert (13.0 - (p + 1.0)) * w >= 0.0;
    }
  }

  /**
   * The bucket phase of animatePlinko: an interval that draws the ball at
   * progress step/20 on the line from where the row phase left it to the centre
   * of the final bucket and y = height − 60, for steps 0..19, and then hands over
   * to the bucket flash.  Returns the x of each drawing.
   */
  method GlideToBucket(x0: real, finalPosition: int, width: real) returns (xs: seq<real>)
    ensures |xs| == GlideSteps
    ensures forall k :: 0 <= k < GlideSteps ==>
      xs[k] == x0 + (BucketCentre(finalPosition, width) - x0) * (k as real / GlideSteps as real)
    ensures xs[0] == x0
  {
    var finalX := BucketCentre(finalPosition, width);
    var step := 0;
    xs := [];
    while step < GlideSteps
      invariant 0 <= step <= GlideSteps && |xs| == step
      invariant forall k :: 0 <= k < step ==> xs[k] == x0 + (finalX - x0) * (k as real / GlideSteps as real)
    {
      var progress := step as real / GlideSteps as real;
      xs := xs + [x0 + (finalX - x0) * progress];
      step := step + 1;
    }
  }

  class PlinkoGame {
    /** The bucket the last replay flashed. */
    var flashedBucket: Option<int>

    constructor ()
      ensures flashedBucket.None?
    {
      flashedBucket := None;
    }

    /** The opening of playPlinko: the shared guard, then the request. */
    method PlayRequest(page: Page, bet: real) returns (sent: bool)
      modifies page
      ensures sent <==> !old(page.isPlaying) && Affordable(bet, old(page.currentBalance))
      ensures sent ==> page.isPlaying && page.currentBalance == old(page.currentBalance)
      ensures !sent ==> unchanged(page)
    {
      sent := page.BeginPlay(bet);
    }

    /**
     * The rest of playPlinko: a reply is replayed row by row, glides into and
     * flashes the final bucket of its path, and then its balance is taken.  An
     * error body returns at once without touching the balance.  `finally` frees
     * the page either way.
     */
    method PlayReply(page: Page, reply: Response<PlinkoReply>, width: real)
      requires reply.Answer? ==> |reply.body.path| >= Rows
      modifies this, page
      ensures !page.isPlaying
      ensures reply.Answer? ==>
        flashedBucket == Some(reply.body.path[|reply.body.path| - 1]) && page.currentBalance == reply.body.balance
      ensures !reply.Answer? ==> flashedBucket == old(flashedBucket) && page.currentBalance == old(page.currentBalance)
    {
      if reply.Answer? {
        var d := reply.body;
        var x, y, rows := ReplayRows(d.path, width);
        var finalPosition := d.path[|d.path| - 1];
        var xs := GlideToBucket(x, finalPosition, width);
        flashedBucket := Some(finalPosition);
        page.EndPlay(Some(d.balance));
      } else {
        page.EndPlay(None);
      }
    }
  }

  /** A server walk ends in a bucket whose centre is on the board, and that bucket's entry is what it paid. */
  lemma ReplayEndsInPaidBucket(risk: Risk, path: seq<int>, width: real)
    requires |path| == Rows && 0 <= path[Rows - 1] < Buckets && width > 0.0
    ensures 0.0 < BucketCentre(path[|path| - 1], width) < width
    ensures ClientTable(risk)[path[|path| - 1]] == PlinkoMultiplier(risk, path)
  {
    BucketCentreInSlot(path[Rows - 1], width);
    ClientTableMatchesServer(risk);
  }
}
