/**
 * The balance chart of chart.js: the history the server sends (newest first, at
 * most 50 entries) is turned oldest-first and folded from 1000 into a series of
 * points, one per transaction after the starting point; the series' bounds set
 * the vertical scale and its last point decides the line's colour.
 */
module Chart {
  import opened Common
  import opened Server

  /** The balance the fold starts from. */
  const ChartStart: real := 1000.0

  datatype Point = Point(balance: real, time: nat)

  /** The running balance after the given entries, oldest first. */
  function Running(entries: seq<HistoryEntry>): real {
    if entries == [] then ChartStart
    else Running(entries[..|entries| - 1]) - entries[|entries| - 1].bet + entries[|entries| - 1].win
  }

  /**
   * The fold of drawBalanceChart: the entries are reversed to oldest first and
   * each point is the previous balance minus the stake plus the win.  Point i is
   * the running balance after the i oldest entries, at time i.
   */
  method BalanceSeries(transactions: seq<HistoryEntry>) returns (series: seq<Point>)
    ensures |series| == |transactions| + 1
    ensures series[0] == Point(ChartStart, 0)
    ensures forall i :: 0 <= i < |series| ==> series[i] == Point(Running(Reverse(transactions)[..i]), i)
  {
    var txs := Reverse(transactions);
    var runningBalance := ChartStart;
    series := [Point(ChartStart, 0)];
    for index := 0 to |txs|
      invariant |series| == index + 1
      invariant runningBalance == Running(txs[..index])
      invariant forall i :: 0 <= i < |series| ==> series[i] == Point(Running(txs[..i]), i)
    {
      assert txs[..index + 1][..index] == txs[..index];
      runningBalance := runningBalance - txs[index].bet + txs[index].win;
      series := series + [Point(runningBalance, index + 1)];
    }
  }

  /** The chart is drawn only with at least two points, that is, with at least one transaction. */
  predicate EnoughData(series: seq<Point>) {
    |series| >= 2
  }

  /** `Math.min(...balances, 0)`. */
  function MinBalance(series: seq<Point>): (m: real)
    ensures m <= 0.0
    ensures forall i :: 0 <= i < |series| ==> m <= series[i].balance
    ensures m == 0.0 || exists i :: 0 <= i < |series| && series[i].balance == m
  {
    if series == [] then 0.0
    else
      var rest := MinBalance(series[1..]);
      assert forall i :: 1 <= i < |series| ==> series[i] == series[1..][i - 1];
      if series[0].balance < rest then series[0].balance
      else
        assert rest != 0.0 ==> exists i :: 0 <= i < |series| && series[i].balance == rest by {
          if rest != 0.0 {
            var j :| 0 <= j < |series[1..]| && series[1..][j].balance == rest;
            assert series[j + 1].balance == rest;
          }
        }
        rest
  }

  /** `Math.max(...balances, 1000)`. */
  function MaxBalance(series: seq<Point>): (m: real)
    ensures m >= ChartStart
    ensures forall i :: 0 <= i < |series| ==> series[i].balance <= m
    ensures m == ChartStart || exists i :: 0 <= i < |series| && series[i].balance == m
  {
    if series == [] then ChartStart
    else
      var rest := MaxBalance(series[1..]);
      assert forall i :: 1 <= i < |series| ==> series[i] == series[1..][i - 1];
      if series[0].balance > rest then series[0].balance
      else
        assert rest != ChartStart ==> exists i :: 0 <= i < |series| && series[i].balance == rest by {
          if rest != ChartStart {
            var j :| 0 <= j < |series[1..]| && series[1..][j].balance == rest;
            assert series[j + 1].balance == rest;
          }
        }
        rest
  }

  /**
   * `maxBalance - minBalance || 1`: the range is at least 1000, so the fallback
   * to 1 never applies.
   */
  function BalanceRange(series: seq<Point>): (r: real)
    ensures r == MaxBalance(series) - MinBalance(series)
    ensures r >= ChartStart
  {
    var d := MaxBalance(series) - MinBalance(series);
    if d == 0.0 then 1.0 else d
  }

  /** The line is green when the last point is at or above 1000. */
  predicate IsProfit(series: seq<Point>)
    requires |series| > 0
  {
    series[|series| - 1].balance >= ChartStart
  }

  /** Each transaction's history entry, oldest first. */
  function Entries(txs: seq<Transaction>): (e: seq<HistoryEntry>)
    ensures |e| == |txs|
    ensures forall i :: 0 <= i < |txs| ==> e[i] == Entry(txs[i])
  {
    seq(|txs|, i requires 0 <= i < |txs| => Entry(txs[i]))
  }

  /** Folding a run of transactions from 1000 adds their net profit. */
  lemma {:induction false} RunningIsNetProfit(txs: seq<Transaction>)
    ensures Running(Entries(txs)) == ChartStart + NetProfit(txs)
  {
    if txs != [] {
      var init := txs[..|txs| - 1];
      assert Entries(txs)[..|txs| - 1] == Entries(init);
      RunningIsNetProfit(init);
    }
  }

  lemma {:induction false} NetProfitConcat(a: seq<Transaction>, b: seq<Transaction>)
    ensures NetProfit(a + b) == NetProfit(a) + NetProfit(b)
    decreases |b|
  {
    if b == [] {
      assert a + b == a;
    } else {
      var init := b[..|b| - 1];
      assert (a + b)[..|a + b| - 1] == a + init;
      NetProfitConcat(a, init);
    }
  }

  /** The served history turned oldest first is the entries of the newest 50 transactions. */
  lemma ReversedHistory(txs: seq<Transaction>)
    ensures var k := if |txs| < HistoryLimit then |txs| else HistoryLimit;
      Reverse(History(txs)) == Entries(txs[|txs| - k..])
  {
  }

  /** The last point of the chart for the served history folds the newest (at most 50) transactions. */
  lemma LastPointFoldsWindow(txs: seq<Transaction>, series: seq<Point>)
    requires |series| == |History(txs)| + 1
    requires forall i :: 0 <= i < |series| ==> series[i] == Point(Running(Reverse(History(txs))[..i]), i)
    ensures var k := if |txs| < HistoryLimit then |txs| else HistoryLimit;
      series[|series| - 1].balance == Running(Entries(txs[|txs| - k..]))
  {
    ReversedHistory(txs);
    var r := Reverse(History(txs));
    assert r[..|r|] == r;
  }

  /** Folding the newest k transactions gives 1000 plus their net profit, which is the total less the older rounds'. */
  lemma WindowProfit(txs: seq<Transaction>, k: nat)
    requires k <= |txs|
    ensures Running(Entries(txs[|txs| - k..])) == StartingBalance + NetProfit(txs) - NetProfit(txs[..|txs| - k])
  {
    NetProfitSplit(txs, k);
    RunningIsNetProfit(txs[|txs| - k..]);
  }

  /** The net profit of all transactions is that of the older ones plus that of the newest k. */
  lemma NetProfitSplit(txs: seq<Transaction>, k: nat)
    requires k <= |txs|
    ensures NetProfit(txs) == NetProfit(txs[..|txs| - k]) + NetProfit(txs[|txs| - k..])
  {
    var older, window := txs[..|txs| - k], txs[|txs| - k..];
    assert older + window == txs;
    NetProfitConcat(older, window);
  }

  /**
   * The chart for the served history: one point more than the entries shown,
   * with its last point 1000 plus the net profit of the newest 50 transactions.
   * With at most 50 transactions that is the balance the books record; beyond
   * 50, the last point misses exactly the net profit of the older rounds.
   */
  lemma ChartOfHistory(txs: seq<Transaction>, series: seq<Point>)
    requires |series| == |History(txs)| + 1
    requires forall i :: 0 <= i < |series| ==> series[i] == Point(Running(Reverse(History(txs))[..i]), i)
    ensures EnoughData(series) <==> txs != []
    ensures |txs| <= HistoryLimit ==> series[|series| - 1].balance == StartingBalance + NetProfit(txs)
    ensures |txs| > HistoryLimit ==>
      series[|series| - 1].balance == StartingBalance + NetProfit(txs) - NetProfit(txs[..|txs| - HistoryLimit])
    ensures |txs| <= HistoryLimit ==> (IsProfit(series) <==> NetProfit(txs) >= 0.0)
  {
    var k := if |txs| < HistoryLimit then |txs| else HistoryLimit;
    LastPointFoldsWindow(txs, series);
    WindowProfit(txs, k);
    if |txs| <= HistoryLimit {
      assert txs[..|txs| - k] == [];
    }
  }
}
