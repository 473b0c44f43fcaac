/**
 * The mock APY history behind a protocol's chart: 31 daily points ending
 * today, each the current APY moved by a random amount of up to the
 * volatility either way and floored at 0.1. The draws and the clock are inputs.
 */
module YieldUtils {
  import opened Common

  const DayMs: int := 86400000

  /** The number of days looked back; the series has one more point. */
  const HistoryDays: nat := 30

  datatype HistoryPoint = HistoryPoint(time: int, apy: real)

  predicate IsDraw(r: real) {
    0.0 <= r < 1.0
  }

  /** One day's APY from its draw `r`. */
  function ApyAt(currentApy: real, volatility: real, r: real): (apy: real)
    ensures apy >= 0.1
    ensures apy == 0.1 || apy == currentApy + (r - 0.5) * volatility * 2.0
  {
    MaxReal(0.1, currentApy + (r - 0.5) * volatility * 2.0)
  }

  /** The history: position `k` is `30 - k` days back and uses draw `k`. */
  function History(currentApy: real, volatility: real, now: int, draws: seq<real>): (s: seq<HistoryPoint>)
    requires |draws| == HistoryDays + 1
    ensures |s| == HistoryDays + 1
  {
    seq(HistoryDays + 1, k requires 0 <= k <= HistoryDays =>
      HistoryPoint(now - (HistoryDays - k) * DayMs, ApyAt(currentApy, volatility, draws[k])))
  }

  /** `generateHistoricalData`: the loop counting the days back down to today. */
  method GenerateHistoricalData(currentApy: real, volatility: real, now: int, draws: seq<real>)
    returns (data: seq<HistoryPoint>)
    requires |draws| == HistoryDays + 1
    ensures data == History(currentApy, volatility, now, draws)
  {
    data := [];
    var i: int := HistoryDays;
    while i >= 0
      invariant -1 <= i <= HistoryDays
      invariant |data| == HistoryDays - i
      invariant forall k :: 0 <= k < |data| ==> data[k] == History(currentApy, volatility, now, draws)[k]
      decreases i
    {
      var variation := (draws[|data|] - 0.5) * volatility * 2.0;
      data := data + [HistoryPoint(now - i * DayMs, MaxReal(0.1, currentApy + variation))];
      i := i - 1;
    }
  }

  /** Each APY lies between the current APY less the volatility and the current APY plus it, floored at 0.1. */
  lemma ApyWithinVolatility(currentApy: real, volatility: real, r: real)
    requires IsDraw(r) && volatility >= 0.0
    ensures currentApy - volatility <= ApyAt(currentApy, volatility, r) <= MaxReal(0.1, currentApy + volatility)
  {
    var d := r - 0.5;
    assert -0.5 <= d < 0.5;
    assert d * volatility * 2.0 == d * 2.0 * volatility;
    assert -volatility <= d * 2.0 * volatility <= volatility by {
      assert (d * 2.0 + 1.0) * volatility >= 0.0;
      assert (1.0 - d * 2.0) * volatility >= 0.0;
    }
  }

  /** With no volatility every point is the current APY, floored at 0.1. */
  lemma NoVolatilityIsFlat(currentApy: real, now: int, draws: seq<real>, k: nat)
    requires |draws| == HistoryDays + 1 && k <= HistoryDays
    ensures History(currentApy, 0.0, now, draws)[k].apy == MaxReal(0.1, currentApy)
  {
  }

  /** Points are one day apart, oldest first, the last one at `now`. */
  lemma HistoryDaily(currentApy: real, volatility: real, now: int, draws: seq<real>, k: nat)
    requires |draws| == HistoryDays + 1 && k < HistoryDays
    ensures History(currentApy, volatility, now, draws)[k + 1].time - History(currentApy, volatility, now, draws)[k].time == DayMs
    ensures History(currentApy, volatility, now, draws)[HistoryDays].time == now
  {
  }
}
