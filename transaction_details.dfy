/**
 * The expanded details of one transaction: the gas comparison against a
 * fixed average and the canned impact analysis per transaction type.
 */
module TransactionDetails {
  import opened Transactions

  /** The mock average gas cost a transaction is compared with. */
  const AvgGas: real := 0.003

  datatype GasEfficiency = Efficient | Standard

  /** The savings line: dollars saved (before `toFixed(2)`), or the standard-cost text. */
  datatype SavingsText = SavedDollars(usd: real) | StandardCost

  datatype Recommendation = OptimalTiming | ConsiderOffPeakHours

  datatype GasOptimization = GasOptimization(efficiency: GasEfficiency, savings: real, text: SavingsText, recommendation: Recommendation)

  function GetGasOptimization(gasUsed: real): (g: GasOptimization)
    ensures g.efficiency == Efficient <==> gasUsed < AvgGas
    ensures g.savings == (if gasUsed < AvgGas then AvgGas - gasUsed else 0.0)
    ensures g.text == StandardCost <==> g.savings <= 0.0
    ensures g.text.SavedDollars? ==> g.text.usd == g.savings * 2000.0
    ensures g.recommendation == OptimalTiming <==> g.efficiency == Efficient
  {
    var efficiency := if gasUsed < AvgGas then Efficient else Standard;
    var savings := if gasUsed < AvgGas then AvgGas - gasUsed else 0.0;
    GasOptimization(
      efficiency,
      savings,
      if savings > 0.0 then SavedDollars(savings * 2000.0) else StandardCost,
      if efficiency == Efficient then OptimalTiming else ConsiderOffPeakHours)
  }

  /** Savings are shown exactly for efficient transactions, and never negative. */
  lemma SavingsShownIffEfficient(gasUsed: real)
    ensures GetGasOptimization(gasUsed).savings >= 0.0
    ensures GetGasOptimization(gasUsed).text.SavedDollars? <==> GetGasOptimization(gasUsed).efficiency == Efficient
  {
  }

  /** Less gas never turns an efficient transaction into a standard one, nor lowers the savings. */
  lemma LessGasNoWorse(g1: real, g2: real)
    requires g1 <= g2
    ensures GetGasOptimization(g2).efficiency == Efficient ==> GetGasOptimization(g1).efficiency == Efficient
    ensures GetGasOptimization(g1).savings >= GetGasOptimization(g2).savings
  {
  }

  datatype Impact = Positive | Neutral | Negative

  datatype ImpactAnalysis = ImpactAnalysis(impact: Impact, description: string, risk: string, savings: string)

  function GetImpactAnalysis(txType: string): (a: ImpactAnalysis)
    ensures a.impact == Neutral <==> txType == "bridge"
    ensures a.impact != Negative
  {
    if txType == "rebalance" then
      ImpactAnalysis(Positive, "Improved portfolio yield by 0.3% APY",
        "Reduced exposure to underperforming protocols", "$12.50 in potential losses avoided")
    else if txType == "deposit" then
      ImpactAnalysis(Positive, "Increased total portfolio value",
        "Diversified risk across multiple protocols", "Earning $8.20/day in yield")
    else if txType == "bridge" then
      ImpactAnalysis(Neutral, "Optimized for better yield opportunities",
        "Cross-chain bridge exposure (temporary)", "Potential 2.1% higher APY on destination chain")
    else
      ImpactAnalysis(Positive, "Portfolio optimization completed",
        "Maintained security standards", "Cost-effective execution")
  }

  /** The shipped transactions differ in their ids. */
  lemma MockIdsDiffer()
    ensures Tx3 != Tx1 && Tx3 != Tx2 && Tx4 != Tx1 && Tx4 != Tx2 && Tx5 != Tx1 && Tx5 != Tx2
  {
    assert Tx3.id[0] != Tx1.id[0] && Tx3.id[0] != Tx2.id[0];
    assert Tx4.id[0] != Tx1.id[0] && Tx4.id[0] != Tx2.id[0];
    assert Tx5.id[0] != Tx1.id[0] && Tx5.id[0] != Tx2.id[0];
  }

  /** Of the shipped transactions, only the cross-chain transfer is neutral; only ids 1 and 2 use less gas than the average. */
  lemma MockTransactionDetails()
    ensures forall tx :: tx in MockTransactions() ==> (GetImpactAnalysis(tx.txType).impact == Neutral <==> tx == Tx3)
    ensures forall tx :: tx in MockTransactions() ==>
              (GetGasOptimization(tx.gasUsed).efficiency == Efficient <==> tx in [Tx1, Tx2])
  {
    assert "rebalance" != "bridge" && "top-up" != "bridge" && "deposit" != "bridge" by {
      assert "rebalance"[0] != "bridge"[0] && "top-up"[0] != "bridge"[0] && "deposit"[0] != "bridge"[0];
    }
    MockIdsDiffer();
    forall tx | tx in MockTransactions()
      ensures GetImpactAnalysis(tx.txType).impact == Neutral <==> tx == Tx3
      ensures GetGasOptimization(tx.gasUsed).efficiency == Efficient <==> tx in [Tx1, Tx2]
    {
      assert tx == Tx1 || tx == Tx2 || tx == Tx3 || tx == Tx4 || tx == Tx5;
    }
  }
}
