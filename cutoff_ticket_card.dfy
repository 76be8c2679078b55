/**
 * The figures of one cut-off ticket, as the card of
 * src/app/general/nomina/components/cutoff-ticket-card.tsx shows them:
 * section totals, the profit after every expense including the fixed
 * costs, and the employee's share of it.
 */
module CutoffTicketCard {
  import opened Wrappers
  import opened Payroll

  /** `ticket.fixedCosts?.reduce(...) || 0`: no list counts as nothing. */
  function FixedTotal(t: CutoffTicket): (r: real)
    ensures t.fixedCosts.None? ==> r == 0.0
    ensures t.fixedCosts.Some? ==> r == Sum(t.fixedCosts.value)
  {
    if t.fixedCosts.Some? then Sum(t.fixedCosts.value) else 0.0
  }

  datatype CardFigures = CardFigures(sales: real, gas: real, tolls: real, fixedCosts: real,
                                     expenses: real, profit: real, employeeShare: real)

  /** Every figure of the card. */
  function Figures(t: CutoffTicket): (r: CardFigures)
    ensures r.sales == Sum(t.sales) && r.gas == Sum(t.gas) && r.tolls == Sum(t.tolls) && r.fixedCosts == FixedTotal(t)
    ensures r.profit == r.sales - r.gas - r.tolls - r.fixedCosts && r.expenses == r.sales - r.profit
    ensures r.employeeShare * 100.0 == r.profit * t.employeePercentage
  {
    var sales := Sum(t.sales);
    var gas := Sum(t.gas);
    var tolls := Sum(t.tolls);
    var fixed := FixedTotal(t);
    var expenses := gas + tolls + fixed;
    var profit := sales - expenses;
    CardFigures(sales, gas, tolls, fixed, expenses, profit, profit * (t.employeePercentage / 100.0))
  }

  /** The fixed-cost section shows only for a non-empty list. */
  predicate ShowsFixedCosts(t: CutoffTicket)
  {
    t.fixedCosts.Some? && |t.fixedCosts.value| > 0
  }

  /** A hidden fixed-cost section contributes nothing to the profit. */
  lemma HiddenFixedCostsAreZero(t: CutoffTicket)
    ensures !ShowsFixedCosts(t) ==> FixedTotal(t) == 0.0 && Figures(t).profit == Sum(t.sales) - Sum(t.gas) - Sum(t.tolls)
  {
  }

  /**
   * With a non-negative percentage the share is green (non-negative)
   * whenever the profit is; at 100% the share is the whole profit and at
   * 0% it is nothing.
   */
  lemma ShareFollowsProfit(t: CutoffTicket)
    ensures t.employeePercentage >= 0.0 && Figures(t).profit >= 0.0 ==> Figures(t).employeeShare >= 0.0
    ensures t.employeePercentage > 0.0 && Figures(t).profit < 0.0 ==> Figures(t).employeeShare < 0.0
    ensures t.employeePercentage == 100.0 ==> Figures(t).employeeShare == Figures(t).profit
    ensures t.employeePercentage == 0.0 ==> Figures(t).employeeShare == 0.0
  {
    var f := Figures(t);
    var k := t.employeePercentage / 100.0;
    if t.employeePercentage > 0.0 && f.profit < 0.0 {
      assert k > 0.0;
      assert f.profit * k < 0.0;
    }
  }

  /** An extra sale raises the profit by its amount. */
  lemma SaleRaisesProfit(t: CutoffTicket, sale: LineItem)
    ensures Figures(t.(sales := t.sales + [sale])).profit == Figures(t).profit + sale.amount
  {
    assert (t.sales + [sale])[..|t.sales|] == t.sales;
  }
}
