/**
 * The payroll records of src/app/app/_components/forms/nomina/lib/data.ts:
 * a cut-off ticket lists sales, diesel, tolls and optional fixed costs
 * for one period, with the employee's percentage of the profit. Amounts
 * are exact reals.
 */
module Payroll {
  import opened Wrappers

  /** `{description, amount}`, the shape of every payroll line. */
  datatype LineItem = LineItem(description: string, amount: real)

  datatype CutoffTicket = CutoffTicket(id: string, period: string, sales: seq<LineItem>, gas: seq<LineItem>,
                                       tolls: seq<LineItem>, fixedCosts: Option<seq<LineItem>>,
                                       employeePercentage: real)

  datatype Employee = Employee(id: string, name: string, cutoffTickets: seq<CutoffTicket>)

  /** `items.reduce((acc, item) => acc + item.amount, 0)`. */
  function Sum(items: seq<LineItem>): (r: real)
    ensures |items| == 0 ==> r == 0.0
    ensures (forall i :: 0 <= i < |items| ==> items[i].amount >= 0.0) ==> r >= 0.0
    decreases |items|
  {
    if |items| == 0 then 0.0 else Sum(items[..|items| - 1]) + items[|items| - 1].amount
  }

  /** The sum of a concatenation is the sum of its parts. */
  lemma {:induction false} SumAppend(a: seq<LineItem>, b: seq<LineItem>)
    ensures Sum(a + b) == Sum(a) + Sum(b)
    decreases |b|
  {
    if |b| == 0 {
      assert a + b == a;
    } else {
      assert (a + b)[..|a + b| - 1] == a + b[..|b| - 1];
      SumAppend(a, b[..|b| - 1]);
    }
  }

  /** With every amount positive, the sum is positive exactly when there is an item. */
  lemma {:induction false} SumPositive(items: seq<LineItem>)
    requires forall i :: 0 <= i < |items| ==> items[i].amount > 0.0
    ensures Sum(items) > 0.0 <==> |items| > 0
    decreases |items|
  {
    if |items| > 0 {
      SumPositive(items[..|items| - 1]);
    }
  }
}
