/**
 * The paysheet of one employee, as
 * v0/inputNomina/components/paysheet/clean/paysheet-details.tsx computes
 * and submits it: the cut-off total over the employee's tickets, the
 * grand total with additional payments and discounts, and the record
 * sent on finalisation.
 */
module PaysheetDetails {
  import opened Wrappers
  import opened Payroll
  import CutoffTicketCard

  /** One ticket's part of `cutoffTotal`: sales less diesel and tolls (no fixed costs), at the employee's percentage. */
  function TicketContribution(t: CutoffTicket): (r: real)
    ensures r * 100.0 == (Sum(t.sales) - Sum(t.gas) - Sum(t.tolls)) * t.employeePercentage
  {
    (Sum(t.sales) - Sum(t.gas) - Sum(t.tolls)) * (t.employeePercentage / 100.0)
  }

  /** `cutoffTotal`, folding the tickets in order. */
  function CutoffTotal(tickets: seq<CutoffTicket>): (r: real)
    ensures |tickets| == 0 ==> r == 0.0
    decreases |tickets|
  {
    if |tickets| == 0 then 0.0
    else CutoffTotal(tickets[..|tickets| - 1]) + TicketContribution(tickets[|tickets| - 1])
  }

  /** The sum of the employee shares the ticket cards show. */
  function CardSharesTotal(tickets: seq<CutoffTicket>): real
    decreases |tickets|
  {
    if |tickets| == 0 then 0.0
    else CardSharesTotal(tickets[..|tickets| - 1]) + CutoffTicketCard.Figures(tickets[|tickets| - 1]).employeeShare
  }

  /** The employee's percentage of the tickets' fixed costs. */
  function FixedCostShares(tickets: seq<CutoffTicket>): real
    decreases |tickets|
  {
    if |tickets| == 0 then 0.0
    else
      var t := tickets[|tickets| - 1];
      FixedCostShares(tickets[..|tickets| - 1]) + CutoffTicketCard.FixedTotal(t) * (t.employeePercentage / 100.0)
  }

  /** Per ticket, the paysheet counts exactly the card's share plus the employee's part of the fixed costs. */
  lemma TicketVersusCard(t: CutoffTicket)
    ensures TicketContribution(t) == CutoffTicketCard.Figures(t).employeeShare
      + CutoffTicketCard.FixedTotal(t) * (t.employeePercentage / 100.0)
    ensures TicketContribution(t) != CutoffTicketCard.Figures(t).employeeShare
      <==> CutoffTicketCard.FixedTotal(t) != 0.0 && t.employeePercentage != 0.0
  {
    var k := t.employeePercentage / 100.0;
    var f := CutoffTicketCard.FixedTotal(t);
    var base := Sum(t.sales) - Sum(t.gas) - Sum(t.tolls);
    assert CutoffTicketCard.Figures(t).employeeShare == (base - f) * k;
    assert TicketContribution(t) == base * k;
    assert base * k == (base - f) * k + f * k;
    assert f * k == 0.0 <==> f == 0.0 || k == 0.0;
  }

  /** Over all tickets, the cut-off total exceeds the sum of the card shares by the fixed-cost shares. */
  lemma {:induction false} CutoffTotalVersusCards(tickets: seq<CutoffTicket>)
    ensures CutoffTotal(tickets) == CardSharesTotal(tickets) + FixedCostShares(tickets)
    decreases |tickets|
  {
    if |tickets| > 0 {
      CutoffTotalVersusCards(tickets[..|tickets| - 1]);
      TicketVersusCard(tickets[|tickets| - 1]);
    }
  }

  /** Tickets without fixed costs give the same figure on the cards and on the paysheet. */
  lemma {:induction false} NoFixedCostsAgree(tickets: seq<CutoffTicket>)
    requires forall i :: 0 <= i < |tickets| ==> !CutoffTicketCard.ShowsFixedCosts(tickets[i])
    ensures CutoffTotal(tickets) == CardSharesTotal(tickets)
    decreases |tickets|
  {
    if |tickets| > 0 {
      NoFixedCostsAgree(tickets[..|tickets| - 1]);
      TicketVersusCard(tickets[|tickets| - 1]);
      CutoffTicketCard.HiddenFixedCostsAreZero(tickets[|tickets| - 1]);
    }
  }

  /** `grandTotal`. */
  function GrandTotal(cutoff: real, additional: real, discounts: real): (r: real)
    ensures r - cutoff == additional - discounts
  {
    cutoff + additional - discounts
  }

  /** What `finalizePaysheet` receives. */
  datatype Submission = Submission(employeeId: string, employeeName: string, cutoffTicketsTotal: real,
                                   additionalPaymentsTotal: real, additionalPayments: seq<LineItem>,
                                   discountsTotal: real, discounts: seq<LineItem>, grandTotal: real,
                                   submittedAt: string)

  /** The answer of the finalisation call. */
  datatype FinalizeAnswer = Answered(success: bool, message: string) | Threw

  datatype Toast = NoToast | Finalized(message: string) | FinalizeError

  class PaysheetState {
    var additionalPaymentsTotal: real
    var additionalPayments: seq<LineItem>
    var discountsTotal: real
    var discounts: seq<LineItem>
    var isSubmitting: bool

    constructor ()
      ensures additionalPaymentsTotal == 0.0 && additionalPayments == []
      ensures discountsTotal == 0.0 && discounts == [] && !isSubmitting
    {
      additionalPaymentsTotal := 0.0;
      additionalPayments := [];
      discountsTotal := 0.0;
      discounts := [];
      isSubmitting := false;
    }

    /** The additional-payments editor reports its total and items. */
    method AdditionalPaymentsChanged(total: real, items: seq<LineItem>)
      modifies this
      ensures additionalPaymentsTotal == total && additionalPayments == items
      ensures discountsTotal == old(discountsTotal) && discounts == old(discounts) && isSubmitting == old(isSubmitting)
    {
      additionalPaymentsTotal := total;
      additionalPayments := items;
    }

    /** The discounts editor reports its total and items. */
    method DiscountsChanged(total: real, items: seq<LineItem>)
      modifies this
      ensures discountsTotal == total && discounts == items
      ensures additionalPaymentsTotal == old(additionalPaymentsTotal) && additionalPayments == old(additionalPayments)
      ensures isSubmitting == old(isSubmitting)
    {
      discountsTotal := total;
      discounts := items;
    }

    /**
     * `handleFinalize`: the record carries the employee, the three totals,
     * the two item lists and the grand total; whatever the answer, the
     * form is no longer submitting afterwards.
     */
    method HandleFinalize(employee: Employee, now: string, answer: FinalizeAnswer)
      returns (sent: Submission, toast: Toast)
      modifies this
      ensures !isSubmitting
      ensures sent.employeeId == employee.id && sent.employeeName == employee.name && sent.submittedAt == now
      ensures sent.cutoffTicketsTotal == CutoffTotal(employee.cutoffTickets)
      ensures sent.additionalPaymentsTotal == additionalPaymentsTotal && sent.additionalPayments == additionalPayments
      ensures sent.discountsTotal == discountsTotal && sent.discounts == discounts
      ensures sent.grandTotal == GrandTotal(sent.cutoffTicketsTotal, additionalPaymentsTotal, discountsTotal)
      ensures toast == match answer
        case Answered(success, message) => if success then Finalized(message) else NoToast
        case Threw => FinalizeError
      ensures additionalPaymentsTotal == old(additionalPaymentsTotal) && additionalPayments == old(additionalPayments)
      ensures discountsTotal == old(discountsTotal) && discounts == old(discounts)
    {
      isSubmitting := true;
      var cutoff := CutoffTotal(employee.cutoffTickets);
      sent := Submission(employee.id, employee.name, cutoff, additionalPaymentsTotal, additionalPayments,
                         discountsTotal, discounts, cutoff + additionalPaymentsTotal - discountsTotal, now);
      match answer {
        case Answered(success, message) =>
          toast := if success then Finalized(message) else NoToast;
        case Threw =>
          toast := FinalizeError;
      }
      isSubmitting := false;
    }
  }
}
