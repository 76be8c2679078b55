/**
 * The details panel of src/components/forms/freight/_components/FreightDetails.tsx:
 * every input hands back the details with one field changed, the priority
 * drop-down only its three literals, and the summary shows a fallback for
 * each empty field.
 */
module FreightDetailsView {
  import opened Wrappers
  import opened Freight

  /** A text input's change: the details to hand to `onDetailsChange`. */
  function TextChange(d: FreightDetails, f: DetailField, v: string): (r: FreightDetails)
    requires f != PriorityField
    ensures FieldOf(r, f) == v && r.priority == d.priority
    ensures forall g :: g != f ==> FieldOf(r, g) == FieldOf(d, g)
  {
    UpdateDetail(d, f, v)
  }

  /** The priority drop-down: no call at all unless the choice is one of the literals. */
  function PriorityChange(d: FreightDetails, raw: string): (r: Option<FreightDetails>)
    ensures r.Some? <==> IsPriority(raw)
    ensures r.Some? ==>
      r.value.priority == raw && IsPriority(r.value.priority)
      && forall g :: g != PriorityField ==> FieldOf(r.value, g) == FieldOf(d, g)
  {
    if IsPriority(raw) then Some(UpdateDetail(d, PriorityField, raw)) else None
  }

  /** `getPriorityText`: the Spanish name of a priority, anything else unchanged. */
  function PriorityText(p: string): (r: string)
    ensures p == "high" ==> r == "Alta"
    ensures p == "medium" ==> r == "Media"
    ensures p == "low" ==> r == "Baja"
    ensures !IsPriority(p) ==> r == p
  {
    if p == "high" then "Alta"
    else if p == "medium" then "Media"
    else if p == "low" then "Baja"
    else p
  }

  /** The three priorities get three different names, none of them a priority literal itself. */
  lemma PriorityTextDistinguishes(p: string, q: string)
    requires IsPriority(p) && IsPriority(q) && p != q
    ensures PriorityText(p) != PriorityText(q)
    ensures !IsPriority(PriorityText(p))
  {
  }

  /** `s || fallback`. */
  function OrFallback(s: string, fallback: string): (r: string)
    ensures s != "" ==> r == s
    ensures s == "" ==> r == fallback
  {
    if s != "" then s else fallback
  }

  /** The summary block: number, client, weight, value. */
  datatype Summary = Summary(freightNumber: string, client: string, weight: string, value: string)

  /** Unassigned number and client read "Sin asignar"; unspecified weight and value "Sin especificar". */
  function SummaryOf(d: FreightDetails): (r: Summary)
    ensures r.freightNumber == (if d.freightNumber == "" then "Sin asignar" else d.freightNumber)
    ensures r.client == (if d.client == "" then "Sin asignar" else d.client)
    ensures r.weight == (if d.weight == "" then "Sin especificar" else d.weight)
    ensures r.value == (if d.value == "" then "Sin especificar" else d.value)
  {
    Summary(OrFallback(d.freightNumber, "Sin asignar"), OrFallback(d.client, "Sin asignar"),
            OrFallback(d.weight, "Sin especificar"), OrFallback(d.value, "Sin especificar"))
  }

  /** A summary line is never empty. */
  lemma SummaryNeverBlank(d: FreightDetails)
    ensures var s := SummaryOf(d); s.freightNumber != "" && s.client != "" && s.weight != "" && s.value != ""
  {
  }
}
