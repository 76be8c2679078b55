/**
 * The paysheet page of v0/inputNomina/app/paysheet/page.tsx: a
 * case-insensitive name search over the employees and the employee whose
 * paysheet is open, which the search never changes.
 */
module PaysheetPage {
  import opened Wrappers
  import opened Strings
  import opened Seqs
  import opened Payroll

  /** `employees.filter(e => e.name.toLowerCase().includes(query.toLowerCase()))`. */
  function FilteredEmployees(all: seq<Employee>, query: string): (r: seq<Employee>)
    ensures IsSubsequence(r, all)
    ensures forall e :: e in r <==> e in all && ContainsIgnoringCase(e.name, query)
  {
    Filter(all, (e: Employee) => ContainsIgnoringCase(e.name, query))
  }

  /** An empty query keeps every employee, in order. */
  lemma EmptyQueryKeepsAll(all: seq<Employee>)
    ensures FilteredEmployees(all, "") == all
  {
    forall i | 0 <= i < |all| ensures ContainsIgnoringCase(all[i].name, "") {
      assert StartsWith(ToLower(all[i].name), ToLower(""));
    }
    FilterAll(all, (e: Employee) => ContainsIgnoringCase(e.name, ""));
  }

  class PaysheetPageState {
    const employees: seq<Employee>
    var searchQuery: string
    var selectedEmployee: Option<Employee>

    /** The first employee is open from the start, if there is one. */
    constructor (all: seq<Employee>)
      ensures employees == all && searchQuery == ""
      ensures selectedEmployee == if |all| > 0 then Some(all[0]) else None
    {
      employees := all;
      searchQuery := "";
      selectedEmployee := if |all| > 0 then Some(all[0]) else None;
    }

    /** The list the page shows. */
    function Shown(): (r: seq<Employee>)
      reads this
      ensures forall e :: e in r ==> e in employees
    {
      FilteredEmployees(employees, searchQuery)
    }

    /** Typing in the search box filters the list and leaves the open paysheet alone. */
    method SetSearch(query: string)
      modifies this
      ensures searchQuery == query && selectedEmployee == old(selectedEmployee)
    {
      searchQuery := query;
    }

    method SelectEmployee(e: Option<Employee>)
      modifies this
      ensures selectedEmployee == e && searchQuery == old(searchQuery)
    {
      selectedEmployee := e;
    }

    /** Without an open paysheet the page explains whether the search matched anyone. */
    predicate ShowsNoMatchMessage()
      reads this
    {
      selectedEmployee.None? && |Shown()| == 0
    }
  }
}
