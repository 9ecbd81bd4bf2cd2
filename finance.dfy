/**
 * The mock transport-expense ledger: a module-level list pre-filled with six records,
 * a GET route returning the list and a POST route appending to it.
 */
module Finance {
  import opened Wrappers

  /** An expense record as validated by the request model; `amount` is a float. */
  datatype Expense = Expense(
    vehicleNumber: string,
    category: string,
    amount: real,
    date: string,
    notes: Option<string>)

  /** The JSON body returned by `add_expense`. */
  datatype AddResponse = AddResponse(message: string, data: Expense)

  const AddedMessage: string := "Expense added successfully"

  /** The six records the list holds at start-up, in this order. */
  const SeedExpenses: seq<Expense> := [
    Expense("TS09AB1234", "Fuel", 4200.50, "2025-11-01", Some("Diesel refill - 60L")),
    Expense("TS09AB5678", "Maintenance", 8500.00, "2025-10-28", Some("Brake pad and oil change")),
    Expense("TS09AB7890", "Tyres", 12500.00, "2025-10-20", Some("Replaced 2 rear tyres")),
    Expense("TS09AB1234", "Insurance", 18000.00, "2025-09-15", Some("Annual insurance renewal")),
    Expense("TS09AB5678", "Other", 1500.00, "2025-11-02", Some("Driver uniform and cleaning supplies")),
    Expense("TS09AB9876", "Fuel", 3900.00, "2025-11-03", Some("Diesel refill - 55L"))
  ]

  /** The module-level `expenses` list. */
  class ExpenseLedger {
    var expenses: seq<Expense>

    constructor ()
      ensures expenses == SeedExpenses
    {
      expenses := SeedExpenses;
    }

    /** `get_expenses`: every stored record, in insertion order. */
    method GetExpenses() returns (all: seq<Expense>)
      ensures all == expenses
    {
      all := expenses;
    }

    /** `add_expense`: append in place and echo the record back. */
    method AddExpense(exp: Expense) returns (response: AddResponse)
      modifies this
      ensures expenses == old(expenses) + [exp]
      ensures multiset(expenses) == multiset(old(expenses)) + multiset{exp}
      ensures response == AddResponse(AddedMessage, exp)
    {
      expenses := expenses + [exp];
      response := AddResponse(AddedMessage, exp);
    }
  }

  /** The list after `add_expense` has been called with each of `added`, in order: the
      postcondition of `ExpenseLedger.AddExpense` applied once per record. */
  function AfterAdds(ledger: seq<Expense>, added: seq<Expense>): seq<Expense>
    decreases |added|
  {
    if added == [] then ledger else AfterAdds(ledger + [added[0]], added[1..])
  }

  /** Appends keep every earlier record in its position and add the new ones in call order. */
  lemma {:induction false} AfterAddsAppends(ledger: seq<Expense>, added: seq<Expense>)
    ensures AfterAdds(ledger, added) == ledger + added
    ensures |AfterAdds(ledger, added)| == |ledger| + |added|
    ensures forall i :: 0 <= i < |ledger| ==> AfterAdds(ledger, added)[i] == ledger[i]
    decreases |added|
  {
    if added != [] {
      AfterAddsAppends(ledger + [added[0]], added[1..]);
      assert ledger + [added[0]] + added[1..] == ledger + added;
    }
  }

  /** No deduplication: each add of a record adds one more occurrence of it. */
  lemma {:induction false} AddsAreCounted(ledger: seq<Expense>, added: seq<Expense>, e: Expense)
    ensures multiset(AfterAdds(ledger, added))[e] == multiset(ledger)[e] + multiset(added)[e]
  {
    AfterAddsAppends(ledger, added);
  }

  /** Adding the same record twice leaves two more copies of it at the end. */
  lemma AddTwice(ledger: seq<Expense>, e: Expense)
    ensures AfterAdds(ledger, [e, e]) == ledger + [e, e]
    ensures multiset(AfterAdds(ledger, [e, e]))[e] == multiset(ledger)[e] + 2
  {
    AfterAddsAppends(ledger, [e, e]);
  }
}
