/** The expenses hook: the signed-in user's expenses, with the `loading`,
    `adding` and `error` flags the screens show, and the local list updates
    made after each backend call. */
module Expenses {
  import opened Wrappers
  import opened Remote
  import opened ExpenseRecord
  import Lists

  const FetchFailedMessage: string := "Failed to fetch expenses"
  const AddFailedMessage: string := "Failed to add expense"
  const UpdateFailedMessage: string := "Failed to update expense"
  const DeleteFailedMessage: string := "Failed to delete expense"

  /** The expenses after `updateExpense`: every entry with id `id` is
      replaced by the row the backend returned; nothing else changes. */
  function Replaced(expenses: seq<Expense>, id: string, row: Expense): (r: seq<Expense>)
    ensures |r| == |expenses|
    ensures forall i :: 0 <= i < |expenses| ==>
      (expenses[i].id == id ==> r[i] == row) && (expenses[i].id != id ==> r[i] == expenses[i])
  {
    Lists.Map(expenses, (e: Expense) => if e.id == id then row else e)
  }

  /** The expenses after `deleteExpense`: every entry with id `id` is gone,
      every other entry stays as often as it was there. */
  function WithoutExpense(expenses: seq<Expense>, id: string): (r: seq<Expense>)
    ensures |r| <= |expenses|
    ensures forall e :: multiset(r)[e] == if e.id == id then 0 else multiset(expenses)[e]
  {
    Lists.Filter(expenses, (e: Expense) => e.id != id)
  }

  /** The entries left by a delete keep their order. */
  lemma WithoutExpenseKeepsOrder(a: seq<Expense>, b: seq<Expense>, id: string)
    ensures WithoutExpense(a + b, id) == WithoutExpense(a, id) + WithoutExpense(b, id)
  {
    Lists.FilterAppend(a, b, (e: Expense) => e.id != id);
  }

  /** Deleting an id no entry has changes nothing. */
  lemma WithoutAbsentExpense(expenses: seq<Expense>, id: string)
    requires forall i :: 0 <= i < |expenses| ==> expenses[i].id != id
    ensures WithoutExpense(expenses, id) == expenses
  {
    Lists.FilterKeepsAll(expenses, (e: Expense) => e.id != id);
  }

  /** An update that keeps the id, followed by a delete of that id, leaves
      what the delete alone leaves. */
  lemma DeleteAfterUpdate(expenses: seq<Expense>, id: string, row: Expense)
    requires row.id == id
    ensures WithoutExpense(Replaced(expenses, id, row), id) == WithoutExpense(expenses, id)
  {
    Lists.FilterAfterMap(expenses, (e: Expense) => if e.id == id then row else e, (e: Expense) => e.id != id);
  }

  /** The hook's state. */
  class ExpensesState {
    var expenses: seq<Expense>
    var loading: bool
    var adding: bool
    var error: Option<string>

    constructor ()
      ensures expenses == [] && loading && !adding && error == None
    {
      expenses := [];
      loading := true;
      adding := false;
      error := None;
    }

    /** `fetchExpenses`: with no user the list is emptied and the auth error
        stored; a failed query empties the list and stores its error; a
        successful one replaces the list by the data (`null` data gives the
        empty list) and leaves `error` as it was. `loading` is false afterwards. */
    method FetchExpenses(session: Session, result: Outcome<Option<seq<Expense>>>)
      modifies this`expenses, this`loading, this`error
      ensures !loading
      ensures session.AuthFailed? ==> expenses == [] && error == Some(session.message)
      ensures session.SignedOut? ==> expenses == [] && error == Some(NotAuthenticatedMessage)
      ensures session.SignedIn? && result.Failed? ==>
        expenses == [] && error == Some(ErrorMessage(result.thrown, FetchFailedMessage))
      ensures session.SignedIn? && result.Ok? ==>
        expenses == result.value.GetOr([]) && error == old(error)
    {
      loading := true;
      match session {
        case AuthFailed(message) =>
          expenses := [];
          error := Some(message);
          loading := false;
          return;
        case SignedOut =>
          expenses := [];
          error := Some(NotAuthenticatedMessage);
          loading := false;
          return;
        case SignedIn(_) =>
      }
      match result {
        case Ok(data) =>
          expenses := data.GetOr([]);
        case Failed(thrown) =>
          error := Some(ErrorMessage(thrown, FetchFailedMessage));
          expenses := [];
      }
      loading := false;
    }

    /** `addExpense`: insert the data with the signed-in user's id (no insert
        without a user); on success the returned row is put in front of the
        list and returned, otherwise the list is kept, the error stored and
        rethrown. `adding` is false afterwards. */
    method AddExpense(newExpense: NewExpenseData, session: Session, result: Outcome<Expense>)
      returns (inserted: Option<ExpenseInsert>, outcome: Outcome<Expense>)
      modifies this`expenses, this`adding, this`error
      ensures !adding
      ensures inserted.Some? <==> session.SignedIn?
      ensures inserted.Some? ==> inserted.value == ExpenseInsert(session.userId,
        newExpense.amount, newExpense.description, newExpense.category, newExpense.date)
      ensures session.SignedIn? && result.Ok? ==>
        && outcome == result
        && expenses == [result.value] + old(expenses)
        && error == old(error)
      ensures session.SignedIn? && result.Failed? ==>
        && outcome == result
        && expenses == old(expenses)
        && error == Some(ErrorMessage(result.thrown, AddFailedMessage))
      ensures session.AuthFailed? ==>
        && outcome == Failed(ErrorObject(session.message))
        && expenses == old(expenses)
        && error == Some(session.message)
      ensures session.SignedOut? ==>
        && outcome == Failed(ErrorObject(NotAuthenticatedMessage))
        && expenses == old(expenses)
        && error == Some(NotAuthenticatedMessage)
    {
      adding := true;
      inserted := None;
      match session {
        case AuthFailed(message) =>
          outcome := Failed(ErrorObject(message));
        case SignedOut =>
          outcome := Failed(ErrorObject(NotAuthenticatedMessage));
        case SignedIn(userId) =>
          inserted := Some(ExpenseInsert(userId, newExpense.amount, newExpense.description,
            newExpense.category, newExpense.date));
          outcome := result;
      }
      match outcome {
        case Ok(row) =>
          expenses := [row] + expenses;
        case Failed(thrown) =>
          error := Some(ErrorMessage(thrown, AddFailedMessage));
      }
      adding := false;
    }

    /** `updateExpense`: send the fields for the row with that id; on success
        the entries with that id are replaced by the returned row, which is
        returned; on failure the list is kept and the error stored and
        rethrown. No user is looked up. */
    method UpdateExpense(id: string, updatedExpense: NewExpenseData, result: Outcome<Expense>)
      returns (sent: ExpenseUpdate, outcome: Outcome<Expense>)
      modifies this`expenses, this`error
      ensures sent == ExpenseUpdate(id, updatedExpense)
      ensures outcome == result
      ensures result.Ok? ==> expenses == Replaced(old(expenses), id, result.value) && error == old(error)
      ensures result.Failed? ==>
        expenses == old(expenses) && error == Some(ErrorMessage(result.thrown, UpdateFailedMessage))
    {
      sent := ExpenseUpdate(id, updatedExpense);
      outcome := result;
      match result {
        case Ok(row) =>
          expenses := Replaced(expenses, id, row);
        case Failed(thrown) =>
          error := Some(ErrorMessage(thrown, UpdateFailedMessage));
      }
    }

    /** `deleteExpense`: on success the entries with that id are removed; on
        failure the list is kept and the error stored and rethrown (returned
        here). No user is looked up. */
    method DeleteExpense(id: string, deleteError: Option<Thrown>) returns (rethrown: Option<Thrown>)
      modifies this`expenses, this`error
      ensures rethrown == deleteError
      ensures deleteError.None? ==> expenses == WithoutExpense(old(expenses), id) && error == old(error)
      ensures deleteError.Some? ==>
        expenses == old(expenses) && error == Some(ErrorMessage(deleteError.value, DeleteFailedMessage))
    {
      rethrown := deleteError;
      if deleteError.Some? {
        error := Some(ErrorMessage(deleteError.value, DeleteFailedMessage));
      } else {
        expenses := WithoutExpense(expenses, id);
      }
    }
  }
}
