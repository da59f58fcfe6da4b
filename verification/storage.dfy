/** The browser's key-value storage. Every value is text in the browser; the
    model keeps, per key, the reading the application gives that text. */
module Storage {
  import opened Common
  import opened Records

  datatype Stored =
    | Text(text: string)                  // read as a plain string: budgets, "true"
    | FeedbackList(feedbacks: seq<Feedback>)
    | ExpenseList(expenses: seq<Expense>)
    | UserList(records: seq<UserRecord>)
    | UserObject(record: UserRecord)      // a JSON object; username "" when it has none
    | Other                               // text that is not JSON, or JSON of another shape

  /** `localStorage`. */
  class Store {
    var items: map<string, Stored>

    constructor (items: map<string, Stored>)
      ensures this.items == items
    {
      this.items := items;
    }
  }

  function ExpensesKey(username: string): string
  {
    "expenses_" + username
  }

  function BudgetKey(username: string): string
  {
    "budget_" + username
  }

  const UsersKey: string := "users"
  const LoggedInKey: string := "isLoggedIn"
  const CurrentUserKey: string := "currentUser"
  const FeedbacksKey: string := "adminFeedbacks"

  /** A user's ledger key never collides with any user's budget key or with
      the feedback key, so clearing one leaves the others alone. */
  lemma ExpensesKeyIsolated(u: string, v: string)
    ensures ExpensesKey(u) != BudgetKey(v)
    ensures ExpensesKey(u) != FeedbacksKey
    ensures ExpensesKey(u) == ExpensesKey(v) <==> u == v
  {
    assert ExpensesKey(u)[0] != BudgetKey(v)[0];
    assert ExpensesKey(u)[0] != FeedbacksKey[0];
    if ExpensesKey(u) == ExpensesKey(v) {
      assert u == ExpensesKey(u)[9..];
    }
  }
}
