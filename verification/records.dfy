/** The records the application keeps: expenses, the expense form's draft,
    feedback entries and user accounts as they are stored. */
module Records {
  import opened Common

  /** A calendar date as the date picker yields it (time of day is not used). */
  datatype Date = Date(year: nat, month: nat, day: nat)

  /** A date the picker can yield: a month of the year and a day of a month. */
  predicate ValidDate(d: Date)
  {
    1 <= d.month <= 12 && 1 <= d.day <= 31
  }

  /** The expense form's fields as they are handed to `addExpense`: the amount
      is the raw text of the input, the date is None once the picker is cleared. */
  datatype Draft = Draft(amount: string, category: string, date: Option<Date>, description: string)

  /** None of `amount`, `category`, `date`, `description` is falsy. */
  predicate Complete(d: Draft)
  {
    d.amount != "" && d.category != "" && d.date.Some? && d.description != ""
  }

  /** A ledger entry: the submitted fields plus an id. */
  datatype Expense = Expense(id: int, amount: string, category: string, date: Date, description: string)

  /** `parseFloat(e.amount)`. */
  function AmountOf(e: Expense): Number
  {
    ParseFloat(e.amount)
  }

  /** Every amount in the ledger parses to a number (the expense form never
      hands over anything else). */
  predicate AllParse(es: seq<Expense>)
  {
    forall i :: 0 <= i < |es| ==> AmountOf(es[i]).Num?
  }

  /** One entry of the feedback box. */
  datatype Feedback = Feedback(username: string, text: string, timestamp: string)

  /** A user account as it is serialised: the password is held encoded. */
  datatype UserRecord = UserRecord(username: string, password: string, isAdmin: bool)
}
