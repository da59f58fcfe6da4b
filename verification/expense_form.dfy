/** The expense form of `src/components/home/ExpenseForm.jsx`: the amount
    guard, the category autocomplete over a fixed list, and the submit that
    hands the draft to the dashboard and resets the form. */
module ExpenseForm {
  import opened Common
  import opened Records
  import opened Ledger

  /** The predefined categories, in the order the dropdown lists them. */
  const Categories: seq<string> := [
    "Food", "Travel", "Shopping", "Entertainment", "Bills", "Health",
    "Education", "Groceries", "Rent", "Transportation", "Subscriptions",
    "Savings", "Investments", "Gifts & Donations", "Personal Care",
    "Childcare", "Pet Care", "Insurance", "Taxes", "Work Expenses",
    "Home Maintenance", "Fitness", "Clothing", "Electronics",
    "Events & Parties", "Medicines", "Other"]

  /** The entries of `list` whose lower-cased form includes the lower-cased
      input, in list order. */
  function Matching(list: seq<string>, value: string): (r: seq<string>)
    ensures IsSubsequence(r, list)
    ensures forall i :: 0 <= i < |r| ==> Contains(Lower(r[i]), Lower(value))
    ensures forall i :: 0 <= i < |list| && Contains(Lower(list[i]), Lower(value)) ==> list[i] in r
  {
    var p := (c: string) => Contains(Lower(c), Lower(value));
    FilterSubsequence(list, p);
    FilterMembersPassing(list, p);
    Filter(list, p)
  }

  /** The autocomplete suggestions for the typed category. */
  function Suggestions(value: string): seq<string>
  {
    Matching(Categories, value)
  }

  /** Typing nothing suggests the whole list. */
  lemma EmptyInputSuggestsAll()
    ensures Suggestions("") == Categories
  {
    MatchingEmpty(Categories);
  }

  lemma MatchingEmpty(list: seq<string>)
    ensures Matching(list, "") == list
  {
    forall i | 0 <= i < |list|
      ensures Contains(Lower(list[i]), Lower(""))
    {
      ContainsEmpty(Lower(list[i]));
    }
    FilterAll(list, (c: string) => Contains(Lower(c), Lower("")));
  }

  /** An amount the form may hold: empty, or text that parses to a number
      that is not negative. */
  predicate AmountOk(amount: string)
  {
    amount == "" || (ParseFloat(amount).Num? && ParseFloat(amount).value >= 0.0)
  }

  /** Text that starts with a minus sign is kept only when the number after
      the sign is zero ("-0" reads as a number not below 0). */
  lemma MinusRefused(u: string)
    ensures AmountOk("-" + u) <==> ParseUnsigned(u) == Some(0.0)
  {
    var s := "-" + u;
    assert s[0] == '-' && s[1..] == u;
  }

  /** On plain digit strings the guard keeps every number, and refuses it
      once a minus sign puts it below zero. */
  lemma AmountGuardOnDigits(s: string)
    requires s != [] && AllDigits(s)
    ensures AmountOk(s)
    ensures AmountOk("-" + s) <==> DigitsValue(s) == 0
  {
    ParseDigits(s);
    ParseNegativeDigits(s);
  }

  datatype AmountOutcome = AmountKept | AmountRejected
  datatype FormOutcome = FormIncomplete | Submitted(result: AddOutcome)

  class Form {
    /** The component's own copy of the category list. */
    const categories: seq<string>
    var amount: string
    var category: string
    /** None once the date picker is cleared. */
    var date: Option<Date>
    var description: string
    var isOpen: bool
    var suggestions: seq<string>

    /** The amount field never holds a negative or unparsable amount. */
    ghost predicate Valid()
      reads this
    {
      AmountOk(amount)
    }

    /** The form's draft as `addExpense` receives it. */
    function Draft(): Records.Draft
      reads this
    {
      Records.Draft(amount, category, date, description)
    }

    /** A fresh form: empty fields, today's date, the whole category list. */
    constructor (today: Date)
      ensures amount == "" && category == "" && date == Some(today) && description == ""
      ensures categories == Categories
      ensures !isOpen && suggestions == categories
      ensures Valid()
    {
      categories := Categories;
      amount := "";
      category := "";
      date := Some(today);
      description := "";
      isOpen := false;
      suggestions := categories;
    }

    /** `handleAmountChange`: an acceptable amount is kept, anything else
        (negative, not a number) empties the field. */
    method AmountChange(value: string) returns (outcome: AmountOutcome)
      modifies this`amount
      ensures AmountOk(value) ==> outcome == AmountKept && amount == value
      ensures !AmountOk(value) ==> outcome == AmountRejected && amount == ""
      ensures Valid()
    {
      var numValue := ParseFloat(value);
      if value == "" || (numValue.Num? && numValue.value >= 0.0) {
        amount := value;
        outcome := AmountKept;
      } else {
        amount := "";
        outcome := AmountRejected;
      }
    }

    /** `handleCategoryChange`: the typed text becomes the category and the
        suggestions are narrowed to the categories that include it. */
    method CategoryChange(value: string)
      modifies this`category, this`suggestions
      ensures category == value && suggestions == Matching(categories, value)
    {
      category := value;
      suggestions := Matching(categories, value);
    }

    /** `selectCategory`: a picked suggestion becomes the category and the
        dropdown closes; the other fields stay. */
    method SelectCategory(cat: string)
      modifies this`category, this`isOpen
      ensures category == cat && !isOpen
    {
      category := cat;
      isOpen := false;
    }

    /** Focus on the category input opens the dropdown. */
    method OpenDropdown()
      modifies this`isOpen
      ensures isOpen
    {
      isOpen := true;
    }

    /** The chevron button toggles the dropdown. */
    method ToggleDropdown()
      modifies this`isOpen
      ensures isOpen == !old(isOpen)
    {
      isOpen := !isOpen;
    }

    /** The document's mousedown listener: a press outside the dropdown
        closes it when it is open. */
    method ClickOutside(insideDropdown: bool)
      modifies this`isOpen
      ensures isOpen == (old(isOpen) && insideDropdown)
    {
      if isOpen && !insideDropdown {
        isOpen := false;
      }
    }

    /** `handleDateChange`. */
    method DateChange(d: Option<Date>)
      modifies this`date
      ensures date == d
    {
      date := d;
    }

    method DescriptionChange(text: string)
      modifies this`description
      ensures description == text
    {
      description := text;
    }

    /** `handleSubmit`: with a field missing, nothing is handed over and the
        form stays as it was; otherwise the draft goes to `addExpense` once
        (with the id it assigns) and the form resets to empty fields, today's
        date and the whole category list. */
    method Submit(home: Dashboard, id: int, today: Date) returns (outcome: FormOutcome)
      requires Valid()
      modifies this`amount, this`category, this`date, this`description, this`suggestions, home`expenses
      ensures Valid()
      ensures !Complete(old(Draft())) ==>
        && outcome == FormIncomplete && home.expenses == old(home.expenses)
        && amount == old(amount) && category == old(category) && date == old(date)
        && description == old(description) && suggestions == old(suggestions)
      ensures Complete(old(Draft())) ==>
        && amount == "" && category == "" && date == Some(today) && description == ""
        && suggestions == categories
        && (home.currentUser.None? ==> outcome == Submitted(AddNeedsLogin) && home.expenses == old(home.expenses))
        && (home.currentUser.Some? ==>
              && outcome == Submitted(Added(OverBudget(old(home.expenses), home.budget, old(amount))))
              && home.expenses == old(home.expenses) + [Record(old(Draft()), id)])
      ensures old(AllParse(home.expenses)) ==> AllParse(home.expenses)
    {
      var d := Draft();
      if !Complete(d) {
        return FormIncomplete;
      }
      var added := home.AddExpense(d, id);
      assert AmountOf(Record(d, id)).Num?;
      amount := "";
      category := "";
      date := Some(today);
      description := "";
      suggestions := categories;
      outcome := Submitted(added);
    }
  }
}
