/** The admin panel of `src/components/shared/AdminPanel.jsx`: the feedback
    list with its search filter and its delete actions, and the per-user
    budgets and ledgers the panel reads from storage. */
module AdminPanel {
  import opened Common
  import opened Records
  import opened Storage
  import opened Accounts
  import Ledger

  /** `JSON.parse(localStorage.getItem("adminFeedbacks")) || []`. */
  function SavedFeedbacks(items: map<string, Stored>): seq<Feedback>
  {
    if FeedbacksKey in items && items[FeedbacksKey].FeedbackList? then items[FeedbacksKey].feedbacks else []
  }

  /** The search test: the lower-cased username or text includes the
      lower-cased filter. */
  predicate Matches(filter: string, fb: Feedback)
  {
    Contains(Lower(fb.username), Lower(filter)) || Contains(Lower(fb.text), Lower(filter))
  }

  /** `handleFilter`'s new list: the matching entries of the original list,
      in order, or the whole original list for an empty filter. */
  function Filtered(original: seq<Feedback>, filter: string): (r: seq<Feedback>)
    ensures filter == "" ==> r == original
    ensures filter != "" ==>
      && IsSubsequence(r, original)
      && (forall i :: 0 <= i < |r| ==> Matches(filter, r[i]))
      && (forall i :: 0 <= i < |original| && Matches(filter, original[i]) ==>
            multiset(r)[original[i]] == multiset(original)[original[i]])
  {
    if filter != "" then
      var p := (fb: Feedback) => Matches(filter, fb);
      FilterSubsequence(original, p);
      FilterCounts(original, p);
      Filter(original, p)
    else original
  }

  /** Filtering the already filtered list again changes nothing. */
  lemma FilteredIdempotent(original: seq<Feedback>, filter: string)
    ensures Filtered(Filtered(original, filter), filter) == Filtered(original, filter)
  {
    if filter != "" {
      FilterIdempotent(original, (fb: Feedback) => Matches(filter, fb));
    }
  }

  /** An entry the filter hides is not in the list a delete then writes back:
      deleting while a filter is active drops every hidden entry from storage. */
  lemma FilteredDeleteDropsHidden(original: seq<Feedback>, filter: string, index: int, fb: Feedback)
    requires filter != "" && !Matches(filter, fb)
    ensures fb !in RemoveAt(Filtered(original, filter), index)
  {
    var shown := Filtered(original, filter);
    if fb in RemoveAt(shown, index) {
      assert false;
    }
  }

  /** The original list is the filter's only input: an entry deleted from
      the display comes back, every copy of it, once a filter that matches it
      (or the empty filter) is applied. */
  lemma DeletedComesBack(original: seq<Feedback>, index: int, filter: string)
    requires 0 <= index < |original|
    requires filter == "" || Matches(filter, original[index])
    ensures multiset(RemoveAt(original, index))[original[index]] == multiset(original)[original[index]] - 1
    ensures multiset(Filtered(original, filter))[original[index]] == multiset(original)[original[index]]
  {
    var x := original[index];
    assert original == original[..index] + [x] + original[index + 1..];
    assert RemoveAt(original, index) == original[..index] + original[index + 1..];
  }

  /** `getUserBudget`: the saved budget text parsed, or 0 when none is saved
      or it is empty. A saved value of another shape is JSON text that
      `parseFloat` reads as NaN. */
  function UserBudget(items: map<string, Stored>, username: string): (n: Number)
    ensures BudgetKey(username) !in items ==> n == Num(0.0)
  {
    var k := BudgetKey(username);
    if k !in items then Num(0.0)
    else match items[k]
      case Text(t) => if t != "" then ParseFloat(t) else Num(0.0)
      case _ => NaN
  }

  /** The panel shows each user the budget the dashboard computes for them. */
  lemma BudgetAgreesWithDashboard(items: map<string, Stored>, username: string)
    ensures UserBudget(items, username) == Ledger.CurrentBudget(Ledger.SavedBudget(items, username))
  {
  }

  /** Some account in `us` has this name. */
  predicate Listed(us: seq<Account>, name: string)
  {
    exists i :: 0 <= i < |us| && us[i].username == name
  }

  /** A saved ledger under this name. */
  predicate HasLedger(items: map<string, Stored>, name: string)
  {
    ExpensesKey(name) in items && items[ExpensesKey(name)].ExpenseList?
  }

  class FeedbackPanel {
    const store: Store
    var feedbacks: seq<Feedback>
    var originalFeedbacks: seq<Feedback>
    var filter: string

    /** Mounting reads the saved list into both the display and the original. */
    constructor (store: Store)
      ensures this.store == store
      ensures feedbacks == SavedFeedbacks(store.items) && originalFeedbacks == feedbacks
      ensures filter == ""
    {
      this.store := store;
      var saved := SavedFeedbacks(store.items);
      feedbacks := saved;
      originalFeedbacks := saved;
      filter := "";
    }

    /** The search box. */
    method SetFilter(text: string)
      modifies this`filter
      ensures filter == text
    {
      filter := text;
    }

    /** `handleFilter`: the display becomes the filtered original list. */
    method ApplyFilter()
      modifies this`feedbacks
      ensures feedbacks == Filtered(originalFeedbacks, filter)
    {
      var f := filter;
      if f != "" {
        feedbacks := Filter(originalFeedbacks, (fb: Feedback) => Matches(f, fb));
      } else {
        feedbacks := originalFeedbacks;
      }
    }

    /** `handleDeleteFeedback`: for the default admin, the displayed list
        without position `index` becomes the display and the saved list (the
        save happens for an index outside the list too); for anyone else
        nothing changes. The original list is left alone. */
    method DeleteFeedback(users: seq<Account>, current: Account?, index: int)
      modifies this`feedbacks, store
      ensures !IsDefaultAdmin(users, current) ==> feedbacks == old(feedbacks) && store.items == old(store.items)
      ensures IsDefaultAdmin(users, current) ==>
        && feedbacks == RemoveAt(old(feedbacks), index)
        && store.items == old(store.items)[FeedbacksKey := FeedbackList(feedbacks)]
    {
      if IsDefaultAdmin(users, current) {
        var updated := RemoveAt(feedbacks, index);
        store.items := store.items[FeedbacksKey := FeedbackList(updated)];
        feedbacks := updated;
      }
    }

    /** `handleDeleteAllFeedbacks` and the answer to its prompt: for the
        default admin who confirms, the display empties and the saved list is
        removed; otherwise nothing changes. The original list is left alone. */
    method DeleteAllFeedbacks(users: seq<Account>, current: Account?, confirmed: bool)
      modifies this`feedbacks, store
      ensures !(IsDefaultAdmin(users, current) && confirmed) ==>
        feedbacks == old(feedbacks) && store.items == old(store.items)
      ensures IsDefaultAdmin(users, current) && confirmed ==>
        feedbacks == [] && store.items == old(store.items) - {FeedbacksKey}
    {
      if IsDefaultAdmin(users, current) && confirmed {
        store.items := store.items - {FeedbacksKey};
        feedbacks := [];
      }
    }

    /** `getAllExpenses`: every listed user with a saved ledger, mapped to it. */
    method AllExpenses(users: seq<Account>) returns (all: map<string, seq<Expense>>)
      ensures forall name :: name in all <==> Listed(users, name) && HasLedger(store.items, name)
      ensures forall name :: name in all ==>
        HasLedger(store.items, name) && all[name] == store.items[ExpensesKey(name)].expenses
    {
      all := map[];
      var i := 0;
      while i < |users|
        invariant 0 <= i <= |users|
        invariant forall name :: name in all <==> Listed(users[..i], name) && HasLedger(store.items, name)
        invariant forall name :: name in all ==>
          HasLedger(store.items, name) && all[name] == store.items[ExpensesKey(name)].expenses
      {
        var name := users[i].username;
        var key := ExpensesKey(name);
        if key in store.items && store.items[key].ExpenseList? {
          all := all[name := store.items[key].expenses];
        }
        assert users[..i + 1] == users[..i] + [users[i]];
        i := i + 1;
      }
      assert users[..i] == users;
    }
  }
}
