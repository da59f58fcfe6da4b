/** The feedback box of `src/components/shared/Footer.jsx`: who the visitor
    is, read back from storage with a "Guest" fallback, and the submit that
    appends one entry to the saved feedback list. */
module FeedbackBox {
  import opened Common
  import opened Records
  import opened Storage
  import AdminPanel

  /** The `currentUser` state's name: the saved user when it parses to an
      object with a username, "Guest" in every other case (nothing saved,
      text that does not parse, a value that is not an object, an object
      without a username). */
  function ResolveUser(items: map<string, Stored>): (name: string)
    ensures name != ""
    ensures name != "Guest" ==>
      CurrentUserKey in items && items[CurrentUserKey].UserObject? && items[CurrentUserKey].record.username == name
    ensures CurrentUserKey in items && items[CurrentUserKey].UserObject? && items[CurrentUserKey].record.username != "" ==>
      name == items[CurrentUserKey].record.username
  {
    if CurrentUserKey in items && items[CurrentUserKey].UserObject? && items[CurrentUserKey].record.username != ""
    then items[CurrentUserKey].record.username
    else "Guest"
  }

  /** `JSON.parse(localStorage.getItem("adminFeedbacks")) || []` as the submit
      reads it: None when the saved text is not a list the handler can push
      onto (the parse or the push throws). */
  function StoredFeedbacks(items: map<string, Stored>): Option<seq<Feedback>>
  {
    if FeedbacksKey !in items then Some([])
    else match items[FeedbacksKey]
      case FeedbackList(fs) => Some(fs)
      case _ => None
  }

  datatype SubmitOutcome = Blank | Sent(username: string) | Unreadable

  class Footer {
    const store: Store
    /** The text of the feedback modal. */
    var feedback: string
    var showFeedback: bool
    /** The resolved visitor's username. */
    var currentUser: string

    constructor (store: Store)
      ensures this.store == store
      ensures feedback == "" && !showFeedback
      ensures currentUser == ResolveUser(store.items)
    {
      this.store := store;
      feedback := "";
      showFeedback := false;
      currentUser := ResolveUser(store.items);
    }

    /** `updateCurrentUser`, run on mount and on every storage event. */
    method RefreshCurrentUser()
      modifies this`currentUser
      ensures currentUser == ResolveUser(store.items)
    {
      currentUser := ResolveUser(store.items);
    }

    method OpenFeedback()
      modifies this`showFeedback
      ensures showFeedback
    {
      showFeedback := true;
    }

    method SetFeedback(text: string)
      modifies this`feedback
      ensures feedback == text
    {
      feedback := text;
    }

    /** `handleFeedbackSubmit`: text that trims to nothing changes nothing;
        otherwise one entry (the visitor's name, the untrimmed text, the
        time `now`) is appended after the saved entries, and the modal clears
        and closes. */
    method SubmitFeedback(now: string) returns (outcome: SubmitOutcome)
      modifies this`feedback, this`showFeedback, store
      ensures Trim(old(feedback)) == "" ==>
        outcome == Blank && feedback == old(feedback) && showFeedback == old(showFeedback)
        && store.items == old(store.items)
      ensures Trim(old(feedback)) != "" && StoredFeedbacks(old(store.items)).None? ==>
        outcome == Unreadable && feedback == old(feedback) && showFeedback == old(showFeedback)
        && store.items == old(store.items)
      ensures Trim(old(feedback)) != "" && StoredFeedbacks(old(store.items)).Some? ==>
        var name := if currentUser != "" then currentUser else "Guest";
        && outcome == Sent(name)
        && store.items == old(store.items)[FeedbacksKey :=
             FeedbackList(StoredFeedbacks(old(store.items)).value + [Feedback(name, old(feedback), now)])]
        && feedback == "" && !showFeedback
    {
      if Trim(feedback) == "" {
        return Blank;
      }
      var username := if currentUser != "" then currentUser else "Guest";
      var entry := Feedback(username, feedback, now);
      var saved := StoredFeedbacks(store.items);
      if saved.None? {
        return Unreadable;
      }
      var feedbacks := saved.value;
      feedbacks := feedbacks + [entry];
      store.items := store.items[FeedbacksKey := FeedbackList(feedbacks)];
      feedback := "";
      showFeedback := false;
      outcome := Sent(username);
    }
  }

  /** What the submit writes is what the admin panel reads on mount: the
      earlier entries in order, then the new one. */
  lemma SubmitReachesPanel(items: map<string, Stored>, entry: Feedback)
    requires StoredFeedbacks(items).Some?
    ensures var after := items[FeedbacksKey := FeedbackList(StoredFeedbacks(items).value + [entry])];
      && AdminPanel.SavedFeedbacks(after) == AdminPanel.SavedFeedbacks(items) + [entry]
      && |AdminPanel.SavedFeedbacks(after)| == |AdminPanel.SavedFeedbacks(items)| + 1
      && AdminPanel.SavedFeedbacks(after)[|AdminPanel.SavedFeedbacks(items)|] == entry
  {
  }
}
