# ExpenseX bookkeeping, modelled in Dafny

This project models the bookkeeping behind the ExpenseX expense tracker's
UI handlers and proves properties of it. The tracker is a single-page React
application whose whole state lives in the browser's `localStorage`. Five
components are modelled:

- **The dashboard** (`src/pages/Home.jsx`, module `Ledger`). It holds one
  user's ledger of expenses and a budget. The model covers:
  - the guarded add, with its advisory over-budget warning;
  - the confirmed reset and the coerced budget input;
  - the per-category summary and the weekly or monthly chart series;
  - the CSV report.
- **The user table** (`src/App.jsx`, module `Accounts`): loading, login,
  logout, signup, the forgotten and the changed password, and the admin's
  create and delete actions behind the "default admin" rule.
- **The admin panel** (`src/components/shared/AdminPanel.jsx`, module
  `AdminPanel`): the feedback list with its search filter, the delete and
  delete-all actions, and the per-user budgets and ledgers read from storage.
- **The feedback box** (`src/components/shared/Footer.jsx`, module
  `FeedbackBox`): resolving the visitor with the "Guest" fallback, and the
  submit that appends one entry to the saved list.
- **The expense form** (`src/components/home/ExpenseForm.jsx`, module
  `ExpenseForm`): the amount guard, the category autocomplete, and the
  submit that hands the draft to the dashboard and resets the form.

Shared pieces:

- `Common` models JavaScript numbers as `NaN | Num(real)`. NaN propagates
  through `+`, and every comparison with NaN is false.
- `Common` also gives `parseFloat` a real definition: leading whitespace,
  a sign, digits, a fraction and an exponent. It provides the string
  operations the handlers call (`trim`, `toLowerCase`, `includes`, `join`,
  `split`), `findIndex`, and an order-preserving `filter`.
- `Records` holds the stored records.
- `Storage` models `localStorage` as a class holding a
  `map<string, Stored>`, where `Stored` is the application's typed reading
  of each key's text.

Where the source changes state in place, the model does too:

- Each component is a class whose fields are its React state.
- Each handler is a method whose `modifies` clause names what it may change.
- Each method's `ensures` gives the whole new state and the outcome tag that
  stands for the toast.
- User objects are instances of the class `Account`. So are the in-place
  password rewrite of `users[userIndex].password = ...` and the reference
  comparison of `users.indexOf(currentUser)`.
- The two `forEach` loops that fill a dictionary are methods with loops:
  - `Dashboard.Group`, for the summary and the chart, is proved against the
    functions `Accumulate` and `GroupBy`;
  - `FeedbackPanel.AllExpenses`, for the admin view, is proved against the
    predicates `Listed` and `HasLedger`.

Behaviour of the code that the model keeps:

- The category summary's keys come in first-occurrence order, and that
  order is the order of the report's summary rows and of the chart's
  buckets (`AccumulateOrder`, `GroupOrder`, `ChartSeries`).
- An amount that does not parse stays in the ledger:
  - `totalSpent` becomes NaN (`Total`);
  - the over-budget warning is silenced (`OverBudgetIff`);
  - a category's running sum restarts from 0 after a NaN, because
    `(data[k] || 0)` reads NaN as 0.

  For this reason the sum lemmas assume that every amount parses.
- Ids are whatever the caller passes; two records may share one.
- Deleting one feedback entry writes the displayed list to storage even when
  the index is outside the list. When a filter is active, that write also
  drops every hidden entry from storage: see `FilteredDeleteDropsHidden`.
- The report joins its rows with "\n" without escaping any field. The
  description comes from a multi-line text area, so a description with a
  line break gives the report more lines than rows
  (`MultilineDescriptionAddsLines`). The round trip from lines back to rows
  (`RowsSplit`, `CsvLines`) holds only when no field has a line break.

## Model

| member | source | states |
|---|---|---|
| Common.Clamp | src/pages/Home.jsx:157 | `x > 0 ? x : 0` is a number that is never negative: `x` itself when `x > 0`, otherwise 0 (NaN included) |
| Common.OrZero | src/pages/Home.jsx:135 | `(v \|\| 0)` is always a number: a present numeric entry is kept, and a missing or NaN entry reads as 0 |
| Common.SumSeqSnoc | src/pages/Home.jsx:203 | the `reduce` sum of a list with one more element is the old sum plus that element |
| Common.SumSeqNum | src/pages/Home.jsx:203 | the `reduce` sum is a number exactly when every element is, so one NaN makes it NaN |
| Common.ExponentScale | src/components/home/ExpenseForm.jsx:104 | the scale of an optional exponent part of `parseFloat`'s input is positive |
| Common.ParseUnsigned | src/components/home/ExpenseForm.jsx:104 | the numeric prefix that `parseFloat` reads after the sign is never negative |
| Common.UnsignedDigits | src/components/home/ExpenseForm.jsx:104 | a plain run of digits is read whole, as the number it spells |
| Common.ParseDigits | src/components/home/ExpenseForm.jsx:104 | `parseFloat` of a digit string is the number it spells |
| Common.ParseNegativeDigits | src/components/home/ExpenseForm.jsx:104 | `parseFloat` of a minus sign and digits is the negated number |
| Common.ParseSkipsWhitespace | src/components/home/ExpenseForm.jsx:104 | leading whitespace does not change what `parseFloat` reads |
| Common.LeadingDigitsAll | src/components/home/ExpenseForm.jsx:104 | in a string of digits, the numeric prefix is the whole string |
| Common.TrimStart | src/components/shared/Footer.jsx:67 | only leading whitespace is dropped, and what remains does not start with whitespace |
| Common.TrimEnd | src/components/shared/Footer.jsx:67 | only trailing whitespace is dropped, and what remains does not end with whitespace |
| Common.TrimEmptyIff | src/components/shared/Footer.jsx:67 | `feedback.trim()` is empty exactly when every character of the text is whitespace |
| Common.Lower | src/components/shared/AdminPanel.jsx:109 | `toLowerCase` on the ASCII and Latin-1 capitals, one character at a time, keeping the length; other scripts are kept as they are |
| Common.ContainsEmpty | src/components/home/ExpenseForm.jsx:55 | every string includes the empty string |
| Common.SplitJoin | src/pages/Home.jsx:226-233 | splitting a `join("\n")` of rows without line breaks gives back exactly the rows |
| Common.JoinFree | src/pages/Home.jsx:233 | a join of rows without a character, using another separator, does not contain that character |
| Common.SplitCount | src/pages/Home.jsx:226-233 | `split` gives one piece more than the text has separators |
| Common.JoinCount | src/pages/Home.jsx:226-233 | a join holds the separators between its rows plus those inside any one row |
| Common.OccurrencesConcat | src/pages/Home.jsx:226-233 | the separators of two joined texts add up |
| Common.OccurrencesIn | src/pages/Home.jsx:226-233 | a text holds a character exactly when it has at least one occurrence of it |
| Common.JoinStartsWith | src/pages/Home.jsx:233 | a join starts with its first row |
| Common.FindIndex | src/App.jsx:119 | `findIndex` gives the first position that satisfies the test, or -1 exactly when none does |
| Common.FirstIndex | src/pages/Home.jsx:130-136 | the first position of an element: it holds the element and no earlier position does |
| Common.FirstIndexSnoc | src/pages/Home.jsx:130-136 | appending leaves the first position of an element already present as it was |
| Common.FirstIndexLast | src/pages/Home.jsx:130-136 | an element appended for the first time has its first position at the end |
| Common.OrderSnocOld | src/pages/Home.jsx:135 | a key met again leaves the dictionary's first-occurrence order as it was |
| Common.OrderSnocNew | src/pages/Home.jsx:135 | a key met for the first time goes after every key met before |
| Common.RemoveAt | src/components/shared/AdminPanel.jsx:53 | `filter((_, i) => i !== index)` drops exactly position `index`, the rest keep their order, and an index outside the list changes nothing |
| Common.Filter | src/components/shared/AdminPanel.jsx:108-110 | every element `filter` keeps passes the test, and the result is no longer than the input |
| Common.FilterSnoc | src/components/shared/AdminPanel.jsx:108-110 | filtering a list with one more element keeps that element exactly when it passes |
| Common.FilterCounts | src/components/shared/AdminPanel.jsx:108-110 | `filter` keeps every copy of each element that passes and no copy of the others |
| Common.FilterSubsequence | src/components/shared/AdminPanel.jsx:108-110 | `filter` keeps the order of the input: the result is a subsequence of it |
| Common.FilterMembers | src/App.jsx:194 | every element `filter` keeps comes from the input |
| Common.FilterMembersPassing | src/components/home/ExpenseForm.jsx:55 | every element of the input that passes is in the result |
| Common.FilterAll | src/components/shared/AdminPanel.jsx:108-110 | filtering a list whose elements all pass gives the list back |
| Common.FilterIdempotent | src/components/shared/AdminPanel.jsx:108-110 | filtering twice by the same test is filtering once |
| Storage.ExpensesKeyIsolated | src/App.jsx:193 | an `expenses_` key differs from every `budget_` key and from the feedback key, and names two users apart |
| Ledger.Total | src/pages/Home.jsx:203 | `totalSpent` is a number exactly when every amount in the ledger parses |
| Ledger.OverBudgetIff | src/pages/Home.jsx:56-58 | the warning fires exactly for a positive budget, a ledger whose amounts all parse and a new amount that parses, whose sum exceeds the budget |
| Ledger.Accumulate | src/pages/Home.jsx:130-136 | the dictionary filled by `data[k] = (data[k] \|\| 0) + x` has distinct keys, exactly the keys that occur, with one entry per key |
| Ledger.GroupBy | src/pages/Home.jsx:166-172 | the summary's keys are exactly the distinct keys of the ledger's records |
| Ledger.AccumulateOrder | src/pages/Home.jsx:130-136 | `Object.keys` of the filled dictionary lists each key once, in the order the `forEach` first meets it |
| Ledger.GroupOrder | src/pages/Home.jsx:166-172 | the summary's and the chart's keys come in the order of the first record that carries each |
| Ledger.AccumulateNumbers | src/pages/Home.jsx:135 | when every amount is a number, every entry of the dictionary is a number |
| Ledger.SumSeqBumpAt | src/pages/Home.jsx:135 | adding an amount to one entry of a list of numbers adds it to the `reduce` sum of the list |
| Ledger.SumBump | src/pages/Home.jsx:169 | adding an amount to one entry adds it to the sum of all entries |
| Ledger.BumpSum | src/pages/Home.jsx:169 | one step of the `forEach` adds its amount to the sum of the entries, whether the key is new or not |
| Ledger.AccumulateSum | src/pages/Home.jsx:130-136 | the entries of the dictionary add up to the sum of every amount added |
| Ledger.AccumulateEntry | src/pages/Home.jsx:135 | each entry is the sum of the amounts added under its key |
| Ledger.SumWhereAbsent | src/pages/Home.jsx:135 | a key that never occurs collects 0 |
| Ledger.GroupSum | src/pages/Home.jsx:166-172 | when every amount parses, the summary's values add up to `totalSpent` |
| Ledger.WithKeySums | src/pages/Home.jsx:169 | the total of the records with a key is the amount collected under that key |
| Ledger.WithKeyNonEmpty | src/pages/Home.jsx:169 | some record has a key exactly when that key occurs in the ledger |
| Ledger.GroupEntry | src/pages/Home.jsx:166-172 | a key is in the summary exactly when some record has it, and its value is the total of those records |
| Ledger.ChartSeries | src/pages/Home.jsx:124-164 | for a non-empty ledger: one label per distinct bucket, in the order the records first carry them, each spent value the entry collected under its label, and constant budget and clamped remaining series of the same length; `["No Data"]`, `[0]` and two empty series exactly for an empty ledger |
| Ledger.ChartOf | src/pages/Home.jsx:124-164 | there is a spent value for every label, at least one; the budget and remaining series have the same length; no remaining figure is negative |
| Ledger.ChartBuckets | src/pages/Home.jsx:124-164 | when every amount parses, each bucket's value is the total of the records that fall in it |
| Ledger.NoDataIsNoKey | src/pages/Home.jsx:132-139 | no month name and no week label is the "No Data" placeholder |
| Ledger.ChartSum | src/pages/Home.jsx:127-143 | when every amount parses, the chart's bucket values add up to `totalSpent` |
| Ledger.MonthBuckets | src/pages/Home.jsx:132-133 | two records with valid dates share a monthly bucket exactly when they fall in the same month |
| Ledger.WeekBuckets | src/pages/Home.jsx:134 | days 1-7 are Week 1 and days 29-31 are Week 5: weeks count from the first of the month |
| Ledger.HeaderFree | src/pages/Home.jsx:218 | the header row has no line break |
| Ledger.CsvLayout | src/pages/Home.jsx:217-233 | the rows are the header, one row per expense in ledger order, one `,,<category>,<amount>,,,` row per category, then the three trailer rows; the remaining figure is never negative |
| Ledger.DataRowFree | src/pages/Home.jsx:223-225 | an expense row has no line break when its fields and printed numbers have none |
| Ledger.OtherRowsFree | src/pages/Home.jsx:220-232 | the summary and trailer rows have no line break when the categories and printed numbers have none |
| Ledger.RowsSplit | src/pages/Home.jsx:226-233 | when no description, category, amount or printed number has a line break, splitting the report text on "\n" gives back exactly its rows |
| Ledger.CsvText | src/pages/Home.jsx:217-233 | the report text starts with the header row |
| Ledger.MultilineDescriptionAddsLines | src/pages/Home.jsx:223-233 | the rows are joined unescaped, so an expense whose description holds a line break gives the report more lines than rows |
| Ledger.CsvLines | src/pages/Home.jsx:217-233 | when no description, category, amount or printed number has a line break, the report has exactly `expenses + categories + 4` lines, and they are its rows |
| Ledger.Dashboard.constructor | src/pages/Home.jsx:15-24 | the saved ledger (or []) and the saved budget of the owner, `default_user` without a login, and the monthly view; the budget is unset exactly when nothing or the empty text is saved, and a saved value that is not plain text is parsed to NaN |
| Ledger.SavedBudget | src/pages/Home.jsx:20-23 | the budget is unset exactly when no text or the empty text is saved; otherwise it is `parseFloat` of the saved text, NaN for a value of another shape |
| Ledger.Dashboard.AddExpense | src/pages/Home.jsx:37-73 | no login or a falsy field leaves the ledger unchanged; otherwise exactly one record is appended at the end, and the warning is set iff the budget is positive and the old total plus the amount exceeds it |
| Ledger.Dashboard.ResetExpenses | src/pages/Home.jsx:75-122 | no login or a declined prompt changes nothing; a confirmed reset empties the ledger and removes only its storage key |
| Ledger.Dashboard.HandleBudgetChange | src/pages/Home.jsx:174-201 | no login changes nothing; "" unsets; a negative figure stores 0; otherwise `parseFloat(value) \|\| 0` is stored; so a budget set here is never negative |
| Ledger.Dashboard.SetViewType | src/pages/Home.jsx:24 | the view becomes the one chosen |
| Ledger.Dashboard.Group | src/pages/Home.jsx:130-136 | the `forEach` loop builds exactly the dictionary `GroupBy` describes |
| Ledger.Dashboard.CategorySummary | src/pages/Home.jsx:166-172 | the summary's keys are exactly the ledger's categories, and an empty ledger gives an empty summary |
| Ledger.Dashboard.ChartData | src/pages/Home.jsx:124-164 | the chart data are the series `ChartOf` describes for the current ledger, view and budget |
| Ledger.Dashboard.DownloadReport | src/pages/Home.jsx:207-247 | no login gives no report; otherwise the file name `Expense_Report_<view>_<user>_<date>.csv` and the rows joined by "\n" |
| Accounts.DecodeEncode | src/App.jsx:40 | the password encoding can be reversed |
| Accounts.EncodeInjective | src/App.jsx:70 | two passwords encode alike exactly when they are equal |
| Accounts.Account.constructor | src/App.jsx:105-109 | a new user object holds exactly the given name, encoded password and admin flag |
| Accounts.Snapshot | src/App.jsx:50 | the saved table holds, position by position, each user object's fields |
| Accounts.IsDefaultAdmin | src/App.jsx:160-163 | the default admin is called "admin"; when some listed admin is called "admin", it is the first such account; when none is, it is not a listed object |
| Accounts.DefaultAdminListed | src/App.jsx:160-163 | for a listed current user, `isDefaultAdmin` holds exactly when it is the first admin called "admin" |
| Accounts.DefaultAdminDetached | src/App.jsx:160-163 | for a current user that is not a listed object (a restored session), `isDefaultAdmin` holds exactly when it is called "admin" and no listed account is an admin called "admin" |
| Accounts.LoginIndexIff | src/App.jsx:69-73 | `users.find` finds an account exactly when some account has the name and the encoded password, and that account has the name |
| Accounts.FreshInstall | src/App.jsx:33-44 | with nothing saved, the table is the default admin alone |
| Accounts.RewriteAuthenticates | src/App.jsx:119-124 | after the rewrite, the name logs in with the new password |
| Accounts.RewriteLocksOut | src/App.jsx:119-124 | with unique names, after the rewrite the name logs in with no other password |
| Accounts.AppendKeepsUnique | src/App.jsx:99-112 | appending a name no account has keeps the names unique |
| Accounts.WithoutKeepsUnique | src/App.jsx:194 | dropping every account of one name keeps the names unique |
| Accounts.SnapshotWithout | src/App.jsx:194 | filtering the user objects and then saving them gives the filtered records |
| Accounts.PasswordKeepsUnique | src/App.jsx:123 | rewriting one password keeps the names unique |
| Accounts.App.constructor | src/App.jsx:33-63 | the table is the saved accounts or the default admin, and it is written back; a session saved as logged in is restored from a parsed copy of the saved user; the forms are closed |
| Accounts.App.Login | src/App.jsx:68-85 | login succeeds iff some account has the name and the encoded password; success makes the first such account the session and saves it; failure changes nothing |
| Accounts.App.Logout | src/App.jsx:88-94 | the session is dropped in memory and in storage |
| Accounts.App.Signup | src/App.jsx:97-115 | a taken name changes nothing; otherwise exactly one non-admin account is appended and saved; names stay unique |
| Accounts.App.ForgetPassword | src/App.jsx:118-131 | an unknown name changes nothing; otherwise only the first account of that name gets the encoded "default123", and the change-password form opens |
| Accounts.App.ChangePassword | src/App.jsx:134-151 | the first account of that name gets the new encoded password only when its stored one is the encoding of the current password; a wrong password or an unknown name changes nothing |
| Accounts.App.SetPassword | src/App.jsx:123-124 | rewriting one object's password changes that record only, and the table is saved |
| Accounts.App.AdminAction | src/App.jsx:154-203 | a non-admin is refused, and only a non-admin is; create and delete by an admin that is not the default admin are refused; the default admin's create of a free name always succeeds and appends one account; "Username already exists!" comes only from a create of a taken name; the default admin's delete of "admin" returns silently (`AdminProtected`), and of any other name always succeeds, dropping every account of that name and that user's ledger key, and nothing else; any other action is invalid |
| Accounts.App.Append | src/App.jsx:184 | one fresh account is appended after the old ones, and the table is saved |
| Accounts.App.Remove | src/App.jsx:192-194 | the user's ledger key is removed, every account of that name is dropped, and the others keep their order |
| Accounts.DeleteFacts | src/App.jsx:194 | filtering the objects commutes with saving them, and keeps them distinct |
| Accounts.FilterKeepsDistinct | src/App.jsx:194 | filtering the user objects keeps them distinct |
| AdminPanel.Filtered | src/components/shared/AdminPanel.jsx:106-115 | an empty filter restores the original list; otherwise the result is the order-preserving subsequence of the original entries whose username or text includes the filter case-insensitively, with every copy |
| AdminPanel.FilteredIdempotent | src/components/shared/AdminPanel.jsx:106-115 | applying the same filter to the filtered list changes nothing |
| AdminPanel.FilteredDeleteDropsHidden | src/components/shared/AdminPanel.jsx:53-54 | an entry the active filter hides is not in the list a delete writes back |
| AdminPanel.DeletedComesBack | src/components/shared/AdminPanel.jsx:53-55 | an entry deleted from the display comes back once a filter that matches it, or the empty filter, is applied to the original list |
| AdminPanel.UserBudget | src/components/shared/AdminPanel.jsx:27-30 | a user with no saved budget reads 0 |
| AdminPanel.BudgetAgreesWithDashboard | src/components/shared/AdminPanel.jsx:27-30 | for every saved value, the panel shows each user the budget the dashboard computes for them (0 when unset, NaN for a value that does not parse) |
| AdminPanel.FeedbackPanel.constructor | src/components/shared/AdminPanel.jsx:41-45 | mounting puts the saved list into both the display and the original |
| AdminPanel.FeedbackPanel.SetFilter | src/components/shared/AdminPanel.jsx:11 | the search box holds the typed text |
| AdminPanel.FeedbackPanel.ApplyFilter | src/components/shared/AdminPanel.jsx:106-115 | the display becomes the filtered original list |
| AdminPanel.FeedbackPanel.DeleteFeedback | src/components/shared/AdminPanel.jsx:51-62 | for anyone but the default admin nothing changes; otherwise the display loses exactly position `index` and is saved |
| AdminPanel.FeedbackPanel.DeleteAllFeedbacks | src/components/shared/AdminPanel.jsx:65-103 | for anyone but the default admin, or without confirmation, nothing changes; otherwise the display empties and the saved key is removed |
| AdminPanel.FeedbackPanel.AllExpenses | src/components/shared/AdminPanel.jsx:15-24 | exactly the listed users with a saved ledger appear, each mapped to that ledger |
| FeedbackBox.ResolveUser | src/components/shared/Footer.jsx:19-31 | a saved user object with a non-empty username is the visitor; every other case gives "Guest"; the name is never empty |
| FeedbackBox.Footer.constructor | src/components/shared/Footer.jsx:13-31 | an empty draft, a closed modal and the resolved visitor |
| FeedbackBox.Footer.RefreshCurrentUser | src/components/shared/Footer.jsx:35-48 | the visitor is resolved again from storage |
| FeedbackBox.Footer.OpenFeedback | src/components/shared/Footer.jsx:183 | the modal opens |
| FeedbackBox.Footer.SetFeedback | src/components/shared/Footer.jsx:13 | the draft holds the typed text |
| FeedbackBox.Footer.SubmitFeedback | src/components/shared/Footer.jsx:64-86 | text that trims to nothing changes nothing; otherwise exactly one entry (the visitor's name, the untrimmed text, the time) is appended after the saved ones, and the draft clears and the modal closes |
| FeedbackBox.SubmitReachesPanel | src/components/shared/Footer.jsx:74-76 | the list the submit saves is what the admin panel reads on mount: the earlier entries in order, then the new one |
| ExpenseForm.Matching | src/components/home/ExpenseForm.jsx:54-56 | the suggestions are a subsequence of the list, every one includes the input case-insensitively, and every entry that includes it is suggested |
| ExpenseForm.EmptyInputSuggestsAll | src/components/home/ExpenseForm.jsx:11-48 | empty input suggests all 27 predefined categories |
| ExpenseForm.MatchingEmpty | src/components/home/ExpenseForm.jsx:55 | every entry includes the empty input, so it keeps the whole list |
| ExpenseForm.MinusRefused | src/components/home/ExpenseForm.jsx:102-116 | text that starts with a minus sign is kept only when the number after the sign is zero |
| ExpenseForm.AmountGuardOnDigits | src/components/home/ExpenseForm.jsx:102-116 | the amount guard keeps every digit string, and refuses a minus sign followed by digits unless they spell zero |
| ExpenseForm.Form.constructor | src/components/home/ExpenseForm.jsx:41-48 | empty fields, today's date, a closed dropdown and the whole category list |
| ExpenseForm.Form.AmountChange | src/components/home/ExpenseForm.jsx:102-116 | "" or text that parses to a number that is not negative is kept; anything else empties the field; the field never holds a negative amount |
| ExpenseForm.Form.CategoryChange | src/components/home/ExpenseForm.jsx:51-57 | the category is the typed text, and the suggestions are the matching categories |
| ExpenseForm.Form.SelectCategory | src/components/home/ExpenseForm.jsx:60-63 | the picked suggestion becomes the category and the dropdown closes |
| ExpenseForm.Form.OpenDropdown | src/components/home/ExpenseForm.jsx:142 | focus opens the dropdown |
| ExpenseForm.Form.ToggleDropdown | src/components/home/ExpenseForm.jsx:148 | the chevron flips the dropdown |
| ExpenseForm.Form.ClickOutside | src/components/home/ExpenseForm.jsx:83-94 | a press outside closes an open dropdown, and a press inside changes nothing |
| ExpenseForm.Form.DateChange | src/components/home/ExpenseForm.jsx:97-99 | the date becomes the picked one |
| ExpenseForm.Form.DescriptionChange | src/components/home/ExpenseForm.jsx:197 | the description holds the typed text |
| ExpenseForm.Form.Submit | src/components/home/ExpenseForm.jsx:65-80 | a missing field hands nothing over and leaves the form as it was; otherwise the draft goes to `addExpense` once, the ledger changes as `AddExpense` states, and the form resets to empty fields, today's date and the whole list |

## Left out

- Toasts are not modelled; each handler returns an outcome tag instead.
- Rendering, animation and styling are not modelled.
- The math game, the contact and features modals, and the thin
  authentication forms are not part of this model. This includes
  ChangePassword.jsx's check that the new and confirmed passwords agree.
- `getAdminExpenses` (src/components/shared/AdminPanel.jsx:33-38) only
  feeds the panel's display, so it is not modelled.
- The dashboard's save effect (src/pages/Home.jsx:26-35) runs after
  rendering, and its timing is not modelled. The ledger and budget are
  state fields; only the reset's explicit `removeItem` touches storage.
- The users save effect (src/App.jsx:49-51) is modelled as a write at the
  end of each handler that changes the table.
- Amounts are exact reals. Floating-point rounding, overflow to Infinity
  and the literal text "Infinity" are not modelled: a huge exponent gives a
  huge real, and "Infinity" reads as NaN.
- How numbers print (`${amount}`, `toString`) is the parameter `show` of
  the report.
- `Records.Date` does not constrain its fields. The date picker only yields
  valid dates (`ValidDate`), and the month lemmas assume them; outside
  that range `MonthName` reads "December" and day 0 reads "Week 0".
- Month names are fixed to the English names, and `toLocaleDateString` to
  M/D/YYYY. Locales and time zones are not modelled, and a stored date is
  already a (year, month, day) record.
- `Object.keys` lists integer-like keys (a category named "12", say) first,
  in numeric order. The model keeps every key in insertion order.
- `Date.now()` ids and `new Date()` times are parameters. They are not
  claimed to be unique.
- Accounts.Encode is a reversible stand-in for `btoa`, and the properties
  use only its injectivity. `btoa`'s failure on characters outside Latin-1
  is not modelled.
- Common.Lower: only the ASCII and Latin-1 capitals are lower-cased, one
  character at a time. `toLowerCase` applies full Unicode case mapping, which
  also covers Greek, Cyrillic and other scripts and can change the length of
  the text (`"İ"` becomes two characters). A full Unicode case table is not
  part of this model.
- AdminPanel.Filtered: it inherits `Common.Lower`. A filter and an entry
  that differ only in the case of a letter outside Latin-1 match in the
  source but not in the model.
- AdminPanel.FeedbackPanel.ApplyFilter: it inherits `Common.Lower`, as
  `AdminPanel.Filtered` does.
- ExpenseForm.Matching: it inherits `Common.Lower`, as `AdminPanel.Filtered`
  does.
- Ledger.Accumulate: the source fills a plain `{}`, which inherits
  `Object.prototype`, and the model does not capture that inheritance:
  - for a key such as "toString" or "constructor", `(data[k] || 0)` reads
    the inherited function, and the entry becomes a string concatenation;
  - for the key "__proto__", the assignment replaces the prototype, and the
    key and its amount vanish from `Object.keys`.

  The model's dictionary holds only what is assigned to it.
- Ledger.GroupBy: the `Object.prototype` keys behave as described for
  `Ledger.Accumulate`. So `GroupEntry`, `GroupSum`, `ChartSum` and
  `ChartBuckets` do not describe the source for categories, months or weeks
  with those names.
- AdminPanel.FeedbackPanel.AllExpenses: a username "__proto__" vanishes from
  the source's `{}`. The model lists it like any other name.
- Accounts.InitialUsers: a saved "users" value that is not a list of users
  gives the default admin alone. In the source, `JSON.parse` throws on text
  that is not JSON, and other JSON (a non-array) becomes the table as it is.
- Storage text is modelled by its reading, the `Stored` datatype. For text
  of another shape, and for `JSON.parse` exceptions:
  - the panel reads an empty feedback list;
  - the feedback submit returns `Unreadable` and changes nothing;
  - a restored session keeps no user object;
  - `getAllExpenses` lists only saved ledgers that are lists of expenses;
  - the dashboard reads an empty ledger (`SavedExpenses`). In the source,
    `JSON.parse` throws on text that is not JSON, and any other JSON value
    becomes the ledger as it is.
- `handleAdminAction`'s default `data = {}` is not modelled. `AdminData`
  always carries a name, a password and an admin flag. A missing flag is
  `false`, which is what `data.isAdmin || false` gives.
- The footer keeps only the resolved user's name, because that is all the
  submit reads.
- The dashboard's `currentUser` prop is modelled as the user's name or
  None. The link between the App's session and the dashboard's prop is not
  modelled.
- ExpenseForm.Form.Submit: it keeps `AllParse` when the ledger had it. The
  model never proves `AllParse` from the form's amount guard: the link between
  the form's `Valid` and the dashboard's ledger is not carried across the two
  components.
