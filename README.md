# share-my-plate: the bill splitter's state model

This project models the in-memory state machine of the bill-splitter user interface in `src/App.js`. It covers four parts:

- **The `App` controller.** It holds the ordered friend list, the visibility flag of the add-friend form and the optional selected friend. Its three handlers are toggling the form, appending a friend and toggling the selection by id.
- **The add-friend form.** It has two text drafts. Its submit handler is a validation gate. On success it builds a friend with balance 0 and an image URL suffixed with `?=` and the new id, hands the friend to the `App`, and resets the drafts.
- **The split-bill form's amount drafts.** These are the bill and your expense, plus the friend's expense derived from them. An expense above the bill is rejected and the old value kept.
- **The friend row's logic.** This is which balance line a row shows ("You owe", "owes you", "even", with the magnitude of the balance) and whether the row is marked selected.

Pure parts are functions with lemmas. Each stateful component is a class whose fields mirror its hook state. Each handler method is proved against a step function on a value of that state. Runs of user events over the step functions state what holds after any sequence of clicks, submissions and edits.

Modules:
- `Optional`: the option type.
- `Friends`: id, friend, seed list, row logic.
- `AppState`: the `App` component.
- `AddFriendForm`: the `FormAddFriend` component.
- `SplitBillForm`: the `FormSplitBill` component.

Ids are `Numeric(n)` for the seed friends and `Uuid(text)` for friends added through the form. This keeps the JavaScript number/string distinction that `===` observes. Amounts are integers, and 0 also stands for the empty field `""`. Both are falsy, and `Number("")` is 0.

The code keeps the two forms apart in one direction only, and resets less than one might expect:
- Selecting a friend closes the add-friend form, but opening the add-friend form does not clear the selection, so both forms can be visible at once (`AppState.BothFormsCanBeOpen`).
- Adding a friend does not clear the selection.
- The split-bill drafts are not reset when the selection changes.
- The split-bill form has no submit handler and updates no balance.

## Model

| member | source | states |
|---|---|---|
| `Friends.InitialIdsDistinct` | src/App.js:3-22 | The seed list has three friends with pairwise distinct ids. |
| `Friends.AppendFreshKeepsDistinct` | src/App.js:45-46 | Appending a friend whose id is not yet listed keeps all ids distinct. |
| `Friends.NoRowSelectedWhenAbsent` | src/App.js:95 | No row is marked selected when there is no selection or its id is not in the list. |
| `Friends.AtMostOneSelected` | src/App.js:80-95 | With distinct ids, at most one row is marked selected. Exactly one is marked iff the selected friend's id occurs in the list. |
| `Friends.IsSelected` | src/App.js:95 | A row is marked selected iff a friend is selected and has the row's id; `Friends.AtMostOneSelected` and `AppState.SelectFriend` state what follows from it. |
| `Friends.Wordings` | src/App.js:100-112 | The three conditional balance lines of a row; `Friends.ExactlyOneWording` states its contract. |
| `Friends.ExactlyOneWording` | src/App.js:100-112 | Of the three conditional balance lines exactly one is shown: owe iff balance < 0, owed iff > 0, even iff 0. It names the friend and shows the magnitude of the balance, which is positive unless even. Reading the sign back from the line gives the balance. |
| `AppState.ToggleAddFriend` | src/App.js:41-43 | Toggling negates the form's visibility and leaves the friends and the selection unchanged. |
| `AppState.AddFriend` | src/App.js:45-48 | The list grows by exactly one. The new friend is last and the earlier entries are unchanged and in order. The form closes and the selection is unchanged. |
| `AppState.SelectFriend` | src/App.js:50-57 | A row is selected afterwards iff it was not before, so clicking the selected id clears the selection and any other click selects that friend. The form closes and the friends are unchanged. |
| `AppState.ToggleTwiceRestores` | src/App.js:41-43 | Toggling the add-friend form twice restores the whole state. |
| `AppState.RunOnlyAppends` | src/App.js:45-57 | After any sequence of events the old list is a prefix of the new one. The length grows by the number of submissions. |
| `AppState.SeedFriendsKept` | src/App.js:3-57 | After any sequence of events the three seed friends are still first, with their seed balances. |
| `AppState.RunKeepsSelectionListed` | src/App.js:50-57 | If every click is on a listed row, the selected friend is always an entry of the list. |
| `AppState.RunKeepsOneSelectedRow` | src/App.js:45-95 | If submitted ids are fresh, the ids stay distinct and at most one row is ever marked selected. |
| `AppState.SelectTwiceClears` | src/App.js:50-57 | From a different selection or none, one click on a row selects it and a second click on it clears the selection. |
| `AppState.BothFormsCanBeOpen` | src/App.js:41-72 | Selecting a friend, then opening the add-friend form, leaves the form visible and the friend selected. |
| `AppState.App.constructor` | src/App.js:37-39 | The App starts with the seed list, the form hidden and no selection. |
| `AppState.App.HandleShowAddFriend` | src/App.js:41-43 | The new state is the toggle step of the old one. |
| `AppState.App.HandleAddFriend` | src/App.js:45-48 | The new state is the append step of the old one. |
| `AppState.App.HandleSelectFriend` | src/App.js:50-57 | The new state is the selection-toggle step of the old one. |
| `AddFriendForm.NewFriend` | src/App.js:131-138 | The friend built from the drafts and the id; `AddFriendForm.NewFriendShape` and `AddFriendForm.EqualLengthIdsDistinctImages` state its contract. |
| `AddFriendForm.Submit` | src/App.js:124-142 | No friend is produced iff the name or the image draft is empty, and then the drafts are unchanged. Otherwise the friend is built from the drafts and the id, and the drafts reset to the empty name and the default avatar URL. |
| `AddFriendForm.NewFriendShape` | src/App.js:131-138 | The new friend has the draft name, balance 0 and the given id. Its image is the draft image, then `?=`, then the id, so both parts can be read back. |
| `AddFriendForm.SameBaseDistinctImages` | src/App.js:135 | Two friends built from the same image draft with different ids get different images. |
| `AddFriendForm.EqualLengthIdsDistinctImages` | src/App.js:131-135 | Two different ids of equal length, as every UUID is 36 characters long, give different images, whatever the image drafts. |
| `AddFriendForm.Form.constructor` | src/App.js:121-122 | The drafts start as the empty name and `https://i.pravatar.cc/48`. |
| `AddFriendForm.Form.HandleNameChange` | src/App.js:151-153 | Editing the name stores it and leaves the image draft unchanged. |
| `AddFriendForm.Form.HandleImageChange` | src/App.js:160-162 | Editing the image stores it and leaves the name draft unchanged. |
| `AddFriendForm.Form.HandleSubmit` | src/App.js:124-142 | The drafts become those of the submit step. An empty draft leaves the App unchanged. Otherwise the App's state is the append step with the new friend. |
| `SplitBillForm.PaidByFriend` | src/App.js:172 | The friend's expense shown in the disabled field (line 202); `SplitBillForm.PaidByFriendCompletesBill` and `SplitBillForm.ExpenseStaysCovered` state its contract. |
| `SplitBillForm.PaidByFriendCompletesBill` | src/App.js:172 | The friend's expense is shown iff the bill is nonzero. When shown, it and your expense add up to the bill. |
| `SplitBillForm.AcceptExpense` | src/App.js:192-198 | The stored expense is either the entry or the previous value. It is the entry iff the entry does not exceed the bill, or equals the previous value. It stays within the bill when the previous value was. |
| `SplitBillForm.ExpenseStaysCovered` | src/App.js:172-198 | If no bill edit goes below the current expense, your expense stays within the bill and the shown friend's expense is never negative. |
| `SplitBillForm.LoweredBillShowsNegativeShare` | src/App.js:172-198 | Bill 20, expense 4, then bill 3 leaves the expense at 4 and shows a friend's expense of -1. |
| `SplitBillForm.Form.constructor` | src/App.js:170-171 | Both amount drafts start empty (0). |
| `SplitBillForm.Form.HandleBillChange` | src/App.js:183-185 | The bill takes the entered value and your expense is unchanged. |
| `SplitBillForm.Form.HandleExpenseChange` | src/App.js:192-198 | The bill is unchanged. An entry above the bill keeps the previous expense. Any other entry is stored exactly and is within the bill. |

## Left out

- JSX markup, `Button`, CSS classes, colours, the euro sign and the row button's "Close"/"Select" label: presentational only.
- React hook and re-render mechanics. Component mounting and unmounting are also left out, so the drafts lost when the add-friend or split-bill form is hidden and mounted again are not modelled.
- `crypto.randomUUID()`: a foreign call. The id is a parameter of `AddFriendForm.Form.HandleSubmit`. Its uniqueness is a hypothesis of `AppState.RunKeepsOneSelectedRow`, not a proved fact.
- `Number(event.target.value)` parsing, NaN and floating-point arithmetic: amounts are already-parsed integers.
- `whoIsPaying` and its select: it changes no other state. Its initial value `"User"` matches neither option.
- A split-bill submission and a balance update: the split-bill form has no submit handler and receives only the selected friend, so no balance ever changes. The native submit of its "Split Bill" button, which reloads the page and so resets all state to the seed values, is left out.
- The split-bill form's heading and labels showing the selected friend's name: presentational only.
