# FinHelper group ledger in Dafny

This project models the group ledger of the FinHelper expense tracker and
proves properties of it. A group has an ordered roster of member names and
an ordered list of expenses. Each expense is either personal (no payer, no
split list) or shared (a payer and a split list). The balance engine
`calculateDebts` folds the expenses into a signed balance per name:

- the payer is credited the full amount;
- every entry of the split list is debited the per-person share.

On top of the ledger, the group screens show:

- the current user's own spending;
- their balance;
- a "who owes me" line;
- a "mark as paid" button that records a debt payment as one more expense.

There are also two forms, one that adds a group expense and one that edits an
existing expense.

Amounts are exact `real`s. The app's binary floating point is not
reproduced, so "the balances sum to 0" is an exact statement here.

Files and modules:

- `options.dfy` (`Options`): an `Option` type for Swift's optionals.
- `expense.dfy` (`ExpenseModel`): the expense record, its two initialisers, the per-person share and the categories.
- `group.dfy` (`GroupModel`): the balance engine and the `Group` class.
  - A pure specification: `Balances`, a left fold of `ApplyExpense` over the expenses, starting from every roster member at 0.
  - The class's `CalculateDebts` keeps the source's nested loops and is proved to compute `Balances`.
  - Lemmas give each member's balance as total credits minus total debits.
  - Lemmas give the sum of all balances as the sum of each expense's imbalance.
  - Conservation follows: the balances sum to 0 when every expense has a payer and a non-empty split list.
- `selection.dfy` (`MemberSelection`): the member toggle both forms share, and Swift's `Array(set)` as a method that lists a set once, in an unspecified order.
- `groups_view.dfy` (`GroupsView`): the group screen's ledger logic and the expense detail (edit) form.
- `add_expense_view.dfy` (`GroupAddExpenseView`): the new-expense form.

Inputs the source takes from outside are parameters here:

- The current user is a `User` value.
- `UUID()` becomes an `Uuid` argument.
- `Date()` becomes a `Date` argument.
- `Double(text)` becomes a `parse: string -> Option<real>` argument.
- `String(format: "%.2f", amount)` becomes the text given to the edit form's constructor.

The view model (`MainViewModel`) is not part of this model. What the screens
hand to it is returned instead:

- the updated group;
- the edited expense;
- the new expense's draft.

Behaviour of the code worth knowing, stated as it is:

- `Group.addExpense` checks nothing. Amounts, payers and split lists are stored as given, so conservation holds only for the balanced shape (`IsBalancedShape`).
- A debt payment is an ordinary expense. It counts towards `totalExpenses`.
- The only settlement mechanism is the one-payment `markDebtAsPaid`. The repository has no multi-party settlement planner, and none is modelled.
- `calculateDebts` also creates keys for payers and split entries that are not on the roster (the `default: 0` lookups).

## Model

| member | source | states |
|---|---|---|
| `ExpenseModel.AmountPerPerson` | FinHelper/Models/Expense.swift:42-45 | the share is the whole amount when the split list is missing or empty; otherwise the share times the list length (duplicates counted) is the amount |
| `ExpenseModel.PersonalExpense` | FinHelper/Models/Expense.swift:52-61 | the personal initialiser has no payer and no split list and keeps every given field |
| `ExpenseModel.GroupExpense` | FinHelper/Models/Expense.swift:64-73 | the group initialiser stores the payer and split list unchanged, along with the other fields |
| `ExpenseModel.PersonalShareIsWholeAmount` | FinHelper/Models/Expense.swift:43 | a personal expense's share is its amount, and it is not of the balanced shape |
| `ExpenseModel.GroupSharesAddUp` | FinHelper/Models/Expense.swift:44 | a group expense with a non-empty split has the balanced shape, and its shares add back up to the amount |
| `ExpenseModel.ExpenseCategory.RawValue` | FinHelper/Models/Expense.swift:4-9 | every category has a non-empty label |
| `ExpenseModel.ExpenseCategory.Icon` | FinHelper/Models/Expense.swift:11-19 | every category has a non-empty icon |
| `ExpenseModel.AllCategories` | FinHelper/Models/Expense.swift:4-9 | `allCases` lists five categories without repetition |
| `ExpenseModel.AllCategoriesComplete` | FinHelper/Models/Expense.swift:4-9 | every category is in `allCases` |
| `ExpenseModel.CategoryLabelsDistinct` | FinHelper/Models/Expense.swift:4-19 | different categories have different labels and different icons |
| `GroupModel.Group.constructor` | FinHelper/Models/Group.swift:81-88 | a new group holds exactly the given name, roster, expenses, date and icon |
| `GroupModel.Group.CalculateDebts` | FinHelper/Models/Group.swift:22-48 | the nested loops return exactly `Balances(members, expenses)` |
| `GroupModel.Balances` | FinHelper/Models/Group.swift:22-48 | the specification of calculateDebts: every roster member starts at 0 and the expenses are applied in list order; its keys are exactly the roster plus every name an expense mentions (per-member values in `BalancesAt`, the sum in `Conservation`) |
| `GroupModel.BalancesAt` | FinHelper/Models/Group.swift:22-48 | the keys are exactly the roster plus every payer and split entry; every roster member is a key; a member's balance is total credits minus total debits |
| `GroupModel.RosterStartsAtZero` | FinHelper/Models/Group.swift:26-28 | with no expenses, the keys are exactly the roster and every value is 0 |
| `GroupModel.ApplyExpenseAt` | FinHelper/Models/Group.swift:31-45 | one expense moves a name's balance by what it credits that name minus what it debits it, and adds its payer and split entries as keys |
| `GroupModel.SplitExpenseEffect` | FinHelper/Models/Group.swift:31-44 | a balanced expense adds the amount to its payer and takes amount/k once per occurrence in the split; names it does not mention are unchanged |
| `GroupModel.PayerAlsoInSplit` | FinHelper/Models/Group.swift:35-44 | a payer who is once in the split nets amount - amount/k |
| `GroupModel.PersonalExpenseNeutral` | FinHelper/Models/Group.swift:35-44 | an expense with no payer and no split list leaves the balances unchanged |
| `GroupModel.PayerWithoutSplit` | FinHelper/Models/Group.swift:35-44 | a payer with an empty split list is credited and nobody is debited, so the balance sum grows by the amount |
| `GroupModel.ApplyExpenseSum` | FinHelper/Models/Group.swift:31-45 | one expense moves the balance sum by exactly its imbalance: plus the amount for a payer, minus the amount for a non-empty split |
| `GroupModel.BalanceSum` | FinHelper/Models/Group.swift:22-48 | the balance sum equals the sum of the expenses' imbalances |
| `GroupModel.Conservation` | FinHelper/Models/Group.swift:22-48 | when every expense has a payer and a non-empty split list, the balances sum to 0 |
| `GroupModel.BalancesAppend` | FinHelper/Models/Group.swift:31-45 | an appended expense applies on top of the earlier balances |
| `GroupModel.TotalAppend` | FinHelper/Models/Group.swift:17-19 | appending an expense raises the total by its amount |
| `GroupModel.Total` | FinHelper/Models/Group.swift:17-19 | the left fold of the amounts, as `reduce(0)` computes it; not negative when no amount is (growth per appended expense in `TotalAppend`, the user's share of it in `MyExpensesBounded`) |
| `GroupModel.Group.TotalExpenses` | FinHelper/Models/Group.swift:17-19 | the group's total is `Total` of its expenses, not negative when no amount is, and `AddExpense` raises it by exactly the new amount |
| `GroupModel.Group.AddExpense` | FinHelper/Models/Group.swift:51-53 | the expense is appended at the end, the total rises by its amount, and the roster and other fields are unchanged |
| `GroupModel.Group.AddMember` | FinHelper/Models/Group.swift:56-60 | the name is appended only when absent, and a duplicate-free roster stays duplicate-free |
| `GroupModel.AddedMember` | FinHelper/Models/Group.swift:56-60 | the roster after adding contains the name, keeps the old roster as a prefix, grows by at most one, and is unchanged when the name was already there |
| `GroupModel.AddMemberProperties` | FinHelper/Models/Group.swift:56-60 | after adding, the name is present and nothing else is added; adding twice is the same as adding once; uniqueness is kept |
| `GroupModel.Group.RemoveMember` | FinHelper/Models/Group.swift:63-65 | the roster becomes the filtered roster, the name is no longer on it, and the expenses are untouched |
| `GroupModel.RemovedMember` | FinHelper/Models/Group.swift:63-65 | the roster after removing no longer contains the name and is no longer than before (every other name keeps its count: `RemoveMemberProperties`) |
| `GroupModel.RemoveMemberProperties` | FinHelper/Models/Group.swift:63-65 | every occurrence of the name goes, and every other name stays exactly as often as before |
| `GroupModel.RemoveMemberOrder` | FinHelper/Models/Group.swift:63-65 | removal keeps order: removing from a concatenation removes from each part |
| `GroupModel.Group.MarkDebtAsPaid` | FinHelper/Models/Group.swift:68-79 | exactly one "Borç Ödemesi" expense is appended, paid by the debtor and split to `[creditor]` with the given amount; the roster is unchanged |
| `GroupModel.PaymentExpense` | FinHelper/Models/Group.swift:69-77 | the payment expense is titled "Borç Ödemesi", has category Other, is paid by the debtor, is split to `[creditor]` alone, has the balanced shape, and its per-person share is the whole amount |
| `GroupModel.PaymentEffect` | FinHelper/Models/Group.swift:68-79 | for a debtor different from the creditor: the debtor's balance rises by the amount, the creditor's falls by it, both become keys, and everyone else is unchanged |
| `GroupModel.Group.Copy` | FinHelper/Views/GroupsView.swift:311 | the value copy of a group is a fresh object with the same fields |
| `MemberSelection.ToggleProperties` | FinHelper/Views/GroupsView.swift:501-505 | a tap flips the tapped member, leaves other members alone, and tapping twice restores the set |
| `MemberSelection.Toggled` | FinHelper/Views/GroupAddExpenseView.swift:64-68 | the tapped member is in the result exactly when it was not selected before, and the rest of the selection is unchanged |
| `MemberSelection.SetToSeq` | FinHelper/Views/GroupsView.swift:558 | `Array(set)` lists every element of the set exactly once |
| `MemberSelection.EnumerationLength` | FinHelper/Views/GroupAddExpenseView.swift:111 | such a list is as long as the set, so it is empty exactly when the set is |
| `GroupsView.MyExpenses` | FinHelper/Views/GroupsView.swift:261-264 | the user's spending, the sum over the expenses they paid, equals what the ledger credits them (`TotalCredit`) |
| `GroupsView.MyExpensesIsCredit` | FinHelper/Views/GroupsView.swift:261-264 | the user's balance is their spending minus the shares the ledger debits them |
| `GroupsView.MyExpensesBounded` | FinHelper/Views/GroupsView.swift:261-264 | with non-negative amounts, the user's spending lies between 0 and the group total |
| `GroupsView.TotalDebt` | FinHelper/Views/GroupsView.swift:281-284 | the result is present exactly when the user is on the roster or named by an expense, and is their credits minus debits |
| `GroupsView.Debtors` | FinHelper/Views/GroupsView.swift:288-294 | the filter is never longer than the roster (which names it keeps, how often and in what order: `DebtorsProperties`, `DebtorsOccurrences`, `DebtorsCount`) |
| `GroupsView.DebtorsProperties` | FinHelper/Views/GroupsView.swift:288-294 | the debtors are exactly the roster members with a negative balance; there are none exactly when no roster member owes; the first is the first such member in roster order |
| `GroupsView.DebtorsOccurrences` | FinHelper/Views/GroupsView.swift:288-294 | a member who owes appears in the filter as often as on the roster, and nobody else appears |
| `GroupsView.DebtorsCount` | FinHelper/Views/GroupsView.swift:288-294 | on a roster without repeated names, the filter lists each member who owes exactly once, so its count is the number of roster members who owe |
| `GroupsView.NoDebtorsIff` | FinHelper/Views/GroupsView.swift:288-296 | the filter is empty exactly when no roster member has a negative balance |
| `GroupsView.NatToString` | FinHelper/Views/GroupsView.swift:301 | the interpolated count is a non-empty string of decimal digits that denotes the number (`DigitsValue`), with no leading zero |
| `GroupsView.DebtorSummary` | FinHelper/Views/GroupsView.swift:287-303 | the line is "Kimse borçlu değil" exactly when no roster member has a negative balance |
| `GroupsView.DebtorSummaryNamesFirstDebtor` | FinHelper/Views/GroupsView.swift:296-302 | otherwise the line names the first debtor in roster order, as "<name> sana borçlu" for one debtor or with "ve <n-1> kişi daha" for n of them; on a roster without repeated names, n is the number of roster members who owe |
| `GroupsView.MarkPaidOffer` | FinHelper/Views/GroupsView.swift:200-202 | the button is offered exactly for a roster member with a balance below 0 who is not the current user, and it pays `abs(debt)`, which is positive |
| `GroupsView.MarkDebtAsPaid` | FinHelper/Views/GroupsView.swift:310-319 | the returned copy has the same roster and fields, plus exactly one payment appended from the debtor to the current user |
| `GroupsView.MarkPaidSettlesDebtor` | FinHelper/Views/GroupsView.swift:310-318 | after the button: the member's balance is exactly 0; the user's falls by the amount; others are unchanged; the only possible new key is the user; the balance sum is unchanged; the user's spending is unchanged |
| `GroupsView.EditExpenseForm.constructor` | FinHelper/Views/GroupsView.swift:433-445 | the edit form starts from the expense: the payer, or ""; "split equally" when there is no split list or it equals the roster; the split entries as the selection |
| `GroupsView.EditExpenseForm.SetTitle` | FinHelper/Views/GroupsView.swift:454 | the title field takes the typed text |
| `GroupsView.EditExpenseForm.SetAmount` | FinHelper/Views/GroupsView.swift:459 | the amount field takes the typed text |
| `GroupsView.EditExpenseForm.SetCategory` | FinHelper/Views/GroupsView.swift:463 | the picker sets the category |
| `GroupsView.EditExpenseForm.SelectPayer` | FinHelper/Views/GroupsView.swift:474-477 | a tap on a roster member makes them the payer |
| `GroupsView.EditExpenseForm.SetSplitEqually` | FinHelper/Views/GroupsView.swift:492 | the segmented picker sets the split mode |
| `GroupsView.EditExpenseForm.ToggleMember` | FinHelper/Views/GroupsView.swift:500-505 | a tap removes the member if selected and inserts them otherwise |
| `GroupsView.EditExpenseForm.SaveChanges` | FinHelper/Views/GroupsView.swift:550-564 | nothing is saved exactly when the amount does not parse; otherwise the same id, date and owner with the form's fields; the split is the roster when splitting equally, else the selected members; an empty selection saves an empty split |
| `GroupsView.EditExpenseForm.SaveChangesChecked` | FinHelper/Views/GroupsView.swift:550-564 | the corrected save refuses an empty split as well, so whatever it saves has the balanced shape |
| `GroupsView.EmptySelectionBreaksConservation` | FinHelper/Views/GroupsView.swift:558 | replacing an expense of a balanced ledger by a saved one with a payer and an empty split list makes the balances sum to its amount instead of 0 |
| `GroupsView.TotalImbalanceUpdate` | FinHelper/Views/GroupsView.swift:553-560 | replacing one expense in place changes the total imbalance by the new expense's imbalance minus the old one's |
| `GroupsView.CheckedEditKeepsConservation` | FinHelper/Views/GroupsView.swift:553-560 | replacing an expense by a balanced one keeps a balanced ledger summing to 0 |
| `GroupAddExpenseView.AddExpenseForm.constructor` | FinHelper/Views/GroupAddExpenseView.swift:8-13 | the form opens empty: no payer, split equally, nothing selected, category "Diğer" |
| `GroupAddExpenseView.AddExpenseForm.SetTitle` | FinHelper/Views/GroupAddExpenseView.swift:20 | the title field takes the typed text and the form invariant is kept |
| `GroupAddExpenseView.AddExpenseForm.SetAmount` | FinHelper/Views/GroupAddExpenseView.swift:24 | the amount field takes the typed text and the form invariant is kept |
| `GroupAddExpenseView.AddExpenseForm.SetCategory` | FinHelper/Views/GroupAddExpenseView.swift:28-32 | the picker sets the category and the form invariant is kept |
| `GroupAddExpenseView.AddExpenseForm.SelectPayer` | FinHelper/Views/GroupAddExpenseView.swift:37-40 | the payer is only ever set to a roster member |
| `GroupAddExpenseView.AddExpenseForm.SetSplitEqually` | FinHelper/Views/GroupAddExpenseView.swift:56-60 | the segmented picker sets the split mode and the form invariant is kept |
| `GroupAddExpenseView.AddExpenseForm.ToggleMember` | FinHelper/Views/GroupAddExpenseView.swift:64-69 | a tap removes the member if selected and inserts them otherwise; the selection stays within the roster |
| `GroupAddExpenseView.AddExpenseForm.Valid` | FinHelper/Views/GroupAddExpenseView.swift:36-69 | the form invariant: the payer is unset or a roster member, and only roster members are selected; every tap keeps it |
| `GroupAddExpenseView.AddExpenseForm.IsFormValid` | FinHelper/Views/GroupAddExpenseView.swift:103-106 | the gate on "Ekle": title, amount and payer are non-empty, and when not splitting equally the selection is non-empty (with `Valid`: `ValidFormHasPayerAndSplit`) |
| `GroupAddExpenseView.AddExpenseForm.AddExpense` | FinHelper/Views/GroupAddExpenseView.swift:108-123 | nothing is added exactly when the amount does not parse; the split is the roster when splitting equally, else the selected members; a valid form yields a roster payer and a non-empty split |
| `GroupAddExpenseView.ValidFormHasPayerAndSplit` | FinHelper/Views/GroupAddExpenseView.swift:103-106 | a valid form has a payer on the roster, so the roster is non-empty, and a non-empty selection within the roster when not splitting equally |
| `GroupAddExpenseView.DraftKeepsConservation` | FinHelper/Views/GroupAddExpenseView.swift:104-111 | the expense built from a draft with a non-empty split keeps a balanced ledger summing to 0 |

## Findings

| source | as written | input that shows it | evidently intended | confidence | as-written member | corrected member |
|---|---|---|---|---|---|---|
| FinHelper/Views/GroupsView.swift:558 | `saveChanges` stores `Array(selectedMembers)` as the split with no check that it is non-empty; the edit form has no gate like the add form's `isFormValid` | edit a group expense, pick "Kişileri Seç", deselect every member, save: the split list is `[]`, the payer is credited the amount, and nobody is debited | refuse to save an empty split, as the add form does (GroupAddExpenseView.swift:105) | medium, not executed | `GroupsView.EmptySelectionBreaksConservation` (with `GroupsView.EditExpenseForm.SaveChanges`) | `GroupsView.EditExpenseForm.SaveChangesChecked` (with `GroupsView.CheckedEditKeepsConservation`) |

## Left out

- SwiftUI rendering is not modelled. That covers layout, navigation, sheets, tabs, `TabButton`, `SummaryCard`, `ExpenseRowView`, `CategoryIcon` and `GroupRow`; it is presentation only.
- Date and locale handling is not modelled: `formattedDate`, `formatDate`, and the day bucketing in `groupExpensesByDate`. They are calls into Foundation.
- `Double(text)` parsing and `String(format:)` are foreign calls. They appear as a `parse` parameter and as the amount text given to the edit form.
- `MainViewModel` is not part of this model: `updateGroup`, `addExpense`, `updateGroupExpense`, `deleteGroupExpense`, `deleteGroups` and `currentUser`. The screens' results are returned instead, and the current user is a `User` parameter.
- The personal wallet screens (WalletView.swift, WalletAddExpenseView.swift) are not modelled. They only forward to the view model.
- `UUID()` and `Date()` are randomness and a clock. They appear as `Uuid` and `Date` arguments. That these ids are fresh is the caller's concern.
- `Codable` serialisation and `CodingKeys` are not modelled.
- Binary floating point is not modelled. `Double` is modelled as exact `real`, so cent-level rounding drift in `amount / count` is not reproduced.
- Names are compared character by character, as sequences of Unicode scalar values. Swift compares `String`s, and looks them up as `Dictionary` keys, by canonical equivalence. That affects `contains`, `removeAll`, `paidBy == currentUser.name` and every `debts[name]` lookup (Group.swift:23-64, GroupsView.swift:200, GroupsView.swift:262). So a name spelled with a combining cedilla ("s" followed by U+0327) and the same name with the precomposed "ş" are one member in the app but two keys in this model. Unicode normalisation is outside Dafny's strings.
- `GroupsView.MarkDebtAsPaid` does not model the hand-over of the copied group to `viewModel.updateGroup`. It returns the copy instead.
