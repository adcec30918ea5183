/**
 * The logic of FinHelper's group screens (FinHelper/Views/GroupsView.swift)
 * that reads or changes the ledger: the current user's own spending, their
 * balance, the "who owes me" line, the mark-as-paid action, and the
 * expense detail form with its save rule. Rendering is not modelled.
 */
module GroupsView {
  import opened Options
  import opened ExpenseModel
  import opened GroupModel
  import opened MemberSelection

  /** The signed-in user: the name used on rosters and the id stamped on expenses. */
  datatype User = User(id: string, name: string)

  // ---------------------------------------------------------------------------
  // calculateMyExpenses
  // ---------------------------------------------------------------------------

  /** The expenses paid by `name`, in list order. */
  function PaidBy(expenses: seq<Expense>, name: string): seq<Expense>
    decreases |expenses|
  {
    if expenses == [] then []
    else
      var last := expenses[|expenses| - 1];
      PaidBy(expenses[..|expenses| - 1], name) + (if last.paidBy == Some(name) then [last] else [])
  }

  /**
   * What the current user paid for: the amounts of the expenses they paid,
   * added up, which is exactly what the ledger credits them.
   */
  function MyExpenses(expenses: seq<Expense>, name: string): (r: real)
    ensures r == TotalCredit(expenses, name)
  {
    PaidByCredit(expenses, name);
    Total(PaidBy(expenses, name))
  }

  lemma {:induction false} PaidByCredit(expenses: seq<Expense>, name: string)
    ensures Total(PaidBy(expenses, name)) == TotalCredit(expenses, name)
    decreases |expenses|
  {
    if expenses != [] {
      var init := expenses[..|expenses| - 1];
      var last := expenses[|expenses| - 1];
      PaidByCredit(init, name);
      if last.paidBy == Some(name) {
        TotalAppend(PaidBy(init, name), last);
      } else {
        assert PaidBy(expenses, name) == PaidBy(init, name);
      }
    }
  }

  /** The user's balance is their own spending minus their shares. */
  lemma MyExpensesIsCredit(members: seq<string>, expenses: seq<Expense>, name: string)
    ensures Get(Balances(members, expenses), name) == MyExpenses(expenses, name) - TotalDebit(expenses, name)
  {
    BalancesAt(members, expenses, name);
  }

  /** With no negative amounts, the user's spending lies between 0 and the group total. */
  lemma {:induction false} MyExpensesBounded(expenses: seq<Expense>, name: string)
    requires forall e :: e in expenses ==> e.amount >= 0.0
    ensures 0.0 <= MyExpenses(expenses, name) <= Total(expenses)
    decreases |expenses|
  {
    if expenses != [] {
      var init := expenses[..|expenses| - 1];
      var last := expenses[|expenses| - 1];
      assert forall e :: e in init ==> e in expenses;
      MyExpensesBounded(init, name);
      assert last in expenses;
      if last.paidBy == Some(name) {
        TotalAppend(PaidBy(init, name), last);
      } else {
        assert PaidBy(expenses, name) == PaidBy(init, name);
      }
    }
  }

  // ---------------------------------------------------------------------------
  // calculateTotalDebt
  // ---------------------------------------------------------------------------

  /** The user's entry in calculateDebts, if they have one. */
  function TotalDebt(members: seq<string>, expenses: seq<Expense>, name: string): (r: Option<real>)
    ensures r.Some? <==> name in members || name in Participants(expenses)
    ensures r.Some? ==> r.value == TotalCredit(expenses, name) - TotalDebit(expenses, name)
  {
    BalancesAt(members, expenses, name);
    var debts := Balances(members, expenses);
    if name in debts then Some(debts[name]) else None
  }

  // ---------------------------------------------------------------------------
  // getBorclular
  // ---------------------------------------------------------------------------

  /** The roster members with a negative balance, in roster order. */
  function Debtors(members: seq<string>, debts: map<string, real>): (r: seq<string>)
    ensures |r| <= |members|
    decreases |members|
  {
    if members == [] then []
    else
      var last := members[|members| - 1];
      Debtors(members[..|members| - 1], debts)
      + (if last in debts && debts[last] < 0.0 then [last] else [])
  }

  predicate OwesTheGroup(debts: map<string, real>, member: string) {
    member in debts && debts[member] < 0.0
  }

  /**
   * The debtors are exactly the roster members who owe, and the first of
   * them is the first such member in roster order.
   */
  lemma {:induction false} DebtorsProperties(members: seq<string>, debts: map<string, real>, x: string)
    ensures x in Debtors(members, debts) <==> x in members && OwesTheGroup(debts, x)
    ensures |Debtors(members, debts)| == 0 <==> forall i :: 0 <= i < |members| ==> !OwesTheGroup(debts, members[i])
    ensures |Debtors(members, debts)| > 0 ==>
              exists i :: 0 <= i < |members| && members[i] == Debtors(members, debts)[0]
                          && OwesTheGroup(debts, members[i])
                          && forall j :: 0 <= j < i ==> !OwesTheGroup(debts, members[j])
    decreases |members|
  {
    if members != [] {
      var init := members[..|members| - 1];
      var last := members[|members| - 1];
      DebtorsProperties(init, debts, x);
      assert members == init + [last];
      var d0 := Debtors(init, debts);
      if |d0| > 0 {
        var i :| 0 <= i < |init| && init[i] == d0[0] && OwesTheGroup(debts, init[i])
                 && forall j :: 0 <= j < i ==> !OwesTheGroup(debts, init[j]);
        assert members[i] == init[i];
      } else if OwesTheGroup(debts, last) {
        assert Debtors(members, debts)[0] == members[|members| - 1];
      }
    }
  }

  /** A member who owes is listed once per roster occurrence; nobody else is listed. */
  lemma {:induction false} DebtorsOccurrences(members: seq<string>, debts: map<string, real>, x: string)
    ensures Occurrences(Debtors(members, debts), x) == if OwesTheGroup(debts, x) then Occurrences(members, x) else 0
    decreases |members|
  {
    if members != [] {
      var init := members[..|members| - 1];
      var last := members[|members| - 1];
      DebtorsOccurrences(init, debts, x);
      OccurrencesAppend(Debtors(init, debts), if OwesTheGroup(debts, last) then [last] else [], x);
      assert [last][..0] == [];
    }
  }

  /**
   * On a roster without repeated names, the debtors list each member who owes
   * exactly once, so their count is the number of roster members who owe.
   */
  lemma {:induction false} DebtorsCount(members: seq<string>, debts: map<string, real>)
    requires NoDuplicates(members)
    ensures IsEnumeration(Debtors(members, debts), Owing(members, debts))
    ensures |Debtors(members, debts)| == |Owing(members, debts)|
    decreases |members|
  {
    if members != [] {
      var init := members[..|members| - 1];
      var last := members[|members| - 1];
      var d0 := Debtors(init, debts);
      var tail := if OwesTheGroup(debts, last) then [last] else [];
      assert Debtors(members, debts) == d0 + tail;
      NoDuplicatesInit(members);
      DebtorsCount(init, debts);
      DebtorsProperties(init, debts, last);
      NoDuplicatesAppendFresh(d0, tail);
      OwingSplit(members, debts);
      SetOfAppend(d0, tail);
      assert (set x | x in tail) == if OwesTheGroup(debts, last) then {last} else {};
    }
    EnumerationLength(Debtors(members, debts), Owing(members, debts));
  }

  /** The roster members who owe, as a set. */
  function Owing(members: seq<string>, debts: map<string, real>): set<string> {
    set m | m in members && OwesTheGroup(debts, m)
  }

  lemma OwingSplit(members: seq<string>, debts: map<string, real>)
    requires members != []
    ensures var last := members[|members| - 1];
            Owing(members, debts)
            == Owing(members[..|members| - 1], debts) + (if OwesTheGroup(debts, last) then {last} else {})
  {
    assert members == members[..|members| - 1] + [members[|members| - 1]];
  }

  lemma SetOfAppend(a: seq<string>, b: seq<string>)
    ensures (set x | x in a + b) == (set x | x in a) + (set x | x in b)
  {
  }

  lemma NoDuplicatesInit(s: seq<string>)
    requires NoDuplicates(s) && s != []
    ensures NoDuplicates(s[..|s| - 1]) && s[|s| - 1] !in s[..|s| - 1]
  {
  }

  lemma NoDuplicatesAppendFresh(s: seq<string>, t: seq<string>)
    requires NoDuplicates(s) && |t| <= 1 && (t != [] ==> t[0] !in s)
    ensures NoDuplicates(s + t)
  {
    forall i, j | 0 <= i < j < |s + t|
      ensures (s + t)[i] != (s + t)[j]
    {
      if j >= |s| {
        assert (s + t)[i] == s[i] && (s + t)[j] == t[0];
      }
    }
  }

  /** The value of a decimal digit; any other character counts as 0. */
  function DigitValue(c: char): nat {
    if '0' <= c <= '9' then (c as int) - ('0' as int) else 0
  }

  /** The number a string of decimal digits denotes, most significant digit first. */
  function DigitsValue(s: string): nat
    decreases |s|
  {
    if s == [] then 0 else DigitsValue(s[..|s| - 1]) * 10 + DigitValue(s[|s| - 1])
  }

  /**
   * Decimal digits of a count, as string interpolation prints it: the digits
   * denote `n`, and there is no leading zero.
   */
  function NatToString(n: nat): (r: string)
    ensures |r| > 0
    ensures forall i :: 0 <= i < |r| ==> '0' <= r[i] <= '9'
    ensures DigitsValue(r) == n
    ensures n > 0 ==> r[0] != '0'
    decreases n
  {
    var digit := ['0' + ((n % 10) as char)];
    assert DigitValue(digit[0]) == n % 10;
    if n < 10 then
      assert digit[..0] == [];
      digit
    else
      var high := NatToString(n / 10);
      assert (high + digit)[..|high + digit| - 1] == high;
      high + digit
  }

  const NoDebtorsMessage: string := "Kimse borçlu değil"

  /** Nobody is listed exactly when no roster member has a negative balance. */
  lemma NoDebtorsIff(members: seq<string>, debts: map<string, real>)
    ensures |Debtors(members, debts)| == 0 <==> forall m :: m in members ==> Get(debts, m) >= 0.0
  {
    DebtorsProperties(members, debts, "");
    if |Debtors(members, debts)| > 0 {
      var i :| 0 <= i < |members| && members[i] == Debtors(members, debts)[0] && OwesTheGroup(debts, members[i]);
      assert members[i] in members;
    } else {
      forall m | m in members
        ensures Get(debts, m) >= 0.0
      {
        var i :| 0 <= i < |members| && members[i] == m;
      }
    }
  }

  /** The text getBorclular builds from the list of debtors. */
  function SummaryLine(debtors: seq<string>): string {
    if |debtors| == 0 then NoDebtorsMessage
    else if |debtors| == 1 then debtors[0] + " sana borçlu"
    else debtors[0] + " ve " + NatToString(|debtors| - 1) + " kişi daha sana borçlu"
  }

  /**
   * The "who owes me" line under the balance card; it reads "Kimse borçlu
   * değil" exactly when no roster member has a negative balance.
   */
  function DebtorSummary(members: seq<string>, expenses: seq<Expense>): (r: string)
    ensures r == NoDebtorsMessage <==> forall m :: m in members ==> Get(Balances(members, expenses), m) >= 0.0
  {
    var debtors := Debtors(members, Balances(members, expenses));
    NoDebtorsIff(members, Balances(members, expenses));
    var line := SummaryLine(debtors);
    assert |debtors| > 0 ==> line[|line| - 1] != NoDebtorsMessage[|NoDebtorsMessage| - 1];
    line
  }

  /**
   * Otherwise the line names the first debtor in roster order, alone when
   * there is one, and with the count of the others when there are more; on a
   * roster without repeated names that count is the number of members who
   * owe, less one.
   */
  lemma DebtorSummaryNamesFirstDebtor(members: seq<string>, expenses: seq<Expense>)
    requires exists m :: m in members && Get(Balances(members, expenses), m) < 0.0
    ensures var debts := Balances(members, expenses);
            var n := |Debtors(members, debts)|;
            && (NoDuplicates(members) ==> n == |Owing(members, debts)|)
            && n > 0
            && exists i :: 0 <= i < |members| && OwesTheGroup(debts, members[i])
                        && (forall j :: 0 <= j < i ==> !OwesTheGroup(debts, members[j]))
                        && DebtorSummary(members, expenses)
                           == if n <= 1 then members[i] + " sana borçlu"
                              else members[i] + " ve " + NatToString(n - 1) + " kişi daha sana borçlu"
  {
    var debts := Balances(members, expenses);
    var m :| m in members && Get(debts, m) < 0.0;
    assert DebtorSummary(members, expenses) == SummaryLine(Debtors(members, debts));
    FirstDebtorLine(members, debts, m);
  }

  lemma FirstDebtorLine(members: seq<string>, debts: map<string, real>, m: string)
    requires m in members && OwesTheGroup(debts, m)
    ensures NoDuplicates(members) ==> |Debtors(members, debts)| == |Owing(members, debts)|
    ensures |Debtors(members, debts)| > 0
    ensures var n := |Debtors(members, debts)|;
            exists i :: 0 <= i < |members| && OwesTheGroup(debts, members[i])
                        && (forall j :: 0 <= j < i ==> !OwesTheGroup(debts, members[j]))
                        && SummaryLine(Debtors(members, debts))
                           == if n <= 1 then members[i] + " sana borçlu"
                              else members[i] + " ve " + NatToString(n - 1) + " kişi daha sana borçlu"
  {
    if NoDuplicates(members) {
      DebtorsCount(members, debts);
    }
    var debtors := Debtors(members, debts);
    var n := |debtors|;
    DebtorsProperties(members, debts, m);
    var i :| 0 <= i < |members| && members[i] == debtors[0] && OwesTheGroup(debts, members[i])
             && forall j :: 0 <= j < i ==> !OwesTheGroup(debts, members[j]);
    assert SummaryLine(debtors)
           == if n <= 1 then members[i] + " sana borçlu"
              else members[i] + " ve " + NatToString(n - 1) + " kişi daha sana borçlu";
  }

  // ---------------------------------------------------------------------------
  // The mark-as-paid button and markDebtAsPaid
  // ---------------------------------------------------------------------------

  function Abs(x: real): real {
    if x < 0.0 then -x else x
  }

  /**
   * The button on a roster member's balance row: offered when the member has
   * a balance below 0 and is not the current user, and it pays `abs(debt)`.
   */
  function MarkPaidOffer(members: seq<string>, expenses: seq<Expense>, member: string, user: User): (r: Option<real>)
    requires member in members
    ensures r.Some? <==> Get(Balances(members, expenses), member) < 0.0 && member != user.name
    ensures r.Some? ==> r.value > 0.0 && r.value == -Get(Balances(members, expenses), member)
  {
    BalancesAt(members, expenses, member);
    var debts := Balances(members, expenses);
    var debt := debts[member];
    if debt < 0.0 && member != user.name then Some(Abs(debt)) else None
  }

  /**
   * The screen's markDebtAsPaid: a copy of the group with one payment from the
   * debtor to the current user appended. `now` and `paymentId` stand for the
   * clock and the random UUID; the copy is handed to the view model.
   */
  method MarkDebtAsPaid(group: Group, debtor: string, amount: real, user: User,
                        now: Date, paymentId: Uuid) returns (updatedGroup: Group)
    ensures fresh(updatedGroup)
    ensures updatedGroup.members == group.members
    ensures updatedGroup.expenses == group.expenses + [PaymentExpense(paymentId, debtor, user.name, amount, now, user.id)]
    ensures updatedGroup.id == group.id && updatedGroup.name == group.name
    ensures updatedGroup.date == group.date && updatedGroup.icon == group.icon
  {
    updatedGroup := group.Copy();
    updatedGroup.MarkDebtAsPaid(debtor, user.name, amount, user.id, now, paymentId);
  }

  /**
   * Pressing the button settles the member: their balance becomes exactly 0,
   * the current user's falls by the amount paid, nobody else changes, the
   * sum of all balances stays what it was, and the user's own spending is
   * unchanged.
   */
  lemma MarkPaidSettlesDebtor(members: seq<string>, expenses: seq<Expense>, member: string, user: User,
                              now: Date, paymentId: Uuid, x: string)
    requires member in members
    requires MarkPaidOffer(members, expenses, member, user).Some?
    ensures var a := MarkPaidOffer(members, expenses, member, user).value;
            var before := Balances(members, expenses);
            var after := Balances(members, expenses + [PaymentExpense(paymentId, member, user.name, a, now, user.id)]);
            && Get(after, member) == 0.0
            && Get(after, user.name) == Get(before, user.name) - a
            && (x != member && x != user.name ==> Get(after, x) == Get(before, x))
            && after.Keys == before.Keys + {user.name}
            && SumValues(after) == SumValues(before)
            && MyExpenses(expenses + [PaymentExpense(paymentId, member, user.name, a, now, user.id)], user.name)
               == MyExpenses(expenses, user.name)
  {
    var a := MarkPaidOffer(members, expenses, member, user).value;
    var payment := PaymentExpense(paymentId, member, user.name, a, now, user.id);
    var before := Balances(members, expenses);
    BalancesAppend(members, expenses, payment);
    PaymentEffect(before, paymentId, member, user.name, a, now, user.id, x);
    BalancesAt(members, expenses, member);
    ApplyExpenseSum(before, payment);
    assert PaidBy(expenses + [payment], user.name) == PaidBy(expenses, user.name) by {
      assert (expenses + [payment])[..|expenses|] == expenses;
    }
  }

  // ---------------------------------------------------------------------------
  // GroupExpenseDetailView: editing an expense
  // ---------------------------------------------------------------------------

  /** The state of the expense detail form, initialised from the expense being edited. */
  class EditExpenseForm {
    const expense: Expense
    const members: seq<string>
    var title: string
    var amount: string
    var selectedCategory: ExpenseCategory
    var paidBy: string
    var splitEqually: bool
    var selectedMembers: set<string>

    /** `amountText` is the amount as `String(format: "%.2f")` prints it. */
    constructor (expense: Expense, members: seq<string>, amountText: string)
      ensures this.expense == expense && this.members == members
      ensures title == expense.title && amount == amountText
      ensures selectedCategory == expense.category
      ensures paidBy == expense.paidBy.GetOr("")
      ensures splitEqually == (expense.splitBetween == None || expense.splitBetween == Some(members))
      ensures selectedMembers == set x | x in expense.splitBetween.GetOr([])
    {
      this.expense := expense;
      this.members := members;
      title := expense.title;
      amount := amountText;
      selectedCategory := expense.category;
      paidBy := expense.paidBy.GetOr("");
      splitEqually := expense.splitBetween == None || expense.splitBetween == Some(members);
      selectedMembers := set x | x in expense.splitBetween.GetOr([]);
    }

    method SetTitle(text: string)
      modifies this`title
      ensures title == text
    {
      title := text;
    }

    method SetAmount(text: string)
      modifies this`amount
      ensures amount == text
    {
      amount := text;
    }

    method SetCategory(category: ExpenseCategory)
      modifies this`selectedCategory
      ensures selectedCategory == category
    {
      selectedCategory := category;
    }

    method SetSplitEqually(equally: bool)
      modifies this`splitEqually
      ensures splitEqually == equally
    {
      splitEqually := equally;
    }

    /** A tap on a roster member in the payer section. */
    method SelectPayer(member: string)
      requires member in members
      modifies this`paidBy
      ensures paidBy == member
    {
      paidBy := member;
    }

    /** A tap on a roster member in the split section. */
    method ToggleMember(member: string)
      requires member in members
      modifies this`selectedMembers
      ensures selectedMembers == Toggled(old(selectedMembers), member)
    {
      if member in selectedMembers {
        selectedMembers := selectedMembers - {member};
      } else {
        selectedMembers := selectedMembers + {member};
      }
    }

    /**
     * saveChanges: when the amount text parses, the expense with the form's
     * fields, the same id, date and owner, and the split list chosen by the
     * split rule (the whole roster, or the selected members). `parse` stands
     * for `Double(_:)`.
     */
    method SaveChanges(parse: string -> Option<real>) returns (updated: Option<Expense>)
      ensures updated.None? <==> parse(amount).None?
      ensures updated.Some? ==>
                var u := updated.value;
                && u.id == expense.id && u.date == expense.date && u.userId == expense.userId
                && u.title == title && u.amount == parse(amount).value
                && u.category == selectedCategory && u.paidBy == Some(paidBy)
                && u.splitBetween.Some?
                && (splitEqually ==> u.splitBetween.value == members)
                && (!splitEqually ==> IsEnumeration(u.splitBetween.value, selectedMembers))
      ensures updated.Some? && !splitEqually && selectedMembers == {} ==>
                updated.value.splitBetween == Some([])
    {
      var amountValue := parse(amount);
      if amountValue.None? {
        return None;
      }
      var updatedExpense := expense;
      updatedExpense := updatedExpense.(title := title);
      updatedExpense := updatedExpense.(amount := amountValue.value);
      updatedExpense := updatedExpense.(category := selectedCategory);
      updatedExpense := updatedExpense.(paidBy := Some(paidBy));
      var split: seq<string>;
      if splitEqually {
        split := members;
      } else {
        split := SetToSeq(selectedMembers);
        EnumerationLength(split, selectedMembers);
      }
      updatedExpense := updatedExpense.(splitBetween := Some(split));
      return Some(updatedExpense);
    }

    /**
     * saveChanges with the guard the add form has: nothing is saved when the
     * chosen split list would be empty, so a saved expense always has the
     * shape that conserves money.
     */
    method SaveChangesChecked(parse: string -> Option<real>) returns (updated: Option<Expense>)
      ensures updated.None? <==> parse(amount).None? || (splitEqually && members == []) || (!splitEqually && selectedMembers == {})
      ensures updated.Some? ==>
                var u := updated.value;
                && IsBalancedShape(u)
                && u.id == expense.id && u.date == expense.date && u.userId == expense.userId
                && u.title == title && u.amount == parse(amount).value
                && u.category == selectedCategory && u.paidBy == Some(paidBy)
                && (splitEqually ==> u.splitBetween.value == members)
                && (!splitEqually ==> IsEnumeration(u.splitBetween.value, selectedMembers))
    {
      if (splitEqually && members == []) || (!splitEqually && selectedMembers == {}) {
        return None;
      }
      updated := SaveChanges(parse);
      if updated.Some? && !splitEqually {
        EnumerationLength(updated.value.splitBetween.value, selectedMembers);
      }
    }
  }

  /**
   * As written, saving the detail form with "select members" and nobody
   * selected replaces the expense by one whose payer is credited with nobody
   * debited: the balances then sum to its amount instead of 0.
   */
  lemma EmptySelectionBreaksConservation(members: seq<string>, expenses: seq<Expense>, i: nat, saved: Expense)
    requires forall e :: e in expenses ==> IsBalancedShape(e)
    requires i < |expenses| && saved.paidBy.Some? && saved.splitBetween == Some([])
    ensures SumValues(Balances(members, expenses[i := saved])) == saved.amount
  {
    BalanceSum(members, expenses[i := saved]);
    TotalImbalanceUpdate(expenses, i, saved);
    BalancedShapesHaveNoImbalance(expenses);
    assert IsBalancedShape(expenses[i]);
  }

  /** Replacing one expense changes the total imbalance by the difference of the two. */
  lemma {:induction false} TotalImbalanceUpdate(expenses: seq<Expense>, i: nat, e: Expense)
    requires i < |expenses|
    ensures TotalImbalance(expenses[i := e]) == TotalImbalance(expenses) - Imbalance(expenses[i]) + Imbalance(e)
    decreases |expenses|
  {
    var init := expenses[..|expenses| - 1];
    if i == |expenses| - 1 {
      assert expenses[i := e][..|expenses| - 1] == init;
    } else {
      assert expenses[i := e][..|expenses| - 1] == init[i := e];
      TotalImbalanceUpdate(init, i, e);
    }
  }

  /** Replacing one expense by a balanced one keeps a balanced ledger summing to 0. */
  lemma CheckedEditKeepsConservation(members: seq<string>, expenses: seq<Expense>, i: nat, saved: Expense)
    requires forall e :: e in expenses ==> IsBalancedShape(e)
    requires i < |expenses| && IsBalancedShape(saved)
    ensures SumValues(Balances(members, expenses[i := saved])) == 0.0
  {
    forall e | e in expenses[i := saved]
      ensures IsBalancedShape(e)
    {
      var j :| 0 <= j < |expenses[i := saved]| && expenses[i := saved][j] == e;
      if j != i {
        assert expenses[j] in expenses;
      }
    }
    Conservation(members, expenses[i := saved]);
  }
}
