/**
 * The new-expense form of a group (FinHelper/Views/GroupAddExpenseView.swift):
 * its state, the taps that change it, the gate on the "Ekle" button and what
 * the form hands to the view model when it is pressed.
 */
module GroupAddExpenseView {
  import opened Options
  import opened ExpenseModel
  import opened GroupModel
  import opened MemberSelection

  /** The arguments the form passes to the view model's addExpense. */
  datatype ExpenseDraft = ExpenseDraft(
    title: string,
    amount: real,
    paidBy: string,
    splitBetween: seq<string>,
    category: ExpenseCategory)

  /**
   * The shared expense a draft describes, built with the group initialiser;
   * the view model that builds it is not part of this model.
   */
  function DraftExpense(d: ExpenseDraft, id: Uuid, date: Date, userId: string): Expense {
    GroupExpense(id, d.title, d.amount, date, d.category, d.paidBy, d.splitBetween, userId)
  }

  class AddExpenseForm {
    const members: seq<string>
    var title: string
    var amount: string
    var selectedCategory: ExpenseCategory
    var paidBy: string
    var splitEqually: bool
    var selectedMembers: set<string>

    /** The payer is unset or a roster member, and only roster members are selected. */
    ghost predicate Valid()
      reads this
    {
      && (paidBy == "" || paidBy in members)
      && selectedMembers <= set m | m in members
    }

    /** The form as it opens for the group's roster `members`. */
    constructor (members: seq<string>)
      ensures Valid()
      ensures this.members == members
      ensures title == "" && amount == "" && selectedCategory == Other
      ensures paidBy == "" && splitEqually && selectedMembers == {}
    {
      this.members := members;
      title := "";
      amount := "";
      selectedCategory := Other;
      paidBy := "";
      splitEqually := true;
      selectedMembers := {};
    }

    method SetTitle(text: string)
      requires Valid()
      modifies this`title
      ensures Valid() && title == text
    {
      title := text;
    }

    method SetAmount(text: string)
      requires Valid()
      modifies this`amount
      ensures Valid() && amount == text
    {
      amount := text;
    }

    method SetCategory(category: ExpenseCategory)
      requires Valid()
      modifies this`selectedCategory
      ensures Valid() && selectedCategory == category
    {
      selectedCategory := category;
    }

    method SetSplitEqually(equally: bool)
      requires Valid()
      modifies this`splitEqually
      ensures Valid() && splitEqually == equally
    {
      splitEqually := equally;
    }

    /** A tap on a roster member in the payer section. */
    method SelectPayer(member: string)
      requires Valid() && member in members
      modifies this`paidBy
      ensures Valid() && paidBy == member
    {
      paidBy := member;
    }

    /** A tap on a roster member in the split section. */
    method ToggleMember(member: string)
      requires Valid() && member in members
      modifies this`selectedMembers
      ensures Valid()
      ensures selectedMembers == Toggled(old(selectedMembers), member)
    {
      if member in selectedMembers {
        selectedMembers := selectedMembers - {member};
      } else {
        selectedMembers := selectedMembers + {member};
      }
    }

    /** The gate on the "Ekle" button. */
    predicate IsFormValid()
      reads this
    {
      title != "" && amount != "" && paidBy != ""
      && (splitEqually || (!splitEqually && selectedMembers != {}))
    }

    /**
     * The button's action: nothing when the amount text does not parse
     * (`parse` stands for `Double(_:)`), otherwise the draft with the whole
     * roster as split when splitting equally and the selected members
     * otherwise.
     */
    method AddExpense(parse: string -> Option<real>) returns (draft: Option<ExpenseDraft>)
      ensures draft.None? <==> parse(amount).None?
      ensures draft.Some? ==>
                var d := draft.value;
                && d.title == title && d.amount == parse(amount).value
                && d.paidBy == paidBy && d.category == selectedCategory
                && (splitEqually ==> d.splitBetween == members)
                && (!splitEqually ==> IsEnumeration(d.splitBetween, selectedMembers))
      ensures draft.Some? && Valid() && IsFormValid() ==>
                draft.value.paidBy in members && |draft.value.splitBetween| > 0
    {
      var amountValue := parse(amount);
      if amountValue.None? {
        return None;
      }
      var splitBetween: seq<string>;
      if splitEqually {
        splitBetween := members;
      } else {
        splitBetween := SetToSeq(selectedMembers);
        EnumerationLength(splitBetween, selectedMembers);
      }
      draft := Some(ExpenseDraft(title, amountValue.value, paidBy, splitBetween, selectedCategory));
    }
  }

  /**
   * A valid form names a roster member as payer, so the roster is not empty
   * and the chosen split list is not empty either.
   */
  lemma ValidFormHasPayerAndSplit(form: AddExpenseForm)
    requires form.Valid() && form.IsFormValid()
    ensures form.paidBy in form.members
    ensures |form.members| > 0
    ensures !form.splitEqually ==> form.selectedMembers != {} && form.selectedMembers <= set m | m in form.members
  {
  }

  /**
   * An expense built from a draft with a non-empty split keeps a ledger of
   * balanced expenses summing to 0.
   */
  lemma DraftKeepsConservation(members: seq<string>, expenses: seq<Expense>, d: ExpenseDraft,
                               id: Uuid, date: Date, userId: string)
    requires forall e :: e in expenses ==> IsBalancedShape(e)
    requires |d.splitBetween| > 0
    ensures SumValues(Balances(members, expenses + [DraftExpense(d, id, date, userId)])) == 0.0
  {
    var e := DraftExpense(d, id, date, userId);
    assert IsBalancedShape(e);
    forall x | x in expenses + [e]
      ensures IsBalancedShape(x)
    {
      if x != e {
        assert x in expenses;
      }
    }
    Conservation(members, expenses + [e]);
  }
}
