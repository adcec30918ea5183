/**
 * The expense record of FinHelper (FinHelper/Models/Expense.swift): one
 * outlay, either personal (no payer, no split) or shared in a group (a payer
 * and the list of members who share it). Amounts are exact reals; the app's
 * binary floating point is not reproduced.
 */
module ExpenseModel {
  import opened Options

  /** An expense id. The app draws a random UUID; here the caller supplies it. */
  datatype Uuid = Uuid(value: nat)

  /** A point in time, in seconds. The app reads the clock; here it is a parameter. */
  datatype Date = Date(seconds: int)

  /** The five expense categories, in declaration order. */
  datatype ExpenseCategory = Food | Transportation | Accommodation | Health | Other {

    /** The Turkish label the app stores and shows for the category. */
    function RawValue(): (r: string)
      ensures |r| > 0
    {
      match this
      case Food => "Yemek"
      case Transportation => "Ulaşım"
      case Accommodation => "Konaklama"
      case Health => "Sağlık"
      case Other => "Diğer"
    }

    /** The emoji the app shows for the category. */
    function Icon(): (r: string)
      ensures |r| > 0
    {
      match this
      case Food => "\U{1F37D}\U{FE0F}"
      case Transportation => "\U{1F697}"
      case Accommodation => "\U{1F3E8}"
      case Health => "\U{1F48A}"
      case Other => "\U{1F4E6}"
    }
  }

  /** Every category once, in declaration order (Swift's `allCases`). */
  function AllCategories(): (r: seq<ExpenseCategory>)
    ensures |r| == 5
    ensures forall i, j :: 0 <= i < j < |r| ==> r[i] != r[j]
  {
    [Food, Transportation, Accommodation, Health, Other]
  }

  /** Every category is listed in `AllCategories`. */
  lemma AllCategoriesComplete(c: ExpenseCategory)
    ensures c in AllCategories()
  {
    var all := AllCategories();
    match c
    case Food => assert all[0] == c;
    case Transportation => assert all[1] == c;
    case Accommodation => assert all[2] == c;
    case Health => assert all[3] == c;
    case Other => assert all[4] == c;
  }

  /** Different categories have different labels and different icons. */
  lemma CategoryLabelsDistinct(c: ExpenseCategory, d: ExpenseCategory)
    requires c != d
    ensures c.RawValue() != d.RawValue()
    ensures c.Icon() != d.Icon()
  {
  }

  datatype Expense = Expense(
    id: Uuid,
    title: string,
    amount: real,
    date: Date,
    category: ExpenseCategory,
    paidBy: Option<string>,
    splitBetween: Option<seq<string>>,
    userId: string)

  /**
   * The share each entry of the split list is debited: the whole amount when
   * there is no split list or it is empty, otherwise the amount divided by the
   * length of the list, duplicates counted.
   */
  function AmountPerPerson(e: Expense): (r: real)
    ensures e.splitBetween == None || e.splitBetween == Some([]) ==> r == e.amount
    ensures e.splitBetween.Some? && |e.splitBetween.value| > 0 ==>
              r * (|e.splitBetween.value| as real) == e.amount
  {
    match e.splitBetween
    case None => e.amount
    case Some(split) =>
      if |split| == 0 then e.amount else e.amount / (|split| as real)
  }

  /** The personal-expense initialiser: no payer and no split list. */
  function PersonalExpense(id: Uuid, title: string, amount: real, date: Date,
                           category: ExpenseCategory, userId: string): (e: Expense)
    ensures e.paidBy == None && e.splitBetween == None
    ensures e.id == id && e.title == title && e.amount == amount && e.date == date
    ensures e.category == category && e.userId == userId
  {
    Expense(id, title, amount, date, category, None, None, userId)
  }

  /** The group-expense initialiser: the payer and split list are stored as given. */
  function GroupExpense(id: Uuid, title: string, amount: real, date: Date,
                        category: ExpenseCategory, paidBy: string,
                        splitBetween: seq<string>, userId: string): (e: Expense)
    ensures e.paidBy == Some(paidBy) && e.splitBetween == Some(splitBetween)
    ensures e.id == id && e.title == title && e.amount == amount && e.date == date
    ensures e.category == category && e.userId == userId
  {
    Expense(id, title, amount, date, category, Some(paidBy), Some(splitBetween), userId)
  }

  /** A shared expense whose split list is not empty: the shape that conserves money. */
  predicate IsBalancedShape(e: Expense) {
    e.paidBy.Some? && e.splitBetween.Some? && |e.splitBetween.value| > 0
  }

  /** The share of a personal expense is the whole amount. */
  lemma PersonalShareIsWholeAmount(id: Uuid, title: string, amount: real, date: Date,
                                   category: ExpenseCategory, userId: string)
    ensures AmountPerPerson(PersonalExpense(id, title, amount, date, category, userId)) == amount
    ensures !IsBalancedShape(PersonalExpense(id, title, amount, date, category, userId))
  {
  }

  /** A group expense with a non-empty split has shares that add back up to its amount. */
  lemma GroupSharesAddUp(id: Uuid, title: string, amount: real, date: Date,
                         category: ExpenseCategory, paidBy: string,
                         split: seq<string>, userId: string)
    requires |split| > 0
    ensures var e := GroupExpense(id, title, amount, date, category, paidBy, split, userId);
            IsBalancedShape(e) && AmountPerPerson(e) * (|split| as real) == amount
  {
  }
}
