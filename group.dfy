/**
 * The group ledger of FinHelper (FinHelper/Models/Group.swift): a roster of
 * member names, a list of expenses, and the balance engine that folds the
 * expenses into a signed balance per member (positive: the group owes the
 * member; negative: the member owes the group).
 *
 * The pure functions below are the specification; the class `Group` is the
 * mutable struct of the app, and its `CalculateDebts` loop is proved to
 * compute `Balances`.
 */
module GroupModel {
  import opened Options
  import opened ExpenseModel

  // ---------------------------------------------------------------------------
  // Balances: the specification of calculateDebts
  // ---------------------------------------------------------------------------

  /** A balance lookup with Swift's `default: 0`: a name that is not a key reads as 0. */
  function Get(b: map<string, real>, x: string): real {
    if x in b then b[x] else 0.0
  }

  /** Every roster member mapped to 0. */
  function InitialBalances(members: seq<string>): map<string, real> {
    map m | m in members :: 0.0
  }

  /** The payer of `e`, if any, is credited the full amount. */
  function Credit(b: map<string, real>, e: Expense): map<string, real> {
    match e.paidBy
    case None => b
    case Some(p) => b[p := Get(b, p) + e.amount]
  }

  /** Each entry of `split`, in order, is debited `share`. */
  function DebitEach(b: map<string, real>, split: seq<string>, share: real): map<string, real>
    decreases |split|
  {
    if split == [] then b
    else
      var before := DebitEach(b, split[..|split| - 1], share);
      var person := split[|split| - 1];
      before[person := Get(before, person) - share]
  }

  /** The effect of one expense: credit the payer, then debit every split entry its share. */
  function ApplyExpense(b: map<string, real>, e: Expense): map<string, real> {
    var credited := Credit(b, e);
    match e.splitBetween
    case None => credited
    case Some(split) => DebitEach(credited, split, AmountPerPerson(e))
  }

  /** The expenses applied one after another, in list order. */
  function ApplyAll(b: map<string, real>, expenses: seq<Expense>): map<string, real>
    decreases |expenses|
  {
    if expenses == [] then b
    else ApplyExpense(ApplyAll(b, expenses[..|expenses| - 1]), expenses[|expenses| - 1])
  }

  /**
   * What calculateDebts returns for a roster and an expense list: a key for
   * every roster member and every name an expense mentions, and no other.
   */
  function Balances(members: seq<string>, expenses: seq<Expense>): (r: map<string, real>)
    ensures r.Keys == (set m | m in members) + Participants(expenses)
  {
    ApplyAllAt(InitialBalances(members), expenses, "");
    ApplyAll(InitialBalances(members), expenses)
  }

  // ---------------------------------------------------------------------------
  // Reference quantities the balances are compared with
  // ---------------------------------------------------------------------------

  /** How many times `x` occurs in `s`. */
  function Occurrences(s: seq<string>, x: string): nat
    decreases |s|
  {
    if s == [] then 0
    else Occurrences(s[..|s| - 1], x) + (if s[|s| - 1] == x then 1 else 0)
  }

  /** `n` copies of `r` added up; kept apart from `*` so that the proofs stay linear. */
  function Times(n: nat, r: real): real
    decreases n
  {
    if n == 0 then 0.0 else Times(n - 1, r) + r
  }

  lemma {:induction false} TimesIsProduct(n: nat, r: real)
    ensures Times(n, r) == (n as real) * r
    decreases n
  {
    if n > 0 {
      TimesIsProduct(n - 1, r);
      assert (n as real) * r == ((n - 1) as real) * r + r;
    }
  }

  /** What expense `e` credits member `x`. */
  function CreditTo(e: Expense, x: string): real {
    if e.paidBy == Some(x) then e.amount else 0.0
  }

  /** What expense `e` debits member `x`: its share once per occurrence in the split. */
  function DebitTo(e: Expense, x: string): real {
    match e.splitBetween
    case None => 0.0
    case Some(split) => Times(Occurrences(split, x), AmountPerPerson(e))
  }

  /** Everything the expenses credit `x`. */
  function TotalCredit(expenses: seq<Expense>, x: string): real
    decreases |expenses|
  {
    if expenses == [] then 0.0
    else TotalCredit(expenses[..|expenses| - 1], x) + CreditTo(expenses[|expenses| - 1], x)
  }

  /** Everything the expenses debit `x`. */
  function TotalDebit(expenses: seq<Expense>, x: string): real
    decreases |expenses|
  {
    if expenses == [] then 0.0
    else TotalDebit(expenses[..|expenses| - 1], x) + DebitTo(expenses[|expenses| - 1], x)
  }

  /**
   * By how much one expense moves the sum of all balances: its amount is
   * credited when it has a payer and debited in full when its split list is
   * non-empty.
   */
  function Imbalance(e: Expense): real {
    (if e.paidBy.Some? then e.amount else 0.0)
    - (if e.splitBetween.Some? && |e.splitBetween.value| > 0 then e.amount else 0.0)
  }

  function TotalImbalance(expenses: seq<Expense>): real
    decreases |expenses|
  {
    if expenses == [] then 0.0
    else TotalImbalance(expenses[..|expenses| - 1]) + Imbalance(expenses[|expenses| - 1])
  }

  /** The names an expense mentions: its payer and its split entries. */
  function ExpenseNames(e: Expense): set<string> {
    (match e.paidBy case None => {} case Some(p) => {p})
    + (match e.splitBetween case None => {} case Some(split) => set x | x in split)
  }

  function Participants(expenses: seq<Expense>): set<string>
    decreases |expenses|
  {
    if expenses == [] then {}
    else Participants(expenses[..|expenses| - 1]) + ExpenseNames(expenses[|expenses| - 1])
  }

  /**
   * The sum of all expense amounts, folded from the left (totalExpenses); it
   * is not negative when no amount is.
   */
  function Total(expenses: seq<Expense>): (r: real)
    ensures (forall e :: e in expenses ==> e.amount >= 0.0) ==> r >= 0.0
    decreases |expenses|
  {
    if expenses == [] then 0.0
    else
      var init := expenses[..|expenses| - 1];
      assert forall e :: e in init ==> e in expenses;
      Total(init) + expenses[|expenses| - 1].amount
  }

  /** The sum of all values of a balance map. */
  ghost function SumValues(b: map<string, real>): real
    decreases |b.Keys|
  {
    if b == map[] then 0.0
    else
      var k :| k in b;
      assert |(b - {k}).Keys| < |b.Keys| by {
        assert (b - {k}).Keys + {k} == b.Keys;
      }
      b[k] + SumValues(b - {k})
  }

  // ---------------------------------------------------------------------------
  // Lemmas: keys, per-member effect, conservation
  // ---------------------------------------------------------------------------

  lemma {:induction false} DebitEachAt(b: map<string, real>, split: seq<string>, share: real, x: string)
    ensures Get(DebitEach(b, split, share), x) == Get(b, x) - Times(Occurrences(split, x), share)
    decreases |split|
  {
    if split != [] {
      DebitEachAt(b, split[..|split| - 1], share, x);
    }
  }

  lemma {:induction false} DebitEachKeys(b: map<string, real>, split: seq<string>, share: real)
    ensures DebitEach(b, split, share).Keys == b.Keys + set y | y in split
    decreases |split|
  {
    if split != [] {
      var init := split[..|split| - 1];
      DebitEachKeys(b, init, share);
      assert split == init + [split[|split| - 1]];
    }
  }

  /** One expense moves `x`'s balance by what it credits `x` minus what it debits `x`. */
  lemma ApplyExpenseAt(b: map<string, real>, e: Expense, x: string)
    ensures Get(ApplyExpense(b, e), x) == Get(b, x) + CreditTo(e, x) - DebitTo(e, x)
    ensures ApplyExpense(b, e).Keys == b.Keys + ExpenseNames(e)
  {
    var credited := Credit(b, e);
    assert Get(credited, x) == Get(b, x) + CreditTo(e, x);
    match e.splitBetween
    case None =>
    case Some(split) =>
      DebitEachAt(credited, split, AmountPerPerson(e), x);
      DebitEachKeys(credited, split, AmountPerPerson(e));
  }

  /** The balance of `x` is everything credited to `x` minus everything debited from `x`. */
  lemma {:induction false} ApplyAllAt(b: map<string, real>, expenses: seq<Expense>, x: string)
    ensures Get(ApplyAll(b, expenses), x) == Get(b, x) + TotalCredit(expenses, x) - TotalDebit(expenses, x)
    ensures ApplyAll(b, expenses).Keys == b.Keys + Participants(expenses)
    decreases |expenses|
  {
    if expenses != [] {
      var init := expenses[..|expenses| - 1];
      ApplyAllAt(b, init, x);
      ApplyExpenseAt(ApplyAll(b, init), expenses[|expenses| - 1], x);
    }
  }

  /**
   * The key set of calculateDebts is the roster plus every payer and every
   * split entry; every roster member starts at 0, so a member's balance is
   * what the expenses credit them minus what they debit them.
   */
  lemma BalancesAt(members: seq<string>, expenses: seq<Expense>, x: string)
    ensures Balances(members, expenses).Keys == (set m | m in members) + Participants(expenses)
    ensures Get(Balances(members, expenses), x) == TotalCredit(expenses, x) - TotalDebit(expenses, x)
    ensures x in members ==> x in Balances(members, expenses)
  {
    ApplyAllAt(InitialBalances(members), expenses, x);
  }

  /** With no expenses, the balances are exactly the roster, each at 0. */
  lemma RosterStartsAtZero(members: seq<string>, x: string)
    ensures x in Balances(members, []) <==> x in members
    ensures x in members ==> Balances(members, [])[x] == 0.0
  {
  }

  /**
   * A group expense of amount A with a non-empty split list of length k adds
   * A to its payer and takes A/k from each split entry once per occurrence;
   * nobody else changes.
   */
  lemma SplitExpenseEffect(b: map<string, real>, e: Expense, x: string)
    requires IsBalancedShape(e)
    ensures var split := e.splitBetween.value;
            Get(ApplyExpense(b, e), x)
            == Get(b, x)
               + (if e.paidBy.value == x then e.amount else 0.0)
               - Times(Occurrences(split, x), e.amount / (|split| as real))
    ensures x !in ExpenseNames(e) ==> Get(ApplyExpense(b, e), x) == Get(b, x)
  {
    ApplyExpenseAt(b, e, x);
    if x !in ExpenseNames(e) {
      OccurrencesAbsent(e.splitBetween.value, x);
    }
  }

  /** A payer who is also in the split once nets the amount minus one share. */
  lemma PayerAlsoInSplit(b: map<string, real>, e: Expense)
    requires IsBalancedShape(e)
    requires Occurrences(e.splitBetween.value, e.paidBy.value) == 1
    ensures Get(ApplyExpense(b, e), e.paidBy.value)
            == Get(b, e.paidBy.value) + e.amount - e.amount / (|e.splitBetween.value| as real)
  {
    SplitExpenseEffect(b, e, e.paidBy.value);
  }

  lemma {:induction false} OccurrencesAbsent(s: seq<string>, x: string)
    requires x !in s
    ensures Occurrences(s, x) == 0
    decreases |s|
  {
    if s != [] {
      OccurrencesAbsent(s[..|s| - 1], x);
    }
  }

  /** A personal expense (no payer, no split) changes no balance at all. */
  lemma PersonalExpenseNeutral(b: map<string, real>, e: Expense)
    requires e.paidBy == None && e.splitBetween == None
    ensures ApplyExpense(b, e) == b
  {
  }

  /**
   * An expense with a payer and an empty split list credits the payer and
   * debits nobody, so the sum of the balances grows by its amount.
   */
  lemma PayerWithoutSplit(b: map<string, real>, e: Expense)
    requires e.paidBy.Some? && e.splitBetween == Some([])
    ensures ApplyExpense(b, e) == b[e.paidBy.value := Get(b, e.paidBy.value) + e.amount]
    ensures SumValues(ApplyExpense(b, e)) == SumValues(b) + e.amount
  {
    ApplyExpenseSum(b, e);
  }

  lemma {:induction false} SumValuesRemove(b: map<string, real>, k: string)
    requires k in b
    ensures SumValues(b) == b[k] + SumValues(b - {k})
    decreases |b.Keys|
  {
    var j :| j in b && SumValues(b) == b[j] + SumValues(b - {j});
    if j != k {
      assert |(b - {j}).Keys| < |b.Keys| by {
        assert (b - {j}).Keys + {j} == b.Keys;
      }
      assert |(b - {k}).Keys| < |b.Keys| by {
        assert (b - {k}).Keys + {k} == b.Keys;
      }
      SumValuesRemove(b - {j}, k);
      SumValuesRemove(b - {k}, j);
      assert b - {j} - {k} == b - {k} - {j};
    }
  }

  lemma SumValuesUpdate(b: map<string, real>, k: string, v: real)
    ensures SumValues(b[k := v]) == SumValues(b) - Get(b, k) + v
  {
    SumValuesRemove(b[k := v], k);
    assert b[k := v] - {k} == b - {k};
    if k in b {
      SumValuesRemove(b, k);
    } else {
      assert b - {k} == b;
    }
  }

  lemma {:induction false} SumValuesAllZero(b: map<string, real>)
    requires forall x :: x in b ==> b[x] == 0.0
    ensures SumValues(b) == 0.0
    decreases |b.Keys|
  {
    if b != map[] {
      var k :| k in b;
      SumValuesRemove(b, k);
      assert |(b - {k}).Keys| < |b.Keys| by {
        assert (b - {k}).Keys + {k} == b.Keys;
      }
      SumValuesAllZero(b - {k});
    }
  }

  lemma {:induction false} DebitEachSum(b: map<string, real>, split: seq<string>, share: real)
    ensures SumValues(DebitEach(b, split, share)) == SumValues(b) - Times(|split|, share)
    decreases |split|
  {
    if split != [] {
      var init := split[..|split| - 1];
      DebitEachSum(b, init, share);
      var before := DebitEach(b, init, share);
      var person := split[|split| - 1];
      SumValuesUpdate(before, person, Get(before, person) - share);
    }
  }

  lemma CreditSum(b: map<string, real>, e: Expense)
    ensures SumValues(Credit(b, e)) == SumValues(b) + (if e.paidBy.Some? then e.amount else 0.0)
  {
    match e.paidBy
    case None =>
    case Some(p) => SumValuesUpdate(b, p, Get(b, p) + e.amount);
  }

  /** The shares of a non-empty split add back up to the amount. */
  lemma SharesAddUp(e: Expense)
    requires e.splitBetween.Some? && |e.splitBetween.value| > 0
    ensures Times(|e.splitBetween.value|, AmountPerPerson(e)) == e.amount
  {
    TimesIsProduct(|e.splitBetween.value|, AmountPerPerson(e));
  }

  /** One expense moves the sum of all balances by exactly its imbalance. */
  lemma ApplyExpenseSum(b: map<string, real>, e: Expense)
    ensures SumValues(ApplyExpense(b, e)) == SumValues(b) + Imbalance(e)
  {
    var credited := Credit(b, e);
    CreditSum(b, e);
    match e.splitBetween
    case None =>
    case Some(split) =>
      DebitEachSum(credited, split, AmountPerPerson(e));
      if |split| > 0 {
        SharesAddUp(e);
      }
  }

  lemma {:induction false} ApplyAllSum(b: map<string, real>, expenses: seq<Expense>)
    ensures SumValues(ApplyAll(b, expenses)) == SumValues(b) + TotalImbalance(expenses)
    decreases |expenses|
  {
    if expenses != [] {
      var init := expenses[..|expenses| - 1];
      ApplyAllSum(b, init);
      ApplyExpenseSum(ApplyAll(b, init), expenses[|expenses| - 1]);
    }
  }

  /** The sum of all balances is the sum of the expenses' imbalances. */
  lemma BalanceSum(members: seq<string>, expenses: seq<Expense>)
    ensures SumValues(Balances(members, expenses)) == TotalImbalance(expenses)
  {
    SumValuesAllZero(InitialBalances(members));
    ApplyAllSum(InitialBalances(members), expenses);
  }

  lemma {:induction false} BalancedShapesHaveNoImbalance(expenses: seq<Expense>)
    requires forall e :: e in expenses ==> IsBalancedShape(e)
    ensures TotalImbalance(expenses) == 0.0
    decreases |expenses|
  {
    if expenses != [] {
      var init := expenses[..|expenses| - 1];
      assert forall e :: e in init ==> e in expenses;
      BalancedShapesHaveNoImbalance(init);
      assert IsBalancedShape(expenses[|expenses| - 1]);
    }
  }

  /**
   * Conservation: when every expense has a payer and a non-empty split list,
   * the balances sum to 0.
   */
  lemma Conservation(members: seq<string>, expenses: seq<Expense>)
    requires forall e :: e in expenses ==> IsBalancedShape(e)
    ensures SumValues(Balances(members, expenses)) == 0.0
  {
    BalanceSum(members, expenses);
    BalancedShapesHaveNoImbalance(expenses);
  }

  /** Appending an expense to the list applies it on top of the earlier balances. */
  lemma BalancesAppend(members: seq<string>, expenses: seq<Expense>, e: Expense)
    ensures Balances(members, expenses + [e]) == ApplyExpense(Balances(members, expenses), e)
  {
    assert (expenses + [e])[..|expenses|] == expenses;
  }

  lemma TotalAppend(expenses: seq<Expense>, e: Expense)
    ensures Total(expenses + [e]) == Total(expenses) + e.amount
  {
    assert (expenses + [e])[..|expenses|] == expenses;
  }

  // ---------------------------------------------------------------------------
  // The roster
  // ---------------------------------------------------------------------------

  predicate NoDuplicates(s: seq<string>) {
    forall i, j :: 0 <= i < j < |s| ==> s[i] != s[j]
  }

  /** addMember: append the name only when it is not on the roster yet. */
  function AddedMember(members: seq<string>, m: string): (r: seq<string>)
    ensures m in r && members <= r && |r| <= |members| + 1
    ensures m in members ==> r == members
  {
    if m in members then members else members + [m]
  }

  /** removeMember: every occurrence of the name removed, the rest in order. */
  function RemovedMember(members: seq<string>, m: string): (r: seq<string>)
    ensures m !in r && |r| <= |members|
    decreases |members|
  {
    if members == [] then []
    else
      var last := members[|members| - 1];
      RemovedMember(members[..|members| - 1], m) + (if last == m then [] else [last])
  }

  /** Adding a member puts it on the roster, adds nothing else, is idempotent and keeps the roster free of duplicates. */
  lemma AddMemberProperties(members: seq<string>, m: string)
    ensures m in AddedMember(members, m)
    ensures forall x :: x in AddedMember(members, m) <==> x in members || x == m
    ensures AddedMember(AddedMember(members, m), m) == AddedMember(members, m)
    ensures NoDuplicates(members) ==> NoDuplicates(AddedMember(members, m))
  {
  }

  /** Removing a member takes out every occurrence and keeps every other name as often as before. */
  lemma RemoveMemberProperties(members: seq<string>, m: string, x: string)
    ensures x in RemovedMember(members, m) <==> x in members && x != m
    ensures Occurrences(RemovedMember(members, m), x) == if x == m then 0 else Occurrences(members, x)
  {
    RemovedMemberContains(members, m, x);
    RemovedMemberOccurrences(members, m, x);
  }

  lemma {:induction false} RemovedMemberContains(members: seq<string>, m: string, x: string)
    ensures x in RemovedMember(members, m) <==> x in members && x != m
    decreases |members|
  {
    if members != [] {
      var init := members[..|members| - 1];
      var last := members[|members| - 1];
      RemovedMemberContains(init, m, x);
      assert members == init + [last];
    }
  }

  lemma {:induction false} RemovedMemberOccurrences(members: seq<string>, m: string, x: string)
    ensures Occurrences(RemovedMember(members, m), x) == if x == m then 0 else Occurrences(members, x)
    decreases |members|
  {
    if members != [] {
      var init := members[..|members| - 1];
      var last := members[|members| - 1];
      var tail := if last == m then [] else [last];
      RemovedMemberOccurrences(init, m, x);
      OccurrencesAppend(RemovedMember(init, m), tail, x);
      assert [last][..0] == [];
    }
  }

  lemma {:induction false} OccurrencesAppend(s: seq<string>, t: seq<string>, x: string)
    ensures Occurrences(s + t, x) == Occurrences(s, x) + Occurrences(t, x)
    decreases |t|
  {
    if t == [] {
      assert s + t == s;
    } else {
      var init := t[..|t| - 1];
      OccurrencesAppend(s, init, x);
      assert (s + t)[..|s + t| - 1] == s + init;
    }
  }

  /** Removal keeps order: removing from a concatenation removes from each part. */
  lemma {:induction false} RemoveMemberOrder(a: seq<string>, b: seq<string>, m: string)
    ensures RemovedMember(a + b, m) == RemovedMember(a, m) + RemovedMember(b, m)
    decreases |b|
  {
    if b == [] {
      assert a + b == a;
    } else {
      var init := b[..|b| - 1];
      var last := b[|b| - 1];
      var tail := if last == m then [] else [last];
      RemoveMemberOrder(a, init, m);
      assert (a + b)[..|a + b| - 1] == a + init;
      assert RemovedMember(a + b, m) == RemovedMember(a + init, m) + tail;
      assert RemovedMember(b, m) == RemovedMember(init, m) + tail;
    }
  }

  // ---------------------------------------------------------------------------
  // Debt payment
  // ---------------------------------------------------------------------------

  /** The expense markDebtAsPaid records: the debtor pays, the creditor is the whole split. */
  function PaymentExpense(id: Uuid, debtor: string, creditor: string, amount: real,
                          date: Date, userId: string): (r: Expense)
    ensures IsBalancedShape(r) && r.paidBy == Some(debtor) && r.splitBetween == Some([creditor])
    ensures AmountPerPerson(r) == amount
    ensures r.title == "Borç Ödemesi" && r.category == Other && r.amount == amount
  {
    GroupExpense(id, "Borç Ödemesi", amount, date, Other, debtor, [creditor], userId)
  }

  /**
   * Recording a payment of `amount` from the debtor to a different creditor
   * raises the debtor's balance by `amount`, lowers the creditor's by
   * `amount`, makes both of them keys, and leaves everyone else as they were.
   */
  lemma PaymentEffect(b: map<string, real>, id: Uuid, debtor: string, creditor: string,
                      amount: real, date: Date, userId: string, x: string)
    requires debtor != creditor
    ensures var after := ApplyExpense(b, PaymentExpense(id, debtor, creditor, amount, date, userId));
            && after.Keys == b.Keys + {debtor, creditor}
            && Get(after, debtor) == Get(b, debtor) + amount
            && Get(after, creditor) == Get(b, creditor) - amount
            && (x != debtor && x != creditor ==> Get(after, x) == Get(b, x))
  {
    var e := PaymentExpense(id, debtor, creditor, amount, date, userId);
    assert AmountPerPerson(e) == amount;
    assert [creditor][..0] == [];
    assert Occurrences([creditor], creditor) == 1;
    assert Occurrences([creditor], debtor) == 0;
    assert x != creditor ==> Occurrences([creditor], x) == 0;
    ApplyExpenseAt(b, e, debtor);
    ApplyExpenseAt(b, e, creditor);
    ApplyExpenseAt(b, e, x);
    assert ExpenseNames(e) == {debtor, creditor};
  }

  // ---------------------------------------------------------------------------
  // The Group struct
  // ---------------------------------------------------------------------------

  class Group {
    const id: Uuid
    var name: string
    var members: seq<string>
    var expenses: seq<Expense>
    var date: Date
    var icon: string

    constructor (id: Uuid, name: string, members: seq<string>, expenses: seq<Expense>,
                 date: Date, icon: string)
      ensures this.id == id && this.name == name && this.members == members
      ensures this.expenses == expenses && this.date == date && this.icon == icon
    {
      this.id := id;
      this.name := name;
      this.members := members;
      this.expenses := expenses;
      this.date := date;
      this.icon := icon;
    }

    /** A field-by-field copy: Swift's `var updated = group` on a value type. */
    method Copy() returns (g: Group)
      ensures fresh(g)
      ensures g.id == id && g.name == name && g.members == members
      ensures g.expenses == expenses && g.date == date && g.icon == icon
    {
      g := new Group(id, name, members, expenses, date, icon);
    }

    /** The sum of all expense amounts; not negative when no amount is. */
    function TotalExpenses(): (r: real)
      reads this
      ensures (forall e :: e in expenses ==> e.amount >= 0.0) ==> r >= 0.0
    {
      Total(expenses)
    }

    /** The balance of every member, built up in place over the roster and the expenses. */
    method CalculateDebts() returns (debts: map<string, real>)
      ensures debts == Balances(members, expenses)
    {
      debts := map[];
      for i := 0 to |members|
        invariant debts == InitialBalances(members[..i])
      {
        assert members[..i + 1] == members[..i] + [members[i]];
        debts := debts[members[i] := 0.0];
      }
      assert members[..|members|] == members;
      for j := 0 to |expenses|
        invariant debts == ApplyAll(InitialBalances(members), expenses[..j])
      {
        var expense := expenses[j];
        var amountPerPerson := AmountPerPerson(expense);
        if expense.paidBy.Some? {
          var paidBy := expense.paidBy.value;
          debts := debts[paidBy := Get(debts, paidBy) + expense.amount];
        }
        if expense.splitBetween.Some? {
          var splitBetween := expense.splitBetween.value;
          ghost var credited := debts;
          for k := 0 to |splitBetween|
            invariant debts == DebitEach(credited, splitBetween[..k], amountPerPerson)
          {
            var person := splitBetween[k];
            assert splitBetween[..k + 1][..k] == splitBetween[..k];
            debts := debts[person := Get(debts, person) - amountPerPerson];
          }
          assert splitBetween[..|splitBetween|] == splitBetween;
        }
        assert expenses[..j + 1][..j] == expenses[..j];
      }
      assert expenses[..|expenses|] == expenses;
    }

    method AddExpense(expense: Expense)
      modifies this
      ensures expenses == old(expenses) + [expense]
      ensures members == old(members) && name == old(name)
      ensures date == old(date) && icon == old(icon)
      ensures TotalExpenses() == old(TotalExpenses()) + expense.amount
    {
      TotalAppend(expenses, expense);
      expenses := expenses + [expense];
    }

    method AddMember(member: string)
      modifies this`members
      ensures members == AddedMember(old(members), member)
      ensures NoDuplicates(old(members)) ==> NoDuplicates(members)
    {
      AddMemberProperties(members, member);
      if member !in members {
        members := members + [member];
      }
    }

    method RemoveMember(member: string)
      modifies this`members
      ensures members == RemovedMember(old(members), member)
      ensures member !in members
    {
      RemoveMemberProperties(members, member, member);
      members := RemovedMember(members, member);
    }

    /** Records a debt payment as one more expense; `now` and `id` stand for `Date()` and `UUID()`. */
    method MarkDebtAsPaid(debtor: string, creditor: string, amount: real, userId: string,
                          now: Date, paymentId: Uuid)
      modifies this`expenses
      ensures expenses == old(expenses) + [PaymentExpense(paymentId, debtor, creditor, amount, now, userId)]
    {
      expenses := expenses + [PaymentExpense(paymentId, debtor, creditor, amount, now, userId)];
    }
  }
}
