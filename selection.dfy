/**
 * Member selection shared by the two expense forms of FinHelper
 * (FinHelper/Views/GroupAddExpenseView.swift and the expense detail view in
 * FinHelper/Views/GroupsView.swift): the tap that toggles a member in the
 * selected set, and Swift's `Array(set)`, which lists a set in an order the
 * language does not specify.
 */
module MemberSelection {
  import opened GroupModel

  /** A tap on a member: removed when selected, inserted otherwise. */
  function Toggled(selected: set<string>, member: string): (r: set<string>)
    ensures member in r <==> member !in selected
    ensures r - {member} == selected - {member}
  {
    if member in selected then selected - {member} else selected + {member}
  }

  /** Toggling flips the tapped member, leaves every other member alone and undoes itself. */
  lemma ToggleProperties(selected: set<string>, member: string, other: string)
    ensures member in Toggled(selected, member) <==> member !in selected
    ensures other != member ==> (other in Toggled(selected, member) <==> other in selected)
    ensures Toggled(Toggled(selected, member), member) == selected
  {
  }

  /** `r` lists every element of `s` exactly once. */
  predicate IsEnumeration(r: seq<string>, s: set<string>) {
    (set x | x in r) == s && NoDuplicates(r)
  }

  /** An enumeration is as long as its set, so it is empty exactly when the set is. */
  lemma {:induction false} EnumerationLength(r: seq<string>, s: set<string>)
    requires IsEnumeration(r, s)
    ensures |r| == |s|
    ensures |r| == 0 <==> s == {}
    decreases |r|
  {
    if r != [] {
      var init := r[..|r| - 1];
      var last := r[|r| - 1];
      assert r == init + [last];
      assert last !in init;
      assert (set x | x in init) == s - {last};
      EnumerationLength(init, s - {last});
    }
  }

  /** Swift's `Array(set)`: the elements of the set, each once, in some order. */
  method SetToSeq(s: set<string>) returns (r: seq<string>)
    ensures IsEnumeration(r, s)
    ensures |r| == |s|
  {
    r := [];
    var rest := s;
    while rest != {}
      invariant (set x | x in r) + rest == s
      invariant (set x | x in r) !! rest
      invariant NoDuplicates(r)
      invariant |r| + |rest| == |s|
      decreases rest
    {
      var x :| x in rest;
      r := r + [x];
      rest := rest - {x};
    }
  }
}
