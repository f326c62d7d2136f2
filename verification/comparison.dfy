/**
 * The solution-comparison selector: the indices of the solution approaches shown side
 * by side, between one and three of them, the oldest evicted when a fourth is picked.
 */
module SolutionComparison {
  import opened Seqs

  /** `selected.filter(i => i !== index)`. */
  function Remove(selected: seq<int>, index: int): (r: seq<int>)
    ensures forall k :: 0 <= k < |r| ==> r[k] != index
    ensures forall x {:trigger multiset(r)[x]} :: multiset(r)[x] == if x == index then 0 else multiset(selected)[x]
    ensures IsSubsequence(r, selected)
  {
    Filter(selected, (x: int) => x != index)
  }

  /** Removing a value that occurs once, at position `k`, closes the gap and keeps the order. */
  lemma RemoveAt(selected: seq<int>, k: nat)
    requires k < |selected|
    requires forall j :: 0 <= j < |selected| && j != k ==> selected[j] != selected[k]
    ensures Remove(selected, selected[k]) == selected[..k] + selected[k + 1..]
  {
    var x := selected[k];
    var keep := (y: int) => y != x;
    var before, after := selected[..k], selected[k + 1..];
    assert selected == before + ([x] + after);
    FilterAppend(before, [x] + after, keep);
    FilterAppend([x], after, keep);
    assert forall j :: 0 <= j < |before| ==> keep(before[j]);
    assert forall j :: 0 <= j < |after| ==> keep(after[j]) by {
      forall j | 0 <= j < |after| ensures keep(after[j]) {
        assert after[j] == selected[k + 1 + j];
      }
    }
    assert Filter([x], keep) == [];
  }

  /** Removing a value that does not occur changes nothing. */
  lemma RemoveAbsent(selected: seq<int>, x: int)
    requires forall j :: 0 <= j < |selected| ==> selected[j] != x
    ensures Remove(selected, x) == selected
  {
  }

  /** `toggleSolutionSelection(index)` as a function of the current selection. */
  function Toggled(selected: seq<int>, index: int): (r: seq<int>)
    ensures index in selected && |selected| == 1 ==> r == selected
    ensures index in selected && |selected| > 1 ==>
      index !in r &&
      forall x {:trigger multiset(r)[x]} :: x != index ==> multiset(r)[x] == multiset(selected)[x]
    ensures index !in selected ==> |r| > 0 && r[|r| - 1] == index
  {
    if index in selected then
      if |selected| > 1 then Remove(selected, index) else selected
    else if |selected| < 3 then selected + [index]
    else [selected[1], selected[2], index]
  }

  /** The selector's invariant: one to three indices, none twice. */
  predicate ValidSelection(selected: seq<int>)
  {
    1 <= |selected| <= 3 && NoDuplicates(selected)
  }

  /** Every toggle keeps the invariant; in particular the selection is never emptied. */
  lemma ToggleKeepsValid(selected: seq<int>, index: int)
    requires ValidSelection(selected)
    ensures ValidSelection(Toggled(selected, index))
  {
    if index in selected {
      if |selected| > 1 {
        var k :| 0 <= k < |selected| && selected[k] == index;
        RemoveAt(selected, k);
        SubsequenceNoDuplicates(Remove(selected, index), selected);
      }
    } else if |selected| >= 3 {
      assert selected[1] != selected[2];
    }
  }

  /** Toggling a selected index off, when it is not the last one, removes just that index. */
  lemma ToggleOffRemovesOne(selected: seq<int>, k: nat)
    requires ValidSelection(selected) && k < |selected| && |selected| > 1
    ensures Toggled(selected, selected[k]) == selected[..k] + selected[k + 1..]
    ensures selected[k] !in Toggled(selected, selected[k])
  {
    RemoveAt(selected, k);
  }

  /** The only selected index cannot be toggled off. */
  lemma ToggleLastIsNoOp(index: int)
    ensures Toggled([index], index) == [index]
  {
  }

  /** Toggling an unselected index on while fewer than three are selected appends it. */
  lemma ToggleOnAppends(selected: seq<int>, index: int)
    requires index !in selected && |selected| < 3
    ensures Toggled(selected, index) == selected + [index]
  {
  }

  /** With three selected, a new index evicts the oldest and the length stays three. */
  lemma ToggleOnEvictsOldest(selected: seq<int>, index: int)
    requires ValidSelection(selected) && index !in selected && |selected| == 3
    ensures Toggled(selected, index) == selected[1..] + [index]
    ensures |Toggled(selected, index)| == 3 && selected[0] !in Toggled(selected, index)
  {
  }

  /** Toggling an index on and then off again restores the selection. */
  lemma ToggleOnOff(selected: seq<int>, index: int)
    requires ValidSelection(selected) && index !in selected && |selected| < 3
    ensures Toggled(Toggled(selected, index), index) == selected
  {
    var t := selected + [index];
    assert Toggled(selected, index) == t;
    assert index in t && |t| > 1;
    assert NoDuplicates(t);
    RemoveAt(t, |selected|);
    assert t[..|selected|] == selected;
  }

  /** The `selectedSolutions` state. */
  class Selection {
    var selected: seq<int>

    ghost predicate Valid()
      reads this
    {
      ValidSelection(selected)
    }

    /** The selection starts with the first two approaches. */
    constructor ()
      ensures Valid() && selected == [0, 1]
    {
      selected := [0, 1];
    }

    /** `toggleSolutionSelection`. */
    method Toggle(index: int)
      requires Valid()
      modifies this
      ensures Valid()
      ensures selected == Toggled(old(selected), index)
    {
      ToggleKeepsValid(selected, index);
      if index in selected {
        if |selected| > 1 {
          selected := Remove(selected, index);
        }
      } else {
        if |selected| < 3 {
          selected := selected + [index];
        } else {
          selected := [selected[1], selected[2], index];
        }
      }
    }
  }
}
