/** The completion state of the PayPal setup checklist.

    The guide page shows a fixed list of onboarding steps and keeps one piece
    of state, the list of indices of the steps the operator has ticked. A click
    on a step's button toggles its index: removed when present, appended when
    absent. The counter, the progress bar, each step's badge and the final
    banner are all computed from that list.
 */
module Checklist {

  /** Number of entries of the fixed step list: create the developer app,
      set the deployment variables, configure webhooks, test payments. */
  const StepCount: nat := 4

  /** Badge text of a ticked step and of an unticked one. */
  const DoneLabel := "Terminé"
  const PendingLabel := "En attente"

  /** The indices of all steps, the only values a click can produce. */
  function Steps(): (r: set<int>)
    ensures forall i :: i in r <==> 0 <= i < StepCount
    ensures |r| == StepCount
  {
    {0, 1, 2, 3}
  }

  /** The values held by a list, ignoring order and repetition. */
  function Elements(s: seq<int>): (r: set<int>)
    ensures forall x :: x in r <==> x in s
  {
    set x | x in s
  }

  predicate NoDuplicates(s: seq<int>)
  {
    forall i, j :: 0 <= i < j < |s| ==> s[i] != s[j]
  }

  predicate InRange(s: seq<int>)
  {
    forall k :: 0 <= k < |s| ==> 0 <= s[k] < StepCount
  }

  /** The shape every reachable state has. */
  predicate WellFormed(s: seq<int>)
  {
    NoDuplicates(s) && InRange(s)
  }

  /** `s.filter(i => i !== x)`: every occurrence of `x` dropped, the rest kept in order. */
  function Without(s: seq<int>, x: int): (r: seq<int>)
    ensures x !in r
    ensures forall y :: y != x ==> (y in r <==> y in s)
    ensures x !in s ==> r == s
    ensures |r| <= |s|
  {
    if s == [] then []
    else if s[0] == x then Without(s[1..], x)
    else [s[0]] + Without(s[1..], x)
  }

  /** The new list after a click on step `i`. */
  function Toggled(s: seq<int>, i: int): (r: seq<int>)
    ensures forall j :: j in r <==> (j in s) != (j == i)
  {
    if i in s then Without(s, i) else s + [i]
  }

  /** A step is shown as completed exactly when its index is in the list. */
  function IsCompleted(s: seq<int>, i: int): (r: bool)
    ensures r <==> exists k :: 0 <= k < |s| && s[k] == i
  {
    i in s
  }

  /** The badge text of step `i`. */
  function Badge(s: seq<int>, i: int): (r: string)
    ensures r == DoneLabel <==> IsCompleted(s, i)
    ensures r == PendingLabel <==> !IsCompleted(s, i)
  {
    if IsCompleted(s, i) then DoneLabel else PendingLabel
  }

  /** The "done/total" counter above the progress bar: on a reachable list
      it counts distinct ticked steps and never passes the total. */
  function Counter(s: seq<int>): (r: (nat, nat))
    ensures r.0 == |s| && r.1 == StepCount
    ensures WellFormed(s) ==> r.0 == |Elements(s)| <= r.1
  {
    if WellFormed(s) then
      DistinctCardinality(s);
      WellFormedBounded(s);
      (|s|, StepCount)
    else
      (|s|, StepCount)
  }

  /** The progress bar width in percent, `done / total * 100`; with four
      steps the quotient is exact, so nothing is lost to rounding. */
  function ProgressPercent(s: seq<int>): (r: int)
    ensures r * StepCount == |s| * 100
  {
    |s| * 100 / StepCount
  }

  /** The completion banner is rendered when the counter reaches the total;
      on a reachable list that is exactly when every step is ticked. */
  function BannerShown(s: seq<int>): (r: bool)
    ensures WellFormed(s) ==> (r <==> forall i :: 0 <= i < StepCount ==> IsCompleted(s, i))
  {
    if WellFormed(s) then
      FullCountIffAllDone(s);
      |s| == StepCount
    else
      |s| == StepCount
  }

  /** The list after a sequence of clicks, in order. */
  function ApplyClicks(s: seq<int>, clicks: seq<int>): seq<int>
    decreases |clicks|
  {
    if clicks == [] then s else ApplyClicks(Toggled(s, clicks[0]), clicks[1..])
  }

  /** The list as the component holds it. */
  class SetupGuide {
    var completedSteps: seq<int>

    ghost predicate Valid()
      reads this
    {
      WellFormed(completedSteps)
    }

    constructor ()
      ensures Valid()
      ensures completedSteps == []
      ensures forall i :: !IsCompleted(completedSteps, i)
      ensures !BannerShown(completedSteps)
    {
      completedSteps := [];
    }

    /** A click on the button of step `stepIndex`; the buttons are made from
        the step list, so the index is one of its positions. */
    method ToggleStep(stepIndex: int)
      requires Valid()
      requires 0 <= stepIndex < StepCount
      modifies this
      ensures Valid()
      ensures completedSteps == Toggled(old(completedSteps), stepIndex)
      ensures IsCompleted(completedSteps, stepIndex) != IsCompleted(old(completedSteps), stepIndex)
      ensures forall j :: j != stepIndex ==>
                IsCompleted(completedSteps, j) == IsCompleted(old(completedSteps), j)
    {
      ToggleKeepsWellFormed(completedSteps, stepIndex);
      completedSteps := Toggled(completedSteps, stepIndex);
    }
  }

  // ---------------------------------------------------------------------------
  // Toggling

  /** Filtering a concatenation filters each part. */
  lemma {:induction false} WithoutConcat(a: seq<int>, b: seq<int>, x: int)
    ensures Without(a + b, x) == Without(a, x) + Without(b, x)
  {
    if a != [] {
      assert (a + b)[1..] == a[1..] + b;
      WithoutConcat(a[1..], b, x);
    } else {
      assert a + b == b;
    }
  }

  /** Removing a value that occurs once, at position `k`, closes the gap and
      leaves the other elements in their order. */
  lemma WithoutAt(s: seq<int>, k: nat)
    requires k < |s| && NoDuplicates(s)
    ensures Without(s, s[k]) == s[..k] + s[k + 1..]
  {
    var x := s[k];
    assert x !in s[..k] by {
      forall j | 0 <= j < k ensures s[..k][j] != x { assert s[..k][j] == s[j]; }
    }
    var rest := s[k + 1..];
    assert x !in rest by {
      forall j | 0 <= j < |rest| ensures rest[j] != x { assert rest[j] == s[k + 1 + j]; }
    }
    assert s == s[..k] + ([x] + s[k + 1..]);
    WithoutConcat(s[..k], [x] + s[k + 1..], x);
    WithoutConcat([x], s[k + 1..], x);
    assert Without([x], x) == [];
  }

  /** Clicking a ticked step removes it and keeps the order of the others;
      clicking an unticked one appends it at the end. */
  lemma ToggleShape(s: seq<int>, i: int)
    requires NoDuplicates(s)
    ensures i !in s ==> Toggled(s, i) == s + [i]
    ensures forall k :: 0 <= k < |s| && s[k] == i ==> Toggled(s, i) == s[..k] + s[k + 1..]
  {
    forall k | 0 <= k < |s| && s[k] == i
      ensures Toggled(s, i) == s[..k] + s[k + 1..]
    {
      WithoutAt(s, k);
    }
  }

  /** Removing an element keeps a list free of duplicates. */
  lemma {:induction false} WithoutKeepsNoDuplicates(s: seq<int>, x: int)
    requires NoDuplicates(s)
    ensures NoDuplicates(Without(s, x))
  {
    if s != [] {
      assert NoDuplicates(s[1..]);
      WithoutKeepsNoDuplicates(s[1..], x);
      if s[0] != x {
        var w := Without(s[1..], x);
        assert s[0] !in s[1..];
        assert s[0] !in w;
        assert forall j :: 0 < j < |[s[0]] + w| ==> ([s[0]] + w)[j] == w[j - 1];
      }
    }
  }

  lemma ToggleKeepsNoDuplicates(s: seq<int>, i: int)
    requires NoDuplicates(s)
    ensures NoDuplicates(Toggled(s, i))
  {
    if i in s {
      WithoutKeepsNoDuplicates(s, i);
    }
  }

  /** A click on a listed step keeps every reachable-state invariant. */
  lemma ToggleKeepsWellFormed(s: seq<int>, i: int)
    requires WellFormed(s) && 0 <= i < StepCount
    ensures WellFormed(Toggled(s, i))
  {
    ToggleKeepsNoDuplicates(s, i);
    var r := Toggled(s, i);
    forall k | 0 <= k < |r|
      ensures 0 <= r[k] < StepCount
    {
      assert r[k] in r;
    }
  }

  /** Removing an absent value after appending it gives back the list. */
  lemma {:induction false} WithoutAppended(s: seq<int>, i: int)
    requires i !in s
    ensures Without(s + [i], i) == s
  {
    if s == [] {
      assert [i][1..] == [];
    } else {
      assert (s + [i])[1..] == s[1..] + [i];
      WithoutAppended(s[1..], i);
      assert s == [s[0]] + s[1..];
    }
  }

  /** Two clicks on the same step restore which steps are ticked; when the
      step was unticked they restore the list itself. */
  lemma ToggleTwice(s: seq<int>, i: int)
    ensures forall j :: j in Toggled(Toggled(s, i), i) <==> j in s
    ensures i !in s ==> Toggled(Toggled(s, i), i) == s
  {
    if i !in s {
      WithoutAppended(s, i);
    }
  }

  /** After any sequence of clicks, a step is ticked exactly when it was
      ticked before and was clicked an even number of times, or was unticked
      and was clicked an odd number of times. */
  lemma {:induction false} ClickParity(s: seq<int>, clicks: seq<int>, j: int)
    ensures j in ApplyClicks(s, clicks) <==> (j in s) != (multiset(clicks)[j] % 2 == 1)
    decreases |clicks|
  {
    if clicks != [] {
      ClickParity(Toggled(s, clicks[0]), clicks[1..], j);
      assert clicks == [clicks[0]] + clicks[1..];
      assert multiset(clicks) == multiset([clicks[0]]) + multiset(clicks[1..]);
    }
  }

  /** Every state the page can reach from the empty list by clicking step
      buttons is well formed. */
  lemma {:induction false} ClicksKeepWellFormed(s: seq<int>, clicks: seq<int>)
    requires WellFormed(s)
    requires forall k :: 0 <= k < |clicks| ==> 0 <= clicks[k] < StepCount
    ensures WellFormed(ApplyClicks(s, clicks))
    decreases |clicks|
  {
    if clicks != [] {
      ToggleKeepsWellFormed(s, clicks[0]);
      ClicksKeepWellFormed(Toggled(s, clicks[0]), clicks[1..]);
    }
  }

  // ---------------------------------------------------------------------------
  // Counter and banner

  /** A list without duplicates has as many values as positions. */
  lemma {:induction false} DistinctCardinality(s: seq<int>)
    requires NoDuplicates(s)
    ensures |Elements(s)| == |s|
  {
    if s != [] {
      assert NoDuplicates(s[1..]);
      DistinctCardinality(s[1..]);
      assert s[0] !in s[1..];
      assert Elements(s) == {s[0]} + Elements(s[1..]);
    }
  }

  /** A subset is no larger than its superset, and equal to it when as large. */
  lemma SubsetCardinality(a: set<int>, b: set<int>)
    requires a <= b
    ensures |a| <= |b|
    ensures |a| == |b| ==> a == b
  {
    assert b == a + (b - a);
    assert a * (b - a) == {};
    if |a| == |b| {
      assert |b - a| == 0;
    }
  }

  /** The counter never exceeds the number of steps. */
  lemma WellFormedBounded(s: seq<int>)
    requires WellFormed(s)
    ensures |s| <= StepCount
  {
    DistinctCardinality(s);
    assert Elements(s) <= Steps() by {
      forall x | x in Elements(s) ensures x in Steps() {
        var k :| 0 <= k < |s| && s[k] == x;
      }
    }
    SubsetCardinality(Elements(s), Steps());
  }

  /** The progress bar stays within 0..100 percent and is full exactly when
      every step is ticked. */
  lemma ProgressBounds(s: seq<int>)
    requires WellFormed(s)
    ensures 0 <= ProgressPercent(s) <= 100
    ensures ProgressPercent(s) == 100 <==> forall i :: 0 <= i < StepCount ==> IsCompleted(s, i)
  {
    WellFormedBounded(s);
    FullCountIffAllDone(s);
  }

  /** A reachable list has four entries exactly when every step is in it. */
  lemma FullCountIffAllDone(s: seq<int>)
    requires WellFormed(s)
    ensures |s| == StepCount <==> forall i :: 0 <= i < StepCount ==> IsCompleted(s, i)
  {
    DistinctCardinality(s);
    assert Elements(s) <= Steps() by {
      forall x | x in Elements(s) ensures x in Steps() {
        var k :| 0 <= k < |s| && s[k] == x;
      }
    }
    SubsetCardinality(Elements(s), Steps());
    if forall i :: 0 <= i < StepCount ==> IsCompleted(s, i) {
      assert Steps() <= Elements(s) by {
        forall i | i in Steps() ensures i in Elements(s) {
          assert IsCompleted(s, i);
        }
      }
      SubsetCardinality(Steps(), Elements(s));
    }
  }
}
