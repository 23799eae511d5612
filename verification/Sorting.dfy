/** Strictly ascending lists: a set of numbers in order. */
module Sorting {

  predicate Ascending(items: seq<int>) {
    forall i, j :: 0 <= i < j < |items| ==> items[i] < items[j]
  }

  lemma AppendAscending(items: seq<int>, x: int)
    requires Ascending(items) && forall y | y in items :: y < x
    ensures Ascending(items + [x])
  {
    forall i | 0 <= i < |items|
      ensures items[i] < x
    {
      assert items[i] in items;
    }
  }

  lemma EmptyOrMember(items: seq<int>)
    ensures items == [] || exists x :: x in items
  {
    if items != [] {
      var x := items[0];
      assert x in items;
    }
  }

  lemma {:induction false} AscendingIsDetermined(first: seq<int>, second: seq<int>)
    requires Ascending(first) && Ascending(second)
    requires forall x :: x in first <==> x in second
    ensures first == second
  {
    if first == [] {
      EmptyOrMember(second);
    } else {
      assert first[0] in second && second != [];
      assert second[0] in first;
      assert first[0] == second[0];
      forall x
        ensures x in first[1..] <==> x in second[1..]
      {
        assert x in first[1..] <==> x in first && x != first[0];
        assert x in second[1..] <==> x in second && x != second[0];
      }
      AscendingIsDetermined(first[1..], second[1..]);
    }
  }

  /** Sorting by insertion; any correct sort gives the same list. */
  method Sort(items: seq<int>) returns (sorted: seq<int>)
    requires forall i, j :: 0 <= i < j < |items| ==> items[i] != items[j]
    ensures Ascending(sorted) && forall x :: x in sorted <==> x in items
  {
    sorted := [];
    for n := 0 to |items|
      invariant Ascending(sorted) && forall x :: x in sorted <==> x in items[..n]
    {
      assert items[..n + 1] == items[..n] + [items[n]];
      assert items[n] !in items[..n];
      sorted := Insert(sorted, items[n]);
    }
    assert items[..|items|] == items;
  }

  method Insert(sorted: seq<int>, x: int) returns (longer: seq<int>)
    requires Ascending(sorted) && x !in sorted
    ensures Ascending(longer) && forall y :: y in longer <==> y in sorted || y == x
  {
    var k := |sorted|;
    while k > 0 && sorted[k - 1] > x
      invariant 0 <= k <= |sorted|
      invariant forall i :: k <= i < |sorted| ==> sorted[i] > x
    {
      k := k - 1;
    }
    assert k > 0 ==> sorted[k - 1] in sorted;
    InsertAscending(sorted, k, x);
    longer := sorted[..k] + [x] + sorted[k..];
  }

  lemma InsertAscending(sorted: seq<int>, k: nat, x: int)
    requires Ascending(sorted) && k <= |sorted|
    requires k > 0 ==> sorted[k - 1] < x
    requires k < |sorted| ==> x < sorted[k]
    ensures var longer := sorted[..k] + [x] + sorted[k..];
            Ascending(longer) && forall y: int :: y in longer <==> y in sorted || y == x
  {
    var low, high := sorted[..k], sorted[k..];
    assert sorted == low + high;
    JoinAscending(low, [x]);
    JoinAscending(low + [x], high);
  }

  lemma JoinAscending(low: seq<int>, high: seq<int>)
    requires Ascending(low) && Ascending(high)
    requires low != [] && high != [] ==> low[|low| - 1] < high[0]
    ensures Ascending(low + high)
  {
  }
}
