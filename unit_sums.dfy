/** Sums of per-unit values over lists of work units, and the fact that a
    sum depends only on which units are in the list: splitting the units
    among several lists and adding the lists' sums gives the same total. */
module UnitSums {

  /** The sum of `f` over the units in `units`. */
  function Sum(units: seq<nat>, f: nat -> int): int
  {
    if |units| == 0 then 0 else Sum(units[..|units| - 1], f) + f(units[|units| - 1])
  }

  lemma {:induction false} SumAppend(a: seq<nat>, b: seq<nat>, f: nat -> int)
    ensures Sum(a + b, f) == Sum(a, f) + Sum(b, f)
  {
    if |b| > 0 {
      SumAppend(a, b[..|b| - 1], f);
      assert (a + b)[..|a + b| - 1] == a + b[..|b| - 1];
    } else {
      assert a + b == a;
    }
  }

  /** A sum does not depend on the order of the units. */
  lemma {:induction false} SumPermutation(a: seq<nat>, b: seq<nat>, f: nat -> int)
    requires multiset(a) == multiset(b)
    ensures Sum(a, f) == Sum(b, f)
  {
    if |a| > 0 {
      var x := a[|a| - 1];
      var a' := a[..|a| - 1];
      assert a == a' + [x];
      assert x in multiset(b);
      var i :| 0 <= i < |b| && b[i] == x;
      var b' := b[..i] + b[i + 1..];
      assert b == b[..i] + [x] + b[i + 1..];
      assert multiset(a') == multiset(b') by {
        calc {
          multiset(b);
          multiset(b[..i] + [x] + b[i + 1..]);
          multiset(b[..i]) + multiset([x]) + multiset(b[i + 1..]);
          multiset(b') + multiset{x};
        }
        assert multiset(a) == multiset(a') + multiset{x};
        Cancel(multiset(a'), multiset(b'), x);
      }
      SumPermutation(a', b', f);
      SumAppend(b[..i] + [x], b[i + 1..], f);
      SumAppend(b[..i], [x], f);
      SumAppend(b[..i], b[i + 1..], f);
      assert Sum([x], f) == f(x) by {
        assert [x][..0] == [];
      }
    } else {
      assert b == [];
    }
  }

  lemma Cancel(m1: multiset<nat>, m2: multiset<nat>, x: nat)
    requires m1 + multiset{x} == m2 + multiset{x}
    ensures m1 == m2
  {
    assert m1 == (m1 + multiset{x}) - multiset{x};
    assert m2 == (m2 + multiset{x}) - multiset{x};
  }

  /** The units 0 .. n-1. */
  function Range(n: nat): (r: seq<nat>)
    ensures |r| == n && forall i :: 0 <= i < n ==> r[i] == i
  {
    if n == 0 then [] else Range(n - 1) + [n - 1]
  }

  /** The lists one after the other. */
  function Concat(lists: seq<seq<nat>>): seq<nat>
  {
    if |lists| == 0 then [] else Concat(lists[..|lists| - 1]) + lists[|lists| - 1]
  }

  /** The sums of the lists, added up. */
  function SumEach(lists: seq<seq<nat>>, f: nat -> int): int
  {
    if |lists| == 0 then 0 else SumEach(lists[..|lists| - 1], f) + Sum(lists[|lists| - 1], f)
  }

  lemma {:induction false} SumEachConcat(lists: seq<seq<nat>>, f: nat -> int)
    ensures SumEach(lists, f) == Sum(Concat(lists), f)
  {
    if |lists| > 0 {
      SumEachConcat(lists[..|lists| - 1], f);
      SumAppend(Concat(lists[..|lists| - 1]), lists[|lists| - 1], f);
    }
  }

  /** When the lists hold the units 0 .. n-1, each exactly once between
      them, their sums add up to the sum over all the units. */
  lemma PartitionSum(lists: seq<seq<nat>>, n: nat, f: nat -> int)
    requires Partition(lists, n)
    ensures SumEach(lists, f) == Sum(Range(n), f)
  {
    SumEachConcat(lists, f);
    SumPermutation(Concat(lists), Range(n), f);
  }

  lemma {:induction false} ConcatOfEmpty(lists: seq<seq<nat>>)
    requires forall i :: 0 <= i < |lists| ==> lists[i] == []
    ensures Concat(lists) == []
  {
    if |lists| > 0 {
      ConcatOfEmpty(lists[..|lists| - 1]);
    }
  }

  /** Adding a unit to one list adds it once to the units of all lists. */
  lemma {:induction false} ConcatAppend(lists: seq<seq<nat>>, d: nat, u: nat)
    requires d < |lists|
    ensures multiset(Concat(lists[d := lists[d] + [u]])) == multiset(Concat(lists)) + multiset{u}
  {
    var lists' := lists[d := lists[d] + [u]];
    var n := |lists|;
    if d == n - 1 {
      assert lists'[..n - 1] == lists[..n - 1];
    } else {
      assert lists'[..n - 1] == lists[..n - 1][d := lists[d] + [u]];
      ConcatAppend(lists[..n - 1], d, u);
    }
  }

  /** The lists hold the units 0 .. n-1, each exactly once between them. */
  ghost predicate Partition(lists: seq<seq<nat>>, n: nat)
  {
    multiset(Concat(lists)) == multiset(Range(n))
  }

  /** Handing out the next unit to one list keeps the lists a partition. */
  lemma PartitionStep(lists: seq<seq<nat>>, d: nat, n: nat)
    requires d < |lists| && Partition(lists, n)
    ensures Partition(lists[d := lists[d] + [n]], n + 1)
  {
    ConcatAppend(lists, d, n);
    assert Range(n + 1) == Range(n) + [n];
  }

  /** A list of strictly increasing units. */
  predicate Increasing(s: seq<nat>)
  {
    forall i, j :: 0 <= i < j < |s| ==> s[i] < s[j]
  }

  /** A unit above the last unit of an increasing list extends it. */
  lemma IncreasingAppend(units: seq<nat>, u: nat)
    requires Increasing(units)
    requires |units| > 0 ==> units[|units| - 1] < u
    ensures Increasing(units + [u])
  {
    var units' := units + [u];
    forall i, j | 0 <= i < j < |units'|
      ensures units'[i] < units'[j]
    {
      if j == |units| {
        assert units'[i] <= units[|units| - 1];
      }
    }
  }
}
