/** Vocabulary shared by the whole model: options, map iteration order and sums. */
module Collections {

  datatype Option<+T> = None | Some(value: T)

  /** `order` lists every element of `items` exactly once: one possible run of a `range` loop over a map. */
  ghost predicate Enumerates<T>(order: seq<T>, items: set<T>) {
    && (forall i | 0 <= i < |order| :: order[i] in items)
    && (forall x | x in items :: x in order)
    && (forall i, j | 0 <= i < j < |order| :: order[i] != order[j])
  }

  lemma {:induction false} EnumerationLength<T>(order: seq<T>, items: set<T>)
    requires Enumerates(order, items)
    ensures |order| == |items|
  {
    if order == [] {
      assert items == {};
    } else {
      var last := order[|order| - 1];
      var front := order[..|order| - 1];
      assert forall x | x in items - {last} :: x in front;
      EnumerationLength(front, items - {last});
    }
  }

  lemma OneItem<T>(order: seq<T>, x: T)
    requires Enumerates(order, {x})
    ensures order == [x]
  {
    EnumerationLength(order, {x});
  }

  lemma EnumerateOneMore<T>(order: seq<T>, items: set<T>, x: T)
    requires Enumerates(order, items) && x !in items
    ensures Enumerates(order + [x], items + {x})
  {
    var more := order + [x];
    forall y | y in items + {x} ensures y in more {
      if y == x { assert more[|order|] == x; }
    }
  }

  /** Some iteration order exists for every finite set. */
  ghost function SomeOrder<T>(items: set<T>): (order: seq<T>)
    ensures Enumerates(order, items)
  {
    if items == {} then [] else
      var x :| x in items;
      SomeOrder(items - {x}) + [x]
  }

  lemma {:induction false} SubsetSize<T>(a: set<T>, b: set<T>)
    requires a <= b
    ensures |a| <= |b|
  {
    assert b == a + (b - a);
  }

  lemma {:induction false} BoundedSetSize(items: set<nat>, bound: nat)
    requires forall x | x in items :: x < bound
    ensures |items| <= bound
    decreases bound
  {
    if bound == 0 {
      assert items == {};
    } else {
      BoundedSetSize(items - {bound - 1}, bound - 1);
      SubsetSize(items, (items - {bound - 1}) + {bound - 1});
    }
  }

  function Sum(xs: seq<nat>): nat {
    if xs == [] then 0 else Sum(xs[..|xs| - 1]) + xs[|xs| - 1]
  }

  lemma {:induction false} SumUpdate(xs: seq<nat>, i: nat, x: nat)
    requires i < |xs|
    ensures Sum(xs[i := x]) + xs[i] == Sum(xs) + x
  {
    var n := |xs| - 1;
    if i == n {
      assert xs[i := x][..n] == xs[..n];
    } else {
      assert xs[i := x][..n] == xs[..n][i := x];
      SumUpdate(xs[..n], i, x);
    }
  }

  lemma {:induction false} SumAppend(xs: seq<nat>, ys: seq<nat>)
    ensures Sum(xs + ys) == Sum(xs) + Sum(ys)
  {
    if ys == [] {
      assert xs + ys == xs;
    } else {
      assert (xs + ys)[..|xs + ys| - 1] == xs + ys[..|ys| - 1];
      SumAppend(xs, ys[..|ys| - 1]);
    }
  }

  /** The cost of `n` things of the same cost: multiplication, unrolled. */
  function Copies(n: nat, cost: nat): nat {
    if n == 0 then 0 else Copies(n - 1, cost) + cost
  }

  lemma {:induction false} CopiesGrow(n: nat, m: nat, cost: nat)
    requires n <= m
    ensures Copies(n, cost) <= Copies(m, cost)
  {
    if n < m {
      CopiesGrow(n, m - 1, cost);
    }
  }

  lemma {:induction false} SumOfConstant(xs: seq<nat>, cost: nat)
    requires forall i | 0 <= i < |xs| :: xs[i] == cost
    ensures Sum(xs) == Copies(|xs|, cost)
  {
    if xs != [] {
      SumOfConstant(xs[..|xs| - 1], cost);
    }
  }
}
