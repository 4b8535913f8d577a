/** Finite sets of integers put into order, and lists filtered in order. */
module Sorting {

  /** out is what a filter keeps of xs, each in its new shape: out[q] comes from the place at[q], and at goes upwards
      through exactly the places of the kept elements. */
  ghost predicate Filters<T, U(!new)>(xs: seq<T>, keep: T -> bool, shape: T -> U, out: seq<U>, at: seq<nat>) {
    && |at| == |out|
    && (forall q | 0 <= q < |at| :: at[q] < |xs| && keep(xs[at[q]]) && out[q] == shape(xs[at[q]]))
    && (forall q, r | 0 <= q < r < |at| :: at[q] < at[r])
    && (forall i: nat | i < |xs| && keep(xs[i]) :: i in at)
  }

  /** Kept in order, for some such places. */
  ghost predicate Filtered<T, U(!new)>(xs: seq<T>, keep: T -> bool, shape: T -> U, out: seq<U>) {
    exists at: seq<nat> :: Filters(xs, keep, shape, out, at)
  }

  lemma NothingFiltered<T, U(!new)>(keep: T -> bool, shape: T -> U)
    ensures Filtered([], keep, shape, [])
  {
    assert Filters([], keep, shape, [], []);
  }

  lemma FilterOneMore<T, U(!new)>(xs: seq<T>, keep: T -> bool, shape: T -> U, out: seq<U>, e: T)
    requires Filtered(xs, keep, shape, out)
    ensures Filtered(xs + [e], keep, shape, if keep(e) then out + [shape(e)] else out)
  {
    hide Filters;
    var at: seq<nat> :| Filters(xs, keep, shape, out, at);
    if keep(e) {
      KeptOneMore(xs, keep, shape, out, at, e);
    } else {
      DroppedOneMore(xs, keep, shape, out, at, e);
    }
  }

  lemma DroppedOneMore<T, U(!new)>(xs: seq<T>, keep: T -> bool, shape: T -> U, out: seq<U>, at: seq<nat>, e: T)
    requires Filters(xs, keep, shape, out, at) && !keep(e)
    ensures Filters(xs + [e], keep, shape, out, at)
  {
  }

  lemma KeptOneMore<T, U(!new)>(xs: seq<T>, keep: T -> bool, shape: T -> U, out: seq<U>, at: seq<nat>, e: T)
    requires Filters(xs, keep, shape, out, at) && keep(e)
    ensures Filters(xs + [e], keep, shape, out + [shape(e)], at + [|xs|])
  {
    var (all, more) := (xs + [e], at + [|xs|]);
    forall i: nat | i < |all| && keep(all[i])
      ensures i in more
    {
      if i < |xs| {
        assert i in at;
      } else {
        assert more[|at|] == i;
      }
    }
  }

  predicate Ascending(xs: seq<int>) {
    forall i, j | 0 <= i < j < |xs| :: xs[i] < xs[j]
  }

  method Pick<T(==)>(s: set<T>) returns (x: T)
    requires s != {}
    ensures x in s
  {
    x :| x in s;
  }

  method Least(s: set<int>) returns (m: int)
    requires s != {}
    ensures m in s && forall y | y in s :: m <= y
  {
    m := Pick(s);
    var rest := s - {m};
    while rest != {}
      invariant rest <= s && m in s && forall y | y in s && y !in rest :: m <= y
      decreases rest
    {
      var c := Pick(rest);
      if c < m { m := c; }
      rest := rest - {c};
    }
  }

  method SortInts(s: set<int>) returns (xs: seq<int>)
    ensures Ascending(xs) && forall x :: x in xs <==> x in s
  {
    xs := [];
    var todo := s;
    while todo != {}
      invariant todo <= s && forall x :: x in xs <==> x in s && x !in todo
      invariant Ascending(xs) && forall x, y | x in xs && y in todo :: x < y
      decreases todo
    {
      var m := Least(todo);
      assert forall i | 0 <= i < |xs| :: xs[i] in xs;
      xs := xs + [m];
      todo := todo - {m};
    }
  }

  /** The last one is the greatest, and the rest are the others. */
  lemma WithoutLast(xs: seq<int>)
    requires Ascending(xs) && xs != []
    ensures var (front, last) := (xs[..|xs| - 1], xs[|xs| - 1]);
            Ascending(front) && last in xs && forall x :: (x in xs ==> x <= last) && (x in front <==> x in xs && x != last)
  {
    assert xs == xs[..|xs| - 1] + [xs[|xs| - 1]];
  }

  lemma {:induction false} AscendingIsUnique(xs: seq<int>, ys: seq<int>)
    requires Ascending(xs) && Ascending(ys) && forall x :: x in xs <==> x in ys
    ensures xs == ys
    decreases |xs|
  {
    assert xs != [] <==> ys != [] by {
      if ys != [] {
        assert ys[0] in ys;
        assert ys[0] in xs;
      }
      if xs != [] {
        assert xs[0] in xs;
        assert xs[0] in ys;
      }
    }
    if xs != [] {
      WithoutLast(xs);
      WithoutLast(ys);
      hide Ascending;
      var (a, b) := (|xs| - 1, |ys| - 1);
      AscendingIsUnique(xs[..a], ys[..b]);
      assert xs == xs[..a] + [xs[a]] && ys == ys[..b] + [ys[b]];
    }
  }
}
