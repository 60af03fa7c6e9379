/** Comprehensions and sums over sequences.

    Every reported number rests on one fact about them: none depends on the order of its input.
    Elements may repeat, so the order-free view of a sequence is its multiset. */
module Aggregates {

  function Mapped<A, B>(f: A -> B, xs: seq<A>): (ys: seq<B>)
    ensures |ys| == |xs|
    ensures forall i :: 0 <= i < |xs| ==> ys[i] == f(xs[i])
  {
    if xs == [] then [] else [f(xs[0])] + Mapped(f, xs[1..])
  }

  /** The elements of `xs` that satisfy `p`, in order. */
  function Kept<A>(p: A -> bool, xs: seq<A>): (ys: seq<A>)
    ensures |ys| <= |xs|
  {
    if xs == [] then [] else (if p(xs[0]) then [xs[0]] else []) + Kept(p, xs[1..])
  }

  /** `xs[:k]`. */
  function Take<A>(xs: seq<A>, k: nat): seq<A> { if |xs| <= k then xs else xs[..k] }

  function Sum(xs: seq<real>): real {
    if xs == [] then 0.0 else xs[0] + Sum(xs[1..])
  }

  function Total(xs: seq<int>): int {
    if xs == [] then 0 else xs[0] + Total(xs[1..])
  }

  ghost predicate Distinct<A>(xs: seq<A>) {
    forall i, j :: 0 <= i < j < |xs| ==> xs[i] != xs[j]
  }

  lemma {:induction false} MappedConcat<A, B>(f: A -> B, xs: seq<A>, ys: seq<A>)
    ensures Mapped(f, xs + ys) == Mapped(f, xs) + Mapped(f, ys)
  {
    hide *;
  }

  lemma {:induction false} KeptConcat<A>(p: A -> bool, xs: seq<A>, ys: seq<A>)
    ensures Kept(p, xs + ys) == Kept(p, xs) + Kept(p, ys)
  {
    if xs == [] {
      assert xs + ys == ys;
    } else {
      assert (xs + ys)[1..] == xs[1..] + ys;
      KeptConcat(p, xs[1..], ys);
      var head := if p(xs[0]) then [xs[0]] else [];
      assert head + (Kept(p, xs[1..]) + Kept(p, ys)) == head + Kept(p, xs[1..]) + Kept(p, ys);
    }
  }

  lemma KeptOne<A>(p: A -> bool, x: A)
    ensures Kept(p, [x]) == if p(x) then [x] else []
  {
    assert [x][1..] == [];
    assert Kept(p, [x][1..]) == [];
  }

  lemma KeptAppend<A>(p: A -> bool, xs: seq<A>, x: A)
    ensures Kept(p, xs + [x]) == Kept(p, xs) + if p(x) then [x] else []
  {
    KeptConcat(p, xs, [x]);
    KeptOne(p, x);
  }

  lemma KeptLast<A>(p: A -> bool, xs: seq<A>)
    requires xs != []
    ensures Kept(p, xs) == Kept(p, xs[..|xs| - 1]) + if p(xs[|xs| - 1]) then [xs[|xs| - 1]] else []
  {
    hide *;
    KeptSplit(p, xs, xs[..|xs| - 1], xs[|xs| - 1]);
  }

  lemma KeptSplit<A>(p: A -> bool, xs: seq<A>, front: seq<A>, last: A)
    requires xs == front + [last]
    ensures Kept(p, xs) == Kept(p, front) + if p(last) then [last] else []
  {
    KeptAppend(p, front, last);
  }

  lemma {:induction false} KeptElements<A>(p: A -> bool, xs: seq<A>, x: A)
    ensures x in Kept(p, xs) <==> x in xs && p(x)
  {
    if xs != [] {
      assert xs == [xs[0]] + xs[1..];
      KeptElements(p, xs[1..], x);
    }
  }

  lemma {:induction false} SumConcat(xs: seq<real>, ys: seq<real>)
    ensures Sum(xs + ys) == Sum(xs) + Sum(ys)
  {
    if xs == [] {
      assert xs + ys == ys;
    } else {
      assert (xs + ys)[1..] == xs[1..] + ys;
      SumConcat(xs[1..], ys);
    }
  }

  lemma {:induction false} TotalConcat(xs: seq<int>, ys: seq<int>)
    ensures Total(xs + ys) == Total(xs) + Total(ys)
  {
    if xs == [] {
      assert xs + ys == ys;
    } else {
      assert (xs + ys)[1..] == xs[1..] + ys;
      TotalConcat(xs[1..], ys);
    }
  }

  /** Splits a nonempty permutation of `xs` around the first element of `xs`. */
  lemma SplitAtHead<A>(xs: seq<A>, ys: seq<A>) returns (i: nat)
    requires xs != [] && multiset(xs) == multiset(ys)
    ensures i < |ys| && ys[i] == xs[0]
    ensures ys == ys[..i] + [xs[0]] + ys[i + 1..]
    ensures multiset(xs[1..]) == multiset(ys[..i] + ys[i + 1..])
  {
    assert xs[0] in multiset(ys);
    i :| 0 <= i < |ys| && ys[i] == xs[0];
    assert ys == ys[..i] + [ys[i]] + ys[i + 1..];
    assert xs == [xs[0]] + xs[1..];
    calc {
      multiset(ys);
      multiset(ys[..i]) + multiset([xs[0]]) + multiset(ys[i + 1..]);
      multiset(ys[..i] + ys[i + 1..]) + multiset([xs[0]]);
    }
    assert xs == [xs[0]] + xs[1..];
    assert multiset(xs[1..]) == multiset(xs) - multiset([xs[0]]);
  }

  lemma {:induction false} SumPermuted(xs: seq<real>, ys: seq<real>)
    requires multiset(xs) == multiset(ys)
    ensures Sum(xs) == Sum(ys)
  {
    if xs == [] {
      assert |multiset(ys)| == 0;
    } else {
      var i := SplitAtHead(xs, ys);
      SumPermuted(xs[1..], ys[..i] + ys[i + 1..]);
      SumConcat(ys[..i], ys[i + 1..]);
      SumConcat(ys[..i], [xs[0]] + ys[i + 1..]);
      assert ys == ys[..i] + ([xs[0]] + ys[i + 1..]);
    }
  }

  lemma {:induction false} TotalPermuted(xs: seq<int>, ys: seq<int>)
    requires multiset(xs) == multiset(ys)
    ensures Total(xs) == Total(ys)
  {
    if xs == [] {
      assert |multiset(ys)| == 0;
    } else {
      var i := SplitAtHead(xs, ys);
      TotalPermuted(xs[1..], ys[..i] + ys[i + 1..]);
      TotalConcat(ys[..i], ys[i + 1..]);
      TotalConcat(ys[..i], [xs[0]] + ys[i + 1..]);
      assert ys == ys[..i] + ([xs[0]] + ys[i + 1..]);
    }
  }

  lemma {:induction false} MappedPermuted<A, B>(f: A -> B, xs: seq<A>, ys: seq<A>)
    requires multiset(xs) == multiset(ys)
    ensures multiset(Mapped(f, xs)) == multiset(Mapped(f, ys))
  {
    if xs == [] {
      assert |multiset(ys)| == 0;
    } else {
      var i := SplitAtHead(xs, ys);
      var before, after := ys[..i], ys[i + 1..];
      MappedPermuted(f, xs[1..], before + after);
      MappedConcat(f, before, after);
      MappedSplit(f, ys, i);
      SameBag(f(xs[0]), Mapped(f, xs[1..]), Mapped(f, before), Mapped(f, after));
    }
  }

  lemma MappedSplit<A, B>(f: A -> B, xs: seq<A>, i: nat)
    requires i < |xs|
    ensures Mapped(f, xs) == Mapped(f, xs[..i]) + [f(xs[i])] + Mapped(f, xs[i + 1..])
  {
    hide *;
  }

  lemma SameBag<A>(x: A, rest: seq<A>, before: seq<A>, after: seq<A>)
    requires multiset(rest) == multiset(before + after)
    ensures multiset([x] + rest) == multiset(before + [x] + after)
  {
  }

  lemma {:induction false} KeptPermuted<A>(p: A -> bool, xs: seq<A>, ys: seq<A>)
    requires multiset(xs) == multiset(ys)
    ensures multiset(Kept(p, xs)) == multiset(Kept(p, ys))
  {
    if xs == [] {
      assert |multiset(ys)| == 0;
    } else {
      var i := SplitAtHead(xs, ys);
      var before, after := ys[..i], ys[i + 1..];
      KeptPermuted(p, xs[1..], before + after);
      KeptConcat(p, before, after);
      KeptConcat(p, before, [xs[0]] + after);
      assert ys == before + ([xs[0]] + after);
      assert ([xs[0]] + after)[1..] == after;
    }
  }

  /** A permutation of a sequence without repetitions has none either. */
  lemma DistinctPermuted<A>(xs: seq<A>, ys: seq<A>)
    requires Distinct(xs) && multiset(xs) == multiset(ys)
    ensures Distinct(ys)
  {
    forall i, j | 0 <= i < j < |ys|
      ensures ys[i] != ys[j]
    {
      if ys[i] == ys[j] {
        assert ys == ys[..i] + [ys[i]] + ys[i + 1..j] + [ys[j]] + ys[j + 1..];
        assert multiset(ys)[ys[i]] >= 2;
        DistinctCount(xs, ys[i]);
      }
    }
  }

  lemma {:induction false} DistinctCount<A>(xs: seq<A>, x: A)
    requires Distinct(xs)
    ensures multiset(xs)[x] == if x in xs then 1 else 0
  {
    if xs != [] {
      assert xs == [xs[0]] + xs[1..];
      DistinctCount(xs[1..], x);
    }
  }

  lemma {:induction false} MappedMapped<A, B, C>(g: B -> C, f: A -> B, h: A -> C, xs: seq<A>)
    requires forall i :: 0 <= i < |xs| ==> g(f(xs[i])) == h(xs[i])
    ensures Mapped(g, Mapped(f, xs)) == Mapped(h, xs)
  {
    hide *;
  }

  lemma {:induction false} KeptOfMapped<A, B>(p: B -> bool, q: A -> bool, f: A -> B, xs: seq<A>)
    requires forall i :: 0 <= i < |xs| ==> p(f(xs[i])) == q(xs[i])
    ensures Kept(p, Mapped(f, xs)) == Mapped(f, Kept(q, xs))
  {
    if xs != [] {
      KeptOfMapped(p, q, f, xs[1..]);
      assert Mapped(f, xs)[1..] == Mapped(f, xs[1..]);
      MappedConcat(f, if q(xs[0]) then [xs[0]] else [], Kept(q, xs[1..]));
    }
  }

  lemma {:induction false} ConstantCount<A>(xs: seq<A>, x: A)
    requires forall i :: 0 <= i < |xs| ==> xs[i] == x
    ensures multiset(xs)[x] == |xs|
  {
    if xs != [] {
      assert xs == [xs[0]] + xs[1..];
      ConstantCount(xs[1..], x);
    }
  }

  lemma {:induction false} KeptBag<A>(p: A -> bool, xs: seq<A>)
    ensures multiset(Kept(p, xs)) <= multiset(xs)
  {
    if xs != [] {
      assert xs == [xs[0]] + xs[1..];
      KeptBag(p, xs[1..]);
    }
  }
}
