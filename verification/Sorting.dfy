/** Python's `sorted`: stable, and determined by its input's elements alone where no two are tied.

    An order is given by its strict part; elements are tied when neither comes before the other.
    The sort is by insertion, from the back, which keeps tied elements in their order. */
module Sorting {
  import opened Aggregates

  type Before<!A> = (A, A) -> bool

  /** `before` is a strict order in which being tied is transitive. */
  ghost predicate Weak<A(!new)>(before: Before<A>) {
    && (forall a, b :: before(a, b) ==> !before(b, a))
    && forall a, b, c :: before(a, c) ==> before(a, b) || before(b, c)
  }

  ghost predicate Ordered<A>(before: Before<A>, ys: seq<A>) {
    forall i, j :: 0 <= i < j < |ys| ==> !before(ys[j], ys[i])
  }

  function Insert<A>(before: Before<A>, x: A, ys: seq<A>): seq<A> {
    if ys == [] then [x]
    else if before(ys[0], x) then [ys[0]] + Insert(before, x, ys[1..])
    else [x] + ys
  }

  function Sort<A>(before: Before<A>, xs: seq<A>): seq<A> {
    if xs == [] then [] else Insert(before, xs[0], Sort(before, xs[1..]))
  }

  lemma {:induction false} InsertPermutes<A>(before: Before<A>, x: A, ys: seq<A>)
    ensures multiset(Insert(before, x, ys)) == multiset(ys) + multiset{x}
  {
    if ys != [] {
      assert ys == [ys[0]] + ys[1..];
      InsertPermutes(before, x, ys[1..]);
    }
  }

  lemma {:induction false} SortPermutes<A>(before: Before<A>, xs: seq<A>)
    ensures multiset(Sort(before, xs)) == multiset(xs) && |Sort(before, xs)| == |xs|
  {
    if xs != [] {
      assert xs == [xs[0]] + xs[1..];
      SortPermutes(before, xs[1..]);
      InsertPermutes(before, xs[0], Sort(before, xs[1..]));
      assert |multiset(Sort(before, xs))| == |multiset(xs)|;
    }
  }

  lemma NotBefore<A(!new)>(before: Before<A>, x: A, y: A, z: A)
    requires Weak(before) && !before(y, x) && (z == y || !before(z, y))
    ensures !before(z, x)
  {
    assert before(z, x) ==> before(z, y) || before(y, x);
  }

  lemma {:induction false} InsertOrders<A(!new)>(before: Before<A>, x: A, ys: seq<A>)
    requires Weak(before) && Ordered(before, ys)
    ensures Ordered(before, Insert(before, x, ys))
  {
    if ys != [] && before(ys[0], x) {
      InsertOrders(before, x, ys[1..]);
      var rest := Insert(before, x, ys[1..]);
      InsertPermutes(before, x, ys[1..]);
      forall j | 0 <= j < |rest|
        ensures !before(rest[j], ys[0])
      {
        assert rest[j] in multiset(rest);
        if rest[j] != x {
          var i :| 0 <= i < |ys[1..]| && ys[1..][i] == rest[j];
          assert ys[i + 1] == rest[j];
        }
      }
    } else if ys != [] {
      forall j | 0 <= j < |ys|
        ensures !before(ys[j], x)
      {
        NotBefore(before, x, ys[0], ys[j]);
      }
    }
  }

  lemma {:induction false} SortOrders<A(!new)>(before: Before<A>, xs: seq<A>)
    requires Weak(before)
    ensures Ordered(before, Sort(before, xs))
  {
    if xs != [] {
      SortOrders(before, xs[1..]);
      InsertOrders(before, xs[0], Sort(before, xs[1..]));
    }
  }

  function Tied<A>(before: Before<A>, x: A): A -> bool { (y: A) => !before(x, y) && !before(y, x) }

  lemma {:induction false} InsertKeepsTies<A(!new)>(before: Before<A>, x: A, ys: seq<A>, z: A)
    requires Weak(before)
    ensures Kept(Tied(before, z), Insert(before, x, ys))
            == (if Tied(before, z)(x) then [x] else []) + Kept(Tied(before, z), ys)
  {
    if ys != [] && before(ys[0], x) {
      InsertKeepsTies(before, x, ys[1..], z);
      assert Insert(before, x, ys)[1..] == Insert(before, x, ys[1..]);
      assert !(Tied(before, z)(x) && Tied(before, z)(ys[0]));
    } else {
      assert Insert(before, x, ys)[1..] == ys;
    }
  }

  /** Stable: tied elements keep their order. */
  lemma {:induction false} SortIsStable<A(!new)>(before: Before<A>, xs: seq<A>, z: A)
    requires Weak(before)
    ensures Kept(Tied(before, z), Sort(before, xs)) == Kept(Tied(before, z), xs)
  {
    if xs != [] {
      SortIsStable(before, xs[1..], z);
      InsertKeepsTies(before, xs[0], Sort(before, xs[1..]), z);
    }
  }

  /** Only equal elements are tied. */
  ghost predicate Linear<A(!new)>(before: Before<A>) {
    forall a, b :: !before(a, b) && !before(b, a) ==> a == b
  }

  lemma OrderedTail<A>(before: Before<A>, xs: seq<A>)
    requires Ordered(before, xs) && xs != []
    ensures Ordered(before, xs[1..])
  {
  }

  lemma BagTail<A>(xs: seq<A>)
    requires xs != []
    ensures multiset(xs[1..]) == multiset(xs) - multiset{xs[0]} && xs == [xs[0]] + xs[1..]
  {
    assert xs == [xs[0]] + xs[1..];
  }

  lemma HeadsAgree<A(!new)>(before: Before<A>, xs: seq<A>, ys: seq<A>)
    requires Linear(before)
    requires Ordered(before, xs) && Ordered(before, ys) && multiset(xs) == multiset(ys) && xs != [] && ys != []
    ensures xs[0] == ys[0]
  {
    assert xs[0] in multiset(ys) && ys[0] in multiset(xs);
    var i :| 0 <= i < |ys| && ys[i] == xs[0];
    var j :| 0 <= j < |xs| && xs[j] == ys[0];
  }

  /** Where only equal elements are tied, a sorted sequence is determined by its elements. */
  lemma {:induction false} OrderedIsUnique<A(!new)>(before: Before<A>, xs: seq<A>, ys: seq<A>)
    requires Linear(before)
    requires Ordered(before, xs) && Ordered(before, ys) && multiset(xs) == multiset(ys)
    ensures xs == ys
  {
    hide Linear, Ordered;
    if xs == [] {
      assert |multiset(ys)| == 0;
    } else {
      assert |multiset(xs)| == |multiset(ys)|;
      HeadsAgree(before, xs, ys);
      BagTail(xs);
      BagTail(ys);
      OrderedTail(before, xs);
      OrderedTail(before, ys);
      OrderedIsUnique(before, xs[1..], ys[1..]);
    }
  }

  function Smaller(): Before<real> { (a: real, b: real) => a < b }

  /** Sorting numbers forgets the order they came in. */
  lemma SortForgetsOrder(xs: seq<real>, ys: seq<real>)
    requires multiset(xs) == multiset(ys)
    ensures Sort(Smaller(), xs) == Sort(Smaller(), ys)
  {
    SortPermutes(Smaller(), xs);
    SortPermutes(Smaller(), ys);
    SortOrders(Smaller(), xs);
    SortOrders(Smaller(), ys);
    OrderedIsUnique(Smaller(), Sort(Smaller(), xs), Sort(Smaller(), ys));
  }
}
