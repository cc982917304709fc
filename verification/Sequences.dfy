/** Filtering, mapping and summing over sequences, with the few laws the other modules use. */
module Sequences {

  /** Concatenation of `f` over the elements; filters and maps are instances. */
  function FlatMap<A, B>(s: seq<A>, f: A -> seq<B>): seq<B> {
    if s == [] then [] else FlatMap(s[..|s|-1], f) + f(s[|s|-1])
  }

  function Sum<A>(s: seq<A>, f: A -> nat): nat {
    if s == [] then 0 else Sum(s[..|s|-1], f) + f(s[|s|-1])
  }

  function Then<A, B, C>(f: A -> seq<B>, g: B -> seq<C>): A -> seq<C> {
    x => FlatMap(f(x), g)
  }

  function Weighing<A, B>(f: A -> seq<B>, w: B -> nat): A -> nat {
    x => Sum(f(x), w)
  }

  lemma {:induction false} FlatMapConcat<A, B>(s: seq<A>, t: seq<A>, f: A -> seq<B>)
    ensures FlatMap(s + t, f) == FlatMap(s, f) + FlatMap(t, f)
  {
    if t == [] {
      assert s + t == s;
    } else {
      FlatMapConcat(s, t[..|t|-1], f);
      assert (s + t)[..|s + t| - 1] == s + t[..|t|-1];
    }
  }

  lemma FlatMapOne<A, B>(x: A, f: A -> seq<B>)
    ensures FlatMap([x], f) == f(x)
  {
  }

  lemma FlatMapNext<A, B>(s: seq<A>, k: nat, f: A -> seq<B>)
    requires k < |s|
    ensures FlatMap(s[..k+1], f) == FlatMap(s[..k], f) + f(s[k])
  {
    assert s[..k+1][..k] == s[..k];
  }

  /** Two maps in a row are one map. */
  lemma {:induction false} FlatMapThen<A, B, C>(s: seq<A>, f: A -> seq<B>, g: B -> seq<C>)
    ensures FlatMap(FlatMap(s, f), g) == FlatMap(s, Then(f, g))
  {
    if s != [] {
      FlatMapThen(s[..|s|-1], f, g);
      FlatMapConcat(FlatMap(s[..|s|-1], f), f(s[|s|-1]), g);
    }
  }

  lemma {:induction false} FlatMapSame<A, B>(s: seq<A>, f: A -> seq<B>, g: A -> seq<B>)
    requires forall x :: x in s ==> f(x) == g(x)
    ensures FlatMap(s, f) == FlatMap(s, g)
  {
    if s != [] {
      FlatMapSame(s[..|s|-1], f, g);
    }
  }

  lemma {:induction false} FlatMapPairwise<A, B>(s: seq<A>, t: seq<A>, f: A -> seq<B>, g: A -> seq<B>)
    requires |s| == |t| && forall i :: 0 <= i < |s| ==> f(s[i]) == g(t[i])
    ensures FlatMap(s, f) == FlatMap(t, g)
  {
    if s != [] {
      FlatMapPairwise(s[..|s|-1], t[..|t|-1], f, g);
    }
  }

  lemma {:induction false} FlatMapIdentity<A>(s: seq<A>, f: A -> seq<A>)
    requires forall x :: x in s ==> f(x) == [x]
    ensures FlatMap(s, f) == s
  {
    if s != [] {
      FlatMapIdentity(s[..|s|-1], f);
    }
  }

  lemma {:induction false} FlatMapNothing<A, B>(s: seq<A>, f: A -> seq<B>)
    requires forall x :: x in s ==> f(x) == []
    ensures FlatMap(s, f) == []
  {
    if s != [] {
      FlatMapNothing(s[..|s|-1], f);
    }
  }

  lemma {:induction false} FlatMapHas<A, B>(s: seq<A>, f: A -> seq<B>, y: B)
    ensures y in FlatMap(s, f) <==> exists x :: x in s && y in f(x)
  {
    if s != [] {
      var front, last := s[..|s|-1], s[|s|-1];
      FlatMapHas(front, f, y);
      assert s == front + [last];
      if y in FlatMap(s, f) && y !in f(last) {
        var x :| x in front && y in f(x);
        assert x in s;
      }
    }
  }

  function Keeping<A>(p: A -> bool): A -> seq<A> {
    x => if p(x) then [x] else []
  }

  function Filter<A>(s: seq<A>, p: A -> bool): seq<A> {
    FlatMap(s, Keeping(p))
  }

  lemma FilterSnoc<A>(s: seq<A>, x: A, p: A -> bool)
    ensures Filter(s + [x], p) == if p(x) then Filter(s, p) + [x] else Filter(s, p)
  {
  }

  lemma FilterHas<A>(s: seq<A>, p: A -> bool, x: A)
    ensures x in Filter(s, p) <==> x in s && p(x)
  {
    FlatMapHas(s, Keeping(p), x);
  }

  lemma FilterTwice<A>(s: seq<A>, p: A -> bool, q: A -> bool, both: A -> bool)
    requires forall x :: both(x) <==> p(x) && q(x)
    ensures Filter(Filter(s, p), q) == Filter(s, both)
  {
    FlatMapThen(s, Keeping(p), Keeping(q));
    forall x | x in s
      ensures Then(Keeping(p), Keeping(q))(x) == Keeping(both)(x)
    {
      if p(x) {
        FlatMapOne(x, Keeping(q));
      }
    }
    FlatMapSame(s, Then(Keeping(p), Keeping(q)), Keeping(both));
  }

  lemma {:induction false} SumConcat<A>(s: seq<A>, t: seq<A>, f: A -> nat)
    ensures Sum(s + t, f) == Sum(s, f) + Sum(t, f)
  {
    if t == [] {
      assert s + t == s;
    } else {
      SumConcat(s, t[..|t|-1], f);
      assert (s + t)[..|s + t| - 1] == s + t[..|t|-1];
    }
  }

  lemma SumOne<A>(x: A, f: A -> nat)
    ensures Sum([x], f) == f(x)
  {
  }

  lemma {:induction false} SumFlatMap<A, B>(s: seq<A>, f: A -> seq<B>, w: B -> nat)
    ensures Sum(FlatMap(s, f), w) == Sum(s, Weighing(f, w))
  {
    if s != [] {
      SumFlatMap(s[..|s|-1], f, w);
      SumConcat(FlatMap(s[..|s|-1], f), f(s[|s|-1]), w);
    }
  }

  lemma SumLast<A>(s: seq<A>, f: A -> nat)
    requires s != []
    ensures Sum(s, f) == Sum(s[..|s|-1], f) + f(s[|s|-1])
  {
  }

  lemma SumNext<A>(s: seq<A>, k: nat, f: A -> nat)
    requires k < |s|
    ensures Sum(s[..k+1], f) == Sum(s[..k], f) + f(s[k])
  {
    assert s[..k+1][..k] == s[..k];
  }

  lemma SumNone<A>(f: A -> nat)
    ensures Sum([], f) == 0
  {
  }

  /** If every element weighs the same two ways (`f` against `g` plus `h`), so does the sequence. */
  lemma {:induction false} SumSplits<A>(s: seq<A>, f: A -> nat, g: A -> nat, h: A -> nat)
    requires forall x :: x in s ==> f(x) == g(x) + h(x)
    ensures Sum(s, f) == Sum(s, g) + Sum(s, h)
  {
    if s != [] {
      SumSplits(s[..|s|-1], f, g, h);
    }
  }

  ghost predicate DistinctBy<A, K>(s: seq<A>, key: A -> K) {
    forall i, j :: 0 <= i < j < |s| ==> key(s[i]) != key(s[j])
  }

  /** Keeping at most one element per element, with its key, keeps the keys distinct. */
  lemma {:induction false} FlatMapDistinct<A, B, K>(s: seq<A>, f: A -> seq<B>, keyA: A -> K, keyB: B -> K)
    requires DistinctBy(s, keyA)
    requires forall x :: |f(x)| <= 1 && forall y :: y in f(x) ==> keyB(y) == keyA(x)
    ensures DistinctBy(FlatMap(s, f), keyB)
  {
    if s != [] {
      var front, last := s[..|s|-1], s[|s|-1];
      FlatMapDistinct(front, f, keyA, keyB);
      forall i | 0 <= i < |FlatMap(front, f)|
        ensures keyB(FlatMap(front, f)[i]) != keyA(last)
      {
        FlatMapHas(front, f, FlatMap(front, f)[i]);
        var x :| x in front && FlatMap(front, f)[i] in f(x);
        var k :| 0 <= k < |front| && front[k] == x;
        assert s[k] == x;
      }
      assert f(last) != [] ==> f(last)[0] in f(last);
    }
  }

  /** Taking one element out of a sum. */
  lemma SumWithout<A>(s: seq<A>, k: nat, f: A -> nat)
    requires k < |s|
    ensures Sum(s, f) == Sum(s[..k] + s[k+1..], f) + f(s[k])
  {
    hide Sum;
    assert s == (s[..k] + [s[k]]) + s[k+1..];
    SumConcat(s[..k] + [s[k]], s[k+1..], f);
    SumConcat(s[..k], [s[k]], f);
    SumConcat(s[..k], s[k+1..], f);
    SumOne(s[k], f);
  }
}
