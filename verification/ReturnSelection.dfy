/** Choosing which returnable orders make up a downsize: an exhaustive search over all
    sub-collections, shared by draft validation and by fulfillment. */
module ReturnSelection {
  import opened AdobeOrders
  import opened Sequences
  import opened Subscriptions

  /** A returnable order line; orders are listed in the order Adobe returns them. */
  datatype Candidate = Candidate(order: OrderId, number: nat, sku: Sku, quantity: nat, deployment: Option<nat>)

  function QuantityOf(c: Candidate): nat {
    c.quantity
  }

  function Quantity(cs: seq<Candidate>): nat {
    Sum(cs, QuantityOf)
  }

  /** `c` is `s` with some elements left out. */
  predicate Subsequence(c: seq<Candidate>, s: seq<Candidate>) {
    c == [] || (s != [] && ((c[0] == s[0] && Subsequence(c[1..], s[1..])) || Subsequence(c, s[1..])))
  }

  function Prepending(x: Candidate): seq<Candidate> -> seq<seq<Candidate>> {
    (c: seq<Candidate>) => [[x] + c]
  }

  /** itertools.combinations: sub-collections of one size, in lexicographic order of positions. */
  function Combinations(s: seq<Candidate>, size: nat): seq<seq<Candidate>> {
    if size == 0 then [[]]
    else if s == [] then []
    else FlatMap(Combinations(s[1..], size - 1), Prepending(s[0])) + Combinations(s[1..], size)
  }

  lemma CombinationsOfMore(s: seq<Candidate>, size: nat, c: seq<Candidate>)
    requires size > 0 && s != []
    ensures c in Combinations(s, size) <==>
            c in Combinations(s[1..], size) || (c != [] && c[0] == s[0] && c[1..] in Combinations(s[1..], size - 1))
  {
    var tails := Combinations(s[1..], size - 1);
    FlatMapHas(tails, Prepending(s[0]), c);
    if tail :| tail in tails && c in Prepending(s[0])(tail) {
      assert c[1..] == tail;
    }
    if c != [] && c[0] == s[0] && c[1..] in tails {
      assert [s[0]] + c[1..] == c;
      assert c in Prepending(s[0])(c[1..]);
    }
  }

  lemma CombinationsOfFew(s: seq<Candidate>, size: nat, c: seq<Candidate>)
    requires size == 0 || s == []
    ensures c in Combinations(s, size) <==> c == [] && size == 0
  {
  }

  lemma {:induction false} CombinationIsSubsequence(s: seq<Candidate>, size: nat, c: seq<Candidate>)
    requires c in Combinations(s, size)
    ensures |c| == size && Subsequence(c, s)
  {
    hide Combinations;
    if size == 0 || s == [] {
      CombinationsOfFew(s, size, c);
    } else {
      CombinationsOfMore(s, size, c);
      if c in Combinations(s[1..], size) {
        CombinationIsSubsequence(s[1..], size, c);
      } else {
        CombinationIsSubsequence(s[1..], size - 1, c[1..]);
      }
    }
  }

  lemma {:induction false} SubsequenceIsCombination(s: seq<Candidate>, c: seq<Candidate>)
    requires Subsequence(c, s)
    ensures c in Combinations(s, |c|)
  {
    hide Combinations;
    if c == [] {
      CombinationsOfFew(s, 0, c);
    } else {
      CombinationsOfMore(s, |c|, c);
      if Subsequence(c, s[1..]) {
        SubsequenceIsCombination(s[1..], c);
      } else {
        SubsequenceIsCombination(s[1..], c[1..]);
      }
    }
  }

  lemma CombinationsAreSubsequences(s: seq<Candidate>, size: nat, c: seq<Candidate>)
    ensures c in Combinations(s, size) <==> |c| == size && Subsequence(c, s)
  {
    if c in Combinations(s, size) {
      CombinationIsSubsequence(s, size, c);
    }
    if |c| == size && Subsequence(c, s) {
      SubsequenceIsCombination(s, c);
    }
  }

  /** Last collection of the list with the given total. */
  function LastWith(cs: seq<seq<Candidate>>, total: nat): (found: Option<seq<Candidate>>)
    ensures found.Some? ==> found.value in cs && Quantity(found.value) == total
    ensures found.None? ==> forall c :: c in cs ==> Quantity(c) != total
  {
    if cs == [] then None
    else if Quantity(cs[|cs|-1]) == total then Some(cs[|cs|-1])
    else LastWith(cs[..|cs|-1], total)
  }

  /** Smallest size from `size` on that has a collection with the given total, and its last one. */
  function SelectFrom(s: seq<Candidate>, size: nat, total: nat): Option<seq<Candidate>>
    decreases |s| + 1 - size
  {
    if size > |s| then None else
    var found := LastWith(Combinations(s, size), total);
    if found.Some? then found else SelectFrom(s, size + 1, total)
  }

  function Selected(s: seq<Candidate>, total: nat): Option<seq<Candidate>> {
    SelectFrom(s, 1, total)
  }

  lemma {:induction false} SelectFromExact(s: seq<Candidate>, size: nat, total: nat)
    ensures var found := SelectFrom(s, size, total);
            && (found.Some? ==>
                  && |found.value| >= size && Subsequence(found.value, s) && Quantity(found.value) == total
                  && forall c :: Subsequence(c, s) && |c| >= size && Quantity(c) == total ==> |found.value| <= |c|)
            && (found.None? ==> forall c :: Subsequence(c, s) && |c| >= size ==> Quantity(c) != total)
    decreases |s| + 1 - size
  {
    if size > |s| {
      forall c | Subsequence(c, s)
        ensures |c| <= |s|
      {
        SubsequenceIsShorter(c, s);
      }
    } else {
      var found := LastWith(Combinations(s, size), total);
      if found.Some? {
        CombinationsAreSubsequences(s, size, found.value);
      } else {
        SelectFromExact(s, size + 1, total);
        forall c | Subsequence(c, s) && |c| == size
          ensures Quantity(c) != total
        {
          CombinationsAreSubsequences(s, size, c);
        }
      }
    }
  }

  lemma {:induction false} SubsequenceIsShorter(c: seq<Candidate>, s: seq<Candidate>)
    requires Subsequence(c, s)
    ensures |c| <= |s| && forall x :: x in c ==> x in s
  {
    if c != [] {
      if Subsequence(c, s[1..]) {
        SubsequenceIsShorter(c, s[1..]);
      } else {
        SubsequenceIsShorter(c[1..], s[1..]);
        assert c == [c[0]] + c[1..];
      }
    }
  }

  /** The selection is sound and complete for subset sum, and picks a smallest collection. */
  lemma SelectionIsExact(s: seq<Candidate>, total: nat)
    ensures Selected(s, total).Some? <==> exists c :: c != [] && Subsequence(c, s) && Quantity(c) == total
    ensures Selected(s, total).Some? ==>
              var chosen := Selected(s, total).value;
              && chosen != [] && Subsequence(chosen, s) && Quantity(chosen) == total
              && forall c :: c != [] && Subsequence(c, s) && Quantity(c) == total ==> |chosen| <= |c|
  {
    SelectFromExact(s, 1, total);
  }

  /******* Which of several collections is chosen *******/

  /** Where the two first differ, `a` takes a candidate listed before the one `b` takes. */
  ghost predicate Earlier(a: seq<Candidate>, b: seq<Candidate>, s: seq<Candidate>) {
    exists p, i, j :: 0 <= p < |a| && p < |b| && a[..p] == b[..p] && 0 <= i < j < |s| && a[p] == s[i] && b[p] == s[j]
  }

  lemma EarlierAfter(x: Candidate, a: seq<Candidate>, b: seq<Candidate>, s: seq<Candidate>)
    requires Earlier(a, b, s)
    ensures Earlier(a, b, [x] + s) && Earlier([x] + a, [x] + b, [x] + s)
  {
    var p, i, j :| 0 <= p < |a| && p < |b| && a[..p] == b[..p] && 0 <= i < j < |s| && a[p] == s[i] && b[p] == s[j];
    assert ([x] + s)[i+1] == s[i] && ([x] + s)[j+1] == s[j];
    assert ([x] + a)[..p+1] == [x] + a[..p] && ([x] + b)[..p+1] == [x] + b[..p];
    assert ([x] + a)[p+1] == a[p] && ([x] + b)[p+1] == b[p];
  }

  lemma {:induction false} PrependedAt(x: Candidate, tails: seq<seq<Candidate>>)
    ensures |FlatMap(tails, Prepending(x))| == |tails|
    ensures forall k :: 0 <= k < |tails| ==> FlatMap(tails, Prepending(x))[k] == [x] + tails[k]
  {
    if tails != [] {
      PrependedAt(x, tails[..|tails|-1]);
    }
  }

  lemma FirstIsEarlier(s: seq<Candidate>, a: seq<Candidate>, b: seq<Candidate>)
    requires s != [] && a != [] && b != [] && a[0] == s[0] && Subsequence(b, s[1..])
    ensures Earlier(a, b, s)
  {
    SubsequenceIsShorter(b, s[1..]);
    assert b[0] in s[1..];
    var j :| 0 <= j < |s| - 1 && s[1..][j] == b[0];
    assert a[..0] == b[..0] && b[0] == s[j+1];
  }

  /** Combinations come in the order of the positions they take. */
  lemma {:induction false} CombinationsInOrder(s: seq<Candidate>, size: nat, x: nat, y: nat)
    requires x < y < |Combinations(s, size)|
    ensures Earlier(Combinations(s, size)[x], Combinations(s, size)[y], s)
  {
    hide Earlier, FlatMap, Subsequence;
    var tails := Combinations(s[1..], size - 1);
    var first, second := Combinations(s, size)[x], Combinations(s, size)[y];
    PrependedAt(s[0], tails);
    assert s == [s[0]] + s[1..];
    if y < |tails| {
      CombinationsInOrder(s[1..], size - 1, x, y);
      EarlierAfter(s[0], tails[x], tails[y], s[1..]);
    } else if x >= |tails| {
      CombinationsInOrder(s[1..], size, x - |tails|, y - |tails|);
      EarlierAfter(s[0], first, second, s[1..]);
    } else {
      CombinationIsSubsequence(s[1..], size, second);
      FirstIsEarlier(s, first, second);
    }
  }

  lemma {:induction false} LastWithIsLast(cs: seq<seq<Candidate>>, total: nat) returns (y: nat)
    requires LastWith(cs, total).Some?
    ensures y < |cs| && cs[y] == LastWith(cs, total).value
    ensures forall x :: y < x < |cs| ==> Quantity(cs[x]) != total
  {
    hide Quantity;
    if Quantity(cs[|cs|-1]) == total {
      return |cs| - 1;
    }
    y := LastWithIsLast(cs[..|cs|-1], total);
  }

  lemma {:induction false} SelectedOfSize(s: seq<Candidate>, size: nat, total: nat)
    requires SelectFrom(s, size, total).Some?
    ensures var found := SelectFrom(s, size, total);
            LastWith(Combinations(s, |found.value|), total) == found
    decreases |s| + 1 - size
  {
    var found := LastWith(Combinations(s, size), total);
    if found.Some? {
      CombinationIsSubsequence(s, size, found.value);
    } else {
      SelectedOfSize(s, size + 1, total);
    }
  }

  /** Of the smallest collections that fit, the one is chosen that comes last: any other takes, where they
      first differ, a candidate Adobe listed earlier. */
  lemma ChoiceIsLast(s: seq<Candidate>, total: nat, c: seq<Candidate>)
    requires Selected(s, total).Some? && c != Selected(s, total).value
    requires Subsequence(c, s) && Quantity(c) == total && |c| == |Selected(s, total).value|
    ensures Earlier(c, Selected(s, total).value, s)
  {
    hide Combinations, Earlier;
    var chosen := Selected(s, total).value;
    SelectedOfSize(s, 1, total);
    var all := Combinations(s, |chosen|);
    var y := LastWithIsLast(all, total);
    SubsequenceIsCombination(s, c);
    var x :| 0 <= x < |all| && all[x] == c;
    CombinationsInOrder(s, |chosen|, x, y);
  }

  /******* The choice tells the candidates apart *******/

  ghost predicate PositiveQuantities(s: seq<Candidate>) {
    forall i :: 0 <= i < |s| ==> s[i].quantity > 0
  }

  lemma QuantityFirst(s: seq<Candidate>)
    requires s != []
    ensures Quantity(s) == s[0].quantity + Quantity(s[1..])
  {
    assert s == [s[0]] + s[1..];
    SumConcat([s[0]], s[1..], QuantityOf);
    SumOne(s[0], QuantityOf);
  }

  /** Leaving out candidates loses quantity. */
  lemma {:induction false} SubsequenceQuantity(c: seq<Candidate>, s: seq<Candidate>)
    requires PositiveQuantities(s) && Subsequence(c, s)
    ensures Quantity(c) <= Quantity(s)
    ensures Quantity(c) == Quantity(s) ==> c == s
  {
    hide Sum;
    if s != [] {
      QuantityFirst(s);
      if c == [] {
        SumNone(QuantityOf);
      } else if c[0] == s[0] && Subsequence(c[1..], s[1..]) {
        QuantityFirst(c);
        SubsequenceQuantity(c[1..], s[1..]);
        assert c == [c[0]] + c[1..] && s == [s[0]] + s[1..];
      } else {
        SubsequenceQuantity(c, s[1..]);
      }
    } else {
      assert c == [];
    }
  }

  lemma {:induction false} SubsequenceOfAll(s: seq<Candidate>)
    ensures Subsequence(s, s)
  {
    if s != [] {
      SubsequenceOfAll(s[1..]);
    }
  }

  /** A downsize by everything returns everything. */
  lemma SelectsAll(s: seq<Candidate>)
    requires s != [] && PositiveQuantities(s)
    ensures Selected(s, Quantity(s)) == Some(s)
  {
    SubsequenceOfAll(s);
    SelectionIsExact(s, Quantity(s));
    SubsequenceQuantity(Selected(s, Quantity(s)).value, s);
  }

  /** Two listings lead to the same choice for every downsize if and only if they are the same. */
  lemma SameChoicesIff(s: seq<Candidate>, s': seq<Candidate>)
    requires PositiveQuantities(s) && PositiveQuantities(s')
    ensures (forall total: nat :: Selected(s, total) == Selected(s', total)) <==> s == s'
  {
    if forall total: nat :: Selected(s, total) == Selected(s', total) {
      if s != [] {
        SelectsAll(s);
        SelectionIsExact(s', Quantity(s));
        SubsequenceIsShorter(s, s');
      }
      if s' != [] {
        SelectsAll(s');
        SelectionIsExact(s, Quantity(s'));
        SubsequenceIsShorter(s', s);
      }
      if s != [] && s' != [] {
        SubsequenceQuantity(s, s');
        SubsequenceQuantity(s', s);
      }
    }
  }

  /** Of two candidates that each fit, the later one is chosen. */
  lemma LaterOneIsChosen(a: Candidate, b: Candidate)
    requires a.quantity == b.quantity
    ensures Selected([a], a.quantity) == Some([a]) && Selected([a, b], a.quantity) == Some([b])
  {
    SumOne(a, QuantityOf);
    SumOne(b, QuantityOf);
    SinglesOf(a, []);
    SinglesOf(b, []);
    SinglesOf(a, [b]);
    hide Combinations, Sum;
    assert [a] == [a] + [] && [b] == [b] + [] && [a, b] == [a] + [b];
    var one, two := Combinations([a], 1), Combinations([a, b], 1);
    assert one == [[a]] && two == [[a], [b]];
    assert one[|one|-1] == [a] && two[|two|-1] == [b];
  }

  lemma SinglesOf(a: Candidate, rest: seq<Candidate>)
    ensures Combinations([a] + rest, 1) == [[a]] + Combinations(rest, 1)
    ensures Combinations([], 1) == []
  {
    assert ([a] + rest)[1..] == rest;
    assert Combinations(rest, 0) == [[]];
    FlatMapOne([], Prepending(a));
    assert [a] + [] == [a];
  }

  function Lookup<K, V>(m: map<K, V>, key: K): Option<V> {
    if key in m then Some(m[key]) else None
  }

  /** Entry of the map once `done` combinations of the current size have been visited. */
  function EntryAfter(s: seq<Candidate>, done: seq<seq<Candidate>>, size: nat, total: nat): Option<seq<Candidate>> {
    var found := LastWith(done, total);
    if found.Some? then found else SelectFrom(s, size + 1, total)
  }

  lemma EntryNext(s: seq<Candidate>, cs: seq<seq<Candidate>>, i: nat, size: nat, total: nat)
    requires i < |cs|
    ensures EntryAfter(s, cs[..i+1], size, total) ==
            if Quantity(cs[i]) == total then Some(cs[i]) else EntryAfter(s, cs[..i], size, total)
  {
    assert cs[..i+1][..i] == cs[..i];
  }

  /** The quantity map both flows build: sizes from the largest to one, every combination overwrites
      the entry of its total. */
  method ReturnableByQuantity(s: seq<Candidate>) returns (byQuantity: map<nat, seq<Candidate>>)
    ensures forall total :: Lookup(byQuantity, total) == Selected(s, total)
  {
    hide LastWith, Combinations;
    byQuantity := map[];
    var size := |s|;
    while size > 0
      invariant 0 <= size <= |s|
      invariant forall total :: Lookup(byQuantity, total) == SelectFrom(s, size + 1, total)
    {
      var combinations := Combinations(s, size);
      for i := 0 to |combinations|
        invariant forall total :: Lookup(byQuantity, total) == EntryAfter(s, combinations[..i], size, total)
      {
        ghost var before := byQuantity;
        byQuantity := byQuantity[Quantity(combinations[i]) := combinations[i]];
        forall total
          ensures Lookup(byQuantity, total) == EntryAfter(s, combinations[..i+1], size, total)
        {
          EntryNext(s, combinations, i, size, total);
          assert Lookup(before, total) == EntryAfter(s, combinations[..i], size, total);
        }
      }
      assert combinations[..|combinations|] == combinations;
      forall total
        ensures Lookup(byQuantity, total) == SelectFrom(s, size, total)
      {
        assert Lookup(byQuantity, total) == EntryAfter(s, combinations, size, total);
      }
      size := size - 1;
    }
  }

  /******* Draft validation and fulfillment decide alike *******/

  /** A downsize line with the candidates Adobe reports for its subscription. */
  datatype Downsize = Downsize(sku: Sku, oldQuantity: nat, quantity: nat, candidates: seq<Candidate>)

  /** Downsize lines are the ones whose quantity went down. */
  ghost predicate AreDownsizes(lines: seq<Downsize>) {
    forall i :: 0 <= i < |lines| ==> lines[i].quantity < lines[i].oldQuantity
  }

  predicate Coverable(line: Downsize)
    requires line.quantity < line.oldQuantity
  {
    line.candidates == [] || Selected(line.candidates, line.oldQuantity - line.quantity).Some?
  }

  /** ValidateDownsizes: the indices of the lines the draft is rejected for. */
  method ValidateDownsizes(lines: seq<Downsize>, inCotermWindow: bool) returns (errors: seq<nat>)
    requires AreDownsizes(lines)
    ensures inCotermWindow ==> errors == []
    ensures !inCotermWindow ==> forall i :: 0 <= i < |lines| ==> (i in errors <==> !Coverable(lines[i]))
    ensures forall i :: i in errors ==> i < |lines|
  {
    hide Selected;
    errors := [];
    if inCotermWindow {
      return;
    }
    for i := 0 to |lines|
      invariant forall j :: j in errors ==> j < i
      invariant forall j :: 0 <= j < i ==> (j in errors <==> !Coverable(lines[j]))
    {
      if lines[i].candidates != [] {
        var byQuantity := ReturnableByQuantity(lines[i].candidates);
        var delta := lines[i].oldQuantity - lines[i].quantity;
        assert Lookup(byQuantity, delta) == Selected(lines[i].candidates, delta);
        if delta !in byQuantity {
          errors := errors + [i];
        }
      }
    }
  }

  /** GetReturnableOrders: the chosen orders per SKU, None when no sub-collection fits, no entry when
      there is nothing to return. */
  method GetReturnableOrders(lines: seq<Downsize>, inCotermWindow: bool)
    returns (returnable: map<Sku, Option<seq<Candidate>>>)
    requires AreDownsizes(lines)
    ensures inCotermWindow ==> returnable == map[]
    ensures !inCotermWindow && DistinctLineSkus(lines) ==>
              && (forall i :: 0 <= i < |lines| ==> (lines[i].sku in returnable <==> lines[i].candidates != []))
              && (forall i :: 0 <= i < |lines| && lines[i].candidates != [] ==>
                                returnable[lines[i].sku] ==
                                  Selected(lines[i].candidates, lines[i].oldQuantity - lines[i].quantity))
    ensures forall sku :: sku in returnable ==> exists i :: 0 <= i < |lines| && lines[i].sku == sku
  {
    hide Selected;
    returnable := map[];
    if inCotermWindow {
      return;
    }
    for i := 0 to |lines|
      invariant DistinctLineSkus(lines) ==>
                  forall j :: 0 <= j < i ==> (lines[j].sku in returnable <==> lines[j].candidates != [])
      invariant DistinctLineSkus(lines) ==>
                  forall j :: 0 <= j < i && lines[j].candidates != [] ==>
                                returnable[lines[j].sku] ==
                                  Selected(lines[j].candidates, lines[j].oldQuantity - lines[j].quantity)
      invariant forall sku :: sku in returnable ==> exists j :: 0 <= j < i && lines[j].sku == sku
    {
      if lines[i].candidates != [] {
        var byQuantity := ReturnableByQuantity(lines[i].candidates);
        var delta := lines[i].oldQuantity - lines[i].quantity;
        assert Lookup(byQuantity, delta) == Selected(lines[i].candidates, delta);
        returnable := returnable[lines[i].sku := if delta in byQuantity then Some(byQuantity[delta]) else None];
      }
    }
  }

  ghost predicate DistinctLineSkus(lines: seq<Downsize>) {
    forall i, j :: 0 <= i < j < |lines| ==> lines[i].sku != lines[j].sku
  }

  /** ValidateReturnableOrders: an order with uncovered SKUs fails unless it already placed returns. */
  predicate FulfillmentAccepts(returnable: map<Sku, Option<seq<Candidate>>>, hasReturns: bool) {
    returnable == map[] || (forall sku :: sku in returnable ==> returnable[sku].Some?) || hasReturns
  }

  /** For every order with distinct SKUs, draft validation reports no error exactly when a first
      fulfillment attempt on the same Adobe state accepts. One that finds returns of the order accepts anyway. */
  method DraftAndFulfillmentAgree(lines: seq<Downsize>, inCotermWindow: bool, hasReturns: bool)
    returns (draft: bool, fulfillment: bool)
    requires AreDownsizes(lines) && DistinctLineSkus(lines)
    ensures fulfillment == (draft || hasReturns)
    ensures draft <==> inCotermWindow || forall i :: 0 <= i < |lines| ==> Coverable(lines[i])
  {
    hide Selected;
    var errors := ValidateDownsizes(lines, inCotermWindow);
    var returnable := GetReturnableOrders(lines, inCotermWindow);
    draft, fulfillment := errors == [], FulfillmentAccepts(returnable, hasReturns);
    if !inCotermWindow {
      if errors != [] {
        assert errors[0] in errors;
      }
      forall i | 0 <= i < |lines| && i !in errors && lines[i].candidates != []
        ensures returnable[lines[i].sku].Some?
      {
      }
      if i :| 0 <= i < |lines| && !Coverable(lines[i]) {
        assert lines[i].sku in returnable && returnable[lines[i].sku].None?;
      }
    }
  }
}
