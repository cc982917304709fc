/** Downsizing by returning orders, over any number of retries: each order is returned at most once, and
    completing says exactly what was returned. While nothing disturbs the choice, the returned quantity
    never exceeds the downsize. */
module ReturnOrders {
  import opened AdobeOrders
  import opened ReturnCandidates
  import opened ReturnSelection
  import opened Sequences
  import opened Subscriptions

  /******* Facts about the choice *******/

  ghost predicate DistinctOrders(cs: seq<Candidate>) {
    forall i, j :: 0 <= i < j < |cs| ==> cs[i].order != cs[j].order
  }

  /** Candidate `c` stands for the downsized subscription's line of an order in the window that can be
      returned: this MPT order is returning it already, or the order and that line are both complete. */
  ghost predicate StandsFor(
    c: Candidate, p: Purchase, line: DownsizeLine, seen: seq<ReturnOrder>, mpt: MptId, window: Window)
  {
    && IsLineOf(c, p, line.sub) && window.start <= p.created <= window.end
    && (HasLiveReturn(seen, mpt, p.id, line.sku)
        || (p.status.Complete? && LineOf(p.lines, line.sub).value.status.Complete?))
  }

  lemma CandidatesStandFor(
    purchases: seq<Purchase>, seen: seq<ReturnOrder>, mpt: MptId, line: DownsizeLine, window: Window, c: Candidate)
    requires c in CandidatesFor(purchases, seen, mpt, line, window)
    ensures exists p :: p in purchases && StandsFor(c, p, line, seen, mpt, window)
  {
    hide Candidates, InForce, LineOf, ReturningIds, HasLiveReturn;
    var returning := ReturningIds(seen, mpt, line.sku);
    CandidatesAre(purchases, line.sub, returning, window, c);
    var p :| p in purchases && IsLineOf(c, p, line.sub) && Returnable(p, line.sub, returning, window);
    ReturningIdsAre(seen, mpt, line.sku, p.id);
    assert StandsFor(c, p, line, seen, mpt, window);
  }

  lemma CandidatesDistinct(purchases: seq<Purchase>, sub: SubId, returning: seq<OrderId>, window: Window)
    requires DistinctPurchases(purchases)
    ensures DistinctOrders(Candidates(purchases, sub, returning, window))
  {
    var items, since := Items(purchases, sub, returning, window),
      SinceRenewal(InForce(purchases, sub, returning, window));
    var ofPurchase: Purchase -> OrderId := (p: Purchase) => p.id;
    var ofItem: Item -> OrderId := (item: Item) => item.candidate.order;
    var ofCandidate: Candidate -> OrderId := (c: Candidate) => c.order;
    FlatMapDistinct(purchases, ItemsOf(sub, returning, window), ofPurchase, ofItem);
    FlatMapDistinct(items, since, ofItem, ofCandidate);
    var cs := Candidates(purchases, sub, returning, window);
    assert forall i, j :: 0 <= i < j < |cs| ==> ofCandidate(cs[i]) != ofCandidate(cs[j]);
  }

  lemma {:induction false} SubsequenceDistinct(c: seq<Candidate>, s: seq<Candidate>)
    requires Subsequence(c, s) && DistinctOrders(s)
    ensures DistinctOrders(c)
  {
    if c != [] {
      if Subsequence(c, s[1..]) {
        SubsequenceDistinct(c, s[1..]);
      } else {
        SubsequenceDistinct(c[1..], s[1..]);
        SubsequenceIsShorter(c[1..], s[1..]);
        forall j | 1 <= j < |c|
          ensures c[j].order != c[0].order
        {
          assert c[1..][j-1] in s[1..];
        }
      }
    }
  }

  /** The choice is made of distinct orders, each standing for a returnable line, and adds up to the
      downsize whenever there is one. */
  lemma ChoiceFacts(purchases: seq<Purchase>, seen: seq<ReturnOrder>, mpt: MptId, line: DownsizeLine, window: Window)
    requires DistinctPurchases(purchases)
    ensures var chosen := Chosen(purchases, seen, mpt, line, window);
            && DistinctOrders(chosen)
            && (chosen != [] ==> Quantity(chosen) == line.delta)
            && forall c :: c in chosen ==>
                             exists p :: p in purchases && StandsFor(c, p, line, seen, mpt, window)
  {
    var returning := ReturningIds(seen, mpt, line.sku);
    var candidates := Candidates(purchases, line.sub, returning, window);
    var chosen := Chosen(purchases, seen, mpt, line, window);
    SelectionIsExact(candidates, line.delta);
    if chosen != [] {
      CandidatesDistinct(purchases, line.sub, returning, window);
      SubsequenceDistinct(chosen, candidates);
      SubsequenceIsShorter(chosen, candidates);
      forall c | c in chosen
        ensures exists p :: p in purchases && StandsFor(c, p, line, seen, mpt, window)
      {
        CandidatesStandFor(purchases, seen, mpt, line, window, c);
      }
    }
  }

  /******* The returns stay within the choice *******/

  ghost predicate Matches(c: Candidate, r: ReturnOrder) {
    c.order == r.reference && c.quantity == r.quantity
  }

  /** A chosen order is skipped when the MPT order is for a deployment and the order's line is not. */
  predicate InDeployment(c: Candidate, deployment: Option<nat>) {
    deployment.Some? ==> c.deployment == deployment
  }

  ghost predicate Returnee(cs: seq<Candidate>, r: ReturnOrder, deployment: Option<nat>) {
    exists c :: c in cs && Matches(c, r) && (deployment.None? || c.deployment == deployment)
  }

  /** Every live return this MPT order placed for the SKU returns a different chosen order, in full, that
      the deployment does not skip. */
  ghost predicate ReturnsAmong(
    returned: seq<ReturnOrder>, mpt: MptId, sku: Sku, chosen: seq<Candidate>, deployment: Option<nat>)
  {
    && (forall i :: 0 <= i < |returned| && IsOwn(returned[i], mpt, sku) ==> Returnee(chosen, returned[i], deployment))
    && (forall i, j :: 0 <= i < j < |returned| && IsOwn(returned[i], mpt, sku) && IsOwn(returned[j], mpt, sku) ==>
                         returned[i].reference != returned[j].reference)
  }

  predicate HasCompleteReturn(returned: seq<ReturnOrder>, mpt: MptId, order: OrderId, sku: Sku) {
    exists i :: 0 <= i < |returned| && IsOwn(returned[i], mpt, sku) && returned[i].reference == order
                && returned[i].status.Complete?
  }

  /** No return came alive and no completed one was lost. */
  ghost predicate Settled(before: seq<ReturnOrder>, after: seq<ReturnOrder>, mpt: MptId) {
    && (forall order, sku :: HasLiveReturn(after, mpt, order, sku) ==> HasLiveReturn(before, mpt, order, sku))
    && (forall order, sku :: HasCompleteReturn(before, mpt, order, sku) ==> HasCompleteReturn(after, mpt, order, sku))
  }

  lemma MovedReturnsAmong(
    before: seq<ReturnOrder>, after: seq<ReturnOrder>, mpt: MptId, sku: Sku, chosen: seq<Candidate>,
    deployment: Option<nat>)
    requires ReturnsMove(before, after, mpt)
    ensures ReturnsAmong(before, mpt, sku, chosen, deployment) ==> ReturnsAmong(after, mpt, sku, chosen, deployment)
  {
    forall i | 0 <= i < |after| && IsOwn(after[i], mpt, sku)
      ensures i < |before| && IsOwn(before[i], mpt, sku)
      ensures after[i].reference == before[i].reference && after[i].quantity == before[i].quantity
      ensures Returnee(chosen, before[i], deployment) ==> Returnee(chosen, after[i], deployment)
    {
      assert i < |before| ==> after[i].(status := Open) == before[i].(status := Open);
      if Returnee(chosen, before[i], deployment) {
        var c :| c in chosen && Matches(c, before[i]) && (deployment.None? || c.deployment == deployment);
        assert Matches(c, after[i]);
      }
    }
  }

  lemma MovedReturnsSettle(before: seq<ReturnOrder>, after: seq<ReturnOrder>, mpt: MptId)
    requires ReturnsMove(before, after, mpt)
    ensures Settled(before, after, mpt)
  {
    forall i, sku | 0 <= i < |after| && IsOwn(after[i], mpt, sku)
      ensures i < |before| && IsOwn(before[i], mpt, sku) && after[i].reference == before[i].reference
    {
      assert i < |before| ==> after[i].(status := Open) == before[i].(status := Open);
    }
    forall order, sku | HasCompleteReturn(before, mpt, order, sku)
      ensures HasCompleteReturn(after, mpt, order, sku)
    {
      var i :|
        0 <= i < |before| && IsOwn(before[i], mpt, sku) && before[i].reference == order
        && before[i].status.Complete?;
      assert after[i].(status := Open) == before[i].(status := Open);
      assert IsOwn(after[i], mpt, sku);
    }
  }

  lemma StepMovesReturns(
    purchases: seq<Purchase>, returned: seq<ReturnOrder>, m: Move, mpt: MptId, lines: seq<DownsizeLine>)
    requires Possible(purchases, returned, m, mpt, lines)
    ensures ReturnsMove(returned, ReturnsAfter(returned, m), mpt)
  {
  }

  lemma AmongAfter(
    returned: seq<ReturnOrder>, r: ReturnOrder, mpt: MptId, sku: Sku, chosen: seq<Candidate>, deployment: Option<nat>)
    requires ReturnsAmong(returned, mpt, sku, chosen, deployment)
    requires IsOwn(r, mpt, sku) ==> Returnee(chosen, r, deployment) && !HasLiveReturn(returned, mpt, r.reference, sku)
    ensures ReturnsAmong(returned + [r], mpt, sku, chosen, deployment)
  {
  }

  lemma ReturningIdsAfter(returned: seq<ReturnOrder>, r: ReturnOrder, mpt: MptId, sku: Sku, order: OrderId)
    ensures order in ReturningIds(returned + [r], mpt, sku) <==>
            order in ReturningIds(returned, mpt, sku) || (IsOwn(r, mpt, sku) && order == r.reference)
  {
    ReturningIdsAre(returned, mpt, sku, order);
    ReturningIdsAre(returned + [r], mpt, sku, order);
    var all := returned + [r];
    if i :| 0 <= i < |returned| && IsOwn(returned[i], mpt, sku) && returned[i].reference == order {
      assert all[i] == returned[i];
    }
    assert all[|returned|] == r;
  }

  /** Placing the return of a chosen order changes no line's choice. */
  lemma PlacingIsStable(
    purchases: seq<Purchase>, returned: seq<ReturnOrder>, r: ReturnOrder, mpt: MptId, line: DownsizeLine,
    window: Window)
    requires DistinctPurchases(purchases)
    requires IsOwn(r, mpt, line.sku) ==>
               exists c :: c in Chosen(purchases, returned, mpt, line, window) && c.order == r.reference
    ensures CandidatesFor(purchases, returned + [r], mpt, line, window) ==
              CandidatesFor(purchases, returned, mpt, line, window)
    ensures Chosen(purchases, returned + [r], mpt, line, window) == Chosen(purchases, returned, mpt, line, window)
  {
    hide FlatMap, LineOf, Selected, ReturningIds, Candidates;
    var before, after := ReturningIds(returned, mpt, line.sku), ReturningIds(returned + [r], mpt, line.sku);
    ChoiceFacts(purchases, returned, mpt, line, window);
    forall i | 0 <= i < |purchases|
      ensures Counts(purchases[i], line.sub, before, window) == Counts(purchases[i], line.sub, after, window)
    {
      ReturningIdsAfter(returned, r, mpt, line.sku, purchases[i].id);
      if IsOwn(r, mpt, line.sku) && purchases[i].id == r.reference {
        var c :| c in Chosen(purchases, returned, mpt, line, window) && c.order == r.reference;
        var p :| p in purchases && StandsFor(c, p, line, returned, mpt, window);
        assert p == purchases[i];
        ReturningIdsAre(returned, mpt, line.sku, p.id);
      }
    }
    CandidatesStable(purchases, purchases, line.sub, before, after, window);
  }

  /******* Quantities *******/

  function ReturnQuantity(r: ReturnOrder): nat {
    r.quantity
  }

  /** Quantity this MPT order has returned, or is returning, for a SKU. */
  function ReturnedQuantity(returned: seq<ReturnOrder>, mpt: MptId, sku: Sku): nat {
    Sum(OwnReturns(returned, mpt, sku), ReturnQuantity)
  }

  ghost predicate HasMatch(cs: seq<Candidate>, r: ReturnOrder) {
    exists c :: c in cs && Matches(c, r)
  }

  ghost predicate DistinctMatched(rs: seq<ReturnOrder>, cs: seq<Candidate>) {
    && (forall i, j :: 0 <= i < j < |rs| ==> rs[i].reference != rs[j].reference)
    && (forall i :: 0 <= i < |rs| ==> HasMatch(cs, rs[i]))
  }

  ghost predicate CoversAll(rs: seq<ReturnOrder>, cs: seq<Candidate>) {
    forall c :: c in cs ==> exists i :: 0 <= i < |rs| && rs[i].reference == c.order
  }

  /** `rest` is `cs` without its element `k`. */
  ghost predicate IsWithout(rest: seq<Candidate>, cs: seq<Candidate>, k: int) {
    && 0 <= k < |cs| && |rest| == |cs| - 1
    && (forall m :: 0 <= m < k ==> rest[m] == cs[m])
    && (forall m :: k < m < |cs| ==> rest[m-1] == cs[m])
  }

  lemma WithoutHas(rest: seq<Candidate>, cs: seq<Candidate>, k: int, d: Candidate)
    requires DistinctOrders(cs) && IsWithout(rest, cs, k)
    ensures d in rest <==> d in cs && d.order != cs[k].order
    ensures DistinctOrders(rest)
  {
    if d in rest {
      var m :| 0 <= m < |rest| && rest[m] == d;
      if m >= k {
        assert rest[m+1-1] == cs[m+1];
      }
    }
    if m :| 0 <= m < |cs| && cs[m] == d && m != k {
      assert m > k ==> rest[m-1] == d;
    }
    forall a, b | 0 <= a < b < |rest|
      ensures rest[a].order != rest[b].order
    {
      assert a >= k ==> rest[a+1-1] == cs[a+1];
      assert b >= k ==> rest[b+1-1] == cs[b+1];
    }
  }

  /** Leaving out the last return and its order. */
  lemma MatchedRest(rs: seq<ReturnOrder>, cs: seq<Candidate>, k: int, rest: seq<Candidate>)
    requires rs != [] && DistinctOrders(cs) && DistinctMatched(rs, cs)
    requires IsWithout(rest, cs, k) && Matches(cs[k], rs[|rs|-1])
    ensures DistinctOrders(rest) && DistinctMatched(rs[..|rs|-1], rest)
  {
    WithoutHas(rest, cs, k, cs[k]);
    var front := rs[..|rs|-1];
    forall i | 0 <= i < |front|
      ensures exists d :: d in rest && Matches(d, front[i])
    {
      assert front[i] == rs[i] && rs[i].reference != rs[|rs|-1].reference;
      var d :| d in cs && Matches(d, rs[i]);
      WithoutHas(rest, cs, k, d);
      assert d in rest && Matches(d, front[i]);
    }
    assert forall i, j :: 0 <= i < j < |front| ==> front[i].reference != front[j].reference;
  }

  lemma CoveredRest(rs: seq<ReturnOrder>, cs: seq<Candidate>, k: int, rest: seq<Candidate>)
    requires rs != [] && DistinctOrders(cs) && CoversAll(rs, cs)
    requires IsWithout(rest, cs, k) && Matches(cs[k], rs[|rs|-1])
    ensures CoversAll(rs[..|rs|-1], rest)
  {
    var front := rs[..|rs|-1];
    forall d | d in rest
      ensures exists i :: 0 <= i < |front| && front[i].reference == d.order
    {
      WithoutHas(rest, cs, k, d);
      var i :| 0 <= i < |rs| && rs[i].reference == d.order;
      assert front[i] == rs[i];
    }
  }

  /** Distinct returns of distinct orders, matched one to one, never add up to more. */
  lemma {:induction false} MatchedQuantity(rs: seq<ReturnOrder>, cs: seq<Candidate>)
    requires DistinctOrders(cs) && DistinctMatched(rs, cs)
    ensures Sum(rs, ReturnQuantity) <= Quantity(cs)
    ensures CoversAll(rs, cs) ==> Sum(rs, ReturnQuantity) == Quantity(cs)
    decreases |rs|
  {
    hide Sum, CoversAll, DistinctMatched;
    if rs == [] {
      SumNone(ReturnQuantity);
      SumNone(QuantityOf);
      if cs != [] {
        NothingCoversSome(cs);
      }
    } else {
      var k := LastMatch(rs, cs);
      var rest := cs[..k] + cs[k+1..];
      MatchedRest(rs, cs, k, rest);
      if CoversAll(rs, cs) {
        CoveredRest(rs, cs, k, rest);
      }
      SumWithout(cs, k, QuantityOf);
      SumLast(rs, ReturnQuantity);
      MatchedQuantity(rs[..|rs|-1], rest);
    }
  }

  lemma NothingCoversSome(cs: seq<Candidate>)
    requires cs != []
    ensures !CoversAll([], cs)
  {
    assert cs[0] in cs;
  }

  lemma LastMatch(rs: seq<ReturnOrder>, cs: seq<Candidate>) returns (k: nat)
    requires rs != [] && DistinctMatched(rs, cs)
    ensures k < |cs| && Matches(cs[k], rs[|rs|-1])
  {
    var last := |rs| - 1;
    assert HasMatch(cs, rs[last]);
    var c :| c in cs && Matches(c, rs[last]);
    k :| 0 <= k < |cs| && cs[k] == c;
  }

  lemma OwnHas(returned: seq<ReturnOrder>, mpt: MptId, sku: Sku, r: ReturnOrder)
    ensures r in OwnReturns(returned, mpt, sku) <==> r in returned && IsOwn(r, mpt, sku)
  {
    FlatMapHas(returned, OwnOf(mpt, sku), r);
  }

  lemma {:induction false} OwnAreDistinct(
    returned: seq<ReturnOrder>, mpt: MptId, sku: Sku, chosen: seq<Candidate>, deployment: Option<nat>)
    requires ReturnsAmong(returned, mpt, sku, chosen, deployment)
    ensures DistinctMatched(OwnReturns(returned, mpt, sku), chosen)
  {
    if returned != [] {
      var front, last := returned[..|returned|-1], returned[|returned|-1];
      OwnAreDistinct(front, mpt, sku, chosen, deployment);
      var own := OwnReturns(front, mpt, sku);
      if IsOwn(last, mpt, sku) {
        forall i | 0 <= i < |own|
          ensures own[i].reference != last.reference
        {
          OwnHas(front, mpt, sku, own[i]);
          var k :| 0 <= k < |front| && front[k] == own[i];
          assert returned[k] == own[i];
        }
        assert Returnee(chosen, last, deployment);
        assert HasMatch(chosen, last);
        assert OwnReturns(returned, mpt, sku) == own + [last];
      }
    }
  }

  /** The quantity returned never exceeds the downsize, and equals it once every chosen order has been
      returned. */
  lemma ReturnedWithinDownsize(
    purchases: seq<Purchase>, returned: seq<ReturnOrder>, mpt: MptId, line: DownsizeLine, deployment: Option<nat>,
    window: Window)
    requires DistinctPurchases(purchases)
    requires ReturnsAmong(returned, mpt, line.sku, Chosen(purchases, returned, mpt, line, window), deployment)
    ensures ReturnedQuantity(returned, mpt, line.sku) <= line.delta
    ensures Chosen(purchases, returned, mpt, line, window) != []
            && (forall c :: c in Chosen(purchases, returned, mpt, line, window) ==>
                              HasCompleteReturn(returned, mpt, c.order, line.sku)) ==>
              ReturnedQuantity(returned, mpt, line.sku) == line.delta
  {
    var chosen := Chosen(purchases, returned, mpt, line, window);
    var own := OwnReturns(returned, mpt, line.sku);
    ChoiceFacts(purchases, returned, mpt, line, window);
    OwnAreDistinct(returned, mpt, line.sku, chosen, deployment);
    MatchedQuantity(own, chosen);
    forall c | c in chosen && HasCompleteReturn(returned, mpt, c.order, line.sku)
      ensures exists i :: 0 <= i < |own| && own[i].reference == c.order
    {
      var k :| 0 <= k < |returned| && IsOwn(returned[k], mpt, line.sku) && returned[k].reference == c.order;
      OwnHas(returned, mpt, line.sku, returned[k]);
    }
  }

  /******* The retry protocol *******/

  // Crashed: the attempt was cut short (an error was raised or the worker died).
  datatype Outcome = Done | Pending | Rejected | Crashed

  // What Adobe makes of a RETURN: refused, or taken with a first status and perhaps no answer.
  datatype CreateAnswer = NotTaken | Taken(status: OrderStatus, answered: bool)

  /** The first return seen for the order. */
  function FindReturn(seen: seq<ReturnOrder>, order: OrderId): Option<ReturnOrder> {
    if seen == [] then None
    else if seen[0].reference == order then Some(seen[0])
    else FindReturn(seen[1..], order)
  }

  lemma {:induction false} FindReturnIsThere(seen: seq<ReturnOrder>, order: OrderId)
    ensures FindReturn(seen, order).Some? ==>
              FindReturn(seen, order).value in seen && FindReturn(seen, order).value.reference == order
    ensures FindReturn(seen, order).None? ==> forall r :: r in seen ==> r.reference != order
  {
    if seen != [] {
      FindReturnIsThere(seen[1..], order);
    }
  }

  ghost predicate IsReturnOf(r: ReturnOrder, mpt: MptId, sku: Sku, c: Candidate) {
    r.mpt == mpt && r.sku == sku && r.reference == c.order && r.quantity == c.quantity
  }

  /** Only returns of `orders` for `sku` may have come alive, and no completed one was lost. */
  ghost predicate Advanced(before: seq<ReturnOrder>, after: seq<ReturnOrder>, mpt: MptId, sku: Sku,
                           orders: set<OrderId>) {
    && (forall order, other :: HasLiveReturn(after, mpt, order, other) ==>
                                 HasLiveReturn(before, mpt, order, other) || (other == sku && order in orders))
    && (forall order, other :: HasCompleteReturn(before, mpt, order, other) ==>
        HasCompleteReturn(after, mpt, order, other))
  }

  lemma AdvancedTwice(
    first: seq<ReturnOrder>, second: seq<ReturnOrder>, third: seq<ReturnOrder>, mpt: MptId, sku: Sku,
    some: set<OrderId>, more: set<OrderId>)
    requires Advanced(first, second, mpt, sku, some) && Advanced(second, third, mpt, sku, more)
    ensures Advanced(first, third, mpt, sku, some + more)
  {
  }

  lemma AdvancedMore(
    first: seq<ReturnOrder>, second: seq<ReturnOrder>, mpt: MptId, sku: Sku, some: set<OrderId>, more: set<OrderId>)
    requires Advanced(first, second, mpt, sku, some) && some <= more
    ensures Advanced(first, second, mpt, sku, more)
  {
  }

  function Orders(cs: seq<Candidate>): set<OrderId> {
    set c | c in cs :: c.order
  }

  lemma NextOrder(cs: seq<Candidate>, j: nat)
    requires DistinctOrders(cs) && j < |cs|
    ensures cs[j].order !in Orders(cs[..j]) && Orders(cs[..j+1]) == Orders(cs[..j]) + {cs[j].order}
    ensures Orders(cs[..j+1]) <= Orders(cs)
  {
  }

  lemma LiveAfter(returned: seq<ReturnOrder>, r: ReturnOrder, mpt: MptId, order: OrderId, sku: Sku)
    ensures HasLiveReturn(returned + [r], mpt, order, sku) ==>
              HasLiveReturn(returned, mpt, order, sku) || (IsOwn(r, mpt, sku) && r.reference == order)
    ensures HasCompleteReturn(returned, mpt, order, sku) ==> HasCompleteReturn(returned + [r], mpt, order, sku)
    ensures IsOwn(r, mpt, sku) && r.reference == order && r.status.Complete? ==>
              HasCompleteReturn(returned + [r], mpt, order, sku)
  {
    var all := returned + [r];
    if i :| 0 <= i < |all| && IsOwn(all[i], mpt, sku) && all[i].reference == order && i < |returned| {
      assert returned[i] == all[i];
    }
    if i :|
       0 <= i < |returned| && IsOwn(returned[i], mpt, sku) && returned[i].reference == order
       && returned[i].status.Complete? {
      assert all[i] == returned[i];
    }
    assert all[|returned|] == r;
  }

  lemma FindSeen(seen: seq<ReturnOrder>, mpt: MptId, sku: Sku, order: OrderId)
    ensures var found := FindReturn(OwnReturns(seen, mpt, sku), order);
            && (found.Some? <==> HasLiveReturn(seen, mpt, order, sku))
            && (found.Some? && found.value.status.Complete? ==> HasCompleteReturn(seen, mpt, order, sku))
            && (OneReturnEach(seen, mpt) && HasCompleteReturn(seen, mpt, order, sku) ==>
                  found.Some? && found.value.status.Complete?)
  {
    var own := OwnReturns(seen, mpt, sku);
    var found := FindReturn(own, order);
    FindReturnIsThere(own, order);
    if found.Some? {
      OwnHas(seen, mpt, sku, found.value);
      var i :| 0 <= i < |seen| && seen[i] == found.value;
    } else {
      forall i | 0 <= i < |seen| && IsOwn(seen[i], mpt, sku)
        ensures seen[i].reference != order
      {
        OwnHas(seen, mpt, sku, seen[i]);
      }
    }
  }

  /** The return that is found for the order is complete. */
  ghost predicate ReturnSeen(seen: seq<ReturnOrder>, mpt: MptId, order: OrderId, sku: Sku) {
    OneReturnEach(seen, mpt) && HasCompleteReturn(seen, mpt, order, sku)
  }

  /** So it is for every chosen order the deployment does not skip. */
  ghost predicate AllSeen(
    seen: seq<ReturnOrder>, mpt: MptId, sku: Sku, deployment: Option<nat>, chosen: seq<Candidate>)
  {
    forall c :: c in chosen && (deployment.None? || c.deployment == deployment) ==> ReturnSeen(seen, mpt, c.order, sku)
  }

  /** This MPT order has a live return, for any SKU. */
  predicate HasReturns(returned: seq<ReturnOrder>, mpt: MptId) {
    exists i :: 0 <= i < |returned| && returned[i].mpt == mpt && Live(returned[i].status)
  }

  /******* What every attempt keeps *******/

  /** Order ids and line SKUs are unique, and a subscription's order lines carry its SKU. */
  ghost predicate Sound(purchases: seq<Purchase>, lines: seq<DownsizeLine>) {
    && DistinctPurchases(purchases)
    && (forall j, k :: 0 <= j < k < |lines| ==> lines[j].sku != lines[k].sku)
    && (forall i, k :: 0 <= i < |purchases| && 0 <= k < |lines| ==>
                         var own := LineOf(purchases[i].lines, lines[k].sub);
                         own.Some? ==> own.value.sku == lines[k].sku)
  }

  /** This MPT order has at most one live return per order and SKU. */
  ghost predicate OneReturnEach(returned: seq<ReturnOrder>, mpt: MptId) {
    forall i, j, sku :: 0 <= i < j < |returned| && IsOwn(returned[i], mpt, sku) && IsOwn(returned[j], mpt, sku) ==>
                          returned[i].reference != returned[j].reference
  }

  /** The order's line of the subscription has that quantity. */
  ghost predicate OrdersQuantity(purchases: seq<Purchase>, sub: SubId, order: OrderId, quantity: nat) {
    exists i :: 0 <= i < |purchases| && purchases[i].id == order && HasQuantity(purchases[i], sub, quantity)
  }

  predicate HasQuantity(p: Purchase, sub: SubId, quantity: nat) {
    var line := LineOf(p.lines, sub);
    line.Some? && line.value.quantity == quantity
  }

  /** Every live return of this MPT order for a line returns an order's line in full. */
  ghost predicate InFull(
    purchases: seq<Purchase>, returned: seq<ReturnOrder>, mpt: MptId, lines: seq<DownsizeLine>)
  {
    forall i, k :: 0 <= i < |returned| && 0 <= k < |lines| && IsOwn(returned[i], mpt, lines[k].sku) ==>
                     OrdersQuantity(purchases, lines[k].sub, returned[i].reference, returned[i].quantity)
  }

  ghost predicate KeepsLines(before: seq<Purchase>, after: seq<Purchase>) {
    forall sub, order, quantity :: OrdersQuantity(before, sub, order, quantity) ==>
                                     OrdersQuantity(after, sub, order, quantity)
  }

  ghost predicate Fits(purchases: seq<Purchase>, line: DownsizeLine, c: Candidate) {
    c.sku == line.sku && OrdersQuantity(purchases, line.sub, c.order, c.quantity)
  }

  /** A choice for a line: distinct orders with a line of its subscription, adding up to the downsize. */
  ghost predicate ChoiceFits(purchases: seq<Purchase>, line: DownsizeLine, chosen: seq<Candidate>) {
    && DistinctOrders(chosen) && (chosen != [] ==> Quantity(chosen) == line.delta)
    && forall c :: c in chosen ==> Fits(purchases, line, c)
  }

  ghost predicate AllFit(purchases: seq<Purchase>, lines: seq<DownsizeLine>, chosen: seq<seq<Candidate>>) {
    |chosen| == |lines| && forall k :: 0 <= k < |lines| ==> ChoiceFits(purchases, lines[k], chosen[k])
  }

  lemma NothingFits(purchases: seq<Purchase>, line: DownsizeLine)
    ensures ChoiceFits(purchases, line, [])
  {
  }

  lemma ChosenFits(
    purchases: seq<Purchase>, seen: seq<ReturnOrder>, mpt: MptId, lines: seq<DownsizeLine>, window: Window, k: nat)
    requires Sound(purchases, lines) && k < |lines|
    ensures ChoiceFits(purchases, lines[k], Chosen(purchases, seen, mpt, lines[k], window))
  {
    hide Chosen, LineOf;
    ChoiceFacts(purchases, seen, mpt, lines[k], window);
    forall c | c in Chosen(purchases, seen, mpt, lines[k], window)
      ensures Fits(purchases, lines[k], c)
    {
      var p :| p in purchases && StandsFor(c, p, lines[k], seen, mpt, window);
      var i :| 0 <= i < |purchases| && purchases[i] == p;
      assert HasQuantity(purchases[i], lines[k].sub, c.quantity);
    }
  }

  lemma StillFit(before: seq<Purchase>, after: seq<Purchase>, lines: seq<DownsizeLine>, chosen: seq<seq<Candidate>>)
    requires KeepsLines(before, after) && AllFit(before, lines, chosen)
    ensures AllFit(after, lines, chosen)
  {
  }

  lemma StillFits(before: seq<Purchase>, after: seq<Purchase>, line: DownsizeLine, c: Candidate)
    requires KeepsLines(before, after) && Fits(before, line, c)
    ensures Fits(after, line, c)
  {
  }

  lemma StillFitsOne(before: seq<Purchase>, after: seq<Purchase>, line: DownsizeLine, chosen: seq<Candidate>)
    requires KeepsLines(before, after) && ChoiceFits(before, line, chosen)
    ensures ChoiceFits(after, line, chosen)
  {
  }

  lemma KeepsLinesRefl(purchases: seq<Purchase>)
    ensures KeepsLines(purchases, purchases)
  {
  }

  /** The choice made from a candidate list. */
  function ChoiceOf(candidates: seq<Candidate>, delta: nat): seq<Candidate> {
    var selected := Selected(candidates, delta);
    if selected.Some? then selected.value else []
  }

  lemma ChosenIsChoiceOf(
    purchases: seq<Purchase>, seen: seq<ReturnOrder>, mpt: MptId, line: DownsizeLine, window: Window)
    ensures Chosen(purchases, seen, mpt, line, window) ==
            ChoiceOf(CandidatesFor(purchases, seen, mpt, line, window), line.delta)
  {
  }

  /** Placing the return of an order's line, in full, when there is no live one. */
  lemma PlacedKeeps(
    purchases: seq<Purchase>, returned: seq<ReturnOrder>, r: ReturnOrder, mpt: MptId, lines: seq<DownsizeLine>,
    k: nat, c: Candidate)
    requires Sound(purchases, lines) && OneReturnEach(returned, mpt) && InFull(purchases, returned, mpt, lines)
    requires k < |lines| && Fits(purchases, lines[k], c) && IsReturnOf(r, mpt, lines[k].sku, c)
    requires !HasLiveReturn(returned, mpt, c.order, lines[k].sku)
    ensures OneReturnEach(returned + [r], mpt) && InFull(purchases, returned + [r], mpt, lines)
  {
    hide LineOf, OrdersQuantity;
  }

  /** The returns of every line stay within its target. */
  ghost predicate Within(
    returned: seq<ReturnOrder>, mpt: MptId, lines: seq<DownsizeLine>, deployment: Option<nat>,
    target: seq<seq<Candidate>>)
  {
    |target| == |lines|
    && forall k :: 0 <= k < |lines| ==> ReturnsAmong(returned, mpt, lines[k].sku, target[k], deployment)
  }

  ghost predicate Chooses(
    purchases: seq<Purchase>, returned: seq<ReturnOrder>, mpt: MptId, lines: seq<DownsizeLine>, window: Window,
    target: seq<seq<Candidate>>)
  {
    |target| == |lines|
    && forall k :: 0 <= k < |lines| ==> Chosen(purchases, returned, mpt, lines[k], window) == target[k]
  }

  lemma StepKeepsSound(
    purchases: seq<Purchase>, returned: seq<ReturnOrder>, m: Move, mpt: MptId, lines: seq<DownsizeLine>)
    requires Sound(purchases, lines) && Possible(purchases, returned, m, mpt, lines)
    ensures Sound(PurchasesAfter(purchases, m), lines)
  {
    var purchases' := PurchasesAfter(purchases, m);
    forall i, k | 0 <= i < |purchases'| && 0 <= k < |lines|
      ensures var own := LineOf(purchases'[i].lines, lines[k].sub);
              own.Some? ==> own.value.sku == lines[k].sku
    {
      if m.PurchaseMoves? && m.i == i {
        SameLine(purchases[i].lines, m.p.lines, lines[k].sub);
      } else if !m.Appears? || i != m.at {
        assert purchases'[i] == purchases[if m.Appears? && i > m.at then i - 1 else i];
      }
    }
  }

  lemma StepKeepsLines(
    purchases: seq<Purchase>, returned: seq<ReturnOrder>, m: Move, mpt: MptId, lines: seq<DownsizeLine>)
    requires Possible(purchases, returned, m, mpt, lines)
    ensures KeepsLines(purchases, PurchasesAfter(purchases, m))
  {
    hide LineOf;
    var purchases' := PurchasesAfter(purchases, m);
    forall sub, order, quantity | OrdersQuantity(purchases, sub, order, quantity)
      ensures OrdersQuantity(purchases', sub, order, quantity)
    {
      var i :| 0 <= i < |purchases| && purchases[i].id == order && HasQuantity(purchases[i], sub, quantity);
      if m.PurchaseMoves? && m.i == i {
        SameLine(purchases[i].lines, m.p.lines, sub);
      }
      var to := if m.Appears? && i >= m.at then i + 1 else i;
      assert purchases'[to].id == order && HasQuantity(purchases'[to], sub, quantity);
    }
  }

  lemma MovedReturnsKeep(
    purchases: seq<Purchase>, purchases': seq<Purchase>, before: seq<ReturnOrder>, after: seq<ReturnOrder>,
    mpt: MptId, lines: seq<DownsizeLine>)
    requires OneReturnEach(before, mpt) && InFull(purchases, before, mpt, lines)
    requires ReturnsMove(before, after, mpt) && KeepsLines(purchases, purchases')
    ensures OneReturnEach(after, mpt) && InFull(purchases', after, mpt, lines)
  {
    forall i, sku | 0 <= i < |after| && IsOwn(after[i], mpt, sku)
      ensures i < |before| && IsOwn(before[i], mpt, sku)
      ensures after[i].reference == before[i].reference && after[i].quantity == before[i].quantity
    {
      assert i < |before| ==> after[i].(status := Open) == before[i].(status := Open);
    }
  }

  lemma StepKeepsTarget(
    purchases: seq<Purchase>, returned: seq<ReturnOrder>, m: Move, mpt: MptId, lines: seq<DownsizeLine>,
    deployment: Option<nat>, window: Window, target: seq<seq<Candidate>>)
    requires Sound(purchases, lines) && Legal(purchases, returned, m, mpt, lines)
    requires !Disturbs(purchases, returned, m, mpt, lines, window)
    requires Chooses(purchases, returned, mpt, lines, window, target)
             && Within(returned, mpt, lines, deployment, target)
    ensures Chooses(PurchasesAfter(purchases, m), ReturnsAfter(returned, m), mpt, lines, window, target)
    ensures Within(ReturnsAfter(returned, m), mpt, lines, deployment, target)
  {
    hide CandidatesFor, ReturnsAmong, Disturbs, Legal, Possible;
    LegalIsPossible(purchases, returned, m, mpt, lines);
    StepMovesReturns(purchases, returned, m, mpt, lines);
    forall k | 0 <= k < |lines|
      ensures Chosen(PurchasesAfter(purchases, m), ReturnsAfter(returned, m), mpt, lines[k], window) == target[k]
      ensures ReturnsAmong(ReturnsAfter(returned, m), mpt, lines[k].sku, target[k], deployment)
    {
      StepKeepsCandidates(purchases, returned, m, mpt, lines, window, k);
      MovedReturnsAmong(returned, ReturnsAfter(returned, m), mpt, lines[k].sku, target[k], deployment);
    }
  }

  lemma SettledRefl(returned: seq<ReturnOrder>, mpt: MptId)
    ensures Settled(returned, returned, mpt)
  {
  }

  lemma SettledTwice(first: seq<ReturnOrder>, second: seq<ReturnOrder>, third: seq<ReturnOrder>, mpt: MptId)
    requires Settled(first, second, mpt) && Settled(second, third, mpt)
    ensures Settled(first, third, mpt)
  {
  }

  lemma KeepsLinesTwice(first: seq<Purchase>, second: seq<Purchase>, third: seq<Purchase>)
    requires KeepsLines(first, second) && KeepsLines(second, third)
    ensures KeepsLines(first, third)
  {
  }

  /******* What completing says, exactly *******/

  /** Every chosen order the deployment does not skip has a complete return. */
  ghost predicate AllReturned(
    returned: seq<ReturnOrder>, mpt: MptId, lines: seq<DownsizeLine>, deployment: Option<nat>,
    chosen: seq<seq<Candidate>>)
    requires |chosen| == |lines|
  {
    forall k, c :: 0 <= k < |lines| && c in chosen[k] && (deployment.None? || c.deployment == deployment) ==>
                     HasCompleteReturn(returned, mpt, c.order, lines[k].sku)
  }

  /** No return this MPT order placed for its lines is open. */
  ghost predicate NoneOpen(returned: seq<ReturnOrder>, mpt: MptId, lines: seq<DownsizeLine>) {
    forall i, k :: 0 <= i < |returned| && 0 <= k < |lines| && IsOwn(returned[i], mpt, lines[k].sku) ==>
                     returned[i].status.Complete?
  }

  ghost predicate IsChosen(chosen: seq<Candidate>, order: OrderId, deployment: Option<nat>) {
    exists c :: c in chosen && c.order == order && (deployment.None? || c.deployment == deployment)
  }

  /** Every open own return is of an order the completing attempt chose and did not skip. */
  ghost predicate OpenAreChosen(
    returned: seq<ReturnOrder>, mpt: MptId, lines: seq<DownsizeLine>, deployment: Option<nat>,
    chosen: seq<seq<Candidate>>)
    requires |chosen| == |lines|
  {
    forall i, k :: 0 <= i < |returned| && 0 <= k < |lines| && IsOwn(returned[i], mpt, lines[k].sku)
                   && returned[i].status.Open? ==>
                     IsChosen(chosen[k], returned[i].reference, deployment)
  }

  /** Whatever was placed before, and whatever the completing attempt chose (near the coterm date,
      nothing): none of the order's returns is open if and only if the open ones are of chosen orders. */
  lemma NoneOpenIff(
    returned: seq<ReturnOrder>, mpt: MptId, lines: seq<DownsizeLine>, deployment: Option<nat>,
    chosen: seq<seq<Candidate>>)
    requires |chosen| == |lines| && OneReturnEach(returned, mpt)
    requires AllReturned(returned, mpt, lines, deployment, chosen)
    ensures NoneOpen(returned, mpt, lines) <==> OpenAreChosen(returned, mpt, lines, deployment, chosen)
  {
    if OpenAreChosen(returned, mpt, lines, deployment, chosen) {
      forall i, k | 0 <= i < |returned| && 0 <= k < |lines| && IsOwn(returned[i], mpt, lines[k].sku)
        ensures returned[i].status.Complete?
      {
        if returned[i].status.Open? {
          assert IsChosen(chosen[k], returned[i].reference, deployment);
          var c :| c in chosen[k] && c.order == returned[i].reference
                   && (deployment.None? || c.deployment == deployment);
          assert HasCompleteReturn(returned, mpt, c.order, lines[k].sku);
          var j :|
            0 <= j < |returned| && IsOwn(returned[j], mpt, lines[k].sku) && returned[j].reference == c.order
            && returned[j].status.Complete?;
        }
      }
    }
  }

  /** Every live own return for the SKU is of a chosen order. */
  ghost predicate OnlyChosen(returned: seq<ReturnOrder>, mpt: MptId, sku: Sku, chosen: seq<Candidate>) {
    forall i :: 0 <= i < |returned| && IsOwn(returned[i], mpt, sku) ==> returned[i].reference in Orders(chosen)
  }

  ghost predicate PositiveReturns(returned: seq<ReturnOrder>) {
    forall i :: 0 <= i < |returned| ==> returned[i].quantity > 0
  }

  lemma {:induction false} OwnAreSingle(returned: seq<ReturnOrder>, mpt: MptId, sku: Sku)
    requires OneReturnEach(returned, mpt)
    ensures var own := OwnReturns(returned, mpt, sku);
            forall i, j :: 0 <= i < j < |own| ==> own[i].reference != own[j].reference
  {
    if returned != [] {
      var front, last := returned[..|returned|-1], returned[|returned|-1];
      OwnAreSingle(front, mpt, sku);
      var own := OwnReturns(front, mpt, sku);
      forall i | 0 <= i < |own| && IsOwn(last, mpt, sku)
        ensures own[i].reference != last.reference
      {
        OwnHas(front, mpt, sku, own[i]);
        var k :| 0 <= k < |front| && front[k] == own[i];
        assert returned[k] == own[i];
      }
    }
  }

  function OfChosen(orders: set<OrderId>): ReturnOrder -> bool {
    (r: ReturnOrder) => r.reference in orders
  }

  function NotChosen(orders: set<OrderId>): ReturnOrder -> bool {
    (r: ReturnOrder) => r.reference !in orders
  }

  lemma {:induction false} SumOfPositive(rs: seq<ReturnOrder>)
    requires forall r :: r in rs ==> r.quantity > 0
    ensures Sum(rs, ReturnQuantity) == 0 <==> rs == []
  {
    if rs != [] {
      assert rs[|rs|-1] in rs;
    }
  }

  lemma QuantityParts(rs: seq<ReturnOrder>, orders: set<OrderId>)
    ensures Sum(rs, ReturnQuantity) ==
            Sum(Filter(rs, OfChosen(orders)), ReturnQuantity) + Sum(Filter(rs, NotChosen(orders)), ReturnQuantity)
  {
    hide Sum, FlatMap;
    SumFlatMap(rs, Keeping(OfChosen(orders)), ReturnQuantity);
    SumFlatMap(rs, Keeping(NotChosen(orders)), ReturnQuantity);
    forall r | r in rs
      ensures ReturnQuantity(r) == Weighing(Keeping(OfChosen(orders)), ReturnQuantity)(r)
                                   + Weighing(Keeping(NotChosen(orders)), ReturnQuantity)(r)
    {
      SumOne(r, ReturnQuantity);
      SumNone(ReturnQuantity);
    }
    SumSplits(rs, ReturnQuantity, Weighing(Keeping(OfChosen(orders)), ReturnQuantity),
              Weighing(Keeping(NotChosen(orders)), ReturnQuantity));
  }

  lemma {:induction false} FilteredAreSingle(rs: seq<ReturnOrder>, p: ReturnOrder -> bool)
    requires forall i, j :: 0 <= i < j < |rs| ==> rs[i].reference != rs[j].reference
    ensures var kept := Filter(rs, p);
            forall i, j :: 0 <= i < j < |kept| ==> kept[i].reference != kept[j].reference
  {
    if rs != [] {
      var front, last := rs[..|rs|-1], rs[|rs|-1];
      FilteredAreSingle(front, p);
      forall i | 0 <= i < |Filter(front, p)|
        ensures Filter(front, p)[i].reference != last.reference
      {
        FilterHas(front, p, Filter(front, p)[i]);
        var k :| 0 <= k < |front| && front[k] == Filter(front, p)[i];
        assert rs[k] == front[k];
      }
    }
  }

  lemma SameQuantity(purchases: seq<Purchase>, sub: SubId, order: OrderId, first: nat, second: nat)
    requires DistinctPurchases(purchases)
    requires OrdersQuantity(purchases, sub, order, first) && OrdersQuantity(purchases, sub, order, second)
    ensures first == second
  {
  }

  lemma ChosenAreMatched(
    purchases: seq<Purchase>, returned: seq<ReturnOrder>, mpt: MptId, lines: seq<DownsizeLine>, k: nat,
    chosen: seq<Candidate>)
    requires Sound(purchases, lines) && OneReturnEach(returned, mpt) && InFull(purchases, returned, mpt, lines)
    requires k < |lines| && ChoiceFits(purchases, lines[k], chosen)
    ensures DistinctMatched(
              Filter(OwnReturns(returned, mpt, lines[k].sku), OfChosen(Orders(chosen))), chosen)
  {
    hide FlatMap, Filter, OwnReturns, LineOf, OrdersQuantity;
    var own := OwnReturns(returned, mpt, lines[k].sku);
    var kept := Filter(own, OfChosen(Orders(chosen)));
    OwnAreSingle(returned, mpt, lines[k].sku);
    FilteredAreSingle(own, OfChosen(Orders(chosen)));
    forall i | 0 <= i < |kept|
      ensures HasMatch(chosen, kept[i])
    {
      FilterHas(own, OfChosen(Orders(chosen)), kept[i]);
      OwnHas(returned, mpt, lines[k].sku, kept[i]);
      var j :| 0 <= j < |returned| && returned[j] == kept[i];
      var c :| c in chosen && c.order == kept[i].reference;
      assert Fits(purchases, lines[k], c);
      SameQuantity(purchases, lines[k].sub, c.order, c.quantity, returned[j].quantity);
      assert Matches(c, kept[i]);
    }
  }

  /** Once every chosen order is returned, at least the downsize is; it is exactly the downsize if and only
      if no other order is being returned for the SKU. */
  lemma ReturnedExactlyIff(
    purchases: seq<Purchase>, returned: seq<ReturnOrder>, mpt: MptId, lines: seq<DownsizeLine>, k: nat,
    chosen: seq<Candidate>)
    requires Sound(purchases, lines) && OneReturnEach(returned, mpt) && InFull(purchases, returned, mpt, lines)
    requires k < |lines| && ChoiceFits(purchases, lines[k], chosen) && chosen != []
    requires forall c :: c in chosen ==> HasCompleteReturn(returned, mpt, c.order, lines[k].sku)
    requires PositiveReturns(returned)
    ensures ReturnedQuantity(returned, mpt, lines[k].sku) >= lines[k].delta
    ensures ReturnedQuantity(returned, mpt, lines[k].sku) == lines[k].delta <==>
            OnlyChosen(returned, mpt, lines[k].sku, chosen)
  {
    hide FlatMap, Filter, OwnReturns, LineOf, OrdersQuantity, Sum;
    var sku, orders := lines[k].sku, Orders(chosen);
    var own := OwnReturns(returned, mpt, sku);
    var kept, others := Filter(own, OfChosen(orders)), Filter(own, NotChosen(orders));
    QuantityParts(own, orders);
    ChosenAreMatched(purchases, returned, mpt, lines, k, chosen);
    forall c | c in chosen
      ensures exists i :: 0 <= i < |kept| && kept[i].reference == c.order
    {
      assert HasCompleteReturn(returned, mpt, c.order, sku);
      var i :| 0 <= i < |returned| && IsOwn(returned[i], mpt, sku) && returned[i].reference == c.order;
      OwnHas(returned, mpt, sku, returned[i]);
      FilterHas(own, OfChosen(orders), returned[i]);
    }
    MatchedQuantity(kept, chosen);
    forall r: ReturnOrder
      ensures r in others <==> r in returned && IsOwn(r, mpt, sku) && r.reference !in orders
    {
      FilterHas(own, NotChosen(orders), r);
      OwnHas(returned, mpt, sku, r);
    }
    SumOfPositive(others);
    if others != [] {
      assert others[0] in others;
      var i :| 0 <= i < |returned| && returned[i] == others[0];
    }
    if i :| 0 <= i < |returned| && IsOwn(returned[i], mpt, sku) && returned[i].reference !in orders {
      assert returned[i] in others;
    }
  }

  /** While the returns stay within the choice, the open ones are of chosen orders. */
  lemma WithinMeansChosen(
    returned: seq<ReturnOrder>, mpt: MptId, lines: seq<DownsizeLine>, deployment: Option<nat>,
    chosen: seq<seq<Candidate>>)
    requires Within(returned, mpt, lines, deployment, chosen)
    ensures OpenAreChosen(returned, mpt, lines, deployment, chosen)
  {
    forall i, k | 0 <= i < |returned| && 0 <= k < |lines| && IsOwn(returned[i], mpt, lines[k].sku)
      ensures IsChosen(chosen[k], returned[i].reference, deployment)
    {
      assert ReturnsAmong(returned, mpt, lines[k].sku, chosen[k], deployment);
      var c :| c in chosen[k] && Matches(c, returned[i]) && (deployment.None? || c.deployment == deployment);
    }
  }

  /** What the attempt chooses: near the coterm date, nothing. */
  function ChosenAt(nearCoterm: bool, target: seq<seq<Candidate>>): (chosen: seq<seq<Candidate>>)
    ensures |chosen| == |target|
  {
    if nearCoterm then seq(|target|, _ => []) else target
  }

  /** As long as the returns stay within the choice, so in a steady environment, the condition is the guard
      of the return steps: for an order with something to return, getting past them means that none of its
      returns is open if and only if the attempt is not near the coterm date. */
  lemma PassingMeansNoneOpenIff(
    nearCoterm: bool, mpt: MptId, lines: seq<DownsizeLine>, deployment: Option<nat>, target: seq<seq<Candidate>>,
    k: nat, c: Candidate)
    requires |target| == |lines| && k < |lines| && c in target[k] && (deployment.None? || c.deployment == deployment)
    requires forall i, j :: 0 <= i < j < |lines| ==> lines[i].sku != lines[j].sku
    ensures (forall returned :: OneReturnEach(returned, mpt) && Within(returned, mpt, lines, deployment, target)
                                && AllReturned(returned, mpt, lines, deployment, ChosenAt(nearCoterm, target)) ==>
                                  NoneOpen(returned, mpt, lines))
            <==> !nearCoterm
  {
    if nearCoterm {
      var open := ReturnOrder(0, mpt, c.order, lines[k].sku, c.quantity, Open);
      assert IsOwn([open][0], mpt, lines[k].sku) && !NoneOpen([open], mpt, lines);
      forall j | 0 <= j < |lines|
        ensures ReturnsAmong([open], mpt, lines[j].sku, target[j], deployment)
      {
        assert j != k ==> lines[j].sku != lines[k].sku;
        assert Returnee(target[k], open, deployment);
      }
      assert Within([open], mpt, lines, deployment, target) && OneReturnEach([open], mpt);
    } else {
      forall returned | OneReturnEach(returned, mpt) && Within(returned, mpt, lines, deployment, target)
                        && AllReturned(returned, mpt, lines, deployment, target)
        ensures NoneOpen(returned, mpt, lines)
      {
        NoneOpenIff(returned, mpt, lines, deployment, target);
        WithinMeansChosen(returned, mpt, lines, deployment, target);
      }
    }
  }

  /******* The steps *******/

  // What an attempt finds: whether it is near the coterm date, and its cancellation window.
  datatype Moment = Moment(nearCoterm: bool, window: Window)

  // What is at Adobe at one moment.
  datatype View = View(purchases: seq<Purchase>, returned: seq<ReturnOrder>)

  ghost predicate Takes(before: View, after: View, m: Move, mpt: MptId, lines: seq<DownsizeLine>) {
    && Possible(before.purchases, before.returned, m, mpt, lines)
    && after == View(PurchasesAfter(before.purchases, m), ReturnsAfter(before.returned, m))
  }

  /** This MPT order places a return. */
  ghost predicate Returns(before: View, after: View, mpt: MptId) {
    && after.purchases == before.purchases && before.returned < after.returned
    && |after.returned| == |before.returned| + 1 && after.returned[|before.returned|].mpt == mpt
  }

  ghost predicate Follows(before: View, after: View, mpt: MptId, lines: seq<DownsizeLine>) {
    Returns(before, after, mpt) || exists m :: Takes(before, after, m, mpt, lines)
  }

  /** Every moment but the first follows the one before by a possible step of Adobe or by a return this
      MPT order places. */
  ghost predicate IsRun(history: seq<View>, mpt: MptId, lines: seq<DownsizeLine>) {
    forall i, j :: 0 <= i && j == i + 1 && j < |history| ==> Follows(history[i], history[j], mpt, lines)
  }

  /** A run up to `now`, and the moments of it at which an attempt listed the returns. */
  ghost predicate Logged(
    history: seq<View>, listings: seq<nat>, now: View, mpt: MptId, lines: seq<DownsizeLine>)
  {
    && history != [] && history[|history|-1] == now && IsRun(history, mpt, lines)
    && (forall i :: 0 <= i < |listings| ==> listings[i] < |history|)
    && (forall i, j :: 0 <= i < j < |listings| ==> listings[i] <= listings[j])
  }

  lemma FollowedBy(
    history: seq<View>, listings: seq<nat>, now: View, next: View, mpt: MptId, lines: seq<DownsizeLine>)
    requires Logged(history, listings, now, mpt, lines) && Follows(now, next, mpt, lines)
    ensures Logged(history + [next], listings, next, mpt, lines)
    ensures history <= history + [next]
  {
    hide Follows;
  }

  lemma ListedNow(history: seq<View>, listings: seq<nat>, now: View, mpt: MptId, lines: seq<DownsizeLine>)
    requires Logged(history, listings, now, mpt, lines)
    ensures |history| > 0 && Logged(history, listings + [|history| - 1], now, mpt, lines)
    ensures history[|history|-1] == now
  {
    hide Follows;
  }

  ghost predicate ListedAt(
    history: seq<View>, at: nat, j: nat, mpt: MptId, line: DownsizeLine, window: Window, candidates: seq<Candidate>)
  {
    at <= j < |history|
    && candidates == CandidatesFor(history[j].purchases, history[at].returned, mpt, line, window)
  }

  /** With the returns listed at the moment `at`, the orders Adobe listed then or later have these
      candidates; near the coterm date nothing is listed. */
  ghost predicate WasListed(
    history: seq<View>, at: nat, mpt: MptId, line: DownsizeLine, now: Moment, candidates: seq<Candidate>)
  {
    if now.nearCoterm then candidates == []
    else exists j: nat :: ListedAt(history, at, j, mpt, line, now.window, candidates)
  }

  ghost predicate MadeFrom(
    history: seq<View>, at: nat, mpt: MptId, line: DownsizeLine, now: Moment, choice: seq<Candidate>)
  {
    exists candidates :: WasListed(history, at, mpt, line, now, candidates)
                         && choice == ChoiceOf(candidates, line.delta)
  }

  /** `chosen` is the choice of an attempt that listed the returns at the moment `at`. */
  ghost predicate ChosenFrom(
    history: seq<View>, at: nat, mpt: MptId, lines: seq<DownsizeLine>, now: Moment, chosen: seq<seq<Candidate>>)
  {
    |chosen| == |lines| && at < |history|
    && forall k :: 0 <= k < |lines| ==> MadeFrom(history, at, mpt, lines[k], now, chosen[k])
  }

  /** An order Adobe listed at the moment `at` or later could be returned, and `c` stands for its line. */
  ghost predicate WasReturnable(
    history: seq<View>, at: nat, mpt: MptId, line: DownsizeLine, window: Window, c: Candidate)
    requires at < |history|
  {
    exists j, p :: at <= j < |history| && p in history[j].purchases
                   && StandsFor(c, p, line, history[at].returned, mpt, window)
  }

  lemma ListedWereReturnable(
    history: seq<View>, at: nat, mpt: MptId, line: DownsizeLine, now: Moment, candidates: seq<Candidate>)
    requires at < |history| && WasListed(history, at, mpt, line, now, candidates)
    ensures forall c :: c in candidates ==> WasReturnable(history, at, mpt, line, now.window, c)
  {
    hide StandsFor, CandidatesFor;
    forall c | c in candidates
      ensures WasReturnable(history, at, mpt, line, now.window, c)
    {
      var j: nat :| ListedAt(history, at, j, mpt, line, now.window, candidates);
      CandidatesStandFor(history[j].purchases, history[at].returned, mpt, line, now.window, c);
    }
  }

  lemma ChoiceIsListed(candidates: seq<Candidate>, delta: nat)
    ensures forall c :: c in ChoiceOf(candidates, delta) ==> c in candidates
  {
    SelectionIsExact(candidates, delta);
    if ChoiceOf(candidates, delta) != [] {
      SubsequenceIsShorter(ChoiceOf(candidates, delta), candidates);
    }
  }

  /** What an attempt chose could be returned when Adobe listed it. */
  lemma ChosenWereReturnable(
    history: seq<View>, at: nat, mpt: MptId, lines: seq<DownsizeLine>, now: Moment, chosen: seq<seq<Candidate>>)
    requires ChosenFrom(history, at, mpt, lines, now, chosen)
    ensures forall k, c :: 0 <= k < |lines| && c in chosen[k] ==>
                             WasReturnable(history, at, mpt, lines[k], now.window, c)
  {
    hide ChoiceOf, WasListed, WasReturnable;
    forall k, c | 0 <= k < |lines| && c in chosen[k]
      ensures WasReturnable(history, at, mpt, lines[k], now.window, c)
    {
      var candidates :| WasListed(history, at, mpt, lines[k], now, candidates)
                        && chosen[k] == ChoiceOf(candidates, lines[k].delta);
      ChoiceIsListed(candidates, lines[k].delta);
      ListedWereReturnable(history, at, mpt, lines[k], now, candidates);
    }
  }

  lemma StillListed(
    history: seq<View>, later: seq<View>, at: nat, mpt: MptId, line: DownsizeLine, now: Moment,
    candidates: seq<Candidate>)
    requires history <= later && WasListed(history, at, mpt, line, now, candidates)
    ensures WasListed(later, at, mpt, line, now, candidates)
  {
    if !now.nearCoterm {
      var j: nat :| ListedAt(history, at, j, mpt, line, now.window, candidates);
      assert later[at] == history[at] && later[j] == history[j];
      assert ListedAt(later, at, j, mpt, line, now.window, candidates);
    }
  }

  lemma StillChosen(
    history: seq<View>, later: seq<View>, at: nat, mpt: MptId, lines: seq<DownsizeLine>, now: Moment,
    chosen: seq<seq<Candidate>>)
    requires history <= later && ChosenFrom(history, at, mpt, lines, now, chosen)
    ensures ChosenFrom(later, at, mpt, lines, now, chosen)
  {
    hide WasListed, ChoiceOf;
    forall k | 0 <= k < |lines|
      ensures MadeFrom(later, at, mpt, lines[k], now, chosen[k])
    {
      var candidates :| WasListed(history, at, mpt, lines[k], now, candidates)
                        && chosen[k] == ChoiceOf(candidates, lines[k].delta);
      StillListed(history, later, at, mpt, lines[k], now, candidates);
    }
  }

  lemma NothingChosen(delta: nat)
    ensures ChoiceOf([], delta) == []
  {
    SelectionIsExact([], delta);
  }

  lemma NearCotermNothingChosen(
    history: seq<View>, at: nat, mpt: MptId, lines: seq<DownsizeLine>, now: Moment, chosen: seq<seq<Candidate>>)
    requires ChosenFrom(history, at, mpt, lines, now, chosen) && now.nearCoterm
    ensures forall k :: 0 <= k < |lines| ==> chosen[k] == []
  {
    hide ChoiceOf;
    forall k | 0 <= k < |lines|
      ensures chosen[k] == []
    {
      assert MadeFrom(history, at, mpt, lines[k], now, chosen[k]);
      NothingChosen(lines[k].delta);
    }
  }

  class ReturnFlow {
    const mpt: MptId
    const lines: seq<DownsizeLine>
    const deployment: Option<nat>
    // In a steady environment nothing disturbs the choice, which is `target`, and the window stays.
    const steady: bool
    const window: Window
    ghost const target: seq<seq<Candidate>>
    var purchases: seq<Purchase>
    var returned: seq<ReturnOrder>
    // The moments so far, and those at which an attempt listed the returns.
    ghost var history: seq<View>
    ghost var listings: seq<nat>

    constructor (mpt: MptId, lines: seq<DownsizeLine>, deployment: Option<nat>, steady: bool,
                 window: Window, ghost target: seq<seq<Candidate>>, purchases: seq<Purchase>,
                 returned: seq<ReturnOrder>)
      requires Sound(purchases, lines) && OneReturnEach(returned, mpt) && InFull(purchases, returned, mpt, lines)
      requires steady ==>
                 && Chooses(purchases, returned, mpt, lines, window, target)
                 && Within(returned, mpt, lines, deployment, target)
      ensures Valid() && this.mpt == mpt && this.lines == lines && this.deployment == deployment
      ensures this.steady == steady && this.window == window && this.target == target
      ensures this.purchases == purchases && this.returned == returned && listings == []
    {
      this.mpt, this.lines, this.deployment := mpt, lines, deployment;
      this.steady, this.window, this.target := steady, window, target;
      this.purchases, this.returned := purchases, returned;
      history, listings := [View(purchases, returned)], [];
    }

    /** Each order is returned at most once, and in full. In a steady environment the choice is `target`
        and this order's returns stay within it. */
    ghost predicate Valid()
      reads this
    {
      && Sound(purchases, lines) && OneReturnEach(returned, mpt) && InFull(purchases, returned, mpt, lines)
      && (steady ==>
            && Chooses(purchases, returned, mpt, lines, window, target)
            && Within(returned, mpt, lines, deployment, target))
      && Logged(history, listings, View(purchases, returned), mpt, lines)
    }

    /** Adobe takes one possible step; in a steady environment, an orderly one that does not disturb the
        choice. */
    method Step(m: Move, ghost seen: seq<ReturnOrder>)
      requires Valid() && Possible(purchases, returned, m, mpt, lines)
      requires steady ==>
                 Legal(purchases, returned, m, mpt, lines) && !Disturbs(purchases, returned, m, mpt, lines, window)
      modifies `purchases, `returned, `history
      ensures Valid() && KeepsLines(old(purchases), purchases)
      ensures Settled(old(returned), returned, mpt)
      ensures steady && Tracks(old(purchases), old(returned), seen, mpt, lines, window) ==>
                Tracks(purchases, returned, seen, mpt, lines, window)
      ensures steady ==>
                forall k :: 0 <= k < |lines| ==>
                              CandidatesFor(purchases, returned, mpt, lines[k], window) ==
                              CandidatesFor(old(purchases), old(returned), mpt, lines[k], window)
      ensures purchases == PurchasesAfter(old(purchases), m) && returned == ReturnsAfter(old(returned), m)
      ensures history == old(history) + [View(purchases, returned)]
    {
      hide Sound, Chooses, Within, Settled, Tracks, CandidatesFor, Legal, Possible, Disturbs, PurchasesAfter;
      hide ReturnsAfter, OneReturnEach, InFull, KeepsLines, Logged;
      ghost var purchases', returned' := PurchasesAfter(purchases, m), ReturnsAfter(returned, m);
      StepKeepsSound(purchases, returned, m, mpt, lines);
      StepKeepsLines(purchases, returned, m, mpt, lines);
      StepMovesReturns(purchases, returned, m, mpt, lines);
      MovedReturnsKeep(purchases, purchases', returned, returned', mpt, lines);
      MovedReturnsSettle(returned, returned', mpt);
      if steady {
        StepKeepsTarget(purchases, returned, m, mpt, lines, deployment, window, target);
        SoundMeansDistinct(purchases, lines);
        forall k | 0 <= k < |lines|
          ensures CandidatesFor(purchases', returned', mpt, lines[k], window) ==
                  CandidatesFor(purchases, returned, mpt, lines[k], window)
        {
          StepKeepsCandidates(purchases, returned, m, mpt, lines, window, k);
        }
        if Tracks(purchases, returned, seen, mpt, lines, window) {
          StepKeepsTracking(purchases, returned, m, seen, mpt, lines, window);
        }
      }
      assert Takes(View(purchases, returned), View(purchases', returned'), m, mpt, lines);
      FollowedBy(history, listings, View(purchases, returned), View(purchases', returned'), mpt, lines);
      purchases, returned := PurchasesAfter(purchases, m), ReturnsAfter(returned, m);
      history := history + [View(purchases, returned)];
    }

    /** Adobe moves on between two calls, by any number of possible steps; in a steady environment, of
        orderly steps that do not disturb the choice. */
    method Tick(ghost seen: seq<ReturnOrder>)
      requires Valid()
      modifies `purchases, `returned, `history
      ensures Valid() && KeepsLines(old(purchases), purchases)
      ensures Settled(old(returned), returned, mpt)
      ensures steady && Tracks(old(purchases), old(returned), seen, mpt, lines, window) ==>
                Tracks(purchases, returned, seen, mpt, lines, window)
      ensures steady ==>
                forall k :: 0 <= k < |lines| ==>
                              CandidatesFor(purchases, returned, mpt, lines[k], window) ==
                              CandidatesFor(old(purchases), old(returned), mpt, lines[k], window)
      ensures old(history) <= history
    {
      hide Sound, Chooses, Within, Settled, Tracks, CandidatesFor, Legal, Possible, Disturbs, PurchasesAfter;
      hide ReturnsAfter, OneReturnEach, InFull, KeepsLines, Logged;
      var steps: int := *;
      SettledRefl(returned, mpt);
      KeepsLinesRefl(purchases);
      while steps > 0
        invariant Valid() && Settled(old(returned), returned, mpt) && KeepsLines(old(purchases), purchases)
        invariant steady && Tracks(old(purchases), old(returned), seen, mpt, lines, window) ==>
                    Tracks(purchases, returned, seen, mpt, lines, window)
        invariant steady ==>
                    forall k :: 0 <= k < |lines| ==>
                                  CandidatesFor(purchases, returned, mpt, lines[k], window) ==
                                  CandidatesFor(old(purchases), old(returned), mpt, lines[k], window)
        invariant old(history) <= history
        decreases steps
      {
        steps := steps - 1;
        var m: Move := *;
        var takes := Possible(purchases, returned, m, mpt, lines)
          && (!steady || (Legal(purchases, returned, m, mpt, lines)
                          && !Disturbs(purchases, returned, m, mpt, lines, window)));
        if takes {
          ghost var purchases0, returned0 := purchases, returned;
          Step(m, seen);
          SettledTwice(old(returned), returned0, returned, mpt);
          KeepsLinesTwice(old(purchases), purchases0, purchases);
        }
      }
    }

    /** create_return_order for one chosen order. Adobe may refuse it, or take it and lose the answer. */
    method CreateReturnOrder(k: nat, c: Candidate, answer: CreateAnswer) returns (r: Option<ReturnOrder>)
      requires Valid() && k < |lines| && Fits(purchases, lines[k], c)
      requires steady ==> c in target[k] && (deployment.None? || c.deployment == deployment)
      requires !HasLiveReturn(returned, mpt, c.order, lines[k].sku)
      modifies `returned, `history
      ensures Valid() && old(history) <= history
      ensures r.Some? <==> answer.Taken? && answer.answered
      ensures r.Some? ==> returned == old(returned) + [r.value]
      ensures !answer.Taken? ==> returned == old(returned)
      ensures answer.Taken? ==>
                && returned == old(returned) + [ReturnOrder(|old(returned)|, mpt, c.order, c.sku, c.quantity,
                                                            answer.status)]
                && IsReturnOf(returned[|returned|-1], mpt, lines[k].sku, c)
    {
      hide Sound, Chooses, Within, HasLiveReturn, OrdersQuantity, OneReturnEach, InFull, Logged;
      r := None;
      if answer.Taken? {
        var placed := ReturnOrder(|returned|, mpt, c.order, c.sku, c.quantity, answer.status);
        PlacedKeeps(purchases, returned, placed, mpt, lines, k, c);
        if steady {
          PlacingKeeps(k, c, placed);
        }
        assert Returns(View(purchases, returned), View(purchases, returned + [placed]), mpt);
        FollowedBy(history, listings, View(purchases, returned), View(purchases, returned + [placed]), mpt, lines);
        returned := returned + [placed];
        history := history + [View(purchases, returned)];
        if answer.answered {
          r := Some(placed);
        }
      }
    }

    lemma PlacingKeeps(k: nat, c: Candidate, r: ReturnOrder)
      requires Valid() && steady && k < |lines| && c in target[k] && (deployment.None? || c.deployment == deployment)
      requires !HasLiveReturn(returned, mpt, c.order, lines[k].sku)
      requires IsReturnOf(r, mpt, lines[k].sku, c)
      ensures Chooses(purchases, returned + [r], mpt, lines, window, target)
      ensures Within(returned + [r], mpt, lines, deployment, target)
    {
      hide Chosen, CandidatesFor, HasLiveReturn, LineOf, ReturnsAmong, InFull, OneReturnEach;
      forall j | 0 <= j < |lines|
        ensures Chosen(purchases, returned + [r], mpt, lines[j], window) == target[j]
        ensures ReturnsAmong(returned + [r], mpt, lines[j].sku, target[j], deployment)
      {
        assert j != k ==> lines[j].sku != r.sku;
        PlacingIsStable(purchases, returned, r, mpt, lines[j], window);
        assert Returnee(target[k], r, deployment);
        AmongAfter(returned, r, mpt, lines[j].sku, target[j], deployment);
      }
    }

    /** One chosen order: reuse the return that was seen for it, or place one. */
    method SubmitOne(k: nat, c: Candidate, seen: seq<ReturnOrder>) returns (crashed: bool, pending: seq<OrderId>)
      requires Valid() && k < |lines| && Fits(purchases, lines[k], c) && (steady ==> c in target[k])
      requires HasLiveReturn(returned, mpt, c.order, lines[k].sku) ==> HasLiveReturn(seen, mpt, c.order, lines[k].sku)
      requires HasCompleteReturn(seen, mpt, c.order, lines[k].sku) ==>
                 HasCompleteReturn(returned, mpt, c.order, lines[k].sku)
      modifies `purchases, `returned, `history
      ensures Valid() && KeepsLines(old(purchases), purchases) && old(history) <= history
      ensures Advanced(old(returned), returned, mpt, lines[k].sku, {c.order})
      ensures !crashed && pending == [] && (deployment.None? || c.deployment == deployment) ==>
                HasCompleteReturn(returned, mpt, c.order, lines[k].sku)
      ensures !(deployment.None? || c.deployment == deployment) || ReturnSeen(seen, mpt, c.order, lines[k].sku) ==>
                !crashed && pending == [] && returned == old(returned) && purchases == old(purchases)
    {
      hide Sound, Chooses, Within, HasLiveReturn, HasCompleteReturn, Tracks, CandidatesFor, OrdersQuantity;
      hide OneReturnEach, InFull, Logged;
      KeepsLinesRefl(purchases);
      if !InDeployment(c, deployment) {
        return false, [];
      }
      var found := FindReturn(OwnReturns(seen, mpt, lines[k].sku), c.order);
      FindSeen(seen, mpt, lines[k].sku, c.order);
      if found.Some? {
        return false, if found.value.status.Complete? then [] else [found.value.id];
      }
      Tick(seen);
      ghost var before := returned;
      var answer: CreateAnswer := *;
      var placed := CreateReturnOrder(k, c, answer);
      if answer.Taken? {
        ghost var r := returned[|returned|-1];
        assert returned == before + [r];
        forall order, sku {
          LiveAfter(before, r, mpt, order, sku);
        }
      }
      if placed.None? {
        return true, [];
      }
      return false, if placed.value.status.Complete? then [] else [placed.value.id];
    }

    /** The part of SubmitReturnOrders for one SKU. `seen` is what GetReturnOrders found; `chosen` is what
        GetReturnableOrders chose. */
    method SubmitLine(k: nat, seen: seq<ReturnOrder>, chosen: seq<Candidate>)
      returns (crashed: bool, pending: seq<OrderId>)
      requires Valid() && k < |lines| && ChoiceFits(purchases, lines[k], chosen)
      requires steady ==> chosen == target[k] || chosen == []
      requires forall order :: HasLiveReturn(returned, mpt, order, lines[k].sku) ==>
                                 HasLiveReturn(seen, mpt, order, lines[k].sku)
      requires forall order :: HasCompleteReturn(seen, mpt, order, lines[k].sku) ==>
                                 HasCompleteReturn(returned, mpt, order, lines[k].sku)
      modifies `purchases, `returned, `history
      ensures Valid() && KeepsLines(old(purchases), purchases) && old(history) <= history
      ensures Advanced(old(returned), returned, mpt, lines[k].sku, Orders(chosen))
      ensures !crashed && pending == [] ==>
                forall c :: c in chosen && (deployment.None? || c.deployment == deployment) ==>
                              HasCompleteReturn(returned, mpt, c.order, lines[k].sku)
      ensures AllSeen(seen, mpt, lines[k].sku, deployment, chosen) ==>
                !crashed && pending == [] && returned == old(returned) && purchases == old(purchases)
    {
      hide Sound, Chooses, Within, HasLiveReturn, HasCompleteReturn, OneReturnEach, InFull, KeepsLines, Fits;
      hide Logged, ReturnSeen;
      pending := [];
      ghost var tried := {};
      KeepsLinesRefl(purchases);
      for j := 0 to |chosen|
        invariant Valid() && KeepsLines(old(purchases), purchases)
        invariant tried == Orders(chosen[..j])
        invariant Advanced(old(returned), returned, mpt, lines[k].sku, tried)
        invariant pending == [] ==>
                    forall c :: c in chosen[..j] && (deployment.None? || c.deployment == deployment) ==>
                                  HasCompleteReturn(returned, mpt, c.order, lines[k].sku)
        invariant old(history) <= history
        invariant AllSeen(seen, mpt, lines[k].sku, deployment, chosen) ==>
                    pending == [] && returned == old(returned) && purchases == old(purchases)
      {
        ghost var before, purchases0 := returned, purchases;
        var c := chosen[j];
        NextOrder(chosen, j);
        StillFits(old(purchases), purchases, lines[k], c);
        var stuck, more := SubmitOne(k, c, seen);
        KeepsLinesTwice(old(purchases), purchases0, purchases);
        AdvancedTwice(old(returned), before, returned, mpt, lines[k].sku, tried, {c.order});
        tried := tried + {c.order};
        pending := pending + more;
        assert chosen[..j+1] == chosen[..j] + [c];
        if stuck {
          AdvancedMore(old(returned), returned, mpt, lines[k].sku, tried, Orders(chosen));
          return true, pending;
        }
      }
      assert chosen[..|chosen|] == chosen;
      return false, pending;
    }

    /** GetReturnableOrders for one line: what Adobe lists, and the choice made from it. */
    method ChooseLine(k: nat, now: Moment, seen: seq<ReturnOrder>, ghost at: nat)
      returns (candidates: seq<Candidate>, choice: seq<Candidate>)
      requires Valid() && k < |lines| && (steady ==> now.window == window)
      requires steady ==> Tracks(purchases, returned, seen, mpt, lines, window)
      requires at < |history| && history[at].returned == seen
      modifies `purchases, `returned, `history
      ensures Valid() && KeepsLines(old(purchases), purchases) && Settled(old(returned), returned, mpt)
      ensures old(history) <= history
      ensures steady ==> Tracks(purchases, returned, seen, mpt, lines, window)
      ensures ChoiceFits(purchases, lines[k], choice)
      ensures WasListed(history, at, mpt, lines[k], now, candidates)
      ensures choice == ChoiceOf(candidates, lines[k].delta)
      ensures steady ==> |target| == |lines| && choice == if now.nearCoterm then [] else target[k]
    {
      hide Sound, Chooses, Chosen, Within, Tracks, Settled, CandidatesFor, KeepsLines, OneReturnEach, InFull;
      hide ChoiceFits, ChoiceOf, Logged;
      TargetSize();
      SettledRefl(returned, mpt);
      KeepsLinesRefl(purchases);
      if now.nearCoterm {
        NothingFits(purchases, lines[k]);
        NothingChosen(lines[k].delta);
        return [], [];
      }
      Tick(seen);
      candidates := CandidatesFor(purchases, seen, mpt, lines[k], now.window);
      choice := Chosen(purchases, seen, mpt, lines[k], now.window);
      LastIsNow();
      assert ListedAt(history, at, |history| - 1, mpt, lines[k], now.window, candidates);
      ChosenFits(purchases, seen, mpt, lines, now.window, k);
      ChosenIsChoiceOf(purchases, seen, mpt, lines[k], now.window);
      if steady {
        TrackedCandidates(purchases, returned, seen, mpt, lines, window, k);
        ChoosesTarget(purchases, returned, mpt, lines, window, target, k);
      }
    }

    lemma LastIsNow()
      requires Valid()
      ensures |history| > 0 && history[|history|-1] == View(purchases, returned)
    {
    }

    /** GetReturnOrders, GetReturnableOrders and ValidateReturnableOrders: the returns seen, the candidates
        and the choice computed line by line, and whether the order may go on: it already has returns
        (`others` are those of its own NEW order), or every line with candidates has a choice. Near the
        coterm date nothing is listed and chosen, and the order goes on. */
    method ChooseReturns(now: Moment, others: bool)
      returns (seen: seq<ReturnOrder>, listed: seq<seq<Candidate>>, chosen: seq<seq<Candidate>>, accepted: bool)
      requires Valid() && (steady ==> now.window == window)
      modifies this
      ensures Valid() && KeepsLines(old(purchases), purchases)
      ensures Settled(seen, returned, mpt) && Settled(old(returned), returned, mpt)
      ensures old(history) <= history && |listings| == |old(listings)| + 1 && old(listings) <= listings
      ensures |old(history)| - 1 <= Listing() < |history| && seen == history[Listing()].returned
      ensures AllFit(purchases, lines, chosen) && |listed| == |chosen| == |lines|
      ensures forall k :: 0 <= k < |lines| ==>
                            && WasListed(history, Listing(), mpt, lines[k], now, listed[k])
                            && chosen[k] == ChoiceOf(listed[k], lines[k].delta)
      ensures ChosenFrom(history, Listing(), mpt, lines, now, chosen)
      ensures forall k, c :: 0 <= k < |lines| && (c in listed[k] || c in chosen[k]) ==>
                               WasReturnable(history, Listing(), mpt, lines[k], now.window, c)
      ensures steady ==>
                forall k :: 0 <= k < |lines| ==> chosen[k] == if now.nearCoterm then [] else target[k]
      ensures accepted <==>
              now.nearCoterm || others
              || (exists i :: 0 <= i < |seen| && seen[i].mpt == mpt
                              && (seen[i].status.Complete? || seen[i].status.Open?))
              || forall k :: 0 <= k < |lines| ==> listed[k] == [] || chosen[k] != []
    {
      hide Sound, Chooses, Chosen, Within, Tracks, Settled, CandidatesFor, KeepsLines, OneReturnEach;
      hide InFull, ChoiceFits, ChoiceOf, Logged, WasListed, WasReturnable;
      TargetSize();
      Tick([]);
      seen := returned;
      ListedNow(history, listings, View(purchases, returned), mpt, lines);
      ghost var at: nat := |history| - 1;
      listings := listings + [at];
      listed, chosen := [], [];
      var covered := true;
      TracksNow(purchases, returned, mpt, lines, window);
      SettledRefl(returned, mpt);
      for k := 0 to |lines|
        invariant Valid() && KeepsLines(old(purchases), purchases)
        invariant old(history) <= history && listings == old(listings) + [at]
        invariant |old(history)| - 1 <= at < |history| && history[at].returned == seen
        invariant |chosen| == |listed| == k
        invariant forall j :: 0 <= j < k ==> ChoiceFits(purchases, lines[j], chosen[j])
        invariant forall j :: 0 <= j < k ==>
                                && WasListed(history, at, mpt, lines[j], now, listed[j])
                                && chosen[j] == ChoiceOf(listed[j], lines[j].delta)
        invariant steady ==> forall j :: 0 <= j < k ==> chosen[j] == if now.nearCoterm then [] else target[j]
        invariant steady ==> Tracks(purchases, returned, seen, mpt, lines, window)
        invariant Settled(seen, returned, mpt) && Settled(old(returned), returned, mpt)
        invariant covered <==> forall j :: 0 <= j < k ==> listed[j] == [] || chosen[j] != []
      {
        ghost var returned0, purchases0, history0 := returned, purchases, history;
        var candidates, choice := ChooseLine(k, now, seen, at);
        SettledTwice(seen, returned0, returned, mpt);
        SettledTwice(old(returned), returned0, returned, mpt);
        KeepsLinesTwice(old(purchases), purchases0, purchases);
        forall j | 0 <= j < k
          ensures ChoiceFits(purchases, lines[j], chosen[j])
          ensures WasListed(history, at, mpt, lines[j], now, listed[j])
        {
          StillFitsOne(purchases0, purchases, lines[j], chosen[j]);
          StillListed(history0, history, at, mpt, lines[j], now, listed[j]);
        }
        covered := covered && (candidates == [] || choice != []);
        listed, chosen := listed + [candidates], chosen + [choice];
      }
      accepted := now.nearCoterm || others || HasReturns(seen, mpt) || covered;
      ChosenWereReturnable(history, at, mpt, lines, now, chosen);
      forall k | 0 <= k < |lines|
        ensures forall c :: c in listed[k] ==> WasReturnable(history, at, mpt, lines[k], now.window, c)
      {
        ListedWereReturnable(history, at, mpt, lines[k], now, listed[k]);
      }
    }

    /** The moment at which the last attempt listed the returns. */
    ghost function Listing(): (at: nat)
      requires listings != []
      reads this
    {
      listings[|listings|-1]
    }

    /** SubmitReturnOrders: `seen` and `chosen` were computed earlier in the attempt. Adobe may move
        between any two calls, and the attempt may be cut short at any of them. */
    method SubmitReturns(seen: seq<ReturnOrder>, chosen: seq<seq<Candidate>>) returns (outcome: Outcome)
      requires Valid() && Settled(seen, returned, mpt) && AllFit(purchases, lines, chosen)
      requires steady ==> forall k :: 0 <= k < |lines| ==> chosen[k] == target[k] || chosen[k] == []
      modifies `purchases, `returned, `history
      ensures Valid() && KeepsLines(old(purchases), purchases) && !outcome.Rejected? && old(history) <= history
      ensures outcome.Done? ==> AllReturned(returned, mpt, lines, deployment, chosen)
      ensures (forall k :: 0 <= k < |lines| ==> AllSeen(seen, mpt, lines[k].sku, deployment, chosen[k])) ==>
                outcome.Done? && returned == old(returned) && purchases == old(purchases)
    {
      hide Sound, Chooses, Within, HasLiveReturn, HasCompleteReturn, KeepsLines, OneReturnEach, InFull, ChoiceFits;
      hide Logged, AllSeen;
      var pending := [];
      KeepsLinesRefl(purchases);
      for k := 0 to |lines|
        invariant Valid() && KeepsLines(old(purchases), purchases)
        invariant forall j, order :: k <= j < |lines| && HasLiveReturn(returned, mpt, order, lines[j].sku) ==>
                                       HasLiveReturn(seen, mpt, order, lines[j].sku)
        invariant forall order, sku :: HasCompleteReturn(seen, mpt, order, sku) ==>
                    HasCompleteReturn(returned, mpt, order, sku)
        invariant pending == [] ==>
                    forall j, c :: 0 <= j < k && c in chosen[j] && (deployment.None? || c.deployment == deployment) ==>
                                     HasCompleteReturn(returned, mpt, c.order, lines[j].sku)
        invariant old(history) <= history
        invariant (forall j :: 0 <= j < |lines| ==> AllSeen(seen, mpt, lines[j].sku, deployment, chosen[j])) ==>
                    pending == [] && returned == old(returned) && purchases == old(purchases)
      {
        ghost var purchases0 := purchases;
        OtherSkus(k);
        StillFitsOne(old(purchases), purchases, lines[k], chosen[k]);
        var crashed, more := SubmitLine(k, seen, chosen[k]);
        KeepsLinesTwice(old(purchases), purchases0, purchases);
        if crashed {
          return Crashed;
        }
        pending := pending + more;
      }
      return if pending == [] then Done else Outcome.Pending;
    }

    lemma OtherSkus(k: nat)
      requires Valid() && k < |lines|
      ensures forall j :: k < j < |lines| ==> lines[j].sku != lines[k].sku
    {
    }

    /** In a steady environment no SKU is returned beyond its downsize; once all is returned, and nothing is
        skipped for a deployment, every SKU with a choice is returned exactly. */
    lemma ReturnedExactly()
      requires Valid() && steady
      ensures forall k :: 0 <= k < |lines| ==> ReturnedQuantity(returned, mpt, lines[k].sku) <= lines[k].delta
      ensures AllReturned(returned, mpt, lines, deployment, target) && deployment.None? ==>
                forall k :: 0 <= k < |lines| && target[k] != [] ==>
                              ReturnedQuantity(returned, mpt, lines[k].sku) == lines[k].delta
    {
      hide Chosen, ReturnsAmong, HasCompleteReturn, ReturnedQuantity, LineOf, InFull, OneReturnEach;
      forall k | 0 <= k < |lines|
        ensures ReturnedQuantity(returned, mpt, lines[k].sku) <= lines[k].delta
        ensures AllReturned(returned, mpt, lines, deployment, target) && deployment.None? && target[k] != [] ==>
                  ReturnedQuantity(returned, mpt, lines[k].sku) == lines[k].delta
      {
        ReturnedWithinDownsize(purchases, returned, mpt, lines[k], deployment, window);
      }
    }

    /** What getting through with the choice `chosen` says, in any environment. */
    ghost predicate Completes(chosen: seq<seq<Candidate>>)
      reads this
    {
      && AllFit(purchases, lines, chosen) && AllReturned(returned, mpt, lines, deployment, chosen)
      && (NoneOpen(returned, mpt, lines) <==> OpenAreChosen(returned, mpt, lines, deployment, chosen))
      && (deployment.None? && PositiveReturns(returned) ==>
            forall k :: 0 <= k < |lines| && chosen[k] != [] ==>
                          && ReturnedQuantity(returned, mpt, lines[k].sku) >= lines[k].delta
                          && (ReturnedQuantity(returned, mpt, lines[k].sku) == lines[k].delta <==>
                              OnlyChosen(returned, mpt, lines[k].sku, chosen[k])))
    }

    lemma AllReturnedCompletes(chosen: seq<seq<Candidate>>)
      requires Valid() && AllFit(purchases, lines, chosen)
      requires AllReturned(returned, mpt, lines, deployment, chosen)
      ensures Completes(chosen)
      ensures steady && chosen == target ==> NoneOpen(returned, mpt, lines)
    {
      hide ReturnedQuantity, LineOf, Chosen, ReturnsAmong, NoneOpen, OpenAreChosen, InFull, OneReturnEach, Sound;
      hide ChoiceFits, OnlyChosen, PositiveReturns;
      NoneOpenIff(returned, mpt, lines, deployment, chosen);
      if steady && chosen == target {
        WithinMeansChosen(returned, mpt, lines, deployment, chosen);
      }
      if deployment.None? && PositiveReturns(returned) {
        forall k | 0 <= k < |lines| && chosen[k] != []
          ensures ReturnedQuantity(returned, mpt, lines[k].sku) >= lines[k].delta
          ensures ReturnedQuantity(returned, mpt, lines[k].sku) == lines[k].delta <==>
                  OnlyChosen(returned, mpt, lines[k].sku, chosen[k])
        {
          ReturnedExactlyIff(purchases, returned, mpt, lines, k, chosen[k]);
        }
      }
    }

    /** Getting through says what `Completes` says about the choice made from what this attempt listed; away
        from the coterm date, in a steady environment, that none is open and every downsize is exact. */
    ghost predicate GotThrough(now: Moment, chosen: seq<seq<Candidate>>)
      requires listings != []
      reads this
    {
      && Completes(chosen) && ChosenFrom(history, Listing(), mpt, lines, now, chosen)
      && (now.nearCoterm ==> forall k :: 0 <= k < |lines| ==> chosen[k] == [])
      && (steady && !now.nearCoterm ==>
            && chosen == target && NoneOpen(returned, mpt, lines)
            && (deployment.None? ==>
                  forall k :: 0 <= k < |lines| && chosen[k] != [] ==>
                                ReturnedQuantity(returned, mpt, lines[k].sku) == lines[k].delta))
    }

    lemma GetsThrough(now: Moment, chosen: seq<seq<Candidate>>)
      requires Valid() && AllFit(purchases, lines, chosen) && listings != []
      requires AllReturned(returned, mpt, lines, deployment, chosen)
      requires ChosenFrom(history, Listing(), mpt, lines, now, chosen)
      requires steady ==>
                 forall k :: 0 <= k < |lines| ==> chosen[k] == if now.nearCoterm then [] else target[k]
      ensures GotThrough(now, chosen)
    {
      hide Sound, Chooses, Within, OneReturnEach, InFull, ChoiceFits, AllReturned, NoneOpen, Completes, Logged;
      hide ReturnedQuantity, ChosenFrom;
      AllReturnedCompletes(chosen);
      TargetSize();
      if now.nearCoterm {
        NearCotermNothingChosen(history, Listing(), mpt, lines, now, chosen);
      }
      if steady && !now.nearCoterm {
        assert chosen == target;
        ReturnedExactly();
      }
    }

    /** One fulfillment attempt, as far as returns are concerned. */
    method Attempt(now: Moment) returns (outcome: Outcome, chosen: seq<seq<Candidate>>)
      requires Valid() && (steady ==> now.window == window)
      modifies this
      ensures Valid() && old(history) <= history
      ensures |listings| == |old(listings)| + 1 && old(listings) <= listings && |old(history)| - 1 <= Listing()
      ensures outcome.Done? ==> GotThrough(now, chosen)
    {
      hide Sound, Chooses, Within, HasLiveReturn, HasCompleteReturn, KeepsLines, OneReturnEach, InFull, ChoiceFits;
      hide AllReturned, GotThrough, HasReturns, ChosenFrom, WasListed, Logged, AllSeen;
      var seen, listed, accepted;
      seen, listed, chosen, accepted := ChooseReturns(now, false);
      if !accepted {
        return Outcome.Rejected, chosen;
      }
      ghost var purchases0, history0 := purchases, history;
      TargetSize();
      outcome := SubmitReturns(seen, chosen);
      if outcome.Done? {
        StillFit(purchases0, purchases, lines, chosen);
        StillChosen(history0, history, Listing(), mpt, lines, now, chosen);
        GetsThrough(now, chosen);
      }
    }

    lemma TargetSize()
      requires Valid()
      ensures steady ==> |target| == |lines|
    {
    }

    /** Any number of attempts from any partially submitted state, in any environment: each order is returned
        at most once, and getting through says what `GotThrough` says about the choice of the attempt that did,
        the last one made. In a steady environment no SKU is ever returned beyond its downsize. */
    method Retries(moments: seq<Moment>) returns (outcome: Outcome, last: nat, chosen: seq<seq<Candidate>>)
      requires Valid() && (steady ==> forall i :: 0 <= i < |moments| ==> moments[i].window == window)
      modifies this
      ensures Valid() && old(history) <= history && old(listings) <= listings
      ensures forall i :: |old(listings)| <= i < |listings| ==> |old(history)| - 1 <= listings[i]
      ensures outcome.Done? ==>
                last < |moments| && |listings| == |old(listings)| + last + 1 && GotThrough(moments[last], chosen)
      ensures steady ==>
                forall k :: 0 <= k < |lines| ==> ReturnedQuantity(returned, mpt, lines[k].sku) <= lines[k].delta
    {
      hide Sound, Chooses, Within, ReturnedQuantity, NoneOpen, OpenAreChosen, OneReturnEach, InFull, ChoiceFits;
      hide GotThrough, Logged;
      outcome, last, chosen := Outcome.Pending, 0, [];
      for i := 0 to |moments|
        invariant Valid() && !outcome.Done?
        invariant old(history) <= history && old(listings) <= listings && |listings| == |old(listings)| + i
        invariant forall j :: |old(listings)| <= j < |listings| ==> |old(history)| - 1 <= listings[j]
      {
        outcome, chosen := Attempt(moments[i]);
        last := i;
        if outcome.Done? || outcome.Rejected? {
          break;
        }
      }
      if steady {
        ReturnedExactly();
      }
    }
  }

  lemma QuantityOfTwo(a: ReturnOrder, b: ReturnOrder, mpt: MptId, sku: Sku)
    requires IsOwn(a, mpt, sku) && IsOwn(b, mpt, sku)
    ensures ReturnedQuantity([a, b], mpt, sku) == a.quantity + b.quantity
  {
    FlatMapConcat([a], [b], OwnOf(mpt, sku));
    FlatMapOne(a, OwnOf(mpt, sku));
    FlatMapOne(b, OwnOf(mpt, sku));
    SumConcat([a], [b], ReturnQuantity);
    SumOne(a, ReturnQuantity);
    SumOne(b, ReturnQuantity);
    assert [a, b] == [a] + [b];
  }

  /******* A run in a disturbed environment *******/

  const LINE := DownsizeLine(7, 3, 5)
  const WINDOW := Window(0, 10)
  const FIRST := Purchase(1, New, Plain(9), 4, [PurchaseLine(1, 3, 7, 5, None, Complete)], Complete)
  const SECOND := Purchase(2, New, Plain(9), 5, [PurchaseLine(1, 3, 7, 5, None, Complete)], Open)
  const DONE := SECOND.(status := Complete)
  const PLACED := ReturnOrder(0, 8, 1, 7, 5, Open)
  const MORE := ReturnOrder(1, 8, 2, 7, 5, Complete)

  lemma FirstIsChosen()
    ensures Chosen([FIRST, SECOND], [], 8, LINE, WINDOW) == [Candidate(1, 1, 7, 5, None)]
  {
    assert ReturningIds([], 8, 7) == [];
    OneItem(FIRST, SECOND, 3, [], WINDOW);
    assert ItemFor(FIRST, 3).candidate == Candidate(1, 1, 7, 5, None);
    hide Selected, Candidates, ReturningIds;
    LaterOneIsChosen(Candidate(1, 1, 7, 5, None), Candidate(2, 1, 7, 5, None));
  }

  lemma SecondIsChosen()
    ensures Chosen([FIRST, DONE], [PLACED], 8, LINE, WINDOW) == [Candidate(2, 1, 7, 5, None)]
    ensures Chosen([FIRST, DONE], [PLACED, MORE], 8, LINE, WINDOW) == [Candidate(2, 1, 7, 5, None)]
  {
    hide Chosen, CandidatesFor;
    CompletionMovesTheChoice();
    var choice := Chosen([FIRST, DONE], [PLACED], 8, LINE, WINDOW);
    assert choice[0] in choice;
    PlacingIsStable([FIRST, DONE], [PLACED], MORE, 8, LINE, WINDOW);
    assert [PLACED] + [MORE] == [PLACED, MORE];
  }

  lemma BothFit(orders: seq<Purchase>, returned: seq<ReturnOrder>)
    requires |orders| == 2 && orders[0] == FIRST && (orders[1] == SECOND || orders[1] == DONE)
    requires returned <= [PLACED, MORE]
    ensures Sound(orders, [LINE]) && OneReturnEach(returned, 8) && InFull(orders, returned, 8, [LINE])
    ensures Fits(orders, LINE, Candidate(1, 1, 7, 5, None)) && Fits(orders, LINE, Candidate(2, 1, 7, 5, None))
    ensures AllFit(orders, [LINE], [[Candidate(2, 1, 7, 5, None)]])
  {
    assert HasQuantity(orders[0], 3, 5) && HasQuantity(orders[1], 3, 5);
    SumOne(Candidate(2, 1, 7, 5, None), QuantityOf);
  }

  lemma BothReturned()
    ensures ReturnSeen([PLACED, MORE], 8, 2, 7) && !HasLiveReturn([PLACED], 8, 2, 7)
    ensures !NoneOpen([PLACED, MORE], 8, [LINE])
    ensures !OpenAreChosen([PLACED, MORE], 8, [LINE], None, [[Candidate(2, 1, 7, 5, None)]])
    ensures ReturnedQuantity([PLACED, MORE], 8, 7) == 10
  {
    hide Sum, FlatMap;
    var both := [PLACED, MORE];
    assert IsOwn(both[0], 8, 7) && IsOwn(both[1], 8, 7) && [LINE][0].sku == 7;
    assert !IsChosen([Candidate(2, 1, 7, 5, None)], 1, None);
    FlatMapConcat([PLACED], [MORE], OwnOf(8, 7));
    FlatMapOne(PLACED, OwnOf(8, 7));
    FlatMapOne(MORE, OwnOf(8, 7));
    SumConcat([PLACED], [MORE], ReturnQuantity);
    SumOne(PLACED, ReturnQuantity);
    SumOne(MORE, ReturnQuantity);
    assert both == [PLACED] + [MORE];
  }

  lemma DoneIsPossible()
    ensures Possible([FIRST, SECOND], [PLACED], PurchaseMoves(1, DONE), 8, [LINE])
    ensures PurchasesAfter([FIRST, SECOND], PurchaseMoves(1, DONE)) == [FIRST, DONE]
    ensures ReturnsAfter([PLACED], PurchaseMoves(1, DONE)) == [PLACED]
  {
  }

  /** What CompletionMovesTheChoice leads to, as a run away from the coterm date: order 1 is chosen for a
      downsize by 5 and its return is placed; order 2, of the same subscription and quantity, completes; a
      retry chooses order 2, whose return completes at once, and gets through, while the return of order 1
      is still open and 10 are returned. */
  method CompletesWithOpenReturn() returns (flow: ReturnFlow, outcome: Outcome, chosen: seq<seq<Candidate>>)
    ensures fresh(flow) && flow.Valid() && flow.lines == [LINE] && |chosen| == 1 && outcome.Done?
    ensures chosen[0] == Chosen(flow.purchases, flow.returned, flow.mpt, LINE, WINDOW) != []
    ensures !NoneOpen(flow.returned, flow.mpt, flow.lines)
            && !OpenAreChosen(flow.returned, flow.mpt, flow.lines, flow.deployment, chosen)
    ensures ReturnedQuantity(flow.returned, flow.mpt, LINE.sku) == 10
  {
    hide Chosen, ReturnedQuantity, Logged, InFull, Sound, OneReturnEach, Fits, ChoiceFits, HasLiveReturn;
    hide PurchasesAfter, ReturnsAfter, Possible, NoneOpen, OpenAreChosen, ReturnSeen, Settled;
    BothFit([FIRST, SECOND], []);
    flow := new ReturnFlow(8, [LINE], None, false, WINDOW, [], [FIRST, SECOND], []);
    FirstIsChosen();
    var choice := Chosen(flow.purchases, flow.returned, 8, LINE, WINDOW);
    NoneLive(8, 1, 7);
    var one := flow.CreateReturnOrder(0, choice[0], Taken(Open, true));
    assert flow.returned == [PLACED];
    DoneIsPossible();
    flow.Step(PurchaseMoves(1, DONE), []);
    BothFit([FIRST, DONE], [PLACED]);
    SecondIsChosen();
    BothReturned();
    choice := Chosen(flow.purchases, flow.returned, 8, LINE, WINDOW);
    var two := flow.CreateReturnOrder(0, choice[0], Taken(Complete, true));
    assert flow.returned == [PLACED, MORE];
    SettledRefl(flow.returned, 8);
    chosen := [choice];
    outcome := flow.SubmitReturns(flow.returned, chosen);
  }

  lemma NoneLive(mpt: MptId, order: OrderId, sku: Sku)
    ensures !HasLiveReturn([], mpt, order, sku)
  {
  }

  /** A retry near the coterm date lets an order through whose own return, placed before, is open. */
  method PassesWithOpenReturn(flow: ReturnFlow, k: nat, c: Candidate) returns (outcome: Outcome)
    requires flow.Valid() && k < |flow.lines| && Fits(flow.purchases, flow.lines[k], c)
    requires flow.steady ==> c in flow.target[k] && (flow.deployment.None? || c.deployment == flow.deployment)
    requires !HasLiveReturn(flow.returned, flow.mpt, c.order, flow.lines[k].sku)
    modifies flow
    ensures outcome.Done? && !NoneOpen(flow.returned, flow.mpt, flow.lines)
  {
    hide Sound, Chooses, Within, HasLiveReturn, OneReturnEach, InFull, OrdersQuantity;
    var r := flow.CreateReturnOrder(k, c, Taken(Open, true));
    SettledRefl(flow.returned, flow.mpt);
    assert IsOwn(flow.returned[|flow.returned|-1], flow.mpt, flow.lines[k].sku);
    var chosen := [];
    for j := 0 to |flow.lines|
      invariant |chosen| == j && forall i :: 0 <= i < j ==> chosen[i] == []
    {
      chosen := chosen + [[]];
    }
    forall j | 0 <= j < |flow.lines|
      ensures ChoiceFits(flow.purchases, flow.lines[j], chosen[j])
    {
      NothingFits(flow.purchases, flow.lines[j]);
    }
    outcome := flow.SubmitReturns(flow.returned, chosen);
  }

  lemma ChoosesTarget(
    purchases: seq<Purchase>, returned: seq<ReturnOrder>, mpt: MptId, lines: seq<DownsizeLine>, window: Window,
    target: seq<seq<Candidate>>, k: nat)
    requires Chooses(purchases, returned, mpt, lines, window, target) && k < |lines|
    ensures Chosen(purchases, returned, mpt, lines[k], window) == target[k]
  {
  }

  lemma SoundMeansDistinct(purchases: seq<Purchase>, lines: seq<DownsizeLine>)
    requires Sound(purchases, lines)
    ensures DistinctPurchases(purchases)
  {
  }
}
