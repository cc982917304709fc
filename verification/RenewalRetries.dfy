/** At-anniversary renewals over any number of attempts. An error that no step handles cuts an attempt
    short, wherever it is, and undoes nothing; the next attempt resolves the plan again on what it finds.
    The running aggregate keeps its floor through all of them, and what a failed order leaves is stated
    exactly. */
module RenewalRetries {
  import opened RenewalFloor
  import opened RenewalFulfillment
  import opened RenewalPlan
  import opened Subscriptions

  /******* An entry keeps its goal *******/

  /** Where one attempt can leave an entry's subscription: as it was, at the goal, or restored from there. */
  predicate EntryState(entry: PlanEntry, sub: Subscription, after: Subscription) {
    || after == sub
    || after == Goal(entry, sub)
    || (Classify(entry).Needs? && after == RestoredFrom(Goal(entry, sub), Classify(entry).operation))
  }

  function RestoredFrom(sub: Subscription, op: Operation): Subscription {
    Patched(sub, op.snapshot.enabled, op.snapshot.quantity, Some(op.snapshot.codes))
  }

  /** Resolved on `sub`, the entry leads to the same preference as resolved on `first`. */
  predicate SameGoal(entry: PayloadEntry, first: Subscription, sub: Subscription) {
    Equivalent(Goal(ResolveEntry(entry, sub), sub), Goal(ResolveEntry(entry, first), first))
  }

  lemma EntryStateKeepsGoal(entry: PayloadEntry, sub: Subscription, after: Subscription)
    requires EntryState(ResolveEntry(entry, sub), sub, after)
    ensures SameGoal(entry, sub, after) && OnlyPreference(sub, after)
  {
    var resolved := ResolveEntry(entry, sub);
    if after == sub {
      SameGoalRefl(entry, sub);
    } else if after == Goal(resolved, sub) {
      GoalKeepsGoal(entry, sub);
    } else {
      RestoredKeepsGoal(entry, sub);
    }
  }

  lemma GoalKeepsGoal(entry: PayloadEntry, sub: Subscription)
    ensures var goal := Goal(ResolveEntry(entry, sub), sub);
            SameGoal(entry, sub, goal) && OnlyPreference(sub, goal)
  {
  }

  lemma RestoredKeepsGoal(entry: PayloadEntry, sub: Subscription)
    requires Classify(ResolveEntry(entry, sub)).Needs?
    ensures var resolved := ResolveEntry(entry, sub);
            var after := RestoredFrom(Goal(resolved, sub), Classify(resolved).operation);
            SameGoal(entry, sub, after) && OnlyPreference(sub, after)
  {
  }

  lemma SameGoalTwice(entry: PayloadEntry, first: Subscription, second: Subscription, third: Subscription)
    requires SameGoal(entry, first, second) && SameGoal(entry, second, third)
    ensures SameGoal(entry, first, third)
  {
  }

  /** At every failure point and every position of the walk back, with any restores refused and with the
      failing operation in effect or not. */
  lemma WalkedEntry(plan: seq<PlanEntry>, subs: Subs, n: nat, lost: bool, j: nat, oks: seq<bool>, i: nat)
    requires DistinctEntries(plan) && Snapshotted(plan, subs) && i < |plan|
    requires j <= n <= |Operations(plan)| && |oks| == n - j && (lost ==> n < |Operations(plan)|)
    ensures Targets(subs, Operations(plan))
    ensures EntryState(plan[i], subs[plan[i].sub], Walked(subs, Operations(plan), n, lost, j, oks)[plan[i].sub])
  {
    hide Operations, AppliedAll, RestoredAll, Patched, Classify;
    var ops, id := Operations(plan), plan[i].sub;
    OperationsDistinct(plan);
    OperationsTarget(plan, subs);
    var m := if lost then n + 1 else n;
    var mid, part := AppliedAll(subs, ops[..m]), ops[j..n];
    AppliedAt(subs, ops, m, id);
    RestoredAt(mid, part, oks, id);
    var position := EntryOperation(plan, i);
    if position.None? {
      assert forall k :: 0 <= k < |part| ==> part[k] == ops[k+j];
    } else {
      var p := position.value;
      assert forall k :: 0 <= k < |ops| && k != p ==> ops[k].sub != id;
      assert forall k :: 0 <= k < |part| ==> part[k] == ops[k+j];
      if j <= p < n {
        assert part[p-j] == ops[p];
      }
    }
  }

  lemma WalkedElsewhere(plan: seq<PlanEntry>, subs: Subs, n: nat, lost: bool, j: nat, oks: seq<bool>, id: SubId)
    requires DistinctEntries(plan) && Snapshotted(plan, subs) && id in subs
    requires forall i :: 0 <= i < |plan| ==> plan[i].sub != id
    requires j <= n <= |Operations(plan)| && |oks| == n - j && (lost ==> n < |Operations(plan)|)
    ensures Targets(subs, Operations(plan))
    ensures Walked(subs, Operations(plan), n, lost, j, oks)[id] == subs[id]
  {
    hide Operations, AppliedAll, RestoredAll, Patched, KindAt;
    var ops := Operations(plan);
    OperationsDistinct(plan);
    OperationsTarget(plan, subs);
    forall k | 0 <= k < |ops|
      ensures ops[k].sub != id
    {
      OperationSound(plan, k);
      var i :| BuiltFrom(plan, ops[k], KindAt(plan, k), i);
    }
    AppliedAt(subs, ops, if lost then n + 1 else n, id);
    assert forall k :: 0 <= k < n - j ==> ops[j..n][k] == ops[k+j];
    RestoredAt(AppliedAll(subs, ops[..if lost then n + 1 else n]), ops[j..n], oks, id);
  }

  /** Retry convergence: wherever an attempt was interrupted, while patching or while walking back, a rerun
      from the state it left reaches the same preferences as an uninterrupted run. */
  lemma RerunConverges(
    payload: seq<PayloadEntry>, subs: Subs, n: nat, lost: bool, j: nat, oks: seq<bool>, left: Subs, i: nat)
    requires DistinctPayload(payload) && Known(payload, subs) && i < |payload|
    requires var ops := Operations(Resolve(payload, subs));
             && Targets(subs, ops) && j <= n <= |ops| && |oks| == n - j && (lost ==> n < |ops|)
             && left == Walked(subs, ops, n, lost, j, oks)
    ensures left.Keys == subs.Keys && Targets(left, Operations(Resolve(payload, left)))
    ensures Equivalent(AppliedAll(left, Operations(Resolve(payload, left)))[payload[i].sub],
                       AppliedAll(subs, Operations(Resolve(payload, subs)))[payload[i].sub])
  {
    hide Operations, AppliedAll, Goal, EntryState;
    ResolvedPlan(payload, subs);
    WalkedEntry(Resolve(payload, subs), subs, n, lost, j, oks, i);
    EntryStateKeepsGoal(payload[i], subs[payload[i].sub], left[payload[i].sub]);
    WalkedKeys(Resolve(payload, subs), subs, n, lost, j, oks);
    ResolvedPlan(payload, left);
    FullRunReachesGoal(Resolve(payload, subs), subs, i);
    FullRunReachesGoal(Resolve(payload, left), left, i);
  }

  lemma WalkedKeys(plan: seq<PlanEntry>, subs: Subs, n: nat, lost: bool, j: nat, oks: seq<bool>)
    requires Targets(subs, Operations(plan))
    requires j <= n <= |Operations(plan)| && |oks| == n - j && (lost ==> n < |Operations(plan)|)
    ensures Walked(subs, Operations(plan), n, lost, j, oks).Keys == subs.Keys
  {
  }

  /******* What every attempt keeps *******/

  /** Everything but the auto-renewal preference is as it was. */
  predicate OnlyPreference(first: Subscription, sub: Subscription) {
    first.(auto := sub.auto) == sub
  }

  predicate IsFor(sub: Subscription, item: NetNewItem) {
    sub.status == Scheduled && sub.offer.sku == item.offer.sku
  }

  predicate ForSome(sub: Subscription, items: seq<NetNewItem>) {
    exists k :: 0 <= k < |items| && IsFor(sub, items[k])
  }

  /** A scheduled subscription of an item's product serves the item, or renews nothing. */
  predicate ServesOrIdle(sub: Subscription, items: seq<NetNewItem>) {
    forall k :: 0 <= k < |items| && IsFor(sub, items[k]) ==> HoldsQuantity(sub, items[k].quantity) || Renewing(sub) == 0
  }

  /** What the order asks of the customer's subscriptions: known entries, distinct ones and distinct
      products, no entry for a scheduled subscription of an item's product, and none of those renewing
      another quantity. */
  ghost predicate Ready(payload: seq<PayloadEntry>, items: seq<NetNewItem>, subs: Subs) {
    && DistinctPayload(payload) && Known(payload, subs) && DistinctSkus(items)
    && (forall i :: 0 <= i < |payload| ==> !ForSome(subs[payload[i].sub], items))
    && (forall id :: id in subs ==> ServesOrIdle(subs[id], items))
  }

  predicate IsEntry(payload: seq<PayloadEntry>, id: SubId) {
    exists i :: 0 <= i < |payload| && payload[i].sub == id
  }

  /** A subscription that is new is the only scheduled one of its product. */
  ghost predicate CreatedOnce(first: Subs, subs: Subs) {
    forall a, b :: IsNew(first, subs, a) && b in subs && subs[b].status == Scheduled && SameProduct(subs[a], subs[b])
                   ==> a == b
  }

  /** How far attempts can have moved the subscriptions: entries keep their goal, other subscriptions move
      only when they are scheduled for an item, and new ones are, one for each product no scheduled one had. */
  ghost predicate Kin(payload: seq<PayloadEntry>, items: seq<NetNewItem>, first: Subs, subs: Subs) {
    && first.Keys <= subs.Keys
    && (forall id :: id in first ==> OnlyPreference(first[id], subs[id]))
    && (forall i :: 0 <= i < |payload| && payload[i].sub in first ==>
                      SameGoal(payload[i], first[payload[i].sub], subs[payload[i].sub]))
    && (forall id :: id in first && !IsEntry(payload, id) && !ForSome(first[id], items) ==> subs[id] == first[id])
    && (forall id :: id in subs && id !in first ==> ForSome(subs[id], items))
    && CreatedOnce(first, subs)
  }

  lemma KinRefl(payload: seq<PayloadEntry>, items: seq<NetNewItem>, subs: Subs)
    ensures Kin(payload, items, subs, subs)
  {
    hide Goal;
  }

  lemma KinTwice(payload: seq<PayloadEntry>, items: seq<NetNewItem>, first: Subs, second: Subs, third: Subs)
    requires Kin(payload, items, first, second) && Kin(payload, items, second, third)
    ensures Kin(payload, items, first, third)
  {
    hide SameGoal, CreatedOnce;
    CreatedOnceTwice(first, second, third);
    forall i | 0 <= i < |payload| && payload[i].sub in first
      ensures SameGoal(payload[i], first[payload[i].sub], third[payload[i].sub])
    {
      var id := payload[i].sub;
      SameGoalTwice(payload[i], first[id], second[id], third[id]);
    }
    forall id | id in third && id !in first
      ensures ForSome(third[id], items)
    {
      if id in second {
        assert OnlyPreference(second[id], third[id]);
        var k :| 0 <= k < |items| && IsFor(second[id], items[k]);
        assert IsFor(third[id], items[k]);
      }
    }
    forall id | id in first && !IsEntry(payload, id) && !ForSome(first[id], items)
      ensures third[id] == first[id]
    {
      assert second[id] == first[id];
    }
  }

  lemma CreatedOnceTwice(first: Subs, second: Subs, third: Subs)
    requires first.Keys <= second.Keys <= third.Keys
    requires forall id :: id in second ==> OnlyPreference(second[id], third[id])
    requires CreatedOnce(first, second) && CreatedOnce(second, third)
    requires forall id :: IsNew(second, third, id) ==> third[id].status == Scheduled
    requires forall id :: IsNew(first, second, id) ==> second[id].status == Scheduled
    ensures CreatedOnce(first, third)
  {
    forall a, b | IsNew(first, third, a) && b in third && third[b].status == Scheduled
                  && SameProduct(third[a], third[b])
      ensures a == b
    {
      if a in second && b in second {
        assert IsNew(first, second, a) && SameProduct(second[a], second[b]);
      } else if b in second {
        assert IsNew(second, third, a);
      } else {
        assert IsNew(second, third, b);
        assert a in second ==> IsNew(first, second, a) && OnlyPreference(second[a], third[a]);
        assert third[a].status == Scheduled && SameProduct(third[b], third[a]);
      }
    }
  }

  /** The order stays ready, and is kin to the start, when each subscription moved the way steps move them. */
  lemma MovedIsKin(payload: seq<PayloadEntry>, items: seq<NetNewItem>, before: Subs, after: Subs)
    requires Ready(payload, items, before) && before.Keys <= after.Keys
    requires forall id :: id in before ==> OnlyPreference(before[id], after[id])
    requires forall i :: 0 <= i < |payload| ==>
                           SameGoal(payload[i], before[payload[i].sub], after[payload[i].sub])
    requires forall id :: id in before && !IsEntry(payload, id) ==>
                            || after[id] == before[id]
                            || (ForSome(before[id], items) && ServesOrIdle(after[id], items))
    requires forall id :: id in after && id !in before ==> ForSome(after[id], items) && ServesOrIdle(after[id], items)
    requires CreatedOnce(before, after)
    ensures Ready(payload, items, after) && Kin(payload, items, before, after)
  {
    hide SameGoal;
    forall id, k | id in before && 0 <= k < |items|
      ensures IsFor(before[id], items[k]) == IsFor(after[id], items[k])
    {
      assert OnlyPreference(before[id], after[id]);
    }
    forall i | 0 <= i < |payload|
      ensures !ForSome(after[payload[i].sub], items) && ServesOrIdle(after[payload[i].sub], items)
    {
      assert !ForSome(before[payload[i].sub], items);
    }
  }

  lemma SameGoalRefl(entry: PayloadEntry, sub: Subscription)
    ensures SameGoal(entry, sub, sub)
  {
    hide Goal;
  }

  /** Serving items. */
  lemma ServedIsKin(
    payload: seq<PayloadEntry>, items: seq<NetNewItem>, initial: Subs, state: Subs, listing: seq<Listed>, i: int)
    requires Ready(payload, items, initial) && Lists(listing, initial)
    requires ServedTo(initial, state, listing, items, i)
    ensures Ready(payload, items, state) && Kin(payload, items, initial, state)
    ensures forall k :: 0 <= k < |payload| ==> state[payload[k].sub] == initial[payload[k].sub]
  {
    hide SameGoal, FindScheduled;
    forall id | id in initial
      ensures state[id] == initial[id] || (ForSome(initial[id], items) && ServesOrIdle(state[id], items))
      ensures OnlyPreference(initial[id], state[id])
    {
      if k :| 0 <= k < i && TouchedBy(listing, items[k], id) {
        assert state[id] == Patched(initial[id], true, Some(items[k].quantity), None);
        TouchedIsFor(initial, listing, items, k, id);
      }
    }
    forall id | id in state && id !in initial
      ensures ForSome(state[id], items) && ServesOrIdle(state[id], items)
    {
      assert CreatedForSome(state[id], listing, items, i);
      var k :| CreatedFor(state[id], listing, items, i, k);
      assert IsFor(state[id], items[k]);
    }
    forall k | 0 <= k < |payload|
      ensures SameGoal(payload[k], initial[payload[k].sub], state[payload[k].sub])
      ensures state[payload[k].sub] == initial[payload[k].sub]
    {
      SameGoalRefl(payload[k], initial[payload[k].sub]);
    }
    ServedCreatesOnce(initial, state, listing, items, i);
    MovedIsKin(payload, items, initial, state);
  }

  lemma ServedCreatesOnce(initial: Subs, state: Subs, listing: seq<Listed>, items: seq<NetNewItem>, i: int)
    requires Lists(listing, initial) && ServedTo(initial, state, listing, items, i)
    requires forall id :: id in initial ==> OnlyPreference(initial[id], state[id])
    ensures CreatedOnce(initial, state)
  {
    hide FindScheduled, MovedExactly;
    forall a, b | IsNew(initial, state, a) && b in state && state[b].status == Scheduled
                  && SameProduct(state[a], state[b])
      ensures a == b
    {
      assert CreatedForSome(state[a], listing, items, i);
      var k :| CreatedFor(state[a], listing, items, i, k);
      assert b in initial ==> OnlyPreference(initial[b], state[b]);
      NoneScheduled(initial, listing, items[k].offer.sku);
      assert IsNew(initial, state, b);
    }
  }

  lemma NoneScheduled(initial: Subs, listing: seq<Listed>, sku: Sku)
    requires Lists(listing, initial) && FindScheduled(listing, sku).None?
    ensures forall id :: id in initial ==> !(initial[id].status == Scheduled && initial[id].offer.sku == sku)
  {
    FindScheduledIsListed(listing, sku);
    forall id | id in initial
      ensures !(initial[id].status == Scheduled && initial[id].offer.sku == sku)
    {
      var at :| 0 <= at < |listing| && listing[at].id == id;
      assert !HoldsProduct(listing[at], sku);
    }
  }

  lemma TouchedIsFor(initial: Subs, listing: seq<Listed>, items: seq<NetNewItem>, k: nat, id: SubId)
    requires Lists(listing, initial) && k < |items| && TouchedBy(listing, items[k], id)
    ensures id in initial && IsFor(initial[id], items[k])
  {
    FindScheduledIsListed(listing, items[k].offer.sku);
  }

  lemma TouchedAreFor(initial: Subs, listing: seq<Listed>, items: seq<NetNewItem>, id: SubId)
    requires Lists(listing, initial) && id in Touched(listing, items)
    ensures id in initial && ForSome(initial[id], items)
  {
    var k := TouchedOnly(listing, items, id);
    TouchedIsFor(initial, listing, items, k, id);
  }

  /** Neutralising scheduled subscriptions of items. */
  lemma NeutralisedIsKin(
    payload: seq<PayloadEntry>, items: seq<NetNewItem>, before: Subs, after: Subs, ids: set<SubId>)
    requires Ready(payload, items, before) && PartlyNeutralised(before, after, ids)
    requires forall id :: id in ids && id in before ==> ForSome(before[id], items)
    ensures Ready(payload, items, after) && Kin(payload, items, before, after)
  {
    hide SameGoal;
    forall k | 0 <= k < |payload|
      ensures SameGoal(payload[k], before[payload[k].sub], after[payload[k].sub])
    {
      SameGoalRefl(payload[k], before[payload[k].sub]);
    }
    MovedIsKin(payload, items, before, after);
  }

  /** The subscriptions a run has on record are scheduled for an item. */
  lemma RecordedAreFor(
    initial: Subs, middle: Subs, listing: seq<Listed>, items: seq<NetNewItem>, i: int, ids: set<SubId>, id: SubId)
    requires Lists(listing, initial) && ServedTo(initial, middle, listing, items, i)
    requires forall other :: other in ids && other in initial ==> other in Touched(listing, items)
    requires id in ids && id in middle
    ensures ForSome(middle[id], items)
  {
    hide FindScheduled;
    if id in initial {
      TouchedAreFor(initial, listing, items, id);
      var k :| 0 <= k < |items| && IsFor(initial[id], items[k]);
      assert IsFor(middle[id], items[k]);
    } else {
      assert CreatedForSome(middle[id], listing, items, i);
      var k :| CreatedFor(middle[id], listing, items, i, k);
      assert IsFor(middle[id], items[k]);
    }
  }

  /** Part of the plan applied, or walked back. */
  lemma WalkedIsKin(
    payload: seq<PayloadEntry>, items: seq<NetNewItem>, subs: Subs, n: nat, j: nat, oks: seq<bool>)
    requires Ready(payload, items, subs)
    requires var ops := Operations(Resolve(payload, subs));
             Targets(subs, ops) && j <= n <= |ops| && |oks| == n - j
    ensures var state := Walked(subs, Operations(Resolve(payload, subs)), n, false, j, oks);
            Ready(payload, items, state) && Kin(payload, items, subs, state)
  {
    hide SameGoal, Operations, EntryState, Walked, ServesOrIdle, ForSome;
    var plan := Resolve(payload, subs);
    var state := Walked(subs, Operations(plan), n, false, j, oks);
    ResolvedPlan(payload, subs);
    WalkedKeys(plan, subs, n, false, j, oks);
    forall i | 0 <= i < |payload|
      ensures SameGoal(payload[i], subs[payload[i].sub], state[payload[i].sub])
      ensures OnlyPreference(subs[payload[i].sub], state[payload[i].sub])
    {
      WalkedEntry(plan, subs, n, false, j, oks, i);
      EntryStateKeepsGoal(payload[i], subs[payload[i].sub], state[payload[i].sub]);
    }
    forall id | id in subs && !IsEntry(payload, id)
      ensures state[id] == subs[id]
    {
      WalkedElsewhere(plan, subs, n, false, j, oks, id);
    }
    MovedIsKin(payload, items, subs, state);
  }

  lemma VisitedIsKin(
    payload: seq<PayloadEntry>, items: seq<NetNewItem>, subs: Subs, state: Subs, n: nat, oks: seq<bool>,
    ids: set<SubId>)
    requires Ready(payload, items, subs)
    requires var ops := Operations(Resolve(payload, subs));
             Targets(subs, ops) && n <= |ops| && |oks| == n && Visited(state, subs, ops, n, false, oks, ids)
    requires forall id :: id in ids && id in subs ==> ForSome(subs[id], items)
    ensures Ready(payload, items, state) && Kin(payload, items, subs, state)
  {
    ReadyIsKnown(payload, items, subs);
    hide Operations, Walked, Ready, Kin, PartlyNeutralised, ForSome;
    var ops := Operations(Resolve(payload, subs));
    if AppliedUpTo(state, subs, ops) {
      var i :| 0 <= i <= |ops| && state == AppliedAll(subs, ops[..i]);
      WalkedNothing(subs, ops, i);
      WalkedIsKin(payload, items, subs, i, i, []);
    } else if j :| 0 <= j <= n && state == Walked(subs, ops, n, false, j, oks[j..]) {
      WalkedIsKin(payload, items, subs, n, j, oks[j..]);
    } else {
      var back := Walked(subs, ops, n, false, 0, oks);
      WalkedIsKin(payload, items, subs, n, 0, oks);
      forall id | id in ids && id in back
        ensures ForSome(back[id], items)
      {
        StillFor(payload, items, subs, back, id);
      }
      NeutralisedIsKin(payload, items, back, state, ids);
      KinTwice(payload, items, subs, back, state);
    }
  }

  lemma WalkedNothing(subs: Subs, ops: seq<Operation>, i: nat)
    requires Targets(subs, ops) && i <= |ops|
    ensures Walked(subs, ops, i, false, i, []) == AppliedAll(subs, ops[..i])
  {
    UnwoundNothing(subs, ops, i);
  }

  lemma StillFor(payload: seq<PayloadEntry>, items: seq<NetNewItem>, subs: Subs, after: Subs, id: SubId)
    requires Kin(payload, items, subs, after) && id in after && (id in subs ==> ForSome(subs[id], items))
    ensures ForSome(after[id], items)
  {
    hide SameGoal;
    if id in subs {
      assert OnlyPreference(subs[id], after[id]);
      var k :| 0 <= k < |items| && IsFor(subs[id], items[k]);
      assert IsFor(after[id], items[k]);
    }
  }

  /** One attempt, wherever it ended. */
  lemma LeftIsKin(
    payload: seq<PayloadEntry>, items: seq<NetNewItem>, start: Subs, left: Subs, listing: seq<Listed>,
    ids: set<SubId>)
    requires Ready(payload, items, start) && Lists(listing, start)
    requires LeftBy(Resolve(payload, start), start, left, listing, items, ids)
    requires forall id :: id in ids && id in start ==> id in Touched(listing, items)
    ensures Ready(payload, items, left) && Kin(payload, items, start, left)
  {
    hide Ready, Kin, Operations, ServedTo, PartlyNeutralised, Visited, Touched, ForSome;
    ReadyIsKnown(payload, items, start);
    var plan := Resolve(payload, start);
    if ServedThenOff(start, left, listing, items, ids) {
      var middle, i :| ServedTo(start, middle, listing, items, i) && PartlyNeutralised(middle, left, ids);
      ServedIsKin(payload, items, start, middle, listing, i);
      forall id | id in ids && id in middle
        ensures ForSome(middle[id], items)
      {
        RecordedAreFor(start, middle, listing, items, i, ids, id);
      }
      NeutralisedIsKin(payload, items, middle, left, ids);
      KinTwice(payload, items, start, middle, left);
    } else {
      var middle, n, oks :| LeftByPlan(plan, start, middle, left, listing, items, n, oks, ids);
      ServedIsKin(payload, items, start, middle, listing, |items|);
      forall id | id in ids && id in middle
        ensures ForSome(middle[id], items)
      {
        RecordedAreFor(start, middle, listing, items, |items|, ids, id);
      }
      ReadyIsKnown(payload, items, middle);
      SameResolution(payload, start, middle);
      VisitedIsKin(payload, items, middle, left, n, oks, ids);
      KinTwice(payload, items, start, middle, left);
    }
  }

  lemma ReadyIsKnown(payload: seq<PayloadEntry>, items: seq<NetNewItem>, subs: Subs)
    requires Ready(payload, items, subs)
    ensures Known(payload, subs) && DistinctPayload(payload) && DistinctSkus(items)
  {
  }

  lemma SameResolution(payload: seq<PayloadEntry>, subs: Subs, subs': Subs)
    requires Known(payload, subs) && Known(payload, subs')
    requires forall i :: 0 <= i < |payload| ==> subs'[payload[i].sub] == subs[payload[i].sub]
    ensures Resolve(payload, subs') == Resolve(payload, subs)
  {
  }

  /******* One attempt is entitled to its claims *******/

  lemma ReadyIsSeparated(payload: seq<PayloadEntry>, items: seq<NetNewItem>, subs: Subs, listing: seq<Listed>)
    requires Ready(payload, items, subs) && Lists(listing, subs)
    ensures var plan := Resolve(payload, subs);
            && Snapshotted(plan, subs) && Separated(plan, listing, items) && TouchedWereIdle(subs, listing, items)
  {
    hide FindScheduled, Lists;
    ResolvedPlan(payload, subs);
    forall id | id in Touched(listing, items)
      ensures id in subs && ForSome(subs[id], items) && Renewing(subs[id]) == 0
    {
      TouchedAreFor(subs, listing, items, id);
      var k := TouchedOnly(listing, items, id);
      TouchedIsFor(subs, listing, items, k, id);
      TouchedDoesNotHold(subs, listing, items, k, id);
    }
  }

  lemma TouchedDoesNotHold(initial: Subs, listing: seq<Listed>, items: seq<NetNewItem>, k: nat, id: SubId)
    requires Lists(listing, initial) && k < |items| && TouchedBy(listing, items[k], id)
    ensures id in initial && !HoldsQuantity(initial[id], items[k].quantity)
  {
    FindScheduledIsListed(listing, items[k].offer.sku);
  }

  /** No entry is for a subscription that serves an item. */
  lemma ReadyIsUnplanned(
    payload: seq<PayloadEntry>, items: seq<NetNewItem>, subs: Subs, listing: seq<Listed>, netNew: map<Offer, SubId>)
    requires Ready(payload, items, subs) && Lists(listing, subs)
    requires forall offer :: offer in netNew ==> FromListing(subs, listing, items, netNew[offer])
    ensures Unplanned(Resolve(payload, subs), netNew)
  {
    hide FindScheduled;
    forall i | 0 <= i < |payload|
      ensures payload[i].sub !in netNew.Values
    {
      if payload[i].sub in netNew.Values {
        var offer :| offer in netNew && netNew[offer] == payload[i].sub;
        assert FromListing(subs, listing, items, payload[i].sub);
        var k :| IsFound(listing, items, k, payload[i].sub);
        FindScheduledIsListed(listing, items[k].offer.sku);
      }
    }
  }

  /******* The floor over all attempts *******/

  // One attempt: how many states there had been, the calls that were refused, what was listed, and the
  // target if the attempt came to the plan.
  datatype Tried = Tried(from: nat, refused: nat, listing: seq<Listed>, target: Option<Subs>)

  /** The states since the very start. */
  ghost function States(initial: Subs, history: seq<Subs>, base: nat): (states: seq<Subs>)
    requires base <= |history|
    ensures states != []
  {
    [initial] + history[base..]
  }

  /** The attempts in order, the first from the very start on. */
  ghost predicate Chronicle(log: seq<Tried>, count: nat) {
    && (log != [] ==> log[0].from == 0)
    && (forall k :: 0 <= k < |log| ==> log[k].from < count)
    && (forall j, k :: 0 <= j < k < |log| ==> log[j].from <= log[k].from)
  }

  function Refused(log: seq<Tried>): nat {
    if log == [] then 0 else Refused(log[..|log|-1]) + log[|log|-1].refused
  }

  ghost predicate AtMostOneEach(log: seq<Tried>) {
    forall k :: 0 <= k < |log| ==> log[k].refused <= 1
  }

  lemma {:induction false} NoneRefusedMeansAtMostOne(log: seq<Tried>)
    ensures forall k :: 0 <= k < |log| ==> log[k].refused <= Refused(log)
    ensures Refused(log) <= 1 ==> AtMostOneEach(log)
  {
    if log != [] {
      NoneRefusedMeansAtMostOne(log[..|log|-1]);
      assert forall k :: 0 <= k < |log| - 1 ==> log[k] == log[..|log|-1][k];
    }
  }

  /** At least the very start, or at least one of the targets. */
  ghost predicate AtFloorOf(state: Subs, initial: Subs, log: seq<Tried>) {
    Dominates(state, initial) || exists k :: 0 <= k < |log| && IsAtTarget(state, log[k])
  }

  ghost predicate IsAtTarget(state: Subs, tried: Tried) {
    tried.target.Some? && Dominates(state, tried.target.value)
  }

  lemma StartIsAtFloor(initial: Subs)
    ensures AtFloorOf(initial, initial, [])
  {
  }

  lemma FloorThrough(state: Subs, start: Subs, initial: Subs, target: Subs, log: seq<Tried>, tried: Tried)
    requires AtOrAbove(state, start, target, tried.target.Some?) && AtFloorOf(start, initial, log)
    requires tried.target.Some? ==> tried.target.value == target
    ensures AtFloorOf(state, initial, log + [tried])
  {
    if tried.target.Some? && Dominates(state, target) {
      assert IsAtTarget(state, (log + [tried])[|log|]);
    } else if Dominates(start, initial) {
      DominatesThrough(state, start, initial);
    } else {
      var k :| 0 <= k < |log| && IsAtTarget(start, log[k]);
      DominatesThrough(state, start, log[k].target.value);
      assert IsAtTarget(state, (log + [tried])[k]);
    }
  }

  lemma FloorGrows(state: Subs, initial: Subs, log: seq<Tried>, tried: Tried)
    requires AtFloorOf(state, initial, log)
    ensures AtFloorOf(state, initial, log + [tried])
  {
    if k :| 0 <= k < |log| && IsAtTarget(state, log[k]) {
      assert IsAtTarget(state, (log + [tried])[k]);
    }
  }

  ghost predicate Serves(subs: Subs, item: NetNewItem) {
    exists id :: id in subs && subs[id].offer.sku == item.offer.sku && IsOn(subs[id], item.quantity)
  }

  /** A target of the order: every entry at the goal it has at the very start, every item served, every
      other subscription that is not scheduled for an item as at the very start, and nothing else new. */
  ghost predicate IsTarget(payload: seq<PayloadEntry>, items: seq<NetNewItem>, initial: Subs, target: Subs) {
    && Ready(payload, items, target) && Kin(payload, items, initial, target)
    && AtGoals(payload, initial, target) && (forall k :: 0 <= k < |items| ==> Serves(target, items[k]))
  }

  ghost predicate AtGoals(payload: seq<PayloadEntry>, initial: Subs, target: Subs)
    requires initial.Keys <= target.Keys
  {
    forall i :: 0 <= i < |payload| && payload[i].sub in initial ==>
                  Equivalent(target[payload[i].sub],
                             Goal(ResolveEntry(payload[i], initial[payload[i].sub]), initial[payload[i].sub]))
  }

  lemma TargetIsKin(
    payload: seq<PayloadEntry>, items: seq<NetNewItem>, start: Subs, target: Subs, listing: seq<Listed>)
    requires Ready(payload, items, start) && Lists(listing, start)
    requires IsRunTarget(Resolve(payload, start), start, target, listing, items)
    ensures Ready(payload, items, target) && Kin(payload, items, start, target)
  {
    ReadyIsKnown(payload, items, start);
    hide Ready, Kin, ServedTo, Resolve, Lists, Operations, AppliedAll;
    var middle :|
      ServedTo(start, middle, listing, items, |items|) && IsApplied(Resolve(payload, start), middle, target);
    ServedIsKin(payload, items, start, middle, listing, |items|);
    ReadyIsKnown(payload, items, middle);
    SameResolution(payload, start, middle);
    AppliedIsKin(payload, items, middle);
    KinTwice(payload, items, start, middle, target);
  }

  lemma AppliedIsKin(payload: seq<PayloadEntry>, items: seq<NetNewItem>, middle: Subs)
    requires Ready(payload, items, middle) && Targets(middle, Operations(Resolve(payload, middle)))
    ensures var target := AppliedAll(middle, Operations(Resolve(payload, middle)));
            Ready(payload, items, target) && Kin(payload, items, middle, target)
  {
    ReadyIsKnown(payload, items, middle);
    hide Ready, Kin, Operations, AppliedAll, Walked;
    var ops := Operations(Resolve(payload, middle));
    assert ops[..|ops|] == ops;
    WalkedNothing(middle, ops, |ops|);
    WalkedIsKin(payload, items, middle, |ops|, |ops|, []);
  }

  lemma EquivalentRefl()
    ensures forall sub: Subscription :: Equivalent(sub, sub)
  {
  }

  /** The goals of the plan are those of the payload, and the items are served. */
  lemma TargetOfAttempt(
    payload: seq<PayloadEntry>, items: seq<NetNewItem>, start: Subs, target: Subs, netNew: map<Offer, SubId>)
    requires Known(payload, start) && DistinctSkus(items)
    requires TargetIs(Resolve(payload, start), start, target, items, netNew)
    requires Unplanned(Resolve(payload, start), netNew)
    ensures start.Keys <= target.Keys && AtGoals(payload, start, target)
    ensures forall k :: 0 <= k < |items| ==> Serves(target, items[k])
  {
    hide Goal, Equivalent, IsOn;
    EquivalentRefl();
    forall i | 0 <= i < |payload| && payload[i].sub in start
      ensures Equivalent(target[payload[i].sub],
                         Goal(ResolveEntry(payload[i], start[payload[i].sub]), start[payload[i].sub]))
    {
      assert Resolve(payload, start)[i] == ResolveEntry(payload[i], start[payload[i].sub]);
    }
    forall k | 0 <= k < |items|
      ensures Serves(target, items[k])
    {
      assert ServedBy(items[k], netNew, target);
    }
  }

  lemma TargetParts(payload: seq<PayloadEntry>, items: seq<NetNewItem>, initial: Subs, target: Subs)
    requires Ready(payload, items, target) && Kin(payload, items, initial, target)
    requires initial.Keys <= target.Keys && AtGoals(payload, initial, target)
    requires forall k :: 0 <= k < |items| ==> Serves(target, items[k])
    ensures IsTarget(payload, items, initial, target)
  {
  }

  /** A minimum that the very start and every target satisfy is satisfied throughout. */
  lemma AttemptsKeepTheMinimum(state: Subs, initial: Subs, log: seq<Tried>, counted: Offer -> bool, minimum: nat)
    requires AtFloorOf(state, initial, log)
    requires Aggregate(initial, counted) >= minimum
    requires forall k :: 0 <= k < |log| && log[k].target.Some? ==> Aggregate(log[k].target.value, counted) >= minimum
    ensures Aggregate(state, counted) >= minimum
  {
    if Dominates(state, initial) {
      DominanceBoundsAggregate(state, initial, counted);
    } else {
      var k :| 0 <= k < |log| && IsAtTarget(state, log[k]);
      DominanceBoundsAggregate(state, log[k].target.value, counted);
    }
  }

  lemma IsTargetThrough(
    payload: seq<PayloadEntry>, items: seq<NetNewItem>, initial: Subs, start: Subs, target: Subs)
    requires Kin(payload, items, initial, start) && IsTarget(payload, items, start, target)
    ensures IsTarget(payload, items, initial, target)
  {
    hide Goal, Serves, Ready, CreatedOnce;
    KinTwice(payload, items, initial, start, target);
    forall i | 0 <= i < |payload| && payload[i].sub in initial
      ensures Equivalent(target[payload[i].sub],
                         Goal(ResolveEntry(payload[i], initial[payload[i].sub]), initial[payload[i].sub]))
    {
      assert SameGoal(payload[i], initial[payload[i].sub], start[payload[i].sub]);
    }
  }

  lemma NotKnown(payload: seq<PayloadEntry>, items: seq<NetNewItem>, subs: Subs, i: nat)
    requires i < |payload| && payload[i].sub !in subs
    ensures !Known(payload, subs) && !Ready(payload, items, subs)
  {
  }

  lemma FailureKeepsStart(start: Subs, lost: Option<Listed>)
    requires lost.None?
    ensures WithLost(start, lost) == start
  {
  }

  /** One attempt, from a fresh look at the customer's subscriptions on. `at` counts the items served. */
  method Attempt(order: RenewalOrder, payload: seq<PayloadEntry>, items: seq<NetNewItem>)
    returns (step: Step, ghost target: Subs, ghost at: nat, ghost reached: bool)
    modifies order, order.service
    ensures Logs(order.service, old(order.service.subs), old(order.service.history))
    ensures Failures(order.service, old(order.service.refused), old(order.service.torn))
    ensures Lists(order.listing, old(order.service.subs))
    ensures !Known(payload, old(order.service.subs)) ==>
              && step.NotFound? && order.service.subs == old(order.service.subs)
              && order.service.history == old(order.service.history) && !reached
    ensures Known(payload, old(order.service.subs)) ==> !step.NotFound?
    ensures step.NetNewFailed? ==> !reached && at < |items| && step.offer == items[at].offer
    ensures step.UpdateFailed? ==> reached && at == |items|
    ensures step.Continue? ==> reached && order.service.subs == target
    ensures reached && DistinctSkus(items) ==>
              && Known(payload, old(order.service.subs))
              && IsRunTarget(Resolve(payload, old(order.service.subs)), old(order.service.subs), target, order.listing,
                             items)
    ensures Ready(payload, items, old(order.service.subs)) && order.service.torn == old(order.service.torn)
            && order.service.refused <= old(order.service.refused) + 1 ==>
              && Ready(payload, items, order.service.subs)
              && Kin(payload, items, old(order.service.subs), order.service.subs)
              && AtOrAbove(order.service.subs, old(order.service.subs), target, reached)
              && (forall h :: |old(order.service.history)| <= h < |order.service.history| ==>
                                AtOrAbove(order.service.history[h], old(order.service.subs), target, reached))
              && (reached ==> IsTarget(payload, items, old(order.service.subs), target))
              && (step.NetNewFailed?
                  || (step.UpdateFailed? && Restorable(Resolve(payload, old(order.service.subs)))) ==>
                    EndsWith(old(order.service.subs), order.service.subs, Touched(order.listing, items[..at])))
  {
    hide Ready, Kin, IsTarget, Operations, LeftBy, Touched, EndsWith, AtOrAbove, NetNewServed, Known;
    hide Separated, TouchedWereIdle, FromListing, Unplanned, Snapshotted, Lists, Goal, WritesItem, Restorable;
    hide LostOfPlan, IsRunTarget, DistinctSkus, Resolve;
    ghost var start := order.service.subs;
    target, at, reached := start, 0, false;
    order.netNew, order.created := map[], map[];
    step := order.SetupRenewalPlan(payload);
    if step.NotFound? {
      ghost var i :| 0 <= i < |payload| && payload[i].sub !in start;
      NotKnown(payload, items, start, i);
      return;
    }
    ghost var ready := Ready(payload, items, start);
    if ready {
      ReadyIsKnown(payload, items, start);
      ReadyIsSeparated(payload, items, start, order.listing);
    }
    PlanSnapshots(payload, start);
    ghost var lost;
    step, target, at, lost, reached := order.ApplyPlan(items);
    if ready && order.service.torn == old(order.service.torn)
       && order.service.refused <= old(order.service.refused) + 1 {
      LeftIsKin(payload, items, start, order.service.subs, order.listing, order.created.Values);
      FailureKeepsStart(start, lost);
      if reached {
        ReadyIsUnplanned(payload, items, start, order.listing, order.netNew);
        TargetIsKin(payload, items, start, target, order.listing);
        TargetOfAttempt(payload, items, start, target, order.netNew);
        TargetParts(payload, items, start, target);
      }
    }
    assert items[..|items|] == items;
    at := if reached then |items| else at;
  }

  lemma PlanSnapshots(payload: seq<PayloadEntry>, subs: Subs)
    requires Known(payload, subs)
    ensures Snapshotted(Resolve(payload, subs), subs)
  {
  }

  /******* What a failed order leaves *******/

  /** The order left nothing behind: what was there is as it was or disabled, what is new is disabled. */
  ghost predicate NothingLeft(initial: Subs, end: Subs) {
    forall id :: id in end ==> IsLeftAlone(initial, end, id)
  }

  predicate IsLeftAlone(initial: Subs, subs: Subs, id: SubId)
    requires id in subs
  {
    (id in initial && subs[id] == initial[id]) || !subs[id].auto.enabled
  }

  /** A failed order leaves nothing behind if and only if the last attempt found nothing that earlier ones
      had left, apart from what it recorded itself and so switched off. */
  lemma NothingLeftIff(initial: Subs, start: Subs, end: Subs, off: set<SubId>)
    requires EndsWith(start, end, off)
    ensures NothingLeft(initial, end) <==>
            forall id :: id in start && id !in off ==> IsLeftAlone(initial, start, id)
  {
    if forall id :: id in start && id !in off ==> IsLeftAlone(initial, start, id) {
      forall id | id in end
        ensures IsLeftAlone(initial, end, id)
      {
        if id in start && id !in off {
          assert IsLeftAlone(initial, start, id);
        }
      }
    } else {
      var id :| id in start && id !in off && !IsLeftAlone(initial, start, id);
      assert id in end && end[id] == start[id];
    }
  }

  /** A second attempt can find something. In this state the first attempt has created a subscription for an
      item before it was cut short; it is scheduled with the item's quantity, so the second reuses it and does
      not record it, and a failure that brings everything back to what the second one found leaves it
      enabled. */
  lemma CutThenFailedLeaves(sub: Subscription)
    requires sub.status == Active
    ensures var item := NetNewItem(Offer(2, 1), 5);
            var initial, made := map[1 := sub], NewScheduled(item.offer, item.quantity);
            var start, listing := initial[2 := made], [Listed(1, sub), Listed(2, made)];
            && Lists([Listed(1, sub)], initial) && ServedTo(initial, start, [Listed(1, sub)], [item], 1)
            && Lists(listing, start) && Reuses(listing, item) && Touched(listing, [item]) == {}
            && EndsWith(start, start, Touched(listing, [item])) && !NothingLeft(initial, start)
  {
    var item := NetNewItem(Offer(2, 1), 5);
    var initial, made := map[1 := sub], NewScheduled(item.offer, item.quantity);
    var start, first, listing := initial[2 := made], [Listed(1, sub)], [Listed(1, sub), Listed(2, made)];
    assert listing[0].id == 1 && listing[1].id == 2 && listing[1..][0] == listing[1];
    assert FindScheduled(listing, 2) == Some(listing[1]);
    assert [item][..0] == [];
    assert !IsLeftAlone(initial, start, 2);
    assert first[0].id == 1 && first[1..] == [] && FindScheduled(first[1..], 2) == None;
    assert FindScheduled(first, 2) == None;
    NothingServed(initial, first, [item]);
    ServedNext(initial, initial, start, first, [item], 0, 2);
  }

  /******* All attempts *******/

  /** What an attempt found, and where it was going. */
  ghost predicate FoundBy(
    payload: seq<PayloadEntry>, items: seq<NetNewItem>, initial: Subs, start: Subs, tried: Tried)
  {
    && Ready(payload, items, start) && Kin(payload, items, initial, start) && Lists(tried.listing, start)
    && (tried.target.Some? ==>
          && IsRunTarget(Resolve(payload, start), start, tried.target.value, tried.listing, items)
          && IsTarget(payload, items, initial, tried.target.value))
  }

  /** A failed attempt leaves what it found, with what it recorded switched off. So the order leaves nothing
      behind if and only if the attempt found nothing left by earlier ones but what it recorded itself. */
  ghost predicate FailedWith(initial: Subs, start: Subs, end: Subs, off: set<SubId>) {
    && EndsWith(start, end, off)
    && (NothingLeft(initial, end) <==> forall id :: id in start && id !in off ==> IsLeftAlone(initial, start, id))
  }

  lemma EndsMeansFailedWith(initial: Subs, start: Subs, end: Subs, off: set<SubId>)
    requires EndsWith(start, end, off)
    ensures FailedWith(initial, start, end, off)
  {
    NothingLeftIff(initial, start, end, off);
  }

  /** Everything claimed of a number of attempts: the floor, at every moment of every one; what each found and
      where it went; that entries keep their goal and everything but the items' subscriptions stays; and how
      the last one ended. */
  ghost predicate Upholds(
    payload: seq<PayloadEntry>, items: seq<NetNewItem>, states: seq<Subs>, log: seq<Tried>, step: Step, at: nat)
    requires states != [] && Chronicle(log, |states|)
  {
    && !step.NotFound?
    && (forall h :: 0 <= h < |states| ==> AtFloorOf(states[h], states[0], log))
    && (forall k :: 0 <= k < |log| ==> FoundBy(payload, items, states[0], states[log[k].from], log[k]))
    && Ready(payload, items, states[|states|-1]) && Kin(payload, items, states[0], states[|states|-1])
    && (log != [] ==>
          EndsAs(payload, items, states[0], states[log[|log|-1].from], states[|states|-1], log[|log|-1], step, at))
  }

  /** How the last attempt ended: on its target, cut short, or failed at an item or at the plan. */
  ghost predicate EndsAs(
    payload: seq<PayloadEntry>, items: seq<NetNewItem>, initial: Subs, start: Subs, end: Subs, tried: Tried, step: Step,
    at: nat)
  {
    && (step.Continue? ==> tried.target == Some(end))
    && (step.NetNewFailed? ==>
          && tried.target.None? && at < |items| && step.offer == items[at].offer
          && FailedWith(initial, start, end, Touched(tried.listing, items[..at])))
    && (step.UpdateFailed? ==>
          && tried.target.Some? && Known(payload, start)
          && (Restorable(Resolve(payload, start)) ==>
                FailedWith(initial, start, end, Touched(tried.listing, items))))
  }

  lemma NothingToUphold(payload: seq<PayloadEntry>, items: seq<NetNewItem>, initial: Subs)
    ensures Chronicle([], 1)
    ensures Ready(payload, items, initial) ==> Upholds(payload, items, [initial], [], Interrupted, 0)
  {
    hide Ready, Kin;
    KinRefl(payload, items, initial);
    StartIsAtFloor(initial);
  }

  /** One more attempt. */
  lemma UpholdsNext(
    payload: seq<PayloadEntry>, items: seq<NetNewItem>, states: seq<Subs>, states': seq<Subs>, log: seq<Tried>,
    tried: Tried, target: Subs, step: Step, step': Step, at: nat, at': nat)
    requires states != [] && states <= states' && Chronicle(log, |states|) && Chronicle(log + [tried], |states'|)
    requires Upholds(payload, items, states, log, step, at) && tried.from == |states| - 1 && !step'.NotFound?
    requires tried.target == if tried.target.Some? then Some(target) else None
    requires Lists(tried.listing, states[|states|-1]) && Ready(payload, items, states'[|states'|-1])
    requires Kin(payload, items, states[|states|-1], states'[|states'|-1])
    requires forall h :: |states| <= h < |states'| ==>
                           AtOrAbove(states'[h], states[|states|-1], target, tried.target.Some?)
    requires tried.target.Some? ==>
               && Known(payload, states[|states|-1])
               && IsRunTarget(Resolve(payload, states[|states|-1]), states[|states|-1], target, tried.listing, items)
               && IsTarget(payload, items, states[|states|-1], target)
    requires EndsAs(payload, items, states[0], states[|states|-1], states'[|states'|-1], tried, step', at')
    ensures Upholds(payload, items, states', log + [tried], step', at')
  {
    hide Ready, Kin, IsTarget, IsRunTarget, AtFloorOf, AtOrAbove, Lists, EndsAs, Resolve, Known;
    var initial, start := states[0], states[|states|-1];
    KinTwice(payload, items, initial, start, states'[|states'|-1]);
    forall h | 0 <= h < |states'|
      ensures AtFloorOf(states'[h], initial, log + [tried])
    {
      if h < |states| {
        FloorGrows(states[h], initial, log, tried);
      } else {
        FloorThrough(states'[h], start, initial, target, log, tried);
      }
    }
    if tried.target.Some? {
      IsTargetThrough(payload, items, initial, start, target);
    }
  }

  lemma ChronicleNext(log: seq<Tried>, count: nat, tried: Tried, count': nat)
    requires Chronicle(log, count) && count <= count' && tried.from == count - 1 && (log == [] ==> count == 1)
    ensures Chronicle(log + [tried], count') && Refused(log + [tried]) == Refused(log) + tried.refused
    ensures AtMostOneEach(log + [tried]) <==> AtMostOneEach(log) && tried.refused <= 1
  {
    assert (log + [tried])[..|log|] == log && (log + [tried])[|log|] == tried;
    assert forall k :: 0 <= k < |log| ==> (log + [tried])[k] == log[k];
  }

  /** A first attempt finds the very start, so an order it fails leaves nothing behind. */
  lemma FirstAttemptLeavesNothing(
    payload: seq<PayloadEntry>, items: seq<NetNewItem>, states: seq<Subs>, log: seq<Tried>, step: Step, at: nat)
    requires states != [] && Chronicle(log, |states|) && |log| == 1
    requires Upholds(payload, items, states, log, step, at)
    requires || step.NetNewFailed?
             || (step.UpdateFailed? && Known(payload, states[0]) && Restorable(Resolve(payload, states[0])))
    ensures NothingLeft(states[0], states[|states|-1])
  {
    hide Ready, Kin, AtFloorOf, FoundBy, Touched, EndsWith, Resolve, Restorable;
  }

  /** Any number of attempts, each cut short anywhere, until the order completes or fails. `log` has an entry
      for each attempt, which starts where the one before was cut short, the first at the very start; `at`
      counts the items the last one served. */
  method Attempts(order: RenewalOrder, payload: seq<PayloadEntry>, items: seq<NetNewItem>, limit: nat)
    returns (step: Step, ghost log: seq<Tried>, ghost at: nat)
    modifies order, order.service
    ensures old(order.service.history) <= order.service.history && |log| <= limit && (limit > 0 ==> log != [])
    ensures order.service.refused == old(order.service.refused) + Refused(log)
    ensures var states := States(old(order.service.subs), order.service.history, |old(order.service.history)|);
            && Chronicle(log, |states|) && order.service.subs == states[|states|-1]
            // no more than one call per attempt is refused, and none of those took effect
            && (Ready(payload, items, old(order.service.subs)) && AtMostOneEach(log)
                && order.service.torn == old(order.service.torn) ==>
                  Upholds(payload, items, states, log, step, at))
    ensures !Known(payload, old(order.service.subs)) && limit > 0 ==>
              && step.NotFound? && order.service.subs == old(order.service.subs)
              && order.service.history == old(order.service.history)
  {
    hide Ready, Kin, IsTarget, Touched, EndsWith, AtOrAbove, Known, Restorable, Upholds, Chronicle, FailedWith;
    hide IsRunTarget, Lists, Resolve, DistinctSkus, AtMostOneEach, Refused;
    ghost var initial, base := order.service.subs, |order.service.history|;
    ghost var ready := Ready(payload, items, initial);
    step, log, at := Interrupted, [], 0;
    ghost var states := [initial];
    NothingToUphold(payload, items, initial);
    NoneTried();
    var tries := 0;
    while tries < limit && step.Interrupted?
      invariant tries <= limit && |log| == tries
      invariant tries == 0 ==> step.Interrupted? && |states| == 1 && at == 0
      invariant old(order.service.history) <= order.service.history && order.service.torn >= old(order.service.torn)
      invariant order.service.refused == old(order.service.refused) + Refused(log)
      invariant states == States(initial, order.service.history, base) && Chronicle(log, |states|)
      invariant order.service.subs == states[|states|-1]
      invariant tries > 0 && !Known(payload, initial) ==> step.NotFound? && |states| == 1
      invariant ready && AtMostOneEach(log) && order.service.torn == old(order.service.torn) ==>
                  Upholds(payload, items, states, log, step, at)
    {
      ghost var refused, log0, states0, step0, at0 := order.service.refused, log, states, step, at;
      ghost var start := order.service.subs;
      ghost var target, reached;
      step, target, at, reached := Attempt(order, payload, items);
      ghost var tried := Tried(|states0| - 1, order.service.refused - refused, order.listing,
                               if reached then Some(target) else None);
      log, states, tries := log + [tried], States(initial, order.service.history, base), tries + 1;
      assert states0 <= states;
      ChronicleNext(log0, |states0|, tried, |states|);
      if ready && AtMostOneEach(log) && order.service.torn == old(order.service.torn) {
        UpholdsReady(payload, items, states0, log0, step0, at0);
        EndingIs(payload, items, initial, start, order.service.subs, tried, step, at);
        UpholdsNext(payload, items, states0, states, log0, tried, target, step0, step, at0, at);
      }
    }
  }

  lemma NoneTried()
    ensures Refused([]) == 0 && AtMostOneEach([])
  {
  }

  lemma UpholdsReady(
    payload: seq<PayloadEntry>, items: seq<NetNewItem>, states: seq<Subs>, log: seq<Tried>, step: Step, at: nat)
    requires states != [] && Chronicle(log, |states|) && Upholds(payload, items, states, log, step, at)
    ensures Ready(payload, items, states[|states|-1]) && Known(payload, states[|states|-1]) && DistinctSkus(items)
  {
  }

  lemma EndingIs(
    payload: seq<PayloadEntry>, items: seq<NetNewItem>, initial: Subs, start: Subs, end: Subs, tried: Tried, step: Step,
    at: nat)
    requires Known(payload, start) && (step.NetNewFailed? || step.UpdateFailed? ==> at <= |items|)
    requires step.NetNewFailed? ==> tried.target.None? && at < |items| && step.offer == items[at].offer
    requires step.UpdateFailed? ==> tried.target.Some? && at == |items|
    requires step.Continue? ==> tried.target == Some(end)
    requires step.NetNewFailed? || (step.UpdateFailed? && Restorable(Resolve(payload, start))) ==>
               EndsWith(start, end, Touched(tried.listing, items[..at]))
    ensures EndsAs(payload, items, initial, start, end, tried, step, at)
  {
    hide EndsWith, FailedWith, Touched, Resolve, Restorable;
    assert items[..|items|] == items;
    if (step.NetNewFailed? || step.UpdateFailed?) && EndsWith(start, end, Touched(tried.listing, items[..at])) {
      EndsMeansFailedWith(initial, start, end, Touched(tried.listing, items[..at]));
    }
  }
}
