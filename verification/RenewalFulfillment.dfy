/** Fulfillment of an at-anniversary renewal order: create the net-new scheduled subscriptions, patch
    the existing ones in plan order, and on a failure walk the applied operations back and
    neutralise what this run created. An error that no step handles cuts the run short and undoes
    nothing. */
module RenewalFulfillment {
  import opened RenewalFloor
  import opened RenewalPlan
  import opened Subscriptions

  /******* Net-new subscriptions *******/

  datatype NetNewItem = NetNewItem(offer: Offer, quantity: nat)

  predicate HoldsProduct(listed: Listed, sku: Sku) {
    listed.sub.status == Scheduled && listed.sub.offer.sku == sku
  }

  /** First listed scheduled subscription holding the product. */
  function FindScheduled(listing: seq<Listed>, sku: Sku): Option<Listed> {
    if listing == [] then None
    else if HoldsProduct(listing[0], sku) then Some(listing[0])
    else FindScheduled(listing[1..], sku)
  }

  lemma {:induction false} FindScheduledIsListed(listing: seq<Listed>, sku: Sku)
    ensures var found := FindScheduled(listing, sku);
            && (found.Some? ==> found.value in listing && HoldsProduct(found.value, sku))
            && (found.None? ==> forall i :: 0 <= i < |listing| ==> !HoldsProduct(listing[i], sku))
  {
    if listing != [] {
      FindScheduledIsListed(listing[1..], sku);
    }
  }

  predicate HoldsQuantity(sub: Subscription, quantity: nat) {
    sub.auto.enabled && sub.auto.quantity == Some(quantity)
  }

  predicate TouchedBy(listing: seq<Listed>, item: NetNewItem, id: SubId) {
    var found := FindScheduled(listing, item.offer.sku);
    found.Some? && found.value.id == id && !HoldsQuantity(found.value.sub, item.quantity)
  }

  /** The scheduled subscriptions that some net-new item re-enables or overwrites. */
  ghost function Touched(listing: seq<Listed>, items: seq<NetNewItem>): set<SubId> {
    if items == [] then {} else
    var last := items[|items|-1];
    var found := FindScheduled(listing, last.offer.sku);
    Touched(listing, items[..|items|-1])
    + if found.Some? && !HoldsQuantity(found.value.sub, last.quantity) then {found.value.id} else {}
  }

  lemma {:induction false} TouchedHas(listing: seq<Listed>, items: seq<NetNewItem>, i: nat, id: SubId)
    requires i < |items| && TouchedBy(listing, items[i], id)
    ensures id in Touched(listing, items)
  {
    if i < |items| - 1 {
      TouchedHas(listing, items[..|items|-1], i, id);
    }
  }

  lemma {:induction false} TouchedOnly(listing: seq<Listed>, items: seq<NetNewItem>, id: SubId) returns (i: nat)
    requires id in Touched(listing, items)
    ensures i < |items| && TouchedBy(listing, items[i], id)
  {
    if TouchedBy(listing, items[|items|-1], id) {
      return |items| - 1;
    }
    i := TouchedOnly(listing, items[..|items|-1], id);
  }

  ghost predicate DistinctOffers(items: seq<NetNewItem>) {
    forall i, j :: 0 <= i < j < |items| ==> items[i].offer != items[j].offer
  }

  ghost predicate DistinctSkus(items: seq<NetNewItem>) {
    forall i, j :: 0 <= i < j < |items| ==> items[i].offer.sku != items[j].offer.sku
  }

  /** Nothing but the `touched` subscriptions has moved since `initial`, and no offer changed. */
  ghost predicate OnlyMoved(subs: Subs, initial: Subs, touched: set<SubId>) {
    forall id :: id in initial ==>
                   && id in subs
                   && subs[id].offer == initial[id].offer
                   && (subs[id] == initial[id] || id in touched)
  }

  /** No touched scheduled subscription was renewing anything before. */
  ghost predicate TouchedWereIdle(initial: Subs, listing: seq<Listed>, items: seq<NetNewItem>) {
    forall id :: id in initial && id in Touched(listing, items) ==> Renewing(initial[id]) == 0
  }

  function Neutralised(sub: Subscription): (off: Subscription)
    ensures !off.auto.enabled && off.offer == sub.offer
  {
    Patched(sub, false, None, None)
  }

  /** Part of the subscriptions `ids` have been neutralised, everything else is as it was. */
  ghost predicate PartlyNeutralised(before: Subs, after: Subs, ids: set<SubId>) {
    && after.Keys == before.Keys
    && forall id :: id in before ==> after[id] == before[id] || (id in ids && after[id] == Neutralised(before[id]))
  }

  /** No more calls were lost than were reported as failed since the counts were taken. */
  ghost predicate Failures(service: SubscriptionService, refused: nat, torn: nat)
    reads service
  {
    torn <= service.torn && service.torn - torn <= service.refused - refused
  }

  /** disable_net_new_subscriptions: best effort over everything this run created or re-enabled; only an
      error that is not handled ends it (`cut`). */
  method DisableNetNewSubscriptions(service: SubscriptionService, created: map<Offer, SubId>) returns (cut: bool)
    modifies service
    ensures PartlyNeutralised(old(service.subs), service.subs, created.Values)
    ensures Failures(service, old(service.refused), old(service.torn))
    ensures !cut && service.refused == old(service.refused) ==>
              forall id :: id in created.Values ==>
                             id in service.subs && service.subs[id] == Neutralised(old(service.subs)[id])
    ensures Logs(service, old(service.subs), old(service.history))
    ensures forall h :: |old(service.history)| <= h < |service.history| ==>
                          PartlyNeutralised(old(service.subs), service.history[h], created.Values)
  {
    var rest := created.Keys;
    while rest != {}
      invariant rest <= created.Keys
      invariant PartlyNeutralised(old(service.subs), service.subs, created.Values)
      invariant Failures(service, old(service.refused), old(service.torn))
      invariant service.refused == old(service.refused) ==>
                  forall offer :: offer in created && offer !in rest ==>
                                    && created[offer] in service.subs
                                    && service.subs[created[offer]] == Neutralised(old(service.subs)[created[offer]])
      invariant Logs(service, old(service.subs), old(service.history))
      invariant forall h :: |old(service.history)| <= h < |service.history| ==>
                              PartlyNeutralised(old(service.subs), service.history[h], created.Values)
      decreases |rest|
    {
      var offer :| offer in rest;
      rest := rest - {offer};
      assert created[offer] in created.Values;
      var result := service.UpdateSubscription(created[offer], false, None, None);
      if result.Cut? {
        return true;
      }
    }
    return false;
  }

  lemma NothingNeutralised(subs: Subs, ids: set<SubId>)
    ensures PartlyNeutralised(subs, subs, ids)
  {
  }

  predicate Reuses(listing: seq<Listed>, item: NetNewItem) {
    var found := FindScheduled(listing, item.offer.sku);
    found.Some? && HoldsQuantity(found.value.sub, item.quantity)
  }

  /** Subscription `id` now serves the item: reused as it was, patched to the plan, or created. */
  ghost predicate Resolves(before: Subs, after: Subs, listing: seq<Listed>, item: NetNewItem, id: SubId) {
    match FindScheduled(listing, item.offer.sku)
    case None => id !in before && after == before[id := NewScheduled(item.offer, item.quantity)]
    case Some(found) =>
      && id == found.id
      && if Reuses(listing, item) then after == before
         else id in before && after == before[id := Patched(before[id], true, Some(item.quantity), None)]
  }

  /** Every subscription this run created or patched is on record as created. A subscription is
      created only for a product no listed scheduled one holds, so a rerun creates nothing twice. */
  ghost predicate NetNewRecorded(
    initial: Subs, subs: Subs, listing: seq<Listed>, items: seq<NetNewItem>, created: map<Offer, SubId>)
  {
    && (forall id :: id in subs && id !in initial ==> FindScheduled(listing, subs[id].offer.sku).None?)
    && (forall offer :: offer in created ==>
                          && created[offer] in subs
                          && (created[offer] in initial ==> created[offer] in Touched(listing, items)))
    && (DistinctOffers(items) ==>
          && Touched(listing, items) <= created.Values
          && forall id :: id in subs ==> (id in initial && subs[id] == initial[id]) || id in created.Values)
  }

  lemma NothingRecorded(initial: Subs, listing: seq<Listed>, touched: set<SubId>)
    ensures OnlyMoved(initial, initial, touched)
    ensures NetNewRecorded(initial, initial, listing, [], map[])
  {
  }

  lemma RecordedAreTouched(
    initial: Subs, subs: Subs, listing: seq<Listed>, items: seq<NetNewItem>, i: nat, created: map<Offer, SubId>)
    requires i <= |items| && NetNewRecorded(initial, subs, listing, items[..i], created)
    ensures forall offer :: offer in created ==> created[offer] in initial ==> created[offer] in Touched(listing, items)
  {
    forall offer | offer in created && created[offer] in initial
      ensures created[offer] in Touched(listing, items)
    {
      var k := TouchedOnly(listing, items[..i], created[offer]);
      TouchedHas(listing, items, k, created[offer]);
    }
  }

  lemma TouchedAreListed(initial: Subs, listing: seq<Listed>, items: seq<NetNewItem>)
    requires Lists(listing, initial)
    ensures Touched(listing, items) <= initial.Keys
  {
    forall id | id in Touched(listing, items)
      ensures id in initial
    {
      var i := TouchedOnly(listing, items, id);
      FindScheduledIsListed(listing, items[i].offer.sku);
    }
  }

  /** The first `i` items have been served from the start on, exactly (items for distinct products). */
  ghost predicate ServedTo(initial: Subs, state: Subs, listing: seq<Listed>, items: seq<NetNewItem>, i: int) {
    && 0 <= i <= |items| && initial.Keys <= state.Keys
    && MovedExactly(initial, state, listing, items, i) && CreatedExactly(initial, state, listing, items, i)
  }

  /** The touched subscriptions are patched to their item, the others of the start are as they were. */
  ghost predicate MovedExactly(initial: Subs, state: Subs, listing: seq<Listed>, items: seq<NetNewItem>, i: int)
    requires i <= |items| && initial.Keys <= state.Keys
  {
    && (forall k, id :: 0 <= k < i && TouchedBy(listing, items[k], id) ==>
                          id in initial && state[id] == Patched(initial[id], true, Some(items[k].quantity), None))
    && (forall id :: id in initial && (forall k :: 0 <= k < i ==> !TouchedBy(listing, items[k], id)) ==>
                       state[id] == initial[id])
  }

  predicate IsNew(initial: Subs, state: Subs, id: SubId) {
    id in state && id !in initial
  }

  /** The new subscriptions are those created for the items no listed scheduled subscription can serve, one
      for each. */
  ghost predicate CreatedExactly(initial: Subs, state: Subs, listing: seq<Listed>, items: seq<NetNewItem>, i: int)
    requires i <= |items|
  {
    && (forall id :: IsNew(initial, state, id) ==> CreatedForSome(state[id], listing, items, i))
    && (forall k :: 0 <= k < i && FindScheduled(listing, items[k].offer.sku).None? ==>
                      HasCreated(initial, state, items[k]))
    && (forall a, b :: IsNew(initial, state, a) && IsNew(initial, state, b) && SameProduct(state[a], state[b]) ==>
                         a == b)
  }

  predicate SameProduct(a: Subscription, b: Subscription) {
    a.offer.sku == b.offer.sku
  }

  ghost predicate HasCreated(initial: Subs, state: Subs, item: NetNewItem) {
    exists id :: IsNew(initial, state, id) && state[id] == NewScheduled(item.offer, item.quantity)
  }

  ghost predicate CreatedForSome(sub: Subscription, listing: seq<Listed>, items: seq<NetNewItem>, i: int) {
    exists k :: CreatedFor(sub, listing, items, i, k)
  }

  predicate CreatedFor(sub: Subscription, listing: seq<Listed>, items: seq<NetNewItem>, i: int, k: int) {
    0 <= k < i <= |items| && FindScheduled(listing, items[k].offer.sku).None?
    && sub == NewScheduled(items[k].offer, items[k].quantity)
  }

  lemma NothingServed(initial: Subs, listing: seq<Listed>, items: seq<NetNewItem>)
    ensures ServedTo(initial, initial, listing, items, 0)
  {
  }

  /** Item `i` needs no new subscription. */
  lemma NoneCreated(
    initial: Subs, before: Subs, after: Subs, listing: seq<Listed>, items: seq<NetNewItem>, i: nat)
    requires i < |items| && CreatedExactly(initial, before, listing, items, i)
    requires FindScheduled(listing, items[i].offer.sku).Some? && before.Keys == after.Keys
    requires forall id :: IsNew(initial, before, id) ==> after[id] == before[id]
    ensures CreatedExactly(initial, after, listing, items, i + 1)
  {
    hide FindScheduled;
    forall id | IsNew(initial, after, id)
      ensures IsNew(initial, before, id) && CreatedForSome(after[id], listing, items, i + 1)
    {
      assert IsNew(initial, before, id);
      var k :| CreatedFor(before[id], listing, items, i, k);
      assert CreatedFor(after[id], listing, items, i + 1, k);
    }
    forall k | 0 <= k < i + 1 && FindScheduled(listing, items[k].offer.sku).None?
      ensures HasCreated(initial, after, items[k])
    {
      assert HasCreated(initial, before, items[k]);
      var id :| IsNew(initial, before, id) && before[id] == NewScheduled(items[k].offer, items[k].quantity);
      assert IsNew(initial, after, id);
    }
  }

  /** Item `i` has a subscription of its own created. */
  lemma OneCreated(
    initial: Subs, before: Subs, after: Subs, listing: seq<Listed>, items: seq<NetNewItem>, i: nat, id: SubId)
    requires i < |items| && DistinctSkus(items) && CreatedExactly(initial, before, listing, items, i)
    requires FindScheduled(listing, items[i].offer.sku).None? && id !in before && initial.Keys <= before.Keys
    requires after == before[id := NewScheduled(items[i].offer, items[i].quantity)]
    ensures CreatedExactly(initial, after, listing, items, i + 1)
  {
    hide FindScheduled;
    forall other | IsNew(initial, after, other)
      ensures CreatedForSome(after[other], listing, items, i + 1)
      ensures other != id ==> after[other].offer.sku != items[i].offer.sku
    {
      if other == id {
        assert CreatedFor(after[other], listing, items, i + 1, i);
      } else {
        assert IsNew(initial, before, other);
        var k :| CreatedFor(before[other], listing, items, i, k);
        assert CreatedFor(after[other], listing, items, i + 1, k);
      }
    }
    forall a, b | IsNew(initial, after, a) && IsNew(initial, after, b) && SameProduct(after[a], after[b])
      ensures a == b
    {
      if a != id && b != id {
        assert IsNew(initial, before, a) && IsNew(initial, before, b);
      }
    }
    forall k | 0 <= k < i + 1 && FindScheduled(listing, items[k].offer.sku).None?
      ensures HasCreated(initial, after, items[k])
    {
      if k == i {
        assert IsNew(initial, after, id);
      } else {
        assert HasCreated(initial, before, items[k]);
        var other :| IsNew(initial, before, other) && before[other] == NewScheduled(items[k].offer, items[k].quantity);
        assert IsNew(initial, after, other);
      }
    }
  }

  /** With distinct products no subscription is touched twice. */
  lemma TouchedOnce(initial: Subs, listing: seq<Listed>, items: seq<NetNewItem>, j: nat, k: nat, id: SubId)
    requires Lists(listing, initial) && DistinctSkus(items) && j < |items| && k < |items|
    requires TouchedBy(listing, items[j], id) && TouchedBy(listing, items[k], id)
    ensures j == k
  {
    FindScheduledIsListed(listing, items[j].offer.sku);
    FindScheduledIsListed(listing, items[k].offer.sku);
  }

  /** Item `i` is reused as it is, or has a subscription of its own created. */
  lemma ServedUntouched(
    initial: Subs, before: Subs, after: Subs, listing: seq<Listed>, items: seq<NetNewItem>, i: nat, id: SubId)
    requires i < |items| && DistinctSkus(items) && ServedTo(initial, before, listing, items, i)
    requires forall other :: !TouchedBy(listing, items[i], other)
    requires if FindScheduled(listing, items[i].offer.sku).Some? then after == before
             else id !in before && after == before[id := NewScheduled(items[i].offer, items[i].quantity)]
    ensures ServedTo(initial, after, listing, items, i + 1)
  {
    hide FindScheduled, TouchedBy, Patched, CreatedExactly, DistinctSkus;
    if FindScheduled(listing, items[i].offer.sku).Some? {
      NoneCreated(initial, before, after, listing, items, i);
    } else {
      OneCreated(initial, before, after, listing, items, i, id);
    }
  }

  lemma ServedTouched(
    initial: Subs, before: Subs, after: Subs, listing: seq<Listed>, items: seq<NetNewItem>, i: nat, id: SubId)
    requires i < |items| && ServedTo(initial, before, listing, items, i) && id in initial
    requires TouchedBy(listing, items[i], id) && forall k :: 0 <= k < i ==> !TouchedBy(listing, items[k], id)
    requires forall other :: other != id ==> !TouchedBy(listing, items[i], other)
    requires after == before[id := Patched(before[id], true, Some(items[i].quantity), None)]
    ensures ServedTo(initial, after, listing, items, i + 1)
  {
    assert FindScheduled(listing, items[i].offer.sku).Some?;
    hide FindScheduled, TouchedBy, Patched, CreatedExactly, MovedExactly;
    MovedTouched(initial, before, after, listing, items, i, id);
    NoneCreated(initial, before, after, listing, items, i);
  }

  lemma MovedTouched(
    initial: Subs, before: Subs, after: Subs, listing: seq<Listed>, items: seq<NetNewItem>, i: nat, id: SubId)
    requires i < |items| && initial.Keys <= before.Keys && MovedExactly(initial, before, listing, items, i)
    requires id in initial && forall k :: 0 <= k < i ==> !TouchedBy(listing, items[k], id)
    requires TouchedBy(listing, items[i], id)
    requires forall other :: other != id ==> !TouchedBy(listing, items[i], other)
    requires after == before[id := Patched(before[id], true, Some(items[i].quantity), None)]
    ensures MovedExactly(initial, after, listing, items, i + 1)
  {
    hide TouchedBy, Patched;
    assert before[id] == initial[id];
    forall k, other | 0 <= k < i + 1 && TouchedBy(listing, items[k], other)
      ensures other in initial && after[other] == Patched(initial[other], true, Some(items[k].quantity), None)
    {
      assert k < i ==> other != id;
      assert k == i ==> other == id;
    }
  }

  lemma ServedNext(
    initial: Subs, before: Subs, after: Subs, listing: seq<Listed>, items: seq<NetNewItem>, i: nat, id: SubId)
    requires Lists(listing, initial) && DistinctSkus(items) && i < |items|
    requires ServedTo(initial, before, listing, items, i) && Resolves(before, after, listing, items[i], id)
    ensures ServedTo(initial, after, listing, items, i + 1)
  {
    hide ServedTo, Lists;
    if FindScheduled(listing, items[i].offer.sku).None? || Reuses(listing, items[i]) {
      ServedUntouched(initial, before, after, listing, items, i, id);
    } else {
      forall k | 0 <= k < i
        ensures !TouchedBy(listing, items[k], id)
      {
        if TouchedBy(listing, items[k], id) {
          TouchedOnce(initial, listing, items, i, k, id);
        }
      }
      ScheduledIsThere(initial, listing, items[i].offer.sku);
      ServedTouched(initial, before, after, listing, items, i, id);
    }
  }

  lemma ServedNow(initial: Subs, state: Subs, listing: seq<Listed>, items: seq<NetNewItem>, i: int)
    requires ServedTo(initial, state, listing, items, i)
    ensures ServedSome(initial, state, listing, items)
  {
  }

  lemma ScheduledIsThere(initial: Subs, listing: seq<Listed>, sku: Sku)
    requires Lists(listing, initial) && FindScheduled(listing, sku).Some?
    ensures FindScheduled(listing, sku).value.id in initial
    ensures initial[FindScheduled(listing, sku).value.id] == FindScheduled(listing, sku).value.sub
  {
    FindScheduledIsListed(listing, sku);
  }

  ghost predicate ServedSome(initial: Subs, state: Subs, listing: seq<Listed>, items: seq<NetNewItem>) {
    exists i :: ServedTo(initial, state, listing, items, i)
  }

  /** Part of the items served, part of what was recorded neutralised again. */
  ghost predicate ServedThenOff(
    initial: Subs, state: Subs, listing: seq<Listed>, items: seq<NetNewItem>, ids: set<SubId>)
  {
    exists middle, i :: ServedTo(initial, middle, listing, items, i) && PartlyNeutralised(middle, state, ids)
  }

  ghost predicate ServedBy(item: NetNewItem, netNew: map<Offer, SubId>, subs: Subs) {
    && item.offer in netNew && netNew[item.offer] in subs
    && subs[netNew[item.offer]].offer.sku == item.offer.sku
    && IsOn(subs[netNew[item.offer]], item.quantity)
  }

  /** The subscription is going to renew that quantity. */
  ghost predicate IsOn(sub: Subscription, quantity: nat) {
    sub.auto.enabled && sub.auto.quantity == Some(quantity) && Renewing(sub) == quantity
  }

  lemma ServedAreOn(items: seq<NetNewItem>, netNew: map<Offer, SubId>, subs: Subs)
    requires DistinctSkus(items) && NetNewServed(items, |items|, netNew, subs)
    ensures AllOn(items, netNew, subs)
  {
    forall i | 0 <= i < |items|
      ensures items[i].offer in netNew && netNew[items[i].offer] in subs
      ensures IsOn(subs[netNew[items[i].offer]], items[i].quantity)
    {
      assert ServedBy(items[i], netNew, subs);
    }
  }

  /** The subscription that serves an item is going to renew the item's quantity, for every item. */
  ghost predicate AllOn(items: seq<NetNewItem>, netNew: map<Offer, SubId>, subs: Subs) {
    forall i :: 0 <= i < |items| ==>
                  && items[i].offer in netNew && netNew[items[i].offer] in subs
                  && IsOn(subs[netNew[items[i].offer]], items[i].quantity)
  }

  /** The first `n` items hold their quantity (items for distinct products). */
  ghost predicate NetNewServed(items: seq<NetNewItem>, n: nat, netNew: map<Offer, SubId>, subs: Subs)
    requires n <= |items|
  {
    DistinctSkus(items) ==> forall i :: 0 <= i < n ==> ServedBy(items[i], netNew, subs)
  }

  lemma ResolvingMovesOnlyTouched(
    initial: Subs, before: Subs, after: Subs, listing: seq<Listed>, items: seq<NetNewItem>, i: nat, id: SubId)
    requires i < |items| && OnlyMoved(before, initial, Touched(listing, items[..i]))
    requires Resolves(before, after, listing, items[i], id)
    ensures OnlyMoved(after, initial, Touched(listing, items[..i+1]))
    ensures Touched(listing, items[..i]) <= Touched(listing, items[..i+1]) <= Touched(listing, items)
  {
    assert items[..i+1][..i] == items[..i];
    TouchedOfPrefix(listing, items, i + 1);
  }

  lemma TouchedOfPrefix(listing: seq<Listed>, items: seq<NetNewItem>, i: nat)
    requires i <= |items|
    ensures Touched(listing, items[..i]) <= Touched(listing, items)
  {
    forall id | id in Touched(listing, items[..i])
      ensures id in Touched(listing, items)
    {
      var k := TouchedOnly(listing, items[..i], id);
      TouchedHas(listing, items, k, id);
    }
  }

  lemma MovesOnlyMore(subs: Subs, initial: Subs, less: set<SubId>, more: set<SubId>)
    requires OnlyMoved(subs, initial, less) && less <= more
    ensures OnlyMoved(subs, initial, more)
  {
  }

  lemma NeutralisingMovesOnlyTouched(
    initial: Subs, before: Subs, after: Subs, touched: set<SubId>, created: map<Offer, SubId>)
    requires OnlyMoved(before, initial, touched) && PartlyNeutralised(before, after, created.Values)
    requires forall offer :: offer in created ==> created[offer] in initial ==> created[offer] in touched
    ensures OnlyMoved(after, initial, touched)
  {
  }

  /** Neutralising everything on record leaves the start, whatever was lost, and disabled subscriptions. */
  lemma NeutralisedEnds(
    initial: Subs, middle: Subs, end: Subs, listing: seq<Listed>, items: seq<NetNewItem>, created: map<Offer, SubId>,
    lost: Option<Listed>)
    requires Touched(listing, items) <= initial.Keys && DistinctOffers(items)
    requires initial.Keys <= middle.Keys && NetNewRecorded(initial, middle, listing, items, created)
    requires lost.Some? ==> lost.value.id !in created.Values
    requires PartlyNeutralised(WithLost(middle, lost), end, created.Values)
    requires forall id :: id in created.Values ==> id in end && !end[id].auto.enabled
    ensures EndsWith(WithLost(initial, lost), end, Touched(listing, items))
  {
  }

  /** What serving `item` writes, from the start on. */
  ghost predicate WritesItem(initial: Subs, listing: seq<Listed>, item: NetNewItem, written: Listed) {
    match FindScheduled(listing, item.offer.sku)
    case None => written.id !in initial && written.sub == NewScheduled(item.offer, item.quantity)
    case Some(found) =>
      && written.id == found.id && !HoldsQuantity(found.sub, item.quantity)
      && written.sub == Patched(found.sub, true, Some(item.quantity), None)
  }

  lemma ResolvingWrites(before: Subs, after: Subs, listing: seq<Listed>, item: NetNewItem, id: SubId)
    requires Resolves(before, after, listing, item, id) && !Reuses(listing, item)
    ensures id in after && after == before[id := after[id]]
  {
  }

  lemma KeysKept(subs: Subs, initial: Subs, touched: set<SubId>)
    requires OnlyMoved(subs, initial, touched)
    ensures initial.Keys <= subs.Keys
  {
  }

  /** With distinct products, a lost write of item `i` is not on record and not among the touched. */
  lemma LostIsNotRecorded(
    initial: Subs, left: Subs, after: Subs, listing: seq<Listed>, items: seq<NetNewItem>, i: nat,
    created: map<Offer, SubId>, id: SubId)
    requires Lists(listing, initial) && DistinctSkus(items) && i < |items|
    requires OnlyMoved(left, initial, Touched(listing, items[..i]))
    requires NetNewRecorded(initial, left, listing, items[..i], created)
    requires Resolves(left, after, listing, items[i], id) && !Reuses(listing, items[i])
    ensures id in after && WritesItem(initial, listing, items[i], Listed(id, after[id]))
    ensures id !in Touched(listing, items[..i]) && id !in created.Values
  {
    FindScheduledIsListed(listing, items[i].offer.sku);
    TouchedAreListed(initial, listing, items[..i]);
    if id in Touched(listing, items[..i]) {
      var k := TouchedOnly(listing, items[..i], id);
      FindScheduledIsListed(listing, items[k].offer.sku);
    }
  }

  lemma RecordProgress(
    initial: Subs, before: Subs, after: Subs, listing: seq<Listed>, items: seq<NetNewItem>, i: nat,
    id: SubId, created: map<Offer, SubId>, created': map<Offer, SubId>)
    requires i < |items| && NetNewRecorded(initial, before, listing, items[..i], created)
    requires OnlyMoved(before, initial, Touched(listing, items[..i]))
    requires DistinctOffers(items[..i+1]) ==> items[i].offer !in created
    requires Resolves(before, after, listing, items[i], id)
    requires created' == if Reuses(listing, items[i]) then created else created[items[i].offer := id]
    ensures NetNewRecorded(initial, after, listing, items[..i+1], created')
  {
    var item := items[i];
    assert items[..i+1][..i] == items[..i];
    if Reuses(listing, item) {
      return;
    }
    assert created'[item.offer] == id;
    assert id in created'.Values;
    if DistinctOffers(items[..i+1]) {
      assert DistinctOffers(items[..i]);
      forall k | k in created.Values
        ensures k in created'.Values
      {
        var offer :| offer in created && created[offer] == k;
        assert created'[offer] == k;
      }
    }
  }

  /** With distinct products, the subscription an item reuses is still as it was listed. */
  lemma {:induction false} ReusedIsUntouched(
    initial: Subs, subs: Subs, listing: seq<Listed>, items: seq<NetNewItem>, i: nat)
    requires Lists(listing, initial) && OnlyMoved(subs, initial, Touched(listing, items))
    requires DistinctSkus(items) && i < |items| && FindScheduled(listing, items[i].offer.sku).Some?
    ensures var found := FindScheduled(listing, items[i].offer.sku).value;
            && found.id in subs && subs[found.id].offer.sku == items[i].offer.sku
            && (Reuses(listing, items[i]) ==> subs[found.id] == found.sub)
  {
    var found := FindScheduled(listing, items[i].offer.sku).value;
    FindScheduledIsListed(listing, items[i].offer.sku);
    if found.id in Touched(listing, items) {
      var k := TouchedOnly(listing, items, found.id);
      FindScheduledIsListed(listing, items[k].offer.sku);
    }
  }

  /** The subscription that serves an item is new, or the scheduled one found for its product. */
  ghost predicate FromListing(initial: Subs, listing: seq<Listed>, items: seq<NetNewItem>, id: SubId) {
    id !in initial || exists k :: IsFound(listing, items, k, id)
  }

  predicate IsFound(listing: seq<Listed>, items: seq<NetNewItem>, k: int, id: SubId) {
    && 0 <= k < |items| && FindScheduled(listing, items[k].offer.sku).Some?
    && FindScheduled(listing, items[k].offer.sku).value.id == id
  }

  lemma NotYetCreated(items: seq<NetNewItem>, i: nat, created: map<Offer, SubId>)
    requires i < |items| && forall offer :: offer in created ==> exists k :: 0 <= k < i && items[k].offer == offer
    ensures DistinctOffers(items[..i+1]) ==> items[i].offer !in created
  {
    forall k | 0 <= k < i
      ensures items[..i+1][k] == items[k] && items[..i+1][i] == items[i]
    {
    }
  }

  lemma ResolvedFromListing(
    initial: Subs, before: Subs, after: Subs, listing: seq<Listed>, items: seq<NetNewItem>, i: nat, id: SubId)
    requires i < |items| && initial.Keys <= before.Keys && Resolves(before, after, listing, items[i], id)
    ensures FromListing(initial, listing, items, id)
  {
    if FindScheduled(listing, items[i].offer.sku).Some? {
      assert IsFound(listing, items, i, id);
    }
  }

  lemma NoneServedYet(items: seq<NetNewItem>, netNew: map<Offer, SubId>, subs: Subs)
    ensures NetNewServed(items, 0, netNew, subs)
  {
  }

  lemma ServedProgress(
    initial: Subs, before: Subs, after: Subs, listing: seq<Listed>, items: seq<NetNewItem>, i: nat,
    netNew: map<Offer, SubId>, id: SubId)
    requires i < |items| && NetNewServed(items, i, netNew, before)
    requires Lists(listing, initial) && OnlyMoved(before, initial, Touched(listing, items))
    requires Resolves(before, after, listing, items[i], id)
    ensures NetNewServed(items, i + 1, netNew[items[i].offer := id], after)
  {
    if DistinctSkus(items) {
      if FindScheduled(listing, items[i].offer.sku).Some? {
        ReusedIsUntouched(initial, before, listing, items, i);
      }
      forall k | 0 <= k <= i
        ensures ServedBy(items[k], netNew[items[i].offer := id], after)
      {
        assert k < i ==> ServedBy(items[k], netNew, before);
      }
    }
  }

  /** Some first operations have been applied. */
  ghost predicate AppliedUpTo(state: Subs, subs: Subs, ops: seq<Operation>)
    requires Targets(subs, ops)
  {
    exists i :: 0 <= i <= |ops| && state == AppliedAll(subs, ops[..i])
  }

  lemma AppliedNone(subs: Subs, ops: seq<Operation>)
    requires Targets(subs, ops)
    ensures AppliedAll(subs, ops[..0]) == subs
  {
  }

  lemma AppliedNext(subs: Subs, ops: seq<Operation>, i: nat)
    requires Targets(subs, ops) && i < |ops|
    ensures AppliedAll(subs, ops[..i+1]) == Applied(AppliedAll(subs, ops[..i]), ops[i])
    ensures AppliedUpTo(AppliedAll(subs, ops[..i+1]), subs, ops)
  {
    assert ops[..i+1][..i] == ops[..i];
  }

  lemma AppliedNow(subs: Subs, ops: seq<Operation>, i: nat)
    requires Targets(subs, ops) && i <= |ops|
    ensures AppliedUpTo(AppliedAll(subs, ops[..i]), subs, ops)
  {
  }

  /** A state of the walk back that has reached position `j`. */
  ghost predicate WalkedBack(state: Subs, subs: Subs, applied: seq<Operation>, j: int, oks: seq<bool>)
    requires Targets(subs, applied) && 0 <= j <= |applied| && |oks| == |applied| - j
  {
    exists k :: j <= k <= |applied| && state == RestoredAll(subs, applied[k..], oks[k-j..])
  }

  lemma WalkedFurther(state: Subs, subs: Subs, applied: seq<Operation>, j: int, oks: seq<bool>, ok: bool)
    requires Targets(subs, applied) && 0 < j <= |applied| && |oks| == |applied| - j
    requires WalkedBack(state, subs, applied, j, oks)
    ensures WalkedBack(state, subs, applied, j - 1, [ok] + oks)
  {
    var k :| j <= k <= |applied| && state == RestoredAll(subs, applied[k..], oks[k-j..]);
    assert ([ok] + oks)[k-(j-1)..] == oks[k-j..];
  }

  lemma WalkedNow(subs: Subs, applied: seq<Operation>, j: int, oks: seq<bool>)
    requires Targets(subs, applied) && 0 <= j <= |applied| && |oks| == |applied| - j
    ensures WalkedBack(RestoredAll(subs, applied[j..], oks), subs, applied, j, oks)
  {
  }

  /** Where a walk back is cut short, the rest counts as not reached. */
  function Padded(j: nat, oks: seq<bool>): (all: seq<bool>)
    ensures |all| == j + |oks|
  {
    seq(j, _ => true) + oks
  }

  lemma PaddedAllTrue(j: nat, oks: seq<bool>)
    ensures AllTrue(Padded(j, oks)) <==> AllTrue(oks)
  {
    assert forall i :: 0 <= i < |oks| ==> oks[i] == Padded(j, oks)[i+j];
  }

  lemma PaddedNothing(oks: seq<bool>)
    ensures Padded(0, oks) == oks
  {
  }

  /** One call of the walk back: accepted, refused, or cut short with or without effect. */
  lemma WalkedOn(
    before: Subs, after: Subs, subs: Subs, applied: seq<Operation>, j: nat, oks: seq<bool>, ok: bool, cut: bool)
    requires Targets(subs, applied) && 0 < j <= |applied| && |oks| == |applied| - j && (cut ==> ok)
    requires before == RestoredAll(subs, applied[j..], oks) && WalkedBack(before, subs, applied, j, oks)
    requires ok && !cut ==> after == Restored(before, applied[j-1])
    requires !ok ==> after == before
    requires cut ==> after == before || after == Restored(before, applied[j-1])
    ensures WalkedBack(after, subs, applied, j - 1, [ok] + oks)
    ensures !cut ==> after == RestoredAll(subs, applied[j-1..], [ok] + oks)
  {
    hide RestoredAll, Restored, WalkedBack;
    RestoreOneMore(subs, applied, j, oks, ok);
    WalkedNow(subs, applied, j - 1, [ok] + oks);
    WalkedFurther(before, subs, applied, j, oks, ok);
  }

  lemma WalkedSoFar(state: Subs, subs: Subs, applied: seq<Operation>, j: nat, oks: seq<bool>)
    requires Targets(subs, applied) && j <= |applied| && |oks| == |applied| - j
    requires WalkedBack(state, subs, applied, j, oks)
    ensures WalkedBack(state, subs, applied, 0, Padded(j, oks))
  {
    var k :| j <= k <= |applied| && state == RestoredAll(subs, applied[k..], oks[k-j..]);
    assert Padded(j, oks)[k-0..] == oks[k-j..];
  }

  lemma NothingToRestore(subs: Subs)
    ensures RestoredAll(subs, [], []) == subs && AllTrue([])
  {
  }

  lemma RestoreOneMore(subs: Subs, applied: seq<Operation>, j: int, oks: seq<bool>, ok: bool)
    requires Targets(subs, applied) && 0 < j <= |applied| && |oks| == |applied| - j
    ensures var tail := RestoredAll(subs, applied[j..], oks);
            RestoredAll(subs, applied[j-1..], [ok] + oks) == if ok then Restored(tail, applied[j-1]) else tail
    ensures AllTrue([ok] + oks) <==> ok && AllTrue(oks)
  {
  }

  /** Position `j` of the walk back: the first `n` operations were accepted, and one more took effect if
      its answer was lost. */
  ghost function Walked(subs: Subs, ops: seq<Operation>, n: nat, lost: bool, j: nat, oks: seq<bool>): Subs
    requires Targets(subs, ops) && j <= n <= |ops| && |oks| == n - j && (lost ==> n < |ops|)
  {
    if lost then TornState(subs, ops, n, j, oks) else Unwound(subs, ops, n, j, oks)
  }

  /** A state the update step can be seen in: part of the operations applied, part of the accepted
      ones walked back, or part of the net-new subscriptions neutralised after the walk back. */
  ghost predicate Visited(
    state: Subs, subs: Subs, ops: seq<Operation>, n: nat, lost: bool, oks: seq<bool>, created: set<SubId>)
    requires Targets(subs, ops) && n <= |ops| && |oks| == n && (lost ==> n < |ops|)
  {
    || AppliedUpTo(state, subs, ops)
    || (exists j :: 0 <= j <= n && state == Walked(subs, ops, n, lost, j, oks[j..]))
    || PartlyNeutralised(Walked(subs, ops, n, lost, 0, oks), state, created)
  }

  /** The target has every entry at its goal, and serves every item. */
  ghost predicate TargetIs(
    plan: seq<PlanEntry>, initial: Subs, target: Subs, items: seq<NetNewItem>, netNew: map<Offer, SubId>)
  {
    && target.Keys >= initial.Keys
    && (forall i :: 0 <= i < |plan| ==>
                      plan[i].sub in initial && target[plan[i].sub] == Goal(plan[i], initial[plan[i].sub]))
    && (Unplanned(plan, netNew) ==> NetNewServed(items, |items|, netNew, target))
  }

  /** A write of the plan whose answer was lost: operation `at`, on a subscription no item touches. */
  ghost predicate LostOfPlan(
    plan: seq<PlanEntry>, initial: Subs, listing: seq<Listed>, items: seq<NetNewItem>, at: nat, lost: Option<Listed>)
  {
    lost.Some? ==>
      && at < |Operations(plan)| && Operations(plan)[at].sub in initial
      && lost.value == WrittenBy(initial, Operations(plan)[at])
      && lost.value.id !in Touched(listing, items)
  }

  lemma LostIsOfPlan(
    plan: seq<PlanEntry>, initial: Subs, listing: seq<Listed>, items: seq<NetNewItem>, at: nat, lost: Option<Listed>)
    requires Separated(plan, listing, items) && Targets(initial, Operations(plan))
    requires lost.Some? ==> at < |Operations(plan)| && lost.value == WrittenBy(initial, Operations(plan)[at])
    ensures LostOfPlan(plan, initial, listing, items, at, lost)
  {
    hide Operations, Touched, Separated;
    PlanIsUntouched(plan, listing, items);
  }

  lemma TargetIsOn(
    plan: seq<PlanEntry>, initial: Subs, target: Subs, items: seq<NetNewItem>, netNew: map<Offer, SubId>)
    requires TargetIs(plan, initial, target, items, netNew) && Unplanned(plan, netNew) && DistinctSkus(items)
    ensures AllOn(items, netNew, target)
  {
    ServedAreOn(items, netNew, target);
  }

  lemma TargetFacts(
    plan: seq<PlanEntry>, initial: Subs, middle: Subs, listing: seq<Listed>, items: seq<NetNewItem>,
    netNew: map<Offer, SubId>)
    requires Separated(plan, listing, items) && Snapshotted(plan, middle) && initial.Keys <= middle.Keys
    requires NetNewServed(items, |items|, netNew, middle) && Targets(middle, Operations(plan))
    requires Snapshotted(plan, initial)
    requires forall i :: 0 <= i < |plan| ==> middle[plan[i].sub] == initial[plan[i].sub]
    ensures TargetIs(plan, initial, AppliedAll(middle, Operations(plan)), items, netNew)
  {
    hide Goal, AppliedAll, NetNewServed, Operations;
    forall i | 0 <= i < |plan|
      ensures AppliedAll(middle, Operations(plan))[plan[i].sub] == Goal(plan[i], initial[plan[i].sub])
    {
      FullRunReachesGoal(plan, middle, i);
    }
    if Unplanned(plan, netNew) {
      TargetServes(plan, middle, items, netNew);
    }
  }

  /** Whatever the update step was seen in, through to the claims about its states. */
  lemma SeenAtOrAbove(
    plan: seq<PlanEntry>, initial: Subs, middle: Subs, n: nat, lost: bool, oks: seq<bool>, ids: set<SubId>,
    state: Subs, listing: seq<Listed>, items: seq<NetNewItem>, created: map<Offer, SubId>)
    requires Separated(plan, listing, items) && Snapshotted(plan, middle) && Dominates(middle, initial)
    requires NetNewRecorded(initial, middle, listing, items, created) && ids == created.Values
    requires Targets(middle, Operations(plan)) && n <= |Operations(plan)| && |oks| == n && AllTrue(oks)
    requires lost ==> n < |Additive(plan)|
    requires || AppliedUpTo(state, middle, Operations(plan))
             || (TouchedWereIdle(initial, listing, items) && (lost ==> n < |Operations(plan)|)
                 && Visited(state, middle, Operations(plan), n, lost, oks, ids))
    ensures AtOrAbove(state, initial, AppliedAll(middle, Operations(plan)), true)
  {
    hide Operations, AppliedAll, Visited, Dominates, Additive, Touched, TouchedWereIdle, NetNewRecorded, AppliedUpTo;
    hide AllTrue;
    if AppliedUpTo(state, middle, Operations(plan)) {
      AppliedIsVisited(state, middle, Operations(plan), {});
      NothingToRestore(middle);
      VisitedDominatesAnEnd(plan, initial, middle, 0, false, [], {}, state);
    } else {
      CreatedWereIdle(listing, items, initial, middle, created);
      VisitedDominatesAnEnd(plan, initial, middle, n, lost, oks, ids, state);
    }
  }

  lemma AppliedIsVisited(state: Subs, subs: Subs, ops: seq<Operation>, created: set<SubId>)
    requires Targets(subs, ops) && AppliedUpTo(state, subs, ops)
    ensures Visited(state, subs, ops, 0, false, [], created)
  {
  }

  /** What had taken effect when the first call failed. */
  ghost function TookEffect(subs: Subs, ops: seq<Operation>, n: nat, lost: bool): Subs
    requires Targets(subs, ops) && n <= |ops| && (lost ==> n < |ops|)
  {
    AppliedAll(subs, ops[..if lost then n + 1 else n])
  }

  lemma RollbackIsVisited(
    subs: Subs, ops: seq<Operation>, n: nat, lost: bool, oks: seq<bool>, created: set<SubId>, state: Subs)
    requires Targets(subs, ops) && n <= |ops| && |oks| == n && (lost ==> n < |ops|)
    requires || WalkedBack(state, TookEffect(subs, ops, n, lost), ops[..n], 0, oks)
             || PartlyNeutralised(RestoredAll(TookEffect(subs, ops, n, lost), ops[..n], oks), state, created)
    ensures Visited(state, subs, ops, n, lost, oks, created)
  {
    hide AppliedAll, RestoredAll, PartlyNeutralised;
    var reached, applied := TookEffect(subs, ops, n, lost), ops[..n];
    assert applied == ops[0..n] && oks == oks[0..];
    if WalkedBack(state, reached, applied, 0, oks) {
      var j :| 0 <= j <= n && state == RestoredAll(reached, applied[j..], oks[j-0..]);
      assert applied[j..] == ops[j..n];
      assert state == Walked(subs, ops, n, lost, j, oks[j..]);
    }
  }

  /** The hypotheses under which the floor and the rollback are claimed: distinct entries and
      offers, and the plan does not overlap the net-new items. */
  ghost predicate Separated(plan: seq<PlanEntry>, listing: seq<Listed>, items: seq<NetNewItem>) {
    && DistinctEntries(plan) && DistinctOffers(items)
    && forall i :: 0 <= i < |plan| ==> plan[i].sub !in Touched(listing, items)
  }

  /** A renewal quantity to go back to: a restore cannot send None. */
  predicate Restorable(plan: seq<PlanEntry>) {
    forall i :: 0 <= i < |plan| && plan[i].renew ==> plan[i].snapshot.quantity.Some?
  }

  lemma DominatesThrough(high: Subs, middle: Subs, low: Subs)
    requires Dominates(high, middle) && Dominates(middle, low)
    ensures Dominates(high, low)
  {
  }

  /** Neutralising gives up only what was not renewing at the start. */
  lemma NeutralisingDominatesStart(walkedBack: Subs, state: Subs, initial: Subs, ids: set<SubId>)
    requires Dominates(walkedBack, initial) && PartlyNeutralised(walkedBack, state, ids)
    requires forall id :: id in ids && id in initial ==> Renewing(initial[id]) == 0
    ensures Dominates(state, initial)
  {
  }

  /** Every visited state dominates the start or the target, also when the lost operation was additive. */
  lemma VisitedDominatesAnEnd(
    plan: seq<PlanEntry>, initial: Subs, subs: Subs, n: nat, lost: bool, oks: seq<bool>, ids: set<SubId>, state: Subs)
    requires DistinctEntries(plan) && Snapshotted(plan, subs) && Dominates(subs, initial)
    requires Targets(subs, Operations(plan)) && n <= |Operations(plan)| && |oks| == n && AllTrue(oks)
    requires lost ==> n < |Additive(plan)|
    requires forall id :: id in ids && id in initial ==> Renewing(initial[id]) == 0
    requires Visited(state, subs, Operations(plan), n, lost, oks, ids)
    ensures Dominates(state, initial) || Dominates(state, AppliedAll(subs, Operations(plan)))
  {
    assert |Additive(plan)| <= |Operations(plan)|;
    hide Operations, Unwound, TornState, Dominates, PartlyNeutralised, AppliedAll, Additive;
    var ops := Operations(plan);
    if AppliedUpTo(state, subs, ops) {
      var i :| 0 <= i <= |ops| && state == AppliedAll(subs, ops[..i]);
      UnwoundNothing(subs, ops, i);
      WalkedDominatesAnEnd(plan, initial, subs, i, false, i, []);
    } else if j :| 0 <= j <= n && state == Walked(subs, ops, n, lost, j, oks[j..]) {
      WalkedDominatesAnEnd(plan, initial, subs, n, lost, j, oks[j..]);
    } else {
      var back := Walked(subs, ops, n, lost, 0, oks);
      if lost {
        TornAdditiveKeepsStart(plan, subs, n, 0, oks);
      } else {
        EveryIntermediateStateDominatesAnEnd(plan, subs, n, 0, oks);
      }
      DominatesThrough(back, subs, initial);
      NeutralisingDominatesStart(back, state, initial, ids);
    }
  }

  lemma UnwoundNothing(subs: Subs, ops: seq<Operation>, i: nat)
    requires Targets(subs, ops) && i <= |ops|
    ensures Unwound(subs, ops, i, i, []) == AppliedAll(subs, ops[..i])
  {
  }

  lemma WalkedDominatesAnEnd(
    plan: seq<PlanEntry>, initial: Subs, subs: Subs, n: nat, lost: bool, j: nat, oks: seq<bool>)
    requires DistinctEntries(plan) && Snapshotted(plan, subs) && Dominates(subs, initial)
    requires j <= n <= |Operations(plan)| && |oks| == n - j && AllTrue(oks)
    requires lost ==> n < |Additive(plan)|
    ensures Targets(subs, Operations(plan))
    ensures || Dominates(Walked(subs, Operations(plan), n, lost, j, oks), initial)
            || Dominates(Walked(subs, Operations(plan), n, lost, j, oks), AppliedAll(subs, Operations(plan)))
  {
    hide Dominates, Unwound, TornState, AppliedAll;
    EveryIntermediateStateDominatesAnEnd(plan, subs, n, j, oks);
    var state := Walked(subs, Operations(plan), n, lost, j, oks);
    if lost {
      TornAdditiveKeepsStart(plan, subs, n, j, oks);
    }
    if lost || j <= |Additive(plan)| {
      DominatesThrough(state, subs, initial);
    }
  }

  /** Serving the net-new items leaves the plan's subscriptions alone. */
  lemma StartOfUpdate(plan: seq<PlanEntry>, listing: seq<Listed>, items: seq<NetNewItem>, initial: Subs, subs: Subs)
    requires Separated(plan, listing, items) && Snapshotted(plan, initial)
    requires OnlyMoved(subs, initial, Touched(listing, items))
    ensures Snapshotted(plan, subs)
    ensures forall i :: 0 <= i < |plan| ==> subs[plan[i].sub] == initial[plan[i].sub]
  {
  }

  lemma ServingDominatesStart(listing: seq<Listed>, items: seq<NetNewItem>, initial: Subs, subs: Subs)
    requires TouchedWereIdle(initial, listing, items) && OnlyMoved(subs, initial, Touched(listing, items))
    ensures Dominates(subs, initial)
  {
  }

  lemma CreatedWereIdle(
    listing: seq<Listed>, items: seq<NetNewItem>, initial: Subs, subs: Subs, created: map<Offer, SubId>)
    requires TouchedWereIdle(initial, listing, items) && NetNewRecorded(initial, subs, listing, items, created)
    ensures forall id :: id in created.Values && id in initial ==> Renewing(initial[id]) == 0
  {
  }

  lemma StillTargets(plan: seq<PlanEntry>, initial: Subs, subs: Subs)
    requires Snapshotted(plan, initial) && initial.Keys <= subs.Keys
    ensures Targets(subs, Operations(plan))
  {
    OperationsTarget(plan, initial);
  }

  /** What operation `n` of the plan writes, from `subs` on. */
  function WrittenBy(subs: Subs, op: Operation): Listed
    requires op.sub in subs
  {
    Listed(op.sub, Applied(subs, op)[op.sub])
  }

  /** After the walk back, only the operation whose answer was lost is left of the plan. */
  lemma WalkedBackEnds(plan: seq<PlanEntry>, subs: Subs, n: nat, lost: bool, oks: seq<bool>)
    requires DistinctEntries(plan) && Snapshotted(plan, subs) && Restorable(plan)
    requires n <= |Operations(plan)| && |oks| == n && AllTrue(oks) && (lost ==> n < |Operations(plan)|)
    ensures Targets(subs, Operations(plan))
    ensures Walked(subs, Operations(plan), n, lost, 0, oks) ==
            WithLost(subs, if lost then Some(WrittenBy(subs, Operations(plan)[n])) else None)
  {
    hide Operations, TornState, Unwound;
    OperationsTarget(plan, subs);
    if lost {
      TornEnd(plan, subs, n, oks);
    } else {
      FullRollbackRestores(plan, subs, n, oks);
    }
  }

  /** A failed update with every compensating call accepted: the start, with the operation whose answer was
      lost if there was one, and everything this run touched or created disabled. */
  lemma FailedUpdateEnds(
    plan: seq<PlanEntry>, initial: Subs, middle: Subs, end: Subs, listing: seq<Listed>, items: seq<NetNewItem>,
    created: map<Offer, SubId>, n: nat, lost: bool, oks: seq<bool>)
    requires Touched(listing, items) <= initial.Keys && Separated(plan, listing, items)
             && Snapshotted(plan, initial) && Restorable(plan)
    requires OnlyMoved(middle, initial, Touched(listing, items))
    requires NetNewRecorded(initial, middle, listing, items, created)
    requires Targets(initial, Operations(plan)) && Targets(middle, Operations(plan))
    requires n < |Operations(plan)| && |oks| == n && AllTrue(oks)
    requires PartlyNeutralised(Walked(middle, Operations(plan), n, lost, 0, oks), end, created.Values)
    requires forall id :: id in created.Values ==> id in end && !end[id].auto.enabled
    ensures EndsWith(
              WithLost(initial, if lost then Some(WrittenBy(initial, Operations(plan)[n])) else None), end,
              Touched(listing, items))
  {
    hide Operations, Walked, KindAt, Patched, EndsWith, PartlyNeutralised, Touched;
    StartOfUpdate(plan, listing, items, initial, middle);
    WalkedBackEnds(plan, middle, n, lost, oks);
    OperationSound(plan, n);
    var i :| BuiltFrom(plan, Operations(plan)[n], KindAt(plan, n), i);
    var op := Operations(plan)[n];
    assert op.sub == plan[i].sub;
    assert WrittenBy(initial, op) == WrittenBy(middle, op);
    assert items[..|items|] == items;
    RecordedAreTouched(initial, middle, listing, items, |items|, created);
    var written := if lost then Some(WrittenBy(initial, op)) else None;
    NeutralisedEnds(initial, middle, end, listing, items, created, written);
  }

  lemma PlanIsUntouched(plan: seq<PlanEntry>, listing: seq<Listed>, items: seq<NetNewItem>)
    requires Separated(plan, listing, items)
    ensures forall k :: 0 <= k < |Operations(plan)| ==> Operations(plan)[k].sub !in Touched(listing, items)
  {
    hide Operations, Touched, KindAt;
    forall k | 0 <= k < |Operations(plan)|
      ensures Operations(plan)[k].sub !in Touched(listing, items)
    {
      OperationSound(plan, k);
      var i :| BuiltFrom(plan, Operations(plan)[k], KindAt(plan, k), i);
    }
  }

  lemma SeparatedOffers(plan: seq<PlanEntry>, listing: seq<Listed>, items: seq<NetNewItem>)
    ensures Separated(plan, listing, items) ==> DistinctOffers(items)
  {
  }

  /** The floor, pointwise: the state dominates the start, or the target once it is set. */
  ghost predicate AtOrAbove(state: Subs, initial: Subs, target: Subs, reached: bool) {
    Dominates(state, initial) || (reached && Dominates(state, target))
  }

  /** No touched scheduled subscription renewed more than its item asks. */
  ghost predicate NoneTouchedAbove(initial: Subs, listing: seq<Listed>, items: seq<NetNewItem>) {
    forall k, id :: 0 <= k < |items| && id in initial && TouchedBy(listing, items[k], id) ==>
                      Renewing(initial[id]) <= items[k].quantity
  }

  lemma ServedDominatesStart(initial: Subs, state: Subs, listing: seq<Listed>, items: seq<NetNewItem>, i: int)
    requires ServedTo(initial, state, listing, items, i) && NoneTouchedAbove(initial, listing, items)
    ensures Dominates(state, initial)
  {
    hide TouchedBy;
    forall id | id in initial
      ensures state[id].offer == initial[id].offer && Renewing(state[id]) >= Renewing(initial[id])
    {
      if k :| 0 <= k < i && TouchedBy(listing, items[k], id) {
        assert state[id] == Patched(initial[id], true, Some(items[k].quantity), None);
      }
    }
  }

  /** What a run can leave while no answer to a refused call is lost and no compensating call refused: items
      served and part of them neutralised again, or all of them served and part of the plan. */
  ghost predicate LeftBy(
    plan: seq<PlanEntry>, initial: Subs, state: Subs, listing: seq<Listed>, items: seq<NetNewItem>, ids: set<SubId>)
  {
    || ServedThenOff(initial, state, listing, items, ids)
    || exists middle, n, oks :: LeftByPlan(plan, initial, middle, state, listing, items, n, oks, ids)
  }

  ghost predicate LeftByPlan(
    plan: seq<PlanEntry>, initial: Subs, middle: Subs, state: Subs, listing: seq<Listed>, items: seq<NetNewItem>,
    n: nat, oks: seq<bool>, ids: set<SubId>)
  {
    && ServedTo(initial, middle, listing, items, |items|)
    && Targets(middle, Operations(plan)) && n <= |Operations(plan)| && |oks| == n && AllTrue(oks)
    && Visited(state, middle, Operations(plan), n, false, oks, ids)
  }

  lemma NotReachedLeaves(
    plan: seq<PlanEntry>, initial: Subs, state: Subs, listing: seq<Listed>, items: seq<NetNewItem>, ids: set<SubId>)
    ensures ServedThenOff(initial, state, listing, items, ids) ==> LeftBy(plan, initial, state, listing, items, ids)
  {
  }

  lemma ReachedLeaves(
    plan: seq<PlanEntry>, initial: Subs, middle: Subs, state: Subs, listing: seq<Listed>, items: seq<NetNewItem>,
    n: nat, oks: seq<bool>, ids: set<SubId>)
    requires ServedTo(initial, middle, listing, items, |items|)
    requires Targets(middle, Operations(plan)) && n <= |Operations(plan)| && |oks| == n && AllTrue(oks)
    requires Visited(state, middle, Operations(plan), n, false, oks, ids)
    ensures LeftBy(plan, initial, state, listing, items, ids)
  {
    hide ServedTo, Operations, AllTrue, Visited, Targets;
    assert LeftByPlan(plan, initial, middle, state, listing, items, n, oks, ids);
  }

  /** The plan has no entry for a subscription that serves an item. */
  ghost predicate Unplanned(plan: seq<PlanEntry>, netNew: map<Offer, SubId>) {
    forall i :: 0 <= i < |plan| ==> plan[i].sub !in netNew.Values
  }

  /** Applying the plan leaves the subscriptions without an entry alone. */
  lemma UnplannedStays(plan: seq<PlanEntry>, middle: Subs, id: SubId)
    requires DistinctEntries(plan) && Targets(middle, Operations(plan)) && id in middle
    requires forall i :: 0 <= i < |plan| ==> plan[i].sub != id
    ensures AppliedAll(middle, Operations(plan))[id] == middle[id]
  {
    hide Operations, AppliedAll, KindAt;
    var ops := Operations(plan);
    OperationsDistinct(plan);
    assert ops[..|ops|] == ops;
    forall k | 0 <= k < |ops|
      ensures ops[k].sub != id
    {
      OperationSound(plan, k);
      var j :| BuiltFrom(plan, ops[k], KindAt(plan, k), j);
    }
    AppliedAt(middle, ops, |ops|, id);
  }

  /** The plan then leaves the subscriptions that serve the items alone. */
  lemma TargetServes(
    plan: seq<PlanEntry>, middle: Subs, items: seq<NetNewItem>, netNew: map<Offer, SubId>)
    requires DistinctEntries(plan) && Unplanned(plan, netNew)
    requires NetNewServed(items, |items|, netNew, middle)
    requires Targets(middle, Operations(plan))
    ensures NetNewServed(items, |items|, netNew, AppliedAll(middle, Operations(plan)))
  {
    hide Operations, AppliedAll;
    if DistinctSkus(items) {
      forall i | 0 <= i < |items|
        ensures ServedBy(items[i], netNew, AppliedAll(middle, Operations(plan)))
      {
        assert ServedBy(items[i], netNew, middle);
        assert netNew[items[i].offer] in netNew.Values;
        UnplannedStays(plan, middle, netNew[items[i].offer]);
      }
    }
  }

  /******* The target of a run *******/

  ghost predicate IsApplied(plan: seq<PlanEntry>, middle: Subs, target: Subs) {
    Targets(middle, Operations(plan)) && target == AppliedAll(middle, Operations(plan))
  }

  lemma AppliedNowIs(plan: seq<PlanEntry>, middle: Subs)
    requires Targets(middle, Operations(plan))
    ensures IsApplied(plan, middle, AppliedAll(middle, Operations(plan)))
  {
  }

  /** From the start on, all items served and then the whole plan applied. */
  ghost predicate IsRunTarget(
    plan: seq<PlanEntry>, initial: Subs, target: Subs, listing: seq<Listed>, items: seq<NetNewItem>)
  {
    exists middle :: ServedTo(initial, middle, listing, items, |items|) && IsApplied(plan, middle, target)
  }

  /** What the target makes of a subscription of the start: the goal of its entry, what its item asks, or,
      for every other one, what it was. */
  lemma TargetAt(
    plan: seq<PlanEntry>, initial: Subs, target: Subs, listing: seq<Listed>, items: seq<NetNewItem>, id: SubId)
    requires Separated(plan, listing, items) && Snapshotted(plan, initial)
    requires IsRunTarget(plan, initial, target, listing, items)
    ensures id in initial ==> id in target
    ensures forall i :: 0 <= i < |plan| && plan[i].sub == id ==> target[id] == Goal(plan[i], initial[id])
    ensures forall k :: id in initial && 0 <= k < |items| && TouchedBy(listing, items[k], id) ==>
                          target[id] == Patched(initial[id], true, Some(items[k].quantity), None)
    ensures id in initial && (forall i :: 0 <= i < |plan| ==> plan[i].sub != id)
            && (forall k :: 0 <= k < |items| ==> !TouchedBy(listing, items[k], id)) ==>
              target[id] == initial[id]
  {
    hide Operations, AppliedAll, Goal, Patched, TouchedBy, Touched, CreatedExactly;
    var middle :| ServedTo(initial, middle, listing, items, |items|) && IsApplied(plan, middle, target);
    forall i | 0 <= i < |plan|
      ensures forall k :: 0 <= k < |items| ==> !TouchedBy(listing, items[k], plan[i].sub)
    {
      EntryIsNotTouched(plan, listing, items, i);
    }
    if i :| 0 <= i < |plan| && plan[i].sub == id {
      StillSnapshotted(plan, initial, middle);
      FullRunReachesGoal(plan, middle, i);
      assert forall j :: 0 <= j < |plan| && plan[j].sub == id ==> j == i;
    } else if id in initial {
      UnplannedStays(plan, middle, id);
    }
  }

  lemma EntryIsNotTouched(plan: seq<PlanEntry>, listing: seq<Listed>, items: seq<NetNewItem>, i: nat)
    requires Separated(plan, listing, items) && i < |plan|
    ensures forall k :: 0 <= k < |items| ==> !TouchedBy(listing, items[k], plan[i].sub)
  {
    hide Touched, TouchedBy;
    forall k | 0 <= k < |items| && TouchedBy(listing, items[k], plan[i].sub)
      ensures false
    {
      TouchedHas(listing, items, k, plan[i].sub);
    }
  }

  lemma StillSnapshotted(plan: seq<PlanEntry>, initial: Subs, middle: Subs)
    requires Snapshotted(plan, initial) && initial.Keys <= middle.Keys
    requires forall i :: 0 <= i < |plan| ==> middle[plan[i].sub] == initial[plan[i].sub]
    ensures Snapshotted(plan, middle)
  {
  }

  /** What the subscriptions created for items renew. */
  function CreatedQuantity(listing: seq<Listed>, items: seq<NetNewItem>, counted: Offer -> bool): nat {
    if items == [] then 0 else
    var last := items[|items|-1];
    CreatedQuantity(listing, items[..|items|-1], counted)
    + if FindScheduled(listing, last.offer.sku).None? && counted(last.offer) then last.quantity else 0
  }

  lemma {:induction false} CreatedSum(
    initial: Subs, state: Subs, listing: seq<Listed>, items: seq<NetNewItem>, i: nat, counted: Offer -> bool)
    requires i <= |items| && initial.Keys <= state.Keys && DistinctSkus(items)
    requires CreatedExactly(initial, state, listing, items, i)
    ensures SumOver(state, state.Keys - initial.Keys, counted) == CreatedQuantity(listing, items[..i], counted)
  {
    hide FindScheduled, CreatedExactly, SumOver, DistinctSkus;
    var created := state.Keys - initial.Keys;
    if i == 0 {
      NoneNew(initial, state, listing, items);
      SumOfDisabled(state, created, counted);
      return;
    }
    assert items[..i][..i-1] == items[..i-1];
    if FindScheduled(listing, items[i-1].offer.sku).Some? {
      CreatedOneLess(initial, state, listing, items, i, None);
      CreatedSum(initial, state, listing, items, i - 1, counted);
    } else {
      var id := TheCreated(initial, state, listing, items, i);
      var rest := state - {id};
      CreatedOneLess(initial, state, listing, items, i, Some(id));
      CreatedSum(initial, rest, listing, items, i - 1, counted);
      SumSplit(state, created, id, counted);
      assert rest.Keys - initial.Keys == created - {id};
      SumFrame(rest, state, created - {id}, counted);
    }
  }

  lemma NoneNew(initial: Subs, state: Subs, listing: seq<Listed>, items: seq<NetNewItem>)
    requires CreatedExactly(initial, state, listing, items, 0)
    ensures state.Keys - initial.Keys == {}
  {
    assert forall id :: id in state.Keys - initial.Keys ==> IsNew(initial, state, id);
  }

  lemma TheCreated(initial: Subs, state: Subs, listing: seq<Listed>, items: seq<NetNewItem>, i: nat)
    returns (id: SubId)
    requires 0 < i <= |items| && FindScheduled(listing, items[i-1].offer.sku).None?
    requires CreatedExactly(initial, state, listing, items, i)
    ensures IsNew(initial, state, id) && state[id] == NewScheduled(items[i-1].offer, items[i-1].quantity)
  {
    hide FindScheduled;
    assert HasCreated(initial, state, items[i-1]);
    id :| IsNew(initial, state, id) && state[id] == NewScheduled(items[i-1].offer, items[i-1].quantity);
  }

  /** Without the subscription created for the last item, if there is one. */
  lemma CreatedOneLess(
    initial: Subs, state: Subs, listing: seq<Listed>, items: seq<NetNewItem>, i: nat, made: Option<SubId>)
    requires 0 < i <= |items| && initial.Keys <= state.Keys && DistinctSkus(items)
    requires CreatedExactly(initial, state, listing, items, i)
    requires made.Some? <==> FindScheduled(listing, items[i-1].offer.sku).None?
    requires made.Some? ==> IsNew(initial, state, made.value) && state[made.value].offer == items[i-1].offer
    ensures var rest := if made.Some? then state - {made.value} else state;
            initial.Keys <= rest.Keys && CreatedExactly(initial, rest, listing, items, i - 1)
  {
    hide FindScheduled;
    var rest := if made.Some? then state - {made.value} else state;
    forall id | IsNew(initial, rest, id)
      ensures CreatedForSome(rest[id], listing, items, i - 1)
    {
      assert IsNew(initial, state, id) && (made.Some? ==> !SameProduct(state[id], state[made.value]));
      var k :| CreatedFor(state[id], listing, items, i, k);
      assert k < i - 1;
      assert CreatedFor(rest[id], listing, items, i - 1, k);
    }
    forall a, b | IsNew(initial, rest, a) && IsNew(initial, rest, b) && SameProduct(rest[a], rest[b])
      ensures a == b
    {
      assert IsNew(initial, state, a) && IsNew(initial, state, b);
    }
    forall k | 0 <= k < i - 1 && FindScheduled(listing, items[k].offer.sku).None?
      ensures HasCreated(initial, rest, items[k])
    {
      assert HasCreated(initial, state, items[k]);
      var id :| IsNew(initial, state, id) && state[id] == NewScheduled(items[k].offer, items[k].quantity);
      assert made.Some? ==> id != made.value;
      assert IsNew(initial, rest, id);
    }
  }

  /** The target's aggregate: that of the subscriptions of the start, as TargetAt has them, and what was
      created for items. */
  lemma TargetAggregate(
    plan: seq<PlanEntry>, initial: Subs, target: Subs, listing: seq<Listed>, items: seq<NetNewItem>,
    counted: Offer -> bool)
    requires Separated(plan, listing, items) && Snapshotted(plan, initial) && DistinctSkus(items)
    requires IsRunTarget(plan, initial, target, listing, items)
    ensures initial.Keys <= target.Keys
    ensures Aggregate(target, counted) ==
            SumOver(target, initial.Keys, counted) + CreatedQuantity(listing, items, counted)
  {
    hide Operations, AppliedAll, MovedExactly, CreatedExactly, Touched, SumOver, FindScheduled;
    var middle :| ServedTo(initial, middle, listing, items, |items|) && IsApplied(plan, middle, target);
    AppliedKeys(middle, Operations(plan));
    var created := middle.Keys - initial.Keys;
    forall id | id in created
      ensures target[id] == middle[id]
    {
      UnplannedStays(plan, middle, id);
    }
    assert items[..|items|] == items;
    CreatedSum(initial, middle, listing, items, |items|, counted);
    SumFrame(middle, target, created, counted);
    SumParts(target, initial.Keys, created, counted);
    assert initial.Keys + created == target.Keys;
  }

  /** The floor of a run in numbers: its aggregate is not below the smaller of the start's and the target's,
      and no subscription without an entry that no item touches ever renews less than at the start. */
  lemma AtOrAboveMeans(
    state: Subs, plan: seq<PlanEntry>, initial: Subs, target: Subs, listing: seq<Listed>, items: seq<NetNewItem>,
    counted: Offer -> bool)
    requires Separated(plan, listing, items) && Snapshotted(plan, initial) && DistinctSkus(items)
    requires IsRunTarget(plan, initial, target, listing, items) && AtOrAbove(state, initial, target, true)
    ensures initial.Keys <= target.Keys
    ensures AtFloor(Aggregate(state, counted), Aggregate(initial, counted),
                    SumOver(target, initial.Keys, counted) + CreatedQuantity(listing, items, counted))
    ensures forall id :: id in initial && (forall i :: 0 <= i < |plan| ==> plan[i].sub != id)
                         && (forall k :: 0 <= k < |items| ==> !TouchedBy(listing, items[k], id)) ==>
                           id in state && Renewing(state[id]) >= Renewing(initial[id])
  {
    hide SumOver, Aggregate, IsRunTarget, Separated, Touched, TouchedBy, CreatedQuantity, Goal;
    TargetAggregate(plan, initial, target, listing, items, counted);
    if Dominates(state, initial) {
      DominanceBoundsAggregate(state, initial, counted);
    } else {
      DominanceBoundsAggregate(state, target, counted);
      forall id | id in initial && (forall i :: 0 <= i < |plan| ==> plan[i].sub != id)
                  && (forall k :: 0 <= k < |items| ==> !TouchedBy(listing, items[k], id))
        ensures id in state && Renewing(state[id]) >= Renewing(initial[id])
      {
        TargetAt(plan, initial, target, listing, items, id);
      }
    }
  }

  lemma AppliedKeys(subs: Subs, ops: seq<Operation>)
    requires Targets(subs, ops)
    ensures AppliedAll(subs, ops).Keys == subs.Keys
  {
  }

  // Interrupted: an error no step handles; the order stays in processing and the flow runs again.
  datatype Step =
    Continue | NetNewFailed(offer: Offer) | UpdateFailed(sub: SubId) | NotFound(missing: SubId) | Interrupted

  class RenewalOrder {
    const service: SubscriptionService
    var listing: seq<Listed>
    var plan: seq<PlanEntry>
    var netNew: map<Offer, SubId>
    var created: map<Offer, SubId>

    constructor (service: SubscriptionService)
      ensures this.service == service && netNew == map[] && created == map[]
    {
      this.service := service;
      listing, plan, netNew, created := [], [], map[], map[];
    }

    /** SetupRenewalPlan: every entry is matched and snapshotted, or the order fails on the first
        entry Adobe does not know. */
    method SetupRenewalPlan(payload: seq<PayloadEntry>) returns (step: Step)
      modifies this
      ensures netNew == old(netNew) && created == old(created) && Lists(listing, service.subs)
      ensures Known(payload, service.subs) ==> step == Continue && plan == Resolve(payload, service.subs)
      ensures Known(payload, service.subs) ==>
                forall i :: 0 <= i < |payload| ==>
                              IsResolved(plan[i], payload[i], service.subs[payload[i].sub])
      ensures !Known(payload, service.subs) ==>
                exists i :: 0 <= i < |payload| && step == NotFound(payload[i].sub)
                            && payload[i].sub !in service.subs && Known(payload[..i], service.subs)
    {
      listing := service.GetSubscriptions();
      plan := [];
      for i := 0 to |payload|
        invariant Lists(listing, service.subs) && netNew == old(netNew) && created == old(created)
        invariant Known(payload[..i], service.subs) && plan == Resolve(payload[..i], service.subs)
      {
        var found := FindListed(listing, payload[i].sub, service.subs);
        if found.None? {
          return NotFound(payload[i].sub);
        }
        ResolveNext(payload, service.subs, i);
        plan := plan + [ResolveEntry(payload[i], found.value)];
      }
      assert payload[..|payload|] == payload;
      return Continue;
    }

    /** Reuse the scheduled subscription of an item as it is, patch it back to the plan, or create it.
        `moved` is the subscription that serves the item in Adobe, also when the call did not succeed. */
    method ResolveNetNewSubscription(item: NetNewItem) returns (result: CallResult, ghost moved: Option<SubId>)
      modifies this, service
      ensures plan == old(plan) && listing == old(listing)
      ensures service.torn == old(service.torn) + if result.Failing? && moved.Some? then 1 else 0
      ensures service.refused == old(service.refused) + if result.Failing? then 1 else 0
      ensures service.history == old(service.history) + if Reuses(listing, item) then [] else [service.subs]
      // no call is made only for a subscription that is listed as renewing the quantity already
      ensures service.history == old(service.history) <==>
              var found := FindScheduled(listing, item.offer.sku);
              found.Some? && found.value.sub.auto.enabled && found.value.sub.auto.quantity == Some(item.quantity)
      ensures result.Ok? && !Reuses(listing, item) ==>
                moved.Some? && moved.value in service.subs && IsOn(service.subs[moved.value], item.quantity)
      ensures result.Ok? ==> moved.Some? && netNew == old(netNew)[item.offer := moved.value]
      ensures result.Ok? ==>
                created == if Reuses(listing, item) then old(created) else old(created)[item.offer := moved.value]
      ensures !result.Ok? ==> created == old(created) && netNew == old(netNew) && !Reuses(listing, item)
      ensures if moved.Some? then Resolves(old(service.subs), service.subs, listing, item, moved.value)
              else service.subs == old(service.subs)
      ensures Logs(service, old(service.subs), old(service.history))
    {
      var existing := FindScheduled(listing, item.offer.sku);
      if existing.Some? && HoldsQuantity(existing.value.sub, item.quantity) {
        netNew := netNew[item.offer := existing.value.id];
        return Ok, Some(existing.value.id);
      }
      var resolved: Option<SubId> := None;
      if existing.Some? {
        result := service.UpdateSubscription(existing.value.id, true, Some(item.quantity), None);
        resolved := if result.Ok? then Some(existing.value.id) else None;
        moved := if result.Ok? || service.torn > old(service.torn) || service.subs != old(service.subs)
                 then Some(existing.value.id) else None;
      } else {
        result, resolved, moved := service.CreateSubscription(item.offer, item.quantity);
      }
      if resolved.Some? {
        netNew := netNew[item.offer := resolved.value];
        created := created[item.offer := resolved.value];
      }
    }

    /** Serve the items in order up to the first call that does not succeed; `left` is the state before that
        call and `moved` what the call did all the same. */
    method ServeNetNewItems(items: seq<NetNewItem>)
      returns (served: nat, cut: bool, ghost left: Subs, ghost moved: Option<SubId>)
      requires Lists(listing, service.subs) && netNew == map[] && created == map[]
      modifies this, service
      ensures plan == old(plan) && listing == old(listing) && served <= |items| && (cut ==> served < |items|)
      ensures Logs(service, old(service.subs), old(service.history))
      ensures service.refused == old(service.refused) + if served == |items| || cut then 0 else 1
      ensures service.torn == old(service.torn) + if moved.Some? && !cut then 1 else 0
      ensures forall h :: |old(service.history)| <= h < |service.history| ==>
                            OnlyMoved(service.history[h], old(service.subs), Touched(listing, items))
      ensures OnlyMoved(service.subs, old(service.subs), Touched(listing, items))
      ensures OnlyMoved(left, old(service.subs), Touched(listing, items[..served]))
      ensures NetNewRecorded(old(service.subs), left, listing, items[..served], created)
      ensures moved.None? ==> service.subs == left
      ensures moved.Some? ==>
                && served < |items| && !Reuses(listing, items[served])
                && Resolves(left, service.subs, listing, items[served], moved.value)
      ensures served == |items| ==> NetNewServed(items, served, netNew, service.subs)
      ensures forall offer :: offer in created ==>
                                created[offer] in old(service.subs) ==> created[offer] in Touched(listing, items)
      ensures served < |items| ==> !Reuses(listing, items[served])
      ensures forall offer :: offer in netNew ==> FromListing(old(service.subs), listing, items, netNew[offer])
      ensures DistinctSkus(items) ==>
                forall h :: |old(service.history)| <= h < |service.history| ==>
                              ServedSome(old(service.subs), service.history[h], listing, items)
      ensures DistinctSkus(items) ==>
                && ServedTo(old(service.subs), left, listing, items, served)
                && ServedSome(old(service.subs), service.subs, listing, items)
    {
      hide OnlyMoved, NetNewRecorded, Resolves, Touched, Patched, ServedTo, NetNewServed, FromListing, ServedSome;
      hide DistinctOffers, DistinctSkus, Reuses;
      ghost var initial, touched, distinct := service.subs, Touched(listing, items), DistinctSkus(items);
      NothingRecorded(initial, listing, Touched(listing, items[..0]));
      NothingRecorded(initial, listing, touched);
      NothingServed(initial, listing, items);
      NoneServedYet(items, netNew, initial);
      left, moved := initial, None;
      for i := 0 to |items|
        invariant listing == old(listing) && plan == old(plan)
        invariant Logs(service, old(service.subs), old(service.history))
        invariant service.torn == old(service.torn) && service.refused == old(service.refused)
        invariant forall h :: |old(service.history)| <= h < |service.history| ==>
                                OnlyMoved(service.history[h], initial, touched)
        invariant left == service.subs && moved.None?
        invariant OnlyMoved(left, initial, Touched(listing, items[..i])) && OnlyMoved(left, initial, touched)
        invariant NetNewRecorded(initial, left, listing, items[..i], created)
        invariant forall offer :: offer in created ==> exists k :: 0 <= k < i && items[k].offer == offer
        invariant NetNewServed(items, i, netNew, left)
        invariant forall offer :: offer in netNew ==> FromListing(initial, listing, items, netNew[offer])
        invariant distinct ==> ServedTo(initial, left, listing, items, i)
        invariant distinct ==>
                    forall h :: |old(service.history)| <= h < |service.history| ==>
                                  ServedSome(initial, service.history[h], listing, items)
      {
        ghost var netNew0, created0 := netNew, created;
        if distinct {
          ServedNow(initial, left, listing, items, i);
        }
        RecordedAreTouched(initial, left, listing, items, i, created);
        var result;
        result, moved := ResolveNetNewSubscription(items[i]);
        if moved.Some? {
          ResolvingMovesOnlyTouched(initial, left, service.subs, listing, items, i, moved.value);
          MovesOnlyMore(service.subs, initial, Touched(listing, items[..i+1]), touched);
          if distinct {
            ServedNext(initial, left, service.subs, listing, items, i, moved.value);
            ServedNow(initial, service.subs, listing, items, i + 1);
          }
        }
        if !result.Ok? {
          return i, result.Cut?, left, moved;
        }
        KeysKept(left, initial, touched);
        ResolvedFromListing(initial, left, service.subs, listing, items, i, moved.value);
        NotYetCreated(items, i, created0);
        RecordProgress(initial, left, service.subs, listing, items, i, moved.value, created0, created);
        ServedProgress(initial, left, service.subs, listing, items, i, netNew0, moved.value);
        left, moved := service.subs, None;
      }
      RecordedAreTouched(initial, left, listing, items, |items|, created);
      if distinct {
        ServedNow(initial, left, listing, items, |items|);
      }
      return |items|, false, left, None;
    }

    /** CreateNetNewSubscriptions: reuse, re-enable or create one scheduled subscription per item; a failure
        neutralises what this run created or re-enabled. When the failing call (for item `at`) took effect
        all the same, `lost` is what it wrote. */
    method CreateNetNewSubscriptions(items: seq<NetNewItem>)
      returns (step: Step, ghost at: nat, ghost lost: Option<Listed>)
      requires Lists(listing, service.subs) && netNew == map[] && created == map[]
      modifies this, service
      ensures plan == old(plan) && listing == old(listing)
      ensures Logs(service, old(service.subs), old(service.history))
      ensures Failures(service, old(service.refused), old(service.torn))
      ensures forall h :: |old(service.history)| <= h < |service.history| ==>
                            OnlyMoved(service.history[h], old(service.subs), Touched(listing, items))
      ensures OnlyMoved(service.subs, old(service.subs), Touched(listing, items))
      ensures DistinctSkus(items) ==>
                ServedThenOff(old(service.subs), service.subs, listing, items, created.Values)
      ensures forall offer :: offer in created ==>
                                created[offer] in old(service.subs) ==> created[offer] in Touched(listing, items)
      ensures forall offer :: offer in netNew ==> FromListing(old(service.subs), listing, items, netNew[offer])
      ensures step.Continue? ==>
                && service.refused == old(service.refused) && lost.None? && service.torn == old(service.torn)
                && NetNewRecorded(old(service.subs), service.subs, listing, items, created)
                && NetNewServed(items, |items|, netNew, service.subs)
      ensures step.Continue? && DistinctSkus(items) ==>
                && AllOn(items, netNew, service.subs)
                && ServedTo(old(service.subs), service.subs, listing, items, |items|)
                && forall h :: |old(service.history)| <= h < |service.history| ==>
                                 ServedSome(old(service.subs), service.history[h], listing, items)
      ensures || step.Continue? || step.Interrupted?
              || (at < |items| && !Reuses(listing, items[at]) && step == NetNewFailed(items[at].offer))
      ensures step.NetNewFailed? ==> service.refused > old(service.refused)
      // when only the failing call was reported as failed, the rest is neutralised
      ensures service.refused <= old(service.refused) + 1 ==>
                service.torn == old(service.torn) + if lost.Some? then 1 else 0
      ensures step.NetNewFailed? && service.refused == old(service.refused) + 1
              && DistinctOffers(items) && (lost.Some? ==> DistinctSkus(items)) ==>
                EndsWith(WithLost(old(service.subs), lost), service.subs, Touched(listing, items[..at]))
      ensures lost.Some? && DistinctSkus(items) ==>
                && at < |items| && WritesItem(old(service.subs), listing, items[at], lost.value)
                && lost.value.id !in Touched(listing, items[..at])
    {
      hide Neutralised, Touched, OnlyMoved, NetNewRecorded, PartlyNeutralised, WritesItem, EndsWith, Resolves;
      hide ServedTo, NetNewServed, FromListing, AllOn;
      ghost var initial, touched := service.subs, Touched(listing, items);
      ghost var left, moved;
      var served, broken;
      served, broken, left, moved := ServeNetNewItems(items);
      at, lost := served, None;
      assert items[..|items|] == items;
      NothingNeutralised(service.subs, created.Values);
      if served == |items| {
        if DistinctSkus(items) {
          ServedAreOn(items, netNew, service.subs);
        }
        return Continue, at, lost;
      }
      if broken {
        return Interrupted, at, lost;
      }
      ghost var failed, history1 := service.subs, service.history;
      if moved.Some? {
        ResolvingWrites(left, failed, listing, items[at], moved.value);
        lost := Some(Listed(moved.value, failed[moved.value]));
        if DistinctSkus(items) {
          LostIsNotRecorded(initial, left, failed, listing, items, at, created, moved.value);
        }
      }
      broken := DisableNetNewSubscriptions(service, created);
      forall h | |old(service.history)| <= h < |service.history|
        ensures OnlyMoved(service.history[h], initial, touched)
      {
        if h >= |history1| {
          NeutralisingMovesOnlyTouched(initial, failed, service.history[h], touched, created);
        } else {
          assert service.history[h] == history1[h];
        }
      }
      NeutralisingMovesOnlyTouched(initial, failed, service.subs, touched, created);
      if broken {
        return Interrupted, at, lost;
      }
      if service.refused == old(service.refused) + 1 && DistinctOffers(items) && (lost.Some? ==> DistinctSkus(items)) {
        KeysKept(left, initial, Touched(listing, items[..at]));
        TouchedAreListed(initial, listing, items[..at]);
        NeutralisedEnds(initial, left, service.subs, listing, items[..at], created, lost);
      }
      return NetNewFailed(items[served].offer), at, lost;
    }

    /** Restore the snapshots from the last applied operation to the first, skipping refused restores. An
        error that is not handled cuts it short. */
    method WalkBack(applied: seq<Operation>) returns (notRestored: seq<SubId>, cut: bool, ghost oks: seq<bool>)
      requires Targets(service.subs, applied)
      modifies service
      ensures |oks| == |applied| && (notRestored == [] <==> AllTrue(oks))
      ensures service.refused == old(service.refused) + |notRestored|
      ensures Logs(service, old(service.subs), old(service.history))
      ensures Failures(service, old(service.refused), old(service.torn))
      ensures service.subs.Keys == old(service.subs).Keys
      ensures !cut && service.torn == old(service.torn) ==>
                service.subs == RestoredAll(old(service.subs), applied, oks)
      ensures service.torn == old(service.torn) ==>
                && WalkedBack(service.subs, old(service.subs), applied, 0, oks)
                && forall h :: |old(service.history)| <= h < |service.history| ==>
                                 WalkedBack(service.history[h], old(service.subs), applied, 0, oks)
    {
      hide Patched, WalkedBack, RestoredAll, AllTrue, Padded;
      notRestored, cut, oks := [], false, [];
      WalkedNow(service.subs, applied, |applied|, []);
      NothingToRestore(service.subs);
      assert applied[|applied|..] == [];
      var j := |applied|;
      while j > 0 && !cut
        invariant 0 <= j <= |applied| && |oks| == |applied| - j
        invariant notRestored == [] <==> AllTrue(oks)
        invariant service.refused == old(service.refused) + |notRestored|
        invariant Logs(service, old(service.subs), old(service.history))
        invariant Failures(service, old(service.refused), old(service.torn))
        invariant service.subs.Keys == old(service.subs).Keys
        invariant service.torn == old(service.torn) ==>
                    && (!cut ==> service.subs == RestoredAll(old(service.subs), applied[j..], oks))
                    && WalkedBack(service.subs, old(service.subs), applied, j, oks)
        invariant service.torn == old(service.torn) ==>
                    forall h :: |old(service.history)| <= h < |service.history| ==>
                                  WalkedBack(service.history[h], old(service.subs), applied, j, oks)
        decreases j
      {
        ghost var walked, before := service.history, service.subs;
        var op := applied[j-1];
        var result := service.UpdateSubscription(
          op.sub, op.snapshot.enabled, op.snapshot.quantity, Some(op.snapshot.codes));
        if result.Failing? {
          notRestored := notRestored + [op.sub];
        }
        ghost var ok := !result.Failing?;
        RestoreOneMore(old(service.subs), applied, j, oks, ok);
        if service.torn == old(service.torn) {
          WalkedOn(before, service.subs, old(service.subs), applied, j, oks, ok, result.Cut?);
          forall h | |old(service.history)| <= h < |walked|
            ensures WalkedBack(service.history[h], old(service.subs), applied, j - 1, [ok] + oks)
          {
            WalkedFurther(walked[h], old(service.subs), applied, j, oks, ok);
          }
        }
        cut, j, oks := result.Cut?, j - 1, [ok] + oks;
      }
      PaddedAllTrue(j, oks);
      if service.torn == old(service.torn) {
        WalkedSoFar(service.subs, old(service.subs), applied, j, oks);
        forall h | |old(service.history)| <= h < |service.history|
          ensures WalkedBack(service.history[h], old(service.subs), applied, 0, Padded(j, oks))
        {
          WalkedSoFar(service.history[h], old(service.subs), applied, j, oks);
        }
      }
      if !cut {
        assert j == 0 && applied[0..] == applied;
        PaddedNothing(oks);
      }
      oks := Padded(j, oks);
    }

    /** _reverse_applied_operations: walk the applied operations back, then neutralise the net-new
        subscriptions. */
    method ReverseAppliedOperations(applied: seq<Operation>)
      returns (notRestored: seq<SubId>, cut: bool, ghost oks: seq<bool>)
      requires Targets(service.subs, applied)
      modifies service
      ensures |oks| == |applied| && (notRestored == [] <==> AllTrue(oks))
      ensures Logs(service, old(service.subs), old(service.history))
      ensures Failures(service, old(service.refused), old(service.torn))
      ensures service.refused >= old(service.refused) + |notRestored|
      ensures !cut && service.refused == old(service.refused) ==>
                forall id :: id in created.Values ==> id in service.subs && !service.subs[id].auto.enabled
      ensures !cut && service.torn == old(service.torn) ==>
                PartlyNeutralised(RestoredAll(old(service.subs), applied, oks), service.subs, created.Values)
      ensures service.torn == old(service.torn) ==>
                && SeenInReverse(service.subs, old(service.subs), applied, oks)
                && forall h :: |old(service.history)| <= h < |service.history| ==>
                                 SeenInReverse(service.history[h], old(service.subs), applied, oks)
    {
      hide Neutralised, PartlyNeutralised, RestoredAll, WalkedBack;
      notRestored, cut, oks := WalkBack(applied);
      ghost var walked := service.history;
      if cut {
        return;
      }
      cut := DisableNetNewSubscriptions(service, created);
      if service.torn == old(service.torn) {
        forall h | |old(service.history)| <= h < |walked|
          ensures WalkedBack(service.history[h], old(service.subs), applied, 0, oks)
        {
          assert service.history[h] == walked[h];
        }
      }
    }

    /** A state of the reversal: part of the operations walked back, then part of the net-new subscriptions
        neutralised. */
    ghost predicate SeenInReverse(state: Subs, subs: Subs, applied: seq<Operation>, oks: seq<bool>)
      requires Targets(subs, applied) && |oks| == |applied|
      reads this
    {
      || WalkedBack(state, subs, applied, 0, oks)
      || PartlyNeutralised(RestoredAll(subs, applied, oks), state, created.Values)
    }

    /** PATCH the operations in order up to the first call that does not succeed; `lost` says that a refused
        one took effect. */
    method ApplyOperations(operations: seq<Operation>) returns (applied: seq<Operation>, cut: bool, ghost lost: bool)
      requires Targets(service.subs, operations)
      modifies service
      ensures applied <= operations && (cut || lost ==> |applied| < |operations|) && !(cut && lost)
      ensures service.refused == old(service.refused) + if applied == operations || cut then 0 else 1
      ensures service.torn == old(service.torn) + if lost then 1 else 0
      ensures Logs(service, old(service.subs), old(service.history))
      ensures !cut ==> service.subs == TookEffect(old(service.subs), operations, |applied|, lost)
      ensures AppliedUpTo(service.subs, old(service.subs), operations)
      ensures forall h :: |old(service.history)| <= h < |service.history| ==>
                            AppliedUpTo(service.history[h], old(service.subs), operations)
    {
      hide Patched, AppliedAll, AppliedUpTo;
      applied, cut, lost := [], false, false;
      AppliedNone(service.subs, operations);
      for i := 0 to |operations|
        invariant applied == operations[..i] && service.subs == AppliedAll(old(service.subs), applied)
        invariant !lost && !cut && Logs(service, old(service.subs), old(service.history))
        invariant service.torn == old(service.torn) && service.refused == old(service.refused)
        invariant forall h :: |old(service.history)| <= h < |service.history| ==>
                                AppliedUpTo(service.history[h], old(service.subs), operations)
      {
        var op := operations[i];
        AppliedNow(old(service.subs), operations, i);
        AppliedNext(old(service.subs), operations, i);
        var result := service.UpdateSubscription(op.sub, op.enabled, op.quantity, CodesSent(op));
        if !result.Ok? {
          lost, cut := service.torn > old(service.torn), result.Cut?;
          return;
        }
        applied := applied + [op];
        assert applied == operations[..i+1];
      }
      assert operations[..|operations|] == operations;
      AppliedNow(old(service.subs), operations, |operations|);
    }

    /** UpdateRenewalSubscriptions: patch the plan's subscriptions in operation order; the first
        refusal walks the applied operations back and fails the order. */
    method UpdateRenewalSubscriptions()
      returns (step: Step, notRestored: seq<SubId>, ghost n: nat, ghost lost: bool, ghost oks: seq<bool>)
      requires Targets(service.subs, Operations(plan))
      modifies service
      ensures Logs(service, old(service.subs), old(service.history))
      ensures Failures(service, old(service.refused), old(service.torn))
      ensures n <= |Operations(plan)| && |oks| == n && (notRestored == [] <==> AllTrue(oks))
      ensures lost ==> n < |Operations(plan)|
      ensures step.Continue? ==>
                && service.subs == AppliedAll(old(service.subs), Operations(plan)) && notRestored == [] && !lost
                && service.refused == old(service.refused) && n == 0
                && AppliedUpTo(service.subs, old(service.subs), Operations(plan))
                && forall h :: |old(service.history)| <= h < |service.history| ==>
                                 AppliedUpTo(service.history[h], old(service.subs), Operations(plan))
      ensures || step.Continue? || step.Interrupted?
              || (n < |Operations(plan)| && step == UpdateFailed(Operations(plan)[n].sub))
      ensures service.refused >= old(service.refused) + |notRestored| + if step.UpdateFailed? then 1 else 0
      ensures step.Interrupted? && service.refused <= old(service.refused) + 1 ==> notRestored == []
      ensures service.refused <= old(service.refused) + 1 ==>
                service.torn == old(service.torn) + if lost then 1 else 0
      ensures step.UpdateFailed? && service.refused == old(service.refused) + 1 ==>
                forall id :: id in created.Values ==> id in service.subs && !service.subs[id].auto.enabled
      // no compensating call was lost
      ensures step.UpdateFailed? && service.torn == old(service.torn) + (if lost then 1 else 0) ==>
                PartlyNeutralised(
                  Walked(old(service.subs), Operations(plan), n, lost, 0, oks), service.subs, created.Values)
      ensures service.torn == old(service.torn) + (if lost then 1 else 0) ==>
                && Visited(service.subs, old(service.subs), Operations(plan), n, lost, oks, created.Values)
                && forall h :: |old(service.history)| <= h < |service.history| ==>
                                 Visited(service.history[h], old(service.subs), Operations(plan), n, lost, oks,
                                         created.Values)
    {
      hide Operations, AppliedAll, RestoredAll, PartlyNeutralised, AllTrue, AppliedUpTo, WalkedBack;
      ghost var start, ops := service.subs, Operations(plan);
      var operations := BuildOperations(plan);
      var applied, broken;
      applied, broken, lost := ApplyOperations(operations);
      ghost var forward, reached := service.history, service.subs;
      n := |applied|;
      assert applied == ops[..n] == ops[0..n];
      if |applied| == |operations| || broken {
        NothingToRestore(start);
        n, oks := 0, [];
        assert ops[..|ops|] == ops;
        return if broken then Interrupted else Continue, [], n, lost, oks;
      }
      notRestored, broken, oks := ReverseAppliedOperations(applied);
      if service.torn == old(service.torn) + if lost then 1 else 0 {
        forall h | |old(service.history)| <= h < |service.history|
          ensures Visited(service.history[h], start, ops, n, lost, oks, created.Values)
        {
          if h < |forward| {
            assert service.history[h] == forward[h];
          } else {
            RollbackIsVisited(start, ops, n, lost, oks, created.Values, service.history[h]);
          }
        }
        RollbackIsVisited(start, ops, n, lost, oks, created.Values, service.subs);
      }
      step := if broken then Interrupted else UpdateFailed(operations[|applied|].sub);
    }

    /** The mutating part of the at-anniversary pipeline: net-new first, then the plan. At most one
        refused call means that every compensating call that was made succeeded. `at` is the item or the
        operation the run failed at, `lost` what the failing call wrote if it took effect all the same, and
        `reached` says that the run came to the plan. */
    method ApplyPlan(items: seq<NetNewItem>)
      returns (step: Step, ghost target: Subs, ghost at: nat, ghost lost: Option<Listed>, ghost reached: bool)
      requires Lists(listing, service.subs) && Snapshotted(plan, service.subs)
      requires netNew == map[] && created == map[]
      modifies this, service
      ensures plan == old(plan) && listing == old(listing) && Logs(service, old(service.subs), old(service.history))
      ensures Failures(service, old(service.refused), old(service.torn))
      ensures step.NetNewFailed? ==>
                !reached && at < |items| && !Reuses(listing, items[at]) && step.offer == items[at].offer
      ensures step.UpdateFailed? ==> reached && at < |Operations(plan)| && step.sub == Operations(plan)[at].sub
      ensures step.Continue? ==> reached && service.subs == target && service.refused == old(service.refused)
      ensures step.Continue? || step.NetNewFailed? || step.UpdateFailed? || step.Interrupted?
      ensures step.NetNewFailed? || step.UpdateFailed? ==> service.refused > old(service.refused)
      // a lost write is one of the failing call
      ensures service.refused <= old(service.refused) + 1 ==>
                service.torn == old(service.torn) + if lost.Some? then 1 else 0
      ensures !reached && lost.Some? && DistinctSkus(items) ==>
                && at < |items| && WritesItem(old(service.subs), listing, items[at], lost.value)
                && lost.value.id !in Touched(listing, items[..at])
      ensures Separated(plan, listing, items) && reached ==>
                LostOfPlan(plan, old(service.subs), listing, items, at, lost)
      // the running aggregate never dips below what both ends satisfy
      ensures Separated(plan, listing, items) && TouchedWereIdle(old(service.subs), listing, items)
              && (!reached || (service.refused <= old(service.refused) + 1
                               && (lost.Some? ==> at < |Additive(plan)|))) ==>
                && AtOrAbove(service.subs, old(service.subs), target, reached)
                && forall h :: |old(service.history)| <= h < |service.history| ==>
                                 AtOrAbove(service.history[h], old(service.subs), target, reached)
      // a run that succeeds switches nothing off on the way
      ensures Separated(plan, listing, items) && DistinctSkus(items) && step.Continue?
              && NoneTouchedAbove(old(service.subs), listing, items) ==>
                forall h :: |old(service.history)| <= h < |service.history| ==>
                              AtOrAbove(service.history[h], old(service.subs), target, true)
      // the target is the plan's goal for every entry and serves every net-new item
      ensures Separated(plan, listing, items) && reached ==>
                TargetIs(plan, old(service.subs), target, items, netNew)
      ensures Separated(plan, listing, items) && reached && DistinctSkus(items) && Unplanned(plan, netNew) ==>
                AllOn(items, netNew, target)
      // and nothing else: all items served and then the whole plan applied, from the start on
      ensures reached && DistinctSkus(items) ==> IsRunTarget(plan, old(service.subs), target, listing, items)
      // a failure leaves the start, what was lost, and disabled subscriptions
      ensures Separated(plan, listing, items) && service.refused == old(service.refused) + 1
              && ((step.UpdateFailed? && Restorable(plan))
                  || (step.NetNewFailed? && (lost.Some? ==> DistinctSkus(items)))) ==>
                EndsWith(WithLost(old(service.subs), lost), service.subs,
                         Touched(listing, if reached then items else items[..at]))
      // and whatever happens, what is left has one of the modelled forms
      ensures DistinctSkus(items) && service.torn == old(service.torn)
              && service.refused <= old(service.refused) + 1 ==>
                LeftBy(plan, old(service.subs), service.subs, listing, items, created.Values)
      ensures forall offer :: offer in netNew ==> FromListing(old(service.subs), listing, items, netNew[offer])
      ensures forall id :: id in created.Values && id in old(service.subs) ==> id in Touched(listing, items)
    {
      hide Operations, Dominates, OnlyMoved, NetNewRecorded, EndsWith, Touched, TouchedWereIdle, WritesItem;
      hide WrittenBy, WithLost, NetNewServed, Goal, Separated, ServedTo, ServedThenOff, NoneTouchedAbove;
      hide LeftBy, FromListing, TargetIs, LostOfPlan, IsApplied, AllOn, Unplanned;
      ghost var initial, history0 := service.subs, service.history;
      step, at, lost := CreateNetNewSubscriptions(items);
      target, reached := service.subs, false;
      if TouchedWereIdle(initial, listing, items) {
        forall h | |history0| <= h < |service.history|
          ensures Dominates(service.history[h], initial)
        {
          ServingDominatesStart(listing, items, initial, service.history[h]);
        }
        ServingDominatesStart(listing, items, initial, service.subs);
      }
      if !step.Continue? {
        SeparatedOffers(plan, listing, items);
        NotReachedLeaves(plan, initial, service.subs, listing, items, created.Values);
        return;
      }
      if DistinctSkus(items) && NoneTouchedAbove(initial, listing, items) {
        forall h | |history0| <= h < |service.history|
          ensures Dominates(service.history[h], initial)
        {
          var i :| ServedTo(initial, service.history[h], listing, items, i);
          ServedDominatesStart(initial, service.history[h], listing, items, i);
        }
        ServedDominatesStart(initial, service.subs, listing, items, |items|);
      }
      reached := true;
      step, target, at, lost := UpdateFrom(items, initial);
      if Separated(plan, listing, items) && DistinctSkus(items) && Unplanned(plan, netNew) {
        TargetIsOn(plan, initial, target, items, netNew);
      }
    }

    /** The rest of the pipeline once the net-new items are served. */
    method UpdateFrom(ghost items: seq<NetNewItem>, ghost initial: Subs)
      returns (step: Step, ghost target: Subs, ghost at: nat, ghost lost: Option<Listed>)
      requires Lists(listing, initial) && Snapshotted(plan, initial)
      requires OnlyMoved(service.subs, initial, Touched(listing, items))
      requires NetNewRecorded(initial, service.subs, listing, items, created)
      requires NetNewServed(items, |items|, netNew, service.subs)
      modifies service
      ensures Logs(service, old(service.subs), old(service.history))
      ensures step.Continue? || step.UpdateFailed? || step.Interrupted?
      ensures Failures(service, old(service.refused), old(service.torn))
      ensures step.Continue? ==> service.subs == target && service.refused == old(service.refused) && lost.None?
      ensures step.UpdateFailed? ==>
                && service.refused > old(service.refused)
                && at < |Operations(plan)| && step.sub == Operations(plan)[at].sub
      ensures service.refused <= old(service.refused) + 1 ==>
                service.torn == old(service.torn) + if lost.Some? then 1 else 0
      ensures Separated(plan, listing, items) ==> LostOfPlan(plan, initial, listing, items, at, lost)
      ensures Separated(plan, listing, items) ==> TargetIs(plan, initial, target, items, netNew)
      ensures IsApplied(plan, old(service.subs), target)
      ensures Separated(plan, listing, items) && Dominates(old(service.subs), initial)
              && (step.Continue? || TouchedWereIdle(initial, listing, items))
              && service.refused <= old(service.refused) + 1 && (lost.Some? ==> at < |Additive(plan)|) ==>
                && AtOrAbove(service.subs, initial, target, true)
                && forall h :: |old(service.history)| <= h < |service.history| ==>
                                 AtOrAbove(service.history[h], initial, target, true)
      ensures Separated(plan, listing, items) && Restorable(plan)
              && step.UpdateFailed? && service.refused == old(service.refused) + 1 ==>
                EndsWith(WithLost(initial, lost), service.subs, Touched(listing, items))
      ensures ServedTo(initial, old(service.subs), listing, items, |items|)
              && service.torn == old(service.torn) && service.refused <= old(service.refused) + 1 ==>
                LeftBy(plan, initial, service.subs, listing, items, created.Values)
    {
      hide Operations, AppliedAll, Visited, Dominates, PartlyNeutralised, Walked, Additive, AllTrue;
      hide Touched, TouchedWereIdle, NetNewRecorded, EndsWith, Goal, Applied, NetNewServed, ServedTo, LeftBy;
      hide AppliedUpTo, AtOrAbove, Separated, WithLost, OnlyMoved, Unplanned, TargetIs, LostOfPlan, IsApplied;
      hide Logs, Failures, Restorable;
      ghost var middle, ids := service.subs, created.Values;
      KeysKept(middle, initial, Touched(listing, items));
      OperationsTarget(plan, initial);
      StillTargets(plan, initial, middle);
      ghost var oks, wasLost;
      var notRestored;
      step, notRestored, at, wasLost, oks := UpdateRenewalSubscriptions();
      target := AppliedAll(middle, Operations(plan));
      AppliedNowIs(plan, middle);
      lost := if wasLost then Some(WrittenBy(initial, Operations(plan)[at])) else None;
      if ServedTo(initial, middle, listing, items, |items|)
         && service.torn == old(service.torn) && service.refused <= old(service.refused) + 1 {
        ReachedLeaves(plan, initial, middle, service.subs, listing, items, at, oks, ids);
      }
      if Separated(plan, listing, items) {
        StartOfUpdate(plan, listing, items, initial, middle);
        LostIsOfPlan(plan, initial, listing, items, at, lost);
        TargetFacts(plan, initial, middle, listing, items, netNew);
        if Dominates(middle, initial) && (step.Continue? || TouchedWereIdle(initial, listing, items))
           && service.refused <= old(service.refused) + 1 && (lost.Some? ==> at < |Additive(plan)|) {
          forall h | |old(service.history)| <= h < |service.history|
            ensures AtOrAbove(service.history[h], initial, target, true)
          {
            SeenAtOrAbove(plan, initial, middle, at, wasLost, oks, ids, service.history[h], listing, items, created);
          }
          SeenAtOrAbove(plan, initial, middle, at, wasLost, oks, ids, service.subs, listing, items, created);
        }
        if Restorable(plan) && step.UpdateFailed? && service.refused == old(service.refused) + 1 {
          TouchedAreListed(initial, listing, items);
          FailedUpdateEnds(plan, initial, middle, service.subs, listing, items, created, at, wasLost, oks);
        }
      }
    }
  }

  /******* Where the floor is lost *******/

  lemma {:induction false} SumOfPart(subs: Subs, part: set<SubId>, whole: set<SubId>, counted: Offer -> bool)
    requires part <= whole <= subs.Keys
    ensures SumOver(subs, part, counted) <= SumOver(subs, whole, counted)
  {
    hide SumOver;
    assert part + (whole - part) == whole;
    SumParts(subs, part, whole - part, counted);
  }

  /** What a clean failure leaves when it neutralises `off` and had created nothing. */
  ghost function SwitchedOff(initial: Subs, off: set<SubId>): Subs {
    map id | id in initial :: if id in off then Neutralised(initial[id]) else initial[id]
  }

  /** The run makes a call at position `at` that can be refused: for an item that is not reused as it is, or
      for the plan once all items are served. */
  predicate CanFail(plan: seq<PlanEntry>, listing: seq<Listed>, items: seq<NetNewItem>, at: int) {
    || (0 <= at < |items| && !Reuses(listing, items[at]))
    || (at == |items| && Operations(plan) != [])
  }

  /** The last of those positions, if there is one. */
  function LastCall(plan: seq<PlanEntry>, listing: seq<Listed>, items: seq<NetNewItem>): (last: Option<nat>)
    ensures last.Some? ==> last.value <= |items|
  {
    if Operations(plan) != [] then Some(|items|) else LastServed(listing, items)
  }

  function LastServed(listing: seq<Listed>, items: seq<NetNewItem>): (last: Option<nat>)
    ensures last.Some? ==> last.value < |items|
  {
    if items == [] then None
    else if !Reuses(listing, items[|items|-1]) then Some(|items| - 1)
    else LastServed(listing, items[..|items|-1])
  }

  lemma {:induction false} LastServedIsLast(listing: seq<Listed>, items: seq<NetNewItem>)
    ensures forall at :: 0 <= at < |items| && !Reuses(listing, items[at]) ==>
                           LastServed(listing, items).Some? && at <= LastServed(listing, items).value
    ensures LastServed(listing, items).Some? ==> !Reuses(listing, items[LastServed(listing, items).value])
  {
    if items != [] && Reuses(listing, items[|items|-1]) {
      var front := items[..|items|-1];
      LastServedIsLast(listing, front);
      forall at | 0 <= at < |items| && !Reuses(listing, items[at])
        ensures LastServed(listing, items).Some? && at <= LastServed(listing, items).value
      {
        assert front[at] == items[at];
      }
    }
  }

  lemma LastCallIsLast(plan: seq<PlanEntry>, listing: seq<Listed>, items: seq<NetNewItem>)
    ensures forall at :: CanFail(plan, listing, items, at) ==>
                           LastCall(plan, listing, items).Some? && at <= LastCall(plan, listing, items).value
    ensures LastCall(plan, listing, items).Some? ==>
              CanFail(plan, listing, items, LastCall(plan, listing, items).value)
  {
    LastServedIsLast(listing, items);
  }

  /** No clean failure, at whichever call, leaves the aggregate below the smaller of start and target. */
  ghost predicate CleanFailuresAtFloor(
    plan: seq<PlanEntry>, initial: Subs, listing: seq<Listed>, items: seq<NetNewItem>, target: int,
    counted: Offer -> bool)
  {
    forall at, end :: 0 <= at <= |items| && CanFail(plan, listing, items, at)
                      && EndsWith(initial, end, Touched(listing, items[..at])) ==>
                        AtFloor(Aggregate(end, counted), Aggregate(initial, counted), target)
  }

  /** What the start renewed and a failure of the last call switches off. */
  ghost function Gone(
    plan: seq<PlanEntry>, initial: Subs, listing: seq<Listed>, items: seq<NetNewItem>, counted: Offer -> bool): nat
    requires Lists(listing, initial)
  {
    var last := LastCall(plan, listing, items);
    if last.None? then 0 else
    TouchedAreListed(initial, listing, items[..last.value]);
    SumOver(initial, Touched(listing, items[..last.value]), counted)
  }

  /** That is so if and only if the scheduled subscriptions patched before the last call renewed nothing at
      the start, or no more than what the start exceeds the target by. */
  lemma CleanFailuresAtFloorIff(
    plan: seq<PlanEntry>, initial: Subs, listing: seq<Listed>, items: seq<NetNewItem>, target: int,
    counted: Offer -> bool)
    requires Lists(listing, initial)
    ensures var gone := Gone(plan, initial, listing, items, counted);
            CleanFailuresAtFloor(plan, initial, listing, items, target, counted) <==>
            gone == 0 || gone <= Aggregate(initial, counted) - target
  {
    hide SumOver, Aggregate, Touched, EndsWith, Lists, CanFail, LastCall;
    var last, gone := LastCall(plan, listing, items), Gone(plan, initial, listing, items, counted);
    LastCallIsLast(plan, listing, items);
    if last.Some? {
      var off := Touched(listing, items[..last.value]);
      TouchedAreListed(initial, listing, items[..last.value]);
      SwitchedOffEnds(initial, off);
      EndAggregate(initial, SwitchedOff(initial, off), off, counted);
    }
    forall at, end | 0 <= at <= |items| && CanFail(plan, listing, items, at)
                     && EndsWith(initial, end, Touched(listing, items[..at]))
      ensures Aggregate(end, counted) >= Aggregate(initial, counted) - gone
      ensures Aggregate(end, counted) <= Aggregate(initial, counted)
    {
      FailureBefore(initial, end, listing, items, at, last.value, counted);
    }
  }

  lemma FailureBefore(
    initial: Subs, end: Subs, listing: seq<Listed>, items: seq<NetNewItem>, at: nat, last: nat,
    counted: Offer -> bool)
    requires Lists(listing, initial) && at <= last <= |items|
    requires EndsWith(initial, end, Touched(listing, items[..at]))
    ensures Touched(listing, items[..last]) <= initial.Keys
    ensures Aggregate(end, counted) <= Aggregate(initial, counted)
    ensures Aggregate(end, counted) >=
            Aggregate(initial, counted) - SumOver(initial, Touched(listing, items[..last]), counted)
  {
    hide SumOver, Aggregate, Touched, EndsWith, Lists;
    TouchedAreListed(initial, listing, items[..at]);
    TouchedAreListed(initial, listing, items[..last]);
    assert items[..last][..at] == items[..at];
    TouchedOfPrefix(listing, items[..last], at);
    SumOfPart(initial, Touched(listing, items[..at]), Touched(listing, items[..last]), counted);
    EndAggregate(initial, end, Touched(listing, items[..at]), counted);
  }

  lemma {:induction false} SomeFresh(taken: set<SubId>) returns (id: SubId)
    ensures forall other :: other in taken ==> other < id
  {
    if taken == {} {
      return 0;
    }
    var first :| first in taken;
    id := SomeFresh(taken - {first});
    assert forall other :: other in taken ==> other == first || other in taken - {first};
    id := if first < id then id else first + 1;
  }

  /** Any number of items can be served, from any start. */
  lemma {:induction false} SomeServed(initial: Subs, listing: seq<Listed>, items: seq<NetNewItem>, i: nat)
    returns (state: Subs)
    requires Lists(listing, initial) && DistinctSkus(items) && i <= |items|
    ensures ServedTo(initial, state, listing, items, i)
  {
    hide FindScheduled, Patched, Lists, DistinctSkus, CreatedExactly;
    if i == 0 {
      NothingServed(initial, listing, items);
      return initial;
    }
    var before := SomeServed(initial, listing, items, i - 1);
    var item := items[i-1];
    var found := FindScheduled(listing, item.offer.sku);
    var id: SubId;
    if found.None? {
      id := SomeFresh(before.Keys);
      state := before[id := NewScheduled(item.offer, item.quantity)];
    } else {
      ScheduledIsThere(initial, listing, item.offer.sku);
      id := found.value.id;
      state := if Reuses(listing, item) then before
      else before[id := Patched(before[id], true, Some(item.quantity), None)];
    }
    ServedNext(initial, before, state, listing, items, i - 1, id);
  }

  /** Also without any failure: every state of the net-new step dominates the start if and only if no touched
      subscription renewed more than its item asks. */
  lemma ServingNeverDipsIff(initial: Subs, listing: seq<Listed>, items: seq<NetNewItem>)
    requires Lists(listing, initial) && DistinctSkus(items)
    ensures (forall i, state :: ServedTo(initial, state, listing, items, i) ==> Dominates(state, initial)) <==>
            NoneTouchedAbove(initial, listing, items)
  {
    hide ServedTo, Dominates;
    if NoneTouchedAbove(initial, listing, items) {
      forall i, state | ServedTo(initial, state, listing, items, i)
        ensures Dominates(state, initial)
      {
        ServedDominatesStart(initial, state, listing, items, i);
      }
    } else {
      var state := SomeServed(initial, listing, items, |items|);
      ServedAboveDips(initial, state, listing, items);
    }
  }

  lemma ServedAboveDips(initial: Subs, state: Subs, listing: seq<Listed>, items: seq<NetNewItem>)
    requires ServedTo(initial, state, listing, items, |items|) && !NoneTouchedAbove(initial, listing, items)
    ensures !Dominates(state, initial)
  {
    var k, id :| 0 <= k < |items| && id in initial && TouchedBy(listing, items[k], id)
      && Renewing(initial[id]) > items[k].quantity;
    assert state[id] == Patched(initial[id], true, Some(items[k].quantity), None);
  }

  lemma SwitchedOffEnds(initial: Subs, off: set<SubId>)
    requires off <= initial.Keys
    ensures EndsWith(initial, SwitchedOff(initial, off), off)
  {
  }

  function Enabled(sku: Sku, quantity: nat): Subscription {
    Subscription(Offer(sku, 1), Active, quantity, None, AutoRenewal(true, Some(quantity), []))
  }

  function Renew(id: SubId, sub: Subscription, quantity: nat): PlanEntry {
    PlanEntry(id, sub.offer, true, quantity, [], SnapshotOf(sub))
  }

  lemma TwoAggregate(a: Subscription, b: Subscription, counted: Offer -> bool)
    ensures Aggregate(map[1 := a, 2 := b], counted) == Contribution(a, counted) + Contribution(b, counted)
  {
    hide Aggregate, Contribution;
    NothingRenews(counted);
    AggregateAfterWrite(map[], 1, a, counted);
    AggregateAfterWrite(map[][1 := a], 2, b, counted);
    assert map[1 := a, 2 := b] == map[][1 := a][2 := b];
  }

  /** A clean failure below both ends: a scheduled subscription renews 10 and is to renew 15, another
      subscription renews 10 throughout. Once the first is patched, a refusal of the next item disables it,
      and the customer is left at 10, below the 20 of the start and the 25 these two renew in the target. */
  lemma CleanFailureDips(counted: Offer -> bool)
    requires counted(Offer(1, 1)) && counted(Offer(2, 1))
    ensures var scheduled, other := Enabled(1, 10).(status := Scheduled), Enabled(2, 10);
            var initial, listing := map[1 := scheduled, 2 := other], [Listed(1, scheduled), Listed(2, other)];
            var items := [NetNewItem(Offer(1, 1), 15), NetNewItem(Offer(3, 1), 1)];
            && Lists(listing, initial) && Touched(listing, items[..1]) == {1} && CanFail([], listing, items, 1)
            && EndsWith(initial, SwitchedOff(initial, {1}), Touched(listing, items[..1]))
            && Aggregate(SwitchedOff(initial, {1}), counted) == 10
            && Aggregate(initial, counted) == 20
            && Aggregate(initial[1 := Patched(scheduled, true, Some(15), None)], counted) == 25
  {
    hide Aggregate;
    var scheduled, other := Enabled(1, 10).(status := Scheduled), Enabled(2, 10);
    var initial, listing := map[1 := scheduled, 2 := other], [Listed(1, scheduled), Listed(2, other)];
    var items := [NetNewItem(Offer(1, 1), 15), NetNewItem(Offer(3, 1), 1)];
    assert listing[0].id == 1 && listing[1].id == 2;
    assert items[..1][..0] == [] && items[..1][0] == items[0];
    assert Touched(listing, items[..1]) == {1};
    FindScheduledIsListed(listing, 3);
    assert FindScheduled(listing, 3) == None;
    TwoAggregate(scheduled, other, counted);
    TwoAggregate(Neutralised(scheduled), other, counted);
    TwoAggregate(Patched(scheduled, true, Some(15), None), other, counted);
    assert SwitchedOff(initial, {1}) == map[1 := Neutralised(scheduled), 2 := other];
    assert initial[1 := Patched(scheduled, true, Some(15), None)] ==
           map[1 := Patched(scheduled, true, Some(15), None), 2 := other];
  }

  /** A successful run that dips: a scheduled subscription renews 10 and its item asks for 4, another goes from
      10 to 16 afterwards. The customer is at 20, at 14 after the net-new step, and at 20 at the target. */
  lemma SuccessfulRunDips(counted: Offer -> bool)
    requires counted(Offer(1, 1)) && counted(Offer(2, 1))
    ensures var scheduled, other := Enabled(1, 10).(status := Scheduled), Enabled(2, 10);
            var initial, listing := map[1 := scheduled, 2 := other], [Listed(1, scheduled), Listed(2, other)];
            var items := [NetNewItem(Offer(1, 1), 4)];
            var served := initial[1 := Patched(scheduled, true, Some(4), None)];
            && Lists(listing, initial) && ServedTo(initial, served, listing, items, 1)
            && Aggregate(initial, counted) == 20 && Aggregate(served, counted) == 14
            && Aggregate(served[2 := Goal(Renew(2, other, 16), other)], counted) == 20
  {
    hide Aggregate, ServedTo;
    var scheduled, other := Enabled(1, 10).(status := Scheduled), Enabled(2, 10);
    var initial, listing := map[1 := scheduled, 2 := other], [Listed(1, scheduled), Listed(2, other)];
    var items := [NetNewItem(Offer(1, 1), 4)];
    var lowered, raised := Patched(scheduled, true, Some(4), None), Goal(Renew(2, other, 16), other);
    assert listing[0].id == 1 && listing[1].id == 2;
    NothingServed(initial, listing, items);
    ServedNext(initial, initial, initial[1 := lowered], listing, items, 0, 1);
    TwoAggregate(scheduled, other, counted);
    TwoAggregate(lowered, other, counted);
    TwoAggregate(lowered, raised, counted);
    assert initial[1 := lowered] == map[1 := lowered, 2 := other];
    assert initial[1 := lowered][2 := raised] == map[1 := lowered, 2 := raised];
  }

  /** A lost answer below both ends. The plan raises one subscription from 10 to 20 and lowers another from
      10 to 2; when the second PATCH is applied but reported as failed, the rollback undoes only the first,
      and the customer ends at 12: below the 20 of the start and the 22 of the target. */
  lemma TornPatchDips(counted: Offer -> bool)
    requires counted(Offer(1, 1)) && counted(Offer(2, 1))
    ensures var subs := map[1 := Enabled(1, 10), 2 := Enabled(2, 10)];
            var ops := Operations([Renew(1, Enabled(1, 10), 20), Renew(2, Enabled(2, 10), 2)]);
            && Targets(subs, ops) && |ops| == 2
            && Aggregate(TornState(subs, ops, 1, 0, [true]), counted) == 12
            && Aggregate(subs, counted) == 20 && Aggregate(AppliedAll(subs, ops), counted) == 22
  {
    hide Operations, Aggregate, TornState, AppliedAll, Bucket, Classify;
    var subs := map[1 := Enabled(1, 10), 2 := Enabled(2, 10)];
    var plan := [Renew(1, Enabled(1, 10), 20), Renew(2, Enabled(2, 10), 2)];
    TwoOperations();
    TornEnd(plan, subs, 1, [true]);
    var raised, lowered := Enabled(1, 20).(current := 10), Enabled(2, 2).(current := 10);
    assert Applied(subs, Operations(plan)[1]) == map[1 := Enabled(1, 10), 2 := lowered];
    AppliedTwice(subs, Operations(plan));
    assert AppliedAll(subs, Operations(plan)) == map[1 := raised, 2 := lowered];
    TwoAggregate(Enabled(1, 10), Enabled(2, 10), counted);
    TwoAggregate(Enabled(1, 10), lowered, counted);
    TwoAggregate(raised, lowered, counted);
  }

  lemma AppliedTwice(subs: Subs, ops: seq<Operation>)
    requires Targets(subs, ops) && |ops| == 2
    ensures AppliedAll(subs, ops) == Applied(Applied(subs, ops[0]), ops[1])
  {
    AppliedNone(subs, ops);
    AppliedNext(subs, ops, 0);
    AppliedNext(subs, ops, 1);
    assert ops[..2] == ops;
  }

  /** The plan of TornPatchDips needs one increase and one decrease, in that order. */
  lemma TwoOperations()
    ensures var up, down := Renew(1, Enabled(1, 10), 20), Renew(2, Enabled(2, 10), 2);
            Operations([up, down]) == [
              Operation(1, true, Some(20), [], SnapshotOf(Enabled(1, 10))),
              Operation(2, true, Some(2), [], SnapshotOf(Enabled(2, 10)))]
  {
    var up, down := Renew(1, Enabled(1, 10), 20), Renew(2, Enabled(2, 10), 2);
    assert [up, down][..1] == [up] && [up][..0] == [];
    assert Classify(up).kind == Increase && Classify(down).kind == Decrease;
    assert Bucket([up], Increase) == [Classify(up).operation];
    assert Bucket([up], Decrease) == Bucket([up], Enable) == Bucket([up], Disable) == [];
  }
}
