/** Fulfillment of a renew-now order: preview and submit one RENEWAL order, and only once it is
    complete return what lapsing subscriptions had already renewed, normalise the renewed ones and
    disable the lapsing ones. Attempts are repeated over the state the previous ones left. */
module RenewNow {
  import opened AdobeOrders
  import opened RenewalPlan
  import opened Subscriptions

  /******* What an attempt has to submit *******/

  /** _is_already_renewed */
  predicate AlreadyRenewed(entry: PlanEntry) {
    entry.quantity == 0 && entry.snapshot.renewed.Some?
  }

  predicate IsRenewing(entry: PlanEntry) {
    entry.renew && !AlreadyRenewed(entry)
  }

  predicate HasWork(plan: seq<PlanEntry>) {
    exists i :: 0 <= i < |plan| && IsRenewing(plan[i])
  }

  predicate AsksQuantity(entry: PayloadEntry) {
    entry.renew && entry.quantity.Some? && entry.quantity.value > 0
  }

  ghost predicate SomeAskQuantity(payload: seq<PayloadEntry>) {
    exists i :: 0 <= i < |payload| && AsksQuantity(payload[i])
  }

  /** Adobe may change what a subscription reports, not its offer nor its auto-renewal preference. */
  predicate SamePreferences(subs: Subs, subs': Subs) {
    subs.Keys == subs'.Keys
    && forall id :: id in subs ==> subs'[id].offer == subs[id].offer && subs'[id].auto == subs[id].auto
  }

  function AllRenewed(subs: Subs): Subs {
    map id | id in subs :: subs[id].(renewed := Some(0))
  }

  /** Every attempt, whatever Adobe reports by then, sees a RENEWAL order to wait for exactly when
      some entry asks for a positive quantity. Entries without one turn into "already renewed" as
      soon as this order's own renewal shows, and the wait is skipped. */
  lemma WorkIsPermanentIff(payload: seq<PayloadEntry>, subs: Subs)
    requires Known(payload, subs)
    ensures (forall subs' :: SamePreferences(subs, subs') ==> HasWork(Resolve(payload, subs')))
            <==> SomeAskQuantity(payload)
  {
    if i :| 0 <= i < |payload| && AsksQuantity(payload[i]) {
      forall subs' | SamePreferences(subs, subs')
        ensures HasWork(Resolve(payload, subs'))
      {
        assert IsRenewing(Resolve(payload, subs')[i]);
      }
    } else {
      assert SamePreferences(subs, AllRenewed(subs));
      forall i | 0 <= i < |payload|
        ensures !IsRenewing(Resolve(payload, AllRenewed(subs))[i])
      {
        assert !AsksQuantity(payload[i]);
      }
    }
  }

  /******* Orders at Adobe *******/

  predicate SkuReturning(returned: seq<ReturnOrder>, mpt: MptId, sku: Sku) {
    exists i :: 0 <= i < |returned| && IsOwn(returned[i], mpt, sku)
  }

  ghost predicate SkuReturnComplete(returned: seq<ReturnOrder>, mpt: MptId, sku: Sku) {
    exists i :: 0 <= i < |returned| && IsOwn(returned[i], mpt, sku) && returned[i].status.Complete?
  }

  /** No SKU has two live returns placed by this MPT order. */
  ghost predicate ReturnedOnce(returned: seq<ReturnOrder>, mpt: MptId) {
    forall i, j, sku :: 0 <= i < j < |returned| ==> !(IsOwn(returned[i], mpt, sku) && IsOwn(returned[j], mpt, sku))
  }

  lemma ReturnsMoveKeeps(before: seq<ReturnOrder>, after: seq<ReturnOrder>, mpt: MptId)
    requires ReturnsMove(before, after, mpt)
    ensures ReturnedOnce(before, mpt) ==> ReturnedOnce(after, mpt)
    ensures forall sku :: SkuReturning(after, mpt, sku) ==> SkuReturning(before, mpt, sku)
    ensures forall sku :: SkuReturnComplete(before, mpt, sku) ==> SkuReturnComplete(after, mpt, sku)
  {
  }

  lemma ReturnPlacedKeeps(before: seq<ReturnOrder>, r: ReturnOrder, mpt: MptId)
    ensures ReturnedOnce(before, mpt) && !SkuReturning(before, mpt, r.sku) ==> ReturnedOnce(before + [r], mpt)
    ensures forall sku :: SkuReturning(before + [r], mpt, sku) ==> SkuReturning(before, mpt, sku) || sku == r.sku
    ensures forall sku :: SkuReturnComplete(before, mpt, sku) ==> SkuReturnComplete(before + [r], mpt, sku)
    ensures r.mpt == mpt && r.status.Complete? ==> SkuReturnComplete(before + [r], mpt, r.sku)
  {
    var after := before + [r];
    assert after[|before|] == r;
    forall sku | SkuReturnComplete(before, mpt, sku)
      ensures SkuReturnComplete(after, mpt, sku)
    {
      var i :| 0 <= i < |before| && IsOwn(before[i], mpt, sku) && before[i].status.Complete?;
      assert after[i] == before[i];
    }
  }

  /** No return this MPT order placed is open. */
  predicate NoReturnOpen(returned: seq<ReturnOrder>, mpt: MptId) {
    forall i :: 0 <= i < |returned| && returned[i].mpt == mpt ==> !returned[i].status.Open?
  }

  predicate IsReported(plan: seq<PlanEntry>, sku: Sku) {
    exists i :: 0 <= i < |plan| && !plan[i].renew && plan[i].snapshot.renewed.Some? && plan[i].offer.sku == sku
  }

  /** Every open own return is for a lapsing entry that Adobe still reported as renewed. */
  predicate OpenAreReported(plan: seq<PlanEntry>, returned: seq<ReturnOrder>, mpt: MptId) {
    forall i :: 0 <= i < |returned| && returned[i].mpt == mpt && returned[i].status.Open? ==>
                  IsReported(plan, returned[i].sku)
  }

  /** Once every lapsing entry reported as renewed has a complete return, no own return is open if and only
      if the open ones are for such entries: the step waits for no other. */
  lemma NoReturnOpenIff(plan: seq<PlanEntry>, returned: seq<ReturnOrder>, mpt: MptId)
    requires ReturnedOnce(returned, mpt)
    requires forall i :: 0 <= i < |plan| && !plan[i].renew && plan[i].snapshot.renewed.Some? ==>
                           SkuReturnComplete(returned, mpt, plan[i].offer.sku)
    ensures NoReturnOpen(returned, mpt) <==> OpenAreReported(plan, returned, mpt)
  {
  }

  /** A plan that leaves nothing to do. */
  ghost predicate IsIdle(plan: seq<PlanEntry>) {
    !HasWork(plan) && forall i :: 0 <= i < |plan| ==> !LapsingRenewed(plan[i]) && !LapsingEnabled(plan[i])
  }

  /** First own return seen for the SKU. */
  function FirstReturn(seen: seq<ReturnOrder>, mpt: MptId, sku: Sku): Option<ReturnOrder> {
    if seen == [] then None
    else if IsOwn(seen[0], mpt, sku) then Some(seen[0])
    else FirstReturn(seen[1..], mpt, sku)
  }

  lemma {:induction false} FirstReturnIsThere(seen: seq<ReturnOrder>, mpt: MptId, sku: Sku)
    ensures FirstReturn(seen, mpt, sku).Some? <==> SkuReturning(seen, mpt, sku)
    ensures FirstReturn(seen, mpt, sku).Some? && FirstReturn(seen, mpt, sku).value.status.Complete? ==>
              SkuReturnComplete(seen, mpt, sku)
  {
    if seen != [] {
      FirstReturnIsThere(seen[1..], mpt, sku);
      assert forall i :: 1 <= i < |seen| ==> seen[i] == seen[1..][i-1];
      assert forall i :: 0 <= i < |seen| - 1 ==> seen[1..][i] == seen[i+1];
    }
  }

  /** The return found for the SKU is complete. */
  ghost predicate SeenComplete(seen: seq<ReturnOrder>, mpt: MptId, sku: Sku) {
    FirstReturn(seen, mpt, sku).Some? && FirstReturn(seen, mpt, sku).value.status.Complete?
  }

  /** A completed RENEWAL order, not this one, with a line of the subscription. */
  predicate IsPrevious(p: Purchase, mpt: MptId, sub: SubId) {
    p.kind == Renewal && p.status.Complete? && p.ext != Plain(mpt) && LineOf(p.lines, sub).Some?
  }

  /** Order `i` is a complete RENEWAL order of another MPT order with a line of the subscription: the newest
      such order among the first `n`, the first listed among equally new ones. */
  ghost predicate IsNewestAmong(purchases: seq<Purchase>, n: nat, i: int, mpt: MptId, sub: SubId)
    requires n <= |purchases|
  {
    && 0 <= i < n && purchases[i].kind == Renewal && purchases[i].status.Complete?
    && purchases[i].ext != Plain(mpt) && LineOf(purchases[i].lines, sub).Some?
    && forall j :: 0 <= j < n && purchases[j].kind == Renewal && purchases[j].status.Complete?
                   && purchases[j].ext != Plain(mpt) && LineOf(purchases[j].lines, sub).Some? ==>
                     || purchases[j].created < purchases[i].created
                     || (purchases[j].created == purchases[i].created && i <= j)
  }

  /** No RENEWAL order of another MPT order with a line of the subscription is complete. */
  ghost predicate NonePreviousAmong(purchases: seq<Purchase>, n: nat, mpt: MptId, sub: SubId)
    requires n <= |purchases|
  {
    forall i :: 0 <= i < n ==>
                  !(purchases[i].kind == Renewal && purchases[i].status.Complete?
                    && purchases[i].ext != Plain(mpt) && LineOf(purchases[i].lines, sub).Some?)
  }

  ghost predicate IsNewestPrevious(purchases: seq<Purchase>, i: int, mpt: MptId, sub: SubId) {
    IsNewestAmong(purchases, |purchases|, i, mpt, sub)
  }

  /** `r` returns the subscription's line of the order, in full. */
  ghost predicate ReturnsLine(r: ReturnOrder, order: Purchase, sub: SubId) {
    var line := LineOf(order.lines, sub);
    line.Some? && r.reference == order.id && r.sku == line.value.sku && r.quantity == line.value.quantity
  }

  /** The return is for a lapsing entry Adobe showed as renewed: in full, for the subscription's line in its
      newest previous order. */
  ghost predicate PlacedFor(r: ReturnOrder, plan: seq<PlanEntry>, renewals: seq<Purchase>, mpt: MptId) {
    exists k, i :: 0 <= k < |plan| && !plan[k].renew && plan[k].snapshot.renewed.Some?
                   && IsNewestPrevious(renewals, i, mpt, plan[k].sub) && ReturnsLine(r, renewals[i], plan[k].sub)
  }

  /** Returns stay as they are but for their status, and the new ones of this MPT order are for such entries. */
  ghost predicate OwnSince(
    before: seq<ReturnOrder>, after: seq<ReturnOrder>, plan: seq<PlanEntry>, renewals: seq<Purchase>, mpt: MptId)
  {
    && |before| <= |after|
    && (forall i :: 0 <= i < |before| ==> after[i].(status := Open) == before[i].(status := Open))
    && (forall i :: |before| <= i < |after| && after[i].mpt == mpt ==> PlacedFor(after[i], plan, renewals, mpt))
  }

  lemma OwnSinceMoved(
    before: seq<ReturnOrder>, after: seq<ReturnOrder>, plan: seq<PlanEntry>, renewals: seq<Purchase>, mpt: MptId)
    requires ReturnsMove(before, after, mpt)
    ensures OwnSince(before, after, plan, renewals, mpt)
  {
  }

  lemma OwnSinceNothing(
    returned: seq<ReturnOrder>, plan: seq<PlanEntry>, renewals: seq<Purchase>, mpt: MptId)
    ensures OwnSince(returned, returned, plan, renewals, mpt)
  {
  }

  lemma OwnSincePlaced(
    before: seq<ReturnOrder>, after: seq<ReturnOrder>, r: ReturnOrder, plan: seq<PlanEntry>,
    renewals: seq<Purchase>, mpt: MptId)
    requires OwnSince(before, after, plan, renewals, mpt) && PlacedFor(r, plan, renewals, mpt)
    ensures OwnSince(before, after + [r], plan, renewals, mpt)
  {
    hide PlacedFor;
  }

  lemma OwnSinceTwice(
    first: seq<ReturnOrder>, second: seq<ReturnOrder>, third: seq<ReturnOrder>, plan: seq<PlanEntry>,
    renewals: seq<Purchase>, mpt: MptId)
    requires OwnSince(first, second, plan, renewals, mpt) && OwnSince(second, third, plan, renewals, mpt)
    ensures OwnSince(first, third, plan, renewals, mpt)
  {
    hide LineOf;
    forall i | |first| <= i < |second| && third[i].mpt == mpt
      ensures PlacedFor(third[i], plan, renewals, mpt)
    {
      var k, j :| 0 <= k < |plan| && !plan[k].renew && plan[k].snapshot.renewed.Some?
                  && IsNewestPrevious(renewals, j, mpt, plan[k].sub)
                  && ReturnsLine(second[i], renewals[j], plan[k].sub);
      assert ReturnsLine(third[i], renewals[j], plan[k].sub);
    }
  }

  lemma IsPlacedFor(
    r: ReturnOrder, plan: seq<PlanEntry>, k: nat, renewals: seq<Purchase>, i: nat, mpt: MptId)
    requires k < |plan| && !plan[k].renew && plan[k].snapshot.renewed.Some?
    requires IsNewestPrevious(renewals, i, mpt, plan[k].sub) && ReturnsLine(r, renewals[i], plan[k].sub)
    ensures PlacedFor(r, plan, renewals, mpt)
  {
  }

  /** _find_previous_renewal_line */
  method FindPrevious(purchases: seq<Purchase>, mpt: MptId, sub: SubId) returns (found: Option<nat>)
    ensures found.None? ==> NonePreviousAmong(purchases, |purchases|, mpt, sub)
    ensures found.Some? ==> IsNewestPrevious(purchases, found.value, mpt, sub)
  {
    hide LineOf;
    found := None;
    for k := 0 to |purchases|
      invariant found.None? ==> NonePreviousAmong(purchases, k, mpt, sub)
      invariant found.Some? ==> IsNewestAmong(purchases, k, found.value, mpt, sub)
    {
      if IsPrevious(purchases[k], mpt, sub) && (found.None? || purchases[k].created > purchases[found.value].created) {
        found := Some(k);
      }
    }
  }

  /** The returned order is a complete RENEWAL order of another MPT order. */
  ghost predicate RefersTo(purchases: seq<Purchase>, order: OrderId, mpt: MptId) {
    exists j :: 0 <= j < |purchases| && purchases[j].id == order && purchases[j].kind == Renewal
                && purchases[j].status.Complete? && purchases[j].ext != Plain(mpt)
  }

  ghost predicate AllRefer(purchases: seq<Purchase>, returned: seq<ReturnOrder>, mpt: MptId) {
    forall i :: 0 <= i < |returned| && returned[i].mpt == mpt ==> RefersTo(purchases, returned[i].reference, mpt)
  }

  lemma StillRefers(before: seq<Purchase>, after: seq<Purchase>, order: OrderId, mpt: MptId)
    requires PurchasesMove(before, after, mpt) && RefersTo(before, order, mpt)
    ensures RefersTo(after, order, mpt)
  {
    var j :| 0 <= j < |before| && before[j].id == order && before[j].kind == Renewal && before[j].status.Complete?
      && before[j].ext != Plain(mpt);
    assert after[j].id == order;
  }

  lemma AllStillRefer(
    before: seq<Purchase>, after: seq<Purchase>, returned: seq<ReturnOrder>, returned': seq<ReturnOrder>, mpt: MptId)
    requires PurchasesMove(before, after, mpt) && ReturnsMove(returned, returned', mpt)
    requires AllRefer(before, returned, mpt)
    ensures AllRefer(after, returned', mpt)
  {
    hide RefersTo;
    forall i | 0 <= i < |returned'| && returned'[i].mpt == mpt
      ensures RefersTo(after, returned'[i].reference, mpt)
    {
      StillRefers(before, after, returned[i].reference, mpt);
    }
  }

  lemma PlacedRefers(
    before: seq<Purchase>, placed: Purchase, returned: seq<ReturnOrder>, mpt: MptId)
    requires AllRefer(before, returned, mpt)
    ensures AllRefer(before + [placed], returned, mpt)
  {
    forall i | 0 <= i < |returned| && returned[i].mpt == mpt
      ensures RefersTo(before + [placed], returned[i].reference, mpt)
    {
      var j :| 0 <= j < |before| && before[j].id == returned[i].reference && before[j].kind == Renewal
        && before[j].status.Complete? && before[j].ext != Plain(mpt);
      assert (before + [placed])[j] == before[j];
    }
  }

  lemma ReturnRefers(purchases: seq<Purchase>, returned: seq<ReturnOrder>, r: ReturnOrder, mpt: MptId)
    requires AllRefer(purchases, returned, mpt) && RefersTo(purchases, r.reference, mpt)
    ensures AllRefer(purchases, returned + [r], mpt)
  {
    hide RefersTo;
  }

  function EntrySku(entry: PayloadEntry, sub: Subscription): Sku {
    ResolveEntry(entry, sub).offer.sku
  }

  /** Lines of a lapsing subscription, in the orders of others, carry its SKU. */
  predicate LinesMatch(payload: seq<PayloadEntry>, subs: Subs, purchases: seq<Purchase>, mpt: MptId)
    requires Known(payload, subs)
  {
    forall i, j :: 0 <= i < |payload| && 0 <= j < |purchases|
                   && !payload[i].renew && !Places(purchases[j], Renewal, Plain(mpt)) ==>
                     var line := LineOf(purchases[j].lines, payload[i].sub);
                     line.Some? ==> line.value.sku == EntrySku(payload[i], subs[payload[i].sub])
  }

  /** Returns are looked up by SKU: of two lapsing subscriptions with the same SKU, a retry takes the
      return of one for the return of the other. */
  ghost predicate DistinctLapsing(payload: seq<PayloadEntry>, subs: Subs)
    requires Known(payload, subs)
  {
    forall i, j :: 0 <= i < j < |payload| && !payload[i].renew && !payload[j].renew ==>
                     EntrySku(payload[i], subs[payload[i].sub]) != EntrySku(payload[j], subs[payload[j].sub])
  }

  predicate LapsingRenewed(entry: PlanEntry) {
    !entry.renew && entry.snapshot.renewed.Some?
  }

  predicate LapsingEnabled(entry: PlanEntry) {
    !entry.renew && entry.snapshot.enabled
  }

  /** The plan was resolved from the payload, at some earlier moment. */
  ghost predicate PlanFor(plan: seq<PlanEntry>, payload: seq<PayloadEntry>, subs: Subs)
    requires Known(payload, subs)
  {
    && |plan| == |payload|
    && forall i :: 0 <= i < |plan| ==>
                     && plan[i].sub == payload[i].sub && plan[i].renew == payload[i].renew
                     && (!payload[i].renew ==> plan[i].offer.sku == EntrySku(payload[i], subs[payload[i].sub]))
                     && plan[i].quantity == (if payload[i].quantity.Some? then payload[i].quantity.value else 0)
  }

  lemma AskedQuantityIsWork(plan: seq<PlanEntry>, payload: seq<PayloadEntry>, subs: Subs)
    requires Known(payload, subs) && PlanFor(plan, payload, subs) && SomeAskQuantity(payload)
    ensures HasWork(plan)
  {
  }

  /** SKUs do not change with the rest of a subscription. */
  lemma SameSkus(plan: seq<PlanEntry>, payload: seq<PayloadEntry>, subs: Subs, subs': Subs, purchases: seq<Purchase>,
                 mpt: MptId)
    requires subs.Keys == subs'.Keys && Known(payload, subs)
    requires forall id :: id in subs ==> subs[id].offer == subs'[id].offer
    ensures DistinctLapsing(payload, subs') == DistinctLapsing(payload, subs)
    ensures PlanFor(plan, payload, subs) ==> PlanFor(plan, payload, subs')
    ensures LinesMatch(payload, subs, purchases, mpt) ==> LinesMatch(payload, subs', purchases, mpt)
  {
  }

  lemma OtherLapsingSkus(plan: seq<PlanEntry>, payload: seq<PayloadEntry>, subs: Subs, k: nat)
    requires Known(payload, subs) && PlanFor(plan, payload, subs) && DistinctLapsing(payload, subs)
    requires k < |plan| && LapsingRenewed(plan[k])
    ensures forall i :: k < i < |plan| && LapsingRenewed(plan[i]) ==> plan[i].offer.sku != plan[k].offer.sku
  {
  }

  function NormalisedAuto(auto: AutoRenewal, renewed: Option<nat>): AutoRenewal {
    if renewed.None? then auto else AutoRenewal(true, renewed, auto.codes)
  }

  /** What Adobe reported as renewed, subscription by subscription, decides the preference. */
  ghost predicate NormalisedTo(plan: seq<PlanEntry>, k: int, read: map<SubId, Option<nat>>, before: Subs, after: Subs)
    requires 0 <= k <= |plan|
  {
    && after.Keys == before.Keys
    && (forall i :: 0 <= i < k && IsRenewing(plan[i]) ==>
                      && plan[i].sub in read && plan[i].sub in after
                      && after[plan[i].sub].auto == NormalisedAuto(before[plan[i].sub].auto, read[plan[i].sub]))
    && (forall id :: id in before && (forall i :: 0 <= i < k && IsRenewing(plan[i]) ==> plan[i].sub != id) ==>
                       after[id].auto == before[id].auto)
  }

  ghost predicate DisabledTo(plan: seq<PlanEntry>, k: int, before: Subs, after: Subs)
    requires 0 <= k <= |plan|
  {
    && after.Keys == before.Keys
    && (forall i :: 0 <= i < k && LapsingEnabled(plan[i]) ==>
                      plan[i].sub in after && after[plan[i].sub].auto == before[plan[i].sub].auto.(enabled := false))
    && (forall id :: id in before && (forall i :: 0 <= i < k && LapsingEnabled(plan[i]) ==> plan[i].sub != id) ==>
                       after[id].auto == before[id].auto)
  }

  lemma EntryKnown(plan: seq<PlanEntry>, payload: seq<PayloadEntry>, subs: Subs, k: nat)
    requires Known(payload, subs) && PlanFor(plan, payload, subs) && k < |plan|
    ensures plan[k].sub in subs
  {
  }

  lemma EntryApart(plan: seq<PlanEntry>, payload: seq<PayloadEntry>, subs: Subs, k: nat)
    requires DistinctPayload(payload) && Known(payload, subs) && PlanFor(plan, payload, subs) && k < |plan|
    ensures forall i :: 0 <= i < k ==> plan[i].sub != plan[k].sub
  {
  }

  /** Adobe showed this quantity as renewed, at the look `from` or later. */
  ghost predicate ReadSince(looks: seq<Subs>, from: nat, sub: SubId, renewed: Option<nat>) {
    exists j :: from <= j < |looks| && sub in looks[j] && looks[j][sub].renewed == renewed
  }

  ghost predicate WasRead(
    plan: seq<PlanEntry>, k: int, read: map<SubId, Option<nat>>, looks: seq<Subs>, from: nat)
    requires 0 <= k <= |plan|
  {
    forall i :: 0 <= i < k && IsRenewing(plan[i]) ==>
                  plan[i].sub in read && ReadSince(looks, from, plan[i].sub, read[plan[i].sub])
  }

  lemma ReadNone(plan: seq<PlanEntry>, looks: seq<Subs>, from: nat)
    ensures WasRead(plan, 0, map[], looks, from)
  {
  }

  lemma ReadStill(plan: seq<PlanEntry>, k: nat, read: map<SubId, Option<nat>>, looks: seq<Subs>, from: nat)
    requires k < |plan| && WasRead(plan, k, read, looks, from)
    ensures !IsRenewing(plan[k]) ==> WasRead(plan, k + 1, read, looks, from)
  {
  }

  lemma ReadNext(
    plan: seq<PlanEntry>, k: nat, read: map<SubId, Option<nat>>, looks: seq<Subs>, looks': seq<Subs>, from: nat,
    renewed: Option<nat>)
    requires k < |plan| && WasRead(plan, k, read, looks, from) && looks <= looks' && from <= |looks| < |looks'|
    requires forall i :: 0 <= i < k ==> plan[i].sub != plan[k].sub
    requires plan[k].sub in looks'[|looks|] && looks'[|looks|][plan[k].sub].renewed == renewed
    ensures WasRead(plan, k + 1, read[plan[k].sub := renewed], looks', from)
  {
    forall i | 0 <= i < k && IsRenewing(plan[i])
      ensures ReadSince(looks', from, plan[i].sub, read[plan[i].sub])
    {
      var j :| from <= j < |looks| && plan[i].sub in looks[j] && looks[j][plan[i].sub].renewed == read[plan[i].sub];
      assert looks'[j] == looks[j];
    }
    assert ReadSince(looks', from, plan[k].sub, renewed);
  }

  lemma NormalisedNone(plan: seq<PlanEntry>, subs: Subs)
    ensures NormalisedTo(plan, 0, map[], subs, subs)
  {
  }

  lemma NormalisedNext(plan: seq<PlanEntry>, payload: seq<PayloadEntry>, k: nat, read: map<SubId, Option<nat>>,
                       before: Subs, after: Subs)
    requires Known(payload, after) && PlanFor(plan, payload, after) && k < |plan|
    requires NormalisedTo(plan, k, read, before, after)
    ensures plan[k].sub in after
    ensures !IsRenewing(plan[k]) ==> NormalisedTo(plan, k + 1, read, before, after)
  {
  }

  lemma NormalisedByOne(
    plan: seq<PlanEntry>, payload: seq<PayloadEntry>, k: nat, read: map<SubId, Option<nat>>,
    before: Subs, middle: Subs, after: Subs, renewed: Option<nat>)
    requires DistinctPayload(payload) && Known(payload, middle) && PlanFor(plan, payload, middle) && k < |plan|
    requires IsRenewing(plan[k]) && NormalisedTo(plan, k, read, before, middle) && after.Keys == middle.Keys
    requires forall id :: id in after && id != plan[k].sub ==> after[id].auto == middle[id].auto
    requires plan[k].sub in after &&
             after[plan[k].sub].auto == NormalisedAuto(middle[plan[k].sub].auto, renewed)
    ensures NormalisedTo(plan, k + 1, read[plan[k].sub := renewed], before, after)
  {
    hide PlanFor, IsRenewing, DistinctPayload;
    EntryApart(plan, payload, middle, k);
    assert middle[plan[k].sub].auto == before[plan[k].sub].auto;
  }

  lemma DisabledNone(plan: seq<PlanEntry>, subs: Subs)
    ensures DisabledTo(plan, 0, subs, subs)
  {
  }

  lemma DisabledNext(plan: seq<PlanEntry>, payload: seq<PayloadEntry>, k: nat, before: Subs, middle: Subs, after: Subs)
    requires DistinctPayload(payload) && Known(payload, middle) && PlanFor(plan, payload, middle) && k < |plan|
    requires DisabledTo(plan, k, before, middle) && after.Keys == middle.Keys
    requires forall id :: id in after && id != plan[k].sub ==> after[id].auto == middle[id].auto
    requires plan[k].sub in after &&
             after[plan[k].sub].auto == if LapsingEnabled(plan[k]) then middle[plan[k].sub].auto.(enabled := false)
                                        else middle[plan[k].sub].auto
    ensures DisabledTo(plan, k + 1, before, after)
  {
  }

  lemma ResolvedFor(payload: seq<PayloadEntry>, subs: Subs)
    requires Known(payload, subs)
    ensures PlanFor(Resolve(payload, subs), payload, subs) && Snapshotted(Resolve(payload, subs), subs)
  {
  }

  /** Every lapsing subscription is off, every renewed one is on with the quantity Adobe renewed,
      unless Adobe did not report any when it was read. */
  ghost predicate PreferencesSet(plan: seq<PlanEntry>, read: map<SubId, Option<nat>>, subs: Subs) {
    forall i :: 0 <= i < |plan| ==>
                  && plan[i].sub in subs
                  && (!plan[i].renew ==> !subs[plan[i].sub].auto.enabled)
                  && (IsRenewing(plan[i]) ==>
                        && plan[i].sub in read
                        && (read[plan[i].sub].Some? ==>
                              subs[plan[i].sub].auto.enabled && subs[plan[i].sub].auto.quantity == read[plan[i].sub]))
  }

  lemma NormalisedThenDisabled(
    plan: seq<PlanEntry>, read: map<SubId, Option<nat>>, start: Subs, before: Subs, middle: Subs, after: Subs)
    requires DistinctEntries(plan) && Snapshotted(plan, start) && SamePreferences(start, before)
    requires NormalisedTo(plan, |plan|, read, before, middle) && DisabledTo(plan, |plan|, middle, after)
    ensures PreferencesSet(plan, read, after)
  {
  }

  lemma ResolvedDistinct(payload: seq<PayloadEntry>, subs: Subs)
    requires DistinctPayload(payload) && Known(payload, subs)
    ensures DistinctEntries(Resolve(payload, subs))
  {
  }

  lemma SamePreferencesTwice(first: Subs, second: Subs, third: Subs)
    requires SamePreferences(second, third)
    ensures SamePreferences(first, second) ==> SamePreferences(first, third)
    ensures third.Keys == second.Keys && forall id :: id in second ==> third[id].offer == second[id].offer
  {
  }

  /******* The protocol *******/

  datatype Action = RenewalPlaced | ReturnPlaced(sub: SubId) | Normalised(sub: SubId) | Disabled(sub: SubId)

  // What was sent to Adobe, and the purchases at that moment.
  datatype Event = Event(action: Action, purchases: seq<Purchase>)

  class RenewNowOrder {
    const mpt: MptId
    const payload: seq<PayloadEntry>
    var purchases: seq<Purchase>
    var returned: seq<ReturnOrder>
    var subs: Subs
    var status: MptStatus
    ghost var log: seq<Event>
    // What Adobe showed whenever the subscriptions were read, and where the last attempt resolved its plan.
    ghost var looks: seq<Subs>
    ghost var resolvedAt: nat

    constructor (mpt: MptId, payload: seq<PayloadEntry>, purchases: seq<Purchase>, returned: seq<ReturnOrder>,
                 subs: Subs)
      requires DistinctPayload(payload) && Known(payload, subs)
      requires forall i :: 0 <= i < |purchases| ==> !Places(purchases[i], Renewal, Plain(mpt))
      requires forall i :: 0 <= i < |returned| ==> returned[i].mpt != mpt
      requires LinesMatch(payload, subs, purchases, mpt)
      ensures Valid() && status.Processing? && log == [] && looks == []
      ensures this.mpt == mpt && this.payload == payload && this.subs == subs
    {
      this.mpt, this.payload := mpt, payload;
      this.purchases, this.returned, this.subs := purchases, returned, subs;
      status, log := Processing, [];
      looks, resolvedAt := [], 0;
    }

    /** Whenever an entry asks for a quantity, nothing but the RENEWAL order itself was ever sent
        before that order was complete. */
    ghost predicate AdditiveFirst()
      reads this
    {
      SomeAskQuantity(payload) ==>
        forall e :: e in log && !e.action.RenewalPlaced? ==> HasComplete(e.purchases, Renewal, Plain(mpt))
    }

    ghost predicate Valid()
      reads this
    {
      && DistinctPayload(payload) && Known(payload, subs)
      && LinesMatch(payload, subs, purchases, mpt)
      && AtMostOne(purchases, Renewal, Plain(mpt))
      && (DistinctLapsing(payload, subs) ==> ReturnedOnce(returned, mpt))
      && AllRefer(purchases, returned, mpt)
      && AdditiveFirst()
    }

    /** Time passes between two calls; the run may be cut short. */
    method Tick() returns (alive: bool)
      requires Valid()
      modifies `purchases, `returned, `subs
      ensures Valid()
      ensures PurchasesMove(old(purchases), purchases, mpt) && ReturnsMove(old(returned), returned, mpt)
      ensures SamePreferences(old(subs), subs)
    {
      hide HasComplete, LineOf, RefersTo;
      alive := *;
      var purchases' := *;
      var returned' := *;
      var subs' := *;
      if PurchasesMove(purchases, purchases', mpt) && ReturnsMove(returned, returned', mpt)
         && SamePreferences(subs, subs')
         && LinesMatch(payload, subs', purchases', mpt) {
        PurchasesMoveKeeps(purchases, purchases', mpt, Renewal, Plain(mpt));
        ReturnsMoveKeeps(returned, returned', mpt);
        AllStillRefer(purchases, purchases', returned, returned', mpt);
        purchases, returned, subs := purchases', returned', subs';
      }
    }

    /** PATCH one subscription; the answer may be lost after the change went through. */
    method Patch(sub: SubId, enabled: bool, quantity: Option<nat>) returns (ok: bool)
      requires Valid() && sub in subs
      requires SomeAskQuantity(payload) ==> HasComplete(purchases, Renewal, Plain(mpt))
      modifies `subs, `log
      ensures Valid()
      ensures log == old(log) + [Event(if enabled then Normalised(sub) else Disabled(sub), purchases)]
      ensures ok ==> subs == old(subs)[sub := Patched(old(subs)[sub], enabled, quantity, None)]
      ensures ok || subs == old(subs) || subs == old(subs)[sub := Patched(old(subs)[sub], enabled, quantity, None)]
    {
      hide AllRefer, HasComplete, AtMostOne, ReturnedOnce, SomeAskQuantity;
      log := log + [Event(if enabled then Normalised(sub) else Disabled(sub), purchases)];
      var applied: bool := *;
      ok := *;
      ok := ok && applied;
      if applied {
        subs := subs[sub := Patched(subs[sub], enabled, quantity, None)];
      }
    }

    /** PreviewRenewalNowOrder: skipped without work and once the RENEWAL order exists. */
    method Preview(plan: seq<PlanEntry>) returns (flow: Flow, preview: Option<seq<PurchaseLine>>)
      requires Valid()
      modifies `purchases, `returned, `subs, `status
      ensures Valid() && ReturnsMove(old(returned), returned, mpt)
              && SamePreferences(old(subs), subs)
      ensures status == old(status) || (flow.Stop? && status.Failed?)
      ensures flow.Next? && HasWork(plan) ==> preview.Some? || ExistingRenewal(purchases, Plain(mpt)).Some?
      ensures !HasWork(plan) ==> flow.Next? && unchanged(this)
      ensures flow.Stop? ==> status.Failed? && ExistingRenewal(purchases, Plain(mpt)).None?
    {
      if !HasWork(plan) {
        return Next, None;
      }
      var alive := Tick();
      if !alive {
        return Crash, None;
      }
      if ExistingRenewal(purchases, Plain(mpt)).Some? {
        return Next, None;
      }
      preview := *;
      if preview.Some? {
        return Next, preview;
      }
      status := Failed;
      return Stop, None;
    }

    /** SubmitRenewalNowOrder: reuse the RENEWAL order found by its reference, or place it from the
        previewed lines. Only a complete order lets the attempt go on. */
    method Submit(plan: seq<PlanEntry>, preview: Option<seq<PurchaseLine>>) returns (flow: Flow)
      requires Valid() && status.Processing?
      modifies `purchases, `returned, `subs, `status, `log
      ensures Valid() && ReturnsMove(old(returned), returned, mpt) && SamePreferences(old(subs), subs)
      ensures forall e :: e in log && e !in old(log) ==> e.action.RenewalPlaced?
      ensures status == old(status) || (flow.Stop? && status.Failed?)
      ensures flow.Next? && HasWork(plan) && (preview.Some? || ExistingRenewal(old(purchases), Plain(mpt)).Some?) ==>
                HasComplete(purchases, Renewal, Plain(mpt))
      ensures flow.Stop? ==> StopsOn(ExistingRenewal(purchases, Plain(mpt)), status)
      ensures !HasWork(plan) ==> flow.Next? && unchanged(this)
    {
      if !HasWork(plan) {
        return Next;
      }
      var alive := Tick();
      if !alive {
        return Crash;
      }
      PurchasesMoveKeeps(old(purchases), purchases, mpt, Renewal, Plain(mpt));
      var order := ExistingRenewal(purchases, Plain(mpt));
      ExistingRenewalIsThere(purchases, Plain(mpt));
      if order.None? {
        if preview.None? {
          return Next;
        }
        flow, order := PlaceRenewal(preview.value);
        if order.None? {
          return;
        }
      }
      match order.value.status {
        case Open =>
          return Stop;
        case Complete =>
          return Next;
        case _ =>
          status := Failed;
          return Stop;
      }
    }

    /** create_renewal_order: refused, accepted, or accepted with the answer lost. */
    method PlaceRenewal(lines: seq<PurchaseLine>) returns (flow: Flow, order: Option<Purchase>)
      requires Valid() && ExistingRenewal(purchases, Plain(mpt)).None?
      modifies `purchases, `returned, `subs, `status, `log
      ensures Valid() && returned == old(returned) && subs == old(subs)
      ensures log == old(log) + [Event(RenewalPlaced, old(purchases))]
      ensures purchases == old(purchases) ||
              (|purchases| == |old(purchases)| + 1 && old(purchases) < purchases
               && Places(purchases[|purchases|-1], Renewal, Plain(mpt)) && purchases[|purchases|-1].lines == lines)
      ensures order.Some? ==>
                && ExistingRenewal(purchases, Plain(mpt)) == order && status == old(status)
                && Places(order.value, Renewal, Plain(mpt)) && order.value in purchases
      ensures flow.Stop? ==> order.None? && purchases == old(purchases) && status.Failed?
      ensures status == old(status) || (flow.Stop? && status.Failed?)
      ensures order.None? ==> !flow.Next?
    {
      ExistingRenewalIsThere(purchases, Plain(mpt));
      log := log + [Event(RenewalPlaced, purchases)];
      var accepted: bool := *;
      var answered: bool := *;
      if !accepted {
        status := Failed;
        return Stop, None;
      }
      var created: int := *;
      var first: OrderStatus := *;
      var placed := Purchase(|purchases|, Renewal, Plain(mpt), created, lines, first);
      ExistingRenewalPlaced(purchases, placed, Plain(mpt));
      PlacedRefers(purchases, placed, returned, mpt);
      purchases := purchases + [placed];
      if !answered {
        return Crash, None;
      }
      return Next, Some(placed);
    }

    /** One lapsing subscription that had been renewed: reuse its return, or return the line of the
        newest previous RENEWAL order, and fail the order when there is none. */
    method ReturnOne(plan: seq<PlanEntry>, k: nat, renewals: seq<Purchase>, seen: seq<ReturnOrder>)
      returns (flow: Flow, pending: bool, placed: Option<ReturnOrder>)
      requires Valid() && PlanFor(plan, payload, subs) && k < |plan| && LapsingRenewed(plan[k])
      requires LinesMatch(payload, subs, renewals, mpt) && PurchasesMove(renewals, purchases, mpt)
      requires SomeAskQuantity(payload) ==> HasComplete(purchases, Renewal, Plain(mpt))
      requires DistinctLapsing(payload, subs) && SkuReturning(returned, mpt, plan[k].offer.sku) ==>
                 SkuReturning(seen, mpt, plan[k].offer.sku)
      requires SkuReturnComplete(seen, mpt, plan[k].offer.sku) ==> SkuReturnComplete(returned, mpt, plan[k].offer.sku)
      modifies `purchases, `returned, `subs, `status, `log
      ensures Valid() && PurchasesMove(old(purchases), purchases, mpt) && SamePreferences(old(subs), subs)
      ensures forall sku :: SkuReturning(returned, mpt, sku) ==>
                SkuReturning(old(returned), mpt, sku) || sku == plan[k].offer.sku
      ensures forall sku :: SkuReturnComplete(old(returned), mpt, sku) ==> SkuReturnComplete(returned, mpt, sku)
      ensures status == if flow.Stop? then Failed else old(status)
      ensures flow.Next? ==> pending || SkuReturnComplete(returned, mpt, plan[k].offer.sku)
      ensures SeenComplete(seen, mpt, plan[k].offer.sku) ==> !pending
      ensures SkuReturning(seen, mpt, plan[k].offer.sku) ==> flow.Next? && placed.None? && returned == old(returned)
      ensures placed.Some? ==>
                && returned != [] && returned[|returned|-1] == placed.value
                && exists i ::
                     IsNewestPrevious(renewals, i, mpt, plan[k].sub)
                     && ReturnsLine(placed.value, renewals[i], plan[k].sub)
      ensures OwnSince(old(returned), returned, plan, renewals, mpt)
      ensures flow.Next? && placed.None? ==> SkuReturning(seen, mpt, plan[k].offer.sku)
      ensures !SkuReturning(seen, mpt, plan[k].offer.sku)
              && NonePreviousAmong(renewals, |renewals|, mpt, plan[k].sub) ==>
                flow.Stop? && status.Failed? && returned == old(returned)
    {
      hide AllRefer, SkuReturning, SkuReturnComplete, HasComplete, AtMostOne, ReturnedOnce, ReturnsMove,
        SomeAskQuantity, FirstReturn, Patched, DistinctLapsing, OwnSince, PlacedFor;
      OwnSinceNothing(returned, plan, renewals, mpt);
      var sku := plan[k].offer.sku;
      var existing := FirstReturn(seen, mpt, sku);
      FirstReturnIsThere(seen, mpt, sku);
      if existing.Some? {
        return Next, !existing.value.status.Complete?, None;
      }
      var found := FindPrevious(renewals, mpt, plan[k].sub);
      if found.None? {
        status := Failed;
        return Stop, false, None;
      }
      var alive := Tick();
      PurchasesMoveKeeps(old(purchases), purchases, mpt, Renewal, Plain(mpt));
      PurchasesMoveTwice(renewals, old(purchases), purchases, mpt);
      ReturnsMoveKeeps(old(returned), returned, mpt);
      OwnSinceMoved(old(returned), returned, plan, renewals, mpt);
      SameSkus(plan, payload, old(subs), subs, renewals, mpt);
      if !alive {
        return Crash, false, None;
      }
      var order := renewals[found.value];
      var line := LineOf(order.lines, plan[k].sub).value;
      assert line.sku == sku;
      assert RefersTo(renewals, order.id, mpt);
      StillRefers(renewals, purchases, order.id, mpt);
      var accepted, answered: bool := *, *;
      var first: OrderStatus := *;
      ghost var returned0 := returned;
      flow, placed := PlaceReturn(order.id, line, accepted, answered, first);
      if placed.Some? {
        IsPlacedFor(placed.value, plan, k, renewals, found.value, mpt);
        OwnSincePlaced(old(returned), returned0, placed.value, plan, renewals, mpt);
      }
      return flow, placed.None? || !placed.value.status.Complete?, placed;
    }

    /** create_return_order: refused, accepted, or accepted with the answer lost. */
    method PlaceReturn(order: OrderId, line: PurchaseLine, accepted: bool, answered: bool, first: OrderStatus)
      returns (flow: Flow, placed: Option<ReturnOrder>)
      requires Valid()
      requires SomeAskQuantity(payload) ==> HasComplete(purchases, Renewal, Plain(mpt))
      requires DistinctLapsing(payload, subs) ==> !SkuReturning(returned, mpt, line.sku)
      requires RefersTo(purchases, order, mpt)
      modifies `purchases, `returned, `subs, `status, `log
      ensures Valid() && purchases == old(purchases) && subs == old(subs)
      ensures log == old(log) + [Event(ReturnPlaced(line.sub), purchases)]
      ensures status == if flow.Stop? then Failed else old(status)
      ensures forall sku :: SkuReturning(returned, mpt, sku) ==>
                SkuReturning(old(returned), mpt, sku) || sku == line.sku
      ensures forall sku :: SkuReturnComplete(old(returned), mpt, sku) ==> SkuReturnComplete(returned, mpt, sku)
      ensures placed.Some? <==> accepted
      ensures placed.None? ==> flow.Stop? && returned == old(returned)
      ensures placed.Some? ==>
                && placed.value.status == first && flow == (if answered then Next else Crash) && status == old(status)
                && placed.value.mpt == mpt && placed.value.reference == order
                && placed.value.sku == line.sku && placed.value.quantity == line.quantity
                && returned == old(returned) + [placed.value]
                && (placed.value.status.Complete? ==> SkuReturnComplete(returned, mpt, line.sku))
    {
      hide AllRefer, SkuReturning, SkuReturnComplete, HasComplete, AtMostOne, ReturnedOnce, SomeAskQuantity,
        DistinctLapsing, LinesMatch;
      log := log + [Event(ReturnPlaced(line.sub), purchases)];
      if !accepted {
        status := Failed;
        return Stop, None;
      }
      var r := ReturnOrder(|returned|, mpt, order, line.sku, line.quantity, first);
      ReturnPlacedKeeps(returned, r, mpt);
      ReturnRefers(purchases, returned, r, mpt);
      returned := returned + [r];
      return if answered then Next else Crash, Some(r);
    }

    lemma NothingMoves(purchases: seq<Purchase>, subs: Subs)
      ensures PurchasesMove(purchases, purchases, mpt) && SamePreferences(subs, subs)
    {
    }

    lemma ReturnsStay(returned: seq<ReturnOrder>)
      ensures ReturnsMove(returned, returned, mpt)
    {
    }

    /** ReturnPreviousRenewalOrders: the own returns (`seen`) and the orders (`renewals`) are
        listed once, before the loop. */
    method ReturnPrevious(plan: seq<PlanEntry>)
      returns (flow: Flow, ghost renewals: seq<Purchase>, ghost seen: seq<ReturnOrder>)
      requires Valid() && PlanFor(plan, payload, subs)
      requires SomeAskQuantity(payload) ==> HasComplete(purchases, Renewal, Plain(mpt))
      modifies `purchases, `returned, `subs, `status, `log
      ensures Valid() && SamePreferences(old(subs), subs) && PurchasesMove(old(purchases), purchases, mpt)
      ensures PurchasesMove(old(purchases), renewals, mpt) && PurchasesMove(renewals, purchases, mpt)
      ensures OwnSince(old(returned), returned, plan, renewals, mpt)
      ensures status == old(status) || (flow.Stop? && status.Failed?)
      ensures flow.Next? ==>
                forall i :: 0 <= i < |plan| && !plan[i].renew && plan[i].snapshot.renewed.Some? ==>
                  SkuReturnComplete(returned, mpt, plan[i].offer.sku)
      // it waits only for a return that was open when listed, or that it has just placed
      ensures flow.Stop? && status.Processing? ==>
                exists i :: 0 <= i < |plan| && !plan[i].renew && plan[i].snapshot.renewed.Some?
                            && !SeenComplete(seen, mpt, plan[i].offer.sku)
      ensures ReturnsMove(old(returned), seen, mpt)
      ensures (forall i :: 0 <= i < |plan| ==> !LapsingRenewed(plan[i])) ==> flow.Next? && unchanged(this)
    {
      hide Valid, SeenComplete, OwnSince, AllRefer, NonePreviousAmong, PlanFor, DistinctLapsing, SkuReturning,
        SkuReturnComplete, HasComplete, AtMostOne, ReturnedOnce, ReturnsMove, LinesMatch, SomeAskQuantity,
        PurchasesMove, SamePreferences, IsNewestPrevious, ReturnsLine, PlacedFor, LapsingEnabled;
      renewals := purchases;
      NothingMoves(purchases, subs);
      OwnSinceNothing(returned, plan, renewals, mpt);
      ReturnsStay(returned);
      if forall i :: 0 <= i < |plan| ==> !LapsingRenewed(plan[i]) {
        return Next, renewals, returned;
      }
      var alive := Tick();
      OwnSinceMoved(old(returned), returned, plan, purchases, mpt);
      NothingMoves(purchases, subs);
      if !alive {
        return Crash, purchases, returned;
      }
      KnownNow();
      var listed := purchases;
      renewals := listed;
      SamePreferencesTwice(old(subs), old(subs), subs);
      SameSkus(plan, payload, old(subs), subs, listed, mpt);
      PurchasesMoveKeeps(old(purchases), purchases, mpt, Renewal, Plain(mpt));
      var own := returned;
      seen := own;
      var waiting := false;
      for k := 0 to |plan|
        invariant Valid() && Known(payload, subs)
        invariant PlanFor(plan, payload, subs) && LinesMatch(payload, subs, listed, mpt)
        invariant SamePreferences(old(subs), subs) && PurchasesMove(old(purchases), purchases, mpt)
        invariant PurchasesMove(listed, purchases, mpt) && OwnSince(old(returned), returned, plan, listed, mpt)
        invariant SomeAskQuantity(payload) ==> HasComplete(purchases, Renewal, Plain(mpt))
        invariant DistinctLapsing(payload, subs) ==>
                    forall i :: k <= i < |plan| && LapsingRenewed(plan[i])
                                && SkuReturning(returned, mpt, plan[i].offer.sku) ==>
                                  SkuReturning(own, mpt, plan[i].offer.sku)
        invariant forall sku :: SkuReturnComplete(own, mpt, sku) ==> SkuReturnComplete(returned, mpt, sku)
        invariant !waiting ==>
                    forall i :: 0 <= i < k && LapsingRenewed(plan[i]) ==>
                      SkuReturnComplete(returned, mpt, plan[i].offer.sku)
        invariant status == old(status)
        invariant waiting ==>
                    exists i :: 0 <= i < k && LapsingRenewed(plan[i]) && !SeenComplete(own, mpt, plan[i].offer.sku)
      {
        if LapsingRenewed(plan[k]) {
          ghost var purchases0, returned0, subs0 := purchases, returned, subs;
          ghost var distinct := DistinctLapsing(payload, subs);
          if distinct {
            OtherLapsingSkus(plan, payload, subs, k);
          }
          var pending, placed;
          flow, pending, placed := ReturnOne(plan, k, listed, own);
          KnownNow();
          SamePreferencesTwice(old(subs), subs0, subs);
          PurchasesMoveTwice(old(purchases), purchases0, purchases, mpt);
          PurchasesMoveTwice(listed, purchases0, purchases, mpt);
          OwnSinceTwice(old(returned), returned0, returned, plan, listed, mpt);
          if !flow.Next? {
            return;
          }
          waiting := waiting || pending;
          SameSkus(plan, payload, subs0, subs, listed, mpt);
          PurchasesMoveKeeps(purchases0, purchases, mpt, Renewal, Plain(mpt));
        }
      }
      return if waiting then Stop else Next, renewals, seen;
    }

    /** One renewed subscription: read what Adobe renewed, and make it the preference. */
    method NormaliseOne(sub: SubId) returns (flow: Flow, renewed: Option<nat>)
      requires Valid() && sub in subs
      requires SomeAskQuantity(payload) ==> HasComplete(purchases, Renewal, Plain(mpt))
      modifies `purchases, `returned, `subs, `status, `log, `looks
      ensures Valid() && PurchasesMove(old(purchases), purchases, mpt) && ReturnsMove(old(returned), returned, mpt)
      ensures status == if flow.Stop? then Failed else old(status)
      ensures flow.Next? ==>
                && subs.Keys == old(subs).Keys
                && (forall id :: id in subs ==> subs[id].offer == old(subs)[id].offer)
                && (forall id :: id in subs && id != sub ==> subs[id].auto == old(subs)[id].auto)
                && subs[sub].auto == NormalisedAuto(old(subs)[sub].auto, renewed)
                && |looks| == |old(looks)| + 1
                && sub in looks[|old(looks)|] && looks[|old(looks)|][sub].renewed == renewed
      ensures old(looks) <= looks
    {
      hide AllRefer, SkuReturning, SkuReturnComplete, HasComplete, AtMostOne, ReturnedOnce, LinesMatch, SomeAskQuantity,
        DistinctLapsing;
      var alive := Tick();
      PurchasesMoveKeeps(old(purchases), purchases, mpt, Renewal, Plain(mpt));
      var readable: bool := *;
      if !alive {
        return Crash, None;
      }
      if !readable {
        status := Failed;
        return Stop, None;
      }
      renewed, looks := subs[sub].renewed, looks + [subs];
      if renewed.None? {
        return Next, None;
      }
      var ok := Patch(sub, true, renewed);
      if !ok {
        status := Failed;
        return Stop, renewed;
      }
      return Next, renewed;
    }

    /** NormalizeRenewedSubscriptions */
    method NormaliseAll(plan: seq<PlanEntry>) returns (flow: Flow, ghost read: map<SubId, Option<nat>>)
      requires Valid() && PlanFor(plan, payload, subs)
      requires SomeAskQuantity(payload) ==> HasComplete(purchases, Renewal, Plain(mpt))
      modifies `purchases, `returned, `subs, `status, `log, `looks
      ensures Valid() && PurchasesMove(old(purchases), purchases, mpt) && ReturnsMove(old(returned), returned, mpt)
      ensures status == if flow.Stop? then Failed else old(status)
      ensures flow.Next? ==> NormalisedTo(plan, |plan|, read, old(subs), subs) && PlanFor(plan, payload, subs)
      ensures old(looks) <= looks && (flow.Next? ==> WasRead(plan, |plan|, read, looks, |old(looks)|))
      ensures !HasWork(plan) ==> flow.Next? && unchanged(this)
    {
      hide AllRefer, SkuReturning, SkuReturnComplete, HasComplete, AtMostOne, ReturnedOnce, LinesMatch, SomeAskQuantity,
        DistinctLapsing, NormalisedTo, PlanFor, WasRead;
      flow, read := Next, map[];
      NormalisedNone(plan, subs);
      ReadNone(plan, looks, |looks|);
      for k := 0 to |plan|
        invariant Valid() && PlanFor(plan, payload, subs) && status == old(status)
        invariant PurchasesMove(old(purchases), purchases, mpt) && ReturnsMove(old(returned), returned, mpt)
        invariant SomeAskQuantity(payload) ==> HasComplete(purchases, Renewal, Plain(mpt))
        invariant NormalisedTo(plan, k, read, old(subs), subs) && flow == Next
        invariant old(looks) <= looks && WasRead(plan, k, read, looks, |old(looks)|)
        invariant !HasWork(plan) ==> unchanged(this)
      {
        ghost var purchases0, subs0, looks0, read0 := purchases, subs, looks, read;
        NormalisedNext(plan, payload, k, read, old(subs), subs);
        ReadStill(plan, k, read, looks, |old(looks)|);
        if IsRenewing(plan[k]) {
          var renewed;
          flow, renewed := NormaliseOne(plan[k].sub);
          if !flow.Next? {
            return;
          }
          PurchasesMoveKeeps(purchases0, purchases, mpt, Renewal, Plain(mpt));
          SameSkus(plan, payload, subs0, subs, [], mpt);
          NormalisedByOne(plan, payload, k, read, old(subs), subs0, subs, renewed);
          EntryApart(plan, payload, subs, k);
          read := read[plan[k].sub := renewed];
          ReadNext(plan, k, read0, looks0, looks, |old(looks)|, renewed);
        }
      }
    }

    method DisableOne(sub: SubId) returns (flow: Flow)
      requires Valid() && sub in subs
      requires SomeAskQuantity(payload) ==> HasComplete(purchases, Renewal, Plain(mpt))
      modifies `purchases, `returned, `subs, `status, `log
      ensures Valid() && PurchasesMove(old(purchases), purchases, mpt) && ReturnsMove(old(returned), returned, mpt)
      ensures status == if flow.Stop? then Failed else old(status)
      ensures flow.Next? ==>
                && subs.Keys == old(subs).Keys
                && (forall id :: id in subs ==> subs[id].offer == old(subs)[id].offer)
                && (forall id :: id in subs && id != sub ==> subs[id].auto == old(subs)[id].auto)
                && subs[sub].auto == old(subs)[sub].auto.(enabled := false)
    {
      hide AllRefer, SkuReturning, SkuReturnComplete, HasComplete, AtMostOne, ReturnedOnce, LinesMatch, SomeAskQuantity,
        DistinctLapsing;
      var alive := Tick();
      PurchasesMoveKeeps(old(purchases), purchases, mpt, Renewal, Plain(mpt));
      if !alive {
        return Crash;
      }
      var ok := Patch(sub, false, None);
      if !ok {
        status := Failed;
        return Stop;
      }
      return Next;
    }

    /** DisableLapsingSubscriptions */
    method DisableLapsing(plan: seq<PlanEntry>) returns (flow: Flow)
      requires Valid() && PlanFor(plan, payload, subs)
      requires SomeAskQuantity(payload) ==> HasComplete(purchases, Renewal, Plain(mpt))
      modifies `purchases, `returned, `subs, `status, `log
      ensures Valid() && PurchasesMove(old(purchases), purchases, mpt) && ReturnsMove(old(returned), returned, mpt)
      ensures status == if flow.Stop? then Failed else old(status)
      ensures flow.Next? ==> DisabledTo(plan, |plan|, old(subs), subs) && PlanFor(plan, payload, subs)
      ensures (forall i :: 0 <= i < |plan| ==> !LapsingEnabled(plan[i])) ==> flow.Next? && unchanged(this)
    {
      hide AllRefer, SkuReturning, SkuReturnComplete, HasComplete, AtMostOne, ReturnedOnce, LinesMatch, SomeAskQuantity,
        DistinctLapsing, DisabledTo, PlanFor;
      DisabledNone(plan, subs);
      for k := 0 to |plan|
        invariant Valid() && PlanFor(plan, payload, subs) && status == old(status)
        invariant PurchasesMove(old(purchases), purchases, mpt) && ReturnsMove(old(returned), returned, mpt)
        invariant SomeAskQuantity(payload) ==> HasComplete(purchases, Renewal, Plain(mpt))
        invariant DisabledTo(plan, k, old(subs), subs)
        invariant (forall i :: 0 <= i < |plan| ==> !LapsingEnabled(plan[i])) ==> unchanged(this)
      {
        ghost var purchases0, subs0 := purchases, subs;
        EntryKnown(plan, payload, subs, k);
        if LapsingEnabled(plan[k]) {
          flow := DisableOne(plan[k].sub);
          if !flow.Next? {
            return;
          }
          PurchasesMoveKeeps(purchases0, purchases, mpt, Renewal, Plain(mpt));
          SameSkus(plan, payload, subs0, subs, [], mpt);
        }
        DisabledNext(plan, payload, k, old(subs), subs0, subs);
      }
      return Next;
    }

    /** What completing the order stands for: `plan` is the payload resolved on what Adobe showed when the last
        attempt began, and `read` what Adobe showed as renewed after that. */
    ghost predicate Achieved(plan: seq<PlanEntry>, read: map<SubId, Option<nat>>)
      reads this
    {
      && resolvedAt < |looks| && Known(payload, looks[resolvedAt]) && plan == Resolve(payload, looks[resolvedAt])
      && WasRead(plan, |plan|, read, looks, resolvedAt + 1)
      && Known(payload, subs) && PlanFor(plan, payload, subs)
      && (SomeAskQuantity(payload) || HasWork(plan) ==> HasComplete(purchases, Renewal, Plain(mpt)))
      && (forall i :: 0 <= i < |plan| && !plan[i].renew && plan[i].snapshot.renewed.Some? ==>
          SkuReturnComplete(returned, mpt, plan[i].offer.sku))
      && PreferencesSet(plan, read, subs)
      // with distinct SKUs, no own return is open exactly when the open ones are for entries Adobe still reports
      && (DistinctLapsing(payload, subs) ==>
            (NoReturnOpen(returned, mpt) <==> OpenAreReported(plan, returned, mpt)))
    }

    /** What the order did for one entry, Adobe having shown `shown` when the last attempt began: a lapsing
        subscription is off, and what it had renewed is returned; a renewing one is covered by a complete RENEWAL
        order and renews what Adobe showed as renewed, unless no quantity is asked and it had renewed before. */
    ghost predicate EntryFulfilled(entry: PayloadEntry, shown: Subscription, read: map<SubId, Option<nat>>)
      requires entry.sub in subs
      reads this
    {
      var sku := if entry.offer.Some? then entry.offer.value.sku else shown.offer.sku;
      if entry.renew then
        (entry.quantity.Some? && entry.quantity.value > 0) || shown.renewed.None? ==>
          && HasComplete(purchases, Renewal, Plain(mpt)) && entry.sub in read
          && (read[entry.sub].Some? ==>
                subs[entry.sub].auto.enabled && subs[entry.sub].auto.quantity == read[entry.sub])
      else
        && !subs[entry.sub].auto.enabled
        && (shown.renewed.Some? ==> SkuReturnComplete(returned, mpt, sku))
    }

    ghost predicate Fulfilled(read: map<SubId, Option<nat>>)
      requires resolvedAt < |looks| && Known(payload, looks[resolvedAt]) && Known(payload, subs)
      reads this
    {
      forall i :: 0 <= i < |payload| ==> EntryFulfilled(payload[i], looks[resolvedAt][payload[i].sub], read)
    }

    lemma AchievedMeans(plan: seq<PlanEntry>, read: map<SubId, Option<nat>>)
      requires Valid() && Achieved(plan, read)
      ensures Fulfilled(read)
    {
      hide Valid, SkuReturnComplete, HasComplete, WasRead, OpenAreReported, NoReturnOpen, DistinctLapsing;
    }

    /** One fulfillment attempt over the state the previous ones left. */
    method Attempt() returns (ghost plan: seq<PlanEntry>, ghost read: map<SubId, Option<nat>>)
      requires Valid() && status.Processing?
      modifies this
      ensures Valid() && old(looks) <= looks
      ensures status.Completed? ==>
                && Achieved(plan, read) && Fulfilled(read)
                && resolvedAt == |old(looks)| && SamePreferences(old(subs), looks[resolvedAt])
    {
      var alive := Tick();
      if !alive {
        return [], map[];
      }
      plan, read := Steps();
      if status.Completed? {
        AchievedMeans(plan, read);
      }
    }

    /** What Adobe shows now is what the plan is resolved on. */
    ghost method Look()
      requires Valid()
      modifies `looks, `resolvedAt
      ensures Valid() && DistinctPayload(payload) && Known(payload, subs)
      ensures looks == old(looks) + [subs] && resolvedAt == |old(looks)|
    {
      looks, resolvedAt := looks + [subs], |looks|;
    }

    lemma KnownNow()
      requires Valid()
      ensures Known(payload, subs) && LinesMatch(payload, subs, purchases, mpt)
    {
    }

    /** Resolve the plan on what Adobe reports, then the steps. */
    method Steps() returns (ghost plan: seq<PlanEntry>, ghost read: map<SubId, Option<nat>>)
      requires Valid() && status.Processing?
      modifies this
      ensures Valid() && plan == Resolve(payload, old(subs))
      ensures resolvedAt == |old(looks)| && old(looks) + [old(subs)] <= looks
      ensures status.Completed? ==> Achieved(plan, read)
      ensures IsIdle(plan) ==> status.Completed? && returned == old(returned)
    {
      hide AllRefer, SkuReturning, SkuReturnComplete, HasComplete, AtMostOne, ReturnedOnce, LinesMatch, SomeAskQuantity,
        DistinctLapsing, NormalisedTo, DisabledTo, PlanFor, PurchasesMove, ReturnsMove, SamePreferences, HasWork,
        PreferencesSet, NoReturnOpen, OpenAreReported, WasRead, Valid, Achieved, OwnSince, Resolve, DistinctEntries,
        Snapshotted;
      read := map[];
      Look();
      var entries := Resolve(payload, subs);
      plan := entries;
      ghost var start := subs;
      ResolvedFor(payload, subs);
      ResolvedDistinct(payload, subs);
      NothingMoves(purchases, subs);
      var flow, preview := Preview(entries);
      if !flow.Next? {
        return;
      }
      SamePreferencesTwice(start, start, subs);
      ghost var middle := subs;
      flow := Submit(entries, preview);
      if !flow.Next? {
        return;
      }
      SamePreferencesTwice(start, middle, subs);
      KnownNow();
      SameSkus(entries, payload, start, subs, [], mpt);
      if SomeAskQuantity(payload) {
        AskedQuantityIsWork(entries, payload, subs);
      }
      middle := subs;
      ghost var purchases0 := purchases;
      ghost var renewals, seen;
      flow, renewals, seen := ReturnPrevious(entries);
      if !flow.Next? {
        return;
      }
      PurchasesMoveKeeps(purchases0, purchases, mpt, Renewal, Plain(mpt));
      SamePreferencesTwice(start, middle, subs);
      SameSkus(entries, payload, middle, subs, [], mpt);
      read := Finish(entries, start);
    }

    /** The steps after the orders: normalise, disable, complete. */
    method Finish(plan: seq<PlanEntry>, ghost start: Subs) returns (ghost read: map<SubId, Option<nat>>)
      requires Valid() && PlanFor(plan, payload, subs) && status.Processing?
      requires DistinctEntries(plan) && Snapshotted(plan, start) && SamePreferences(start, subs)
      requires looks != [] && resolvedAt == |looks| - 1 && Known(payload, looks[resolvedAt])
      requires plan == Resolve(payload, looks[resolvedAt])
      requires SomeAskQuantity(payload) || HasWork(plan) ==> HasComplete(purchases, Renewal, Plain(mpt))
      requires forall i :: 0 <= i < |plan| && !plan[i].renew && plan[i].snapshot.renewed.Some? ==>
                 SkuReturnComplete(returned, mpt, plan[i].offer.sku)
      modifies `purchases, `returned, `subs, `status, `log, `looks
      ensures Valid() && old(looks) <= looks
      ensures status.Completed? ==> Achieved(plan, read)
      ensures IsIdle(plan) ==> status.Completed? && returned == old(returned)
    {
      hide AllRefer, SkuReturning, SkuReturnComplete, HasComplete, AtMostOne, ReturnedOnce, LinesMatch, SomeAskQuantity,
        DistinctLapsing, NormalisedTo, DisabledTo, PlanFor, PurchasesMove, ReturnsMove, SamePreferences, HasWork,
        PreferencesSet, NoReturnOpen, OpenAreReported, WasRead;
      ghost var purchases0, returned0, before := purchases, returned, subs;
      var flow;
      flow, read := NormaliseAll(plan);
      if !flow.Next? {
        return;
      }
      PurchasesMoveKeeps(purchases0, purchases, mpt, Renewal, Plain(mpt));
      ReturnsMoveKeeps(returned0, returned, mpt);
      purchases0, returned0 := purchases, returned;
      ghost var middle := subs;
      flow := DisableLapsing(plan);
      if !flow.Next? {
        return;
      }
      PurchasesMoveKeeps(purchases0, purchases, mpt, Renewal, Plain(mpt));
      ReturnsMoveKeeps(returned0, returned, mpt);
      NormalisedThenDisabled(plan, read, start, before, middle, subs);
      if DistinctLapsing(payload, subs) {
        NoReturnOpenIff(plan, returned, mpt);
      }
      status := Completed;
    }

    /** Any number of attempts. Valid() says throughout that at most one RENEWAL order carries this
        order's id, that (for distinct SKUs) no SKU has two live returns, and that nothing
        subtractive was sent before the RENEWAL order was complete. */
    method Retries(n: nat) returns (ghost plan: seq<PlanEntry>, ghost read: map<SubId, Option<nat>>)
      requires Valid() && status.Processing?
      modifies this
      ensures Valid() && old(looks) <= looks
      ensures status.Completed? ==> Achieved(plan, read) && Fulfilled(read) && |old(looks)| <= resolvedAt
    {
      plan, read := [], map[];
      var tries := n;
      while tries > 0 && status.Processing?
        invariant Valid() && old(looks) <= looks
        invariant status.Completed? ==> Achieved(plan, read) && Fulfilled(read) && |old(looks)| <= resolvedAt
        decreases tries
      {
        plan, read := Attempt();
        tries := tries - 1;
      }
    }
  }

  /** What Adobe reports once it no longer shows any renewal: at the latest, after the anniversary. */
  function Unreported(subs: Subs): (after: Subs)
    ensures SamePreferences(subs, after)
  {
    map id | id in subs :: subs[id].(renewed := None)
  }

  /** The return of a lapsing subscription is open when Adobe stops reporting the renewal it undoes. The next
      attempt finds nothing to return, waits for nothing, and completes. */
  method UnreportedThenCompleted(o: RenewNowOrder, k: nat, order: OrderId, line: PurchaseLine)
    requires o.Valid() && o.status.Processing? && k < |o.payload|
    requires forall i :: 0 <= i < |o.payload| ==>
                           !o.payload[i].renew && !o.subs[o.payload[i].sub].auto.enabled
    requires o.subs[o.payload[k].sub].renewed.Some?
    requires line.sub == o.payload[k].sub && line.sku == EntrySku(o.payload[k], o.subs[o.payload[k].sub])
    requires !SkuReturning(o.returned, o.mpt, line.sku) && RefersTo(o.purchases, order, o.mpt)
    modifies o
    ensures o.Valid() && o.status.Completed? && !NoReturnOpen(o.returned, o.mpt)
  {
    hide AllRefer, SkuReturning, SkuReturnComplete, HasComplete, AtMostOne, ReturnedOnce, LinesMatch,
      DistinctLapsing, PlanFor;
    assert !SomeAskQuantity(o.payload);
    var flow, placed := o.PlaceReturn(order, line, true, true, Open);
    var returned := o.returned;
    assert !NoReturnOpen(returned, o.mpt) by {
      assert returned[|returned|-1] == placed.value;
    }
    SameSkus([], o.payload, o.subs, Unreported(o.subs), o.purchases, o.mpt);
    o.subs := Unreported(o.subs);
    assert IsIdle(Resolve(o.payload, o.subs));
    ghost var plan, read := o.Steps();
  }
}
