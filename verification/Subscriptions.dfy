/** Adobe subscriptions, the renewing aggregate the 3YC commitment is about, and the remote
    subscription service that every fulfillment flow patches. */
module Subscriptions {

  datatype Option<+T> = None | Some(value: T)

  // Identifiers and codes are only ever compared for equality.
  type SubId = nat
  type Sku = nat
  type Code = nat

  // A full offer id is a partial SKU followed by a discount level.
  datatype Offer = Offer(sku: Sku, level: nat)

  datatype SubStatus = Active | Pending | Inactive | Scheduled

  datatype AutoRenewal = AutoRenewal(enabled: bool, quantity: Option<nat>, codes: seq<Code>)

  datatype Subscription = Subscription(
    offer: Offer, status: SubStatus, current: nat, renewed: Option<nat>, auto: AutoRenewal)

  datatype Listed = Listed(id: SubId, sub: Subscription)

  type Subs = map<SubId, Subscription>

  /** Effect of an auto-renewal PATCH: the flag is always sent, None leaves a field unchanged. */
  function Patched(sub: Subscription, enabled: bool, quantity: Option<nat>, codes: Option<seq<Code>>): Subscription {
    sub.(auto := AutoRenewal(
           enabled,
           if quantity.Some? then quantity else sub.auto.quantity,
           if codes.Some? then codes.value else sub.auto.codes))
  }

  /** Quantity a subscription contributes to the next anniversary. */
  function Renewing(sub: Subscription): nat {
    if sub.auto.enabled && sub.auto.quantity.Some? then sub.auto.quantity.value else 0
  }

  function Contribution(sub: Subscription, counted: Offer -> bool): nat {
    if counted(sub.offer) then Renewing(sub) else 0
  }

  ghost function SumOver(subs: Subs, ids: set<SubId>, counted: Offer -> bool): nat
    requires ids <= subs.Keys
    decreases ids
  {
    if ids == {} then 0 else
    var id :| id in ids;
    Contribution(subs[id], counted) + SumOver(subs, ids - {id}, counted)
  }

  /** The renewing aggregate of the offers picked out by `counted` (one offer type). */
  ghost function Aggregate(subs: Subs, counted: Offer -> bool): nat {
    SumOver(subs, subs.Keys, counted)
  }

  lemma NothingRenews(counted: Offer -> bool)
    ensures Aggregate(map[], counted) == 0
  {
  }

  lemma {:induction false} SumSplit(subs: Subs, ids: set<SubId>, id: SubId, counted: Offer -> bool)
    requires ids <= subs.Keys && id in ids
    ensures SumOver(subs, ids, counted) == Contribution(subs[id], counted) + SumOver(subs, ids - {id}, counted)
    decreases ids
  {
    var first :| first in ids && SumOver(subs, ids, counted) ==
      Contribution(subs[first], counted) + SumOver(subs, ids - {first}, counted);
    if first != id {
      SumSplit(subs, ids - {first}, id, counted);
      SumSplit(subs, ids - {id}, first, counted);
      assert ids - {first} - {id} == ids - {id} - {first};
    }
  }

  lemma {:induction false} SumFrame(subs: Subs, subs': Subs, ids: set<SubId>, counted: Offer -> bool)
    requires ids <= subs.Keys && ids <= subs'.Keys
    requires forall id :: id in ids ==> subs[id] == subs'[id]
    ensures SumOver(subs, ids, counted) == SumOver(subs', ids, counted)
    decreases ids
  {
    if ids != {} {
      var id :| id in ids;
      SumSplit(subs, ids, id, counted);
      SumSplit(subs', ids, id, counted);
      SumFrame(subs, subs', ids - {id}, counted);
    }
  }

  /** One write moves the aggregate by exactly what that subscription's contribution moves. */
  lemma AggregateAfterWrite(subs: Subs, id: SubId, sub: Subscription, counted: Offer -> bool)
    ensures Aggregate(subs[id := sub], counted) ==
            Aggregate(subs, counted) + Contribution(sub, counted)
            - (if id in subs then Contribution(subs[id], counted) else 0)
  {
    var subs' := subs[id := sub];
    SumSplit(subs', subs'.Keys, id, counted);
    SumFrame(subs, subs', subs.Keys - {id}, counted);
    assert subs'.Keys - {id} == subs.Keys - {id};
    if id in subs {
      SumSplit(subs, subs.Keys, id, counted);
    } else {
      assert subs.Keys - {id} == subs.Keys;
    }
  }

  /** Every subscription of `low` is in `high`, of the same offer, and renews at least as much there. */
  ghost predicate Dominates(high: Subs, low: Subs) {
    forall id :: id in low ==>
                   id in high && high[id].offer == low[id].offer && Renewing(high[id]) >= Renewing(low[id])
  }

  lemma {:induction false} SumMonotone(high: Subs, low: Subs, his: set<SubId>, ids: set<SubId>, counted: Offer -> bool)
    requires ids <= his <= high.Keys && ids <= low.Keys && Dominates(high, low)
    ensures SumOver(high, his, counted) >= SumOver(low, ids, counted)
    decreases his
  {
    if his != {} {
      var id :| id in his;
      SumSplit(high, his, id, counted);
      if id in ids {
        SumSplit(low, ids, id, counted);
      } else {
        assert ids - {id} == ids;
      }
      SumMonotone(high, low, his - {id}, ids - {id}, counted);
    }
  }

  /** Pointwise dominance carries over to the aggregate of every offer type at once. */
  lemma DominanceBoundsAggregate(high: Subs, low: Subs, counted: Offer -> bool)
    requires Dominates(high, low)
    ensures Aggregate(high, counted) >= Aggregate(low, counted)
  {
    SumMonotone(high, low, high.Keys, low.Keys, counted);
  }

  /** `listing` is one enumeration of the customer's subscriptions. */
  ghost predicate Lists(listing: seq<Listed>, subs: Subs) {
    && (forall i :: 0 <= i < |listing| ==> listing[i].id in subs && subs[listing[i].id] == listing[i].sub)
    && (forall i, j :: 0 <= i < j < |listing| ==> listing[i].id != listing[j].id)
    && (forall id :: id in subs ==> exists i :: 0 <= i < |listing| && listing[i].id == id)
  }

  // What the service makes of a call. A PATCH is followed by a read-back of the subscription and a POST can
  // answer with an error, so an error can also be reported after the change went through (Torn). No answer
  // at all (Silent) leaves open whether it did.
  datatype Answer = Accepted | Rejected | Torn | Silent(applied: bool)

  // What the caller sees: no error, an error it handles, or one that no step handles and that cuts the run
  // short.
  datatype CallResult = Ok | Failing | Cut

  function ResultOf(answer: Answer): CallResult {
    match answer
    case Accepted => Ok
    case Silent(_) => Cut
    case _ => Failing
  }

  /** The remote service. `history` records the state after every call, `refused` counts the calls
      answered with an error, and `torn` those of them that took effect all the same. */
  class SubscriptionService {
    var subs: Subs
    ghost var history: seq<Subs>
    ghost var refused: nat
    ghost var torn: nat

    constructor (subs: Subs)
      ensures this.subs == subs && history == [] && refused == 0 && torn == 0
    {
      this.subs := subs;
      history, refused, torn := [], 0, 0;
    }

    method GetSubscriptions() returns (listing: seq<Listed>)
      ensures Lists(listing, subs)
    {
      listing := [];
      var rest := subs.Keys;
      while rest != {}
        invariant rest <= subs.Keys
        invariant forall i :: 0 <= i < |listing| ==> listing[i].id in subs && subs[listing[i].id] == listing[i].sub
        invariant forall i :: 0 <= i < |listing| ==> listing[i].id !in rest
        invariant forall i, j :: 0 <= i < j < |listing| ==> listing[i].id != listing[j].id
        invariant forall id :: id in subs && id !in rest ==> exists i :: 0 <= i < |listing| && listing[i].id == id
        decreases |rest|
      {
        var id :| id in rest;
        ghost var before := listing;
        listing := listing + [Listed(id, subs[id])];
        rest := rest - {id};
        forall k | k in subs && k !in rest
          ensures exists i :: 0 <= i < |listing| && listing[i].id == k
        {
          if k == id {
            assert listing[|before|].id == k;
          } else {
            var i :| 0 <= i < |before| && before[i].id == k;
            assert listing[i].id == k;
          }
        }
      }
    }

    /** PATCH one subscription; unknown ids are refused. */
    method UpdateSubscription(id: SubId, enabled: bool, quantity: Option<nat>, codes: Option<seq<Code>>)
      returns (result: CallResult)
      modifies this
      ensures result.Ok? || torn == old(torn) + 1 ==>
                id in old(subs) && subs == old(subs)[id := Patched(old(subs)[id], enabled, quantity, codes)]
      ensures result.Failing? && torn == old(torn) ==> subs == old(subs)
      ensures result.Cut? ==>
                || subs == old(subs)
                || (id in old(subs) && subs == old(subs)[id := Patched(old(subs)[id], enabled, quantity, codes)])
      ensures torn == old(torn) || (result.Failing? && torn == old(torn) + 1)
      ensures refused == old(refused) + if result.Failing? then 1 else 0
      ensures history == old(history) + [subs]
    {
      var answer: Answer := *;
      answer := if id in subs || answer.Silent? then answer else Rejected;
      result := ResultOf(answer);
      if id in subs && (answer.Accepted? || answer.Torn? || (answer.Silent? && answer.applied)) {
        subs := subs[id := Patched(subs[id], enabled, quantity, codes)];
        torn := torn + if answer.Torn? then 1 else 0;
      }
      refused := refused + if result.Failing? then 1 else 0;
      history := history + [subs];
    }

    /** POST a scheduled subscription. `made` is what Adobe really created, also when the call did not
        succeed. */
    method CreateSubscription(offer: Offer, quantity: nat)
      returns (result: CallResult, created: Option<SubId>, ghost made: Option<SubId>)
      modifies this
      ensures result.Ok? <==> created.Some?
      ensures created.Some? ==> made == created
      ensures made.None? ==> subs == old(subs)
      ensures made.Some? ==>
                && made.value !in old(subs) && subs == old(subs)[made.value := NewScheduled(offer, quantity)]
                && subs[made.value].offer == offer && subs[made.value].status == Scheduled
                && subs[made.value].current == 0 && subs[made.value].renewed == None
                && subs[made.value].auto == AutoRenewal(true, Some(quantity), [])
      ensures torn == old(torn) + if result.Failing? && made.Some? then 1 else 0
      ensures refused == old(refused) + if result.Failing? then 1 else 0
      ensures history == old(history) + [subs]
    {
      var answer: Answer := *;
      result, created, made := ResultOf(answer), None, None;
      if answer.Accepted? || answer.Torn? || (answer.Silent? && answer.applied) {
        var id := FreshId(subs.Keys);
        subs := subs[id := NewScheduled(offer, quantity)];
        created, made := if answer.Accepted? then Some(id) else None, Some(id);
        torn := torn + if answer.Torn? then 1 else 0;
      }
      refused := refused + if result.Failing? then 1 else 0;
      history := history + [subs];
    }
  }

  /** From `subs` and `history` on, the history is of the states since, the last of them that of now. */
  ghost predicate LogsTo(subs: Subs, history: seq<Subs>, subs': Subs, history': seq<Subs>) {
    history <= history' && subs' == if |history'| == |history| then subs else history'[|history'|-1]
  }

  ghost predicate Logs(service: SubscriptionService, subs: Subs, history: seq<Subs>)
    reads service
  {
    LogsTo(subs, history, service.subs, service.history)
  }

  lemma LogsTwice(
    subs: Subs, history: seq<Subs>, subs': Subs, history': seq<Subs>, subs'': Subs, history'': seq<Subs>)
    requires LogsTo(subs, history, subs', history') && LogsTo(subs', history', subs'', history'')
    ensures LogsTo(subs, history, subs'', history'')
  {
  }

  function NewScheduled(offer: Offer, quantity: nat): Subscription {
    Subscription(offer, Scheduled, 0, None, AutoRenewal(true, Some(quantity), []))
  }

  method FreshId(taken: set<SubId>) returns (id: SubId)
    ensures id !in taken
  {
    id := 0;
    var below := taken;
    while id in below
      invariant forall k :: k in taken && k !in below ==> k < id
      invariant below <= taken
      decreases |below|
    {
      below := below - {id};
      id := id + 1;
    }
  }
}
