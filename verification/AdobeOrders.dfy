/** Adobe orders as the order client sees them. NEW and RENEWAL orders are kept apart from RETURN
    orders because every query of the client filters by order type. */
module AdobeOrders {
  import opened Sequences
  import opened Subscriptions

  type OrderId = nat
  type MptId = nat

  // Unrecoverable statuses have a description and fail the MPT order; any other one is unexpected.
  datatype OrderStatus = Complete | Open | Unrecoverable | Unexpected

  datatype PurchaseKind = New | Renewal

  /** External references: the MPT order id itself, or the id with a suffix. */
  datatype ExtRef = Plain(mpt: MptId) | RenewalOf(mpt: MptId)

  datatype PurchaseLine = PurchaseLine(
    number: nat, sub: SubId, sku: Sku, quantity: nat, deployment: Option<nat>, status: OrderStatus)

  datatype Purchase = Purchase(
    id: OrderId, kind: PurchaseKind, ext: ExtRef, created: int, lines: seq<PurchaseLine>, status: OrderStatus)

  /** A RETURN of one order line; its external reference starts with the MPT order id. */
  datatype ReturnOrder = ReturnOrder(
    id: OrderId, mpt: MptId, reference: OrderId, sku: Sku, quantity: nat, status: OrderStatus)

  predicate Live(status: OrderStatus) {
    status.Complete? || status.Open?
  }

  /** get_return_orders_by_external_reference, for one SKU. */
  function OwnReturns(returned: seq<ReturnOrder>, mpt: MptId, sku: Sku): seq<ReturnOrder> {
    FlatMap(returned, OwnOf(mpt, sku))
  }

  function OwnOf(mpt: MptId, sku: Sku): ReturnOrder -> seq<ReturnOrder> {
    (r: ReturnOrder) => if IsOwn(r, mpt, sku) then [r] else []
  }

  predicate IsOwn(r: ReturnOrder, mpt: MptId, sku: Sku) {
    r.mpt == mpt && r.sku == sku && Live(r.status)
  }

  /** get_item_by_subcription_id: first line of the subscription. */
  function LineOf(lines: seq<PurchaseLine>, sub: SubId): Option<PurchaseLine> {
    if lines == [] then None
    else if lines[0].sub == sub then Some(lines[0])
    else LineOf(lines[1..], sub)
  }

  /** It is the first line of the subscription, and missing only if there is none. */
  lemma {:induction false} LineOfIsFirst(lines: seq<PurchaseLine>, sub: SubId)
    ensures LineOf(lines, sub).None? <==> forall i :: 0 <= i < |lines| ==> lines[i].sub != sub
    ensures LineOf(lines, sub).Some? ==>
              exists i :: 0 <= i < |lines| && lines[i] == LineOf(lines, sub).value && lines[i].sub == sub
                          && forall j :: 0 <= j < i ==> lines[j].sub != sub
  {
    if lines != [] && lines[0].sub != sub {
      LineOfIsFirst(lines[1..], sub);
      if LineOf(lines, sub).Some? {
        var i :| 0 <= i < |lines| - 1 && lines[1..][i] == LineOf(lines, sub).value && lines[1..][i].sub == sub
          && forall j :: 0 <= j < i ==> lines[1..][j].sub != sub;
        assert lines[i+1] == lines[1..][i];
        assert forall j :: 1 <= j < i + 1 ==> lines[j] == lines[1..][j-1];
      } else {
        assert forall i :: 1 <= i < |lines| ==> lines[i] == lines[1..][i-1];
      }
    } else if lines != [] {
      assert LineOf(lines, sub) == Some(lines[0]);
    }
  }

  /** get_existing_renewal_order: the first RENEWAL order with the reference, whatever its status. */
  function ExistingRenewal(purchases: seq<Purchase>, ext: ExtRef): Option<Purchase> {
    if purchases == [] then None
    else if purchases[0].kind == Renewal && purchases[0].ext == ext then Some(purchases[0])
    else ExistingRenewal(purchases[1..], ext)
  }

  lemma {:induction false} ExistingRenewalIsThere(purchases: seq<Purchase>, ext: ExtRef)
    ensures var found := ExistingRenewal(purchases, ext);
            && (found.Some? ==> found.value in purchases && found.value.kind == Renewal && found.value.ext == ext)
            && (found.None? ==> forall i :: 0 <= i < |purchases| ==>
                !(purchases[i].kind == Renewal && purchases[i].ext == ext))
  {
    if purchases != [] {
      ExistingRenewalIsThere(purchases[1..], ext);
    }
  }

  lemma {:induction false} ExistingRenewalPlaced(purchases: seq<Purchase>, placed: Purchase, ext: ExtRef)
    requires ExistingRenewal(purchases, ext).None? && placed.kind == Renewal && placed.ext == ext
    ensures ExistingRenewal(purchases + [placed], ext) == Some(placed)
  {
    if purchases != [] {
      ExistingRenewalPlaced(purchases[1..], placed, ext);
      assert (purchases + [placed])[1..] == purchases[1..] + [placed];
    }
  }

  /******* What one MPT order placed *******/

  predicate Places(p: Purchase, kind: PurchaseKind, ext: ExtRef) {
    p.kind == kind && p.ext == ext
  }

  ghost predicate AtMostOne(purchases: seq<Purchase>, kind: PurchaseKind, ext: ExtRef) {
    forall i, j :: 0 <= i < j < |purchases| ==> !(Places(purchases[i], kind, ext) && Places(purchases[j], kind, ext))
  }

  ghost predicate HasComplete(purchases: seq<Purchase>, kind: PurchaseKind, ext: ExtRef) {
    exists i :: 0 <= i < |purchases| && Places(purchases[i], kind, ext) && purchases[i].status.Complete?
  }

  /** Orders stay; only open ones change status; orders of others may appear. */
  predicate PurchasesMove(before: seq<Purchase>, after: seq<Purchase>, mpt: MptId) {
    && |before| <= |after|
    && (forall i :: 0 <= i < |before| ==>
                      && after[i].id == before[i].id && after[i].kind == before[i].kind && after[i].ext == before[i].ext
                      && (after[i].status == before[i].status || before[i].status.Open?))
    && (forall i :: |before| <= i < |after| ==> after[i].ext.mpt != mpt)
  }

  /** The same for returns. */
  predicate ReturnsMove(before: seq<ReturnOrder>, after: seq<ReturnOrder>, mpt: MptId) {
    && |before| <= |after|
    && (forall i :: 0 <= i < |before| ==>
                      && after[i].(status := Open) == before[i].(status := Open)
                      && (after[i].status == before[i].status || before[i].status.Open?))
    && (forall i :: |before| <= i < |after| ==> after[i].mpt != mpt)
  }

  lemma PurchasesMoveTwice(first: seq<Purchase>, second: seq<Purchase>, third: seq<Purchase>, mpt: MptId)
    requires PurchasesMove(first, second, mpt) && PurchasesMove(second, third, mpt)
    ensures PurchasesMove(first, third, mpt)
  {
  }

  lemma PurchasesMoveKeeps(before: seq<Purchase>, after: seq<Purchase>, mpt: MptId, kind: PurchaseKind, ext: ExtRef)
    requires PurchasesMove(before, after, mpt) && ext.mpt == mpt
    ensures AtMostOne(before, kind, ext) ==> AtMostOne(after, kind, ext)
    ensures HasComplete(before, kind, ext) ==> HasComplete(after, kind, ext)
    ensures ExistingRenewal(before, ext).Some? ==> ExistingRenewal(after, ext).Some?
  {
    if i :| 0 <= i < |before| && Places(before[i], kind, ext) && before[i].status.Complete? {
      assert Places(after[i], kind, ext);
    }
    ExistingRenewalIsThere(before, ext);
    ExistingRenewalIsThere(after, ext);
    if ExistingRenewal(before, ext).Some? {
      var i :| 0 <= i < |before| && before[i] == ExistingRenewal(before, ext).value;
      assert Places(after[i], Renewal, ext);
    }
  }

  /******* The MPT order *******/

  datatype MptStatus = Processing | Failed | Completed

  // Next: on to the next step; Stop: the attempt ends here; Crash: it was cut short.
  datatype Flow = Next | Stop | Crash

  /** Why an attempt stopped on an order: it waits for an open one; it fails without one (Adobe refused
      it) or with one whose status is final and not complete. */
  ghost predicate StopsOn(order: Option<Purchase>, status: MptStatus) {
    match status
    case Processing => order.Some? && order.value.status.Open?
    case Failed => order.None? || order.value.status.Unrecoverable? || order.value.status.Unexpected?
    case Completed => false
  }
}
