/** Fulfillment of a change order over any number of attempts: one RENEWAL order for the manual
    renewals, one NEW order for what goes up, and only then the returns for what goes down. A failed
    update of the renewal quantities returns the NEW order and leaves the order to be retried. */
module ChangeOrder {
  import opened AdobeOrders
  import opened ReturnCandidates
  import opened ReturnOrders
  import opened ReturnSelection
  import opened Subscriptions
  import Splitter = ManualRenewalSplit

  /** NEW orders this MPT order has at Adobe. */
  function OwnNew(orders: seq<Purchase>, mpt: MptId): nat {
    if orders == [] then 0
    else OwnNew(orders[..|orders|-1], mpt) + if Places(orders[|orders|-1], New, Plain(mpt)) then 1 else 0
  }

  lemma {:induction false} OwnNewMoves(before: seq<Purchase>, after: seq<Purchase>, mpt: MptId)
    requires PurchasesMove(before, after, mpt)
    ensures OwnNew(after, mpt) == OwnNew(before, mpt)
    decreases |after|
  {
    if |after| > |before| {
      OwnNewMoves(before, after[..|after|-1], mpt);
    } else if before != [] {
      OwnNewMoves(before[..|before|-1], after[..|after|-1], mpt);
    }
  }

  lemma {:induction false} OwnNewIsThere(orders: seq<Purchase>, mpt: MptId)
    ensures OwnNew(orders, mpt) > 0 <==> exists i :: 0 <= i < |orders| && Places(orders[i], New, Plain(mpt))
  {
    if orders != [] {
      var front := orders[..|orders|-1];
      OwnNewIsThere(front, mpt);
      assert forall i :: 0 <= i < |front| ==> front[i] == orders[i];
    }
  }

  lemma {:induction false} OwnNewCounts(orders: seq<Purchase>, mpt: MptId)
    ensures OwnNew(orders, mpt) <= 1 <==> AtMostOne(orders, New, Plain(mpt))
  {
    if orders != [] {
      var front, last := orders[..|orders|-1], |orders| - 1;
      OwnNewCounts(front, mpt);
      OwnNewIsThere(front, mpt);
      assert forall i :: 0 <= i < last ==> front[i] == orders[i];
      if AtMostOne(orders, New, Plain(mpt)) {
        assert AtMostOne(front, New, Plain(mpt));
      } else if AtMostOne(front, New, Plain(mpt)) {
        assert Places(orders[last], New, Plain(mpt));
      }
    }
  }

  /** The saved NEW order, looked up by its id. */
  function OrderOf(orders: seq<Purchase>, id: OrderId): Option<Purchase> {
    if orders == [] then None
    else if orders[0].id == id then Some(orders[0])
    else OrderOf(orders[1..], id)
  }

  lemma {:induction false} OrderOfIsThere(orders: seq<Purchase>, id: OrderId, i: nat)
    requires DistinctPurchases(orders) && i < |orders| && orders[i].id == id
    ensures OrderOf(orders, id) == Some(orders[i])
  {
    if i > 0 {
      assert orders[0].id != orders[i].id;
      OrderOfIsThere(orders[1..], id, i - 1);
    }
  }

  ghost predicate Saved(orders: seq<Purchase>, id: OrderId, mpt: MptId) {
    exists i :: 0 <= i < |orders| && orders[i].id == id && Places(orders[i], New, Plain(mpt))
  }

  ghost predicate SavedComplete(orders: seq<Purchase>, id: OrderId, mpt: MptId) {
    exists i :: 0 <= i < |orders| && orders[i].id == id && Places(orders[i], New, Plain(mpt))
                && orders[i].status.Complete?
  }

  lemma SavedMoves(before: seq<Purchase>, after: seq<Purchase>, id: OrderId, mpt: MptId)
    requires PurchasesMove(before, after, mpt)
    ensures Saved(before, id, mpt) ==> Saved(after, id, mpt)
    ensures SavedComplete(before, id, mpt) ==> SavedComplete(after, id, mpt)
  {
  }

  lemma PlacedKeeps(orders: seq<Purchase>, placed: Purchase, id: OrderId, mpt: MptId)
    ensures Saved(orders, id, mpt) ==> Saved(orders + [placed], id, mpt)
    ensures SavedComplete(orders, id, mpt) ==> SavedComplete(orders + [placed], id, mpt)
    ensures Places(placed, New, Plain(mpt)) ==> Saved(orders + [placed], placed.id, mpt)
    ensures Places(placed, New, Plain(mpt)) && placed.status.Complete? ==>
              SavedComplete(orders + [placed], placed.id, mpt)
    ensures HasComplete(orders, Renewal, RenewalOf(mpt)) ==> HasComplete(orders + [placed], Renewal, RenewalOf(mpt))
    ensures OwnNew(orders + [placed], mpt) == OwnNew(orders, mpt) + if Places(placed, New, Plain(mpt)) then 1 else 0
    ensures AtMostOne(orders, Renewal, RenewalOf(mpt))
            && (ExistingRenewal(orders, RenewalOf(mpt)).None? || placed.kind == New) ==>
              AtMostOne(orders + [placed], Renewal, RenewalOf(mpt))
  {
    var after := orders + [placed];
    assert after[..|orders|] == orders && after[|orders|] == placed;
    assert forall i :: 0 <= i < |orders| ==> after[i] == orders[i];
    ExistingRenewalIsThere(orders, RenewalOf(mpt));
    if i :| 0 <= i < |orders| && orders[i].id == id && Places(orders[i], New, Plain(mpt)) {
      assert Places(after[i], New, Plain(mpt));
    }
    if i :|
       0 <= i < |orders| && orders[i].id == id && Places(orders[i], New, Plain(mpt))
       && orders[i].status.Complete? {
      assert Places(after[i], New, Plain(mpt));
    }
    if i :| 0 <= i < |orders| && Places(orders[i], Renewal, RenewalOf(mpt)) && orders[i].status.Complete? {
      assert Places(after[i], Renewal, RenewalOf(mpt));
    }
  }

  /** At most one RENEWAL order, and as many NEW orders as were saved or lost. */
  ghost predicate OrdersValid(orders: seq<Purchase>, newOrderId: Option<OrderId>, lost: nat, mpt: MptId) {
    && DistinctPurchases(orders)
    && AtMostOne(orders, Renewal, RenewalOf(mpt))
    && OwnNew(orders, mpt) == lost + (if newOrderId.Some? then 1 else 0)
    && (newOrderId.Some? ==> Saved(orders, newOrderId.value, mpt))
  }

  ghost predicate RenewalDone(orders: seq<Purchase>, mpt: MptId) {
    HasComplete(orders, Renewal, RenewalOf(mpt))
  }

  ghost predicate NewDone(orders: seq<Purchase>, newOrderId: Option<OrderId>, mpt: MptId) {
    newOrderId.Some? && SavedComplete(orders, newOrderId.value, mpt)
  }

  lemma TimePasses(before: seq<Purchase>, after: seq<Purchase>, newOrderId: Option<OrderId>, lost: nat, mpt: MptId)
    requires OrdersValid(before, newOrderId, lost, mpt)
    requires PurchasesMove(before, after, mpt) && DistinctPurchases(after)
    ensures OrdersValid(after, newOrderId, lost, mpt)
    ensures RenewalDone(before, mpt) ==> RenewalDone(after, mpt)
    ensures NewDone(before, newOrderId, mpt) ==> NewDone(after, newOrderId, mpt)
  {
    OwnNewMoves(before, after, mpt);
    PurchasesMoveKeeps(before, after, mpt, Renewal, RenewalOf(mpt));
    if newOrderId.Some? {
      SavedMoves(before, after, newOrderId.value, mpt);
    }
  }

  lemma RenewalPlaced(orders: seq<Purchase>, placed: Purchase, newOrderId: Option<OrderId>, lost: nat, mpt: MptId)
    requires OrdersValid(orders, newOrderId, lost, mpt) && ExistingRenewal(orders, RenewalOf(mpt)).None?
    requires Places(placed, Renewal, RenewalOf(mpt)) && DistinctPurchases(orders + [placed])
    ensures OrdersValid(orders + [placed], newOrderId, lost, mpt)
    ensures RenewalDone(orders, mpt) ==> RenewalDone(orders + [placed], mpt)
    ensures NewDone(orders, newOrderId, mpt) ==> NewDone(orders + [placed], newOrderId, mpt)
    ensures placed.status.Complete? ==> RenewalDone(orders + [placed], mpt)
  {
    PlacedKeeps(orders, placed, if newOrderId.Some? then newOrderId.value else 0, mpt);
    assert (orders + [placed])[|orders|] == placed;
  }

  lemma {:induction false} NewPlaced(orders: seq<Purchase>, placed: Purchase, lost: nat, mpt: MptId)
    requires OrdersValid(orders, None, lost, mpt)
    requires Places(placed, New, Plain(mpt)) && DistinctPurchases(orders + [placed])
    ensures OrdersValid(orders + [placed], None, lost + 1, mpt)
    ensures OrdersValid(orders + [placed], Some(placed.id), lost, mpt)
    ensures RenewalDone(orders, mpt) ==> RenewalDone(orders + [placed], mpt)
    ensures placed.status.Complete? ==> NewDone(orders + [placed], Some(placed.id), mpt)
    ensures !NewDone(orders, None, mpt)
  {
    PlacedKeeps(orders, placed, placed.id, mpt);
  }

  lemma NewPlacedIsFound(orders: seq<Purchase>, placed: Purchase, mpt: MptId)
    requires DistinctPurchases(orders + [placed])
    ensures OrderOf(orders + [placed], placed.id) == Some(placed)
    ensures NewDone(orders + [placed], Some(placed.id), mpt) ==> placed.status.Complete?
  {
    assert (orders + [placed])[|orders|] == placed;
    OrderOfIsThere(orders + [placed], placed.id, |orders|);
  }

  lemma StillDistinct(orders: seq<Purchase>, newOrderId: Option<OrderId>, lost: nat, mpt: MptId)
    requires OrdersValid(orders, newOrderId, lost, mpt)
    ensures DistinctPurchases(orders)
  {
  }

  lemma RenewalFound(orders: seq<Purchase>, mpt: MptId)
    requires ExistingRenewal(orders, RenewalOf(mpt)).Some?
    ensures ExistingRenewal(orders, RenewalOf(mpt)).value.status.Complete? ==> RenewalDone(orders, mpt)
  {
  }

  lemma NewFound(orders: seq<Purchase>, newOrderId: Option<OrderId>, lost: nat, mpt: MptId)
    requires OrdersValid(orders, newOrderId, lost, mpt) && newOrderId.Some?
    ensures OrderOf(orders, newOrderId.value).Some?
    ensures OrderOf(orders, newOrderId.value).value.status.Complete? ==> NewDone(orders, newOrderId, mpt)
  {
    var i :| 0 <= i < |orders| && orders[i].id == newOrderId.value && Places(orders[i], New, Plain(mpt));
    OrderOfIsThere(orders, newOrderId.value, i);
  }

  /******* The steps that place orders *******/

  function SavedStatus(orders: seq<Purchase>, newOrderId: Option<OrderId>): Option<OrderStatus> {
    if newOrderId.None? || OrderOf(orders, newOrderId.value).None? then None
    else Some(OrderOf(orders, newOrderId.value).value.status)
  }

  /** What SubmitNewOrder decides once it knows the saved NEW order: without lines, or without a preview
      and a saved order, it goes on. */
  function NewDecision(hasNew: bool, saved: Option<OrderStatus>): Flow {
    if !hasNew || saved.None? || saved.value.Complete? then Next else Stop
  }

  // What placing an order came to: the worker died or Adobe refused, the order was placed and lost, or it
  // was placed and is known.
  datatype PlaceAnswer = Dies | Refused | Lost(status: OrderStatus) | Placed(status: OrderStatus)

  // What a step that writes the renewal quantities came to: all was written; an error was rolled back,
  // whether it is one that fails the MPT order, and what became of the RETURN of the NEW order that ends
  // the rollback; or an error was raised.
  datatype UpdateAnswer = Written | RolledBack(fails: bool, undo: CreateAnswer) | Raised

  // What one attempt finds and is told.
  datatype AttemptInput = AttemptInput(
    now: Moment, index: Splitter.Index, previews: Splitter.Previews, previewed: bool,
    renewal: PlaceAnswer, order: PlaceAnswer, up: UpdateAnswer, down: UpdateAnswer)

  ghost predicate Undoes(answer: UpdateAnswer) {
    answer.RolledBack? && answer.undo.Taken?
  }

  /** No return of the saved NEW order is live. */
  predicate NewKept(newReturns: seq<ReturnOrder>) {
    forall i :: 0 <= i < |newReturns| ==> !Live(newReturns[i].status)
  }

  lemma ReturnsMoveTwice(first: seq<ReturnOrder>, second: seq<ReturnOrder>, third: seq<ReturnOrder>, mpt: MptId)
    requires ReturnsMove(first, second, mpt) && ReturnsMove(second, third, mpt)
    requires |first| == |second| == |third|
    ensures ReturnsMove(first, third, mpt)
  {
    forall i | 0 <= i < |first|
      ensures third[i].(status := Open) == first[i].(status := Open)
    {
      assert second[i].(status := Open) == first[i].(status := Open);
    }
  }

  /** The NEW order is surely not being returned at the end of an attempt that places no return of it, if
      and only if it is not when the attempt lists the returns. */
  lemma NewKeptIff(listed: seq<ReturnOrder>, mpt: MptId)
    ensures (forall left: seq<ReturnOrder> ::
               |left| == |listed| && ReturnsMove(listed, left, mpt) ==> NewKept(left)) <==>
            NewKept(listed)
  {
    if NewKept(listed) {
      forall left: seq<ReturnOrder> | |left| == |listed| && ReturnsMove(listed, left, mpt)
        ensures NewKept(left)
      {
        forall i | 0 <= i < |left|
          ensures !Live(left[i].status)
        {
          assert left[i].(status := Open) == listed[i].(status := Open);
        }
      }
    } else {
      assert ReturnsMove(listed, listed, mpt);
    }
  }

  /** What lets an attempt that listed the returns at the moment `at` past the choice of returns: it is near the
      coterm date, the order is returning something already (`others` are the returns of its NEW order), or
      every line has a choice or had nothing returnable when it was listed. */
  ghost predicate Covered(
    history: seq<View>, at: nat, mpt: MptId, lines: seq<DownsizeLine>, now: Moment, others: seq<ReturnOrder>,
    chosen: seq<seq<Candidate>>)
    requires at < |history| && |chosen| == |lines|
  {
    var seen := history[at].returned;
    || now.nearCoterm
    || (exists i :: 0 <= i < |others| && (others[i].status.Complete? || others[i].status.Open?))
    || (exists i :: 0 <= i < |seen| && seen[i].mpt == mpt && (seen[i].status.Complete? || seen[i].status.Open?))
    || (forall k :: 0 <= k < |lines| ==> chosen[k] != [] || WasListed(history, at, mpt, lines[k], now, []))
  }

  lemma StillCovered(
    history: seq<View>, later: seq<View>, at: nat, mpt: MptId, lines: seq<DownsizeLine>, now: Moment,
    others: seq<ReturnOrder>, chosen: seq<seq<Candidate>>)
    requires at < |history| && |chosen| == |lines| && history <= later
    requires Covered(history, at, mpt, lines, now, others, chosen)
    ensures Covered(later, at, mpt, lines, now, others, chosen)
  {
    hide WasListed;
    forall k | 0 <= k < |lines| && WasListed(history, at, mpt, lines[k], now, [])
      ensures WasListed(later, at, mpt, lines[k], now, [])
    {
      StillListed(history, later, at, mpt, lines[k], now, []);
    }
  }

  function Unsplit(upsize: seq<Splitter.Line>, newLines: seq<Splitter.Line>): Splitter.Lines {
    Splitter.Lines(upsize, newLines, [], [])
  }

  predicate ReturnsNew(newReturns: seq<ReturnOrder>, newOrderId: Option<OrderId>, mpt: MptId) {
    forall i :: 0 <= i < |newReturns| ==> newReturns[i].mpt == mpt && newOrderId == Some(newReturns[i].reference)
  }

  lemma NewReturnsMove(before: seq<ReturnOrder>, after: seq<ReturnOrder>, newOrderId: Option<OrderId>, mpt: MptId)
    requires ReturnsNew(before, newOrderId, mpt) && ReturnsMove(before, after, mpt) && |after| == |before|
    ensures ReturnsNew(after, newOrderId, mpt)
  {
    forall i | 0 <= i < |after|
      ensures after[i].mpt == mpt && newOrderId == Some(after[i].reference)
    {
      assert after[i].(status := Open) == before[i].(status := Open);
    }
  }

  lemma ReturnsStay(returned: seq<ReturnOrder>, mpt: MptId)
    ensures ReturnsMove(returned, returned, mpt)
  {
  }

  /** `lines` is what a first attempt computed and persisted. */
  ghost predicate IsPersisted(
    stored: Option<Splitter.Stored>, lines: Splitter.Lines, upsize: seq<Splitter.Line>, newLines: seq<Splitter.Line>)
  {
    && stored == Some(Splitter.Split(lines.manual, lines.diverted))
    && exists index, refused :: Splitter.ComputedSplit(Unsplit(upsize, newLines), lines, index, refused)
  }

  predicate HasNew(lines: Splitter.Lines) {
    lines.upsize != [] || lines.newLines != []
  }

  class ChangeOrder {
    const mpt: MptId
    const upsize: seq<Splitter.Line>
    const newLines: seq<Splitter.Line>
    const downsizes: ReturnFlow
    var orders: seq<Purchase>
    var newOrderId: Option<OrderId>
    // Returns of the saved NEW order, placed by rollbacks.
    var newReturns: seq<ReturnOrder>
    var stored: Option<Splitter.Stored>
    var status: MptStatus
    // The lines as a persisted split left them.
    ghost var persisted: Option<Splitter.Lines>
    // NEW orders placed whose id was lost before it was saved on the MPT order.
    ghost var lost: nat

    constructor (mpt: MptId, upsize: seq<Splitter.Line>, newLines: seq<Splitter.Line>, downsizes: ReturnFlow,
                 orders: seq<Purchase>)
      requires downsizes.mpt == mpt && downsizes.Valid()
      requires Splitter.DistinctIds(upsize + newLines)
      requires DistinctPurchases(orders) && forall i :: 0 <= i < |orders| ==> orders[i].ext.mpt != mpt
      ensures Valid() && status.Processing? && lost == 0 && newReturns == [] && this.downsizes == downsizes
    {
      this.mpt, this.upsize, this.newLines, this.downsizes := mpt, upsize, newLines, downsizes;
      this.orders, newOrderId, newReturns, lost := orders, None, [], 0;
      stored, status, persisted := None, Processing, None;
      new;
      OwnNewIsThere(orders, mpt);
    }

    /** At most one RENEWAL order, NEW orders saved or lost, returns of the saved one only, a split that is
        persisted for good. */
    ghost predicate Valid()
      reads this, downsizes
    {
      && downsizes.mpt == mpt && downsizes.Valid()
      && Splitter.DistinctIds(upsize + newLines)
      && OrdersValid(orders, newOrderId, lost, mpt)
      && ReturnsNew(newReturns, newOrderId, mpt)
      && (stored.Some? <==> persisted.Some?)
      && (persisted.Some? ==> IsPersisted(stored, persisted.value, upsize, newLines))
    }

    /** What the order renews manually and orders anew: the persisted split, or else the order's own lines. */
    ghost function OrderLines(): Splitter.Lines
      reads this
    {
      if persisted.Some? then persisted.value else Unsplit(upsize, newLines)
    }

    /** What has to be placed before anything is returned is complete; only an attempt that previews nothing
        to order goes on without a NEW order. */
    ghost predicate AdditiveDone(previewed: bool)
      reads this
    {
      && (OrderLines().manual != [] ==> RenewalDone(orders, mpt))
      && (OrderLines().upsize + OrderLines().newLines != [] ==>
            NewDone(orders, newOrderId, mpt) || (!previewed && newOrderId.None?))
    }

    /** Time passes between two steps; the run may be cut short. */
    method Tick() returns (alive: bool)
      requires Valid()
      modifies `orders, `newReturns, downsizes
      ensures Valid() && KeepsLines(old(downsizes.purchases), downsizes.purchases)
      ensures old(downsizes.history) <= downsizes.history && downsizes.listings == old(downsizes.listings)
      ensures Settled(old(downsizes.returned), downsizes.returned, mpt)
      ensures |newReturns| == |old(newReturns)| && ReturnsMove(old(newReturns), newReturns, mpt)
      ensures RenewalDone(old(orders), mpt) ==> RenewalDone(orders, mpt)
      ensures NewDone(old(orders), newOrderId, mpt) ==> NewDone(orders, newOrderId, mpt)
    {
      hide OrdersValid, RenewalDone, NewDone, Settled, PurchasesMove, DistinctPurchases, IsPersisted;
      hide ReturnFlow.Valid, KeepsLines, ReturnsMove, ReturnsNew;
      alive := *;
      downsizes.Tick([]);
      ReturnsStay(newReturns, mpt);
      var newReturns' := *;
      if |newReturns'| == |newReturns| && ReturnsMove(newReturns, newReturns', mpt) {
        NewReturnsMove(newReturns, newReturns', newOrderId, mpt);
        newReturns := newReturns';
      }
      var orders' := *;
      if PurchasesMove(orders, orders', mpt) && DistinctPurchases(orders') {
        TimePasses(orders, orders', newOrderId, lost, mpt);
        orders := orders';
      }
    }

    /** One order placed at Adobe, which gives it an id. */
    method PlaceOrder(kind: PurchaseKind, ext: ExtRef, first: OrderStatus) returns (placed: Purchase)
      requires DistinctPurchases(orders)
      modifies `orders
      ensures orders == old(orders) + [placed] && DistinctPurchases(orders)
      ensures Places(placed, kind, ext) && placed.status == first
    {
      var id := FreshId(set p | p in orders :: p.id);
      var created: int := *;
      var lines: seq<PurchaseLine> := *;
      placed := Purchase(id, kind, ext, created, lines, first);
      orders := orders + [placed];
    }

    /** PreviewRenewalOrders and SubmitRenewalOrders: reuse the RENEWAL order found by its reference,
        or preview and place it. */
    method SubmitRenewal(hasManual: bool, answer: PlaceAnswer) returns (flow: Flow)
      requires Valid() && status.Processing?
      modifies `orders, `status
      ensures Valid() && (status == old(status) || (flow.Stop? && status.Failed?))
      ensures flow.Next? && hasManual ==> RenewalDone(orders, mpt)
      ensures RenewalDone(old(orders), mpt) ==> RenewalDone(orders, mpt)
      ensures NewDone(old(orders), newOrderId, mpt) ==> NewDone(orders, newOrderId, mpt)
      ensures !hasManual ==> flow.Next? && orders == old(orders)
      ensures flow.Stop? ==> StopsOn(ExistingRenewal(orders, RenewalOf(mpt)), status)
    {
      hide OrdersValid, RenewalDone, NewDone, ExistingRenewal, IsPersisted, ReturnFlow.Valid;
      if !hasManual {
        return Next;
      }
      var order := ExistingRenewal(orders, RenewalOf(mpt));
      if order.None? {
        if answer.Dies? {
          return Crash;
        }
        if answer.Refused? {
          status := Failed;
          return Stop;
        }
        ghost var before := orders;
        StillDistinct(orders, newOrderId, lost, mpt);
        var placed := PlaceOrder(Renewal, RenewalOf(mpt), answer.status);
        RenewalPlaced(before, placed, newOrderId, lost, mpt);
        ExistingRenewalPlaced(before, placed, RenewalOf(mpt));
        if answer.Lost? {
          return Crash;
        }
        order := Some(placed);
      } else {
        RenewalFound(orders, mpt);
      }
      match order.value.status {
        case Open =>
          return Stop;
        case Complete =>
          return Next;
        case _ =>
          status := Failed;
          return Stop;
      }
    }

    /** SubmitNewOrder: the order saved on the MPT order, or a new one from the preview. Without a
        preview there was nothing to order, and the attempt goes on. */
    method SubmitNew(hasNew: bool, previewed: bool, answer: PlaceAnswer) returns (flow: Flow)
      requires Valid() && status.Processing?
      modifies `orders, `newOrderId, `status, `lost
      ensures Valid() && (status == old(status) || (flow.Stop? && status.Failed?))
      ensures RenewalDone(old(orders), mpt) ==> RenewalDone(orders, mpt)
      ensures NewDone(old(orders), old(newOrderId), mpt) ==> NewDone(orders, newOrderId, mpt)
      ensures !flow.Crash? ==> flow == NewDecision(hasNew, SavedStatus(orders, newOrderId))
      ensures flow.Next? && hasNew ==> if newOrderId.Some? then NewDone(orders, newOrderId, mpt) else !previewed
      ensures !hasNew || (!previewed && old(newOrderId).None?) ==>
                flow.Next? && orders == old(orders) && newOrderId == old(newOrderId)
      ensures flow.Stop? ==> newOrderId.Some? && StopsOn(OrderOf(orders, newOrderId.value), status)
      ensures old(newOrderId).Some? ==>
                !flow.Crash? && newOrderId == old(newOrderId) && lost == old(lost) && orders == old(orders)
      ensures hasNew && previewed && old(newOrderId).None? && answer.Placed? ==>
                && !flow.Crash? && newOrderId.Some? && SavedStatus(orders, newOrderId) == Some(answer.status)
                && (NewDone(orders, newOrderId, mpt) <==> answer.status.Complete?)
    {
      hide OrdersValid, RenewalDone, NewDone, OrderOf, IsPersisted, ReturnFlow.Valid;
      if !hasNew {
        return Next;
      }
      var order;
      if newOrderId.Some? {
        NewFound(orders, newOrderId, lost, mpt);
        order := OrderOf(orders, newOrderId.value).value;
      } else {
        if !previewed {
          return Next;
        }
        if answer.Dies? || answer.Refused? {
          return Crash;
        }
        ghost var before := orders;
        StillDistinct(orders, newOrderId, lost, mpt);
        order := PlaceOrder(New, Plain(mpt), answer.status);
        NewPlaced(before, order, lost, mpt);
        if answer.Lost? {
          lost := lost + 1;
          return Crash;
        }
        newOrderId := Some(order.id);
        NewPlacedIsFound(before, order, mpt);
      }
      match order.status {
        case Open =>
          return Stop;
        case Complete =>
          return Next;
        case _ =>
          status := Failed;
          return Stop;
      }
    }

    /** CheckManualRenewalSubscriptions on the order's lines; a persisted split is reproduced. */
    method Split(index: Splitter.Index, previews: Splitter.Previews) returns (ok: bool, lines: Splitter.Lines)
      requires Valid()
      modifies `stored, `persisted
      ensures Valid()
      ensures old(persisted).Some? ==> ok && lines == old(persisted).value && persisted == old(persisted)
      ensures ok ==> lines == OrderLines()
      ensures ok && old(persisted).None? && (lines.manual != [] || lines.diverted != []) ==> persisted == Some(lines)
      ensures ok && old(persisted).None? ==>
                && Splitter.RestMeans(upsize, newLines, index, lines)
                && exists refused ::
                     && Splitter.EntriesMean(upsize, newLines, index, refused, lines)
                     && Splitter.RefusedAre(upsize + newLines, index, previews, refused)
    {
      hide OrdersValid, ReturnFlow.Valid, Splitter.EntriesMean, Splitter.RestMeans, Splitter.RefusedAre,
        Splitter.Survives, Splitter.Isolated, Splitter.Infos;
      var context := new Splitter.SplitContext(upsize, newLines, stored);
      ghost var refused;
      ok, refused := context.CheckManualRenewals(index, previews);
      lines := context.lines;
      stored := context.stored;
      if persisted.None? && stored.Some? {
        persisted := Some(lines);
        assert Splitter.ComputedSplit(Unsplit(upsize, newLines), lines, index, refused);
      } else if ok && persisted.None? {
        Splitter.EmptySplit(Unsplit(upsize, newLines), lines, index, refused);
      }
    }

    /** A step that writes renewal quantities. An error is rolled back, which ends with a RETURN of the NEW
        order this attempt read or placed (`known`); two error codes fail the MPT order, any other leaves it
        to be retried. */
    method Update(answer: UpdateAnswer, known: bool) returns (flow: Flow)
      requires Valid() && status.Processing? && (known ==> newOrderId.Some?)
      modifies `newReturns, `status
      ensures Valid()
      ensures flow.Next? <==> answer.Written?
      ensures status == if answer.RolledBack? && answer.fails then Failed else old(status)
      ensures if known && answer.RolledBack? && answer.undo.Taken? then
                && |newReturns| == |old(newReturns)| + 1 && old(newReturns) < newReturns
                && newReturns[|newReturns|-1].reference == newOrderId.value
                && newReturns[|newReturns|-1].status == answer.undo.status
              else newReturns == old(newReturns)
    {
      hide OrdersValid, ReturnFlow.Valid, IsPersisted;
      match answer {
        case Written =>
          return Next;
        case Raised =>
          return Crash;
        case RolledBack(fails, undo) =>
          if known && undo.Taken? {
            newReturns := newReturns + [ReturnOrder(|newReturns|, mpt, newOrderId.value, 0, 0, undo.status)];
          }
          if fails {
            status := Failed;
          }
          return Stop;
      }
    }

    /** One fulfillment attempt. The choice of returns comes first and the returns last; steps that place no
        order are only ever able to stop the attempt. A return comes alive only once the RENEWAL order is
        complete and the NEW order is, or this very attempt had nothing to order. `undid` says that a
        rollback returned the NEW order. */
    method Attempt(input: AttemptInput)
      returns (chosen: seq<seq<Candidate>>, ghost accepted: bool, ghost undid: bool)
      requires Valid() && status.Processing? && (downsizes.steady ==> input.now.window == downsizes.window)
      modifies this, downsizes
      ensures Valid()
      ensures old(persisted).Some? ==> persisted == old(persisted)
      ensures RenewalDone(old(orders), mpt) ==> RenewalDone(orders, mpt)
      ensures NewDone(old(orders), old(newOrderId), mpt) ==> NewDone(orders, newOrderId, mpt)
      ensures Settled(old(downsizes.returned), downsizes.returned, mpt) || AdditiveDone(input.previewed)
      ensures old(downsizes.history) <= downsizes.history && old(downsizes.listings) <= downsizes.listings
      ensures |downsizes.listings| == |old(downsizes.listings)| + 1
              && |old(downsizes.history)| - 1 <= downsizes.Listing() < |downsizes.history|
      ensures |chosen| == |downsizes.lines| && (accepted ==>
                Covered(
                  downsizes.history, downsizes.Listing(), mpt, downsizes.lines, input.now, old(newReturns), chosen))
      ensures !accepted ==>
                && status.Failed? && orders == old(orders) && newReturns == old(newReturns)
                && newOrderId == old(newOrderId) && stored == old(stored)
      ensures input.now.nearCoterm || (exists i :: 0 <= i < |old(newReturns)| && Live(old(newReturns)[i].status)) ==>
                accepted
      ensures status.Completed? ==>
                && AdditiveDone(input.previewed) && !undid
                && (OrderLines().upsize + OrderLines().newLines != [] && input.previewed ==>
                      NewDone(orders, newOrderId, mpt))
                && downsizes.GotThrough(input.now, chosen)
                && ReturnsMove(old(newReturns), newReturns, mpt)
      ensures |newReturns| == |old(newReturns)| + if undid then 1 else 0
      ensures undid ==> HasNew(OrderLines()) && newOrderId.Some? && (Undoes(input.up) || Undoes(input.down))
    {
      hide OrdersValid, RenewalDone, NewDone, Settled, IsPersisted, ReturnFlow.Valid, OrderOf, AllFit, KeepsLines;
      hide ReturnFlow.GotThrough, ReturnsMove, ReturnsNew, Undoes, SavedStatus, ExistingRenewal;
      hide HasReturns, ChoiceOf, ChosenFrom, WasListed, WasReturnable, Covered;
      hide Splitter.EntriesMean, Splitter.RestMeans, Splitter.RefusedAre;
      undid := false;
      ghost var returned0 := downsizes.returned;
      var others := !NewKept(newReturns);
      var seen, listed, covered;
      seen, listed, chosen, covered := downsizes.ChooseReturns(input.now, others);
      accepted := covered;
      if !covered {
        status := Failed;
        return;
      }
      ghost var history0 := downsizes.history;
      IsCovered(seen, listed, chosen, input.now);
      var ok, lines := Split(input.index, input.previews);
      if !ok {
        status := Failed;
        return;
      }
      var flow := PlaceOrders(input, lines, seen, returned0, chosen);
      StillCovered(history0, downsizes.history, downsizes.Listing(), mpt, downsizes.lines, input.now, old(newReturns),
                   chosen);
      if !flow.Next? {
        return;
      }
      undid := Finish(input, HasNew(lines) && newOrderId.Some?, seen, chosen);
      StillCovered(history0, downsizes.history, downsizes.Listing(), mpt, downsizes.lines, input.now, old(newReturns),
                   chosen);
    }

    lemma IsCovered(seen: seq<ReturnOrder>, listed: seq<seq<Candidate>>, chosen: seq<seq<Candidate>>, now: Moment)
      requires downsizes.listings != [] && downsizes.Listing() < |downsizes.history|
      requires |listed| == |chosen| == |downsizes.lines| && seen == downsizes.history[downsizes.Listing()].returned
      requires forall k :: 0 <= k < |downsizes.lines| ==>
                 WasListed(downsizes.history, downsizes.Listing(), mpt, downsizes.lines[k], now, listed[k])
      requires || now.nearCoterm || !NewKept(newReturns)
               || (exists i :: 0 <= i < |seen| && seen[i].mpt == mpt
                               && (seen[i].status.Complete? || seen[i].status.Open?))
               || (forall k :: 0 <= k < |downsizes.lines| ==> listed[k] == [] || chosen[k] != [])
      ensures Covered(
                downsizes.history, downsizes.Listing(), mpt, downsizes.lines, now, newReturns, chosen)
    {
      hide WasListed;
    }

    /** The additive orders of an attempt: RENEWAL, then NEW. */
    method PlaceOrders(
      input: AttemptInput, lines: Splitter.Lines, ghost seen: seq<ReturnOrder>, ghost first: seq<ReturnOrder>,
      ghost chosen: seq<seq<Candidate>>)
      returns (flow: Flow)
      requires Valid() && status.Processing? && lines == OrderLines()
      requires Settled(seen, downsizes.returned, mpt) && Settled(first, downsizes.returned, mpt)
      requires AllFit(downsizes.purchases, downsizes.lines, chosen) && downsizes.listings != []
      requires ChosenFrom(downsizes.history, downsizes.Listing(), mpt, downsizes.lines, input.now, chosen)
      modifies `orders, `newOrderId, `newReturns, `status, `lost, downsizes
      ensures Valid() && Settled(seen, downsizes.returned, mpt) && Settled(first, downsizes.returned, mpt)
      ensures AllFit(downsizes.purchases, downsizes.lines, chosen)
      ensures old(downsizes.history) <= downsizes.history && downsizes.listings == old(downsizes.listings)
      ensures ChosenFrom(downsizes.history, downsizes.Listing(), mpt, downsizes.lines, input.now, chosen)
      ensures |newReturns| == |old(newReturns)| && ReturnsMove(old(newReturns), newReturns, mpt)
      ensures RenewalDone(old(orders), mpt) ==> RenewalDone(orders, mpt)
      ensures NewDone(old(orders), old(newOrderId), mpt) ==> NewDone(orders, newOrderId, mpt)
      ensures if flow.Next? then status.Processing? && AdditiveDone(input.previewed) else !status.Completed?
    {
      hide OrdersValid, RenewalDone, NewDone, Settled, IsPersisted, ReturnFlow.Valid, OrderOf, AllFit, KeepsLines;
      hide ReturnsMove, ReturnsNew, SavedStatus, ExistingRenewal, NewDecision, StopsOn, ChosenFrom;
      var alive := Advance(seen, first, input.now, chosen);
      if !alive {
        return Crash;
      }
      flow := SubmitRenewal(lines.manual != [], input.renewal);
      if !flow.Next? {
        return;
      }
      ghost var newReturns1 := newReturns;
      alive := Advance(seen, first, input.now, chosen);
      ReturnsMoveTwice(old(newReturns), newReturns1, newReturns, mpt);
      if !alive {
        return Crash;
      }
      flow := SubmitNew(HasNew(lines), input.previewed, input.order);
    }

    /** Time passes within an attempt; what was listed and chosen earlier still serves. */
    method Advance(
      ghost seen: seq<ReturnOrder>, ghost first: seq<ReturnOrder>, ghost now: Moment,
      ghost chosen: seq<seq<Candidate>>)
      returns (alive: bool)
      requires Valid() && Settled(seen, downsizes.returned, mpt) && Settled(first, downsizes.returned, mpt)
      requires AllFit(downsizes.purchases, downsizes.lines, chosen) && downsizes.listings != []
      requires ChosenFrom(downsizes.history, downsizes.Listing(), mpt, downsizes.lines, now, chosen)
      modifies `orders, `newReturns, downsizes
      ensures Valid() && Settled(seen, downsizes.returned, mpt) && Settled(first, downsizes.returned, mpt)
      ensures AllFit(downsizes.purchases, downsizes.lines, chosen)
      ensures old(downsizes.history) <= downsizes.history && downsizes.listings == old(downsizes.listings)
      ensures ChosenFrom(downsizes.history, downsizes.Listing(), mpt, downsizes.lines, now, chosen)
      ensures |newReturns| == |old(newReturns)| && ReturnsMove(old(newReturns), newReturns, mpt)
      ensures RenewalDone(old(orders), mpt) ==> RenewalDone(orders, mpt)
      ensures NewDone(old(orders), newOrderId, mpt) ==> NewDone(orders, newOrderId, mpt)
    {
      hide OrdersValid, RenewalDone, NewDone, Settled, IsPersisted, ReturnFlow.Valid, AllFit, KeepsLines;
      hide ReturnsMove, ReturnsNew, ChosenFrom;
      ghost var returned, purchases, history := downsizes.returned, downsizes.purchases, downsizes.history;
      alive := Tick();
      SettledTwice(seen, returned, downsizes.returned, mpt);
      SettledTwice(first, returned, downsizes.returned, mpt);
      StillFit(purchases, downsizes.purchases, downsizes.lines, chosen);
      StillChosen(history, downsizes.history, downsizes.Listing(), mpt, downsizes.lines, now, chosen);
    }

    /** The steps after the additive orders: renewal quantities up, the returns, renewal quantities down,
        completion. */
    method Finish(input: AttemptInput, known: bool, seen: seq<ReturnOrder>, chosen: seq<seq<Candidate>>)
      returns (ghost undid: bool)
      requires Valid() && status.Processing? && (known ==> newOrderId.Some?) && downsizes.listings != []
      requires Settled(seen, downsizes.returned, mpt) && AllFit(downsizes.purchases, downsizes.lines, chosen)
      requires ChosenFrom(downsizes.history, downsizes.Listing(), mpt, downsizes.lines, input.now, chosen)
      requires downsizes.steady ==>
                 forall k :: 0 <= k < |downsizes.lines| ==>
                               chosen[k] == if input.now.nearCoterm then [] else downsizes.target[k]
      modifies `status, `newReturns, downsizes
      ensures Valid()
      ensures old(downsizes.history) <= downsizes.history && downsizes.listings == old(downsizes.listings)
      ensures status.Completed? ==>
                !undid && newReturns == old(newReturns) && downsizes.GotThrough(input.now, chosen)
      ensures input.up.Written? && input.down.Written?
              && (forall k :: 0 <= k < |downsizes.lines| ==>
                    AllSeen(seen, mpt, downsizes.lines[k].sku, downsizes.deployment, chosen[k])) ==>
                status.Completed?
      ensures |newReturns| == |old(newReturns)| + if undid then 1 else 0
      ensures undid ==> known && (Undoes(input.up) || Undoes(input.down))
    {
      hide OrdersValid, Settled, IsPersisted, ReturnFlow.Valid, AllFit, KeepsLines, AllReturned;
      hide ReturnFlow.GotThrough, ReturnsNew, ChosenFrom, AllSeen;
      undid := false;
      var flow := Update(input.up, known);
      if !flow.Next? {
        undid := known && Undoes(input.up);
        return;
      }
      ghost var purchases, history := downsizes.purchases, downsizes.history;
      downsizes.TargetSize();
      var outcome := downsizes.SubmitReturns(seen, chosen);
      if !outcome.Done? {
        return;
      }
      StillFit(purchases, downsizes.purchases, downsizes.lines, chosen);
      StillChosen(history, downsizes.history, downsizes.Listing(), mpt, downsizes.lines, input.now, chosen);
      downsizes.GetsThrough(input.now, chosen);
      flow := Update(input.down, known);
      if !flow.Next? {
        undid := known && Undoes(input.down);
        return;
      }
      status := Completed;
    }

    /** Any number of attempts, cut short anywhere. `undone` are those whose rollback returned the NEW
        order. */
    method Retries(inputs: seq<AttemptInput>)
      returns (last: nat, chosen: seq<seq<Candidate>>, ghost undone: seq<nat>)
      requires Valid() && status.Processing?
      requires downsizes.steady ==> forall i :: 0 <= i < |inputs| ==> inputs[i].now.window == downsizes.window
      modifies this, downsizes
      ensures Valid()
      ensures old(persisted).Some? ==> persisted == old(persisted)
      ensures AtMostOne(orders, Renewal, RenewalOf(mpt))
      ensures AtMostOne(orders, New, Plain(mpt)) <==> lost == 0 || (lost == 1 && newOrderId.None?)
      ensures downsizes.steady ==>
                forall k :: 0 <= k < |downsizes.lines| ==>
                              ReturnedQuantity(downsizes.returned, mpt, downsizes.lines[k].sku)
                              <= downsizes.lines[k].delta
      // Returns come last: none came alive, or RENEWAL and NEW are complete for the persisted split; only an
      // attempt that had nothing to order goes on without a NEW order.
      ensures old(persisted).Some? && !Settled(old(downsizes.returned), downsizes.returned, mpt) ==>
                && (OrderLines().manual != [] ==> RenewalDone(orders, mpt))
                && (OrderLines().upsize + OrderLines().newLines != [] ==>
                      NewDone(orders, newOrderId, mpt) || exists i :: 0 <= i < |inputs| && !inputs[i].previewed)
      // Completion, by the last attempt made: RENEWAL and NEW are complete, and the returns are what getting
      // through says of the choice that attempt made from what it listed.
      ensures old(downsizes.history) <= downsizes.history && old(downsizes.listings) <= downsizes.listings
      ensures forall i :: |old(downsizes.listings)| <= i < |downsizes.listings| ==>
                            |old(downsizes.history)| - 1 <= downsizes.listings[i]
      ensures status.Completed? ==>
                && last < |inputs| && |downsizes.listings| == |old(downsizes.listings)| + last + 1
                && AdditiveDone(inputs[last].previewed) && downsizes.GotThrough(inputs[last].now, chosen)
                && (OrderLines().upsize + OrderLines().newLines != [] && inputs[last].previewed ==>
                      NewDone(orders, newOrderId, mpt))
      // The NEW order has one return for each attempt that rolled back far enough, all of them earlier ones.
      ensures |newReturns| == |old(newReturns)| + |undone|
      ensures forall i, j :: 0 <= i < j < |undone| ==> undone[i] < undone[j]
      ensures forall i :: 0 <= i < |undone| ==>
                            && undone[i] < |inputs|
                            && (Undoes(inputs[undone[i]].up) || Undoes(inputs[undone[i]].down))
                            && (status.Completed? ==> undone[i] < last)
    {
      hide RenewalDone, NewDone, Settled, IsPersisted, ReturnFlow.Valid, ReturnFlow.GotThrough, ReturnedQuantity;
      hide Undoes, OrdersValid;
      last, chosen, undone := 0, [], [];
      SettledRefl(downsizes.returned, mpt);
      var tries := 0;
      while tries < |inputs| && status.Processing?
        invariant tries <= |inputs| && Valid()
        invariant old(persisted).Some? ==> persisted == old(persisted)
        invariant old(downsizes.history) <= downsizes.history && old(downsizes.listings) <= downsizes.listings
        invariant |downsizes.listings| == |old(downsizes.listings)| + tries
        invariant forall i :: |old(downsizes.listings)| <= i < |downsizes.listings| ==>
                                |old(downsizes.history)| - 1 <= downsizes.listings[i]
        invariant old(persisted).Some? && !Settled(old(downsizes.returned), downsizes.returned, mpt) ==>
                    && (OrderLines().manual != [] ==> RenewalDone(orders, mpt))
                    && (OrderLines().upsize + OrderLines().newLines != [] ==>
                          NewDone(orders, newOrderId, mpt) || exists i :: 0 <= i < |inputs| && !inputs[i].previewed)
        invariant status.Completed? ==>
                    && last < |inputs| && tries == last + 1
                    && AdditiveDone(inputs[last].previewed) && downsizes.GotThrough(inputs[last].now, chosen)
        invariant |newReturns| == |old(newReturns)| + |undone|
        invariant forall i, j :: 0 <= i < j < |undone| ==> undone[i] < undone[j]
        invariant forall i :: 0 <= i < |undone| ==>
                                && undone[i] < tries
                                && (Undoes(inputs[undone[i]].up) || Undoes(inputs[undone[i]].down))
                                && (status.Completed? ==> undone[i] < last)
      {
        ghost var returned0 := downsizes.returned;
        ghost var undid;
        ghost var accepted;
        chosen, accepted, undid := Attempt(inputs[tries]);
        if Settled(old(downsizes.returned), returned0, mpt) && Settled(returned0, downsizes.returned, mpt) {
          SettledTwice(old(downsizes.returned), returned0, downsizes.returned, mpt);
        }
        if undid {
          undone := undone + [tries];
        }
        last, tries := tries, tries + 1;
      }
      AtMostOneNew();
      if downsizes.steady {
        downsizes.ReturnedExactly();
      }
    }

    lemma AtMostOneNew()
      requires Valid()
      ensures AtMostOne(orders, Renewal, RenewalOf(mpt))
      ensures AtMostOne(orders, New, Plain(mpt)) <==> lost == 0 || (lost == 1 && newOrderId.None?)
    {
      OwnNewCounts(orders, mpt);
    }
  }

  /** The exception to "returns only after NEW", as a run: an attempt with nothing to order goes on and
      places a return; a later one has something to order, and its NEW order is open while the return
      lives. Everywhere else SubmitNew goes on with a complete NEW order only. */
  method SkippedThenOrdered(o: ChangeOrder, k: nat, c: Candidate) returns (first: Flow, second: Flow)
    requires o.Valid() && o.status.Processing? && o.newOrderId.None? && k < |o.downsizes.lines|
    requires Fits(o.downsizes.purchases, o.downsizes.lines[k], c)
    requires o.downsizes.steady ==>
               && |o.downsizes.target| == |o.downsizes.lines| && c in o.downsizes.target[k]
               && (o.downsizes.deployment.None? || c.deployment == o.downsizes.deployment)
    requires !HasLiveReturn(o.downsizes.returned, o.mpt, c.order, o.downsizes.lines[k].sku)
    modifies o, o.downsizes
    ensures first.Next? && second.Stop? && o.Valid()
    ensures HasLiveReturn(o.downsizes.returned, o.mpt, c.order, o.downsizes.lines[k].sku)
    ensures o.newOrderId.Some? && !NewDone(o.orders, o.newOrderId, o.mpt)
  {
    hide OrdersValid, RenewalDone, NewDone, IsPersisted, OrderOf, ReturnFlow.Valid, Fits;
    first := o.SubmitNew(true, false, Dies);
    var r := o.downsizes.CreateReturnOrder(k, c, Taken(Open, true));
    var placed := o.downsizes.returned[|o.downsizes.returned|-1];
    assert IsOwn(placed, o.mpt, o.downsizes.lines[k].sku) && placed.reference == c.order;
    second := o.SubmitNew(true, true, Placed(Open));
  }

  /** The exception to "completed means NEW is complete and kept", as a run of an order with nothing to
      return: the update of the renewal quantities breaks with an error that does not fail the order, the
      rollback returns the NEW order, and a retry reads it, still complete, and completes. */
  method UndoneThenCompleted(o: ChangeOrder, input: AttemptInput) returns (saved: Flow, ghost undid: bool)
    requires o.Valid() && o.status.Processing? && o.newOrderId.None? && o.downsizes.lines == []
    requires input.up == RolledBack(false, Taken(Open, true))
    modifies o, o.downsizes
    ensures saved.Next? && undid && o.status.Completed? && o.Valid()
    ensures NewDone(o.orders, o.newOrderId, o.mpt) && !NewKept(o.newReturns)
  {
    hide OrdersValid, RenewalDone, NewDone, IsPersisted, OrderOf, ReturnFlow.Valid, Settled, ChosenFrom;
    saved := o.SubmitNew(true, true, Placed(Complete));
    var flow := o.Update(input.up, true);
    undid := true;
    assert Live(o.newReturns[|o.newReturns|-1].status);
    var now := Moment(input.now.nearCoterm, o.downsizes.window);
    var seen, listed, chosen, accepted := o.downsizes.ChooseReturns(now, true);
    saved := o.SubmitNew(true, true, Dies);
    var again := o.Finish(input.(now := now, up := Written, down := Written), true, seen, chosen);
  }
}
