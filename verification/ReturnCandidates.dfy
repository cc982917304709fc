/** Which orders a downsize can return, and how that listing moves while Adobe works: orders appear,
    complete and are returned step by step. Orders this MPT order is already returning are kept as
    candidates, which is what keeps the choice the same; what else can move it is stated exactly. */
module ReturnCandidates {
  import opened AdobeOrders
  import opened ReturnSelection
  import opened Sequences
  import opened Subscriptions

  /******* Candidates *******/

  datatype Item = Item(candidate: Candidate, kind: PurchaseKind, created: int)

  // Cancellation window: orders placed in the days from `start` to the coterm date `end`.
  datatype Window = Window(start: int, end: int)

  /** A line of the MPT order that goes down. */
  datatype DownsizeLine = DownsizeLine(sku: Sku, sub: SubId, delta: nat)

  predicate Processed(p: Purchase, line: PurchaseLine) {
    p.status.Complete? && line.status.Complete?
  }

  /** The order has a line of the subscription, is in the window, and is returnable. */
  predicate Counts(p: Purchase, sub: SubId, returning: seq<OrderId>, window: Window) {
    var line := LineOf(p.lines, sub);
    line.Some? && window.start <= p.created <= window.end && (p.id in returning || Processed(p, line.value))
  }

  function ItemFor(p: Purchase, sub: SubId): Item
    requires LineOf(p.lines, sub).Some?
  {
    var line := LineOf(p.lines, sub).value;
    Item(Candidate(p.id, line.number, line.sku, line.quantity, line.deployment), p.kind, p.created)
  }

  function ItemsOf(sub: SubId, returning: seq<OrderId>, window: Window): Purchase -> seq<Item> {
    (p: Purchase) => if Counts(p, sub, returning, window) then [ItemFor(p, sub)] else []
  }

  function Items(purchases: seq<Purchase>, sub: SubId, returning: seq<OrderId>, window: Window): seq<Item> {
    FlatMap(purchases, ItemsOf(sub, returning, window))
  }

  /** Creation date of the first RENEWAL order among the items. */
  function FirstRenewal(items: seq<Item>): Option<int> {
    if items == [] then None
    else if items[0].kind == Renewal then Some(items[0].created)
    else FirstRenewal(items[1..])
  }

  predicate IsSince(created: int, date: Option<int>) {
    date.None? || created >= date.value
  }

  function SinceRenewal(date: Option<int>): Item -> seq<Candidate> {
    (item: Item) => if IsSince(item.created, date) then [item.candidate] else []
  }

  /** Date of the renewal in force: orders from before it are not returned. */
  function InForce(purchases: seq<Purchase>, sub: SubId, returning: seq<OrderId>, window: Window): Option<int> {
    FirstRenewal(Items(purchases, sub, returning, window))
  }

  /** get_returnable_orders_by_subscription_id */
  function Candidates(
    purchases: seq<Purchase>, sub: SubId, returning: seq<OrderId>, window: Window): seq<Candidate>
  {
    FlatMap(Items(purchases, sub, returning, window), SinceRenewal(InForce(purchases, sub, returning, window)))
  }

  function ReferenceOf(): ReturnOrder -> seq<OrderId> {
    (r: ReturnOrder) => [r.reference]
  }

  function ReturningIds(returned: seq<ReturnOrder>, mpt: MptId, sku: Sku): seq<OrderId> {
    FlatMap(OwnReturns(returned, mpt, sku), ReferenceOf())
  }

  function CandidatesFor(
    purchases: seq<Purchase>, seen: seq<ReturnOrder>, mpt: MptId, line: DownsizeLine, window: Window): seq<Candidate>
  {
    Candidates(purchases, line.sub, ReturningIds(seen, mpt, line.sku), window)
  }

  /** The orders to return for a line, as computed from the purchases and the returns seen. */
  function Chosen(
    purchases: seq<Purchase>, seen: seq<ReturnOrder>, mpt: MptId, line: DownsizeLine, window: Window): seq<Candidate>
  {
    var selected := Selected(CandidatesFor(purchases, seen, mpt, line, window), line.delta);
    if selected.Some? then selected.value else []
  }

  predicate HasLiveReturn(returned: seq<ReturnOrder>, mpt: MptId, order: OrderId, sku: Sku) {
    exists i :: 0 <= i < |returned| && IsOwn(returned[i], mpt, sku) && returned[i].reference == order
  }

  /** The order counts for the line: it is processed, or this MPT order is returning it. */
  predicate Eligible(
    p: Purchase, returned: seq<ReturnOrder>, mpt: MptId, line: DownsizeLine, window: Window)
  {
    var own := LineOf(p.lines, line.sub);
    && own.Some? && window.start <= p.created <= window.end
    && (HasLiveReturn(returned, mpt, p.id, line.sku) || Processed(p, own.value))
  }

  lemma ReturningIdsAre(returned: seq<ReturnOrder>, mpt: MptId, sku: Sku, order: OrderId)
    ensures order in ReturningIds(returned, mpt, sku) <==> HasLiveReturn(returned, mpt, order, sku)
  {
    FlatMapHas(OwnReturns(returned, mpt, sku), ReferenceOf(), order);
    forall r: ReturnOrder
      ensures r in OwnReturns(returned, mpt, sku) <==> r in returned && IsOwn(r, mpt, sku)
    {
      FlatMapHas(returned, OwnOf(mpt, sku), r);
    }
  }

  lemma EligibleCounts(p: Purchase, returned: seq<ReturnOrder>, mpt: MptId, line: DownsizeLine, window: Window)
    ensures Eligible(p, returned, mpt, line, window) <==>
              Counts(p, line.sub, ReturningIds(returned, mpt, line.sku), window)
  {
    ReturningIdsAre(returned, mpt, line.sku, p.id);
  }

  /******* What Adobe may do meanwhile, one step at a time *******/

  function Identity(line: PurchaseLine): PurchaseLine {
    line.(status := Open)
  }

  predicate SamePurchase(p: Purchase, p': Purchase) {
    && p.id == p'.id && p.kind == p'.kind && p.ext == p'.ext && p.created == p'.created && |p.lines| == |p'.lines|
    && forall k :: 0 <= k < |p.lines| ==> Identity(p.lines[k]) == Identity(p'.lines[k])
  }

  predicate DistinctPurchases(purchases: seq<Purchase>) {
    forall i, j :: 0 <= i < j < |purchases| ==> purchases[i].id != purchases[j].id
  }

  // The statuses of one order and its lines change; an open return is settled; a new order is listed;
  // another MPT order returns something.
  datatype Move =
    | PurchaseMoves(i: nat, p: Purchase)
    | ReturnMoves(i: nat, status: OrderStatus)
    | Appears(at: nat, p: Purchase)
    | OtherReturn(r: ReturnOrder)

  /** What Adobe can do at all: identities do not change, an open return is settled, a new order has an id
      of its own and lines that carry the SKU of their subscription. */
  predicate Possible(
    purchases: seq<Purchase>, returned: seq<ReturnOrder>, m: Move, mpt: MptId, lines: seq<DownsizeLine>)
  {
    match m
    case PurchaseMoves(i, p) => i < |purchases| && SamePurchase(purchases[i], p)
    case ReturnMoves(i, status) => i < |returned| && returned[i].status.Open?
    case Appears(at, p) =>
      && at <= |purchases|
      && (forall i :: 0 <= i < |purchases| ==> purchases[i].id != p.id)
      && (forall k :: 0 <= k < |lines| ==>
            var own := LineOf(p.lines, lines[k].sub);
            own.Some? ==> own.value.sku == lines[k].sku)
    case OtherReturn(r) => r.mpt != mpt
  }

  /** The orderly steps: a new order is not complete yet and not being returned; when one of this order's
      returns fails, the line it was returning is complete again. */
  predicate Legal(
    purchases: seq<Purchase>, returned: seq<ReturnOrder>, m: Move, mpt: MptId, lines: seq<DownsizeLine>)
  {
    match m
    case PurchaseMoves(i, p) => i < |purchases| && SamePurchase(purchases[i], p)
    case ReturnMoves(i, status) =>
      && i < |returned| && returned[i].status.Open?
      && (Live(status) || LinesComplete(purchases, returned[i], mpt, lines))
    case Appears(at, p) =>
      && at <= |purchases|
      && (forall i :: 0 <= i < |purchases| ==> purchases[i].id != p.id)
      && (forall i :: 0 <= i < |returned| ==> returned[i].reference != p.id)
      && (forall k :: 0 <= k < |lines| ==>
            var own := LineOf(p.lines, lines[k].sub);
            own.Some? ==> own.value.sku == lines[k].sku && !Processed(p, own.value))
    case OtherReturn(r) => r.mpt != mpt
  }

  lemma LegalIsPossible(
    purchases: seq<Purchase>, returned: seq<ReturnOrder>, m: Move, mpt: MptId, lines: seq<DownsizeLine>)
    requires Legal(purchases, returned, m, mpt, lines)
    ensures Possible(purchases, returned, m, mpt, lines)
  {
  }

  predicate LinesComplete(purchases: seq<Purchase>, r: ReturnOrder, mpt: MptId, lines: seq<DownsizeLine>) {
    forall j, k :: 0 <= j < |purchases| && 0 <= k < |lines|
                   && purchases[j].id == r.reference && IsOwn(r, mpt, lines[k].sku) ==>
      var own := LineOf(purchases[j].lines, lines[k].sub);
      own.Some? ==> Processed(purchases[j], own.value)
  }

  /** An order of a downsized subscription, in the window and not being returned by this MPT order,
      becomes or stops being processed. */
  predicate Disturbs(
    purchases: seq<Purchase>, returned: seq<ReturnOrder>, m: Move, mpt: MptId, lines: seq<DownsizeLine>,
    window: Window)
  {
    m.PurchaseMoves? && m.i < |purchases| &&
    exists k :: 0 <= k < |lines| && Flips(purchases[m.i], m.p, lines[k].sub, window)
                && !HasLiveReturn(returned, mpt, m.p.id, lines[k].sku)
  }

  predicate Flips(p: Purchase, p': Purchase, sub: SubId, window: Window) {
    var own, own' := LineOf(p.lines, sub), LineOf(p'.lines, sub);
    && own.Some? && own'.Some? && window.start <= p.created <= window.end
    && Processed(p, own.value) != Processed(p', own'.value)
  }

  function PurchasesAfter(purchases: seq<Purchase>, m: Move): seq<Purchase> {
    match m
    case PurchaseMoves(i, p) => if i < |purchases| then purchases[i := p] else purchases
    case Appears(at, p) => if at <= |purchases| then purchases[..at] + [p] + purchases[at..] else purchases
    case _ => purchases
  }

  function ReturnsAfter(returned: seq<ReturnOrder>, m: Move): seq<ReturnOrder> {
    match m
    case ReturnMoves(i, status) => if i < |returned| then returned[i := returned[i].(status := status)] else returned
    case OtherReturn(r) => returned + [r]
    case _ => returned
  }

  lemma {:induction false} SameLine(lines: seq<PurchaseLine>, lines': seq<PurchaseLine>, sub: SubId)
    requires |lines| == |lines'| && forall k :: 0 <= k < |lines| ==> Identity(lines[k]) == Identity(lines'[k])
    ensures LineOf(lines, sub).Some? == LineOf(lines', sub).Some?
    ensures LineOf(lines, sub).Some? ==> Identity(LineOf(lines, sub).value) == Identity(LineOf(lines', sub).value)
  {
    if lines != [] {
      SameLine(lines[1..], lines'[1..], sub);
    }
  }

  ghost predicate SamePurchases(purchases: seq<Purchase>, purchases': seq<Purchase>) {
    |purchases| == |purchases'| && forall i :: 0 <= i < |purchases| ==> SamePurchase(purchases[i], purchases'[i])
  }

  /** Candidates depend on the purchases only through what counts. */
  lemma CandidatesStable(
    purchases: seq<Purchase>, purchases': seq<Purchase>, sub: SubId, returning: seq<OrderId>, returning': seq<OrderId>,
    window: Window)
    requires SamePurchases(purchases, purchases')
    requires forall i :: 0 <= i < |purchases| ==>
                           Counts(purchases[i], sub, returning, window) ==
                             Counts(purchases'[i], sub, returning', window)
    ensures Items(purchases, sub, returning, window) == Items(purchases', sub, returning', window)
    ensures Candidates(purchases, sub, returning, window) == Candidates(purchases', sub, returning', window)
  {
    forall i | 0 <= i < |purchases|
      ensures ItemsOf(sub, returning, window)(purchases[i]) == ItemsOf(sub, returning', window)(purchases'[i])
    {
      SameLine(purchases[i].lines, purchases'[i].lines, sub);
    }
    FlatMapPairwise(purchases, purchases', ItemsOf(sub, returning, window), ItemsOf(sub, returning', window));
  }

  /** An order that does not count can be listed anywhere. */
  lemma AppearingIsUnseen(
    purchases: seq<Purchase>, at: nat, p: Purchase, sub: SubId, returning: seq<OrderId>, window: Window)
    requires at <= |purchases| && !Counts(p, sub, returning, window)
    ensures Candidates(purchases[..at] + [p] + purchases[at..], sub, returning, window) ==
            Candidates(purchases, sub, returning, window)
  {
    hide FlatMap;
    var f := ItemsOf(sub, returning, window);
    FlatMapConcat(purchases[..at] + [p], purchases[at..], f);
    FlatMapConcat(purchases[..at], [p], f);
    FlatMapOne(p, f);
    FlatMapConcat(purchases[..at], purchases[at..], f);
    assert purchases == purchases[..at] + purchases[at..];
    assert FlatMap(purchases[..at], f) + [] == FlatMap(purchases[..at], f);
  }

  lemma SettledReturn(returned: seq<ReturnOrder>, i: nat, status: OrderStatus, mpt: MptId, order: OrderId, sku: Sku)
    requires i < |returned| && returned[i].status.Open?
    ensures var returned' := returned[i := returned[i].(status := status)];
            && (HasLiveReturn(returned', mpt, order, sku) ==> HasLiveReturn(returned, mpt, order, sku))
            && (HasLiveReturn(returned, mpt, order, sku) ==>
                  || HasLiveReturn(returned', mpt, order, sku)
                  || (!Live(status) && IsOwn(returned[i], mpt, sku) && returned[i].reference == order))
  {
    var returned' := returned[i := returned[i].(status := status)];
    if j :| 0 <= j < |returned'| && IsOwn(returned'[j], mpt, sku) && returned'[j].reference == order {
      assert IsOwn(returned[j], mpt, sku);
    }
    if j :| 0 <= j < |returned| && IsOwn(returned[j], mpt, sku) && returned[j].reference == order {
      assert returned'[j].reference == order;
      assert j != i || Live(status) ==> IsOwn(returned'[j], mpt, sku);
    }
  }

  lemma OtherReturnIsNot(returned: seq<ReturnOrder>, r: ReturnOrder, mpt: MptId, order: OrderId, sku: Sku)
    requires r.mpt != mpt
    ensures HasLiveReturn(returned + [r], mpt, order, sku) <==> HasLiveReturn(returned, mpt, order, sku)
  {
    var all := returned + [r];
    if j :| 0 <= j < |returned| && IsOwn(returned[j], mpt, sku) && returned[j].reference == order {
      assert all[j] == returned[j];
    }
  }

  /** Every legal step that does not disturb keeps every line's candidates: derived step by step. */
  lemma StepKeepsCandidates(
    purchases: seq<Purchase>, returned: seq<ReturnOrder>, m: Move, mpt: MptId, lines: seq<DownsizeLine>,
    window: Window, k: nat)
    requires DistinctPurchases(purchases) && k < |lines|
    requires Legal(purchases, returned, m, mpt, lines) && !Disturbs(purchases, returned, m, mpt, lines, window)
    ensures CandidatesFor(PurchasesAfter(purchases, m), ReturnsAfter(returned, m), mpt, lines[k], window) ==
            CandidatesFor(purchases, returned, mpt, lines[k], window)
  {
    hide FlatMap, LineOf, ReturningIds, Candidates, HasLiveReturn;
    var line := lines[k];
    var purchases', returned' := PurchasesAfter(purchases, m), ReturnsAfter(returned, m);
    var ids, ids' := ReturningIds(returned, mpt, line.sku), ReturningIds(returned', mpt, line.sku);
    if m.Appears? {
      EligibleCounts(m.p, returned, mpt, line, window);
      NotReferenced(returned, mpt, m.p.id, line.sku);
      AppearingIsUnseen(purchases, m.at, m.p, line.sub, ids, window);
    } else {
      forall i | 0 <= i < |purchases|
        ensures Counts(purchases[i], line.sub, ids, window) == Counts(purchases'[i], line.sub, ids', window)
        ensures SamePurchase(purchases[i], purchases'[i])
      {
        EligibleKept(purchases, returned, m, mpt, lines, window, k, i);
        EligibleCounts(purchases[i], returned, mpt, line, window);
        EligibleCounts(purchases'[i], returned', mpt, line, window);
      }
      CandidatesStable(purchases, purchases', line.sub, ids, ids', window);
    }
  }

  lemma NotReferenced(returned: seq<ReturnOrder>, mpt: MptId, order: OrderId, sku: Sku)
    requires forall i :: 0 <= i < |returned| ==> returned[i].reference != order
    ensures !HasLiveReturn(returned, mpt, order, sku)
  {
  }

  lemma EligibleKept(
    purchases: seq<Purchase>, returned: seq<ReturnOrder>, m: Move, mpt: MptId, lines: seq<DownsizeLine>,
    window: Window, k: nat, i: nat)
    requires k < |lines| && i < |purchases| && !m.Appears?
    requires Legal(purchases, returned, m, mpt, lines) && !Disturbs(purchases, returned, m, mpt, lines, window)
    ensures Eligible(PurchasesAfter(purchases, m)[i], ReturnsAfter(returned, m), mpt, lines[k], window) ==
            Eligible(purchases[i], returned, mpt, lines[k], window)
  {
    hide LineOf, HasLiveReturn;
    match m {
      case PurchaseMoves(j, p) =>
        SameLine(purchases[j].lines, p.lines, lines[k].sub);
      case ReturnMoves(j, status) =>
        SettledReturn(returned, j, status, mpt, purchases[i].id, lines[k].sku);
      case OtherReturn(r) =>
        OtherReturnIsNot(returned, r, mpt, purchases[i].id, lines[k].sku);
      case _ =>
    }
  }

  /******* A listing of the returns taken earlier still serves *******/

  predicate Refers(returned: seq<ReturnOrder>, order: OrderId) {
    exists i :: 0 <= i < |returned| && returned[i].reference == order
  }

  /** Returns listed as `seen` earlier: none came alive since, and each one seen counts still. */
  ghost predicate Tracks(
    purchases: seq<Purchase>, returned: seq<ReturnOrder>, seen: seq<ReturnOrder>, mpt: MptId,
    lines: seq<DownsizeLine>, window: Window)
  {
    && (forall order :: Refers(seen, order) ==> Refers(returned, order))
    && (forall k, order :: 0 <= k < |lines| && HasLiveReturn(returned, mpt, order, lines[k].sku) ==>
                             HasLiveReturn(seen, mpt, order, lines[k].sku))
    && (forall i, k :: 0 <= i < |purchases| && 0 <= k < |lines| ==>
                         Eligible(purchases[i], seen, mpt, lines[k], window) ==
                         Eligible(purchases[i], returned, mpt, lines[k], window))
  }

  lemma TracksNow(
    purchases: seq<Purchase>, returned: seq<ReturnOrder>, mpt: MptId, lines: seq<DownsizeLine>, window: Window)
    ensures Tracks(purchases, returned, returned, mpt, lines, window)
  {
  }

  /** The choice computed from the earlier listing is the choice of now. */
  lemma TrackedCandidates(
    purchases: seq<Purchase>, returned: seq<ReturnOrder>, seen: seq<ReturnOrder>, mpt: MptId,
    lines: seq<DownsizeLine>, window: Window, k: nat)
    requires k < |lines| && Tracks(purchases, returned, seen, mpt, lines, window)
    ensures CandidatesFor(purchases, seen, mpt, lines[k], window) ==
              CandidatesFor(purchases, returned, mpt, lines[k], window)
    ensures Chosen(purchases, seen, mpt, lines[k], window) == Chosen(purchases, returned, mpt, lines[k], window)
  {
    hide FlatMap, LineOf, ReturningIds, Candidates, HasLiveReturn, Eligible, Counts, Selected;
    var line := lines[k];
    forall i | 0 <= i < |purchases|
      ensures Counts(purchases[i], line.sub, ReturningIds(seen, mpt, line.sku), window) ==
              Counts(purchases[i], line.sub, ReturningIds(returned, mpt, line.sku), window)
    {
      EligibleCounts(purchases[i], seen, mpt, line, window);
      EligibleCounts(purchases[i], returned, mpt, line, window);
    }
    CandidatesStable(purchases, purchases, line.sub, ReturningIds(seen, mpt, line.sku),
                     ReturningIds(returned, mpt, line.sku), window);
  }

  lemma StepKeepsTracking(
    purchases: seq<Purchase>, returned: seq<ReturnOrder>, m: Move, seen: seq<ReturnOrder>, mpt: MptId,
    lines: seq<DownsizeLine>, window: Window)
    requires Tracks(purchases, returned, seen, mpt, lines, window)
    requires Legal(purchases, returned, m, mpt, lines) && !Disturbs(purchases, returned, m, mpt, lines, window)
    ensures Tracks(PurchasesAfter(purchases, m), ReturnsAfter(returned, m), seen, mpt, lines, window)
  {
    hide LineOf, HasLiveReturn;
    var purchases', returned' := PurchasesAfter(purchases, m), ReturnsAfter(returned, m);
    forall k, order | 0 <= k < |lines|
      ensures HasLiveReturn(returned', mpt, order, lines[k].sku) ==> HasLiveReturn(seen, mpt, order, lines[k].sku)
    {
      match m {
        case ReturnMoves(j, status) => SettledReturn(returned, j, status, mpt, order, lines[k].sku);
        case OtherReturn(r) => OtherReturnIsNot(returned, r, mpt, order, lines[k].sku);
        case _ =>
      }
    }
    forall order | Refers(seen, order)
      ensures Refers(returned', order)
    {
      var i :| 0 <= i < |returned| && returned[i].reference == order;
      assert returned'[i].reference == order;
    }
    forall i, k | 0 <= i < |purchases'| && 0 <= k < |lines|
      ensures Eligible(purchases'[i], seen, mpt, lines[k], window) ==
                Eligible(purchases'[i], returned', mpt, lines[k], window)
    {
      StepKeepsSeen(purchases, returned, m, seen, mpt, lines, window, i, k);
    }
  }

  lemma StepKeepsSeen(
    purchases: seq<Purchase>, returned: seq<ReturnOrder>, m: Move, seen: seq<ReturnOrder>, mpt: MptId,
    lines: seq<DownsizeLine>, window: Window, i: nat, k: nat)
    requires Tracks(purchases, returned, seen, mpt, lines, window)
    requires Legal(purchases, returned, m, mpt, lines) && !Disturbs(purchases, returned, m, mpt, lines, window)
    requires i < |PurchasesAfter(purchases, m)| && k < |lines|
    ensures var p := PurchasesAfter(purchases, m)[i];
            Eligible(p, seen, mpt, lines[k], window) == Eligible(p, ReturnsAfter(returned, m), mpt, lines[k], window)
  {
    hide LineOf, HasLiveReturn;
    match m {
      case PurchaseMoves(j, p) =>
        SameLine(purchases[j].lines, p.lines, lines[k].sub);
        EligibleKept(purchases, returned, m, mpt, lines, window, k, i);
        assert Eligible(purchases[i], seen, mpt, lines[k], window) ==
                 Eligible(purchases[i], returned, mpt, lines[k], window);
      case Appears(at, p) =>
        NotReferenced(returned, mpt, p.id, lines[k].sku);
        assert !Refers(returned, p.id);
        NotReferenced(seen, mpt, p.id, lines[k].sku);
        var origin := if i < at then i else i - 1;
        assert i != at ==> PurchasesAfter(purchases, m)[i] == purchases[origin];
      case _ =>
        EligibleKept(purchases, returned, m, mpt, lines, window, k, i);
    }
  }

  /******* When the choice stays the same *******/

  lemma {:induction false} FirstRenewalConcat(a: seq<Item>, b: seq<Item>)
    ensures FirstRenewal(a + b) == if FirstRenewal(a).Some? then FirstRenewal(a) else FirstRenewal(b)
  {
    if a == [] {
      assert a + b == b;
    } else {
      FirstRenewalConcat(a[1..], b);
      assert (a + b)[1..] == a[1..] + b;
    }
  }

  /** The renewal in force is the first listed RENEWAL order that counts. */
  ghost predicate IsInForce(
    purchases: seq<Purchase>, sub: SubId, returning: seq<OrderId>, window: Window, f: int)
  {
    && 0 <= f < |purchases| && Counts(purchases[f], sub, returning, window) && purchases[f].kind == Renewal
    && forall j :: 0 <= j < f && Counts(purchases[j], sub, returning, window) ==> purchases[j].kind != Renewal
  }

  lemma {:induction false} InForceAt(
    purchases: seq<Purchase>, sub: SubId, returning: seq<OrderId>, window: Window) returns (f: int)
    ensures InForce(purchases, sub, returning, window).None? ==>
              forall i :: 0 <= i < |purchases| && Counts(purchases[i], sub, returning, window) ==>
                purchases[i].kind != Renewal
    ensures InForce(purchases, sub, returning, window).Some? ==>
              && IsInForce(purchases, sub, returning, window, f)
              && InForce(purchases, sub, returning, window).value == purchases[f].created
  {
    hide Counts;
    f := 0;
    if purchases != [] {
      var front, last := purchases[..|purchases|-1], purchases[|purchases|-1];
      f := InForceAt(front, sub, returning, window);
      FirstRenewalConcat(Items(front, sub, returning, window), ItemsOf(sub, returning, window)(last));
      assert forall i :: 0 <= i < |front| ==> front[i] == purchases[i];
      if InForce(front, sub, returning, window).None? {
        f := |purchases| - 1;
      }
    }
  }

  /** The order can be returned for the subscription: it has a line of it, was placed in the window, and either
      is being returned already or is complete, it and the line. */
  ghost predicate Returnable(p: Purchase, sub: SubId, returning: seq<OrderId>, window: Window) {
    && LineOf(p.lines, sub).Some? && window.start <= p.created <= window.end
    && (p.id in returning || (p.status.Complete? && LineOf(p.lines, sub).value.status.Complete?))
  }

  /** `c` stands for the order's line of the subscription. */
  ghost predicate IsLineOf(c: Candidate, p: Purchase, sub: SubId) {
    var line := LineOf(p.lines, sub);
    && line.Some? && c.order == p.id && c.number == line.value.number && c.sku == line.value.sku
    && c.quantity == line.value.quantity && c.deployment == line.value.deployment
  }

  /** The candidates are exactly the lines of returnable orders that are not from before the renewal in
      force. */
  lemma CandidatesAre(
    purchases: seq<Purchase>, sub: SubId, returning: seq<OrderId>, window: Window, c: Candidate)
    ensures c in Candidates(purchases, sub, returning, window) <==>
            exists p :: p in purchases && IsLineOf(c, p, sub) && Returnable(p, sub, returning, window)
                        && (InForce(purchases, sub, returning, window).None?
                            || p.created >= InForce(purchases, sub, returning, window).value)
  {
    hide FlatMap;
    var items, date := Items(purchases, sub, returning, window), InForce(purchases, sub, returning, window);
    FlatMapHas(items, SinceRenewal(date), c);
    if c in Candidates(purchases, sub, returning, window) {
      var item :| item in items && c in SinceRenewal(date)(item);
      FlatMapHas(purchases, ItemsOf(sub, returning, window), item);
      var p :| p in purchases && item in ItemsOf(sub, returning, window)(p);
      assert IsLineOf(c, p, sub);
    }
    if p :| p in purchases && IsLineOf(c, p, sub) && Returnable(p, sub, returning, window)
                   && (date.None? || p.created >= date.value) {
      var item := ItemFor(p, sub);
      FlatMapHas(purchases, ItemsOf(sub, returning, window), item);
      assert item in ItemsOf(sub, returning, window)(p);
      assert c in SinceRenewal(date)(item);
    }
  }

  lemma CandidateCounts(
    purchases: seq<Purchase>, sub: SubId, returning: seq<OrderId>, window: Window, i: nat)
    requires DistinctPurchases(purchases) && i < |purchases|
    ensures (exists c :: c in Candidates(purchases, sub, returning, window) && c.order == purchases[i].id) <==>
            Counts(purchases[i], sub, returning, window)
            && IsSince(purchases[i].created, InForce(purchases, sub, returning, window))
  {
    hide FlatMap;
    var items, date := Items(purchases, sub, returning, window), InForce(purchases, sub, returning, window);
    if c :| c in Candidates(purchases, sub, returning, window) && c.order == purchases[i].id {
      FlatMapHas(items, SinceRenewal(date), c);
      var item :| item in items && c in SinceRenewal(date)(item);
      FlatMapHas(purchases, ItemsOf(sub, returning, window), item);
      var p :| p in purchases && item in ItemsOf(sub, returning, window)(p);
      var j :| 0 <= j < |purchases| && purchases[j] == p;
      assert j == i;
    }
    if Counts(purchases[i], sub, returning, window) && IsSince(purchases[i].created, date) {
      var item := ItemFor(purchases[i], sub);
      assert item in ItemsOf(sub, returning, window)(purchases[i]);
      FlatMapHas(purchases, ItemsOf(sub, returning, window), item);
      assert item.candidate in SinceRenewal(date)(item);
      FlatMapHas(items, SinceRenewal(date), item.candidate);
    }
  }

  /** An order is a candidate exactly when it is returnable and not from before the renewal in force. */
  lemma CandidateIff(
    purchases: seq<Purchase>, sub: SubId, returning: seq<OrderId>, window: Window, i: nat)
    requires DistinctPurchases(purchases) && i < |purchases|
    ensures (exists c :: c in Candidates(purchases, sub, returning, window) && c.order == purchases[i].id) <==>
            && LineOf(purchases[i].lines, sub).Some? && window.start <= purchases[i].created <= window.end
            && (purchases[i].id in returning
                || (purchases[i].status.Complete? && LineOf(purchases[i].lines, sub).value.status.Complete?))
            && (InForce(purchases, sub, returning, window).None?
                || purchases[i].created >= InForce(purchases, sub, returning, window).value)
  {
    hide Candidates, InForce, LineOf;
    CandidateCounts(purchases, sub, returning, window, i);
  }

  /** Over the same orders, equal candidate lists have the same renewal in force. */
  lemma InForceShows(
    purchases: seq<Purchase>, purchases': seq<Purchase>, sub: SubId, returning: seq<OrderId>, returning': seq<OrderId>,
    window: Window)
    requires DistinctPurchases(purchases) && SamePurchases(purchases, purchases')
    requires Candidates(purchases, sub, returning, window) == Candidates(purchases', sub, returning', window)
    ensures InForce(purchases, sub, returning, window) == InForce(purchases', sub, returning', window)
  {
    hide Candidates, InForce, Counts;
    var f := InForceAt(purchases, sub, returning, window);
    var f' := InForceAt(purchases', sub, returning', window);
    if InForce(purchases, sub, returning, window).Some? {
      CandidateCounts(purchases, sub, returning, window, f);
      CandidateCounts(purchases', sub, returning', window, f);
    }
    if InForce(purchases', sub, returning', window).Some? {
      CandidateCounts(purchases, sub, returning, window, f');
      CandidateCounts(purchases', sub, returning', window, f');
    }
  }

  /** The candidate list stays the same if and only if the renewal in force does and no order since
      then becomes or stops being returnable. */
  lemma CandidatesSameIff(
    purchases: seq<Purchase>, purchases': seq<Purchase>, sub: SubId, returning: seq<OrderId>, returning': seq<OrderId>,
    window: Window)
    requires DistinctPurchases(purchases) && SamePurchases(purchases, purchases')
    ensures Candidates(purchases, sub, returning, window) == Candidates(purchases', sub, returning', window) <==>
            && InForce(purchases, sub, returning, window) == InForce(purchases', sub, returning', window)
            && forall i :: 0 <= i < |purchases| &&
                           IsSince(purchases[i].created, InForce(purchases, sub, returning, window)) ==>
                             Counts(purchases[i], sub, returning, window) ==
                               Counts(purchases'[i], sub, returning', window)
  {
    hide FlatMap, InForce, Counts;
    var date := InForce(purchases, sub, returning, window);
    if Candidates(purchases, sub, returning, window) == Candidates(purchases', sub, returning', window) {
      InForceShows(purchases, purchases', sub, returning, returning', window);
      forall i | 0 <= i < |purchases| && IsSince(purchases[i].created, date)
        ensures Counts(purchases[i], sub, returning, window) == Counts(purchases'[i], sub, returning', window)
      {
        CandidateCounts(purchases, sub, returning, window, i);
        CandidateCounts(purchases', sub, returning', window, i);
      }
    }
    if date == InForce(purchases', sub, returning', window)
       && forall i :: 0 <= i < |purchases| && IsSince(purchases[i].created, date) ==>
                        Counts(purchases[i], sub, returning, window) == Counts(purchases'[i], sub, returning', window) {
      var f, f' := ItemsOf(sub, returning, window), ItemsOf(sub, returning', window);
      FlatMapThen(purchases, f, SinceRenewal(date));
      FlatMapThen(purchases', f', SinceRenewal(date));
      forall i | 0 <= i < |purchases|
        ensures Then(f, SinceRenewal(date))(purchases[i]) == Then(f', SinceRenewal(date))(purchases'[i])
      {
        SameCandidate(purchases[i], purchases'[i], sub, returning, returning', window, date);
      }
      FlatMapPairwise(purchases, purchases', Then(f, SinceRenewal(date)), Then(f', SinceRenewal(date)));
    }
  }

  lemma SameCandidate(
    p: Purchase, p': Purchase, sub: SubId, returning: seq<OrderId>, returning': seq<OrderId>, window: Window,
    date: Option<int>)
    requires SamePurchase(p, p')
    requires IsSince(p.created, date) ==> Counts(p, sub, returning, window) == Counts(p', sub, returning', window)
    ensures FlatMap(ItemsOf(sub, returning, window)(p), SinceRenewal(date)) ==
            FlatMap(ItemsOf(sub, returning', window)(p'), SinceRenewal(date))
  {
    SameLine(p.lines, p'.lines, sub);
    if Counts(p, sub, returning, window) {
      FlatMapOne(ItemFor(p, sub), SinceRenewal(date));
    }
    if Counts(p', sub, returning', window) {
      FlatMapOne(ItemFor(p', sub), SinceRenewal(date));
    }
  }

  /** Exactly when a choice is stable: two moments lead to the same choice for every downsize if and
      only if the same renewal is in force and, among the orders of the subscription in the window and
      not from before it, none becomes or stops being returnable. */
  lemma ChoiceStableIff(
    purchases: seq<Purchase>, purchases': seq<Purchase>, returned: seq<ReturnOrder>, returned': seq<ReturnOrder>,
    mpt: MptId, line: DownsizeLine, window: Window)
    requires DistinctPurchases(purchases) && SamePurchases(purchases, purchases')
    requires PositiveQuantities(CandidatesFor(purchases, returned, mpt, line, window))
    requires PositiveQuantities(CandidatesFor(purchases', returned', mpt, line, window))
    ensures var ids, ids' := ReturningIds(returned, mpt, line.sku), ReturningIds(returned', mpt, line.sku);
            (forall delta: nat ::
               Chosen(purchases, returned, mpt, line.(delta := delta), window) ==
               Chosen(purchases', returned', mpt, line.(delta := delta), window))
            <==>
            && InForce(purchases, line.sub, ids, window) == InForce(purchases', line.sub, ids', window)
            && forall i :: 0 <= i < |purchases| &&
                           IsSince(purchases[i].created, InForce(purchases, line.sub, ids, window)) ==>
                             (Eligible(purchases[i], returned, mpt, line, window) <==>
                              Eligible(purchases'[i], returned', mpt, line, window))
  {
    hide Candidates, InForce, Counts, Eligible, Selected, ReturningIds;
    var ids, ids' := ReturningIds(returned, mpt, line.sku), ReturningIds(returned', mpt, line.sku);
    var s, s' := CandidatesFor(purchases, returned, mpt, line, window),
      CandidatesFor(purchases', returned', mpt, line, window);
    SameChoicesIff(s, s');
    CandidatesSameIff(purchases, purchases', line.sub, ids, ids', window);
    forall i | 0 <= i < |purchases|
      ensures Eligible(purchases[i], returned, mpt, line, window) <==> Counts(purchases[i], line.sub, ids, window)
      ensures Eligible(purchases'[i], returned', mpt, line, window) <==> Counts(purchases'[i], line.sub, ids', window)
    {
      EligibleCounts(purchases[i], returned, mpt, line, window);
      EligibleCounts(purchases'[i], returned', mpt, line, window);
    }
    forall delta: nat
      ensures (Chosen(purchases, returned, mpt, line.(delta := delta), window) ==
               Chosen(purchases', returned', mpt, line.(delta := delta), window)) <==>
               (Selected(s, delta) == Selected(s', delta))
    {
      SelectionIsExact(s, delta);
      SelectionIsExact(s', delta);
    }
  }

  /** What a disturbing step can do. Order 1 was chosen for a downsize by 5 and its return is open when
      order 2, of the same subscription and quantity, completes: the choice moves to order 2, which has no
      return yet, so a retry returns it as well, 10 in all. */
  lemma CompletionMovesTheChoice()
    ensures var line, window := DownsizeLine(7, 3, 5), Window(0, 10);
            var first := Purchase(1, New, Plain(9), 4, [PurchaseLine(1, 3, 7, 5, None, Complete)], Complete);
            var second := Purchase(2, New, Plain(9), 5, [PurchaseLine(1, 3, 7, 5, None, Complete)], Open);
            var done := second.(status := Complete);
            var returned := [ReturnOrder(0, 8, 1, 7, 5, Open)];
            && Legal([first, second], returned, PurchaseMoves(1, done), 8, [line])
            && Disturbs([first, second], returned, PurchaseMoves(1, done), 8, [line], window)
            && Chosen([first, second], returned, 8, line, window) == [Candidate(1, 1, 7, 5, None)]
            && Chosen([first, done], returned, 8, line, window) == [Candidate(2, 1, 7, 5, None)]
            && HasLiveReturn(returned, 8, 1, 7) && !HasLiveReturn(returned, 8, 2, 7)
  {
    var line, window := DownsizeLine(7, 3, 5), Window(0, 10);
    var first := Purchase(1, New, Plain(9), 4, [PurchaseLine(1, 3, 7, 5, None, Complete)], Complete);
    var second := Purchase(2, New, Plain(9), 5, [PurchaseLine(1, 3, 7, 5, None, Complete)], Open);
    var done := second.(status := Complete);
    var returned := [ReturnOrder(0, 8, 1, 7, 5, Open)];
    var a, b := Candidate(1, 1, 7, 5, None), Candidate(2, 1, 7, 5, None);
    assert IsOwn(returned[0], 8, 7);
    assert Flips(second, done, [line][0].sub, window) && !HasLiveReturn(returned, 8, 2, [line][0].sku);
    var ids := ReturningIds(returned, 8, 7);
    ReturningIdsAre(returned, 8, 7, 2);
    OneItem(first, second, 3, ids, window);
    TwoItems(first, done, 3, ids, window);
    LaterOneIsChosen(a, b);
  }

  lemma ItemsOfTwo(first: Purchase, second: Purchase, sub: SubId, returning: seq<OrderId>, window: Window)
    ensures Items([first, second], sub, returning, window) ==
            ItemsOf(sub, returning, window)(first) + ItemsOf(sub, returning, window)(second)
  {
    hide FlatMap, ItemsOf;
    var f := ItemsOf(sub, returning, window);
    assert [first, second] == [first] + [second];
    FlatMapConcat([first], [second], f);
    FlatMapOne(first, f);
    FlatMapOne(second, f);
  }

  lemma OneItem(first: Purchase, second: Purchase, sub: SubId, returning: seq<OrderId>, window: Window)
    requires Counts(first, sub, returning, window) && !Counts(second, sub, returning, window) && first.kind == New
    ensures Candidates([first, second], sub, returning, window) == [ItemFor(first, sub).candidate]
  {
    hide FlatMap, LineOf;
    ItemsOfTwo(first, second, sub, returning, window);
    var item := ItemFor(first, sub);
    assert Items([first, second], sub, returning, window) == [item];
    assert [item][1..] == [] && item.kind == New;
    assert FirstRenewal([item]) == None;
    FlatMapOne(item, SinceRenewal(None));
    assert Candidates([first, second], sub, returning, window) == FlatMap([item], SinceRenewal(None));
  }

  lemma TwoItems(first: Purchase, second: Purchase, sub: SubId, returning: seq<OrderId>, window: Window)
    requires Counts(first, sub, returning, window) && Counts(second, sub, returning, window)
    requires first.kind == second.kind == New
    ensures Candidates([first, second], sub, returning, window) ==
              [ItemFor(first, sub).candidate, ItemFor(second, sub).candidate]
  {
    hide FlatMap, LineOf;
    ItemsOfTwo(first, second, sub, returning, window);
    var one, two := ItemFor(first, sub), ItemFor(second, sub);
    assert Items([first, second], sub, returning, window) == [one, two];
    assert [one, two][1..] == [two] && [two][1..] == [] && one.kind == two.kind == New;
    assert FirstRenewal([two]) == None && FirstRenewal([one, two]) == None;
    assert Candidates([first, second], sub, returning, window) == FlatMap([one, two], SinceRenewal(None));
    FlatMapConcat([one], [two], SinceRenewal(None));
    FlatMapOne(one, SinceRenewal(None));
    FlatMapOne(two, SinceRenewal(None));
    assert [one, two] == [one] + [two];
  }
}
