/** The 3YC projection of a change order: the incremental count of what the customer will renew, what
    it misses, and what accepting it guarantees while the order is carried out. */
module Commitment {
  import opened RenewalPlan
  import opened Sequences
  import opened Subscriptions

  // Uncommitted: the product is unknown or has no 3YC type; it is left out of the counts.
  datatype OfferType = License | Consumable | Uncommitted

  datatype Counts = Counts(licenses: int, consumables: int) {
    function Of(t: OfferType): int {
      match t
      case License => licenses
      case Consumable => consumables
      case Uncommitted => 0
    }

    function Plus(t: OfferType, delta: int): Counts {
      match t
      case License => this.(licenses := licenses + delta)
      case Consumable => this.(consumables := consumables + delta)
      case Uncommitted => this
    }
  }

  function OfType(typeOf: Sku -> OfferType, t: OfferType): Offer -> bool {
    (offer: Offer) => typeOf(offer.sku) == t
  }

  /******* Counting the subscriptions *******/

  function ListedContribution(counted: Offer -> bool): Listed -> nat {
    (listed: Listed) => Contribution(listed.sub, counted)
  }

  function IdsOf(listing: seq<Listed>): set<SubId> {
    set listed | listed in listing :: listed.id
  }

  ghost predicate PartOf(listing: seq<Listed>, subs: Subs) {
    && (forall i :: 0 <= i < |listing| ==> listing[i].id in subs && subs[listing[i].id] == listing[i].sub)
    && (forall i, j :: 0 <= i < j < |listing| ==> listing[i].id != listing[j].id)
  }

  lemma IdsSnoc(listing: seq<Listed>, last: Listed)
    ensures IdsOf(listing + [last]) == IdsOf(listing) + {last.id}
  {
  }

  lemma PartSnoc(listing: seq<Listed>, last: Listed, subs: Subs)
    requires PartOf(listing + [last], subs)
    ensures PartOf(listing, subs) && last.id !in IdsOf(listing)
    ensures last.id in subs && subs[last.id] == last.sub
  {
    var all := listing + [last];
    assert all[|listing|] == last && forall i :: 0 <= i < |listing| ==> all[i] == listing[i];
  }

  lemma {:induction false} ListedSum(listing: seq<Listed>, subs: Subs, counted: Offer -> bool)
    requires PartOf(listing, subs)
    ensures IdsOf(listing) <= subs.Keys
    ensures Sum(listing, ListedContribution(counted)) == SumOver(subs, IdsOf(listing), counted)
  {
    if listing != [] {
      hide Sum, SumOver, PartOf, IdsOf;
      var front, last := listing[..|listing|-1], listing[|listing|-1];
      assert listing == front + [last];
      PartSnoc(front, last, subs);
      IdsSnoc(front, last);
      ListedSum(front, subs, counted);
      SumSplit(subs, IdsOf(listing), last.id, counted);
      assert IdsOf(listing) - {last.id} == IdsOf(front);
      SumLast(listing, ListedContribution(counted));
    }
  }

  /** An enabled subscription of a committed type without a renewal quantity cannot be counted. */
  predicate Unreadable(sub: Subscription, typeOf: Sku -> OfferType) {
    sub.auto.enabled && typeOf(sub.offer.sku) != Uncommitted && sub.auto.quantity.None?
  }

  /** get_licenses_and_consumables_count. None stands for the error a missing quantity raises. */
  method CountSubscriptions(listing: seq<Listed>, typeOf: Sku -> OfferType, ghost subs: Subs)
    returns (counts: Option<Counts>)
    requires Lists(listing, subs)
    ensures counts.None? <==> exists id :: id in subs && Unreadable(subs[id], typeOf)
    ensures counts.Some? ==>
              forall t :: t != Uncommitted ==> counts.value.Of(t) == Aggregate(subs, OfType(typeOf, t))
  {
    hide Sum, SumOver;
    var total := Counts(0, 0);
    SumNone(ListedContribution(OfType(typeOf, License)));
    SumNone(ListedContribution(OfType(typeOf, Consumable)));
    for i := 0 to |listing|
      invariant forall j :: 0 <= j < i ==> !Unreadable(listing[j].sub, typeOf)
      invariant total.licenses == Sum(listing[..i], ListedContribution(OfType(typeOf, License)))
      invariant total.consumables == Sum(listing[..i], ListedContribution(OfType(typeOf, Consumable)))
    {
      var sub := listing[i].sub;
      SumNext(listing, i, ListedContribution(OfType(typeOf, License)));
      SumNext(listing, i, ListedContribution(OfType(typeOf, Consumable)));
      if sub.auto.enabled && typeOf(sub.offer.sku) != Uncommitted {
        if sub.auto.quantity.None? {
          assert Unreadable(subs[listing[i].id], typeOf);
          return None;
        }
        total := total.Plus(typeOf(sub.offer.sku), sub.auto.quantity.value);
      }
    }
    assert listing[..|listing|] == listing;
    ListedSum(listing, subs, OfType(typeOf, License));
    ListedSum(listing, subs, OfType(typeOf, Consumable));
    assert IdsOf(listing) == subs.Keys;
    return Some(total);
  }

  /******* Projecting the order lines *******/

  // `sub` serves the line: its subscription, or the one the NEW order creates for a new line.
  datatype OrderLine = OrderLine(sku: Sku, sub: SubId, oldQuantity: nat, quantity: nat)

  function Deltas(lines: seq<OrderLine>, typeOf: Sku -> OfferType, t: OfferType): int {
    if lines == [] then 0
    else
      var last := lines[|lines|-1];
      Deltas(lines[..|lines|-1], typeOf, t) + if typeOf(last.sku) == t then last.quantity - last.oldQuantity else 0
  }

  /** process_lines_quantities: downsizes subtract what goes away, the others add what comes in. */
  method ProcessLines(lines: seq<OrderLine>, start: Counts, typeOf: Sku -> OfferType, isDownsize: bool)
    returns (counts: Counts)
    ensures forall t :: t != Uncommitted ==> counts.Of(t) == start.Of(t) + Deltas(lines, typeOf, t)
  {
    counts := start;
    for i := 0 to |lines|
      invariant counts.licenses == start.licenses + Deltas(lines[..i], typeOf, License)
      invariant counts.consumables == start.consumables + Deltas(lines[..i], typeOf, Consumable)
    {
      var line := lines[i];
      assert lines[..i+1][..i] == lines[..i];
      var delta := if isDownsize then line.oldQuantity - line.quantity else line.quantity - line.oldQuantity;
      counts := counts.Plus(typeOf(line.sku), if isDownsize then -delta else delta);
    }
    assert lines[..|lines|] == lines;
  }

  /******* The recount *******/

  /** The state after the line has been carried out: the renewal quantity is written (which also
      enables auto-renewal), or the NEW order has created the subscription. */
  function Served(subs: Subs, line: OrderLine): Subs {
    subs[line.sub :=
    if line.sub in subs then Patched(subs[line.sub], true, Some(line.quantity), None)
    else NewScheduled(Offer(line.sku, 0), line.quantity)]
  }

  function ServedAll(subs: Subs, lines: seq<OrderLine>): Subs {
    if lines == [] then subs else Served(ServedAll(subs, lines[..|lines|-1]), lines[|lines|-1])
  }

  function RenewingNow(subs: Subs, id: SubId): nat {
    if id in subs then Renewing(subs[id]) else 0
  }

  /** Each line has its own subscription, and a subscription that exists is of the line's SKU. */
  ghost predicate LinesServe(lines: seq<OrderLine>, subs: Subs) {
    && (forall i, j :: 0 <= i < j < |lines| ==> lines[i].sub != lines[j].sub)
    && (forall i :: 0 <= i < |lines| && lines[i].sub in subs ==> subs[lines[i].sub].offer.sku == lines[i].sku)
  }

  /** How far the lines' old quantities are from what their subscriptions renew. */
  function Drift(lines: seq<OrderLine>, subs: Subs, typeOf: Sku -> OfferType, t: OfferType): int {
    if lines == [] then 0
    else
      var last := lines[|lines|-1];
      Drift(lines[..|lines|-1], subs, typeOf, t)
      + if typeOf(last.sku) == t then RenewingNow(subs, last.sub) - last.oldQuantity else 0
  }

  lemma {:induction false} OthersUntouched(subs: Subs, lines: seq<OrderLine>, id: SubId)
    requires forall i :: 0 <= i < |lines| ==> lines[i].sub != id
    ensures id in ServedAll(subs, lines) <==> id in subs
    ensures id in subs ==> ServedAll(subs, lines)[id] == subs[id]
  {
    if lines != [] {
      OthersUntouched(subs, lines[..|lines|-1], id);
    }
  }

  /** The incremental count equals the recount after every line has been carried out, up to the
      drift of the old quantities: exact for every list of lines and every state. */
  lemma {:induction false} ProjectionIsRecount(
    subs: Subs, lines: seq<OrderLine>, typeOf: Sku -> OfferType, t: OfferType)
    requires LinesServe(lines, subs)
    ensures Aggregate(subs, OfType(typeOf, t)) + Deltas(lines, typeOf, t)
            == Aggregate(ServedAll(subs, lines), OfType(typeOf, t)) + Drift(lines, subs, typeOf, t)
  {
    hide SumOver;
    if lines != [] {
      var front, last := lines[..|lines|-1], lines[|lines|-1];
      ProjectionIsRecount(subs, front, typeOf, t);
      OthersUntouched(subs, front, last.sub);
      var before := ServedAll(subs, front);
      AggregateAfterWrite(before, last.sub, Served(before, last)[last.sub], OfType(typeOf, t));
    }
  }

  /** When every line's old quantity is what its subscription renews, there is no drift. */
  ghost predicate OldIsRenewing(lines: seq<OrderLine>, subs: Subs) {
    forall i :: 0 <= i < |lines| ==> lines[i].oldQuantity == RenewingNow(subs, lines[i].sub)
  }

  lemma {:induction false} NoDrift(lines: seq<OrderLine>, subs: Subs, typeOf: Sku -> OfferType, t: OfferType)
    requires OldIsRenewing(lines, subs)
    ensures Drift(lines, subs, typeOf, t) == 0
  {
    if lines != [] {
      NoDrift(lines[..|lines|-1], subs, typeOf, t);
    }
  }

  /** For a single line of a committed type the projection is exact if and only if the old quantity
      is what the subscription renews; a disabled subscription renews nothing. */
  lemma LineIsExactIff(subs: Subs, line: OrderLine, typeOf: Sku -> OfferType)
    requires LinesServe([line], subs)
    ensures Aggregate(subs, OfType(typeOf, typeOf(line.sku))) + Deltas([line], typeOf, typeOf(line.sku))
            == Aggregate(ServedAll(subs, [line]), OfType(typeOf, typeOf(line.sku)))
            <==> line.oldQuantity == RenewingNow(subs, line.sub)
  {
    ProjectionIsRecount(subs, [line], typeOf, typeOf(line.sku));
    assert [line][..0] == [];
  }

  /******* Minimum quantities *******/

  datatype Minimum = Minimum(offerType: OfferType, quantity: nat)

  ghost predicate Meets(minimums: seq<Minimum>, subs: Subs, typeOf: Sku -> OfferType) {
    forall i :: 0 <= i < |minimums| && minimums[i].offerType != Uncommitted ==>
                  Aggregate(subs, OfType(typeOf, minimums[i].offerType)) >= minimums[i].quantity
  }

  // Which minimum was broken, with the values the error message names.
  datatype Verdict =
    Accept | BothBelow(licenses: nat, consumables: nat) | LicensesBelow(licenses: nat)
    | ConsumablesBelow(consumables: nat)

  /** A minimum of that quantity is there and not met. */
  predicate Breaks(minimums: seq<Minimum>, offerType: OfferType, count: int, quantity: nat) {
    Minimum(offerType, quantity) in minimums && count < quantity
  }

  /** validate_minimum_quantity */
  method ValidateMinimum(minimums: seq<Minimum>, counts: Counts) returns (verdict: Verdict)
    ensures verdict.Accept? <==>
            forall i :: 0 <= i < |minimums| && minimums[i].offerType != Uncommitted ==>
                          counts.Of(minimums[i].offerType) >= minimums[i].quantity
    ensures verdict.BothBelow? ==>
              && Breaks(minimums, License, counts.licenses, verdict.licenses)
              && Breaks(minimums, Consumable, counts.consumables, verdict.consumables)
    ensures verdict.LicensesBelow? ==>
              && Breaks(minimums, License, counts.licenses, verdict.licenses)
              && forall quantity :: !Breaks(minimums, Consumable, counts.consumables, quantity)
    ensures verdict.ConsumablesBelow? ==>
              && Breaks(minimums, Consumable, counts.consumables, verdict.consumables)
              && forall quantity :: !Breaks(minimums, License, counts.licenses, quantity)
  {
    var licenses: Option<nat> := None;
    var consumables: Option<nat> := None;
    for i := 0 to |minimums|
      invariant licenses.Some? ==> Breaks(minimums, License, counts.licenses, licenses.value)
      invariant consumables.Some? ==> Breaks(minimums, Consumable, counts.consumables, consumables.value)
      invariant licenses.None? <==>
                forall j :: 0 <= j < i && minimums[j].offerType == License ==> counts.licenses >= minimums[j].quantity
      invariant consumables.None? <==>
                forall j :: 0 <= j < i && minimums[j].offerType == Consumable ==>
                  counts.consumables >= minimums[j].quantity
    {
      var minimum := minimums[i];
      if minimum.offerType == License && counts.licenses < minimum.quantity {
        licenses := Some(minimum.quantity);
      }
      if minimum.offerType == Consumable && counts.consumables < minimum.quantity {
        consumables := Some(minimum.quantity);
      }
    }
    if licenses.Some? && consumables.Some? {
      return BothBelow(licenses.value, consumables.value);
    } else if licenses.Some? {
      return LicensesBelow(licenses.value);
    } else if consumables.Some? {
      return ConsumablesBelow(consumables.value);
    }
    return Accept;
  }

  /** Validate3YCCommitment, from the customer's subscriptions to the verdict: with every old quantity
      in step with its subscription, the order is accepted if and only if the state after all its
      writes meets every minimum. */
  method ValidateCommitment(
    listing: seq<Listed>, rising: seq<OrderLine>, falling: seq<OrderLine>, minimums: seq<Minimum>,
    typeOf: Sku -> OfferType,
    ghost subs: Subs)
    returns (verdict: Option<Verdict>)
    requires Lists(listing, subs)
    ensures verdict.None? <==> exists id :: id in subs && Unreadable(subs[id], typeOf)
    ensures verdict.Some? && LinesServe(rising + falling, subs) && OldIsRenewing(rising + falling, subs) ==>
              (verdict.value.Accept? <==> Meets(minimums, ServedAll(subs, rising + falling), typeOf))
  {
    hide SumOver, ServedAll, Deltas, Drift;
    var counts := CountSubscriptions(listing, typeOf, subs);
    if counts.None? {
      return None;
    }
    var afterDownsizes := ProcessLines(falling, counts.value, typeOf, true);
    var projected := ProcessLines(rising, afterDownsizes, typeOf, false);
    if LinesServe(rising + falling, subs) && OldIsRenewing(rising + falling, subs) {
      forall t | t != Uncommitted
        ensures projected.Of(t) == Aggregate(ServedAll(subs, rising + falling), OfType(typeOf, t))
      {
        DeltasConcat(rising, falling, typeOf, t);
        ProjectionIsRecount(subs, rising + falling, typeOf, t);
        NoDrift(rising + falling, subs, typeOf, t);
      }
    }
    var answer := ValidateMinimum(minimums, projected);
    return Some(answer);
  }

  lemma {:induction false} DeltasConcat(a: seq<OrderLine>, b: seq<OrderLine>, typeOf: Sku -> OfferType, t: OfferType)
    ensures Deltas(a + b, typeOf, t) == Deltas(a, typeOf, t) + Deltas(b, typeOf, t)
  {
    if b == [] {
      assert a + b == a;
    } else {
      DeltasConcat(a, b[..|b|-1], typeOf, t);
      assert (a + b)[..|a + b|-1] == a + b[..|b|-1];
    }
  }

  /******* While the order is carried out *******/

  ghost predicate Rises(line: OrderLine, subs: Subs) {
    line.quantity >= RenewingNow(subs, line.sub)
  }

  ghost predicate Falls(line: OrderLine, subs: Subs) {
    line.sub in subs && line.quantity <= Renewing(subs[line.sub])
  }

  lemma ServedNext(subs: Subs, lines: seq<OrderLine>, n: nat)
    requires LinesServe(lines, subs) && n < |lines|
    ensures ServedAll(subs, lines[..n+1]) == Served(ServedAll(subs, lines[..n]), lines[n])
    ensures lines[n].sub in ServedAll(subs, lines[..n]) <==> lines[n].sub in subs
    ensures lines[n].sub in subs ==> ServedAll(subs, lines[..n])[lines[n].sub] == subs[lines[n].sub]
  {
    assert lines[..n+1][..n] == lines[..n];
    OthersUntouched(subs, lines[..n], lines[n].sub);
  }

  lemma {:induction false} RisingDominatesStart(subs: Subs, lines: seq<OrderLine>, n: nat)
    requires LinesServe(lines, subs) && n <= |lines|
    requires forall i :: 0 <= i < n ==> Rises(lines[i], subs)
    ensures Dominates(ServedAll(subs, lines[..n]), subs)
  {
    if n > 0 {
      RisingDominatesStart(subs, lines, n - 1);
      ServedNext(subs, lines, n - 1);
    }
  }

  lemma {:induction false} FallingDominatesEnd(subs: Subs, lines: seq<OrderLine>, n: nat)
    requires LinesServe(lines, subs) && n <= |lines|
    requires forall i :: n <= i < |lines| ==> Falls(lines[i], subs)
    ensures Dominates(ServedAll(subs, lines[..n]), ServedAll(subs, lines))
    decreases |lines| - n
  {
    if n < |lines| {
      FallingDominatesEnd(subs, lines, n + 1);
      ServedNext(subs, lines, n);
    } else {
      assert lines[..n] == lines;
    }
  }

  /** Why the writes go up before they go down: from a compliant customer and an order the projection
      accepts, the customer is compliant after every single write. */
  lemma EveryWriteKeepsTheMinimums(
    subs: Subs, rising: seq<OrderLine>, falling: seq<OrderLine>, n: nat, minimums: seq<Minimum>,
    typeOf: Sku -> OfferType)
    requires LinesServe(rising + falling, subs) && OldIsRenewing(rising + falling, subs) && n <= |rising| + |falling|
    requires forall i :: 0 <= i < |rising| ==> rising[i].quantity >= rising[i].oldQuantity
    requires forall i :: 0 <= i < |falling| ==> falling[i].quantity < falling[i].oldQuantity
    requires Meets(minimums, subs, typeOf) && Meets(minimums, ServedAll(subs, rising + falling), typeOf)
    ensures Meets(minimums, ServedAll(subs, (rising + falling)[..n]), typeOf)
  {
    hide SumOver, ServedAll;
    var lines := rising + falling;
    forall i | 0 <= i < |lines|
      ensures i < |rising| ==> Rises(lines[i], subs)
      ensures i >= |rising| ==> Falls(lines[i], subs)
    {
      assert lines[i] == if i < |rising| then rising[i] else falling[i - |rising|];
    }
    if n <= |rising| {
      RisingDominatesStart(subs, lines, n);
    } else {
      FallingDominatesEnd(subs, lines, n);
    }
    forall i | 0 <= i < |minimums| && minimums[i].offerType != Uncommitted
      ensures Aggregate(ServedAll(subs, lines[..n]), OfType(typeOf, minimums[i].offerType)) >= minimums[i].quantity
    {
      EitherEndKeepsTheMinimum(
        ServedAll(subs, lines[..n]), subs, ServedAll(subs, lines), OfType(typeOf, minimums[i].offerType),
        minimums[i].quantity);
    }
  }
}
