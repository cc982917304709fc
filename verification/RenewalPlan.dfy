/** The at-anniversary renewal plan: resolving it against Adobe, classifying it into PATCH operations
    that are additive before subtractive, applying them and replaying the snapshots backwards. */
module RenewalPlan {
  import opened Subscriptions

  /******* Resolving the plan *******/

  datatype PayloadEntry = PayloadEntry(
    sub: SubId, offer: Option<Offer>, renew: bool, quantity: Option<nat>, codes: Option<seq<Code>>)

  datatype Snapshot = Snapshot(enabled: bool, quantity: Option<nat>, codes: seq<Code>, renewed: Option<nat>)

  datatype PlanEntry = PlanEntry(
    sub: SubId, offer: Offer, renew: bool, quantity: nat, codes: seq<Code>, snapshot: Snapshot)

  function SnapshotOf(sub: Subscription): Snapshot {
    Snapshot(sub.auto.enabled, sub.auto.quantity, sub.auto.codes, sub.renewed)
  }

  function ResolveEntry(entry: PayloadEntry, sub: Subscription): PlanEntry {
    PlanEntry(
      entry.sub,
      if entry.offer.Some? then entry.offer.value else sub.offer,
      entry.renew,
      if entry.quantity.Some? then entry.quantity.value else 0,
      if entry.codes.Some? then entry.codes.value else [],
      SnapshotOf(sub))
  }

  /** The entry as the payload gives it, with what Adobe shows of its subscription: the offer where none is given,
      and the preference and the renewed quantity to remember. */
  ghost predicate IsResolved(entry: PlanEntry, given: PayloadEntry, sub: Subscription) {
    && entry.sub == given.sub && entry.renew == given.renew
    && entry.offer == (if given.offer.Some? then given.offer.value else sub.offer)
    && entry.quantity == (if given.quantity.Some? then given.quantity.value else 0)
    && entry.codes == (if given.codes.Some? then given.codes.value else [])
    && entry.snapshot.enabled == sub.auto.enabled && entry.snapshot.quantity == sub.auto.quantity
    && entry.snapshot.codes == sub.auto.codes && entry.snapshot.renewed == sub.renewed
  }

  ghost predicate Known(payload: seq<PayloadEntry>, subs: Subs) {
    forall i :: 0 <= i < |payload| ==> payload[i].sub in subs
  }

  function Resolve(payload: seq<PayloadEntry>, subs: Subs): (plan: seq<PlanEntry>)
    requires forall i :: 0 <= i < |payload| ==> payload[i].sub in subs
    ensures |plan| == |payload|
    ensures forall i :: 0 <= i < |plan| ==> plan[i] == ResolveEntry(payload[i], subs[payload[i].sub])
  {
    if payload == [] then [] else
    Resolve(payload[..|payload|-1], subs) + [ResolveEntry(payload[|payload|-1], subs[payload[|payload|-1].sub])]
  }

  /** Look a subscription up in the listing by its id. */
  method FindListed(listing: seq<Listed>, id: SubId, ghost subs: Subs) returns (found: Option<Subscription>)
    requires Lists(listing, subs)
    ensures found == if id in subs then Some(subs[id]) else None
  {
    for i := 0 to |listing|
      invariant forall j :: 0 <= j < i ==> listing[j].id != id
    {
      if listing[i].id == id {
        return Some(listing[i].sub);
      }
    }
    return None;
  }

  lemma ResolveNext(payload: seq<PayloadEntry>, subs: Subs, i: nat)
    requires i < |payload| && Known(payload[..i], subs) && payload[i].sub in subs
    ensures Known(payload[..i+1], subs)
    ensures Resolve(payload[..i+1], subs) ==
              Resolve(payload[..i], subs) + [ResolveEntry(payload[i], subs[payload[i].sub])]
  {
  }

  /******* Classifying the plan *******/

  datatype OperationKind = Enable | Increase | Decrease | Disable

  datatype Operation = Operation(
    sub: SubId, enabled: bool, quantity: Option<nat>, codes: seq<Code>, snapshot: Snapshot)

  datatype Classified = InPlace | Needs(kind: OperationKind, operation: Operation)

  predicate SameCodes(a: seq<Code>, b: seq<Code>) {
    multiset(a) == multiset(b)
  }

  predicate IsRenewalInPlace(entry: PlanEntry) {
    entry.snapshot.enabled
    && entry.snapshot.quantity == Some(entry.quantity)
    && SameCodes(entry.snapshot.codes, entry.codes)
  }

  function Classify(entry: PlanEntry): Classified {
    if !entry.renew then
      if !entry.snapshot.enabled then InPlace
      else Needs(Disable, Operation(entry.sub, false, None, [], entry.snapshot))
    else if IsRenewalInPlace(entry) then InPlace
    else
      var operation := Operation(entry.sub, true, Some(entry.quantity), entry.codes, entry.snapshot);
      if !entry.snapshot.enabled then Needs(Enable, operation)
      else if entry.quantity >= (if entry.snapshot.quantity.Some? then entry.snapshot.quantity.value else 0)
      then Needs(Increase, operation)
      else Needs(Decrease, operation)
  }

  /** The operations of one kind, in plan order. */
  function Bucket(plan: seq<PlanEntry>, kind: OperationKind): seq<Operation> {
    if plan == [] then [] else
    var last := Classify(plan[|plan|-1]);
    Bucket(plan[..|plan|-1], kind) + if last.Needs? && last.kind == kind then [last.operation] else []
  }

  function Additive(plan: seq<PlanEntry>): seq<Operation> {
    Bucket(plan, Enable) + Bucket(plan, Increase)
  }

  function Subtractive(plan: seq<PlanEntry>): seq<Operation> {
    Bucket(plan, Decrease) + Bucket(plan, Disable)
  }

  function Operations(plan: seq<PlanEntry>): seq<Operation> {
    Additive(plan) + Subtractive(plan)
  }

  lemma EveryKind(kind: OperationKind)
    ensures kind in {Enable, Increase, Decrease, Disable}
  {
  }

  /** _build_operations: one pass over the plan into four buckets, then flattened in kind order. */
  method BuildOperations(plan: seq<PlanEntry>) returns (operations: seq<Operation>)
    ensures operations == Operations(plan)
    ensures forall i :: 0 <= i < |plan| && IsDue(plan[i]) ==> IsSentFor(operations, plan[i])
    ensures forall k :: 0 <= k < |operations| ==> IsOfDue(operations[k], plan)
  {
    hide Classify, IsDue, IsSentFor, IsOfDue;
    var buckets: map<OperationKind, seq<Operation>> :=
      map[Enable := [], Increase := [], Decrease := [], Disable := []];
    for i := 0 to |plan|
      invariant buckets.Keys == {Enable, Increase, Decrease, Disable}
      invariant forall kind :: kind in buckets ==> buckets[kind] == Bucket(plan[..i], kind)
    {
      assert plan[..i+1][..i] == plan[..i];
      var classified := Classify(plan[i]);
      if classified.Needs? {
        EveryKind(classified.kind);
        buckets := buckets[classified.kind := buckets[classified.kind] + [classified.operation]];
      }
    }
    assert plan[..|plan|] == plan;
    operations := buckets[Enable] + buckets[Increase] + buckets[Decrease] + buckets[Disable];
    assert operations == Operations(plan);
    OperationsMean(plan);
  }

  ghost predicate DistinctEntries(plan: seq<PlanEntry>) {
    forall i, j :: 0 <= i < j < |plan| ==> plan[i].sub != plan[j].sub
  }

  ghost predicate DistinctOperations(operations: seq<Operation>) {
    forall i, j :: 0 <= i < j < |operations| ==> operations[i].sub != operations[j].sub
  }

  /** Entry `i` of the plan is the one operation `op` of kind `kind` was built from. */
  ghost predicate BuiltFrom(plan: seq<PlanEntry>, op: Operation, kind: OperationKind, i: int) {
    0 <= i < |plan| && Classify(plan[i]) == Needs(kind, op)
  }

  lemma {:induction false} BucketSound(plan: seq<PlanEntry>, kind: OperationKind, k: nat)
    requires k < |Bucket(plan, kind)|
    ensures exists i :: BuiltFrom(plan, Bucket(plan, kind)[k], kind, i)
  {
    var front := plan[..|plan|-1];
    if k < |Bucket(front, kind)| {
      BucketSound(front, kind, k);
      var i :| BuiltFrom(front, Bucket(front, kind)[k], kind, i);
      assert BuiltFrom(plan, Bucket(plan, kind)[k], kind, i);
    } else {
      assert BuiltFrom(plan, Bucket(plan, kind)[k], kind, |plan| - 1);
    }
  }

  lemma {:induction false} BucketComplete(plan: seq<PlanEntry>, kind: OperationKind, i: nat)
    requires i < |plan| && Classify(plan[i]).Needs? && Classify(plan[i]).kind == kind
    ensures Classify(plan[i]).operation in Bucket(plan, kind)
  {
    if i < |plan| - 1 {
      BucketComplete(plan[..|plan|-1], kind, i);
    }
  }

  lemma {:induction false} BucketDistinct(plan: seq<PlanEntry>, kind: OperationKind)
    requires DistinctEntries(plan)
    ensures DistinctOperations(Bucket(plan, kind))
  {
    if plan != [] {
      var front := plan[..|plan|-1];
      BucketDistinct(front, kind);
      forall k | 0 <= k < |Bucket(front, kind)|
        ensures Bucket(front, kind)[k].sub != plan[|plan|-1].sub
      {
        BucketSound(front, kind, k);
        var i :| BuiltFrom(front, Bucket(front, kind)[k], kind, i);
        assert front[i] == plan[i];
      }
    }
  }

  /** Which bucket position `k` of the operation list belongs to. */
  function KindAt(plan: seq<PlanEntry>, k: nat): OperationKind
    requires k < |Operations(plan)|
  {
    if k < |Bucket(plan, Enable)| then Enable
    else if k < |Additive(plan)| then Increase
    else if k < |Additive(plan)| + |Bucket(plan, Decrease)| then Decrease
    else Disable
  }

  lemma OperationSound(plan: seq<PlanEntry>, k: nat)
    requires k < |Operations(plan)|
    ensures exists i :: BuiltFrom(plan, Operations(plan)[k], KindAt(plan, k), i)
  {
    var kind := KindAt(plan, k);
    var before := match kind
      case Enable => 0
      case Increase => |Bucket(plan, Enable)|
      case Decrease => |Additive(plan)|
      case Disable => |Additive(plan)| + |Bucket(plan, Decrease)|;
    assert Operations(plan)[k] == Bucket(plan, kind)[k - before];
    BucketSound(plan, kind, k - before);
  }

  lemma OperationComplete(plan: seq<PlanEntry>, i: nat)
    requires i < |plan| && Classify(plan[i]).Needs?
    ensures Classify(plan[i]).operation in Operations(plan)
  {
    BucketComplete(plan, Classify(plan[i]).kind, i);
  }

  /** The entry's subscription is not yet as the entry asks: a renewing one is off, or has another quantity or
      other codes in some number; a lapsing one is on. */
  ghost predicate IsDue(entry: PlanEntry) {
    if entry.renew then
      !(entry.snapshot.enabled && entry.snapshot.quantity == Some(entry.quantity)
        && multiset(entry.snapshot.codes) == multiset(entry.codes))
    else entry.snapshot.enabled
  }

  /** The operation sends what the entry asks, and remembers what was there. */
  ghost predicate Sends(op: Operation, entry: PlanEntry) {
    && op.sub == entry.sub && op.enabled == entry.renew && op.snapshot == entry.snapshot
    && (if entry.renew then op.quantity == Some(entry.quantity) && op.codes == entry.codes
        else op.quantity == None && op.codes == [])
  }

  ghost predicate IsSentFor(operations: seq<Operation>, entry: PlanEntry) {
    exists k :: 0 <= k < |operations| && Sends(operations[k], entry)
  }

  ghost predicate IsOfDue(op: Operation, plan: seq<PlanEntry>) {
    exists i :: 0 <= i < |plan| && IsDue(plan[i]) && Sends(op, plan[i])
  }

  /** Every entry that is due has its operation, and every operation is of an entry that is due. */
  lemma OperationsMean(plan: seq<PlanEntry>)
    ensures forall i :: 0 <= i < |plan| && IsDue(plan[i]) ==> IsSentFor(Operations(plan), plan[i])
    ensures forall k :: 0 <= k < |Operations(plan)| ==> IsOfDue(Operations(plan)[k], plan)
  {
    forall i | 0 <= i < |plan| && IsDue(plan[i])
      ensures IsSentFor(Operations(plan), plan[i])
    {
      OperationComplete(plan, i);
      var k :| 0 <= k < |Operations(plan)| && Operations(plan)[k] == Classify(plan[i]).operation;
      assert Sends(Operations(plan)[k], plan[i]);
    }
    forall k | 0 <= k < |Operations(plan)|
      ensures IsOfDue(Operations(plan)[k], plan)
    {
      OperationSound(plan, k);
      var i :| BuiltFrom(plan, Operations(plan)[k], KindAt(plan, k), i);
      assert IsDue(plan[i]) && Sends(Operations(plan)[k], plan[i]);
    }
  }

  ghost predicate InPlanOrder(plan: seq<PlanEntry>, first: Operation, second: Operation, kind: OperationKind) {
    exists a, b :: a < b && BuiltFrom(plan, first, kind, a) && BuiltFrom(plan, second, kind, b)
  }

  lemma {:induction false} BucketInOrder(plan: seq<PlanEntry>, kind: OperationKind, j: nat, k: nat)
    requires j < k < |Bucket(plan, kind)|
    ensures InPlanOrder(plan, Bucket(plan, kind)[j], Bucket(plan, kind)[k], kind)
  {
    var front := plan[..|plan|-1];
    var bucket := Bucket(plan, kind);
    assert bucket[j] == Bucket(front, kind)[j];
    if k < |Bucket(front, kind)| {
      BucketInOrder(front, kind, j, k);
      var a, b :| a < b && BuiltFrom(front, bucket[j], kind, a) && BuiltFrom(front, bucket[k], kind, b);
      assert BuiltFrom(plan, bucket[j], kind, a) && BuiltFrom(plan, bucket[k], kind, b);
    } else {
      BucketSound(front, kind, j);
      var a :| BuiltFrom(front, bucket[j], kind, a);
      assert BuiltFrom(plan, bucket[j], kind, a) && BuiltFrom(plan, bucket[k], kind, |plan| - 1);
    }
  }

  function Rank(kind: OperationKind): nat {
    match kind
    case Enable => 0
    case Increase => 1
    case Decrease => 2
    case Disable => 3
  }

  /** The list is a stable partition: enables, increases, decreases, disables, each in plan order. */
  lemma OperationsStable(plan: seq<PlanEntry>, j: nat, k: nat)
    requires j < k < |Operations(plan)|
    ensures Rank(KindAt(plan, j)) <= Rank(KindAt(plan, k))
    ensures KindAt(plan, j) == KindAt(plan, k) ==>
              InPlanOrder(plan, Operations(plan)[j], Operations(plan)[k], KindAt(plan, j))
  {
    hide Bucket;
    if KindAt(plan, j) == KindAt(plan, k) {
      var offset := match KindAt(plan, j)
        case Enable => 0
        case Increase => |Bucket(plan, Enable)|
        case Decrease => |Additive(plan)|
        case Disable => |Additive(plan)| + |Bucket(plan, Decrease)|;
      BucketInOrder(plan, KindAt(plan, j), j - offset, k - offset);
    }
  }

  /** The four buckets partition the entries that need work, so no subscription is patched twice. */
  lemma OperationsDistinct(plan: seq<PlanEntry>)
    requires DistinctEntries(plan)
    ensures DistinctOperations(Operations(plan))
  {
    var ops := Operations(plan);
    BucketDistinct(plan, Enable);
    BucketDistinct(plan, Increase);
    BucketDistinct(plan, Decrease);
    BucketDistinct(plan, Disable);
    forall j, k | 0 <= j < k < |ops|
      ensures ops[j].sub != ops[k].sub
    {
      if KindAt(plan, j) != KindAt(plan, k) {
        OperationSound(plan, j);
        OperationSound(plan, k);
        var ij :| BuiltFrom(plan, ops[j], KindAt(plan, j), ij);
        var ik :| BuiltFrom(plan, ops[k], KindAt(plan, k), ik);
        assert ij != ik;
      }
    }
  }

  /******* Applying and reversing operations *******/

  /** An empty code list is sent as "leave unchanged". */
  function CodesSent(op: Operation): Option<seq<Code>> {
    if op.codes == [] then None else Some(op.codes)
  }

  function Applied(subs: Subs, op: Operation): (after: Subs)
    requires op.sub in subs
    ensures after.Keys == subs.Keys
  {
    subs[op.sub := Patched(subs[op.sub], op.enabled, op.quantity, CodesSent(op))]
  }

  function Restored(subs: Subs, op: Operation): (after: Subs)
    requires op.sub in subs
    ensures after.Keys == subs.Keys
  {
    subs[op.sub := Patched(subs[op.sub], op.snapshot.enabled, op.snapshot.quantity, Some(op.snapshot.codes))]
  }

  ghost predicate Targets(subs: Subs, ops: seq<Operation>) {
    forall k :: 0 <= k < |ops| ==> ops[k].sub in subs
  }

  /** The state after the first operations have been applied, in order. */
  ghost function AppliedAll(subs: Subs, ops: seq<Operation>): (after: Subs)
    requires Targets(subs, ops)
    ensures after.Keys == subs.Keys
  {
    if ops == [] then subs else Applied(AppliedAll(subs, ops[..|ops|-1]), ops[|ops|-1])
  }

  /** The state after walking `ops` backwards and restoring each snapshot the service accepts. */
  ghost function RestoredAll(subs: Subs, ops: seq<Operation>, oks: seq<bool>): (after: Subs)
    requires Targets(subs, ops) && |oks| == |ops|
    ensures after.Keys == subs.Keys
    decreases |ops|
  {
    if ops == [] then subs else
    var tail := RestoredAll(subs, ops[1..], oks[1..]);
    if oks[0] then Restored(tail, ops[0]) else tail
  }

  ghost predicate AllTrue(oks: seq<bool>) {
    forall k :: 0 <= k < |oks| ==> oks[k]
  }

  lemma {:induction false} AppliedAt(subs: Subs, ops: seq<Operation>, n: nat, id: SubId)
    requires Targets(subs, ops) && DistinctOperations(ops) && n <= |ops| && id in subs
    ensures (forall k :: 0 <= k < n ==> ops[k].sub != id) ==> AppliedAll(subs, ops[..n])[id] == subs[id]
    ensures forall k :: 0 <= k < n && ops[k].sub == id ==>
                          AppliedAll(subs, ops[..n])[id] == Applied(subs, ops[k])[id]
  {
    hide Patched;
    if n > 0 {
      AppliedAt(subs, ops, n - 1, id);
      assert ops[..n][..n-1] == ops[..n-1];
    }
  }

  lemma {:induction false} RestoredAt(subs: Subs, ops: seq<Operation>, oks: seq<bool>, id: SubId)
    requires Targets(subs, ops) && DistinctOperations(ops) && |oks| == |ops| && id in subs
    ensures (forall k :: 0 <= k < |ops| && ops[k].sub == id ==> !oks[k]) ==> RestoredAll(subs, ops, oks)[id] == subs[id]
    ensures forall k :: 0 <= k < |ops| && ops[k].sub == id && oks[k] ==>
                          RestoredAll(subs, ops, oks)[id] == Restored(subs, ops[k])[id]
    decreases |ops|
  {
    hide Patched;
    if ops != [] {
      RestoredAt(subs, ops[1..], oks[1..], id);
      forall k | 0 <= k < |ops| && ops[k].sub == id && oks[k]
        ensures RestoredAll(subs, ops, oks)[id] == Restored(subs, ops[k])[id]
      {
        if k > 0 {
          assert ops[1..][k-1] == ops[k] && oks[1..][k-1] == oks[k];
        } else {
          assert forall j :: 0 <= j < |ops[1..]| ==> ops[1..][j].sub != id;
        }
      }
    }
  }

  /******* The running aggregate never dips *******/

  /** The snapshots of the plan describe the current state. */
  ghost predicate Snapshotted(plan: seq<PlanEntry>, subs: Subs) {
    forall i :: 0 <= i < |plan| ==> plan[i].sub in subs && plan[i].snapshot == SnapshotOf(subs[plan[i].sub])
  }

  /** Additive operations never lower, subtractive ones never raise, what a subscription renews. */
  lemma OperationDirection(plan: seq<PlanEntry>, subs: Subs, k: nat)
    requires Snapshotted(plan, subs) && k < |Operations(plan)|
    ensures var op := Operations(plan)[k];
            && op.sub in subs && op.snapshot == SnapshotOf(subs[op.sub])
            && (k < |Additive(plan)| ==> Renewing(Applied(subs, op)[op.sub]) >= Renewing(subs[op.sub]))
            && (k >= |Additive(plan)| ==> Renewing(Applied(subs, op)[op.sub]) <= Renewing(subs[op.sub]))
  {
    OperationSound(plan, k);
    var i :| BuiltFrom(plan, Operations(plan)[k], KindAt(plan, k), i);
  }

  lemma OperationsTarget(plan: seq<PlanEntry>, subs: Subs)
    requires Snapshotted(plan, subs)
    ensures Targets(subs, Operations(plan))
  {
    forall k | 0 <= k < |Operations(plan)|
      ensures Operations(plan)[k].sub in subs
    {
      OperationDirection(plan, subs, k);
    }
  }

  /** The first `n` operations applied and then all but the first `j` of them walked back. */
  ghost function Unwound(subs: Subs, ops: seq<Operation>, n: nat, j: nat, oks: seq<bool>): (after: Subs)
    requires Targets(subs, ops) && j <= n <= |ops| && |oks| == n - j
    ensures after.Keys == subs.Keys
  {
    RestoredAll(AppliedAll(subs, ops[..n]), ops[j..n], oks)
  }

  lemma UnwoundAt(subs: Subs, ops: seq<Operation>, n: nat, j: nat, oks: seq<bool>, id: SubId)
    requires Targets(subs, ops) && DistinctOperations(ops)
    requires j <= n <= |ops| && |oks| == n - j && AllTrue(oks) && id in subs
    ensures forall k :: 0 <= k < j && ops[k].sub == id ==>
              Unwound(subs, ops, n, j, oks)[id] == Applied(subs, ops[k])[id]
    ensures forall k :: j <= k < n && ops[k].sub == id ==>
                          Unwound(subs, ops, n, j, oks)[id] == Restored(Applied(subs, ops[k]), ops[k])[id]
    ensures (forall k :: 0 <= k < n ==> ops[k].sub != id) ==> Unwound(subs, ops, n, j, oks)[id] == subs[id]
  {
    hide AppliedAll, RestoredAll, Patched;
    var mid := AppliedAll(subs, ops[..n]);
    AppliedAt(subs, ops, n, id);
    RestoredAt(mid, ops[j..n], oks, id);
    forall k | j <= k < n && ops[k].sub == id
      ensures Unwound(subs, ops, n, j, oks)[id] == Restored(Applied(subs, ops[k]), ops[k])[id]
    {
      assert ops[j..n][k-j] == ops[k];
    }
    if forall k :: j <= k < n ==> ops[k].sub != id {
      assert forall k :: 0 <= k < n - j ==> ops[j..n][k] == ops[k+j];
    }
  }

  /** Main result for the existing subscriptions: at every failure point `n` and every position `j`
      of the backwards replay, each subscription renews at least as much as at the start, or each
      renews at least as much as in the target. */
  lemma EveryIntermediateStateDominatesAnEnd(plan: seq<PlanEntry>, subs: Subs, n: nat, j: nat, oks: seq<bool>)
    requires DistinctEntries(plan) && Snapshotted(plan, subs)
    requires j <= n <= |Operations(plan)| && |oks| == n - j && AllTrue(oks)
    ensures Targets(subs, Operations(plan))
    ensures j <= |Additive(plan)| ==> Dominates(Unwound(subs, Operations(plan), n, j, oks), subs)
    ensures j >= |Additive(plan)| ==>
              Dominates(Unwound(subs, Operations(plan), n, j, oks), AppliedAll(subs, Operations(plan)))
  {
    hide AppliedAll, RestoredAll, Unwound, Bucket, Classify, Operations;
    var ops := Operations(plan);
    OperationsDistinct(plan);
    OperationsTarget(plan, subs);
    var state := Unwound(subs, ops, n, j, oks);
    forall id | id in subs
      ensures state[id].offer == subs[id].offer
      ensures j <= |Additive(plan)| ==> Renewing(state[id]) >= Renewing(subs[id])
      ensures j >= |Additive(plan)| ==> Renewing(state[id]) >= Renewing(AppliedAll(subs, ops)[id])
      ensures AppliedAll(subs, ops)[id].offer == subs[id].offer
    {
      UnwoundAt(subs, ops, n, j, oks, id);
      AppliedAt(subs, ops, |ops|, id);
      assert ops[..|ops|] == ops;
      if k :| 0 <= k < |ops| && ops[k].sub == id {
        OperationDirection(plan, subs, k);
        if k >= n {
          assert forall m :: 0 <= m < n ==> ops[m].sub != id;
        }
      }
    }
  }

  /** What dominance is for: a 3YC minimum that both ends satisfy is satisfied in between. */
  lemma EitherEndKeepsTheMinimum(state: Subs, initial: Subs, target: Subs, counted: Offer -> bool, minimum: nat)
    requires Dominates(state, initial) || Dominates(state, target)
    requires Aggregate(initial, counted) >= minimum && Aggregate(target, counted) >= minimum
    ensures Aggregate(state, counted) >= minimum
  {
    if Dominates(state, initial) {
      DominanceBoundsAggregate(state, initial, counted);
    } else {
      DominanceBoundsAggregate(state, target, counted);
    }
  }

  /******* Restoring and converging *******/

  /** A restore brings the preference back exactly unless the snapshot had no quantity and the
      operation wrote one: a None quantity cannot be sent. */
  lemma RestoreIsExactIff(plan: seq<PlanEntry>, subs: Subs, k: nat)
    requires Snapshotted(plan, subs) && k < |Operations(plan)|
    ensures var op := Operations(plan)[k];
            && op.sub in subs
            && (Restored(Applied(subs, op), op)[op.sub] == subs[op.sub]
                <==> op.snapshot.quantity.Some? || !op.enabled)
  {
    OperationDirection(plan, subs, k);
    OperationSound(plan, k);
    var i :| BuiltFrom(plan, Operations(plan)[k], KindAt(plan, k), i);
  }

  /** A full rollback from any failure point puts every subscription back, provided the plan's
      subscriptions had a renewal quantity to go back to. */
  lemma FullRollbackRestores(plan: seq<PlanEntry>, subs: Subs, n: nat, oks: seq<bool>)
    requires DistinctEntries(plan) && Snapshotted(plan, subs)
    requires n <= |Operations(plan)| && |oks| == n && AllTrue(oks)
    requires forall i :: 0 <= i < |plan| && plan[i].renew ==> plan[i].snapshot.quantity.Some?
    ensures Targets(subs, Operations(plan)) && Unwound(subs, Operations(plan), n, 0, oks) == subs
  {
    hide AppliedAll, RestoredAll, Unwound, Bucket, Operations, KindAt, Applied, Restored;
    var ops := Operations(plan);
    OperationsDistinct(plan);
    OperationsTarget(plan, subs);
    forall id | id in subs
      ensures Unwound(subs, ops, n, 0, oks)[id] == subs[id]
    {
      UnwoundAt(subs, ops, n, 0, oks, id);
      if k :| 0 <= k < n && ops[k].sub == id {
        RestoreIsExactIff(plan, subs, k);
        OperationSound(plan, k);
        var i :| BuiltFrom(plan, ops[k], KindAt(plan, k), i);
      }
    }
  }

  /** What the plan wants a subscription with snapshot `entry.snapshot` to look like. */
  function Goal(entry: PlanEntry, sub: Subscription): Subscription {
    var classified := Classify(entry);
    if classified.InPlace? then sub
    else Patched(sub, classified.operation.enabled, classified.operation.quantity, CodesSent(classified.operation))
  }

  ghost predicate DistinctPayload(payload: seq<PayloadEntry>) {
    forall i, j :: 0 <= i < j < |payload| ==> payload[i].sub != payload[j].sub
  }

  /** Same auto-renewal preference; the order of the codes is immaterial. */
  predicate Equivalent(a: Subscription, b: Subscription) {
    a.(auto := a.auto.(codes := [])) == b.(auto := b.auto.(codes := [])) && SameCodes(a.auto.codes, b.auto.codes)
  }

  /** Position of the operation entry `i` needs, or None when the entry is in place. */
  lemma EntryOperation(plan: seq<PlanEntry>, i: nat) returns (position: Option<nat>)
    requires DistinctEntries(plan) && i < |plan|
    ensures position.None? ==>
              Classify(plan[i]).InPlace? &&
              forall k :: 0 <= k < |Operations(plan)| ==> Operations(plan)[k].sub != plan[i].sub
    ensures position.Some? ==>
              && position.value < |Operations(plan)|
              && Classify(plan[i]).Needs? && Classify(plan[i]).operation == Operations(plan)[position.value]
              && Operations(plan)[position.value].sub == plan[i].sub
  {
    var ops := Operations(plan);
    if Classify(plan[i]).Needs? {
      OperationComplete(plan, i);
      var k :| 0 <= k < |ops| && ops[k] == Classify(plan[i]).operation;
      return Some(k);
    }
    forall k | 0 <= k < |ops|
      ensures ops[k].sub != plan[i].sub
    {
      OperationSound(plan, k);
      var j :| BuiltFrom(plan, ops[k], KindAt(plan, k), j);
    }
    return None;
  }

  lemma PrefixIsBeforeOrAtGoal(plan: seq<PlanEntry>, subs: Subs, n: nat, i: nat)
    requires DistinctEntries(plan) && Snapshotted(plan, subs) && i < |plan| && n <= |Operations(plan)|
    ensures Targets(subs, Operations(plan))
    ensures var after := AppliedAll(subs, Operations(plan)[..n])[plan[i].sub];
            || after == Goal(plan[i], subs[plan[i].sub])
            || (n < |Operations(plan)| && after == subs[plan[i].sub])
  {
    OperationsDistinct(plan);
    OperationsTarget(plan, subs);
    AppliedAt(subs, Operations(plan), n, plan[i].sub);
    var position := EntryOperation(plan, i);
    if position.Some? && position.value >= n {
      assert forall k :: 0 <= k < n ==> Operations(plan)[k].sub != plan[i].sub;
    }
  }

  lemma FullRunReachesGoal(plan: seq<PlanEntry>, subs: Subs, i: nat)
    requires DistinctEntries(plan) && Snapshotted(plan, subs) && i < |plan|
    ensures Targets(subs, Operations(plan))
    ensures AppliedAll(subs, Operations(plan))[plan[i].sub] == Goal(plan[i], subs[plan[i].sub])
  {
    PrefixIsBeforeOrAtGoal(plan, subs, |Operations(plan)|, i);
    assert Operations(plan)[..|Operations(plan)|] == Operations(plan);
  }

  lemma ResolvedPlan(payload: seq<PayloadEntry>, subs: Subs)
    requires DistinctPayload(payload) && Known(payload, subs)
    ensures DistinctEntries(Resolve(payload, subs)) && Snapshotted(Resolve(payload, subs), subs)
  {
  }

  /** A rerun on the target has nothing left to do for an entry exactly when its codes can be
      written: an empty list is sent as "unchanged", so it cannot clear codes that are there. */
  lemma RerunOnTargetIsIdleIff(entry: PayloadEntry, sub: Subscription)
    ensures Classify(ResolveEntry(entry, Goal(ResolveEntry(entry, sub), sub))).InPlace?
            <==> !entry.renew || (entry.codes.Some? && entry.codes.value != []) || sub.auto.codes == []
  {
  }
}
