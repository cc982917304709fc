/** What a failed renewal leaves of the running aggregate, exactly: after a clean failure, and after one
    PATCH or POST that took effect and was reported as failed (a lost write). */
module RenewalFloor {
  import opened RenewalPlan
  import opened Subscriptions

  /******* Sums over parts *******/

  lemma {:induction false} SumParts(subs: Subs, a: set<SubId>, b: set<SubId>, counted: Offer -> bool)
    requires a !! b && a + b <= subs.Keys
    ensures SumOver(subs, a + b, counted) == SumOver(subs, a, counted) + SumOver(subs, b, counted)
    decreases b
  {
    if b == {} {
      assert a + b == a;
    } else {
      var id :| id in b;
      SumSplit(subs, a + b, id, counted);
      SumSplit(subs, b, id, counted);
      assert (a + b) - {id} == a + (b - {id});
      SumParts(subs, a, b - {id}, counted);
    }
  }

  lemma {:induction false} SumOfDisabled(subs: Subs, ids: set<SubId>, counted: Offer -> bool)
    requires ids <= subs.Keys && forall id :: id in ids ==> !subs[id].auto.enabled
    ensures SumOver(subs, ids, counted) == 0
    decreases ids
  {
    if ids != {} {
      var id :| id in ids;
      SumSplit(subs, ids, id, counted);
      SumOfDisabled(subs, ids - {id}, counted);
    }
  }

  /******* A failure that leaves nothing behind but what it disabled *******/

  /** `end` is `base` with the subscriptions `off`, and any that are new, disabled. */
  ghost predicate EndsWith(base: Subs, end: Subs, off: set<SubId>) {
    && off <= base.Keys <= end.Keys
    && (forall id :: id in base && id !in off ==> end[id] == base[id])
    && (forall id :: id in end && (id !in base || id in off) ==> !end[id].auto.enabled)
  }

  /** What `off` was renewing is gone, and nothing else. */
  lemma EndAggregate(base: Subs, end: Subs, off: set<SubId>, counted: Offer -> bool)
    requires EndsWith(base, end, off)
    ensures Aggregate(end, counted) == Aggregate(base, counted) - SumOver(base, off, counted)
  {
    hide SumOver;
    var kept := base.Keys - off;
    assert kept + off == base.Keys && kept + (end.Keys - kept) == end.Keys;
    SumParts(base, kept, off, counted);
    SumParts(end, kept, end.Keys - kept, counted);
    SumFrame(base, end, kept, counted);
    SumOfDisabled(end, end.Keys - kept, counted);
  }

  /** The floor: not below the smaller of the start's and the target's aggregate. */
  predicate AtFloor(end: int, initial: int, target: int) {
    end >= initial || end >= target
  }

  /** `subs` with what a call wrote that was reported as failed. */
  function WithLost(subs: Subs, lost: Option<Listed>): Subs {
    if lost.Some? then subs[lost.value.id := lost.value.sub] else subs
  }

  function AddedBy(subs: Subs, lost: Option<Listed>, counted: Offer -> bool): int {
    if lost.None? then 0 else
    Contribution(lost.value.sub, counted)
    - if lost.value.id in subs then Contribution(subs[lost.value.id], counted) else 0
  }

  /** After a failure the aggregate is that of the start, plus what a lost write added, minus what the
      disabled subscriptions `off` were renewing. So the floor holds if and only if no more is gone than was
      added, or not more than what the start exceeds the target by. */
  lemma FailureAtFloorIff(
    initial: Subs, end: Subs, off: set<SubId>, lost: Option<Listed>, target: int, counted: Offer -> bool)
    requires off <= initial.Keys && (lost.Some? ==> lost.value.id !in off)
    requires EndsWith(WithLost(initial, lost), end, off)
    ensures var gone, added := SumOver(initial, off, counted), AddedBy(initial, lost, counted);
            && Aggregate(end, counted) == Aggregate(initial, counted) + added - gone
            && (AtFloor(Aggregate(end, counted), Aggregate(initial, counted), target) <==>
                gone <= added || gone - added <= Aggregate(initial, counted) - target)
  {
    hide SumOver;
    EndAggregate(WithLost(initial, lost), end, off, counted);
    if lost.Some? {
      AggregateAfterWrite(initial, lost.value.id, lost.value.sub, counted);
    }
    SumFrame(initial, WithLost(initial, lost), off, counted);
  }

  /******* A PATCH of the plan whose answer is lost *******/

  /** Operation `n` took effect and was reported as failed; of the `n` before it, all but the first `j`
      have been walked back. */
  ghost function TornState(subs: Subs, ops: seq<Operation>, n: nat, j: nat, oks: seq<bool>): (after: Subs)
    requires Targets(subs, ops) && j <= n < |ops| && |oks| == n - j
    ensures after.Keys == subs.Keys
  {
    RestoredAll(AppliedAll(subs, ops[..n+1]), ops[j..n], oks)
  }

  lemma TornAt(subs: Subs, ops: seq<Operation>, n: nat, j: nat, oks: seq<bool>, id: SubId)
    requires Targets(subs, ops) && DistinctOperations(ops)
    requires j <= n < |ops| && |oks| == n - j && AllTrue(oks) && id in subs
    ensures forall k :: 0 <= k <= n && (k < j || k == n) && ops[k].sub == id ==>
                          TornState(subs, ops, n, j, oks)[id] == Applied(subs, ops[k])[id]
    ensures forall k :: j <= k < n && ops[k].sub == id ==>
                          TornState(subs, ops, n, j, oks)[id] == Restored(Applied(subs, ops[k]), ops[k])[id]
    ensures (forall k :: 0 <= k <= n ==> ops[k].sub != id) ==> TornState(subs, ops, n, j, oks)[id] == subs[id]
  {
    hide AppliedAll, RestoredAll, Patched;
    var mid := AppliedAll(subs, ops[..n+1]);
    AppliedAt(subs, ops, n + 1, id);
    RestoredAt(mid, ops[j..n], oks, id);
    forall k | j <= k < n && ops[k].sub == id
      ensures TornState(subs, ops, n, j, oks)[id] == Restored(Applied(subs, ops[k]), ops[k])[id]
    {
      assert ops[j..n][k-j] == ops[k];
    }
    if forall k :: j <= k < n ==> ops[k].sub != id {
      assert forall k :: 0 <= k < n - j ==> ops[j..n][k] == ops[k+j];
    }
  }

  function RenewsBefore(subs: Subs, op: Operation): nat
    requires op.sub in subs
  {
    Renewing(subs[op.sub])
  }

  function RenewsApplied(subs: Subs, op: Operation): nat
    requires op.sub in subs
  {
    Renewing(Applied(subs, op)[op.sub])
  }

  function RenewsRestored(subs: Subs, op: Operation): nat
    requires op.sub in subs
  {
    Renewing(Restored(Applied(subs, op), op)[op.sub])
  }

  lemma RestoredRenewsEnough(plan: seq<PlanEntry>, subs: Subs, k: nat)
    requires Snapshotted(plan, subs) && k < |Operations(plan)|
    ensures Operations(plan)[k].sub in subs
    ensures RenewsRestored(subs, Operations(plan)[k]) >= RenewsBefore(subs, Operations(plan)[k])
  {
    OperationDirection(plan, subs, k);
  }

  lemma StateKeepsOffers(subs: Subs, ops: seq<Operation>, n: nat, j: nat, oks: seq<bool>, id: SubId)
    requires Targets(subs, ops) && DistinctOperations(ops)
    requires j <= n < |ops| && |oks| == n - j && AllTrue(oks) && id in subs
    ensures TornState(subs, ops, n, j, oks)[id].offer == subs[id].offer
  {
    hide TornState;
    TornAt(subs, ops, n, j, oks, id);
    if k :| 0 <= k <= n && ops[k].sub == id {
      assert k < j || k == n || j <= k < n;
    }
  }

  /** Against the start: at every position `j` of the walk back, the state dominates the start if and only
      if neither the torn operation nor one still applied lowers what its subscription renews. */
  lemma TornDominatesStartIff(plan: seq<PlanEntry>, subs: Subs, n: nat, j: nat, oks: seq<bool>)
    requires DistinctEntries(plan) && Snapshotted(plan, subs)
    requires j <= n < |Operations(plan)| && |oks| == n - j && AllTrue(oks)
    ensures Targets(subs, Operations(plan))
    ensures Dominates(TornState(subs, Operations(plan), n, j, oks), subs) <==>
            forall k :: 0 <= k <= n && (k < j || k == n) ==>
                          RenewsApplied(subs, Operations(plan)[k]) >= RenewsBefore(subs, Operations(plan)[k])
  {
    hide TornState, Operations, Applied, Restored;
    var ops := Operations(plan);
    OperationsDistinct(plan);
    OperationsTarget(plan, subs);
    var state := TornState(subs, ops, n, j, oks);
    forall k | 0 <= k <= n
      ensures k < j || k == n ==> Renewing(state[ops[k].sub]) == RenewsApplied(subs, ops[k])
      ensures j <= k < n ==> Renewing(state[ops[k].sub]) >= RenewsBefore(subs, ops[k])
    {
      TornAt(subs, ops, n, j, oks, ops[k].sub);
      RestoredRenewsEnough(plan, subs, k);
    }
    forall id | id in subs
      ensures state[id].offer == subs[id].offer
      ensures (forall k :: 0 <= k <= n ==> ops[k].sub != id) ==> state[id] == subs[id]
    {
      StateKeepsOffers(subs, ops, n, j, oks, id);
      TornAt(subs, ops, n, j, oks, id);
    }
  }

  /** Against the target: if and only if nothing that is missing from it, walked back or never applied, would
      raise what its subscription renews. */
  lemma TornDominatesTargetIff(plan: seq<PlanEntry>, subs: Subs, n: nat, j: nat, oks: seq<bool>)
    requires DistinctEntries(plan) && Snapshotted(plan, subs)
    requires j <= n < |Operations(plan)| && |oks| == n - j && AllTrue(oks)
    ensures Targets(subs, Operations(plan))
    ensures Dominates(TornState(subs, Operations(plan), n, j, oks), AppliedAll(subs, Operations(plan))) <==>
            && (forall k :: j <= k < n ==>
                              RenewsRestored(subs, Operations(plan)[k]) >= RenewsApplied(subs, Operations(plan)[k]))
            && (forall k :: n < k < |Operations(plan)| ==>
                              RenewsBefore(subs, Operations(plan)[k]) >= RenewsApplied(subs, Operations(plan)[k]))
  {
    hide TornState, Operations, Applied, Restored, AppliedAll;
    var ops := Operations(plan);
    OperationsDistinct(plan);
    OperationsTarget(plan, subs);
    var state, target := TornState(subs, ops, n, j, oks), AppliedAll(subs, ops);
    assert ops[..|ops|] == ops;
    forall k | 0 <= k < |ops|
      ensures target[ops[k].sub] == Applied(subs, ops[k])[ops[k].sub]
      ensures k < j || k == n ==> Renewing(state[ops[k].sub]) == RenewsApplied(subs, ops[k])
      ensures j <= k < n ==> Renewing(state[ops[k].sub]) == RenewsRestored(subs, ops[k])
      ensures n < k ==> Renewing(state[ops[k].sub]) == RenewsBefore(subs, ops[k])
    {
      AppliedAt(subs, ops, |ops|, ops[k].sub);
      TornAt(subs, ops, n, j, oks, ops[k].sub);
      if n < k {
        assert forall m :: 0 <= m <= n ==> ops[m].sub != ops[k].sub;
      }
    }
    forall id | id in subs
      ensures state[id].offer == target[id].offer
      ensures (forall k :: 0 <= k < |ops| ==> ops[k].sub != id) ==> state[id] == target[id]
    {
      StateKeepsOffers(subs, ops, n, j, oks, id);
      TornAt(subs, ops, n, j, oks, id);
      AppliedAt(subs, ops, |ops|, id);
      if k :| 0 <= k < |ops| && ops[k].sub == id {
        AppliedKeepsOffer(subs, ops[k]);
      }
    }
  }

  lemma AppliedKeepsOffer(subs: Subs, op: Operation)
    requires op.sub in subs
    ensures Applied(subs, op)[op.sub].offer == subs[op.sub].offer
  {
  }

  /** A torn additive operation never costs the floor: every state of the walk back dominates the start. */
  lemma TornAdditiveKeepsStart(plan: seq<PlanEntry>, subs: Subs, n: nat, j: nat, oks: seq<bool>)
    requires DistinctEntries(plan) && Snapshotted(plan, subs) && n < |Additive(plan)|
    requires j <= n < |Operations(plan)| && |oks| == n - j && AllTrue(oks)
    ensures Targets(subs, Operations(plan))
    ensures Dominates(TornState(subs, Operations(plan), n, j, oks), subs)
  {
    hide TornState, Operations, Additive;
    TornDominatesStartIff(plan, subs, n, j, oks);
    forall k | 0 <= k <= n
      ensures RenewsApplied(subs, Operations(plan)[k]) >= RenewsBefore(subs, Operations(plan)[k])
    {
      OperationDirection(plan, subs, k);
    }
  }

  /** Once the others have been walked back, all that is left of the plan is the torn operation. */
  lemma TornEnd(plan: seq<PlanEntry>, subs: Subs, n: nat, oks: seq<bool>)
    requires DistinctEntries(plan) && Snapshotted(plan, subs)
    requires n < |Operations(plan)| && |oks| == n && AllTrue(oks)
    requires forall i :: 0 <= i < |plan| && plan[i].renew ==> plan[i].snapshot.quantity.Some?
    ensures Targets(subs, Operations(plan))
    ensures TornState(subs, Operations(plan), n, 0, oks) == Applied(subs, Operations(plan)[n])
  {
    hide TornState, Operations, Applied, Restored, KindAt;
    var ops := Operations(plan);
    OperationsDistinct(plan);
    OperationsTarget(plan, subs);
    forall id | id in subs
      ensures TornState(subs, ops, n, 0, oks)[id] == Applied(subs, ops[n])[id]
    {
      TornAt(subs, ops, n, 0, oks, id);
      AppliedElsewhere(subs, ops[n], id);
      if k :| 0 <= k < n && ops[k].sub == id {
        RestoreIsExactIff(plan, subs, k);
        OperationSound(plan, k);
        var i :| BuiltFrom(plan, ops[k], KindAt(plan, k), i);
      }
    }
  }

  lemma AppliedElsewhere(subs: Subs, op: Operation, id: SubId)
    requires op.sub in subs && id in subs
    ensures id != op.sub ==> Applied(subs, op)[id] == subs[id]
  {
  }
}
