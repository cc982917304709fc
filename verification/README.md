# Adobe VIP Marketplace fulfillment: a verified model

The extension fulfils SoftwareOne Marketplace (MPT) orders for Adobe products. Every flow is a list of
steps that is run from the start on each attempt; whatever an attempt did at Adobe, Airtable or NAV stays
there, and the next attempt works on what it finds. This project models those flows and proves what they
keep over any number of attempts, whatever the remote side answers.

| file | what it models |
|---|---|
| `Subscriptions.dfy` | subscriptions, the aggregate that renews (the 3YC commitment is about it), and the service that patches them |
| `RenewalPlan.dfy`, `RenewalFulfillment.dfy` | at-anniversary renewals: plan resolution, additive-before-subtractive operations, rollback, net-new subscriptions |
| `RenewalFloor.dfy` | what a failed renewal leaves of the running aggregate, after a clean failure and after a lost answer |
| `RenewalRetries.dfy` | the at-anniversary flow over any number of attempts, each cut short anywhere |
| `ManualRenewalSplit.dfy` | splitting lines into a manual renewal and an excess, diverting offers Adobe will not renew, replaying the split on a retry |
| `AdobeOrders.dfy`, `ReturnSelection.dfy` | orders at Adobe; the subset-sum selection of the orders a downsize returns |
| `ReturnCandidates.dfy` | which orders can be returned, the steps Adobe can take meanwhile, and when the choice stays the same |
| `ReturnOrders.dfy` | downsizes by returning orders over any number of retries: each return placed once, quantities, completion |
| `ChangeOrder.dfy` | the order of a change: RENEWAL and NEW orders first, returns last, and the NEW order returned when a quantity update is rolled back |
| `RenewNow.dfy` | renew-now: one RENEWAL order, then returns, normalisation and disabling |
| `Commitment.dfy` | the 3YC projection and what accepting it guarantees |
| `SubscriptionUpdates.dfy` | the two steps that write several subscriptions and undo what they wrote |
| `PreviewOrder.dfy` | upsize arithmetic and the discount-code retry loop |
| `PriceCache.dfy` | 3YC prices and their process-wide cache |
| `Transfers.dfy` | bulk migration: statuses, counters, polls |
| `OrderIds.dfy` | the comma-separated list of created order ids |
| `Sequences.dfy` | filtering, mapping and summing over sequences |

Objects the code updates in place are classes; their methods follow the code step by step and are proved
against functions and predicates, about which the lemmas state the promises. What the code cannot control
(Adobe's answers, status changes between two calls, a worker that dies, an error no step handles) is an
arbitrary choice in the methods, so every theorem about a method covers all of them. A `Tick` method is the
passing of time. What Adobe was like at every call, and what it showed when it was read, is logged (`history`,
`looks`), and the claims about many attempts are about those moments. For returns the environment is called steady
as long as Adobe takes only orderly steps that do not disturb the choice (`Disturbs`) and the cancellation window
stays.

## What was found not to hold, and when it does

- A PATCH is followed by a read of the subscription and a POST can answer with an error after it took effect, so
  a call that took effect can be reported as failed (`torn`). When that happens to operation `n` of a renewal plan,
  the states of the walk back dominate the start if and only if neither that operation nor one still applied lowers
  its subscription (`TornDominatesStartIff`), which additive operations never do (`TornAdditiveKeepsStart`), and the
  target under the condition of `TornDominatesTargetIff`. The run ends with that one write left behind
  (`ApplyPlan`), and the aggregate is then not below the smaller of start and target if and only if what the
  rollback switched off is no more than the write added, or than what the start exceeds the target by
  (`FailureAtFloorIff`). `TornPatchDips` is a plan that ends at 12 between 20 and 22. The same holds for a torn
  POST or PATCH of a net-new item: it stays enabled, because it is not on record as created.
- A transport error, or an error response that is not JSON, is handled by no step of the at-anniversary flow: the
  run ends where it is, nothing is undone, and the order is dispatched again. Over any number of such attempts the
  floor still holds (`RenewalRetries.Attempts`): every state dominates the very start or the target of an attempt
  that came to the plan, and nothing is created for a product that has a scheduled subscription. What does not hold
  is that a failed order leaves nothing behind: a later attempt reuses what an earlier one created and does not
  record it. Nothing is left if and only if the last attempt found nothing left by earlier ones but what it touched
  itself (`NothingLeftIff`, `CutThenFailedLeaves`).
- A scheduled subscription that was renewing with another quantity is patched to the plan and switched off
  on a rollback. No clean failure, at whichever call, goes below the smaller of start and target if and only
  if the subscriptions patched that way before the last call of the run renewed nothing, or no more than what the
  start exceeds the target by (`CleanFailuresAtFloorIff`); `CleanFailureDips` ends at 10 between 20 and
  25. A successful run dips as well when such a subscription renewed more than its item asks: every state of
  the net-new step dominates the start if and only if none did (`ServingNeverDipsIff`), and `SuccessfulRunDips`
  goes from 20 through 14 back to 20.
- An order that is already being returned is kept as a candidate, so the returns of a retry are those of the
  first attempt, whatever Adobe does, unless another order of the subscription inside the window becomes or
  stops being returnable: two moments lead to the same choice for every downsize exactly when none does and the
  same renewal is in force (`ChoiceStableIff`). Otherwise, or when the cancellation window has moved, the choice can
  move to an order that has no return yet (`CompletionMovesTheChoice`). The order then completes with its first
  return open and twice the downsize returned (`CompletesWithOpenReturn`). In any environment, what completing
  says is exact (`ReturnFlow.Retries`): no own return is open if and only if the open ones are of orders the
  completing attempt chose from what it listed (`NoneOpenIff`), and exactly the downsize is returned if and only if
  no other order is being returned for the SKU (`ReturnedExactlyIff`).
- Close to the coterm date no choice of returns is made and none is waited for, so a retry there completes an
  order whose own return is still open (`PassesWithOpenReturn`): the same condition, with nothing chosen. While the
  returns stay within the choice it is the guard itself: completion means that no own return is open if and only if
  the completing attempt is not near the coterm date (`PassingMeansNoneOpenIff`).
- An update of renewal quantities that breaks with any error but two returns the NEW order and leaves the MPT order
  to be retried. The retry reads the NEW order, still complete, and can complete while it is being returned
  (`UndoneThenCompleted`). The NEW order has one return for each attempt that was rolled back that far
  (`ChangeOrder.Retries`), and a completing attempt is sure that it is kept if and only if none is live when it
  lists the returns (`NewKeptIff`).
- An attempt whose preview has nothing to order goes on without a NEW order and can place returns; a later
  attempt can still place one (`SkippedThenOrdered`). Per attempt, returns come after a complete NEW order or an
  attempt that skipped it; an order that completes with a saved NEW order has it complete (`Retries`).
- A snapshot without a quantity cannot be restored once a quantity was written (`RestoreIsExactIff`), and an
  empty code list cannot clear codes that are there (`RerunOnTargetIsIdleIff`).
- A renew-now entry without a quantity turns into "already renewed" once this order's own renewal shows at
  Adobe, and a retry then goes on without waiting for the RENEWAL order (`WorkIsPermanentIff`).
- The id of a NEW order is saved after the order is placed; an attempt that dies in between leads to a second
  NEW order. At most one exists if and only if that never happened, or happened once and none was saved since
  (`ChangeOrder.Retries`).
- A renew-now attempt waits only for returns of lapsing subscriptions that Adobe still reports as renewed. With
  distinct SKUs, completion means that no own return is open if and only if the open ones are of such subscriptions
  (`NoReturnOpenIff`); once Adobe stops reporting a renewal, the order completes with its return open
  (`UnreportedThenCompleted`).
- The rollback of a change order restores every quantity but enables auto-renewal on what it touches; the one
  of a configuration order restores every flag but writes the quantity of the MPT line. Both say exactly, in
  terms of the order's lines and the state at the start, when everything is back (`QuantityStep.Run`,
  `FlagStep.Run`). A read that fails, or an error neither step handles, rolls nothing back: everything is as it was
  if and only if no line before it was written or flipped (`UnwrittenIff`, `UnflippedIff`, with `WrittenAndLeft` and
  `FlippedAndLeft`); a line out of step is left unwritten only when its call was refused (`RefusedFor`).
- The 3YC projection is off by the drift between the lines' old quantities and what their subscriptions renew
  (`ProjectionIsRecount`).
- The preview loop gives up after five attempts, which five distinct codes can cause and four cannot
  (`ExhaustionIff`). A returned preview is free of failed codes if and only if the reply the loop stopped at is
  a response; an error about a line whose codes are all gone returns an earlier response, failed codes and all,
  or none (`ReturnedIsCleanIff`, `StaleResponse`). That can happen to a payload if and only if some line an
  error can name was built with codes (`UncleanIff`).
- A cached price row without a price does not spare the lookup and is cached again (`SparesLookupIff`); the
  cache is not keyed by the pricing base, and answers rightly for another one if and only if its priced rows are
  what the other table answers on their windows (`OtherBaseIff`, `OneBaseOnly`).
- A transfer whose subscriptions cannot be listed ends the poll for the whole batch and is not counted as a
  retry, and one that was already transferred is polled forever; the bound is on the polls that change a
  record. The NAV contract is terminated again if the run dies before the completion is saved (`Live`).
- The description of the at-anniversary flow mentions a preview; `PreviewRenewal` is not one of its steps
  (adobe_vipm/flows/fulfillment/renewal.py:656-673) and is not modelled there.

## Model

| member | source | states |
|---|---|---|
| `Subscriptions.AggregateAfterWrite` | adobe_vipm/flows/helpers.py:421-446 | one write moves the renewing aggregate of any set of offers by exactly what that subscription's share moves |
| `Subscriptions.DominanceBoundsAggregate` | adobe_vipm/flows/helpers.py:404-446 | if every subscription renews at least as much in one state as in another, so does the aggregate of every offer type |
| `Subscriptions.SubscriptionService.GetSubscriptions` | adobe_vipm/adobe/mixins/subscription.py:41-60 | lists each subscription once, as it is |
| `Subscriptions.SubscriptionService.UpdateSubscription` | adobe_vipm/adobe/mixins/subscription.py:127-181 | a PATCH changes one subscription or nothing; the flag is always sent, None leaves a field alone; an error after the change went through counts as torn; without an answer the run is cut short, with the change or without it |
| `Subscriptions.SubscriptionService.CreateSubscription` | adobe_vipm/adobe/mixins/subscription.py:184-235 | a new enabled scheduled subscription with current quantity 0, or nothing; an error after it was created counts as torn; without an answer the run is cut short, with the subscription or without it |
| `RenewalPlan.FindListed` | adobe_vipm/flows/fulfillment/shared.py:1747-1789 | finds the subscription of a plan entry exactly when Adobe has it |
| `RenewalPlan.Resolve` | adobe_vipm/flows/fulfillment/shared.py:1791-1805 | each entry carries its own subscription's pre-mutation snapshot, in payload order |
| `RenewalPlan.BuildOperations` | adobe_vipm/flows/fulfillment/renewal.py:313-364 | one pass over the plan yields enables, increases, decreases and disables, in that order; every entry that is due has the operation that sends what it asks, and there is no other |
| `RenewalPlan.OperationSound` | adobe_vipm/flows/fulfillment/renewal.py:313-364 | every operation was built from an entry of its own kind |
| `RenewalPlan.OperationComplete` | adobe_vipm/flows/fulfillment/renewal.py:324-356 | every entry that is not in place has its operation |
| `RenewalPlan.OperationsMean` | adobe_vipm/flows/fulfillment/renewal.py:324-356 | an operation is sent exactly for the entries that are due: renewing ones that are off, or with another quantity or other codes, and lapsing ones that are on |
| `RenewalPlan.OperationsStable` | adobe_vipm/flows/fulfillment/renewal.py:310-322 | the list is a stable partition: kinds in rank order, plan order within a kind |
| `RenewalPlan.OperationsDistinct` | adobe_vipm/flows/fulfillment/renewal.py:313-322 | no subscription is patched twice in a run |
| `RenewalPlan.OperationDirection` | adobe_vipm/flows/fulfillment/renewal.py:324-356 | additive operations never lower, subtractive ones never raise, what a subscription renews |
| `RenewalPlan.AppliedAt` | adobe_vipm/flows/fulfillment/renewal.py:366-381 | after any prefix, a subscription is as its own operation left it, or untouched |
| `RenewalPlan.RestoredAt` | adobe_vipm/flows/fulfillment/renewal.py:383-411 | the reverse replay restores a subscription's snapshot when its call is accepted and touches nothing else |
| `RenewalPlan.UnwoundAt` | adobe_vipm/flows/fulfillment/renewal.py:366-411 | at any failure point and any position of the reverse replay, each subscription is untouched, patched, or restored, as its position says |
| `RenewalPlan.EveryIntermediateStateDominatesAnEnd` | adobe_vipm/flows/fulfillment/renewal.py:263-322 | at every failure point and every position of the replay, every subscription renews at least as much as at the start, or every one at least as much as in the target |
| `RenewalPlan.EitherEndKeepsTheMinimum` | adobe_vipm/flows/fulfillment/renewal.py:263-276 | a 3YC minimum that the start and the target satisfy is satisfied in every such state |
| `RenewalPlan.RestoreIsExactIff` | adobe_vipm/flows/fulfillment/renewal.py:383-400 | a restore brings the preference back exactly iff the snapshot had a quantity or the operation wrote none |
| `RenewalPlan.FullRollbackRestores` | adobe_vipm/flows/fulfillment/renewal.py:383-417 | a full rollback from any failure point puts the whole state back |
| `RenewalPlan.EntryOperation` | adobe_vipm/flows/fulfillment/renewal.py:313-356 | where in the list an entry's operation is, and that no operation touches an entry in place |
| `RenewalPlan.PrefixIsBeforeOrAtGoal` | adobe_vipm/flows/fulfillment/renewal.py:277-308 | after any prefix an entry's subscription is as before or at its goal |
| `RenewalPlan.FullRunReachesGoal` | adobe_vipm/flows/fulfillment/renewal.py:277-308 | a full run brings every entry's subscription to its goal |
| `RenewalPlan.RerunOnTargetIsIdleIff` | adobe_vipm/flows/fulfillment/renewal.py:358-381 | a rerun on the target builds no operation for an entry iff it lapses, has plan codes, or has no codes to clear |
| `RenewalFulfillment.FindScheduledIsListed` | adobe_vipm/flows/fulfillment/renewal.py:251-260 | what is found for a product is listed, scheduled and holds it; nothing is found only when no listed scheduled subscription holds it |
| `RenewalFulfillment.DisableNetNewSubscriptions` | adobe_vipm/flows/fulfillment/renewal.py:420-445 | best effort over what this run created: nothing else moves, and if no call is refused all of them end up disabled |
| `RenewalFulfillment.RenewalOrder.SetupRenewalPlan` | adobe_vipm/flows/fulfillment/shared.py:1735-1805 | the whole plan is resolved, each entry as the payload gives it with the preference and renewed quantity Adobe shows, or the order fails on the first entry Adobe does not know |
| `RenewalFulfillment.RenewalOrder.ResolveNetNewSubscription` | adobe_vipm/flows/fulfillment/renewal.py:146-249 | no call is made iff the scheduled subscription of the product is listed as enabled with exactly the quantity; any other success leaves one that is enabled and renews exactly the quantity; what was created or patched is on record iff the call succeeded |
| `RenewalFulfillment.RenewalOrder.ServeNetNewItems` | adobe_vipm/flows/fulfillment/renewal.py:137-195 | items are served in order up to the first call that does not succeed, each state exactly as many items on; what moved before is on record; that call moved nothing or is the lost one |
| `RenewalFulfillment.RenewalOrder.CreateNetNewSubscriptions` | adobe_vipm/flows/fulfillment/renewal.py:125-260 | every item has a subscription that is enabled and renews exactly its quantity; or the order fails and leaves the start, a lost write if there was one, and disabled subscriptions; or the run is cut short with part of the items served and part of the record disabled |
| `RenewalFulfillment.NeutralisedEnds` | adobe_vipm/flows/fulfillment/renewal.py:420-445 | neutralising what is on record leaves the start, whatever was lost, and disabled subscriptions |
| `RenewalFulfillment.LostIsNotRecorded` | adobe_vipm/flows/fulfillment/renewal.py:161-195 | with distinct products, a lost write of an item is not on record and so not neutralised |
| `RenewalFulfillment.ReusedIsUntouched` | adobe_vipm/flows/fulfillment/renewal.py:197-215 | with distinct products, a subscription reused in place is left exactly as it was listed |
| `RenewalFulfillment.RenewalOrder.WalkBack` | adobe_vipm/flows/fulfillment/renewal.py:383-411 | restores the snapshots from last to first, skipping refused restores; names exactly what was not restored; cut short, it is at one of its positions |
| `RenewalFulfillment.RenewalOrder.ReverseAppliedOperations` | adobe_vipm/flows/fulfillment/renewal.py:383-417 | the replay followed by neutralising the net-new subscriptions, with every state in between |
| `RenewalFulfillment.RenewalOrder.ApplyOperations` | adobe_vipm/flows/fulfillment/renewal.py:277-308 | applies a prefix of the operations, all of them iff none is refused, and one more exactly when the refused one took effect |
| `RenewalFulfillment.RenewalOrder.UpdateRenewalSubscriptions` | adobe_vipm/flows/fulfillment/renewal.py:277-417 | reaches the target, fails on the first refused operation after walking back, or is cut short; every state is one of the modelled kinds, also when the refused operation took effect |
| `RenewalFulfillment.VisitedDominatesAnEnd` | adobe_vipm/flows/fulfillment/renewal.py:263-276 | each of those states dominates the start or the target, also when the operation whose answer was lost is additive |
| `RenewalFulfillment.FailedUpdateEnds` | adobe_vipm/flows/fulfillment/renewal.py:383-445 | a failed update leaves the start, the one operation whose answer was lost if there was one, and what the net-new items touched or created disabled |
| `RenewalFulfillment.RenewalOrder.ApplyPlan` | adobe_vipm/flows/fulfillment/renewal.py:637-675 | whole run, cut short anywhere: every intermediate state dominates the start or the target; the target is the start with all items served and then the whole plan applied, and nothing else; in it every item has an enabled subscription that renews its quantity; a failure at any item or operation leaves the start, what the failing call wrote if its answer was lost, and disabled net-new subscriptions; what any other end leaves has one of the modelled forms |
| `RenewalFulfillment.TargetAt` | adobe_vipm/flows/fulfillment/renewal.py:277-364 | in the target a subscription of the start is at the goal of its entry, has what its item asks, or is as it was |
| `RenewalFulfillment.TargetAggregate` | adobe_vipm/flows/fulfillment/renewal.py:125-260 | the target's aggregate is that of those subscriptions and of exactly one new one for each item no scheduled subscription can serve |
| `RenewalFulfillment.AtOrAboveMeans` | adobe_vipm/flows/fulfillment/renewal.py:263-276 | every state of a run has an aggregate of at least the smaller of the start's and that, and no subscription outside plan and items ever renews less than at the start |
| `RenewalFulfillment.CleanFailuresAtFloorIff` | adobe_vipm/flows/fulfillment/renewal.py:197-249 | no clean failure, at any call the run can make, ends below the smaller of start and target iff the scheduled subscriptions touched before its last call renewed nothing or no more than the start exceeds the target by |
| `RenewalFulfillment.CleanFailureDips` | adobe_vipm/flows/fulfillment/renewal.py:197-249 | a concrete clean failure that ends at 10, below the start (20) and the target (25) |
| `RenewalFulfillment.LastCallIsLast` | adobe_vipm/flows/fulfillment/renewal.py:137-311 | the last position of a run where a call can be refused: an item that is not reused as it is, or the plan once it has operations |
| `RenewalFulfillment.ServedNext` | adobe_vipm/flows/fulfillment/renewal.py:146-249 | serving one more item moves exactly its own subscription, from the start on; one new subscription for each item that needs one |
| `RenewalFulfillment.ServingNeverDipsIff` | adobe_vipm/flows/fulfillment/renewal.py:197-249 | every state of the net-new step dominates the start iff no touched subscription renewed more than its item asks |
| `RenewalFulfillment.SuccessfulRunDips` | adobe_vipm/flows/fulfillment/renewal.py:197-249 | a concrete successful run at 20, then 14, then 20 |
| `RenewalFulfillment.TornPatchDips` | adobe_vipm/adobe/mixins/subscription.py:169-181 | a concrete plan whose torn PATCH ends at 12, below the start (20) and the target (22) |
| `RenewalFloor.EndAggregate` | adobe_vipm/flows/fulfillment/renewal.py:420-445 | what such a failure leaves renews exactly what the start did, less what the switched-off subscriptions renewed |
| `RenewalFloor.FailureAtFloorIff` | adobe_vipm/flows/fulfillment/renewal.py:383-445 | after a failure with or without a lost write, the aggregate in terms of the start, and the floor holds iff what is gone is within what was added or what the start exceeds the target by |
| `RenewalFloor.TornAt` | adobe_vipm/flows/fulfillment/renewal.py:277-411 | with a lost operation, each subscription at each position of the walk back is untouched, patched or restored, as its position says |
| `RenewalFloor.TornDominatesStartIff` | adobe_vipm/flows/fulfillment/renewal.py:277-411 | at each of those positions the state dominates the start iff no operation in effect lowers its subscription |
| `RenewalFloor.TornDominatesTargetIff` | adobe_vipm/flows/fulfillment/renewal.py:277-411 | and the target iff nothing walked back or not reached would raise its subscription |
| `RenewalFloor.TornAdditiveKeepsStart` | adobe_vipm/flows/fulfillment/renewal.py:310-356 | a lost answer to an additive operation never costs the floor |
| `RenewalFloor.TornEnd` | adobe_vipm/flows/fulfillment/renewal.py:383-411 | once walked back, all that is left of the plan is the operation whose answer was lost |
| `RenewalRetries.WalkedEntry` | adobe_vipm/flows/fulfillment/renewal.py:277-411 | at any failure point and position of the walk back, with any restores refused and the failing operation in effect or not, an entry is as before, at its goal, or restored from there |
| `RenewalRetries.RerunConverges` | adobe_vipm/flows/fulfillment/renewal.py:310-411 | from the state an attempt left that was interrupted while patching or walking back, a rerun reaches the same preferences as an uninterrupted run |
| `RenewalRetries.ServedIsKin` | adobe_vipm/flows/fulfillment/renewal.py:146-249 | serving items leaves the entries alone and keeps what a later attempt relies on |
| `RenewalRetries.VisitedIsKin` | adobe_vipm/flows/fulfillment/renewal.py:277-445 | so does every state of the update step |
| `RenewalRetries.LeftIsKin` | adobe_vipm/flows/fulfillment/renewal.py:637-675 | so does an attempt wherever it ends: entries keep their goal, only subscriptions scheduled for an item move besides, nothing is created for a product that has a scheduled one, and a rerun is entitled to the same claims |
| `RenewalRetries.TargetIsKin` | adobe_vipm/flows/fulfillment/renewal.py:637-675 | and so does the target of an attempt |
| `RenewalRetries.CreatedOnceTwice` | adobe_vipm/flows/fulfillment/renewal.py:197-249 | over any number of attempts, a subscription that is new is the only scheduled one of its product |
| `RenewalRetries.ReadyIsSeparated` | adobe_vipm/flows/fulfillment/renewal.py:263-276 | those claims need nothing but distinct entries and products, no entry for a subscription scheduled for an item, and none of those renewing another quantity |
| `RenewalRetries.Attempt` | adobe_vipm/flows/fulfillment/renewal.py:637-675 | one attempt from a fresh look on: fails on an unknown entry and changes nothing, or keeps the floor against the target of a run from what it found, and all of the above |
| `RenewalRetries.Attempts` | adobe_vipm/flows/fulfillment/base.py:68-91 | any number of attempts, each starting where the one before was cut short, the first at the very start: every state of every attempt dominates the very start or the target of an attempt; every target has the entries at the goal of the start, serves every item, and leaves everything else as at the start; a failed order leaves what its last attempt found, less what that one recorded |
| `RenewalRetries.UpholdsNext` | adobe_vipm/flows/fulfillment/base.py:68-91 | one more attempt keeps all of that |
| `RenewalRetries.AttemptsKeepTheMinimum` | adobe_vipm/flows/fulfillment/renewal.py:263-276 | a 3YC minimum that the start and all targets satisfy is satisfied through all attempts |
| `RenewalRetries.NothingLeftIff` | adobe_vipm/flows/fulfillment/renewal.py:420-445 | a failed order leaves nothing behind iff its last attempt found nothing that earlier ones left but what it recorded itself |
| `RenewalRetries.FirstAttemptLeavesNothing` | adobe_vipm/flows/fulfillment/renewal.py:420-445 | an order failed by its first attempt leaves nothing behind |
| `RenewalRetries.CutThenFailedLeaves` | adobe_vipm/flows/fulfillment/renewal.py:197-215 | a concrete state a cut attempt leaves and a second one reuses as it is: brought back to what the second found, the created subscription stays enabled |
| `ManualRenewalSplit.ReplayEqualsCompute` | adobe_vipm/flows/fulfillment/shared.py:1538-1588 | replaying a persisted split gives exactly the lists, in order, that computing and diverting gave |
| `ManualRenewalSplit.SplitConserves` | adobe_vipm/flows/fulfillment/shared.py:1615-1658 | at every step, per SKU, renewed plus still ordered equals requested; no renewal exceeds the current quantity, and an excess is only bought once all of it is renewed; every SKU has one entry at most, renewed or diverted |
| `ManualRenewalSplit.SplitMeans` | adobe_vipm/flows/fulfillment/shared.py:1590-1732 | a line is split exactly when its SKU is indexed as asking for a manual renewal: renewed up to the current quantity, or diverted in full if refused; all other lines stay, and what is ordered besides is an excess or a diverted line |
| `ManualRenewalSplit.ProcessedStep` | adobe_vipm/flows/fulfillment/shared.py:1615-1658 | processing one more line is the split of one more line |
| `ManualRenewalSplit.DivertNext` | adobe_vipm/flows/fulfillment/shared.py:1717-1732 | diverting one more refused line is the split with that line refused |
| `ManualRenewalSplit.SplitContext.ProcessRenewalLine` | adobe_vipm/flows/fulfillment/shared.py:1615-1658 | the line leaves its list and is registered, renewed in full if the current quantity allows and else up to it, and its excess is re-added as a new line |
| `ManualRenewalSplit.SplitContext.ComputeFromAdobe` | adobe_vipm/flows/fulfillment/shared.py:1590-1658 | the loop over the lines yields the split with nothing refused |
| `ManualRenewalSplit.SplitContext.DivertRenewalToNew` | adobe_vipm/flows/fulfillment/shared.py:1717-1732 | the full quantity replaces the excess line and the entry moves to the diverted ones |
| `ManualRenewalSplit.SplitContext.DivertUnsupportedLines` | adobe_vipm/flows/fulfillment/shared.py:1697-1715 | the entries diverted are exactly those Adobe refuses alone as unsupported; any other error stops the loop with the split made so far |
| `ManualRenewalSplit.SplitContext.IsolateUnsupportedRenewals` | adobe_vipm/flows/fulfillment/shared.py:1660-1695 | goes through iff the batch is accepted, or it is unsupported and the probes and the survivors pass; then exactly the unsupported entries are diverted |
| `ManualRenewalSplit.SplitContext.RestoreFromStored` | adobe_vipm/flows/fulfillment/shared.py:1538-1588 | both stored forms are replayed |
| `ManualRenewalSplit.SplitContext.CheckManualRenewals` | adobe_vipm/flows/fulfillment/shared.py:1449-1536 | a first attempt renews every line to be renewed by hand up to its current quantity, diverts exactly what Adobe refuses alone after refusing the batch, and persists a non-empty split only when it goes through; any later attempt reproduces it, whatever Adobe says by then |
| `ManualRenewalSplit.EmptySplit` | adobe_vipm/flows/fulfillment/shared.py:1449-1536 | a split that renews and diverts nothing leaves the order's lines as they were |
| `AdobeOrders.ExistingRenewalIsThere` | adobe_vipm/flows/fulfillment/shared.py:606-616 | the query by external reference finds a RENEWAL order iff there is one |
| `AdobeOrders.LineOfIsFirst` | adobe_vipm/adobe/utils.py:28-44 | the line of a subscription is the first one that names it, and missing iff none does |
| `AdobeOrders.PurchasesMoveKeeps` | adobe_vipm/flows/fulfillment/shared.py:606-616 | an own order stays unique, complete and found while Adobe moves on |
| `ReturnSelection.SelectionIsExact` | adobe_vipm/flows/fulfillment/change.py:90-116 | a choice exists iff some non-empty sub-collection sums to the delta; it sums to it and is of minimum size |
| `ReturnSelection.SelectFromExact` | adobe_vipm/flows/fulfillment/change.py:106-113 | the same for sub-collections of at least a given size |
| `ReturnSelection.ChoiceIsLast` | adobe_vipm/flows/fulfillment/change.py:106-113 | of the smallest sub-collections that fit, the last one is chosen: any other takes, where they first differ, an order Adobe listed earlier |
| `ReturnSelection.SameChoicesIff` | adobe_vipm/flows/fulfillment/change.py:106-113 | two listings lead to the same choice for every downsize iff they are the same |
| `ReturnSelection.ReturnableByQuantity` | adobe_vipm/flows/validation/change.py:39-44 | the nested loops build exactly that choice for every total |
| `ReturnSelection.ValidateDownsizes` | adobe_vipm/flows/validation/change.py:46-118 | a line is an error iff it has candidates and none of their sub-collections fits; none near the coterm date |
| `ReturnSelection.GetReturnableOrders` | adobe_vipm/flows/fulfillment/change.py:77-118 | per SKU the choice, None when nothing fits, no entry when there is nothing to return |
| `ReturnSelection.DraftAndFulfillmentAgree` | adobe_vipm/flows/fulfillment/change.py:121-158 | draft validation and a first fulfillment attempt accept exactly the same orders; an attempt that finds returns of the order accepts anyway |
| `ReturnCandidates.CandidatesStable` | adobe_vipm/adobe/mixins/order.py:402-453 | the candidate list depends on the orders only through what is returnable |
| `ReturnCandidates.StepKeepsCandidates` | adobe_vipm/adobe/mixins/order.py:402-453 | whatever step Adobe takes (an order or its lines change status, a return settles, an order appears, another MPT order returns something), a line keeps its candidates unless an order of its subscription in the window, not being returned here, becomes or stops being processed |
| `ReturnCandidates.StepKeepsTracking` | adobe_vipm/adobe/mixins/order.py:402-453 | a listing of the returns taken earlier in the attempt goes on serving through such steps |
| `ReturnCandidates.TrackedCandidates` | adobe_vipm/flows/fulfillment/change.py:77-118 | the choice computed from it is the choice of now |
| `ReturnCandidates.CandidatesAre` | adobe_vipm/adobe/mixins/order.py:402-453 | the candidates are exactly the lines of orders in the window, being returned already or complete with the line complete, and not from before the renewal in force |
| `ReturnCandidates.CandidateIff` | adobe_vipm/adobe/mixins/order.py:402-453 | an order is a candidate iff it has a line of the subscription, is in the window, is being returned already or complete with that line complete, and is not from before the first such RENEWAL order |
| `ReturnCandidates.CandidatesSameIff` | adobe_vipm/adobe/mixins/order.py:402-453 | two candidate lists are the same iff the same renewal is in force and no order since then becomes or stops being returnable |
| `ReturnCandidates.ChoiceStableIff` | adobe_vipm/flows/fulfillment/change.py:106-113 | the choice is the same for every downsize under exactly that condition |
| `ReturnCandidates.CompletionMovesTheChoice` | adobe_vipm/flows/fulfillment/change.py:106-113 | a concrete step after which the choice is an order without a return, while the return of the earlier choice is open |
| `ReturnOrders.PlacingIsStable` | adobe_vipm/adobe/mixins/order.py:402-453 | placing the return of a chosen order changes no line's choice |
| `ReturnOrders.ChoiceFacts` | adobe_vipm/flows/fulfillment/change.py:90-116 | the choice is made of distinct orders in the window, each being returned already or complete with its line complete, and adds up to the delta |
| `ReturnOrders.ChosenWereReturnable` | adobe_vipm/adobe/mixins/order.py:402-453 | whatever an attempt chose was, when Adobe listed it, the line of an order in the window that was being returned already or complete, it and the line |
| `ReturnOrders.FindSeen` | adobe_vipm/flows/utils/order.py:244-267 | matching a chosen order to a return finds one iff this MPT order has a live one for it |
| `ReturnOrders.MatchedQuantity` | adobe_vipm/flows/fulfillment/shared.py:862-907 | distinct returns of distinct chosen orders never add up to more than the choice, and to all of it when every order is covered |
| `ReturnOrders.ReturnedWithinDownsize` | adobe_vipm/flows/fulfillment/shared.py:862-907 | the quantity returned never exceeds the downsize and equals it once every chosen order is returned |
| `ReturnOrders.NoneOpenIff` | adobe_vipm/flows/fulfillment/shared.py:862-937 | for any own returns and any choice of the completing attempt, no own return is open iff the open ones are of chosen orders the deployment does not skip |
| `ReturnOrders.ReturnedExactlyIff` | adobe_vipm/flows/fulfillment/shared.py:862-937 | once every chosen order is returned, at least the downsize is; exactly the downsize iff no other order is being returned for the SKU |
| `ReturnOrders.WithinMeansChosen` | adobe_vipm/flows/fulfillment/shared.py:862-937 | while the returns stay within the choice, the open ones are of chosen orders |
| `ReturnOrders.PassingMeansNoneOpenIff` | adobe_vipm/flows/fulfillment/change.py:77-88 | for returns within the choice, getting past the return steps means that no own return is open iff the attempt is not near the coterm date |
| `ReturnOrders.PassesWithOpenReturn` | adobe_vipm/flows/fulfillment/change.py:77-88 | for any order with something to return, a run that gets past them near the coterm date with its own return open |
| `ReturnOrders.CompletesWithOpenReturn` | adobe_vipm/flows/fulfillment/shared.py:862-937 | a concrete run, away from the coterm date: the return of the chosen order is placed, another order completes and is chosen instead, and the submit step gets through with the first return open and 10 returned for a downsize of 5 |
| `ReturnOrders.ReturnFlow.CreateReturnOrder` | adobe_vipm/adobe/mixins/order.py:492-540 | a placed return is the only live one of its order and in full; in a steady environment it keeps every line's choice; also when the answer is lost |
| `ReturnOrders.ReturnFlow.SubmitOne` | adobe_vipm/flows/fulfillment/shared.py:862-907 | a chosen order is skipped for another deployment, reuses the return seen for it, or gets one |
| `ReturnOrders.ReturnFlow.SubmitLine` | adobe_vipm/flows/fulfillment/shared.py:862-907 | only returns of this SKU's chosen orders come alive; with nothing pending, all of them are complete |
| `ReturnOrders.ReturnFlow.ChooseReturns` | adobe_vipm/flows/fulfillment/change.py:65-158 | every attempt chooses from what it listed, the returns at one moment of the run and the orders at that moment or later, and nothing near the coterm date; all that is listed and chosen could be returned then; the choice is of distinct orders adding up to the delta, and the same each time in a steady environment; accepts iff it is near that date, the order has returns already, or every line with candidates has a choice |
| `ReturnOrders.ReturnFlow.SubmitReturns` | adobe_vipm/flows/fulfillment/shared.py:841-937 | goes on only when every order handed to it and in the deployment has a complete return; when all of them have been seen complete it goes on at once and places nothing |
| `ReturnOrders.ReturnFlow.ReturnedExactly` | adobe_vipm/flows/fulfillment/shared.py:924-937 | in a steady environment, per SKU never more than the downsize; exactly the downsize when all is returned without a deployment filter |
| `ReturnOrders.ReturnFlow.AllReturnedCompletes` | adobe_vipm/flows/fulfillment/shared.py:841-937 | getting through with a choice means both exact conditions for it, in any environment |
| `ReturnOrders.ReturnFlow.GetsThrough` | adobe_vipm/flows/fulfillment/change.py:65-116 | with the choice made from what the attempt listed, nothing near the coterm date; and in a steady environment away from that date, no own return open and exact quantities |
| `ReturnOrders.ReturnFlow.Retries` | adobe_vipm/flows/fulfillment/shared.py:841-937 | any number of attempts in any environment, each with its own window, near the coterm date or not, cut short anywhere: each order is returned at most once and in full, and getting through means the exact conditions for what the last attempt chose from its listing; in a steady environment no SKU beyond its downsize, and away from that date no own return open and exact quantities |
| `ChangeOrder.ChangeOrder.SubmitRenewal` | adobe_vipm/flows/fulfillment/shared.py:1869-1952 | reuses the RENEWAL order found by its reference or places one; goes on only when it is complete, waits on an open one, fails on a final or refused one |
| `ChangeOrder.ChangeOrder.SubmitNew` | adobe_vipm/flows/fulfillment/shared.py:968-1038 | uses the saved NEW order or places one; goes on only when that one is complete, or when none is saved and there was nothing to order; waits on an open one, fails on a final one |
| `ChangeOrder.ChangeOrder.Split` | adobe_vipm/flows/fulfillment/shared.py:1449-1536 | an attempt works on the persisted split once there is one, persists the first that is not empty, which is what it means line by line for what Adobe listed and refused, and otherwise works on the order's own lines |
| `ChangeOrder.TimePasses` | adobe_vipm/flows/fulfillment/shared.py:976-1038 | the counts, and own orders once complete, survive status changes of open orders and orders of others |
| `ChangeOrder.NewPlaced` | adobe_vipm/flows/fulfillment/shared.py:984-1003 | a placed NEW order is either saved or lost |
| `ChangeOrder.OwnNewCounts` | adobe_vipm/flows/fulfillment/shared.py:984-1003 | at most one own NEW order iff they count to at most one |
| `ChangeOrder.ChangeOrder.Update` | adobe_vipm/flows/fulfillment/change.py:193-317 | goes on iff all was written; a rolled-back error fails the MPT order for two codes only and otherwise leaves it to be retried; the RETURN of the NEW order read or placed in this attempt is placed when the rollback comes to it |
| `ChangeOrder.ChangeOrder.PlaceOrders` | adobe_vipm/flows/fulfillment/change.py:327-368 | RENEWAL, then NEW for upsize and new lines alike: goes on only with both complete, or without a NEW order when there was nothing to order |
| `ChangeOrder.NewKeptIff` | adobe_vipm/flows/fulfillment/change.py:302-309 | whatever Adobe does, no return of the NEW order is live at the end of a completing attempt iff none is when it lists the returns |
| `ChangeOrder.ChangeOrder.Finish` | adobe_vipm/flows/fulfillment/change.py:352-356 | quantities up, returns, quantities down, completion; completing means that nothing was rolled back and what the return steps guarantee for the choice of this attempt |
| `ChangeOrder.ChangeOrder.Attempt` | adobe_vipm/flows/fulfillment/change.py:327-368 | one attempt in step order keeps: one RENEWAL, NEW orders saved or lost, returns of the saved one only; a return of a downsize comes alive only after the RENEWAL is complete and the NEW is for the order's lines (the persisted split, or else its own), or this attempt had nothing to order; at most one return of the NEW order is placed, and none by a completing attempt; one that is stopped at the choice of returns fails with nothing placed, and one that gets past it is near the coterm date, had returns, or has a choice for every line with something returnable |
| `ChangeOrder.ChangeOrder.Retries` | adobe_vipm/flows/fulfillment/change.py:327-368 | over all attempts: at most one RENEWAL; at most one NEW iff none was lost, or one and none saved; one return of the NEW order per attempt rolled back that far; no return comes alive before RENEWAL and NEW are complete for the persisted split, unless an attempt had nothing to order; completion only with both complete for the order's lines, the NEW one whenever there is an upsize or new line and something to order, and with what the return steps guarantee for the choice of that attempt |
| `ChangeOrder.SkippedThenOrdered` | adobe_vipm/flows/fulfillment/shared.py:976-1003 | the one exception as a run: a return placed by an attempt with nothing to order, and an open NEW order placed by a later one |
| `ChangeOrder.UndoneThenCompleted` | adobe_vipm/flows/fulfillment/change.py:283-309 | a run that completes with its NEW order complete and being returned |
| `RenewNow.WorkIsPermanentIff` | adobe_vipm/flows/fulfillment/renewal_now.py:72-108 | every attempt sees a RENEWAL order to wait for, whatever Adobe reports, iff some entry asks for a positive quantity |
| `RenewNow.FindPrevious` | adobe_vipm/flows/fulfillment/renewal_now.py:337-392 | the newest RENEWAL order of another MPT order that is complete and has a line of the subscription, the first listed of equally new ones; none iff there is no such order |
| `RenewNow.FirstReturnIsThere` | adobe_vipm/flows/fulfillment/renewal_now.py:348-360 | an existing return is found by SKU iff there is a live one |
| `RenewNow.AllStillRefer` | adobe_vipm/flows/fulfillment/renewal_now.py:337-392 | while Adobe moves on, every return this MPT order placed goes on referring to a complete RENEWAL order of another one |
| `RenewNow.RenewNowOrder.Patch` | adobe_vipm/flows/fulfillment/renewal_now.py:490-527 | every normalisation and every disabling is logged with the orders of that moment |
| `RenewNow.RenewNowOrder.Preview` | adobe_vipm/flows/fulfillment/renewal_now.py:141-192 | with work to do, going on means a preview or an existing RENEWAL order |
| `RenewNow.RenewNowOrder.Submit` | adobe_vipm/flows/fulfillment/renewal_now.py:195-281 | with work to do, going on means a complete RENEWAL order; waits on an open one, fails on a final or refused one |
| `RenewNow.RenewNowOrder.PlaceRenewal` | adobe_vipm/flows/fulfillment/renewal_now.py:232-252 | places the only RENEWAL order with the MPT order's id, with the previewed lines |
| `RenewNow.RenewNowOrder.ReturnOne` | adobe_vipm/flows/fulfillment/renewal_now.py:348-433 | reuses the return of the SKU, or places one for the subscription's line in the newest previous complete RENEWAL order, in full; without such an order the MPT order fails with nothing placed |
| `RenewNow.RenewNowOrder.ReturnPrevious` | adobe_vipm/flows/fulfillment/renewal_now.py:284-448 | goes on only when every lapsing, already renewed subscription has a complete return, and waits only when one had none yet or an open one; every return it placed is of such a subscription, in full, for its line in the newest previous RENEWAL order that was complete when they were listed |
| `RenewNow.NormalisedByOne` | adobe_vipm/flows/fulfillment/renewal_now.py:490-527 | one normalisation writes what Adobe reported as renewed and nothing else |
| `RenewNow.RenewNowOrder.NormaliseAll` | adobe_vipm/flows/fulfillment/renewal_now.py:451-545 | exactly the subscriptions this order renewed get the quantity Adobe showed as renewed, unless it showed none yet |
| `RenewNow.RenewNowOrder.DisableLapsing` | adobe_vipm/flows/fulfillment/renewal_now.py:547-597 | exactly the lapsing subscriptions that were enabled are disabled |
| `RenewNow.NormalisedThenDisabled` | adobe_vipm/flows/fulfillment/renewal_now.py:451-597 | both together leave every lapsing subscription off and every renewed one on with its renewed quantity |
| `RenewNow.RenewNowOrder.Attempt` | adobe_vipm/flows/fulfillment/renewal_now.py:600-639 | one attempt keeps the invariant; completing means, entry by entry, for what Adobe showed when the attempt began: a lapsing subscription is off and what it had renewed has a complete return; a renewing one, unless it asks no quantity and had renewed, has a complete RENEWAL order and renews what Adobe showed as renewed; with distinct SKUs no own return is open iff the open ones are of subscriptions it showed as renewed |
| `RenewNow.RenewNowOrder.Retries` | adobe_vipm/flows/fulfillment/renewal_now.py:600-639 | over all attempts: at most one RENEWAL order with the MPT order's id, at most one live return per SKU, every return of a complete RENEWAL order of another MPT order, nothing subtractive before the RENEWAL order is complete when an entry asks for a quantity; completing means that of the last attempt |
| `RenewNow.NoReturnOpenIff` | adobe_vipm/flows/fulfillment/renewal_now.py:304-345 | once the reported lapsing subscriptions have complete returns, no own return is open iff the open ones are of such subscriptions |
| `RenewNow.UnreportedThenCompleted` | adobe_vipm/flows/fulfillment/renewal_now.py:304-314 | a run that completes with its return open because Adobe no longer reports the renewal it undoes |
| `Commitment.CountSubscriptions` | adobe_vipm/flows/helpers.py:404-446 | the loop counts the renewing aggregate of each type, and stops iff a counted subscription has no quantity |
| `Commitment.ProcessLines` | adobe_vipm/flows/helpers.py:448-497 | both passes add the signed change of each line to its type |
| `Commitment.ProjectionIsRecount` | adobe_vipm/flows/helpers.py:359-388 | the incremental count equals the recount after every write, up to the drift of the old quantities, for every order and state |
| `Commitment.NoDrift` | adobe_vipm/flows/helpers.py:359-388 | there is no drift when every old quantity is what its subscription renews |
| `Commitment.LineIsExactIff` | adobe_vipm/flows/helpers.py:484-497 | a line's projection is exact iff its old quantity is what its subscription renews |
| `Commitment.ValidateMinimum` | adobe_vipm/flows/helpers.py:511-563 | accepts iff every minimum is met, and otherwise names for each type a minimum that is broken, and only those types |
| `Commitment.ValidateCommitment` | adobe_vipm/flows/helpers.py:305-318 | an order in step with Adobe is accepted iff the state after all its writes meets every minimum |
| `Commitment.EveryWriteKeepsTheMinimums` | adobe_vipm/flows/fulfillment/change.py:180-189 | from a compliant state and an accepted order, every state of "up, then down" meets every minimum |
| `SubscriptionUpdates.UndoneIsRestoredIff` | adobe_vipm/flows/fulfillment/change.py:295-305 | a complete rollback restores everything iff each compensating write sends the flag and quantity that were there |
| `SubscriptionUpdates.QuantityStep.UpdateLine` | adobe_vipm/flows/fulfillment/change.py:211-281 | writes a line's quantity unless it is there already; a refused write is let off exactly for an increase with an invalid renewal state, unless the NEW order has the item and is not complete, and for an expired offer once there is a NEW order, and then counts as updated |
| `SubscriptionUpdates.QuantityStep.UpdateLines` | adobe_vipm/flows/fulfillment/change.py:207-209 | the loop goes on after a refusal; what there is to undo are the lines out of step at the start except the broken ones; the first lines are written exactly, except those refused; no more lines are broken or skipped than calls were refused; an error that is not handled ends it there |
| `SubscriptionUpdates.QuantityStep.Rollback` | adobe_vipm/flows/fulfillment/change.py:295-317 | writes the old quantities in order and stops at the first error |
| `SubscriptionUpdates.QuantityStep.Run` | adobe_vipm/flows/fulfillment/change.py:193-317 | a complete rollback restores every quantity, and everything iff the lines that were out of step and not refused belong to enabled subscriptions; before a rollback there was a moment with every line written that was not refused; the MPT order fails exactly on the two errors about the renewal state; an error that is not handled leaves the lines before it written, all of them when no call was refused |
| `SubscriptionUpdates.RolledBackIsRestoredIff` | adobe_vipm/flows/fulfillment/change.py:295-305 | that condition, for any lines, refusals and state at the start |
| `SubscriptionUpdates.UnwrittenIff` | adobe_vipm/flows/fulfillment/change.py:211-222 | an error that is not handled leaves everything as it was iff no line before it was out of step, but for refused ones |
| `SubscriptionUpdates.WrittenAndLeft` | adobe_vipm/flows/fulfillment/change.py:211-222 | a concrete one: the first line stays written when the second cannot be read |
| `SubscriptionUpdates.FlagStep.Rollback` | adobe_vipm/flows/fulfillment/configuration.py:142-172 | best effort over every updated subscription |
| `SubscriptionUpdates.FlagsAreBack` | adobe_vipm/flows/fulfillment/configuration.py:142-172 | a complete rollback restores every flag, and everything iff the quantities sent were the renewal quantities |
| `SubscriptionUpdates.FlagStep.Run` | adobe_vipm/flows/fulfillment/configuration.py:62-172 | sets every flag, or is refused at a line and rolls back; then every flag is back, and everything iff the lines before it that flipped a flag carried the renewal quantity; an error that is not handled leaves the lines before it set |
| `SubscriptionUpdates.UndoSendsWhatWasThereIff` | adobe_vipm/flows/fulfillment/configuration.py:142-172 | the compensating writes send what was there iff the flipped lines carried the renewal quantity |
| `SubscriptionUpdates.UnflippedIff` | adobe_vipm/flows/fulfillment/configuration.py:62-93 | an error that is not handled leaves everything as it was iff no line before it was flipped |
| `SubscriptionUpdates.FlippedAndLeft` | adobe_vipm/flows/fulfillment/configuration.py:75-93 | a concrete one: the first flag stays flipped when the second subscription cannot be read |
| `PreviewOrder.ProcessUpsizeLines` | adobe_vipm/adobe/mixins/order.py:704-764 | an item per line that still has to buy something; an error iff Adobe has no subscription for a line |
| `PreviewOrder.BoughtOfLines` | adobe_vipm/adobe/mixins/order.py:724-764 | what the NEW order buys of a SKU is its line's shortfall, never negative |
| `PreviewOrder.UpsizeIsCoveredIff` | adobe_vipm/adobe/mixins/order.py:735-739 | the customer ends with the larger of current and requested iff the renewal quantity was not above the current one |
| `PreviewOrder.FindLineIsFirst` | adobe_vipm/adobe/mixins/order.py:673-688 | an error about a discount names the first line with its number |
| `PreviewOrder.Payload.RemoveFailedCodes` | adobe_vipm/adobe/mixins/order.py:41-46 | removes exactly the failed codes, from every line |
| `PreviewOrder.Payload.GetPreviewOrder` | adobe_vipm/adobe/mixins/order.py:575-611 | the loop answers what the replies determine; offers and quantities stay; a line loses only codes that failed in a response or that an error named it for; what is returned is one of the responses, and no line keeps a code that failed in it |
| `PreviewOrder.ReturnedIsClean` | adobe_vipm/adobe/mixins/order.py:594-611 | a preview from a well-behaved Adobe has no failed code |
| `PreviewOrder.ExhaustionNeedsCodes` | adobe_vipm/adobe/mixins/order.py:606-609 | each attempt that fails uses up a code |
| `PreviewOrder.ExhaustionIff` | adobe_vipm/adobe/mixins/order.py:594-611 | the attempts can run out iff the payload has at least five distinct codes |
| `PreviewOrder.ReturnedIsCleanIff` | adobe_vipm/adobe/mixins/order.py:594-611 | a returned preview is clean iff the reply the loop stopped at is a response; else it is an error about a line whose codes were all dropped before |
| `PreviewOrder.UncleanIff` | adobe_vipm/adobe/mixins/order.py:594-611 | some replies make the loop return an unclean preview iff a line an error can name was built with codes |
| `PreviewOrder.StaleResponse` | adobe_vipm/adobe/mixins/order.py:673-688 | a concrete pair of replies that returns the response with the failed code |
| `PriceCache.QueryIsPerSku` | adobe_vipm/airtable/models.py:591-610 | asking for more SKUs at once does not change the answer for any of them |
| `PriceCache.PricingRowMeans` | adobe_vipm/airtable/models.py:640-661 | the answer is the row covering the start date, else an open one, else a closed one whose end date no other closed one exceeds |
| `PriceCache.FindCachedIsFirst` | adobe_vipm/airtable/models.py:613-622 | of several cached rows that cover the date, the one cached first is taken |
| `PriceCache.CachedIsPricing` | adobe_vipm/airtable/models.py:613-622 | a cached row that covers the start date is the row a fresh lookup would use |
| `PriceCache.CollectedOnce` | adobe_vipm/airtable/models.py:625-637 | caching looked-up rows repeats no row with a price |
| `PriceCache.PriceList.UpdateTable` | adobe_vipm/airtable/models.py:640-661 | edits that leave closed rows alone keep the cache valid |
| `PriceCache.PriceList.FromCache` | adobe_vipm/airtable/models.py:661-667 | exactly the SKUs a cached row prices |
| `PriceCache.PriceList.Collect` | adobe_vipm/airtable/models.py:625-637 | caches the closed rows in order and keeps the first price per SKU |
| `PriceCache.PriceList.FallBack` | adobe_vipm/airtable/models.py:679-688 | the newest historical price for what is still missing; nothing is cached |
| `PriceCache.PriceList.GetPrices` | adobe_vipm/airtable/models.py:640-688 | whatever the cache holds, a SKU is answered from a covering cached row or else from the table; with rows of the table's own, over every history, the answer is the one computed with an empty cache, and no priced row is cached twice |
| `PriceCache.SparesLookupIff` | adobe_vipm/airtable/models.py:613-622 | a cached row spares the lookup iff it has a price |
| `PriceCache.OtherBaseIff` | adobe_vipm/airtable/models.py:43-43 | the answers over a cache filled from one table are those of another one alone, for any SKUs, currency and date, iff the cached prices are the other table's answers on their windows |
| `PriceCache.OneBaseOnly` | adobe_vipm/airtable/models.py:43-43 | a concrete row cached from one base that answers for another one pricing the SKU differently |
| `Transfers.Transfer.CheckRetries` | adobe_vipm/flows/migration.py:96-123 | one retry more, and failed once the maximum is reached |
| `Transfers.Transfer.CheckReschedules` | adobe_vipm/flows/migration.py:126-148 | one reschedule more, and failed once the maximum is reached |
| `Transfers.StartDecreases` | adobe_vipm/flows/migration.py:169-311 | every outcome of starting a transfer keeps the counters below their limits and brings the record strictly closer to an end, except an already transferred one and an error that is not handled |
| `Transfers.CheckDecreases` | adobe_vipm/flows/migration.py:314-423 | likewise for every outcome of a check, except an error while listing the subscriptions |
| `Transfers.Transfer.Start` | adobe_vipm/flows/migration.py:257-311 | runs iff it was submitted and that was saved; failed when it cannot be recovered or submitted, rescheduled below the maximum and failed at it; stays when it was already transferred or the run dies; nothing is terminated |
| `Transfers.Transfer.Check` | adobe_vipm/flows/migration.py:314-423 | completed iff all is done and that was saved; failed without authorization or with an unexpected status; retried below the maximum and failed at it otherwise; the contract is terminated exactly when the transfer is done, and the completion is lost exactly when it is not saved |
| `Transfers.Transfer.Live` | adobe_vipm/flows/migration.py:289-423 | over any history: at most max reschedules + max retries changing polls, retries below the maximum while running, terminations equal completions iff none was lost |
| `Transfers.PollsAreBounded` | adobe_vipm/flows/migration.py:289-423 | on any trace of polls the changes are bounded by the measure, and failed, completed, synchronized and duplicated are absorbing |
| `Transfers.StartTransfers` | adobe_vipm/flows/migration.py:289-311 | a run over a batch polls every new or rescheduled transfer up to the one it dies at, keeps every transfer valid and leaves the others alone |
| `Transfers.CheckTransfers` | adobe_vipm/flows/migration.py:314-423 | likewise for the running ones |
| `OrderIds.SplitJoin` | adobe_vipm/flows/utils/parameter.py:453-462 | splitting undoes joining for parts without a comma |
| `OrderIds.StripIs` | adobe_vipm/flows/utils/parameter.py:445-456 | stripping takes the white space off both ends and nothing else |
| `OrderIds.ParsePrinted` | adobe_vipm/flows/utils/parameter.py:453-462 | printed clean ids parse back to the same ids in the same order |
| `OrderIds.SurvivesIff` | adobe_vipm/flows/utils/parameter.py:453-462 | an id survives the round trip iff it has no comma |
| `OrderIds.FirstsMerge` | adobe_vipm/flows/utils/parameter.py:458-460 | merging in two steps or in one is the same, and earlier ids stay a prefix |
| `OrderIds.FirstsRepeat` | adobe_vipm/flows/utils/parameter.py:459-460 | ids that are all there already add nothing |
| `OrderIds.Merge` | adobe_vipm/flows/utils/parameter.py:458-458 | the key-by-key loop keeps first occurrences |
| `OrderIds.OrderingParameter.Record` | adobe_vipm/flows/utils/parameter.py:443-474 | after any sequence of calls the parameter parses to the first occurrences in call order; earlier ids stay a prefix; every id of a call that is not blank is there without the white space around it, and nothing else is new; a repeated call changes nothing |

## Left out

- Identifiers, SKUs, discount levels and codes are numbers: they are only compared. A partial SKU is the `sku` of an offer. Dates are integers.
- Transport, authentication, pagination, notifications, templates and error texts: only the branch an error takes is modelled. The parameter visibility, market segment and government sub-segment decisions are not.
- Dictionaries whose order shows (renewal entries, diverted entries) are sequences keyed by their ids; the JSON form of the persisted split is taken to keep that order.
- Hypotheses the results state in their `requires` or as an antecedent: distinct plan entries, line ids and SKUs where the code keys dictionaries by them; at most one call per attempt answered with an error (so no compensating call is) for what a failed renewal leaves, and none of those in effect for the claims over several attempts; touched scheduled subscriptions that were not renewing, for the dominance of the states in between and for the claims over several attempts; closed price windows that do not overlap; ids without a comma; lines of a subscription carrying its SKU.
- `ReturnOrders.ReturnFlow.Retries`: in a steady environment the window stays, a new order appears before it is complete, and when a return fails its line is complete again; in any other, orders keep their ids and lines, and only open returns change status.
- `ReturnCandidates.ChoiceStableIff`: for candidates of positive quantity; a line with quantity 0 can be left out of every choice.
- `ChangeOrder.ChangeOrder.Attempt`: own NEW and RENEWAL orders, and returns of the NEW order, hold no line of a downsized SKU and are kept apart from the candidate orders. The commitment check and the price update only stop the attempt here, and of the two quantity updates only the outcome counts; they are modelled on their own.
- `ChangeOrder.TimePasses`: a complete own order is taken as final. Adobe knows a cancelled status; a NEW order that Adobe cancels once its return is complete fails the MPT order on the next attempt, which is not modelled.
- `ManualRenewalSplit.SplitConserves`: the dictionaries are keyed by SKU, so it is for orders without a repeated SKU; ValidateDuplicateLines stops the others before.
- `RenewNow.RenewNowOrder.Retries`: assumes that only this order edits the auto-renewal preferences meanwhile. Returns are looked up by SKU; of two lapsing subscriptions with one SKU, a retry can take the return of one for the other's, so the claim is for distinct SKUs.
- `Commitment.ValidateCommitment`: the checks before the counting (commitment status and dates, items missing at Adobe, returns in flight that skip the step) are single decisions and not modelled.
- `SubscriptionUpdates.QuantityStep.Rollback`: the return of the NEW order that ends a rollback is one accepted or refused call.
- `PreviewOrder.ReturnedIsCleanIff`: a line's codes are a set; the code rewrites them as a list in arbitrary order.
- `PriceCache.PriceList.GetPrices`: for one process; Airtable is taken to sort blank end dates last.
- `Transfers.Transfer.Live`: the two polls do not overlap; customer data, offers and the global-customer record have no effect on the statuses.
- The purchase, transfer, switch and termination flows reuse these steps. Creating MPT subscriptions and recording flexible discounts only copy data.
- `RenewalRetries.Attempts`: only this order edits the preferences meanwhile. An order that fails by its due date is failed without a walk back; what it leaves is what the last attempt left.
