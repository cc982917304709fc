/** The two steps that write several subscriptions and undo what they wrote when one write fails: the
    renewal quantities of a change order and the auto-renewal flags of a configuration order. What
    each rollback restores, and what an error leaves that is not rolled back, is stated exactly. */
module SubscriptionUpdates {
  import opened Subscriptions

  /** One write: the flag and the quantity are both sent. */
  datatype Write = Write(sub: SubId, enabled: bool, quantity: nat)

  function Written(sub: Subscription, w: Write): Subscription {
    Patched(sub, w.enabled, Some(w.quantity), None)
  }

  ghost predicate DistinctWrites(writes: seq<Write>) {
    forall i, j :: 0 <= i < j < |writes| ==> writes[i].sub != writes[j].sub
  }

  /** Only the written subscriptions may have moved, and only to what was written. */
  ghost predicate Moved(initial: Subs, subs: Subs, writes: seq<Write>) {
    && subs.Keys == initial.Keys
    && (forall k :: 0 <= k < |writes| ==> writes[k].sub in initial)
    && (forall k :: 0 <= k < |writes| ==>
                      || subs[writes[k].sub] == initial[writes[k].sub]
                      || subs[writes[k].sub] == Written(initial[writes[k].sub], writes[k]))
    && (forall id :: id in initial && (forall k :: 0 <= k < |writes| ==> writes[k].sub != id) ==>
        subs[id] == initial[id])
  }

  /** The first `n` of the compensating writes are in place, the rest is as it was before them. */
  ghost predicate Undone(initial: Subs, before: Subs, subs: Subs, undo: seq<Write>, n: int)
    requires 0 <= n <= |undo|
  {
    && subs.Keys == initial.Keys == before.Keys
    && (forall k :: 0 <= k < |undo| ==> undo[k].sub in initial)
    && (forall k :: 0 <= k < n ==> subs[undo[k].sub] == Written(initial[undo[k].sub], undo[k]))
    && (forall id :: id in initial && (forall k :: 0 <= k < n ==> undo[k].sub != id) ==> subs[id] == before[id])
  }

  /** Once every compensating write is in place, everything is back if and only if each of them wrote
      the flag and the quantity that were there at the start. */
  lemma UndoneIsRestoredIff(initial: Subs, before: Subs, subs: Subs, writes: seq<Write>, undo: seq<Write>)
    requires |undo| == |writes| && forall k :: 0 <= k < |undo| ==> undo[k].sub == writes[k].sub
    requires Moved(initial, before, writes) && Undone(initial, before, subs, undo, |undo|)
    ensures subs == initial <==>
            forall k :: 0 <= k < |undo| ==>
                          && initial[undo[k].sub].auto.enabled == undo[k].enabled
                          && initial[undo[k].sub].auto.quantity == Some(undo[k].quantity)
  {
    if forall k :: 0 <= k < |undo| ==>
                     && initial[undo[k].sub].auto.enabled == undo[k].enabled
                     && initial[undo[k].sub].auto.quantity == Some(undo[k].quantity) {
      forall id | id in initial
        ensures subs[id] == initial[id]
      {
        if k :| 0 <= k < |undo| && undo[k].sub == id {
          assert Written(initial[id], undo[k]) == initial[id];
        } else {
          assert forall k :: 0 <= k < |writes| ==> writes[k].sub != id;
        }
      }
    } else {
      var k :| 0 <= k < |undo| && !(&& initial[undo[k].sub].auto.enabled == undo[k].enabled
                                    && initial[undo[k].sub].auto.quantity == Some(undo[k].quantity));
      assert subs[undo[k].sub] != initial[undo[k].sub];
    }
  }

  lemma NothingMoved(initial: Subs)
    ensures Moved(initial, initial, [])
  {
  }

  lemma NothingUndone(initial: Subs, subs: Subs, writes: seq<Write>, undo: seq<Write>)
    requires |undo| == |writes| && forall k :: 0 <= k < |undo| ==> undo[k].sub == writes[k].sub
    requires Moved(initial, subs, writes)
    ensures Undone(initial, subs, subs, undo, 0)
  {
  }

  lemma OneMoreWrite(initial: Subs, before: Subs, after: Subs, writes: seq<Write>, w: Write)
    requires Moved(initial, before, writes) && DistinctWrites(writes + [w]) && w.sub in initial
    requires after == before || after == before[w.sub := Written(before[w.sub], w)]
    ensures Moved(initial, after, writes + [w])
  {
    assert (writes + [w])[|writes|] == w;
    assert forall k :: 0 <= k < |writes| ==> (writes + [w])[k] == writes[k] && writes[k].sub != w.sub;
  }

  lemma WriteOver(sub: Subscription, w: Write, u: Write)
    ensures Written(Written(sub, w), u) == Written(sub, u)
  {
  }

  lemma OneMoreUndone(initial: Subs, before: Subs, subs: Subs, after: Subs, writes: seq<Write>, undo: seq<Write>,
                      n: nat)
    requires |undo| == |writes| && forall k :: 0 <= k < |undo| ==> undo[k].sub == writes[k].sub
    requires DistinctWrites(writes) && Moved(initial, before, writes) && n < |undo|
    requires Undone(initial, before, subs, undo, n)
    requires after == subs[undo[n].sub := Written(subs[undo[n].sub], undo[n])]
    ensures Undone(initial, before, after, undo, n + 1)
  {
    hide Written, Moved, DistinctWrites;
    UntouchedYet(initial, before, subs, writes, undo, n);
    WriteOver(initial[undo[n].sub], writes[n], undo[n]);
    assert after[undo[n].sub] == Written(initial[undo[n].sub], undo[n]);
  }

  lemma UntouchedYet(initial: Subs, before: Subs, subs: Subs, writes: seq<Write>, undo: seq<Write>, n: nat)
    requires |undo| == |writes| && forall k :: 0 <= k < |undo| ==> undo[k].sub == writes[k].sub
    requires DistinctWrites(writes) && Moved(initial, before, writes) && n < |undo|
    requires Undone(initial, before, subs, undo, n)
    ensures forall k :: 0 <= k < n ==> undo[k].sub != undo[n].sub
    ensures undo[n].sub in initial
    ensures subs[undo[n].sub] == initial[undo[n].sub] || subs[undo[n].sub] == Written(initial[undo[n].sub], writes[n])
  {
  }

  /******* Change orders: renewal quantities *******/

  // `sub` is None for a line whose MPT subscription does not exist yet.
  datatype QuantityLine = QuantityLine(sub: Option<SubId>, quantity: nat)

  datatype ErrorCode = InvalidRenewalState | InactiveNotEditable | OfferExpired | OtherError

  // The NEW order placed earlier: none, without the line's item, or with it and complete or not.
  datatype NewOrder = NoNewOrder | WithoutItem | WithItem(complete: bool)

  /** Errors a line is let off with; the line then counts as updated. */
  predicate IsTolerated(code: ErrorCode, oldQuantity: nat, quantity: nat, order: NewOrder) {
    || (code.InvalidRenewalState? && oldQuantity < quantity && (order.WithItem? ==> order.complete))
    || (code.OfferExpired? && !order.NoNewOrder?)
  }

  // Updated; RolledBack: failed and rolled back, with whether every compensating call succeeded and
  // whether the MPT order was failed; Raised: an error no one handles, outside the rollback or while undoing.
  datatype Result = Updated | RolledBack(complete: bool, orderFailed: bool) | Raised(undoing: bool)

  ghost predicate DistinctTargets(lines: seq<QuantityLine>) {
    forall i, j :: 0 <= i < j < |lines| && lines[i].sub.Some? && lines[j].sub.Some? ==> lines[i].sub != lines[j].sub
  }

  ghost predicate ForSomeLine(lines: seq<QuantityLine>, n: int, id: SubId)
    requires 0 <= n <= |lines|
  {
    exists i :: 0 <= i < n && lines[i].sub == Some(id)
  }

  /** The writes made for the lines so far; `undo` writes the old quantities, and always enables. */
  ghost predicate Bookkept(initial: Subs, lines: seq<QuantityLine>, n: int, writes: seq<Write>, undo: seq<Write>)
    requires 0 <= n <= |lines|
  {
    Bookkeeping(initial, writes, undo) && forall k :: 0 <= k < |writes| ==> ForSomeLine(lines, n, writes[k].sub)
  }

  // InStep: nothing to write; Recorded: written, or let off; Broken: refused; Stuck: an error that is
  // not handled.
  datatype LineResult = InStep | Recorded | Broken(code: ErrorCode) | Stuck

  /** Subscriptions of later lines are as they were. */
  ghost predicate Later(initial: Subs, subs: Subs, lines: seq<QuantityLine>, n: int)
    requires 0 <= n <= |lines|
  {
    && subs.Keys == initial.Keys
    && forall id :: id in initial && (forall k :: 0 <= k < n ==> lines[k].sub != Some(id)) ==> subs[id] == initial[id]
  }

  /** Every line's subscription has its quantity, or its error was let off. */
  ghost predicate AllInStep(lines: seq<QuantityLine>, n: int, subs: Subs, tolerated: set<SubId>)
    requires 0 <= n <= |lines|
  {
    forall j :: 0 <= j < n && lines[j].sub.Some? ==>
                  || lines[j].sub.value in tolerated
                  || (lines[j].sub.value in subs && subs[lines[j].sub.value].auto.quantity == Some(lines[j].quantity))
  }

  /** One line may move its own subscription only. */
  ghost predicate MovesOwn(before: Subs, after: Subs, line: QuantityLine) {
    || after == before
    || (line.sub.Some? && line.sub.value in before
        && after ==
             before[line.sub.value := Written(before[line.sub.value], Write(line.sub.value, true, line.quantity))])
  }

  lemma LaterNext(initial: Subs, before: Subs, after: Subs, lines: seq<QuantityLine>, n: nat)
    requires n < |lines| && Later(initial, before, lines, n) && MovesOwn(before, after, lines[n])
    ensures Later(initial, after, lines, n + 1)
  {
  }

  lemma InStepNext(
    lines: seq<QuantityLine>, n: nat, before: Subs, after: Subs, tolerated: set<SubId>, tolerated': set<SubId>,
    wrote: bool)
    requires n < |lines| && DistinctTargets(lines) && tolerated <= tolerated'
    requires wrote ==> lines[n].sub.Some? && lines[n].sub.value in before
    requires after == if wrote then before[lines[n].sub.value :=
                                             Written(before[lines[n].sub.value],
                                                     Write(lines[n].sub.value, true, lines[n].quantity))]
                      else before
    requires lines[n].sub.Some? && !wrote ==>
               || lines[n].sub.value in tolerated'
               || (lines[n].sub.value in after && after[lines[n].sub.value].auto.quantity == Some(lines[n].quantity))
    ensures AllInStep(lines, n, before, tolerated) ==> AllInStep(lines, n + 1, after, tolerated')
  {
  }

  /** What Bookkept says without the lines. */
  ghost predicate Bookkeeping(initial: Subs, writes: seq<Write>, undo: seq<Write>) {
    && |undo| == |writes| && DistinctWrites(writes)
    && (forall k :: 0 <= k < |writes| ==>
                      && writes[k].sub in initial && undo[k].sub == writes[k].sub
                      && writes[k].enabled && undo[k].enabled
                      && initial[writes[k].sub].auto.quantity == Some(undo[k].quantity))
  }

  lemma QuantitiesAreBack(initial: Subs, before: Subs, subs: Subs, writes: seq<Write>, undo: seq<Write>)
    requires Bookkeeping(initial, writes, undo) && Moved(initial, before, writes)
    requires Undone(initial, before, subs, undo, |undo|)
    ensures subs.Keys == initial.Keys
    ensures forall id :: id in subs ==> subs[id].auto.quantity == initial[id].auto.quantity
  {
  }

  lemma NothingBookkept(initial: Subs, lines: seq<QuantityLine>, tolerated: set<SubId>)
    ensures Bookkept(initial, lines, 0, [], [])
    ensures Later(initial, initial, lines, 0) && AllInStep(lines, 0, initial, tolerated)
  {
  }

  lemma NothingWritten(initial: Subs, lines: seq<QuantityLine>)
    ensures UndoesWritten(initial, lines, 0, {}, [])
  {
  }

  lemma StillBookkept(initial: Subs, lines: seq<QuantityLine>, n: int, m: int, writes: seq<Write>, undo: seq<Write>)
    requires 0 <= n <= m <= |lines| && Bookkept(initial, lines, n, writes, undo)
    ensures Bookkept(initial, lines, m, writes, undo)
  {
  }

  lemma OneMoreBookkept(
    initial: Subs, subs: Subs, lines: seq<QuantityLine>, n: int, writes: seq<Write>, undo: seq<Write>, w: Write,
    u: Write)
    requires 0 <= n < |lines| && DistinctTargets(lines)
    requires Bookkept(initial, lines, n, writes, undo) && Later(initial, subs, lines, n)
    requires lines[n].sub == Some(w.sub) && u.sub == w.sub && w.enabled && u.enabled
    requires w.sub in subs && subs[w.sub].auto.quantity == Some(u.quantity)
    ensures Bookkept(initial, lines, n + 1, writes + [w], undo + [u])
    ensures DistinctWrites(writes + [w])
  {
  }

  /** The line asks for another quantity than the subscription has. */
  predicate OutOfStep(line: QuantityLine, subs: Subs) {
    && line.sub.Some? && line.sub.value in subs
    && subs[line.sub.value].auto.quantity.Some? && subs[line.sub.value].auto.quantity != Some(line.quantity)
  }

  lemma QuantityThere(line: QuantityLine, subs: Subs)
    requires OutOfStep(line, subs)
    ensures line.sub.Some? && line.sub.value in subs && subs[line.sub.value].auto.quantity.Some?
  {
  }

  ghost predicate IsUndone(undo: seq<Write>, id: SubId) {
    exists k :: 0 <= k < |undo| && undo[k].sub == id
  }

  predicate IsWritten(lines: seq<QuantityLine>, j: int, broken: set<int>, initial: Subs, id: SubId) {
    0 <= j < |lines| && j !in broken && OutOfStep(lines[j], initial) && lines[j].sub == Some(id)
  }

  /** What there is to undo after `n` lines: the subscriptions of the lines that were out of step at the
      start, except those of the `broken` lines. */
  ghost predicate UndoesWritten(initial: Subs, lines: seq<QuantityLine>, n: int, broken: set<int>, undo: seq<Write>) {
    && (forall id :: IsUndone(undo, id) ==> exists j :: j < n && IsWritten(lines, j, broken, initial, id))
    && (forall j, id :: j < n && IsWritten(lines, j, broken, initial, id) ==> IsUndone(undo, id))
  }

  lemma OutOfStepStill(initial: Subs, subs: Subs, lines: seq<QuantityLine>, n: int)
    requires 0 <= n < |lines| && DistinctTargets(lines) && Later(initial, subs, lines, n)
    ensures OutOfStep(lines[n], subs) <==> OutOfStep(lines[n], initial)
  {
  }

  lemma NotWritten(
    initial: Subs, lines: seq<QuantityLine>, n: int, broken: set<int>, broken': set<int>, undo: seq<Write>)
    requires 0 <= n < |lines| && UndoesWritten(initial, lines, n, broken, undo)
    requires broken' == broken || broken' == broken + {n}
    requires OutOfStep(lines[n], initial) ==> n in broken'
    ensures UndoesWritten(initial, lines, n + 1, broken', undo)
  {
    forall id | IsUndone(undo, id)
      ensures exists j :: j < n + 1 && IsWritten(lines, j, broken', initial, id)
    {
      var j :| j < n && IsWritten(lines, j, broken, initial, id);
      assert IsWritten(lines, j, broken', initial, id);
    }
    forall j, id | j < n + 1 && IsWritten(lines, j, broken', initial, id)
      ensures IsUndone(undo, id)
    {
      assert j < n && IsWritten(lines, j, broken, initial, id);
    }
  }

  lemma OneMoreWritten(
    initial: Subs, lines: seq<QuantityLine>, n: int, broken: set<int>, undo: seq<Write>, u: Write)
    requires 0 <= n < |lines| && UndoesWritten(initial, lines, n, broken, undo)
    requires forall j :: j in broken ==> j < n
    requires OutOfStep(lines[n], initial) && lines[n].sub == Some(u.sub)
    ensures UndoesWritten(initial, lines, n + 1, broken, undo + [u])
  {
    forall id | IsUndone(undo + [u], id)
      ensures exists j :: j < n + 1 && IsWritten(lines, j, broken, initial, id)
    {
      if IsUndone(undo, id) {
        var j :| j < n && IsWritten(lines, j, broken, initial, id);
      } else {
        assert IsWritten(lines, n, broken, initial, id);
      }
    }
    forall j, id | j < n + 1 && IsWritten(lines, j, broken, initial, id)
      ensures IsUndone(undo + [u], id)
    {
      if j < n {
        assert IsUndone(undo, id);
        var k :| 0 <= k < |undo| && undo[k].sub == id;
        assert (undo + [u])[k].sub == id;
      } else {
        assert (undo + [u])[|undo|].sub == id;
      }
    }
  }

  /** Every subscription that is written was renewing to begin with. */
  ghost predicate WrittenWereEnabled(initial: Subs, lines: seq<QuantityLine>, broken: set<int>) {
    forall j :: 0 <= j < |lines| && j !in broken && OutOfStep(lines[j], initial) ==>
                  initial[lines[j].sub.value].auto.enabled
  }

  /** The whole rollback, in terms of the order's lines and the start. */
  lemma RolledBackIsRestoredIff(
    initial: Subs, before: Subs, subs: Subs, lines: seq<QuantityLine>, broken: set<int>, writes: seq<Write>,
    undo: seq<Write>)
    requires Bookkeeping(initial, writes, undo) && Moved(initial, before, writes)
    requires Undone(initial, before, subs, undo, |undo|)
    requires UndoesWritten(initial, lines, |lines|, broken, undo)
    ensures subs == initial <==> WrittenWereEnabled(initial, lines, broken)
  {
    hide Moved, Undone;
    UndoneIsRestoredIff(initial, before, subs, writes, undo);
    if WrittenWereEnabled(initial, lines, broken) {
      forall k | 0 <= k < |undo|
        ensures initial[undo[k].sub].auto.enabled
      {
        assert IsUndone(undo, undo[k].sub);
        var j :| j < |lines| && IsWritten(lines, j, broken, initial, undo[k].sub);
      }
    } else {
      var j :| 0 <= j < |lines| && j !in broken && OutOfStep(lines[j], initial)
        && !initial[lines[j].sub.value].auto.enabled;
      assert IsWritten(lines, j, broken, initial, lines[j].sub.value);
      var k :| 0 <= k < |undo| && undo[k].sub == lines[j].sub.value;
    }
  }

  /** The lines out of step at the start that were not written, with line `n`. */
  function SkippedNext(initial: Subs, lines: seq<QuantityLine>, n: nat, skipped: set<int>, wrote: bool): set<int>
    requires n < |lines|
  {
    if wrote || !OutOfStep(lines[n], initial) then skipped else skipped + {n}
  }

  /** The state after `n` lines: those out of step at the start were written, except the `skipped` ones,
      whose write was refused. */
  ghost predicate WrittenUpTo(initial: Subs, subs: Subs, lines: seq<QuantityLine>, n: int, skipped: set<int>) {
    && subs.Keys == initial.Keys
    && (forall j, id :: j < n && IsWritten(lines, j, skipped, initial, id) ==>
                          subs[id] == Written(initial[id], Write(id, true, lines[j].quantity)))
    && (forall id :: id in initial && (forall j :: j < n ==> !IsWritten(lines, j, skipped, initial, id)) ==>
                       subs[id] == initial[id])
  }

  lemma NoneWritten(initial: Subs, lines: seq<QuantityLine>)
    ensures WrittenUpTo(initial, initial, lines, 0, {})
  {
  }

  lemma WrittenNext(
    initial: Subs, before: Subs, after: Subs, lines: seq<QuantityLine>, n: nat, skipped: set<int>, wrote: bool)
    requires n < |lines| && DistinctTargets(lines) && WrittenUpTo(initial, before, lines, n, skipped)
    requires forall j :: j in skipped ==> j < n
    requires wrote ==> OutOfStep(lines[n], initial)
    requires after == if wrote then before[lines[n].sub.value :=
                                             Written(before[lines[n].sub.value],
                                                     Write(lines[n].sub.value, true, lines[n].quantity))]
                      else before
    ensures WrittenUpTo(initial, after, lines, n + 1, SkippedNext(initial, lines, n, skipped, wrote))
  {
    hide Written;
    var skipped' := SkippedNext(initial, lines, n, skipped, wrote);
    forall j, id | j < n
      ensures IsWritten(lines, j, skipped', initial, id) == IsWritten(lines, j, skipped, initial, id)
    {
    }
    if wrote {
      var id := lines[n].sub.value;
      assert IsWritten(lines, n, skipped', initial, id);
      assert forall j :: j < n ==> !IsWritten(lines, j, skipped, initial, id);
    }
  }

  ghost predicate NothingOutOfStep(initial: Subs, lines: seq<QuantityLine>, n: int, skipped: set<int>) {
    forall j :: 0 <= j < n && j < |lines| && j !in skipped ==> !OutOfStep(lines[j], initial)
  }

  /** An error that is not handled leaves everything as it was if and only if no line before it was out of
      step, apart from those whose write was refused. */
  lemma UnwrittenIff(initial: Subs, subs: Subs, lines: seq<QuantityLine>, n: nat, skipped: set<int>)
    requires n <= |lines| && WrittenUpTo(initial, subs, lines, n, skipped)
    ensures subs == initial <==> NothingOutOfStep(initial, lines, n, skipped)
  {
    if j :| 0 <= j < n && j !in skipped && OutOfStep(lines[j], initial) {
      var id := lines[j].sub.value;
      assert IsWritten(lines, j, skipped, initial, id);
      assert subs[id] == Written(initial[id], Write(id, true, lines[j].quantity));
      assert subs[id].auto.quantity != initial[id].auto.quantity;
    }
  }

  /** A concrete one: the first line is written, the subscription of the second cannot be read, and the
      first keeps its new quantity. */
  lemma WrittenAndLeft(sub: Subscription)
    requires sub.auto.quantity == Some(10)
    ensures var initial, lines := map[1 := sub, 2 := sub], [QuantityLine(Some(1), 20), QuantityLine(Some(2), 20)];
            var left := initial[1 := Written(sub, Write(1, true, 20))];
            WrittenUpTo(initial, left, lines, 1, {}) && left != initial
  {
    var initial, lines := map[1 := sub, 2 := sub], [QuantityLine(Some(1), 20), QuantityLine(Some(2), 20)];
    var left := initial[1 := Written(sub, Write(1, true, 20))];
    NoneWritten(initial, lines);
    WrittenNext(initial, initial, left, lines, 0, {}, true);
    assert left[1].auto.quantity == Some(20);
  }

  /** One line, whatever came of it. */
  lemma LineDone(
    initial: Subs, before: Subs, after: Subs, lines: seq<QuantityLine>, n: nat, skipped: set<int>, wrote: bool)
    requires n < |lines| && DistinctTargets(lines) && WrittenUpTo(initial, before, lines, n, skipped)
    requires Later(initial, before, lines, n) && forall j :: j in skipped ==> j < n
    requires wrote ==> OutOfStep(lines[n], before)
    requires after == if wrote then before[lines[n].sub.value :=
                                             Written(before[lines[n].sub.value],
                                                     Write(lines[n].sub.value, true, lines[n].quantity))]
                      else before
    ensures WrittenUpTo(initial, after, lines, n + 1, SkippedNext(initial, lines, n, skipped, wrote))
    ensures Later(initial, after, lines, n + 1) && before.Keys == initial.Keys
    ensures OutOfStep(lines[n], before) <==> OutOfStep(lines[n], initial)
  {
    hide WrittenUpTo;
    OutOfStepStill(initial, before, lines, n);
    LaterNext(initial, before, after, lines, n);
    WrittenNext(initial, before, after, lines, n, skipped, wrote);
  }

  /** What the loop over the lines has come to after `n` of them; `clean` says that no answer was lost. */
  ghost predicate Progress(
    initial: Subs, subs: Subs, lines: seq<QuantityLine>, n: int, writes: seq<Write>, undo: seq<Write>,
    tolerated: set<SubId>, broken: set<int>, skipped: set<int>, clean: bool)
    requires 0 <= n <= |lines|
  {
    && Bookkept(initial, lines, n, writes, undo) && UndoesWritten(initial, lines, n, broken, undo)
    && (clean ==> Moved(initial, subs, writes) && broken <= skipped)
    && Later(initial, subs, lines, n) && (broken == {} ==> AllInStep(lines, n, subs, tolerated))
    && (forall j :: j in broken ==> 0 <= j < n && OutOfStep(lines[j], initial))
    && WrittenUpTo(initial, subs, lines, n, skipped) && (forall j :: j in skipped ==> j < n)
  }

  lemma NoProgress(initial: Subs, lines: seq<QuantityLine>, tolerated: set<SubId>)
    ensures Progress(initial, initial, lines, 0, [], [], tolerated, {}, {}, true)
  {
    NothingMoved(initial);
    NothingBookkept(initial, lines, tolerated);
    NothingWritten(initial, lines);
    NoneWritten(initial, lines);
  }

  lemma ProgressMade(
    initial: Subs, subs: Subs, lines: seq<QuantityLine>, writes: seq<Write>, undo: seq<Write>, tolerated: set<SubId>,
    broken: set<int>, skipped: set<int>, clean: bool)
    requires Progress(initial, subs, lines, |lines|, writes, undo, tolerated, broken, skipped, clean)
    ensures Bookkept(initial, lines, |lines|, writes, undo) && UndoesWritten(initial, lines, |lines|, broken, undo)
    ensures clean ==> Moved(initial, subs, writes) && broken <= skipped
    ensures broken == {} ==> AllInStep(lines, |lines|, subs, tolerated)
    ensures forall j :: j in broken ==> 0 <= j < |lines| && OutOfStep(lines[j], initial)
    ensures WrittenUpTo(initial, subs, lines, |lines|, skipped)
  {
  }

  /** One more line, unless an error ended it. */
  lemma ProgressNext(
    initial: Subs, before: Subs, after: Subs, lines: seq<QuantityLine>, n: nat, result: LineResult, wrote: bool,
    writes: seq<Write>, undo: seq<Write>, writes': seq<Write>, undo': seq<Write>, tolerated: set<SubId>,
    tolerated': set<SubId>, broken: set<int>, skipped: set<int>, clean: bool, clean': bool)
    requires n < |lines| && DistinctTargets(lines) && !result.Stuck?
    requires Progress(initial, before, lines, n, writes, undo, tolerated, broken, skipped, clean)
    requires tolerated <= tolerated' && (clean' ==> clean && !(result.Broken? && wrote))
    requires wrote ==> OutOfStep(lines[n], before) && !result.InStep?
    requires after == if wrote then before[lines[n].sub.value :=
                                             Written(before[lines[n].sub.value],
                                                     Write(lines[n].sub.value, true, lines[n].quantity))]
                      else before
    requires result.InStep? <==> !OutOfStep(lines[n], before)
    requires result.InStep? && lines[n].sub.Some? ==>
               lines[n].sub.value in after && after[lines[n].sub.value].auto.quantity == Some(lines[n].quantity)
    requires if result.Recorded? then
               && OutOfStep(lines[n], before) && (wrote || lines[n].sub.value in tolerated')
               && writes' == writes + [Write(lines[n].sub.value, true, lines[n].quantity)]
               && undo' == undo + [Write(lines[n].sub.value, true, before[lines[n].sub.value].auto.quantity.value)]
             else writes' == writes && undo' == undo
    ensures Progress(
              initial, after, lines, n + 1, writes', undo', tolerated', if result.Broken? then broken + {n} else broken,
              SkippedNext(initial, lines, n, skipped, wrote), clean')
    ensures OutOfStep(lines[n], before) <==> OutOfStep(lines[n], initial)
  {
    hide Moved, Written, Bookkept, AllInStep, Later, UndoesWritten, OutOfStep, WrittenUpTo, DistinctTargets;
    hide DistinctWrites;
    LineDone(initial, before, after, lines, n, skipped, wrote);
    StillBookkept(initial, lines, n, n + 1, writes, undo);
    if OutOfStep(lines[n], before) {
      QuantityThere(lines[n], before);
    }
    if !result.Broken? {
      InStepNext(lines, n, before, after, tolerated, tolerated', wrote);
    }
    if result.Recorded? {
      OneMoreBookkept(initial, before, lines, n, writes, undo, writes'[|writes|], undo'[|undo|]);
      OneMoreWritten(initial, lines, n, broken, undo, undo'[|undo|]);
      if clean' {
        OneMoreWrite(initial, before, after, writes, writes'[|writes|]);
      }
    } else {
      NotWritten(initial, lines, n, broken, if result.Broken? then broken + {n} else broken, undo);
    }
  }

  /** An error that ends the loop at line `n`, whose write may be in effect. */
  lemma ProgressEnds(
    initial: Subs, before: Subs, after: Subs, lines: seq<QuantityLine>, n: nat, wrote: bool, writes: seq<Write>,
    undo: seq<Write>, tolerated: set<SubId>, broken: set<int>, skipped: set<int>, clean: bool)
    requires n < |lines| && DistinctTargets(lines)
    requires Progress(initial, before, lines, n, writes, undo, tolerated, broken, skipped, clean)
    requires wrote ==> OutOfStep(lines[n], before)
    requires after == if wrote then before[lines[n].sub.value :=
                                             Written(before[lines[n].sub.value],
                                                     Write(lines[n].sub.value, true, lines[n].quantity))]
                      else before
    ensures Bookkept(initial, lines, |lines|, writes, undo)
    ensures WrittenUpTo(initial, after, lines, if wrote then n + 1 else n, skipped)
    ensures forall j :: j in broken ==> 0 <= j < |lines| && OutOfStep(lines[j], initial)
  {
    hide Written, Bookkept, AllInStep, Later, UndoesWritten, OutOfStep, WrittenUpTo, DistinctTargets;
    LineDone(initial, before, after, lines, n, skipped, wrote);
    StillBookkept(initial, lines, n, |lines|, writes, undo);
  }

  /** A refused call is logged. */
  ghost predicate CallsLogged(before: nat, after: nat, history: seq<Subs>, history': seq<Subs>) {
    history <= history' && (before < after ==> |history| < |history'|)
  }

  lemma NothingLogged(subs: Subs, history: seq<Subs>, count: nat)
    ensures LogsTo(subs, history, subs, history) && CallsLogged(count, count, history, history)
  {
  }

  lemma CallsLoggedTwice(
    first: nat, second: nat, third: nat, history: seq<Subs>, history': seq<Subs>, history'': seq<Subs>)
    requires CallsLogged(first, second, history, history') && CallsLogged(second, third, history', history'')
    ensures CallsLogged(first, third, history, history'')
  {
  }

  /** At some moment since `from`, all lines were written but the skipped ones. */
  ghost predicate WasWritten(
    initial: Subs, history: seq<Subs>, from: nat, lines: seq<QuantityLine>, skipped: set<int>)
  {
    exists h :: from <= h < |history| && WrittenUpTo(initial, history[h], lines, |lines|, skipped)
  }

  lemma WrittenThen(
    initial: Subs, written: seq<Subs>, history: seq<Subs>, from: nat, lines: seq<QuantityLine>, skipped: set<int>)
    requires from < |written| && written <= history
    requires WrittenUpTo(initial, written[|written|-1], lines, |lines|, skipped)
    ensures WasWritten(initial, history, from, lines, skipped)
  {
    hide WrittenUpTo;
    assert history[|written|-1] == written[|written|-1];
  }

  /** No more lines are broken or skipped than calls were refused. */
  ghost predicate RefusedFor(broken: set<int>, skipped: set<int>, before: nat, after: nat) {
    before <= after && |broken + skipped| <= after - before
  }

  lemma OneMoreRefused(broken: set<int>, skipped: set<int>, first: nat, before: nat, after: nat, i: int)
    requires RefusedFor(broken, skipped, first, before) && before <= after
    ensures RefusedFor(broken, skipped, first, after)
    ensures before < after ==>
              && RefusedFor(broken + {i}, skipped, first, after) && RefusedFor(broken, skipped + {i}, first, after)
              && RefusedFor(broken + {i}, skipped + {i}, first, after)
  {
    var all := broken + skipped;
    assert |all + {i}| <= |all| + 1;
    assert (broken + {i}) + skipped == broken + (skipped + {i}) == (broken + {i}) + (skipped + {i}) == all + {i};
  }

  lemma StillRefused(broken: set<int>, skipped: set<int>, first: nat, before: nat, after: nat)
    requires RefusedFor(broken, skipped, first, before) && before <= after
    ensures RefusedFor(broken, skipped, first, after)
    ensures broken != {} ==> first < before
  {
    if first == before {
      NoneRefused(broken, skipped, first);
    }
  }

  lemma NoneRefused(broken: set<int>, skipped: set<int>, count: nat)
    ensures RefusedFor({}, {}, count, count)
    ensures RefusedFor(broken, skipped, count, count) ==> broken == skipped == {}
  {
    if RefusedFor(broken, skipped, count, count) {
      assert broken + skipped == {};
      assert broken <= broken + skipped && skipped <= broken + skipped;
    }
  }

  class QuantityStep {
    const service: SubscriptionService
    var updated: seq<Write>
    ghost var writes: seq<Write>
    // Subscriptions whose write was refused with an error that is let off.
    ghost var tolerated: set<SubId>

    constructor (service: SubscriptionService)
      ensures this.service == service
    {
      this.service := service;
      updated, writes, tolerated := [], [], {};
    }

    /** _update_line. `updated` keeps the compensating write; `code` is the error of a refused PATCH, and
        `wrote` says whether the quantity was written. */
    method UpdateLine(line: QuantityLine, order: NewOrder, code: ErrorCode)
      returns (result: LineResult, ghost wrote: bool)
      modifies service, `updated, `writes, `tolerated
      ensures service.torn >= old(service.torn) && service.refused >= old(service.refused)
      ensures old(tolerated) <= tolerated
      ensures LogsTo(old(service.subs), old(service.history), service.subs, service.history)
      ensures CallsLogged(old(service.refused), service.refused, old(service.history), service.history)
      ensures wrote ==> OutOfStep(line, old(service.subs)) && !result.InStep?
      ensures service.subs ==
              if wrote then old(service.subs)[line.sub.value :=
                              Written(old(service.subs)[line.sub.value], Write(line.sub.value, true, line.quantity))]
              else old(service.subs)
      ensures result.Recorded? ==>
                && OutOfStep(line, old(service.subs)) && (wrote || line.sub.value in tolerated)
                && writes == old(writes) + [Write(line.sub.value, true, line.quantity)]
                && updated == old(updated) + [Write(line.sub.value, true,
                                                    old(service.subs)[line.sub.value].auto.quantity.value)]
      ensures !result.Recorded? ==> updated == old(updated) && writes == old(writes)
      ensures !result.Stuck? ==> (result.InStep? <==> !OutOfStep(line, old(service.subs)))
      ensures result.InStep? && line.sub.Some? ==>
                line.sub.value in service.subs && service.subs[line.sub.value].auto.quantity == Some(line.quantity)
      ensures result.Broken? && wrote ==> service.torn > old(service.torn)
      ensures service.refused == old(service.refused) ==>
                !result.Broken? && (result.Recorded? ==> wrote) && tolerated == old(tolerated)
      ensures service.refused > old(service.refused) ==>
                && OutOfStep(line, old(service.subs))
                && (result.Recorded? || result == Broken(code))
                // let off: an increase refused for its renewal state, unless the NEW order has the item and is not
                // complete, and an expired offer once there is a NEW order
                && (result.Recorded? <==>
                      || (code.OfferExpired? && (order.WithoutItem? || order.WithItem?))
                      || (code.InvalidRenewalState? && order != WithItem(false)
                          && old(service.subs)[line.sub.value].auto.quantity.value < line.quantity))
    {
      wrote := false;
      if line.sub.None? {
        return InStep, wrote;
      }
      var id := line.sub.value;
      var readable: bool := *;
      if !readable || id !in service.subs || service.subs[id].auto.quantity.None? {
        return Stuck, wrote;
      }
      var oldQuantity := service.subs[id].auto.quantity.value;
      if oldQuantity == line.quantity {
        return InStep, wrote;
      }
      var answer := service.UpdateSubscription(id, true, Some(line.quantity), None);
      wrote := service.subs != old(service.subs);
      assert answer.Ok? || service.torn > old(service.torn) ==> service.subs[id].auto.quantity == Some(line.quantity);
      if answer.Cut? {
        return Stuck, wrote;
      }
      if answer.Failing? {
        if !IsTolerated(code, oldQuantity, line.quantity, order) {
          return Broken(code), wrote;
        }
        tolerated := tolerated + {id};
      }
      updated := updated + [Write(id, true, oldQuantity)];
      writes := writes + [Write(id, true, line.quantity)];
      return Recorded, wrote;
    }

    /** _update_lines: a refused write does not stop the loop, and the last error is kept; an error that is
        not handled is raised. The first `at` lines were written, except the `skipped` ones. */
    method UpdateLines(lines: seq<QuantityLine>, orders: seq<NewOrder>)
      returns (failed: Option<ErrorCode>, raised: bool, ghost broken: set<int>, ghost at: nat, ghost skipped: set<int>)
      requires |orders| == |lines| && DistinctTargets(lines)
      modifies service, `updated, `writes, `tolerated
      ensures Bookkept(old(service.subs), lines, |lines|, writes, updated)
      ensures service.torn >= old(service.torn)
      ensures !raised && service.torn == old(service.torn) ==> Moved(old(service.subs), service.subs, writes)
      ensures failed.None? && !raised ==> AllInStep(lines, |lines|, service.subs, tolerated)
      ensures failed.Some? <==> broken != {}
      ensures forall j :: j in broken ==> 0 <= j < |lines| && OutOfStep(lines[j], old(service.subs))
      ensures !raised ==> UndoesWritten(old(service.subs), lines, |lines|, broken, updated)
      ensures at <= |lines| && (!raised ==> at == |lines|)
      ensures WrittenUpTo(old(service.subs), service.subs, lines, at, skipped)
      ensures RefusedFor(broken, skipped, old(service.refused), service.refused)
      ensures !raised && service.torn == old(service.torn) ==> broken <= skipped
      ensures LogsTo(old(service.subs), old(service.history), service.subs, service.history)
      ensures CallsLogged(old(service.refused), service.refused, old(service.history), service.history)
      ensures service.refused >= old(service.refused)
      ensures service.refused == old(service.refused) ==> tolerated == {}
    {
      hide Moved, Written, Patched, Bookkept, AllInStep, UndoesWritten, OutOfStep, WrittenUpTo, DistinctTargets;
      hide IsTolerated, RefusedFor, Progress, LogsTo, CallsLogged;
      NothingLogged(service.subs, service.history, service.refused);
      failed, raised, broken, at, skipped := None, false, {}, 0, {};
      updated, writes, tolerated := [], [], {};
      NoProgress(service.subs, lines, tolerated);
      NoneRefused({}, {}, service.refused);
      for i := 0 to |lines|
        invariant service.torn >= old(service.torn) && at == i && (failed.Some? <==> broken != {})
        invariant Progress(old(service.subs), service.subs, lines, i, writes, updated, tolerated, broken, skipped,
                           service.torn == old(service.torn))
        invariant RefusedFor(broken, skipped, old(service.refused), service.refused)
        invariant service.refused >= old(service.refused)
        invariant LogsTo(old(service.subs), old(service.history), service.subs, service.history)
        invariant CallsLogged(old(service.refused), service.refused, old(service.history), service.history)
        invariant service.refused == old(service.refused) ==> tolerated == {}
      {
        ghost var before, writes0, updated0, tolerated0 := service.subs, writes, updated, tolerated;
        ghost var refused0, torn0, history0 := service.refused, service.torn, service.history;
        var code: ErrorCode := *;
        ghost var wrote;
        var result;
        result, wrote := UpdateLine(lines[i], orders[i], code);
        OneMoreRefused(broken, skipped, old(service.refused), refused0, service.refused, i);
        LogsTwice(old(service.subs), old(service.history), before, history0, service.subs, service.history);
        CallsLoggedTwice(
          old(service.refused), refused0, service.refused, old(service.history), history0, service.history);
        if result.Stuck? {
          ProgressEnds(old(service.subs), before, service.subs, lines, i, wrote, writes, updated, tolerated0, broken,
                       skipped, torn0 == old(service.torn));
          at := if wrote then i + 1 else i;
          return failed, true, broken, at, skipped;
        }
        ProgressNext(old(service.subs), before, service.subs, lines, i, result, wrote, writes0, updated0, writes,
                     updated, tolerated0, tolerated, broken, skipped, torn0 == old(service.torn),
                     service.torn == old(service.torn));
        if result.Broken? {
          failed, broken := Some(result.code), broken + {i};
        }
        at, skipped := i + 1, SkippedNext(old(service.subs), lines, i, skipped, wrote);
      }
      ProgressMade(old(service.subs), service.subs, lines, writes, updated, tolerated, broken, skipped,
                   service.torn == old(service.torn));
    }

    /** _rollback_updated_subscriptions: the first error ends it; the NEW order is returned last. */
    method Rollback(hasNewOrder: bool, ghost initial: Subs) returns (complete: bool)
      requires Bookkeeping(initial, writes, updated)
      modifies service
      ensures service.torn >= old(service.torn) && service.refused >= old(service.refused)
      ensures old(service.history) <= service.history
      ensures complete && Moved(initial, old(service.subs), writes) ==>
                Undone(initial, old(service.subs), service.subs, updated, |updated|)
    {
      hide Moved, Patched, Undone;
      if Moved(initial, service.subs, writes) {
        NothingUndone(initial, service.subs, writes, updated);
      }
      for i := 0 to |updated|
        invariant service.torn >= old(service.torn) && service.refused >= old(service.refused)
        invariant old(service.history) <= service.history
        invariant Moved(initial, old(service.subs), writes) ==>
                    Undone(initial, old(service.subs), service.subs, updated, i)
      {
        ghost var before := service.subs;
        var result := service.UpdateSubscription(updated[i].sub, true, Some(updated[i].quantity), None);
        if !result.Ok? {
          return false;
        }
        if Moved(initial, old(service.subs), writes) {
          assert service.subs == before[updated[i].sub := Written(before[updated[i].sub], updated[i])];
          OneMoreUndone(initial, old(service.subs), before, service.subs, writes, updated, i);
        }
      }
      var accepted: bool := *;
      return !hasNewOrder || accepted;
    }

    /** The step: write every line; on a refusal undo what was written. `broken` are the lines whose write
        was refused and not let off, `skipped` all that were refused.
        A complete rollback restores every renewal quantity, and everything if and only if the other lines
        that were out of step belong to subscriptions that were enabled: the compensating write always
        enables auto-renewal. */
    method Run(lines: seq<QuantityLine>, orders: seq<NewOrder>, hasNewOrder: bool)
      returns (result: Result, failed: Option<ErrorCode>, ghost broken: set<int>, ghost at: nat,
               ghost skipped: set<int>)
      requires |orders| == |lines| && DistinctTargets(lines)
      modifies service, `updated, `writes, `tolerated
      ensures result.Updated? ==> failed.None? && AllInStep(lines, |lines|, service.subs, tolerated)
      ensures forall j :: j in broken ==> 0 <= j < |lines| && OutOfStep(lines[j], old(service.subs))
      ensures result.RolledBack? ==>
                && failed.Some? && broken != {}
                && (result.orderFailed <==> failed.value.InvalidRenewalState? || failed.value.InactiveNotEditable?)
      ensures result.RolledBack? && result.complete && service.torn == old(service.torn) ==>
                && service.subs.Keys == old(service.subs).Keys
                && (forall id :: id in service.subs ==>
                                   service.subs[id].auto.quantity == old(service.subs)[id].auto.quantity)
                && (service.subs == old(service.subs) <==> WrittenWereEnabled(old(service.subs), lines, broken))
      // before the rollback there was a moment with all lines written but the skipped ones
      ensures result.RolledBack? ==>
                WasWritten(old(service.subs), service.history, |old(service.history)|, lines, skipped)
      ensures result.RolledBack? && service.torn == old(service.torn) ==> broken <= skipped
      // an error that is not handled leaves the writes made before it
      ensures result.Raised? ==>
                && !result.undoing && at <= |lines| && WrittenUpTo(old(service.subs), service.subs, lines, at, skipped)
                && (service.subs == old(service.subs) <==> NothingOutOfStep(old(service.subs), lines, at, skipped))
      // every broken and every skipped line had a call refused, so without a refusal there is none
      ensures RefusedFor(broken, skipped, old(service.refused), service.refused)
      ensures service.refused == old(service.refused) ==>
                broken == {} && skipped == {} && tolerated == {} && !result.RolledBack?
    {
      hide Moved, Undone, Patched, UndoesWritten, WrittenWereEnabled, OutOfStep, WrittenUpTo, NothingOutOfStep;
      hide RefusedFor;
      ghost var initial := service.subs;
      var raised;
      failed, raised, broken, at, skipped := UpdateLines(lines, orders);
      ghost var refused, written := service.refused, service.history;
      NoneRefused(broken, skipped, refused);
      if raised {
        UnwrittenIff(initial, service.subs, lines, at, skipped);
        return Result.Raised(false), failed, broken, at, skipped;
      }
      if failed.None? {
        return Updated, failed, broken, at, skipped;
      }
      ghost var before := service.subs;
      var complete := Rollback(hasNewOrder, initial);
      StillRefused(broken, skipped, old(service.refused), refused, service.refused);
      WrittenThen(initial, written, service.history, |old(service.history)|, lines, skipped);
      if complete && service.torn == old(service.torn) {
        RolledBackIsRestoredIff(initial, before, service.subs, lines, broken, writes, updated);
        QuantitiesAreBack(initial, before, service.subs, writes, updated);
      }
      var code := failed.value;
      result := RolledBack(complete, code.InvalidRenewalState? || code.InactiveNotEditable?);
    }
  }

  /******* Configuration orders: auto-renewal flags *******/

  // The flag the order asks for and the quantity of the subscription's line at MPT.
  datatype FlagLine = FlagLine(sub: SubId, desired: bool, quantity: nat)

  ghost predicate DistinctFlags(lines: seq<FlagLine>) {
    forall i, j :: 0 <= i < j < |lines| ==> lines[i].sub != lines[j].sub
  }

  /** Each write flips a flag; the compensating one flips it back and sends the MPT quantity again. */
  ghost predicate FlagsKept(initial: Subs, lines: seq<FlagLine>, n: int, writes: seq<Write>, undo: seq<Write>)
    requires 0 <= n <= |lines|
  {
    && |undo| == |writes| && DistinctWrites(writes)
    && (forall k :: 0 <= k < |writes| ==>
                      && writes[k].sub in initial
                      && undo[k] == Write(writes[k].sub, !writes[k].enabled, writes[k].quantity)
                      && initial[writes[k].sub].auto.enabled == undo[k].enabled)
    && (forall k :: 0 <= k < |writes| ==> ForSomeFlag(lines, n, writes[k]))
  }

  ghost predicate ForSomeFlag(lines: seq<FlagLine>, n: int, w: Write)
    requires 0 <= n <= |lines|
  {
    exists i :: 0 <= i < n && w == Write(lines[i].sub, lines[i].desired, lines[i].quantity)
  }

  predicate IsFlipped(lines: seq<FlagLine>, j: int, initial: Subs) {
    && 0 <= j < |lines| && lines[j].sub in initial
    && initial[lines[j].sub].auto.enabled != lines[j].desired
  }

  /** Every line so far has its flag: written where it was not there, and nothing else has moved. */
  ghost predicate FlagsSet(initial: Subs, subs: Subs, lines: seq<FlagLine>, n: int)
    requires 0 <= n <= |lines|
  {
    && subs.Keys == initial.Keys
    && (forall j :: 0 <= j < n ==>
                      && lines[j].sub in initial
                      && subs[lines[j].sub] ==
                         if IsFlipped(lines, j, initial)
                         then Written(initial[lines[j].sub], Write(lines[j].sub, lines[j].desired, lines[j].quantity))
                         else initial[lines[j].sub])
    && (forall id :: id in initial && (forall k :: 0 <= k < n ==> lines[k].sub != id) ==> subs[id] == initial[id])
  }

  ghost predicate NoneFlipped(initial: Subs, lines: seq<FlagLine>, n: int) {
    forall j :: 0 <= j < n ==> !IsFlipped(lines, j, initial)
  }

  /** An error that is not handled leaves everything as it was if and only if no line before it was
      flipped. */
  lemma UnflippedIff(initial: Subs, subs: Subs, lines: seq<FlagLine>, n: nat)
    requires n <= |lines| && FlagsSet(initial, subs, lines, n)
    ensures subs == initial <==> NoneFlipped(initial, lines, n)
  {
    if j :| 0 <= j < n && IsFlipped(lines, j, initial) {
      assert subs[lines[j].sub].auto.enabled != initial[lines[j].sub].auto.enabled;
    } else {
      forall id | id in initial
        ensures subs[id] == initial[id]
      {
        if k :| 0 <= k < n && lines[k].sub == id {
          assert !IsFlipped(lines, k, initial);
        }
      }
    }
  }

  /** A concrete one: the first flag is written, the second subscription cannot be read, and the first stays
      flipped. */
  lemma FlippedAndLeft(sub: Subscription)
    ensures var initial := map[1 := sub, 2 := sub];
            var lines := [FlagLine(1, !sub.auto.enabled, 10), FlagLine(2, !sub.auto.enabled, 10)];
            var left := initial[1 := Written(sub, Write(1, !sub.auto.enabled, 10))];
            FlagsSet(initial, left, lines, 1) && left != initial
  {
    var initial := map[1 := sub, 2 := sub];
    var lines := [FlagLine(1, !sub.auto.enabled, 10), FlagLine(2, !sub.auto.enabled, 10)];
    var left := initial[1 := Written(sub, Write(1, !sub.auto.enabled, 10))];
    assert lines[0].sub == 1 && IsFlipped(lines, 0, initial);
    assert left[1].auto.enabled != initial[1].auto.enabled;
  }

  lemma FlagAlready(initial: Subs, subs: Subs, lines: seq<FlagLine>, n: nat, writes: seq<Write>, undo: seq<Write>)
    requires n < |lines| && FlagsKept(initial, lines, n, writes, undo) && FlagsSet(initial, subs, lines, n)
    requires DistinctFlags(lines) && lines[n].sub in subs && subs[lines[n].sub].auto.enabled == lines[n].desired
    ensures FlagsKept(initial, lines, n + 1, writes, undo) && FlagsSet(initial, subs, lines, n + 1)
  {
  }

  lemma FlagKeptNext(
    initial: Subs, before: Subs, lines: seq<FlagLine>, n: nat, writes: seq<Write>, undo: seq<Write>, w: Write)
    requires n < |lines| && DistinctFlags(lines)
    requires FlagsKept(initial, lines, n, writes, undo) && FlagsSet(initial, before, lines, n)
    requires w == Write(lines[n].sub, lines[n].desired, lines[n].quantity)
    requires w.sub in before && before[w.sub].auto.enabled != w.enabled
    ensures FlagsKept(initial, lines, n + 1, writes + [w], undo + [Write(w.sub, !w.enabled, w.quantity)])
    ensures DistinctWrites(writes + [w]) && w.sub in initial
  {
  }

  lemma FlagSetNext(initial: Subs, before: Subs, after: Subs, lines: seq<FlagLine>, n: nat, w: Write)
    requires n < |lines| && DistinctFlags(lines) && FlagsSet(initial, before, lines, n)
    requires w == Write(lines[n].sub, lines[n].desired, lines[n].quantity) && w.sub in before
    requires before[w.sub].auto.enabled != w.enabled && after == before[w.sub := Written(before[w.sub], w)]
    ensures FlagsSet(initial, after, lines, n + 1)
  {
  }

  lemma FlagFlipped(
    initial: Subs, before: Subs, after: Subs, lines: seq<FlagLine>, n: nat, writes: seq<Write>, undo: seq<Write>,
    w: Write)
    requires n < |lines| && DistinctFlags(lines)
    requires FlagsKept(initial, lines, n, writes, undo) && FlagsSet(initial, before, lines, n)
             && Moved(initial, before, writes)
    requires w == Write(lines[n].sub, lines[n].desired, lines[n].quantity)
    requires w.sub in before && before[w.sub].auto.enabled != w.enabled
             && after == before[w.sub := Written(before[w.sub], w)]
    ensures FlagsKept(initial, lines, n + 1, writes + [w], undo + [Write(w.sub, !w.enabled, w.quantity)])
    ensures FlagsSet(initial, after, lines, n + 1) && Moved(initial, after, writes + [w])
  {
    hide FlagsKept, FlagsSet, Moved, DistinctWrites;
    FlagKeptNext(initial, before, lines, n, writes, undo, w);
    FlagSetNext(initial, before, after, lines, n, w);
    OneMoreWrite(initial, before, after, writes, w);
  }

  /** Every one of the first `n` lines is there, and the flipped ones have a write to undo. */
  ghost predicate FlipsUndone(initial: Subs, lines: seq<FlagLine>, n: int, undo: seq<Write>)
    requires 0 <= n <= |lines|
  {
    forall j :: 0 <= j < n ==>
                  lines[j].sub in initial && (IsFlipped(lines, j, initial) ==> IsUndone(undo, lines[j].sub))
  }

  lemma FlipsUndoneNext(initial: Subs, lines: seq<FlagLine>, n: nat, undo: seq<Write>, more: seq<Write>)
    requires n < |lines| && FlipsUndone(initial, lines, n, undo) && lines[n].sub in initial
    requires IsFlipped(lines, n, initial) ==> |more| > 0 && more[|more|-1].sub == lines[n].sub
    ensures FlipsUndone(initial, lines, n + 1, undo + more)
  {
    forall j | 0 <= j <= n && IsFlipped(lines, j, initial)
      ensures IsUndone(undo + more, lines[j].sub)
    {
      if j < n {
        var k :| 0 <= k < |undo| && undo[k].sub == lines[j].sub;
        assert (undo + more)[k].sub == lines[j].sub;
      } else {
        assert (undo + more)[|undo| + |more| - 1].sub == lines[n].sub;
      }
    }
  }

  /** The quantities sent along with the first `n` lines' flags were the renewal quantities. */
  ghost predicate SentWhatWasThere(initial: Subs, lines: seq<FlagLine>, n: int)
    requires 0 <= n <= |lines|
  {
    forall j :: 0 <= j < n && IsFlipped(lines, j, initial) ==>
                  initial[lines[j].sub].auto.quantity == Some(lines[j].quantity)
  }

  lemma UndoSendsWhatWasThereIff(initial: Subs, lines: seq<FlagLine>, n: int, writes: seq<Write>, undo: seq<Write>)
    requires 0 <= n <= |lines| && DistinctFlags(lines)
    requires FlagsKept(initial, lines, n, writes, undo) && FlipsUndone(initial, lines, n, undo)
    ensures (forall k :: 0 <= k < |undo| ==> initial[undo[k].sub].auto.quantity == Some(undo[k].quantity)) <==>
            SentWhatWasThere(initial, lines, n)
  {
    forall k | 0 <= k < |undo|
      ensures exists j :: 0 <= j < n && IsFlipped(lines, j, initial)
                          && lines[j].sub == undo[k].sub && lines[j].quantity == undo[k].quantity
    {
      assert ForSomeFlag(lines, n, writes[k]);
      var j :| 0 <= j < n && writes[k] == Write(lines[j].sub, lines[j].desired, lines[j].quantity);
      assert IsFlipped(lines, j, initial);
    }
    forall j | 0 <= j < n && IsFlipped(lines, j, initial)
      ensures exists k :: 0 <= k < |undo| && undo[k].sub == lines[j].sub && undo[k].quantity == lines[j].quantity
    {
      var k :| 0 <= k < |undo| && undo[k].sub == lines[j].sub;
      assert ForSomeFlag(lines, n, writes[k]);
    }
  }

  lemma FlagsKeptMeans(initial: Subs, lines: seq<FlagLine>, n: int, writes: seq<Write>, undo: seq<Write>)
    requires 0 <= n <= |lines| && FlagsKept(initial, lines, n, writes, undo)
    ensures |undo| == |writes| && DistinctWrites(writes)
    ensures forall k :: 0 <= k < |undo| ==> undo[k].sub == writes[k].sub && writes[k].sub in initial
  {
  }

  lemma FlagsSetMeans(initial: Subs, subs: Subs, lines: seq<FlagLine>)
    requires FlagsSet(initial, subs, lines, |lines|)
    ensures forall j :: 0 <= j < |lines| ==> lines[j].sub in subs && subs[lines[j].sub].auto.enabled == lines[j].desired
  {
  }

  lemma NextIsAsAtTheStart(initial: Subs, subs: Subs, lines: seq<FlagLine>, n: nat)
    requires n < |lines| && DistinctFlags(lines) && FlagsSet(initial, subs, lines, n)
    ensures subs.Keys == initial.Keys && (lines[n].sub in subs ==> subs[lines[n].sub] == initial[lines[n].sub])
  {
  }

  lemma NoFlagYet(initial: Subs, lines: seq<FlagLine>)
    ensures FlipsUndone(initial, lines, 0, [])
    ensures FlagsKept(initial, lines, 0, [], []) && FlagsSet(initial, initial, lines, 0) && Moved(initial, initial, [])
  {
  }

  lemma FlagsAreBack(initial: Subs, before: Subs, subs: Subs, lines: seq<FlagLine>, n: int, writes: seq<Write>,
                     undo: seq<Write>)
    requires 0 <= n <= |lines| && FlagsKept(initial, lines, n, writes, undo)
    requires Moved(initial, before, writes) && Undone(initial, before, subs, undo, |undo|)
    ensures subs.Keys == initial.Keys
    ensures forall id :: id in subs ==> subs[id].auto.enabled == initial[id].auto.enabled
    ensures subs == initial <==>
            forall k :: 0 <= k < |undo| ==> initial[undo[k].sub].auto.quantity == Some(undo[k].quantity)
  {
    UndoneIsRestoredIff(initial, before, subs, writes, undo);
    forall id | id in initial
      ensures subs[id].auto.enabled == initial[id].auto.enabled
    {
      if k :| 0 <= k < |undo| && undo[k].sub == id {
        assert subs[undo[k].sub] == Written(initial[undo[k].sub], undo[k]);
      } else {
        assert forall k :: 0 <= k < |writes| ==> writes[k].sub == undo[k].sub;
      }
    }
  }

  predicate WasFlipped(initial: Subs, lines: seq<FlagLine>, n: int, id: SubId) {
    exists j :: 0 <= j < n && j < |lines| && lines[j].sub == id && IsFlipped(lines, j, initial)
  }

  lemma UndoneSoFar(
    initial: Subs, left: Subs, subs: Subs, lines: seq<FlagLine>, n: int, writes: seq<Write>, undo: seq<Write>, k: nat)
    requires 0 <= n <= |lines| && k <= |undo| && FlagsKept(initial, lines, n, writes, undo)
    requires Moved(initial, left, writes) && Undone(initial, left, subs, undo, k)
    ensures subs.Keys == initial.Keys
    ensures forall id :: id in subs && subs[id] != initial[id] ==> WasFlipped(initial, lines, n, id)
  {
    forall m | 0 <= m < |writes|
      ensures WasFlipped(initial, lines, n, writes[m].sub)
    {
      assert ForSomeFlag(lines, n, writes[m]);
      var j :| 0 <= j < n && writes[m] == Write(lines[j].sub, lines[j].desired, lines[j].quantity);
      assert IsFlipped(lines, j, initial);
    }
  }

  /** At some moment since `from`, the first `n` lines were set. */
  ghost predicate WasSet(initial: Subs, history: seq<Subs>, from: nat, lines: seq<FlagLine>, n: int) {
    0 <= n <= |lines| && exists h :: from <= h < |history| && FlagsSet(initial, history[h], lines, n)
  }

  lemma SetThen(initial: Subs, set': seq<Subs>, history: seq<Subs>, from: nat, lines: seq<FlagLine>, n: nat)
    requires from < |set'| && set' <= history && n <= |lines| && FlagsSet(initial, set'[|set'|-1], lines, n)
    ensures WasSet(initial, history, from, lines, n)
  {
    hide FlagsSet;
    assert history[|set'|-1] == set'[|set'|-1];
  }

  class FlagStep {
    const service: SubscriptionService
    var updated: seq<Write>
    ghost var writes: seq<Write>

    constructor (service: SubscriptionService)
      ensures this.service == service
    {
      this.service := service;
      updated, writes := [], [];
    }

    /** rollback_updated_subscriptions: best effort over every updated subscription; only an error that is not
        handled ends it. */
    method Rollback(ghost initial: Subs) returns (complete: bool, raised: bool, ghost undone: nat)
      requires |updated| == |writes| && DistinctWrites(writes)
      requires forall k :: 0 <= k < |writes| ==> updated[k].sub == writes[k].sub
      modifies service
      ensures service.torn >= old(service.torn) && old(service.history) <= service.history
      ensures complete ==> !raised
      ensures raised && service.refused == old(service.refused) && Moved(initial, old(service.subs), writes) ==>
                undone <= |updated| && Undone(initial, old(service.subs), service.subs, updated, undone)
      ensures complete && Moved(initial, old(service.subs), writes) ==>
                Undone(initial, old(service.subs), service.subs, updated, |updated|)
    {
      hide Moved, Patched, Undone, DistinctWrites;
      complete := true;
      ghost var tidy := Moved(initial, service.subs, writes);
      if tidy {
        NothingUndone(initial, service.subs, writes, updated);
      }
      for i := 0 to |updated|
        invariant service.torn >= old(service.torn) && old(service.history) <= service.history
        invariant tidy && complete ==> Undone(initial, old(service.subs), service.subs, updated, i)
        invariant service.refused >= old(service.refused)
        invariant complete <==> service.refused == old(service.refused)
      {
        ghost var before := service.subs;
        var result := service.UpdateSubscription(updated[i].sub, updated[i].enabled, Some(updated[i].quantity), None);
        if result.Cut? {
          undone := i;
          if tidy && complete && service.subs != before {
            OneMoreUndone(initial, old(service.subs), before, service.subs, writes, updated, i);
            undone := i + 1;
          }
          return false, true, undone;
        }
        if tidy && complete && result.Ok? {
          OneMoreUndone(initial, old(service.subs), before, service.subs, writes, updated, i);
        }
        complete := complete && result.Ok?;
      }
      raised, undone := false, |updated|;
    }

    /** SubscriptionUpdateAutoRenewal: the first refusal, at line `at`, rolls back what was updated. A complete
        rollback restores every flag, and everything if and only if the quantities sent along with the
        flipped flags were already the renewal quantities. An error that is not handled, once the first `at`
        lines are set, rolls nothing back. */
    method Run(lines: seq<FlagLine>) returns (result: Result, ghost at: nat)
      requires DistinctFlags(lines)
      modifies service, `updated, `writes
      ensures result.Updated? ==>
                forall j :: 0 <= j < |lines| ==>
                              lines[j].sub in service.subs
                              && service.subs[lines[j].sub].auto.enabled == lines[j].desired
      ensures result.RolledBack? ==> result.orderFailed && at < |lines|
      // before the rollback there was a moment with the lines before the refused one set
      ensures result.RolledBack? && service.torn == old(service.torn) ==>
                WasSet(old(service.subs), service.history, |old(service.history)|, lines, at)
      ensures result.RolledBack? && result.complete && service.torn == old(service.torn) ==>
                && service.subs.Keys == old(service.subs).Keys
                && (forall id :: id in service.subs ==>
                                   service.subs[id].auto.enabled == old(service.subs)[id].auto.enabled)
                && (service.subs == old(service.subs) <==> SentWhatWasThere(old(service.subs), lines, at))
      ensures result.Raised? && !result.undoing ==>
                && at <= |lines| && FlagsSet(old(service.subs), service.subs, lines, at)
                && (service.subs == old(service.subs) <==> NoneFlipped(old(service.subs), lines, at))
      // cut short while undoing, only flipped lines before the refused one can be other than they were
      ensures result.Raised? && result.undoing && service.torn == old(service.torn)
              && service.refused == old(service.refused) + 1 ==>
                && at < |lines| && service.subs.Keys == old(service.subs).Keys
                && forall id :: id in service.subs && service.subs[id] != old(service.subs)[id] ==>
                                  WasFlipped(old(service.subs), lines, at, id)
    {
      hide Moved, Undone, Patched, FlagsKept, FlagsSet, FlipsUndone, SentWhatWasThere, NoneFlipped, WasFlipped;
      ghost var initial := service.subs;
      updated, writes, at := [], [], 0;
      NoFlagYet(initial, lines);
      for i := 0 to |lines|
        invariant FlagsKept(initial, lines, i, writes, updated) && FlagsSet(initial, service.subs, lines, i)
        invariant Moved(initial, service.subs, writes) && service.torn == old(service.torn)
        invariant FlipsUndone(initial, lines, i, updated) && service.refused == old(service.refused)
        invariant old(service.history) <= service.history
      {
        var line := lines[i];
        at := i;
        ghost var before, updated0 := service.subs, updated;
        NextIsAsAtTheStart(initial, before, lines, i);
        var readable: bool := *;
        if !readable {
          UnflippedIff(initial, service.subs, lines, at);
          return Result.Raised(false), at;
        }
        if line.sub in service.subs && service.subs[line.sub].auto.enabled == line.desired {
          FlagAlready(initial, service.subs, lines, i, writes, updated);
          FlipsUndoneNext(initial, lines, i, updated, []);
          assert updated + [] == updated;
        } else {
          var answer := service.UpdateSubscription(line.sub, line.desired, Some(line.quantity), None);
          ghost var w := Write(line.sub, line.desired, line.quantity);
          if answer.Cut? {
            if service.subs != before {
              FlagSetNext(initial, before, service.subs, lines, i, w);
              at := i + 1;
            }
            UnflippedIff(initial, service.subs, lines, at);
            return Result.Raised(false), at;
          }
          if answer.Failing? {
            ghost var left, seen := service.subs, service.history;
            FlagsKeptMeans(initial, lines, i, writes, updated);
            ghost var undone;
            var complete, raised;
            complete, raised, undone := Rollback(initial);
            if raised {
              if service.torn == old(service.torn) && service.refused == old(service.refused) + 1 {
                UndoneSoFar(initial, left, service.subs, lines, i, writes, updated, undone);
              }
              return Result.Raised(true), at;
            }
            if service.torn == old(service.torn) {
              SetThen(initial, seen, service.history, |old(service.history)|, lines, i);
            }
            if complete && service.torn == old(service.torn) {
              FlagsAreBack(initial, left, service.subs, lines, i, writes, updated);
              UndoSendsWhatWasThereIff(initial, lines, i, writes, updated);
            }
            return RolledBack(complete, true), at;
          }
          FlagFlipped(initial, before, service.subs, lines, i, writes, updated, w);
          updated := updated + [Write(line.sub, !line.desired, line.quantity)];
          writes := writes + [w];
          FlipsUndoneNext(initial, lines, i, updated0, [updated[|updated|-1]]);
        }
      }
      FlagsSetMeans(initial, service.subs, lines);
      return Updated, at;
    }
  }
}
