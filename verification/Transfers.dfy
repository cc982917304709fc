/** Bulk migration of memberships: the status and the two counters kept for each transfer, moved on by
    two periodic polls. Every poll that changes a stored transfer brings it closer to an end, so the
    number of such polls is bounded, and the NAV contract is terminated on completion only. */
module Transfers {

  datatype Status = Init | Rescheduled | Running | Failed | Completed | Synchronized | Duplicated

  // The stored record of a transfer, as far as the polls depend on it.
  datatype Record = Record(status: Status, retryCount: nat, rescheduleCount: nat)

  predicate Startable(status: Status) {
    status.Init? || status.Rescheduled?
  }

  predicate Absorbing(status: Status) {
    status.Failed? || status.Completed? || status.Synchronized? || status.Duplicated?
  }

  /** How often a counter with this setting can be raised: the check comes after the increment, so a
      setting below one counts as one. */
  function Limit(setting: int): nat {
    if setting < 1 then 1 else setting
  }

  /** Polls a transfer can still need. */
  function Measure(record: Record, maxRetries: int, maxReschedules: int): int {
    if Startable(record.status) then Limit(maxReschedules) - record.rescheduleCount
       + Limit(maxRetries) - record.retryCount
    else if record.status.Running? then Limit(maxRetries) - record.retryCount
    else 0
  }

  predicate WithinLimits(record: Record, maxRetries: int, maxReschedules: int) {
    && (Startable(record.status) ==> record.rescheduleCount < Limit(maxReschedules) && record.retryCount == 0)
    && (record.status.Running? ==> record.retryCount < Limit(maxRetries))
  }

  /** What a poll may do to a stored record. */
  ghost predicate Polled(before: Record, after: Record, maxRetries: int, maxReschedules: int) {
    || after == before
    || (!Absorbing(before.status)
        && Measure(after, maxRetries, maxReschedules) < Measure(before, maxRetries, maxReschedules))
  }

  // What starting a transfer came to. AlreadyTransferred and NotHandled leave it as it is.
  datatype StartAnswer = AlreadyTransferred | Recoverable | Unrecoverable | NotSubmitted | Submitted | NotHandled

  /** The record once the answer has been saved. */
  function AfterStart(record: Record, answer: StartAnswer, maxReschedules: int): Record {
    match answer
    case AlreadyTransferred => record
    case NotHandled => record
    case Recoverable =>
      var count := record.rescheduleCount + 1;
      Record(if count < maxReschedules then Rescheduled else Failed, record.retryCount, count)
    case Unrecoverable => record.(status := Failed)
    case NotSubmitted => record.(status := Failed)
    case Submitted => record.(status := Running)
  }

  // What checking a running transfer came to, in the order of the checks.
  datatype CheckAnswer =
    | NoAuthorization | Unanswered | StillOpen | UnexpectedStatus | CustomerUnread | SubscriptionsUnread | RenewalsKept
    | Done

  function AfterCheck(record: Record, answer: CheckAnswer, maxRetries: int): Record {
    match answer
    case NoAuthorization => record.(status := Failed)
    case UnexpectedStatus => record.(status := Failed)
    case SubscriptionsUnread => record
    case Done => record.(status := Completed)
    case _ =>
      var count := record.retryCount + 1;
      Record(if count < maxRetries then record.status else Failed, count, record.rescheduleCount)
  }

  /** Every answer that changes a record within the limits keeps it there and uses up a poll. */
  lemma StartDecreases(record: Record, answer: StartAnswer, maxRetries: int, maxReschedules: int)
    requires WithinLimits(record, maxRetries, maxReschedules) && Startable(record.status)
    ensures WithinLimits(AfterStart(record, answer, maxReschedules), maxRetries, maxReschedules)
    ensures Polled(record, AfterStart(record, answer, maxReschedules), maxRetries, maxReschedules)
    ensures AfterStart(record, answer, maxReschedules) == record <==> answer.AlreadyTransferred? || answer.NotHandled?
  {
  }

  lemma CheckDecreases(record: Record, answer: CheckAnswer, maxRetries: int, maxReschedules: int)
    requires WithinLimits(record, maxRetries, maxReschedules) && record.status.Running?
    ensures WithinLimits(AfterCheck(record, answer, maxRetries), maxRetries, maxReschedules)
    ensures Polled(record, AfterCheck(record, answer, maxRetries), maxRetries, maxReschedules)
    ensures AfterCheck(record, answer, maxRetries) == record <==> answer.SubscriptionsUnread?
  {
  }

  class Transfer {
    const maxRetries: int
    const maxReschedules: int
    // The object the poll works on, and the record it is loaded from and saved to.
    var status: Status
    var retryCount: nat
    var rescheduleCount: nat
    var stored: Record
    // Polls that changed the record, calls that terminate the NAV contract, and those of them whose
    // completion was never saved.
    ghost var steps: nat
    ghost var terminations: nat
    ghost var lost: nat

    constructor (maxRetries: int, maxReschedules: int)
      ensures Valid() && stored == Record(Init, 0, 0) && steps == 0 && lost == 0
      ensures this.maxRetries == maxRetries && this.maxReschedules == maxReschedules
    {
      this.maxRetries, this.maxReschedules := maxRetries, maxReschedules;
      status, retryCount, rescheduleCount := Init, 0, 0;
      stored := Record(Init, 0, 0);
      steps, terminations, lost := 0, 0, 0;
    }

    ghost predicate Valid()
      reads this
    {
      && WithinLimits(stored, maxRetries, maxReschedules)
      && steps + Measure(stored, maxRetries, maxReschedules) <= Limit(maxReschedules) + Limit(maxRetries)
      && terminations == lost + if stored.status.Completed? || stored.status.Synchronized? then 1 else 0
    }

    method Load()
      modifies `status, `retryCount, `rescheduleCount
      ensures Record(status, retryCount, rescheduleCount) == stored
    {
      status, retryCount, rescheduleCount := stored.status, stored.retryCount, stored.rescheduleCount;
    }

    /** Save, unless the run dies first. */
    method Save() returns (saved: bool)
      modifies `stored, `steps
      ensures stored == if saved then Record(status, retryCount, rescheduleCount) else old(stored)
      ensures steps == old(steps) + if saved then 1 else 0
    {
      saved := *;
      if saved {
        stored := Record(status, retryCount, rescheduleCount);
        steps := steps + 1;
      }
    }

    method Fail() returns (saved: bool)
      modifies `status, `stored, `steps
      ensures stored == if saved then Record(Failed, retryCount, rescheduleCount) else old(stored)
      ensures steps == old(steps) + if saved then 1 else 0
    {
      status := Failed;
      saved := Save();
    }

    /** check_retries */
    method CheckRetries() returns (saved: bool)
      requires retryCount < Limit(maxRetries)
      modifies `status, `retryCount, `stored, `steps
      ensures retryCount == old(retryCount) + 1
      ensures stored == if !saved then old(stored)
                        else Record(if retryCount < Limit(maxRetries) then old(status) else Failed, retryCount,
                                    rescheduleCount)
      ensures steps == old(steps) + if saved then 1 else 0
    {
      retryCount := retryCount + 1;
      if retryCount < maxRetries {
        saved := Save();
      } else {
        saved := Fail();
      }
    }

    /** check_reschedules */
    method CheckReschedules() returns (saved: bool)
      requires rescheduleCount < Limit(maxReschedules)
      modifies `status, `rescheduleCount, `stored, `steps
      ensures rescheduleCount == old(rescheduleCount) + 1
      ensures stored == if !saved then old(stored)
                        else Record(if rescheduleCount < Limit(maxReschedules) then old(status) else Failed, retryCount,
                                    rescheduleCount)
      ensures steps == old(steps) + if saved then 1 else 0
    {
      rescheduleCount := rescheduleCount + 1;
      if rescheduleCount < maxReschedules {
        saved := Save();
      } else {
        saved := Fail();
      }
    }

    /** start_transfers_for_product, for one transfer: preview it, submit it, and have it running. */
    method Start(answer: StartAnswer) returns (alive: bool)
      requires Valid() && Startable(stored.status)
      modifies this
      ensures Valid() && terminations == old(terminations) && lost == old(lost)
      ensures stored == old(stored) || stored == AfterStart(old(stored), answer, maxReschedules)
      ensures alive ==> stored == AfterStart(old(stored), answer, maxReschedules) && !answer.NotHandled?
      ensures steps == old(steps) + if stored == old(stored) then 0 else 1
      // it runs once it is submitted and that is saved, and only then
      ensures stored.status.Running? <==> answer.Submitted? && stored != old(stored)
      ensures alive && answer.Submitted? ==> stored == old(stored).(status := Running)
      ensures answer.AlreadyTransferred? || answer.NotHandled? || !alive ==> stored == old(stored)
      ensures (answer.AlreadyTransferred? ==> alive) && (answer.NotHandled? ==> !alive)
      ensures alive && (answer.Unrecoverable? || answer.NotSubmitted?) ==> stored == old(stored).(status := Failed)
      ensures alive && answer.Recoverable? ==>
                && stored.rescheduleCount == old(stored).rescheduleCount + 1
                && stored.status == if stored.rescheduleCount < maxReschedules then Rescheduled else Failed
    {
      StartDecreases(stored, answer, maxRetries, maxReschedules);
      Load();
      match answer {
        case NotHandled =>
          alive := false;
        case AlreadyTransferred =>
          alive := true;
        case Recoverable =>
          status := Rescheduled;
          alive := CheckReschedules();
        case Unrecoverable =>
          alive := Fail();
        case NotSubmitted =>
          alive := Fail();
        case Submitted =>
          status := Running;
          alive := Save();
      }
    }

    /** check_running_transfers_for_product, for one transfer. Listing the subscriptions is not guarded:
        its error ends the whole run. */
    method Check(answer: CheckAnswer) returns (alive: bool)
      requires Valid() && stored.status.Running?
      modifies this
      ensures Valid()
      ensures stored == old(stored) || stored == AfterCheck(old(stored), answer, maxRetries)
      ensures alive ==> stored == AfterCheck(old(stored), answer, maxRetries) && !answer.SubscriptionsUnread?
      ensures steps == old(steps) + if stored == old(stored) then 0 else 1
      ensures terminations == old(terminations) + if answer.Done? then 1 else 0
      ensures lost == old(lost) + if answer.Done? && stored == old(stored) then 1 else 0
      // it is completed once everything is done and that is saved, and only then
      ensures stored.status.Completed? <==> answer.Done? && stored != old(stored)
      ensures alive && answer.Done? ==> stored == old(stored).(status := Completed)
      ensures answer.SubscriptionsUnread? ==> !alive
      ensures !alive ==> stored == old(stored)
      ensures alive && (answer.NoAuthorization? || answer.UnexpectedStatus?) ==>
                stored == old(stored).(status := Failed)
      ensures alive && (answer.Unanswered? || answer.StillOpen? || answer.CustomerUnread? || answer.RenewalsKept?) ==>
                && stored.retryCount == old(stored).retryCount + 1
                && stored.status == if stored.retryCount < maxRetries then Running else Failed
    {
      CheckDecreases(stored, answer, maxRetries, maxReschedules);
      Load();
      if answer.NoAuthorization? || answer.UnexpectedStatus? {
        alive := Fail();
      } else if answer.SubscriptionsUnread? {
        alive := false;
      } else if answer.Done? {
        terminations := terminations + 1;
        status := Completed;
        alive := Save();
        if !alive {
          lost := lost + 1;
        }
      } else {
        alive := CheckRetries();
      }
    }

    /** The migration order completes a transfer for good. */
    method Synchronize()
      requires Valid() && stored.status.Completed?
      modifies `stored
      ensures Valid() && stored == old(stored).(status := Synchronized)
    {
      stored := stored.(status := Synchronized);
    }

    /** A new transfer can be set aside in Airtable as a duplicate; no flow does it. */
    method MarkDuplicated()
      requires Valid() && stored.status.Init?
      modifies `stored
      ensures Valid() && stored == old(stored).(status := Duplicated)
    {
      stored := stored.(status := Duplicated);
    }

    /** Any history of polls, from a new transfer on: at most maxReschedules +
        maxRetries polls change it, and its contract is terminated once, on completion, if and only
        if no run died between the call and the save. */
    method Live(polls: nat)
      requires Valid()
      modifies this
      ensures Valid() && steps <= Limit(maxReschedules) + Limit(maxRetries)
      ensures stored.status.Running? ==> stored.retryCount < Limit(maxRetries)
      ensures lost == 0 <==> terminations == if stored.status.Completed? || stored.status.Synchronized? then 1 else 0
    {
      for i := 0 to polls
        invariant Valid()
      {
        var synchronized, duplicate: bool := *, *;
        var started: StartAnswer := *;
        var checked: CheckAnswer := *;
        var alive := true;
        if stored.status.Init? && duplicate {
          MarkDuplicated();
        } else if Startable(stored.status) {
          alive := Start(started);
        } else if stored.status.Running? {
          alive := Check(checked);
        } else if stored.status.Completed? && synchronized {
          Synchronize();
        }
      }
    }
  }

  /** Polls that changed the record. */
  function Changes(trace: seq<Record>): nat {
    if |trace| < 2 then 0
    else Changes(trace[..|trace|-1]) + if trace[|trace|-2] == trace[|trace|-1] then 0 else 1
  }

  /** Whatever the polls answer, only Measure-many of them change a record, and none does once its
      status is failed, completed, synchronized or duplicated. */
  lemma {:induction false} PollsAreBounded(trace: seq<Record>, maxRetries: int, maxReschedules: int)
    requires trace != []
    requires forall i :: 0 <= i < |trace| - 1 ==> Polled(trace[i], trace[i+1], maxRetries, maxReschedules)
    ensures Changes(trace) <= Measure(trace[0], maxRetries, maxReschedules)
            - Measure(trace[|trace|-1], maxRetries, maxReschedules)
    ensures forall i :: 0 <= i < |trace| && Absorbing(trace[i].status) ==> trace[|trace|-1] == trace[i]
  {
    if |trace| > 1 {
      var front := trace[..|trace|-1];
      forall i | 0 <= i < |front| - 1
        ensures Polled(front[i], front[i+1], maxRetries, maxReschedules)
      {
        assert Polled(trace[i], trace[i+1], maxRetries, maxReschedules);
      }
      PollsAreBounded(front, maxRetries, maxReschedules);
      assert Polled(trace[|trace|-2], trace[|trace|-2+1], maxRetries, maxReschedules);
      forall i | 0 <= i < |trace| && Absorbing(trace[i].status)
        ensures trace[|trace|-1] == trace[i]
      {
        assert i < |front| ==> front[i] == trace[i];
      }
    }
  }

  /** The transfers of a batch are different objects. */
  ghost predicate IsBatch(batch: seq<Transfer>) {
    forall i, j :: 0 <= i < j < |batch| ==> batch[i] != batch[j]
  }

  /** One scheduled run over a batch: every new or rescheduled transfer is polled, up to the one the run dies
      at. An error that is not handled ends the run for the transfers that come after; those not in a status
      the poll selects are left alone. */
  method StartTransfers(batch: seq<Transfer>, answers: seq<StartAnswer>) returns (ghost reached: nat)
    requires |answers| == |batch| && forall t :: t in batch ==> t.Valid()
    modifies set t | t in batch
    ensures forall t :: t in batch ==> t.Valid() && t.lost == old(t.lost) && t.terminations == old(t.terminations)
    ensures forall t :: t in batch && !Startable(old(t.stored.status)) ==> t.stored == old(t.stored)
    ensures reached <= |batch|
    ensures IsBatch(batch) && reached < |batch| ==>
              && (old(batch[reached].stored.status).Init? || old(batch[reached].stored.status).Rescheduled?)
              && !answers[reached].AlreadyTransferred?
    ensures IsBatch(batch) ==>
              forall i :: 0 <= i < reached
                          && (old(batch[i].stored.status).Init? || old(batch[i].stored.status).Rescheduled?) ==>
                            batch[i].stored == AfterStart(old(batch[i].stored), answers[i], batch[i].maxReschedules)
    ensures IsBatch(batch) ==> forall i :: reached <= i < |batch| ==> batch[i].stored == old(batch[i].stored)
  {
    for i := 0 to |batch|
      invariant forall t :: t in batch ==> t.Valid() && t.lost == old(t.lost) && t.terminations == old(t.terminations)
      invariant forall t :: t in batch && !Startable(old(t.stored.status)) ==> t.stored == old(t.stored)
      invariant IsBatch(batch) ==>
                  forall j :: 0 <= j < i && Startable(old(batch[j].stored.status)) ==>
                    batch[j].stored == AfterStart(old(batch[j].stored), answers[j], batch[j].maxReschedules)
      invariant IsBatch(batch) ==> forall j :: i <= j < |batch| ==> batch[j].stored == old(batch[j].stored)
    {
      if Startable(batch[i].stored.status) {
        var alive := batch[i].Start(answers[i]);
        if !alive {
          return i;
        }
      }
    }
    return |batch|;
  }

  method CheckTransfers(batch: seq<Transfer>, answers: seq<CheckAnswer>) returns (ghost reached: nat)
    requires |answers| == |batch| && forall t :: t in batch ==> t.Valid()
    modifies set t | t in batch
    ensures forall t :: t in batch ==> t.Valid()
    ensures forall t :: t in batch && !old(t.stored.status).Running? ==>
                          t.stored == old(t.stored) && t.terminations == old(t.terminations)
    ensures reached <= |batch|
    ensures IsBatch(batch) && reached < |batch| ==> old(batch[reached].stored.status).Running?
    ensures IsBatch(batch) ==>
              forall i :: 0 <= i < reached && old(batch[i].stored.status).Running? ==>
                            batch[i].stored == AfterCheck(old(batch[i].stored), answers[i], batch[i].maxRetries)
    ensures IsBatch(batch) ==> forall i :: reached <= i < |batch| ==> batch[i].stored == old(batch[i].stored)
  {
    for i := 0 to |batch|
      invariant forall t :: t in batch ==> t.Valid()
      invariant forall t :: t in batch && !old(t.stored.status).Running? ==>
                              t.stored == old(t.stored) && t.terminations == old(t.terminations)
      invariant IsBatch(batch) ==>
                  forall j :: 0 <= j < i && old(batch[j].stored.status).Running? ==>
                                batch[j].stored == AfterCheck(old(batch[j].stored), answers[j], batch[j].maxRetries)
      invariant IsBatch(batch) ==> forall j :: i <= j < |batch| ==> batch[j].stored == old(batch[j].stored)
    {
      if batch[i].stored.status.Running? {
        var alive := batch[i].Check(answers[i]);
        if !alive {
          return i;
        }
      }
    }
    return |batch|;
  }
}
