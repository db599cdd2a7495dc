/** The graph job, outbox and document rows as the transactions of apps/api/app/graph/dispatch.py update
    them, field by field.  Each method is one transaction; its contract says that it takes the rows from
    what a protocol state shows to what the protocol's step makes of that state. */
module JobStore {
  import opened Wrappers
  import opened Helpers
  import opened JobProtocol

  class JobRow {
    var status: JobStatus
    var attempt: nat
    const maxAttempts: nat
    var nextAttemptAt: int
    var lease: Option<int>

    constructor (now: int)
      ensures status == Queued && attempt == 0 && maxAttempts == MAX_JOB_ATTEMPTS && nextAttemptAt == now && lease == None
    {
      status, attempt, maxAttempts, nextAttemptAt, lease := Queued, 0, MAX_JOB_ATTEMPTS, now, None;
    }
  }

  class OutboxRow {
    var attempts: nat
    var publishedAt: Option<int>

    constructor ()
      ensures attempts == 0 && publishedAt == None
    {
      attempts, publishedAt := 0, None;
    }
  }

  class DocumentRow {
    var status: DocumentStatus
    var stage: Stage
  }

  class Store {
    var job: JobRow?
    var outbox: OutboxRow?
    const document: DocumentRow
    const leaseSeconds: nat

    constructor (document: DocumentRow, timeout: nat)
      ensures job == null && outbox == null && this.document == document
      ensures leaseSeconds >= LEASE_SECONDS && leaseSeconds >= timeout + 60 && Consistent()
    {
      this.document := document;
      job, outbox := null, null;
      leaseSeconds := if LEASE_SECONDS >= timeout + 60 then LEASE_SECONDS else timeout + 60;
    }

    /** The rows are those of the protocol state. */
    ghost predicate Shows(s: State)
      reads this, job, outbox, document
    {
      && s.leaseSeconds == leaseSeconds
      && s.job == (if job == null then None
                   else Some(GraphJob(job.status, job.attempt, job.maxAttempts, job.nextAttemptAt, job.lease)))
      && s.outbox == (if outbox == null then None else Some(Outbox(outbox.attempts, outbox.publishedAt)))
      && s.document == Document(document.status, document.stage)
    }

    /** What the rows keep across every transaction: a job has its outbox row, a running job its lease, and the
        counters stay within their limits. */
    ghost predicate Consistent()
      reads this, job, outbox
    {
      && (job != null ==> outbox != null && job.attempt <= job.maxAttempts && (job.status == Running ==> job.lease.Some?))
      && (outbox != null ==> outbox.attempts <= MAX_OUTBOX_ATTEMPTS)
    }

    method EnqueueGraphExtraction(now: int, ghost s: State)
      requires Shows(s) && s.now == now
      modifies this, job, outbox, document
      ensures Shows(EnqueueGraph(s))
      ensures old(Consistent()) ==> Consistent()
    {
      if job == null {
        job := new JobRow(now);
        if outbox == null {
          outbox := new OutboxRow();
        } else {
          outbox.publishedAt := None;
        }
      } else {
        job.status, job.attempt, job.nextAttemptAt := Queued, 0, now;
        if outbox == null {
          outbox := new OutboxRow();
        } else {
          outbox.publishedAt := None;
        }
      }
      document.stage := StageQueued;
    }

    /** Claims the row for publishing, when the dispatcher's query selects it. */
    method ClaimPending(now: int, ghost s: State) returns (claimed: bool)
      requires Shows(s) && s.now == now
      modifies outbox
      ensures Shows(ClaimDispatch(s)) && (claimed <==> Dispatchable(s))
      ensures old(Consistent()) ==> Consistent()
    {
      claimed := job != null && outbox != null && outbox.publishedAt.None? && outbox.attempts < MAX_OUTBOX_ATTEMPTS
                 && job.status == Queued && job.nextAttemptAt <= now;
      if claimed {
        outbox.attempts := outbox.attempts + 1;
        outbox.publishedAt := Some(now);
      }
    }

    method RecordPublishFailure(claimedAt: int, ghost s: State)
      requires Shows(s) && claimedAt in s.publishing
      modifies job, outbox, document
      ensures Shows(PublishFailed(s, claimedAt))
      ensures old(Consistent()) ==> Consistent()
    {
      if outbox != null && outbox.publishedAt == Some(claimedAt) {
        outbox.publishedAt := None;
        if outbox.attempts >= MAX_OUTBOX_ATTEMPTS && job != null {
          job.status := Failed;
          document.status, document.stage := DocumentFailed, StageFailed;
        }
      }
    }

    method ReconcileLeases(now: int, ghost s: State) returns (recovered: bool)
      requires Shows(s) && s.now == now
      modifies job, outbox
      ensures Shows(RecoverExpiredLease(s)) && (recovered <==> LeaseExpired(s))
      ensures old(Consistent()) ==> Consistent()
    {
      recovered := job != null && job.status == Running && job.lease.Some? && job.lease.value < now;
      if recovered {
        job.status, job.lease, job.nextAttemptAt := Queued, None, now;
        if outbox != null {
          outbox.publishedAt := None;
        }
      }
    }

    method ReconcileDispatches(now: int, ghost s: State) returns (recovered: bool)
      requires Shows(s) && s.now == now
      modifies outbox
      ensures Shows(RecoverStaleDispatch(s)) && (recovered <==> DispatchStale(s))
      ensures old(Consistent()) ==> Consistent()
    {
      recovered := job != null && outbox != null && outbox.publishedAt.Some? && job.status == Queued
                   && outbox.publishedAt.value < now - 2 * leaseSeconds;
      if recovered {
        outbox.publishedAt := None;
      }
    }

    method Renew(now: int, ghost s: State)
      requires Shows(s) && s.now == now
      modifies job
      ensures Shows(RenewLease(s))
      ensures old(Consistent()) ==> Consistent()
    {
      if job != null && job.status == Running {
        job.lease := Some(now + leaseSeconds);
      }
    }

    method RequeueJob(now: int, ghost s: State)
      requires Shows(s) && s.now == now
      modifies this, job, outbox
      ensures Shows(Requeue(s))
      ensures old(Consistent()) ==> Consistent()
    {
      if job == null || job.status == Succeeded {
        return;
      }
      job.status, job.lease, job.nextAttemptAt := Queued, None, now;
      if outbox == null {
        outbox := new OutboxRow();
      } else {
        outbox.publishedAt := None;
      }
    }

    /** The first transaction of an execution. */
    method BeginExecution(now: int, ghost s: State) returns (decision: Decision)
      requires Shows(s) && s.now == now
      modifies job, document
      ensures Shows(Begin(s)) && decision == Decide(s)
      ensures old(Consistent()) ==> Consistent()
    {
      if job == null {
        return Skip;
      }
      if job.status == Succeeded || (job.status == Running && job.lease.Some? && job.lease.value > now) {
        return Skip;
      }
      if job.attempt >= job.maxAttempts {
        job.status, job.lease := Failed, None;
        return GiveUp;
      }
      if document.status != Indexed && document.status != Persisting {
        return Refuse;
      }
      job.status, job.attempt := Running, job.attempt + 1;
      job.lease, document.stage := Some(now + leaseSeconds), Extracting;
      return Claim;
    }

    /** The closing transaction of an execution that raised. */
    method FailExecution(now: int, ghost s: State)
      requires Shows(s) && s.now == now
      modifies job, outbox, document
      ensures Shows(Fail(s))
      ensures old(Consistent()) ==> Consistent()
    {
      if job == null {
        return;
      }
      job.lease := None;
      if job.attempt >= job.maxAttempts {
        job.status := Failed;
        document.status, document.stage := DocumentFailed, StageFailed;
      } else {
        job.status := Queued;
        job.nextAttemptAt := now + Min(60, Pow2(job.attempt));
        if outbox != null {
          outbox.publishedAt := None;
        }
      }
    }

    /** The closing transaction of an execution that returned. */
    method FinishExecution(ghost s: State)
      requires Shows(s)
      modifies job, document
      ensures Shows(Succeed(s))
      ensures old(Consistent()) ==> Consistent()
    {
      if job != null {
        job.status, job.lease := Succeeded, None;
        document.status, document.stage := Indexed, Complete;
      }
    }
  }
}
