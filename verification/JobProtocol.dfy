/** The durable hand-off of one document from indexing to graph extraction: the job, outbox and document
    rows of apps/api/app/graph/dispatch.py and apps/api/app/ingestion.py, the message queue, and the
    workers.  One database commit is one step; every interleaving of steps is a run. */
module JobProtocol {
  import opened Wrappers
  import opened Helpers

  datatype JobStatus = Queued | Running | Succeeded | Failed

  datatype DocumentStatus = AwaitingIndex | Parsing | Chunking | Persisting | Indexed | DocumentFailed

  datatype Stage = NoStage | StageQueued | Extracting | Complete | StageFailed

  datatype GraphJob = GraphJob(status: JobStatus, attempt: nat, maxAttempts: nat, nextAttemptAt: int, lease: Option<int>)

  datatype Outbox = Outbox(attempts: nat, publishedAt: Option<int>)

  datatype Document = Document(status: DocumentStatus, stage: Stage)

  /** The indexing job, its outbox row and its side of the broker, as below; `executions` counts its runs. */
  datatype Indexing = Indexing(status: Option<JobStatus>, outbox: Option<Outbox>, publishing: multiset<int>, queue: nat,
                               held: bool, executions: nat)

  /** `publishing` holds the claim times of dispatches whose publish has not been answered yet, `queue` counts
      undelivered messages, `held` tells whether the broker still keeps the message of an execution, `workers`
      counts the executions between their claim and their closing commit. */
  datatype State = State(
    now: int, leaseSeconds: nat,
    job: Option<GraphJob>, outbox: Option<Outbox>, document: Document,
    publishing: multiset<int>, queue: nat, held: bool, workers: nat,
    index: Indexing)

  const MAX_OUTBOX_ATTEMPTS := 20
  const MAX_JOB_ATTEMPTS := 5
  const LEASE_SECONDS := 300
  const INDEX_STALE_SECONDS := 900

  // ---------- Graph rows ----------

  function EnqueueGraph(s: State): State {
    s.(job := Some(match s.job
                   case None => GraphJob(Queued, 0, MAX_JOB_ATTEMPTS, s.now, None)
                   case Some(j) => j.(status := Queued, attempt := 0, nextAttemptAt := s.now)),
       outbox := Some(if s.outbox.None? then Outbox(0, None) else s.outbox.value.(publishedAt := None)),
       document := s.document.(stage := StageQueued))
  }

  predicate Dispatchable(s: State) {
    && s.job.Some? && s.outbox.Some?
    && s.outbox.value.publishedAt.None? && s.outbox.value.attempts < MAX_OUTBOX_ATTEMPTS
    && s.job.value.status == Queued && s.job.value.nextAttemptAt <= s.now
  }

  function ClaimDispatch(s: State): State {
    if !Dispatchable(s) then s
    else s.(outbox := Some(Outbox(s.outbox.value.attempts + 1, Some(s.now))), publishing := s.publishing + multiset{s.now})
  }

  /** All messages of a job have one id: the broker drops a message while it keeps an earlier one. */
  function PublishAccepted(s: State, claimedAt: int): State {
    if claimedAt !in s.publishing then s
    else
      s.(publishing := s.publishing - multiset{claimedAt},
         queue := if s.queue > 0 || s.held then s.queue else s.queue + 1)
  }

  /** The failed publish is the one on record, and the last one the outbox allows. */
  predicate GivesUp(s: State, claimedAt: int) {
    && s.outbox.Some? && s.outbox.value.publishedAt == Some(claimedAt)
    && s.outbox.value.attempts >= MAX_OUTBOX_ATTEMPTS && s.job.Some?
  }

  function PublishFailed(s: State, claimedAt: int): State {
    if claimedAt !in s.publishing then s
    else
      var s' := s.(publishing := s.publishing - multiset{claimedAt});
      if s.outbox.None? || s.outbox.value.publishedAt != Some(claimedAt) then s'
      else
        var s'' := s'.(outbox := Some(s.outbox.value.(publishedAt := None)));
        if !GivesUp(s, claimedAt) then s''
        else s''.(job := Some(s.job.value.(status := Failed)), document := Document(DocumentFailed, StageFailed))
  }

  function Unpublish(s: State): State {
    if s.outbox.None? then s else s.(outbox := Some(s.outbox.value.(publishedAt := None)))
  }

  predicate LeaseExpired(s: State) {
    s.job.Some? && s.job.value.status == Running && s.job.value.lease.Some? && s.job.value.lease.value < s.now
  }

  function RecoverExpiredLease(s: State): State {
    if !LeaseExpired(s) then s
    else Unpublish(s.(job := Some(s.job.value.(status := Queued, lease := None, nextAttemptAt := s.now))))
  }

  predicate DispatchStale(s: State) {
    && s.job.Some? && s.job.value.status == Queued && s.outbox.Some? && s.outbox.value.publishedAt.Some?
    && s.outbox.value.publishedAt.value < s.now - 2 * s.leaseSeconds
  }

  function RecoverStaleDispatch(s: State): State {
    if !DispatchStale(s) then s else Unpublish(s)
  }

  function RenewLease(s: State): State {
    if s.job.None? || s.job.value.status != Running then s
    else s.(job := Some(s.job.value.(lease := Some(s.now + s.leaseSeconds))))
  }

  function Requeue(s: State): State {
    if s.job.None? || s.job.value.status == Succeeded then s
    else
      s.(job := Some(s.job.value.(status := Queued, lease := None, nextAttemptAt := s.now)),
         outbox := Some(if s.outbox.None? then Outbox(0, None) else s.outbox.value.(publishedAt := None)))
  }

  predicate Leased(s: State) {
    s.job.Some? && s.job.value.status == Running && s.job.value.lease.Some? && s.job.value.lease.value > s.now
  }

  predicate Persisted(d: Document) {
    d.status == Indexed || d.status == Persisting
  }

  datatype Decision = Skip | GiveUp | Refuse | Claim

  /** What the first transaction of an execution decides. */
  function Decide(s: State): Decision {
    if s.job.None? || s.job.value.status == Succeeded || Leased(s) then Skip
    else if s.job.value.attempt >= s.job.value.maxAttempts then GiveUp
    else if !Persisted(s.document) then Refuse
    else Claim
  }

  function Begin(s: State): State {
    match Decide(s)
    case Skip => s
    case Refuse => s
    case GiveUp => s.(job := Some(s.job.value.(status := Failed, lease := None)))
    case Claim =>
      s.(job := Some(s.job.value.(status := Running, attempt := s.job.value.attempt + 1, lease := Some(s.now + s.leaseSeconds))),
         document := s.document.(stage := Extracting), workers := s.workers + 1)
  }

  /** Taking a message; the broker keeps it until the execution ends. */
  function Receive(s: State): State
    requires s.queue > 0
  {
    s.(queue := s.queue - 1, held := Decide(s) == Claim)
  }

  /** The execution ends, and the broker forgets its message. */
  function Leave(s: State): State
    requires s.workers > 0
  {
    s.(workers := s.workers - 1, held := false)
  }

  function Succeed(s: State): State {
    if s.job.None? then s
    else s.(job := Some(s.job.value.(status := Succeeded, lease := None)), document := Document(Indexed, Complete))
  }

  function Pow2(n: nat): nat {
    if n == 0 then 1 else 2 * Pow2(n - 1)
  }

  function Fail(s: State): State {
    if s.job.None? then s
    else if s.job.value.attempt >= s.job.value.maxAttempts then
      s.(job := Some(s.job.value.(status := Failed, lease := None)), document := Document(DocumentFailed, StageFailed))
    else
      Unpublish(s.(job := Some(s.job.value.(status := Queued, lease := None,
                                            nextAttemptAt := s.now + Min(60, Pow2(s.job.value.attempt))))))
  }

  // ---------- Indexing rows ----------

  function EnqueueDocument(s: State): State {
    if s.index.status == Some(Succeeded) then s.(document := s.document.(status := Indexed))
    else
      var status := if s.index.status.None? || s.index.status.value == Failed then Queued else s.index.status.value;
      s.(index := Unsent(s.index.(status := Some(status))), document := s.document.(status := AwaitingIndex))
  }

  /** The outbox row is there and to be dispatched; its attempts stay. */
  function Unsent(i: Indexing): Indexing {
    i.(outbox := Some(if i.outbox.None? then Outbox(0, None) else i.outbox.value.(publishedAt := None)))
  }

  function ClaimIndexDispatch(i: Indexing, now: int): Indexing {
    if i.status == Some(Queued) && i.outbox.Some? && i.outbox.value.publishedAt.None?
       && i.outbox.value.attempts < MAX_OUTBOX_ATTEMPTS
    then i.(outbox := Some(Outbox(i.outbox.value.attempts + 1, Some(now))), publishing := i.publishing + multiset{now})
    else i
  }

  function IndexPublishAccepted(i: Indexing, claimedAt: int): Indexing {
    if claimedAt !in i.publishing then i
    else
      i.(publishing := i.publishing - multiset{claimedAt}, queue := if i.queue > 0 || i.held then i.queue else 1)
  }

  predicate IndexGivesUp(i: Indexing, claimedAt: int) {
    && i.outbox.Some? && i.outbox.value.publishedAt == Some(claimedAt)
    && i.outbox.value.attempts >= MAX_OUTBOX_ATTEMPTS && i.status.Some?
  }

  function IndexPublishFailed(s: State, claimedAt: int): State {
    var i := s.index;
    if claimedAt !in i.publishing then s
    else
      var i' := i.(publishing := i.publishing - multiset{claimedAt});
      if i.outbox.None? || i.outbox.value.publishedAt != Some(claimedAt) then s.(index := i')
      else if !IndexGivesUp(i, claimedAt) then s.(index := Unsent(i'))
      else s.(index := Unsent(i').(status := Some(Failed)), document := s.document.(status := DocumentFailed))
  }

  function RequeueIndex(i: Indexing): Indexing {
    if i.status.None? || i.status.value == Succeeded then i else Unsent(i.(status := Some(Queued)))
  }

  predicate IndexClaims(i: Indexing) {
    i.queue > 0 && i.status.Some? && i.status.value != Succeeded && i.status.value != Running
  }

  /** An execution takes a message; it runs unless the job has succeeded or is running. */
  function BeginIndex(i: Indexing): Indexing {
    if IndexClaims(i) then i.(queue := i.queue - 1, status := Some(Running), held := true, executions := i.executions + 1)
    else if i.queue > 0 then i.(queue := i.queue - 1)
    else i
  }

  function IndexStage(s: State, status: DocumentStatus): State {
    if s.index.executions == 0 then s else s.(document := s.document.(status := status))
  }

  predicate Commits(i: Indexing) {
    i.status.Some? && i.executions > 0
  }

  /** The last commit of an indexing run marks it done and hands the document on, in one transaction. */
  function CommitIndex(s: State): State {
    if !Commits(s.index) then s
    else
      EnqueueGraph(s.(index := s.index.(status := Some(Succeeded), held := false, executions := s.index.executions - 1),
                      document := s.document.(status := Persisting)))
  }

  /** The message is kept until the broker learns whether the task is to be tried again. */
  function FailIndex(s: State): State {
    if !Commits(s.index) then s
    else
      s.(index := s.index.(status := Some(Failed), executions := s.index.executions - 1),
         document := s.document.(status := DocumentFailed))
  }

  /** A job found running for too long; its execution may still be under way. */
  function RecoverIndex(i: Indexing): Indexing {
    if i.status == Some(Running) then RequeueIndex(i) else i
  }

  function RecoverIndexDispatch(i: Indexing, now: int): Indexing {
    if i.status == Some(Queued) && i.outbox.Some? && i.outbox.value.publishedAt.Some?
       && i.outbox.value.publishedAt.value < now - 2 * INDEX_STALE_SECONDS
    then Unsent(i) else i
  }

  function CancelIndex(i: Indexing): Indexing {
    if i.executions == 0 then i else RequeueIndex(i.(executions := i.executions - 1))
  }

  /** The broker delivers the message of an execution once more. */
  function RedeliverIndex(i: Indexing): Indexing {
    if i.held then i.(held := false, queue := i.queue + 1) else i
  }

  // ---------- Runs ----------

  datatype Event =
    | Tick(seconds: nat)
    | Dispatch | PublishOk(claimedAt: int) | PublishFail(claimedAt: int)
    | ReconcileLease | ReconcileDispatch | Renew
    | Execute | LoseMessage | Forget
    | Finish | Break | Cancel | Crash
    | StrayCancel
    | Upload | IndexDispatch | IndexPublishOk(indexClaimedAt: int) | IndexPublishFail(indexClaimedAt: int)
    | IndexRecover | IndexRecoverDispatch | IndexRetry | IndexBegin | IndexRedeliver | IndexForget | IndexLose
    | IndexProgress(status: DocumentStatus) | IndexCommit | IndexFail | IndexCancel | IndexCrash

  function Step(s: State, e: Event): State {
    match e
    case Tick(seconds) => s.(now := s.now + seconds)
    case Dispatch => ClaimDispatch(s)
    case PublishOk(t) => PublishAccepted(s, t)
    case PublishFail(t) => PublishFailed(s, t)
    case ReconcileLease => RecoverExpiredLease(s)
    case ReconcileDispatch => RecoverStaleDispatch(s)
    case Renew => RenewLease(s)
    case Execute => if s.queue == 0 then s else Begin(Receive(s))
    case LoseMessage => if s.queue == 0 then s else s.(queue := s.queue - 1)
    case Forget => s.(held := false)
    case Finish => if s.workers == 0 then s else Succeed(Leave(s))
    case Break => if s.workers == 0 then s else Fail(Leave(s))
    case Cancel => if s.workers == 0 then s else Requeue(s.(workers := s.workers - 1))
    case Crash => if s.workers == 0 then s else s.(workers := s.workers - 1)
    case StrayCancel => Requeue(s)
    case Upload => EnqueueDocument(s)
    case IndexDispatch => s.(index := ClaimIndexDispatch(s.index, s.now))
    case IndexPublishOk(t) => s.(index := IndexPublishAccepted(s.index, t))
    case IndexPublishFail(t) => IndexPublishFailed(s, t)
    case IndexRecover => s.(index := RecoverIndex(s.index))
    case IndexRecoverDispatch => s.(index := RecoverIndexDispatch(s.index, s.now))
    case IndexRetry => if s.index.held then s.(index := RequeueIndex(s.index)) else s
    case IndexBegin => s.(index := BeginIndex(s.index))
    case IndexRedeliver => s.(index := RedeliverIndex(s.index))
    case IndexForget => s.(index := s.index.(held := false))
    case IndexLose => if s.index.queue == 0 then s else s.(index := s.index.(queue := s.index.queue - 1))
    case IndexProgress(status) => IndexStage(s, status)
    case IndexCommit => CommitIndex(s)
    case IndexFail => FailIndex(s)
    case IndexCancel => s.(index := CancelIndex(s.index))
    case IndexCrash => if s.index.executions == 0 then s else s.(index := s.index.(executions := s.index.executions - 1))
  }

  function Run(s: State, events: seq<Event>): State
    decreases |events|
  {
    if events == [] then s else Run(Step(s, events[0]), events[1..])
  }

  const UNINDEXED := Indexing(None, None, multiset{}, 0, false, 0)

  ghost predicate Initial(s: State) {
    && s.leaseSeconds >= LEASE_SECONDS && s.job.None? && s.outbox.None? && s.index == UNINDEXED
    && s.document.stage == NoStage && s.publishing == multiset{} && s.queue == 0 && !s.held && s.workers == 0
  }

  // ---------- What every run keeps ----------

  ghost predicate IndexSound(i: Indexing, now: int) {
    && (i.outbox.Some? ==> i.outbox.value.attempts <= MAX_OUTBOX_ATTEMPTS)
    && (i.outbox.Some? && i.outbox.value.publishedAt.Some? ==> i.outbox.value.publishedAt.value <= now)
    && (i.status.Some? ==> i.outbox.Some?)
  }

  /** No assumption about the environment is needed for these. */
  ghost predicate Sound(s: State) {
    && s.leaseSeconds >= LEASE_SECONDS
    && (s.job.Some? ==> s.outbox.Some? && s.job.value.attempt <= s.job.value.maxAttempts)
    && (s.job.Some? && s.job.value.status == Running ==> s.job.value.lease.Some?)
    && (s.outbox.Some? ==> s.outbox.value.attempts <= MAX_OUTBOX_ATTEMPTS)
    && (s.index.status == Some(Succeeded) ==> s.job.Some? && s.outbox.Some?)
    && IndexSound(s.index, s.now)
    && (s.workers > 0 ==> s.job.Some?)
    && (forall t :: t in s.publishing ==> t <= s.now)
    && (s.outbox.Some? && s.outbox.value.publishedAt.Some? ==> s.outbox.value.publishedAt.value <= s.now)
  }

  predicate OfIndexing(e: Event) {
    e.Upload? || e.IndexDispatch? || e.IndexPublishOk? || e.IndexPublishFail? || e.IndexRecover? || e.IndexRecoverDispatch?
    || e.IndexRetry? || e.IndexBegin? || e.IndexRedeliver? || e.IndexForget? || e.IndexLose?
    || e.IndexProgress? || e.IndexCommit? || e.IndexFail? || e.IndexCancel? || e.IndexCrash?
  }

  predicate ByWorker(e: Event) {
    e.Execute? || e.Finish? || e.Break? || e.Cancel? || e.Crash? || e.StrayCancel?
  }

  /** Nothing but the indexing rows and the document's status differ. */
  ghost predicate Apart(s: State, s': State) {
    && s'.now == s.now && s'.leaseSeconds == s.leaseSeconds && s'.job == s.job && s'.outbox == s.outbox
    && s'.publishing == s.publishing && s'.queue == s.queue && s'.held == s.held && s'.workers == s.workers
    && s'.document.stage == s.document.stage
  }

  /** Indexing leaves the graph rows alone until it commits. */
  lemma IndexingIsApart(s: State, e: Event)
    requires OfIndexing(e) && !e.IndexCommit?
    ensures Apart(s, Step(s, e))
    ensures Step(s, e).index.status == Some(Succeeded) ==> s.index.status == Some(Succeeded)
  {
  }

  lemma ClaimKeepsSound(s: State)
    requires Sound(s)
    ensures Sound(ClaimDispatch(s))
  {
  }

  lemma AcceptedKeepsSound(s: State, claimedAt: int)
    requires Sound(s)
    ensures Sound(PublishAccepted(s, claimedAt))
  {
  }

  lemma FailedKeepsSound(s: State, claimedAt: int)
    requires Sound(s)
    ensures Sound(PublishFailed(s, claimedAt))
  {
  }

  lemma RecoveryKeepsSound(s: State)
    requires Sound(s)
    ensures Sound(RecoverExpiredLease(s)) && Sound(RecoverStaleDispatch(s)) && Sound(RenewLease(s))
  {
  }

  lemma DispatchStepKeepsSound(s: State, e: Event)
    requires Sound(s) && !OfIndexing(e) && !ByWorker(e)
    ensures Sound(Step(s, e))
  {
    match e
    case Dispatch => ClaimKeepsSound(s);
    case PublishOk(t) => AcceptedKeepsSound(s, t);
    case PublishFail(t) => FailedKeepsSound(s, t);
    case ReconcileLease => RecoveryKeepsSound(s);
    case ReconcileDispatch => RecoveryKeepsSound(s);
    case Renew => RecoveryKeepsSound(s);
    case _ =>
  }

  lemma BeginKeepsSound(s: State)
    requires Sound(s)
    ensures Sound(Begin(s))
  {
  }

  lemma EndingKeepsSound(s: State)
    requires Sound(s)
    ensures Sound(Succeed(s)) && Sound(Fail(s)) && Sound(Requeue(s))
  {
  }

  lemma WorkerStepKeepsSound(s: State, e: Event)
    requires Sound(s) && ByWorker(e)
    ensures Sound(Step(s, e))
  {
    match e
    case Execute =>
      if s.queue > 0 {
        BeginKeepsSound(Receive(s));
      }
    case Finish =>
      if s.workers > 0 {
        EndingKeepsSound(Leave(s));
      }
    case Break =>
      if s.workers > 0 {
        EndingKeepsSound(Leave(s));
      }
    case Cancel =>
      if s.workers > 0 {
        EndingKeepsSound(s.(workers := s.workers - 1));
      }
    case StrayCancel => EndingKeepsSound(s);
    case Crash =>
  }

  lemma IndexRowsKeepSound(s: State, e: Event)
    requires IndexSound(s.index, s.now) && OfIndexing(e) && !e.IndexCommit?
    ensures IndexSound(Step(s, e).index, s.now)
  {
  }

  lemma IndexStepKeepsSound(s: State, e: Event)
    requires Sound(s) && OfIndexing(e)
    ensures Sound(Step(s, e))
  {
    if !e.IndexCommit? {
      IndexRowsKeepSound(s, e);
      IndexingIsApart(s, e);
    }
  }

  /** Counters stay in range, a running job is leased, a job has its outbox row, and a document whose
      indexing succeeded has been handed on: in every state of every run. */
  lemma {:induction false} RunsAreSound(s: State, events: seq<Event>)
    requires Sound(s)
    ensures Sound(Run(s, events))
    decreases |events|
  {
    if events != [] {
      if OfIndexing(events[0]) {
        IndexStepKeepsSound(s, events[0]);
      } else if ByWorker(events[0]) {
        WorkerStepKeepsSound(s, events[0]);
      } else {
        DispatchStepKeepsSound(s, events[0]);
      }
      RunsAreSound(Step(s, events[0]), events[1..]);
    }
  }

  // ---------- The attempt counter ----------

  /** Claims since the last enqueue, after one more step; `n` is the count before it. */
  function CountClaim(s: State, e: Event, n: nat): nat {
    if e.IndexCommit? && Commits(s.index) then 0
    else if e.Execute? && s.queue > 0 && Decide(s) == Claim then n + 1
    else n
  }

  function Claims(s: State, events: seq<Event>, n: nat): nat
    decreases |events|
  {
    if events == [] then n else Claims(Step(s, events[0]), events[1..], CountClaim(s, events[0], n))
  }

  predicate Counted(s: State, n: nat) {
    if s.job.Some? then s.job.value.attempt == n else n == 0
  }

  lemma StepCounts(s: State, e: Event, n: nat)
    requires Counted(s, n)
    ensures Counted(Step(s, e), CountClaim(s, e, n))
  {
    if OfIndexing(e) && !e.IndexCommit? {
      IndexingIsApart(s, e);
    }
  }

  /** The attempt counter is the number of claims since the last enqueue. */
  lemma {:induction false} AttemptCountsClaims(s: State, events: seq<Event>, n: nat)
    requires Counted(s, n)
    ensures Counted(Run(s, events), Claims(s, events, n))
    decreases |events|
  {
    if events != [] {
      StepCounts(s, events[0], n);
      AttemptCountsClaims(Step(s, events[0]), events[1..], CountClaim(s, events[0], n));
    }
  }

  // ---------- Jobs that fail without their document ----------

  /** The job has failed and the document's stage does not say so. */
  predicate OutOfStep(s: State) {
    s.job.Some? && s.job.value.status == Failed && s.document.stage != StageFailed
  }

  /** Rows in step come out of step exactly when an execution gives a job up at its last attempt. */
  lemma StepFallsOut(s: State, e: Event)
    requires Sound(s) && !OutOfStep(s)
    ensures OutOfStep(Step(s, e))
            <==> e.Execute? && s.queue > 0 && Decide(s) == GiveUp && s.document.stage != StageFailed
  {
    if OfIndexing(e) && !e.IndexCommit? {
      IndexingIsApart(s, e);
    }
  }

  // ---------- Publishes that fail late ----------

  /** The clock reading of the latest dispatch, after one more step. */
  function NoteClaim(s: State, e: Event, last: Option<int>): Option<int> {
    if e.Dispatch? && Dispatchable(s) then Some(s.now) else last
  }

  function LastClaim(s: State, events: seq<Event>, last: Option<int>): Option<int>
    decreases |events|
  {
    if events == [] then last else LastClaim(Step(s, events[0]), events[1..], NoteClaim(s, events[0], last))
  }

  predicate Recorded(s: State, last: Option<int>) {
    s.outbox.Some? && s.outbox.value.publishedAt.Some? ==> s.outbox.value.publishedAt == last
  }

  lemma StepRecords(s: State, e: Event, last: Option<int>)
    requires Recorded(s, last)
    ensures Recorded(Step(s, e), NoteClaim(s, e, last))
  {
    if OfIndexing(e) && !e.IndexCommit? {
      IndexingIsApart(s, e);
    }
  }

  /** A published outbox row carries the reading of the latest dispatch. */
  lemma {:induction false} OutboxRecordsLastClaim(s: State, events: seq<Event>, last: Option<int>)
    requires Recorded(s, last)
    ensures Recorded(Run(s, events), LastClaim(s, events, last))
    decreases |events|
  {
    if events != [] {
      StepRecords(s, events[0], last);
      OutboxRecordsLastClaim(Step(s, events[0]), events[1..], NoteClaim(s, events[0], last));
    }
  }

  /** A publish that fails leaves every row as it is exactly when its clock reading is not that of the latest
      dispatch, or that dispatch has been taken back. */
  lemma LateFailureIsIgnored(s: State, events: seq<Event>, claimedAt: int)
    requires Initial(s) && claimedAt in Run(s, events).publishing
    ensures var s' := Run(s, events);
            Step(s', PublishFail(claimedAt)).(publishing := s'.publishing) == s'
            <==> LastClaim(s, events, None) != Some(claimedAt)
                 || s'.outbox.None? || s'.outbox.value.publishedAt.None?
  {
    OutboxRecordsLastClaim(s, events, None);
  }

  // ---------- Exclusion and finality ----------

  datatype Hypothesis = LeaseHeld | CancelByHolder | EnqueueWhenIdle | LastPublishArrives

  /** What a step must respect for at most one worker to hold the job. */
  ghost predicate Respects(h: Hypothesis, s: State, e: Event) {
    match h
    case LeaseHeld => e.Tick? && s.workers > 0 ==> s.job.Some? && s.job.value.lease.Some? && s.now + e.seconds < s.job.value.lease.value
    case CancelByHolder => !e.StrayCancel?
    case EnqueueWhenIdle => e.IndexCommit? ==> s.workers == 0
    case LastPublishArrives => e.PublishFail? && e.claimedAt in s.publishing ==> !GivesUp(s, e.claimedAt)
  }

  /** Every step respects every hypothesis, except perhaps one. */
  ghost predicate Disciplined(s: State, events: seq<Event>, except: Option<Hypothesis>)
    decreases |events|
  {
    events != [] ==>
      && (forall h :: Some(h) != except ==> Respects(h, s, events[0]))
      && Disciplined(Step(s, events[0]), events[1..], except)
  }

  ghost predicate Exclusive(s: State) {
    && s.workers <= 1 && (s.workers == 1 ==> Leased(s))
    && (s.document.stage == Complete <==> s.job.Some? && s.job.value.status == Succeeded)
  }

  /** Success of the graph job is taken back by the commit of an indexing run only. */
  ghost predicate KeepsSuccess(s: State, e: Event) {
    s.job.Some? && s.job.value.status == Succeeded && Step(s, e).job != s.job ==> e.IndexCommit?
  }

  lemma IndexingKeepsExclusive(s: State, e: Event)
    requires Exclusive(s) && OfIndexing(e) && (e.IndexCommit? ==> s.workers == 0)
    ensures Exclusive(Step(s, e)) && KeepsSuccess(s, e)
  {
    if !e.IndexCommit? {
      IndexingIsApart(s, e);
    }
  }

  lemma WorkersKeepExclusive(s: State, e: Event)
    requires Sound(s) && Exclusive(s) && ByWorker(e) && !e.StrayCancel?
    ensures Exclusive(Step(s, e)) && KeepsSuccess(s, e)
  {
  }

  lemma DispatchKeepsExclusive(s: State, e: Event)
    requires Sound(s) && Exclusive(s) && !ByWorker(e) && !OfIndexing(e)
    requires Respects(LeaseHeld, s, e) && Respects(LastPublishArrives, s, e)
    ensures Exclusive(Step(s, e)) && KeepsSuccess(s, e)
  {
  }

  lemma StepKeepsExclusive(s: State, e: Event)
    requires Sound(s) && Exclusive(s) && forall h :: Respects(h, s, e)
    ensures Exclusive(Step(s, e)) && KeepsSuccess(s, e)
  {
    assert Respects(LeaseHeld, s, e) && Respects(CancelByHolder, s, e);
    assert Respects(EnqueueWhenIdle, s, e) && Respects(LastPublishArrives, s, e);
    if OfIndexing(e) {
      IndexingKeepsExclusive(s, e);
    } else if ByWorker(e) {
      WorkersKeepExclusive(s, e);
    } else {
      DispatchKeepsExclusive(s, e);
    }
  }

  /** In every disciplined run at most one worker at a time holds the job, the document's stage is
      complete exactly when the job has succeeded, and only a re-enqueue takes success back. */
  lemma {:induction false} OneWorkerAtATime(s: State, events: seq<Event>, e: Event)
    requires Sound(s) && Exclusive(s) && Disciplined(s, events + [e], None)
    ensures var s' := Run(s, events);
            Exclusive(s') && KeepsSuccess(s', e)
    decreases |events|
  {
    var first := (events + [e])[0];
    forall h
      ensures Respects(h, s, first)
    {
      assert Some(h) != None;
    }
    StepKeepsExclusive(s, first);
    if events != [] {
      RunsAreSound(s, [first]);
      assert Run(s, [first]) == Step(s, first);
      assert (events + [e])[1..] == events[1..] + [e];
      OneWorkerAtATime(Step(s, first), events[1..], e);
    }
  }

  // ---------- What the broker guarantees alone ----------

  /** The broker never gives up an execution that is under way. */
  ghost predicate Patient(s: State, events: seq<Event>)
    decreases |events|
  {
    events != [] ==> (events[0].Forget? ==> s.workers == 0) && Patient(Step(s, events[0]), events[1..])
  }

  /** One message at most, and none beside a worker. */
  ghost predicate OneMessage(s: State) {
    s.queue <= 1 && s.workers <= 1 && (s.workers == 1 ==> s.held) && (s.held ==> s.queue == 0)
  }

  /** With a broker that is patient no hypothesis is needed for one worker at a time. */
  lemma {:induction false} PatientBrokerExcludes(s: State, events: seq<Event>)
    requires OneMessage(s) && Patient(s, events)
    ensures OneMessage(Run(s, events))
    decreases |events|
  {
    if events != [] {
      StepKeepsOneMessage(s, events[0]);
      PatientBrokerExcludes(Step(s, events[0]), events[1..]);
    }
  }

  lemma StepKeepsOneMessage(s: State, e: Event)
    requires OneMessage(s) && (e.Forget? ==> s.workers == 0)
    ensures OneMessage(Step(s, e))
  {
    if OfIndexing(e) && !e.IndexCommit? {
      IndexingIsApart(s, e);
    }
  }

  // ---------- Recovery ----------

  /** The steps that the workers, their maintenance loop and the broker take of themselves. */
  predicate Maintenance(e: Event) {
    e.Tick? || e.Dispatch? || e.PublishOk? || e.PublishFail? || e.ReconcileLease? || e.ReconcileDispatch?
    || e.Execute? || e.Forget?
  }

  /** The step claims the job or ends it. */
  predicate Settles(s: State, e: Event) {
    || (e.Execute? && s.queue > 0 && (Decide(s) == Claim || Decide(s) == GiveUp))
    || (e.PublishFail? && e.claimedAt in s.publishing && GivesUp(s, e.claimedAt))
  }

  predicate Advances(s: State, events: seq<Event>)
    decreases |events|
  {
    && events != [] && Maintenance(events[0])
    && (Settles(s, events[0]) || Advances(Step(s, events[0]), events[1..]))
  }

  ghost predicate Recoverable(s: State) {
    exists events :: Advances(s, events)
  }

  ghost predicate Unfinished(s: State) {
    s.job.Some? && (s.job.value.status == Queued || s.job.value.status == Running) && Persisted(s.document)
  }

  lemma ThenRecoverable(s: State, e: Event)
    requires Maintenance(e) && (Settles(s, e) || Recoverable(Step(s, e)))
    ensures Recoverable(s)
  {
    if Settles(s, e) {
      assert Advances(s, [e]);
    } else {
      var rest :| Advances(Step(s, e), rest);
      assert ([e] + rest)[1..] == rest;
      assert Advances(s, [e] + rest);
    }
  }

  /** Nothing is left that could bring the job back: an outbox that has used up its attempts, no message,
      and no publish under way. */
  ghost predicate Stranded(s: State) {
    s.outbox.Some? && s.outbox.value.attempts >= MAX_OUTBOX_ATTEMPTS && s.queue == 0 && forall t :: t !in s.publishing
  }

  lemma {:induction false} StrandedStaysStranded(s: State, events: seq<Event>)
    requires Stranded(s)
    ensures !Advances(s, events)
    decreases |events|
  {
    if events != [] && Maintenance(events[0]) {
      StrandedStaysStranded(Step(s, events[0]), events[1..]);
    }
  }

  /** The same for an indexing job. */
  ghost predicate IndexStranded(i: Indexing) {
    && i.outbox.Some? && i.outbox.value.attempts >= MAX_OUTBOX_ATTEMPTS && i.queue == 0 && !i.held
    && forall t :: t !in i.publishing
  }

  ghost predicate IndexDeadEnd(i: Indexing) {
    i.status.Some? && i.status != Some(Succeeded) && IndexStranded(i) && i.executions == 0
  }

  /** A queued job with its attempts used up, no message, no publish under way and no worker. */
  ghost predicate DeadEnd(s: State) {
    && s.job.Some? && s.job.value.status == Queued && Stranded(s) && s.workers == 0
  }

  /** Nothing gets a job out of there: no step of any kind, a new upload or indexing included. */
  lemma {:induction false} DeadEndIsForever(s: State, events: seq<Event>)
    requires DeadEnd(s)
    ensures DeadEnd(Run(s, events))
    decreases |events|
  {
    if events != [] {
      StepStaysDead(s, events[0]);
      DeadEndIsForever(Step(s, events[0]), events[1..]);
    }
  }

  lemma StepStaysDead(s: State, e: Event)
    requires DeadEnd(s)
    ensures DeadEnd(Step(s, e))
  {
    if OfIndexing(e) && !e.IndexCommit? {
      IndexingIsApart(s, e);
    }
  }

  lemma DeliveredIsRecoverable(s: State)
    requires Sound(s) && Unfinished(s) && s.queue > 0
    ensures Recoverable(s)
  {
    if Leased(s) {
      var s' := Step(s, Tick(s.job.value.lease.value - s.now));
      ThenRecoverable(s', Execute);
      ThenRecoverable(s, Tick(s.job.value.lease.value - s.now));
    } else {
      ThenRecoverable(s, Execute);
    }
  }

  lemma PublishingIsRecoverable(s: State, t: int)
    requires Sound(s) && Unfinished(s) && t in s.publishing
    ensures Recoverable(s)
  {
    if s.queue > 0 {
      DeliveredIsRecoverable(s);
    } else {
      var s1 := Step(s, Forget);
      StepKept(s, Forget);
      StepKept(s1, PublishOk(t));
      DeliveredIsRecoverable(Step(s1, PublishOk(t)));
      ThenRecoverable(s1, PublishOk(t));
      ThenRecoverable(s, Forget);
    }
  }

  lemma StepKept(s: State, e: Event)
    requires Sound(s) && Maintenance(e)
    ensures Sound(Step(s, e))
  {
    if ByWorker(e) {
      WorkerStepKeepsSound(s, e);
    } else {
      DispatchStepKeepsSound(s, e);
    }
  }

  lemma UnpublishedIsRecoverable(s: State)
    requires Sound(s) && Unfinished(s) && s.outbox.value.attempts < MAX_OUTBOX_ATTEMPTS
    requires s.job.value.status == Queued && s.outbox.value.publishedAt.None?
    ensures Recoverable(s)
  {
    var wait := if s.job.value.nextAttemptAt <= s.now then 0 else s.job.value.nextAttemptAt - s.now;
    var s1 := Step(s, Tick(wait));
    StepKept(s, Tick(wait));
    StepKept(s1, Dispatch);
    PublishingIsRecoverable(Step(s1, Dispatch), s1.now);
    ThenRecoverable(s1, Dispatch);
    ThenRecoverable(s, Tick(wait));
  }

  lemma QueuedIsRecoverable(s: State)
    requires Sound(s) && Unfinished(s) && s.outbox.value.attempts < MAX_OUTBOX_ATTEMPTS && s.job.value.status == Queued
    ensures Recoverable(s)
  {
    if s.outbox.value.publishedAt.None? {
      UnpublishedIsRecoverable(s);
    } else {
      var wait := 2 * s.leaseSeconds + 1;
      var s1 := Step(s, Tick(wait));
      StepKept(s, Tick(wait));
      if s1.now - 2 * s.leaseSeconds > s1.outbox.value.publishedAt.value {
        StepKept(s1, ReconcileDispatch);
        UnpublishedIsRecoverable(Step(s1, ReconcileDispatch));
        ThenRecoverable(s1, ReconcileDispatch);
      }
      ThenRecoverable(s, Tick(wait));
    }
  }

  lemma RunningIsRecoverable(s: State)
    requires Sound(s) && Unfinished(s) && s.outbox.value.attempts < MAX_OUTBOX_ATTEMPTS && s.job.value.status == Running
    ensures Recoverable(s)
  {
    var lease := s.job.value.lease.value;
    var wait := if lease < s.now then 0 else lease - s.now + 1;
    var s1 := Step(s, Tick(wait));
    StepKept(s, Tick(wait));
    StepKept(s1, ReconcileLease);
    QueuedIsRecoverable(Step(s1, ReconcileLease));
    ThenRecoverable(s1, ReconcileLease);
    ThenRecoverable(s, Tick(wait));
  }

  /** A queued or running job of a persisted document can be brought to a claim or an end by maintenance
      alone, exactly when it is not stranded. */
  lemma RecoverableUnlessStranded(s: State, events: seq<Event>)
    requires Initial(s) && Unfinished(Run(s, events))
    ensures Recoverable(Run(s, events)) <==> !Stranded(Run(s, events))
  {
    var s' := Run(s, events);
    RunsAreSound(s, events);
    if Stranded(s') {
      forall es
        ensures !Advances(s', es)
      {
        StrandedStaysStranded(s', es);
      }
    } else if s'.queue > 0 {
      DeliveredIsRecoverable(s');
    } else if exists t :: t in s'.publishing {
      var t :| t in s'.publishing;
      PublishingIsRecoverable(s', t);
    } else if s'.job.value.status == Queued {
      QueuedIsRecoverable(s');
    } else {
      RunningIsRecoverable(s');
    }
  }

  // ---------- How an execution ends, and when the next one may start ----------

  /** Seconds to wait after so many claims: twice as long after each, up to a minute. */
  function Delay(claims: nat): nat {
    if claims == 0 then 1 else Min(60, 2 * Delay(claims - 1))
  }

  lemma {:induction false} BackOffDoubles(n: nat)
    ensures Min(60, Pow2(n)) == Delay(n)
  {
    if n > 0 {
      BackOffDoubles(n - 1);
    }
  }

  predicate Allowed(s: State) {
    s.job.Some? ==> s.job.value.maxAttempts == MAX_JOB_ATTEMPTS
  }

  lemma StepKeepsAllowed(s: State, e: Event)
    requires Allowed(s)
    ensures Allowed(Step(s, e))
  {
    if OfIndexing(e) && !e.IndexCommit? {
      IndexingIsApart(s, e);
    }
  }

  lemma {:induction false} RunsKeepAllowed(s: State, events: seq<Event>)
    requires Allowed(s)
    ensures Allowed(Run(s, events))
    decreases |events|
  {
    if events != [] {
      StepKeepsAllowed(s, events[0]);
      RunsKeepAllowed(Step(s, events[0]), events[1..]);
    }
  }

  /** An execution that fails ends the job exactly at the last claim it is allowed, and the document with it.
      Before that the job is queued again to start after the delay, its outbox row is to be dispatched with the
      attempts it has, and the document stays as it is. */
  lemma BreakOutcome(s: State, events: seq<Event>)
    requires Initial(s) && Run(s, events).workers > 0
    ensures var (s', n) := (Run(s, events), Claims(s, events, 0));
            var ended := Step(s', Break);
            && n <= MAX_JOB_ATTEMPTS && s'.outbox.Some? && s'.job.Some?
            && (ended.job.value.status == Failed <==> n == MAX_JOB_ATTEMPTS)
            && (n == MAX_JOB_ATTEMPTS ==>
                  ended == s'.(workers := s'.workers - 1, held := false,
                               job := Some(GraphJob(Failed, n, MAX_JOB_ATTEMPTS, s'.job.value.nextAttemptAt, None)),
                               document := Document(DocumentFailed, StageFailed)))
            && (n < MAX_JOB_ATTEMPTS ==>
                  ended == s'.(workers := s'.workers - 1, held := false,
                               job := Some(GraphJob(Queued, n, MAX_JOB_ATTEMPTS, s'.now + Delay(n), None)),
                               outbox := Some(Outbox(s'.outbox.value.attempts, None))))
  {
    RunsAreSound(s, events);
    RunsKeepAllowed(s, events);
    AttemptCountsClaims(s, events, 0);
    BackOffDoubles(Claims(s, events, 0));
  }

  /** The next dispatch after a failure: once the delay is over, if claims and outbox attempts are left. */
  lemma BreakNextDispatch(s: State, events: seq<Event>, seconds: nat)
    requires Initial(s) && Run(s, events).workers > 0
    ensures var (s', n) := (Run(s, events), Claims(s, events, 0));
            Dispatchable(Step(Step(s', Break), Tick(seconds)))
            <==> n < MAX_JOB_ATTEMPTS && s'.outbox.Some? && s'.outbox.value.attempts < MAX_OUTBOX_ATTEMPTS && seconds >= Delay(n)
  {
    BreakOutcome(s, events);
  }

  lemma BreakIsRecoverable(s: State, events: seq<Event>)
    requires Initial(s) && Run(s, events).workers > 0 && Claims(s, events, 0) < MAX_JOB_ATTEMPTS
    requires Persisted(Run(s, events).document) && Run(s, events).outbox.Some?
    requires Run(s, events).outbox.value.attempts < MAX_OUTBOX_ATTEMPTS
    ensures Recoverable(Step(Run(s, events), Break))
  {
    RunsAreSound(s, events);
    WorkerStepKeepsSound(Run(s, events), Break);
    BreakOutcome(s, events);
    QueuedIsRecoverable(Step(Run(s, events), Break));
  }

  /** A cancelled execution, or one whose lease has expired, may be dispatched again at once. */
  lemma GivenUpNextDispatch(s: State, events: seq<Event>, seconds: nat)
    requires Initial(s) && Run(s, events).job.Some?
    ensures var s' := Run(s, events);
            && s'.outbox.Some?
            && (s'.workers > 0 && s'.job.value.status != Succeeded ==>
                  (Dispatchable(Step(Step(s', Cancel), Tick(seconds))) <==> s'.outbox.value.attempts < MAX_OUTBOX_ATTEMPTS))
            && (LeaseExpired(s') ==>
                  (Dispatchable(Step(Step(s', ReconcileLease), Tick(seconds))) <==> s'.outbox.value.attempts < MAX_OUTBOX_ATTEMPTS))
  {
    RunsAreSound(s, events);
  }

  /** A claim or a renewal holds the job for the length of a lease, and no longer. */
  lemma LeaseLasts(s: State, seconds: nat)
    requires s.job.Some?
    ensures s.queue > 0 && Decide(s) == Claim ==>
              (Leased(Step(Step(s, Execute), Tick(seconds))) <==> seconds < s.leaseSeconds)
    ensures s.job.value.status == Running ==>
              (Leased(Step(Step(s, Renew), Tick(seconds))) <==> seconds < s.leaseSeconds)
  {
  }

  /** Steps that leave a succeeded job alone in any state. */
  predicate LeavesSuccess(e: Event) {
    !OfIndexing(e) && !e.Break? && !e.PublishFail?
  }

  /** A success is on both rows, and until the document is indexed anew no message starts another execution. */
  lemma FinishOutcome(s: State, events: seq<Event>, more: seq<Event>)
    requires Initial(s) && Run(s, events).workers > 0
    requires forall e :: e in more ==> LeavesSuccess(e)
    ensures var done := Step(Run(s, events), Finish);
            && done.job.Some? && done.job.value.status == Succeeded && done.job.value.lease.None?
            && done.document == Document(Indexed, Complete)
            && Run(done, more).job == done.job && Run(done, more).document == done.document
            && Run(done, more).workers <= done.workers
  {
    RunsAreSound(s, events);
    SuccessStays(Step(Run(s, events), Finish), more);
  }

  lemma {:induction false} SuccessStays(s: State, more: seq<Event>)
    requires s.job.Some? && s.job.value.status == Succeeded && s.document == Document(Indexed, Complete)
    requires s.job.value.lease.None?
    requires forall e :: e in more ==> LeavesSuccess(e)
    ensures Run(s, more).job == s.job && Run(s, more).document == s.document && Run(s, more).workers <= s.workers
    decreases |more|
  {
    if more != [] {
      assert more[0] in more;
      SuccessStays(Step(s, more[0]), more[1..]);
    }
  }

  /** A document that is handed on starts anew: with no claim counted, and to be dispatched at once, if its outbox row has
      attempts left from before. */
  lemma HandedOn(s: State, events: seq<Event>, seconds: nat)
    requires Initial(s) && Commits(Run(s, events).index)
    ensures var s' := Run(s, events);
            var t := Step(s', IndexCommit);
            && Claims(s, events + [IndexCommit], 0) == 0 && t.job.Some? && t.job.value.attempt == 0
            && t.document == Document(Persisting, StageQueued) && t.index.status == Some(Succeeded)
            && t.outbox.Some? && t.outbox.value.attempts == (if s'.outbox.Some? then s'.outbox.value.attempts else 0)
            && (Dispatchable(Step(t, Tick(seconds))) <==> t.outbox.value.attempts < MAX_OUTBOX_ATTEMPTS)
  {
    ClaimsAppend(s, events, IndexCommit, 0);
  }

  lemma {:induction false} ClaimsAppend(s: State, events: seq<Event>, e: Event, n: nat)
    ensures Claims(s, events + [e], n) == CountClaim(Run(s, events), e, Claims(s, events, n))
    decreases |events|
  {
    if events == [] {
      assert (events + [e])[1..] == [];
    } else {
      assert (events + [e])[1..] == events[1..] + [e];
      ClaimsAppend(Step(s, events[0]), events[1..], e, CountClaim(s, events[0], n));
    }
  }

  /** An execution claims the job exactly when it is unfinished and not leased, claims are left, and the document is
      persisted.  At the last claim it gives the job up instead; otherwise it only uses up its message. */
  lemma ExecuteOutcome(s: State, events: seq<Event>)
    requires Initial(s) && Run(s, events).queue > 0
    ensures var (s', n) := (Run(s, events), Claims(s, events, 0));
            var (t, open) := (Step(s', Execute), s'.job.Some? && s'.job.value.status != Succeeded && !Leased(s'));
            && (Claims(s, events + [Execute], 0) == n + 1 <==> open && n < MAX_JOB_ATTEMPTS && Persisted(s'.document))
            && (t.workers == s'.workers + 1 <==> open && n < MAX_JOB_ATTEMPTS && Persisted(s'.document))
            && (open && n >= MAX_JOB_ATTEMPTS ==> t.job == Some(s'.job.value.(status := Failed, lease := None)) && t.document == s'.document)
            && (!open || (n < MAX_JOB_ATTEMPTS && !Persisted(s'.document)) ==> t == s'.(queue := s'.queue - 1, held := false))
  {
    RunsAreSound(s, events);
    RunsKeepAllowed(s, events);
    AttemptCountsClaims(s, events, 0);
    ClaimsAppend(s, events, Execute, 0);
  }

  /** Maintenance takes a dispatch back once it is older than two leases, and a job once its lease is over. */
  lemma TakenBack(s: State, seconds: nat)
    requires s.job.Some?
    ensures s.job.value.status == Queued && s.outbox.Some? && s.outbox.value.publishedAt.Some? ==>
              (Step(Step(s, Tick(seconds)), ReconcileDispatch).outbox == Some(Outbox(s.outbox.value.attempts, None))
               <==> s.now + seconds > s.outbox.value.publishedAt.value + 2 * s.leaseSeconds)
    ensures s.job.value.status == Running && s.job.value.lease.Some? ==>
              (Step(Step(s, Tick(seconds)), ReconcileLease).job.value.status == Queued
               <==> s.now + seconds > s.job.value.lease.value)
  {
  }

  /** The indexing job is to be dispatched. */
  predicate IndexDispatchable(i: Indexing) {
    i.status == Some(Queued) && i.outbox.Some? && i.outbox.value.publishedAt.None? && i.outbox.value.attempts < MAX_OUTBOX_ATTEMPTS
  }

  /** A failed indexing run shows on the document, and a retry or a new upload has the job dispatched again. */
  lemma IndexFailOutcome(s: State, events: seq<Event>)
    requires Initial(s) && Commits(Run(s, events).index)
    ensures var s' := Run(s, events);
            var t := Step(s', IndexFail);
            && t.index.status == Some(Failed) && t.document == s'.document.(status := DocumentFailed)
            && t.index.executions == s'.index.executions - 1 && t.index.outbox == s'.index.outbox && t.index.outbox.Some?
            && (IndexDispatchable(Step(t, Upload).index) <==> t.index.outbox.value.attempts < MAX_OUTBOX_ATTEMPTS)
            && Step(t, Upload).document.status == AwaitingIndex
            && (s'.index.held ==> (IndexDispatchable(Step(t, IndexRetry).index) <==> t.index.outbox.value.attempts < MAX_OUTBOX_ATTEMPTS))
  {
    RunsAreSound(s, events);
  }

  /** A cancelled indexing run has its job dispatched again, unless it has succeeded. */
  lemma IndexCancelOutcome(s: State, events: seq<Event>)
    requires Initial(s) && Commits(Run(s, events).index)
    ensures Run(s, events).index.outbox.Some? && CancelRedispatches(Run(s, events).index, Step(Run(s, events), IndexCancel).index)
  {
    RunsAreSound(s, events);
    CancelledIndex(Run(s, events).index);
  }

  predicate CancelRedispatches(i: Indexing, i': Indexing)
    requires i.outbox.Some?
  {
    && i'.executions == i.executions - 1
    && if i.status == Some(Succeeded) then i'.status == i.status
       else IndexDispatchable(i') <==> i.outbox.value.attempts < MAX_OUTBOX_ATTEMPTS
  }

  lemma CancelledIndex(i: Indexing)
    requires Commits(i) && i.outbox.Some?
    ensures CancelRedispatches(i, CancelIndex(i))
  {
  }

  /** Progress of an indexing run under way shows on the document. */
  lemma IndexProgressOutcome(s: State, status: DocumentStatus)
    ensures Step(s, IndexProgress(status)) == if s.index.executions > 0 then s.(document := Document(status, s.document.stage)) else s
  {
  }
}
