/** Runs of the protocol from a fresh document: what it takes for two workers to hold one job, and where jobs end up
    for good. */
module JobRuns {
  import opened Wrappers
  import opened JobProtocol

  // ---------- Putting runs together ----------

  /** A step from `s` to `s'` that breaks no hypothesis, except perhaps one. */
  ghost predicate Goes(s: State, e: Event, s': State, except: Option<Hypothesis>) {
    Step(s, e) == s' && forall h :: Some(h) != except ==> Respects(h, s, e)
  }

  ghost predicate Leads(s: State, events: seq<Event>, s': State, except: Option<Hypothesis>) {
    Disciplined(s, events, except) && Run(s, events) == s'
  }

  lemma Start(s: State, e: Event, s': State, except: Option<Hypothesis>)
    requires Goes(s, e, s', except)
    ensures Leads(s, [e], s', except)
  {
    assert [e][1..] == [];
    assert Disciplined(s', [], except);
  }

  lemma {:induction false} Join(s: State, first: seq<Event>, mid: State, rest: seq<Event>, s': State,
                                except: Option<Hypothesis>)
    requires Leads(s, first, mid, except) && Leads(mid, rest, s', except)
    ensures Leads(s, first + rest, s', except)
    decreases |first|
  {
    if first == [] {
      assert first + rest == rest;
    } else {
      assert (first + rest)[1..] == first[1..] + rest;
      Join(Step(s, first[0]), first[1..], mid, rest, s', except);
    }
  }

  lemma Then(s: State, events: seq<Event>, mid: State, e: Event, s': State, except: Option<Hypothesis>)
    requires Leads(s, events, mid, except) && Goes(mid, e, s', except)
    ensures Leads(s, events + [e], s', except)
  {
    Start(mid, e, s', except);
    Join(s, events, mid, [e], s', except);
  }

  // ---------- From the upload to the waiting graph job ----------

  /** A document that has been uploaded and not yet handed on. */
  function Fresh(now: int, i: Indexing): State {
    State(now, LEASE_SECONDS, None, None, Document(AwaitingIndex, NoStage), multiset{}, 0, false, 0, i)
  }

  function Pending(attempts: nat): Indexing {
    Indexing(Some(Queued), Some(Outbox(attempts, None)), multiset{}, 0, false, 0)
  }

  function Sent(attempts: nat, now: int): Indexing {
    Indexing(Some(Queued), Some(Outbox(attempts, Some(now))), multiset{now}, 0, false, 0)
  }

  function Arrived(now: int): Indexing {
    Indexing(Some(Queued), Some(Outbox(1, Some(now))), multiset{}, 1, false, 0)
  }

  function Begun(now: int): Indexing {
    Indexing(Some(Running), Some(Outbox(1, Some(now))), multiset{}, 0, true, 1)
  }

  /** Found running for too long, delivered once more, and begun a second time. */
  function Recovered(): Indexing {
    Indexing(Some(Queued), Some(Outbox(1, None)), multiset{}, 0, true, 1)
  }

  function Redelivered(): Indexing {
    Indexing(Some(Queued), Some(Outbox(1, None)), multiset{}, 1, false, 1)
  }

  function BegunTwice(): Indexing {
    Indexing(Some(Running), Some(Outbox(1, None)), multiset{}, 0, true, 2)
  }

  /** Indexing has handed the document on; a second execution may be left over. */
  function Handed(leftOver: bool): Indexing {
    if leftOver then Indexing(Some(Succeeded), Some(Outbox(1, None)), multiset{}, 0, false, 1)
    else Indexing(Some(Succeeded), Some(Outbox(1, Some(0))), multiset{}, 0, false, 0)
  }

  lemma Uploading(now: int, except: Option<Hypothesis>)
    ensures Initial(Fresh(now, UNINDEXED)) && Leads(Fresh(now, UNINDEXED), [Upload], Fresh(now, Pending(0)), except)
  {
    assert Goes(Fresh(now, UNINDEXED), Upload, Fresh(now, Pending(0)), except);
    Start(Fresh(now, UNINDEXED), Upload, Fresh(now, Pending(0)), except);
  }

  lemma IndexSending(now: int, attempts: nat, except: Option<Hypothesis>)
    requires attempts < MAX_OUTBOX_ATTEMPTS
    ensures Goes(Fresh(now, Pending(attempts)), IndexDispatch, Fresh(now, Sent(attempts + 1, now)), except)
  {
  }

  lemma IndexArriving(now: int, except: Option<Hypothesis>)
    ensures Goes(Fresh(now, Sent(1, now)), IndexPublishOk(now), Fresh(now, Arrived(now)), except)
  {
    assert multiset{now} - multiset{now} == multiset{};
  }

  lemma IndexBeginning(now: int, except: Option<Hypothesis>)
    ensures Goes(Fresh(now, Arrived(now)), IndexBegin, Fresh(now, Begun(now)), except)
  {
  }

  lemma ToIndexing(now: int, except: Option<Hypothesis>) returns (events: seq<Event>)
    ensures Initial(Fresh(now, UNINDEXED)) && Leads(Fresh(now, UNINDEXED), events, Fresh(now, Begun(now)), except)
  {
    Uploading(now, except);
    IndexSending(now, 0, except);
    IndexArriving(now, except);
    IndexBeginning(now, except);
    events := [Upload];
    Then(Fresh(now, UNINDEXED), events, Fresh(now, Pending(0)), IndexDispatch, Fresh(now, Sent(1, now)), except);
    events := events + [IndexDispatch];
    Then(Fresh(now, UNINDEXED), events, Fresh(now, Sent(1, now)), IndexPublishOk(now), Fresh(now, Arrived(now)), except);
    events := events + [IndexPublishOk(now)];
    Then(Fresh(now, UNINDEXED), events, Fresh(now, Arrived(now)), IndexBegin, Fresh(now, Begun(now)), except);
    events := events + [IndexBegin];
  }

  lemma IndexTicking(except: Option<Hypothesis>)
    ensures Goes(Fresh(-901, Begun(-901)), Tick(901), Fresh(0, Begun(-901)), except)
  {
  }

  lemma IndexRecovering(except: Option<Hypothesis>)
    ensures Goes(Fresh(0, Begun(-901)), IndexRecover, Fresh(0, Recovered()), except)
  {
  }

  lemma IndexRedelivering(except: Option<Hypothesis>)
    ensures Goes(Fresh(0, Recovered()), IndexRedeliver, Fresh(0, Redelivered()), except)
  {
  }

  lemma IndexBeginningAgain(except: Option<Hypothesis>)
    ensures Goes(Fresh(0, Redelivered()), IndexBegin, Fresh(0, BegunTwice()), except)
  {
  }

  lemma IndexRestarts(except: Option<Hypothesis>) returns (events: seq<Event>)
    ensures Leads(Fresh(-901, Begun(-901)), events, Fresh(0, BegunTwice()), except)
  {
    var s := Fresh(-901, Begun(-901));
    IndexTicking(except);
    IndexRecovering(except);
    IndexRedelivering(except);
    IndexBeginningAgain(except);
    Start(s, Tick(901), Fresh(0, Begun(-901)), except);
    events := [Tick(901)];
    Then(s, events, Fresh(0, Begun(-901)), IndexRecover, Fresh(0, Recovered()), except);
    events := events + [IndexRecover];
    Then(s, events, Fresh(0, Recovered()), IndexRedeliver, Fresh(0, Redelivered()), except);
    events := events + [IndexRedeliver];
    Then(s, events, Fresh(0, Redelivered()), IndexBegin, Fresh(0, BegunTwice()), except);
    events := events + [IndexBegin];
  }

  /** A queued job at clock 0 whose outbox has seen `attempts` dispatches. */
  function Waiting(attempts: nat, i: Indexing): State {
    State(0, LEASE_SECONDS, Some(GraphJob(Queued, 0, MAX_JOB_ATTEMPTS, 0, None)), Some(Outbox(attempts, None)),
          Document(Persisting, StageQueued), multiset{}, 0, false, 0, i)
  }

  lemma Handing(leftOver: bool, except: Option<Hypothesis>)
    ensures Goes(Fresh(0, if leftOver then BegunTwice() else Begun(0)), IndexCommit, Waiting(0, Handed(leftOver)), except)
  {
  }

  /** Indexing a fresh document leaves its graph job waiting, perhaps with one more indexing execution left over. */
  lemma FromUpload(leftOver: bool, except: Option<Hypothesis>) returns (s: State, events: seq<Event>)
    ensures Initial(s) && Leads(s, events, Waiting(0, Handed(leftOver)), except)
  {
    var now := if leftOver then -901 else 0;
    s := Fresh(now, UNINDEXED);
    events := ToIndexing(now, except);
    if leftOver {
      var more := IndexRestarts(except);
      Join(s, events, Fresh(-901, Begun(-901)), more, Fresh(0, BegunTwice()), except);
      events := events + more;
    }
    Handing(leftOver, except);
    Then(s, events, Fresh(0, if leftOver then BegunTwice() else Begun(0)), IndexCommit, Waiting(0, Handed(leftOver)), except);
    events := events + [IndexCommit];
  }

  // ---------- Dispatches ----------

  /** The job of `Waiting` has been dispatched at clock 0 and not yet published. */
  function Dispatched(attempts: nat, i: Indexing): State {
    Waiting(attempts, i).(outbox := Some(Outbox(attempts, Some(0))), publishing := multiset{0})
  }

  function Published(attempts: nat, i: Indexing): State {
    Waiting(attempts, i).(outbox := Some(Outbox(attempts, Some(0))), queue := 1)
  }

  /** The first worker has just claimed the job. */
  function Claimed(attempts: nat, i: Indexing): State {
    State(0, LEASE_SECONDS, Some(GraphJob(Running, 1, MAX_JOB_ATTEMPTS, 0, Some(LEASE_SECONDS))),
          Some(Outbox(attempts, Some(0))), Document(Persisting, Extracting), multiset{}, 0, true, 1, i)
  }

  lemma Dispatching(attempts: nat, i: Indexing, except: Option<Hypothesis>)
    requires attempts < MAX_OUTBOX_ATTEMPTS
    ensures Goes(Waiting(attempts, i), Dispatch, Dispatched(attempts + 1, i), except)
  {
  }

  lemma Publishing(attempts: nat, i: Indexing, except: Option<Hypothesis>)
    ensures Goes(Dispatched(attempts, i), PublishOk(0), Published(attempts, i), except)
    ensures attempts < MAX_OUTBOX_ATTEMPTS ==> Goes(Dispatched(attempts, i), PublishFail(0), Waiting(attempts, i), except)
  {
    assert multiset{0} - multiset{0} == multiset{};
  }

  lemma Claiming(attempts: nat, i: Indexing, except: Option<Hypothesis>)
    ensures Goes(Published(attempts, i), Execute, Claimed(attempts, i), except)
  {
  }

  /** Failed publishes bring the outbox of a waiting job up to any number of attempts below the limit. */
  lemma {:induction false} WaitLonger(attempts: nat, goal: nat, i: Indexing, except: Option<Hypothesis>)
    returns (events: seq<Event>)
    requires attempts <= goal < MAX_OUTBOX_ATTEMPTS
    ensures Leads(Waiting(attempts, i), events, Waiting(goal, i), except)
    decreases goal - attempts
  {
    events := [];
    if attempts < goal {
      Dispatching(attempts, i, except);
      Publishing(attempts + 1, i, except);
      Start(Waiting(attempts, i), Dispatch, Dispatched(attempts + 1, i), except);
      Then(Waiting(attempts, i), [Dispatch], Dispatched(attempts + 1, i), PublishFail(0), Waiting(attempts + 1, i), except);
      var rest := WaitLonger(attempts + 1, goal, i, except);
      Join(Waiting(attempts, i), [Dispatch] + [PublishFail(0)], Waiting(attempts + 1, i), rest, Waiting(goal, i), except);
      events := [Dispatch] + [PublishFail(0)] + rest;
    }
  }

  lemma FirstClaim(attempts: nat, i: Indexing, except: Option<Hypothesis>) returns (events: seq<Event>)
    requires attempts < MAX_OUTBOX_ATTEMPTS
    ensures Leads(Waiting(attempts, i), events, Claimed(attempts + 1, i), except)
  {
    var s := Waiting(attempts, i);
    Dispatching(attempts, i, except);
    Publishing(attempts + 1, i, except);
    Claiming(attempts + 1, i, except);
    Start(s, Dispatch, Dispatched(attempts + 1, i), except);
    Then(s, [Dispatch], Dispatched(attempts + 1, i), PublishOk(0), Published(attempts + 1, i), except);
    Then(s, [Dispatch] + [PublishOk(0)], Published(attempts + 1, i), Execute, Claimed(attempts + 1, i), except);
    events := [Dispatch] + [PublishOk(0)] + [Execute];
  }

  // ---------- Each hypothesis is needed ----------

  lemma Free(s: State, e: Event, except: Option<Hypothesis>)
    requires e.Forget? || e.Dispatch? || e.PublishOk? || e.Execute? || e.ReconcileLease? || e.ReconcileDispatch? || e.Upload?
    ensures Goes(s, e, Step(s, e), except)
  {
  }

  /** The broker gives up the execution under way, and the job is dispatched to a second worker. */
  lemma SecondClaim(s: State, except: Option<Hypothesis>) returns (events: seq<Event>, s': State)
    requires s.workers == 1 && Dispatchable(s) && Persisted(s.document) && s.job.value.attempt < s.job.value.maxAttempts
    ensures Leads(s, events, s', except) && s'.workers == 2
  {
    var s1 := Step(s, Forget);
    var s2 := Step(s1, Dispatch);
    Free(s, Forget, except);
    Free(s1, Dispatch, except);
    Start(s, Forget, s1, except);
    Then(s, [Forget], s1, Dispatch, s2, except);
    var rest;
    rest, s' := Delivered(s2, s.now, except);
    Join(s, [Forget] + [Dispatch], s2, rest, s', except);
    events := [Forget] + [Dispatch] + rest;
  }

  lemma Delivered(s: State, claimedAt: int, except: Option<Hypothesis>) returns (events: seq<Event>, s': State)
    requires s.workers == 1 && !s.held && claimedAt in s.publishing && Decide(s) == Claim
    ensures Leads(s, events, s', except) && s'.workers == 2
  {
    var s1 := Step(s, PublishOk(claimedAt));
    s' := Step(s1, Execute);
    Free(s, PublishOk(claimedAt), except);
    Free(s1, Execute, except);
    Start(s, PublishOk(claimedAt), s1, except);
    Then(s, [PublishOk(claimedAt)], s1, Execute, s', except);
    events := [PublishOk(claimedAt)] + [Execute];
  }

  /** From one worker on, a step that only the excepted hypothesis forbids opens the job to a second one. */
  lemma Opened(s: State, e: Event, h: Hypothesis) returns (events: seq<Event>, s': State)
    requires forall g :: g != h ==> Respects(g, s, e)
    requires var t := Step(s, e);
             t.workers == 1 && Dispatchable(t) && Persisted(t.document) && t.job.value.attempt < t.job.value.maxAttempts
    ensures Leads(s, events, s', Some(h)) && s'.workers == 2
  {
    assert Goes(s, e, Step(s, e), Some(h));
    Start(s, e, Step(s, e), Some(h));
    var rest;
    rest, s' := SecondClaim(Step(s, e), Some(h));
    Join(s, [e], Step(s, e), rest, s', Some(h));
    events := [e] + rest;
  }

  /** The lease has run out under its worker. */
  function Overdue(i: Indexing): State {
    Claimed(1, i).(now := 301)
  }

  lemma LeaseLost(i: Indexing) returns (events: seq<Event>, s': State)
    ensures Leads(Claimed(1, i), events, s', Some(LeaseHeld)) && s'.workers == 2
  {
    assert Goes(Claimed(1, i), Tick(301), Overdue(i), Some(LeaseHeld));
    Start(Claimed(1, i), Tick(301), Overdue(i), Some(LeaseHeld));
    var rest;
    rest, s' := Opened(Overdue(i), ReconcileLease, LeaseHeld);
    Join(Claimed(1, i), [Tick(301)], Overdue(i), rest, s', Some(LeaseHeld));
    events := [Tick(301)] + rest;
  }

  /** From the claim of the first worker on, for the hypotheses that the last publish has nothing to do with. */
  lemma ClaimedTwice(h: Hypothesis, i: Indexing) returns (events: seq<Event>, s': State)
    requires h != LastPublishArrives && i == Handed(h == EnqueueWhenIdle)
    ensures Leads(Claimed(1, i), events, s', Some(h)) && s'.workers == 2
  {
    match h {
      case LeaseHeld => events, s' := LeaseLost(i);
      case CancelByHolder => events, s' := Opened(Claimed(1, i), StrayCancel, h);
      case EnqueueWhenIdle => events, s' := Opened(Claimed(1, i), IndexCommit, h);
    }
  }

  /** Dropping any one hypothesis lets two workers hold the same job, with a broker that gives up executions. */
  lemma EveryHypothesisIsNeeded(h: Hypothesis) returns (s: State, events: seq<Event>)
    ensures Initial(s) && Disciplined(s, events, Some(h)) && Run(s, events).workers == 2
  {
    var i := Handed(h == EnqueueWhenIdle);
    var rest, last;
    s, events := FromUpload(h == EnqueueWhenIdle, Some(h));
    if h == LastPublishArrives {
      rest, last := LastPublishLost(i);
    } else {
      var claim := FirstClaim(0, i, Some(h));
      rest, last := ClaimedTwice(h, i);
      Join(Waiting(0, i), claim, Claimed(1, i), rest, last, Some(h));
      rest := claim + rest;
    }
    Join(s, events, Waiting(0, i), rest, last, Some(h));
    events := events + rest;
  }

  /** `n` publishes have not been answered in time, and the job has been taken back for another dispatch. */
  function Stalled(n: nat, i: Indexing): State
    requires n <= 2
  {
    var pending := if n == 0 then multiset{} else if n == 1 then multiset{0} else multiset{0, 601};
    Waiting(17 + n, i).(now := 601 * n, publishing := pending)
  }

  /** A dispatch after `n` that stalled. */
  function Sending(n: nat, i: Indexing): State
    requires n <= 2
  {
    Stalled(n, i).(outbox := Some(Outbox(18 + n, Some(601 * n))), publishing := Stalled(n, i).publishing + multiset{601 * n})
  }

  lemma SendingNext(n: nat, i: Indexing, except: Option<Hypothesis>)
    requires n < 2
    ensures Goes(Stalled(n, i), Dispatch, Sending(n, i), except)
  {
  }

  lemma Waits(n: nat, i: Indexing, except: Option<Hypothesis>)
    requires n < 2
    ensures Goes(Sending(n, i), Tick(601), Sending(n, i).(now := 601 * n + 601), except)
  {
  }

  lemma PendingGrows(n: nat, i: Indexing)
    requires n < 2
    ensures Sending(n, i).publishing == Stalled(n + 1, i).publishing
  {
    if n == 0 {
      assert multiset{} + multiset{0} == multiset{0};
    } else {
      assert multiset{0} + multiset{601} == multiset{0, 601};
    }
  }

  lemma TakingBack(n: nat, i: Indexing, except: Option<Hypothesis>)
    requires n < 2
    ensures Goes(Sending(n, i).(now := 601 * n + 601), ReconcileDispatch, Stalled(n + 1, i), except)
  {
    PendingGrows(n, i);
  }

  lemma Stall(n: nat, i: Indexing, except: Option<Hypothesis>) returns (events: seq<Event>)
    requires n < 2
    ensures Leads(Stalled(n, i), events, Stalled(n + 1, i), except)
  {
    SendingNext(n, i, except);
    Waits(n, i, except);
    TakingBack(n, i, except);
    var late := Sending(n, i).(now := 601 * n + 601);
    Start(Stalled(n, i), Dispatch, Sending(n, i), except);
    Then(Stalled(n, i), [Dispatch], Sending(n, i), Tick(601), late, except);
    Then(Stalled(n, i), [Dispatch] + [Tick(601)], late, ReconcileDispatch, Stalled(n + 1, i), except);
    events := [Dispatch] + [Tick(601)] + [ReconcileDispatch];
  }

  /** The first of three publishes under way is accepted. */
  function OldestAccepted(i: Indexing): State {
    Sending(2, i).(publishing := multiset{601, 1202}, queue := 1)
  }

  /** A worker has taken that message while the twentieth publish is under way. */
  function Overtaken(i: Indexing): State {
    State(1202, LEASE_SECONDS, Some(GraphJob(Running, 1, MAX_JOB_ATTEMPTS, 0, Some(1502))), Some(Outbox(20, Some(1202))),
          Document(Persisting, Extracting), multiset{601, 1202}, 0, true, 1, i)
  }

  lemma SendingLast(i: Indexing, except: Option<Hypothesis>)
    ensures Goes(Stalled(2, i), Dispatch, Sending(2, i), except)
  {
  }

  lemma AcceptingOldest(i: Indexing, except: Option<Hypothesis>)
    ensures Goes(Sending(2, i), PublishOk(0), OldestAccepted(i), except)
  {
    WithoutOldest(i);
  }

  lemma WithoutOldest(i: Indexing)
    ensures 0 in Sending(2, i).publishing && Sending(2, i).publishing - multiset{0} == multiset{601, 1202}
  {
    assert multiset{0, 601} + multiset{1202} - multiset{0} == multiset{601, 1202};
  }

  lemma Overtaking(i: Indexing, except: Option<Hypothesis>)
    ensures Goes(OldestAccepted(i), Execute, Overtaken(i), except)
  {
  }

  /** The twentieth publish has failed under the worker. */
  function FailedUnder(i: Indexing): State {
    State(1202, LEASE_SECONDS, Some(GraphJob(Failed, 1, MAX_JOB_ATTEMPTS, 0, Some(1502))), Some(Outbox(20, None)),
          Document(DocumentFailed, StageFailed), multiset{601}, 0, true, 1, i)
  }

  lemma FailingUnder(i: Indexing)
    ensures Goes(Overtaken(i), PublishFail(1202), FailedUnder(i), Some(LastPublishArrives))
  {
    assert multiset{601, 1202} - multiset{1202} == multiset{601};
  }

  lemma ToOvertaken(i: Indexing, except: Option<Hypothesis>) returns (events: seq<Event>)
    ensures Leads(Waiting(0, i), events, Overtaken(i), except)
  {
    var s := Waiting(0, i);
    events := WaitLonger(0, 17, i, except);
    var first := Stall(0, i, except);
    var second := Stall(1, i, except);
    assert Stalled(0, i) == Waiting(17, i);
    Join(s, events, Stalled(0, i), first, Stalled(1, i), except);
    events := events + first;
    Join(s, events, Stalled(1, i), second, Stalled(2, i), except);
    events := events + second;
    SendingLast(i, except);
    AcceptingOldest(i, except);
    Overtaking(i, except);
    Then(s, events, Stalled(2, i), Dispatch, Sending(2, i), except);
    Then(s, events + [Dispatch], Sending(2, i), PublishOk(0), OldestAccepted(i), except);
    Then(s, events + [Dispatch] + [PublishOk(0)], OldestAccepted(i), Execute, Overtaken(i), except);
    events := events + [Dispatch] + [PublishOk(0)] + [Execute];
  }

  /** The document is uploaded again, which makes it persisted; the broker gives up the execution, accepts the
      remaining message, and that claims the job too. */
  lemma LastPublishLost(i: Indexing) returns (events: seq<Event>, s': State)
    requires i.status == Some(Succeeded)
    ensures Leads(Waiting(0, i), events, s', Some(LastPublishArrives)) && s'.workers == 2
  {
    var x := Some(LastPublishArrives);
    var s := Waiting(0, i);
    events := ToOvertaken(i, x);
    FailingUnder(i);
    Then(s, events, Overtaken(i), PublishFail(1202), FailedUnder(i), x);
    events := events + [PublishFail(1202)];
    var rest;
    rest, s' := TakenAgain(i, x);
    Join(s, events, FailedUnder(i), rest, s', x);
    events := events + rest;
  }

  lemma TakenAgain(i: Indexing, except: Option<Hypothesis>) returns (events: seq<Event>, s': State)
    requires i.status == Some(Succeeded)
    ensures Leads(FailedUnder(i), events, s', except) && s'.workers == 2
  {
    var s := FailedUnder(i);
    var s1 := Step(s, Upload);
    var s2 := Step(s1, Forget);
    Free(s, Upload, except);
    Free(s1, Forget, except);
    Start(s, Upload, s1, except);
    Then(s, [Upload], s1, Forget, s2, except);
    var rest;
    rest, s' := Delivered(s2, 601, except);
    Join(s, [Upload] + [Forget], s2, rest, s', except);
    events := [Upload] + [Forget] + rest;
  }

  // ---------- Readings that are shared ----------

  /** The job has been enqueued anew while its first publish was under way. */
  function EnqueuedAgain(): State {
    Waiting(1, Handed(true).(executions := 0)).(publishing := multiset{0})
  }

  function SentTwice(): State {
    EnqueuedAgain().(outbox := Some(Outbox(2, Some(0))), publishing := multiset{0, 0})
  }

  lemma SendingTwice()
    ensures Goes(Dispatched(1, Handed(true)), IndexCommit, EnqueuedAgain(), None)
    ensures Goes(EnqueuedAgain(), Dispatch, SentTwice(), None)
  {
    assert multiset{0} + multiset{0} == multiset{0, 0};
  }

  /** Dispatches that share a clock reading are confused: the second indexing execution enqueues the job anew within
      one reading, and then the failure of the first publish takes back the second. */
  lemma SharedReadingIsConfused() returns (s: State, events: seq<Event>)
    ensures Initial(s)
    ensures var s' := Run(s, events);
            && s'.publishing[0] == 2 && s'.outbox == Some(Outbox(2, Some(0)))
            && Step(s', PublishFail(0)).publishing[0] == 1 && Step(s', PublishFail(0)).outbox == Some(Outbox(2, None))
  {
    var i := Handed(true);
    s, events := FromUpload(true, None);
    Dispatching(0, i, None);
    SendingTwice();
    Then(s, events, Waiting(0, i), Dispatch, Dispatched(1, i), None);
    Then(s, events + [Dispatch], Dispatched(1, i), IndexCommit, EnqueuedAgain(), None);
    Then(s, events + [Dispatch] + [IndexCommit], EnqueuedAgain(), Dispatch, SentTwice(), None);
    events := events + [Dispatch] + [IndexCommit] + [Dispatch];
  }

  // ---------- Dead ends ----------

  /** A worker that took the twentieth message has been cancelled. */
  function Cancelled(i: Indexing): State {
    State(0, LEASE_SECONDS, Some(GraphJob(Queued, 1, MAX_JOB_ATTEMPTS, 0, None)), Some(Outbox(20, None)),
          Document(Persisting, Extracting), multiset{}, 0, true, 0, i)
  }

  lemma Cancelling(i: Indexing)
    ensures Goes(Claimed(20, i), Cancel, Cancelled(i), None)
  {
  }

  /** A disciplined run without any loss ends in a dead end: nineteen failed publishes, the twentieth delivered, and
      the worker cancelled. */
  lemma DeadEndHappens() returns (s: State, events: seq<Event>)
    ensures Initial(s) && Disciplined(s, events, None)
    ensures DeadEnd(Run(s, events)) && Unfinished(Run(s, events))
  {
    var i := Handed(false);
    s, events := FromUpload(false, None);
    var failures := WaitLonger(0, 19, i, None);
    Join(s, events, Waiting(0, i), failures, Waiting(19, i), None);
    events := events + failures;
    var claim := FirstClaim(19, i, None);
    Join(s, events, Waiting(19, i), claim, Claimed(20, i), None);
    events := events + claim;
    Cancelling(i);
    Then(s, events, Claimed(20, i), Cancel, Cancelled(i), None);
    events := events + [Cancel];
  }

  /** Nothing but failed publishes is needed for a document that is never indexed: after the twentieth the job fails,
      and the next upload queues it with its attempts used up. */
  lemma IndexDeadEndHappens() returns (s: State, events: seq<Event>)
    ensures Initial(s) && Disciplined(s, events, None)
    ensures IndexDeadEnd(Run(s, events).index) && Run(s, events).index.status == Some(Queued)
  {
    s := Fresh(0, UNINDEXED);
    Uploading(0, None);
    var failures := IndexFailures(0);
    Join(s, [Upload], Fresh(0, Pending(0)), failures, IndexFailed(), None);
    events := [Upload] + failures;
    assert Goes(IndexFailed(), Upload, Fresh(0, Pending(20)), None);
    Then(s, events, IndexFailed(), Upload, Fresh(0, Pending(20)), None);
    events := events + [Upload];
  }

  function IndexFailed(): State {
    Fresh(0, Pending(20).(status := Some(Failed))).(document := Document(DocumentFailed, NoStage))
  }

  lemma IndexFailing(attempts: nat)
    requires 1 <= attempts <= MAX_OUTBOX_ATTEMPTS
    ensures Goes(Fresh(0, Sent(attempts, 0)), IndexPublishFail(0),
                 if attempts == MAX_OUTBOX_ATTEMPTS then IndexFailed() else Fresh(0, Pending(attempts)), None)
  {
    assert multiset{0} - multiset{0} == multiset{};
  }

  lemma {:induction false} IndexFailures(attempts: nat) returns (events: seq<Event>)
    requires attempts < MAX_OUTBOX_ATTEMPTS
    ensures Leads(Fresh(0, Pending(attempts)), events, IndexFailed(), None)
    decreases MAX_OUTBOX_ATTEMPTS - attempts
  {
    var s, more := Fresh(0, Pending(attempts)), attempts + 1;
    IndexSending(0, attempts, None);
    IndexFailing(more);
    Start(s, IndexDispatch, Fresh(0, Sent(more, 0)), None);
    events := [IndexDispatch] + [IndexPublishFail(0)];
    if more == MAX_OUTBOX_ATTEMPTS {
      Then(s, [IndexDispatch], Fresh(0, Sent(more, 0)), IndexPublishFail(0), IndexFailed(), None);
    } else {
      Then(s, [IndexDispatch], Fresh(0, Sent(more, 0)), IndexPublishFail(0), Fresh(0, Pending(more)), None);
      var rest := IndexFailures(more);
      Join(s, events, Fresh(0, Pending(more)), rest, IndexFailed(), None);
      events := events + rest;
    }
  }

  // ---------- Giving up at the last attempt ----------

  /** `n` workers have claimed the job and crashed. */
  function Crashed(n: nat, i: Indexing): State {
    State(301 * n, LEASE_SECONDS, Some(GraphJob(Queued, n, MAX_JOB_ATTEMPTS, 301 * n, None)), Some(Outbox(n, None)),
          Document(Persisting, if n == 0 then StageQueued else Extracting), multiset{}, 0, false, 0, i)
  }

  /** The next dispatch has been delivered. */
  function Awaiting(n: nat, i: Indexing): State {
    Crashed(n, i).(outbox := Some(Outbox(n + 1, Some(301 * n))), queue := 1)
  }

  function Sought(n: nat, i: Indexing): State {
    Crashed(n, i).(outbox := Some(Outbox(n + 1, Some(301 * n))), publishing := multiset{301 * n})
  }

  function Taken(n: nat, i: Indexing): State {
    State(301 * n, LEASE_SECONDS, Some(GraphJob(Running, n + 1, MAX_JOB_ATTEMPTS, 301 * n, Some(301 * n + 300))),
          Some(Outbox(n + 1, Some(301 * n))), Document(Persisting, Extracting), multiset{}, 0, true, 1, i)
  }

  lemma Seeking(n: nat, i: Indexing)
    requires n < MAX_OUTBOX_ATTEMPTS
    ensures Goes(Crashed(n, i), Dispatch, Sought(n, i), None)
    ensures Goes(Sought(n, i), PublishOk(301 * n), Awaiting(n, i), None)
  {
    assert multiset{} + multiset{301 * n} == multiset{301 * n};
    assert multiset{301 * n} - multiset{301 * n} == multiset{};
  }

  lemma Taking(n: nat, i: Indexing)
    requires n < MAX_JOB_ATTEMPTS
    ensures Goes(Awaiting(n, i), Execute, Taken(n, i), None)
  {
  }

  /** The worker crashes, the broker gives its message up, and the lease runs out. */
  function Abandoned(n: nat, i: Indexing): State {
    Taken(n, i).(workers := 0)
  }

  lemma Crashing(n: nat, i: Indexing)
    ensures Goes(Taken(n, i), Crash, Abandoned(n, i), None)
    ensures Goes(Abandoned(n, i), Forget, Abandoned(n, i).(held := false), None)
    ensures Goes(Abandoned(n, i).(held := false), Tick(301), Abandoned(n, i).(held := false, now := 301 * n + 301), None)
    ensures Goes(Abandoned(n, i).(held := false, now := 301 * n + 301), ReconcileLease, Crashed(n + 1, i), None)
  {
  }

  lemma ToAwaiting(n: nat, i: Indexing) returns (events: seq<Event>)
    requires n < MAX_OUTBOX_ATTEMPTS
    ensures Leads(Crashed(n, i), events, Awaiting(n, i), None)
  {
    Seeking(n, i);
    Start(Crashed(n, i), Dispatch, Sought(n, i), None);
    Then(Crashed(n, i), [Dispatch], Sought(n, i), PublishOk(301 * n), Awaiting(n, i), None);
    events := [Dispatch] + [PublishOk(301 * n)];
  }

  lemma OneCrash(n: nat, i: Indexing) returns (events: seq<Event>)
    requires n < MAX_JOB_ATTEMPTS
    ensures Leads(Crashed(n, i), events, Crashed(n + 1, i), None)
  {
    var s, a := Crashed(n, i), Abandoned(n, i);
    events := ToAwaiting(n, i);
    Taking(n, i);
    Crashing(n, i);
    Then(s, events, Awaiting(n, i), Execute, Taken(n, i), None);
    events := events + [Execute];
    Then(s, events, Taken(n, i), Crash, a, None);
    events := events + [Crash];
    Then(s, events, a, Forget, a.(held := false), None);
    events := events + [Forget];
    Then(s, events, a.(held := false), Tick(301), a.(held := false, now := 301 * n + 301), None);
    events := events + [Tick(301)];
    Then(s, events, a.(held := false, now := 301 * n + 301), ReconcileLease, Crashed(n + 1, i), None);
    events := events + [ReconcileLease];
  }

  lemma {:induction false} Crashes(n: nat, i: Indexing) returns (events: seq<Event>)
    requires n <= MAX_JOB_ATTEMPTS
    ensures Leads(Crashed(0, i), events, Crashed(n, i), None)
  {
    events := [];
    if n > 0 {
      events := Crashes(n - 1, i);
      var rest := OneCrash(n - 1, i);
      Join(Crashed(0, i), events, Crashed(n - 1, i), rest, Crashed(n, i), None);
      events := events + rest;
    }
  }

  /** Five crashes, and the sixth execution gives the job up: it has failed while its document reads as being
      extracted. */
  lemma CrashesFallOutOfStep() returns (s: State, events: seq<Event>)
    ensures Initial(s) && Disciplined(s, events, None)
    ensures var s' := Run(s, events); OutOfStep(s') && s'.document == Document(Persisting, Extracting)
  {
    var i := Handed(false);
    s, events := FromUpload(false, None);
    assert Waiting(0, i) == Crashed(0, i);
    var crashes := Crashes(5, i);
    Join(s, events, Crashed(0, i), crashes, Crashed(5, i), None);
    events := events + crashes;
    var last := ToAwaiting(5, i);
    Join(s, events, Crashed(5, i), last, Awaiting(5, i), None);
    events := events + last;
    var s' := Step(Awaiting(5, i), Execute);
    assert Decide(Receive(Awaiting(5, i))) == GiveUp;
    Free(Awaiting(5, i), Execute, None);
    Then(s, events, Awaiting(5, i), Execute, s', None);
    events := events + [Execute];
  }
}
