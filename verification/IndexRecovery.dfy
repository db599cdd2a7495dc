/** When an indexing job can still be brought on: apps/api/app/arq_worker.py and apps/api/app/ingestion.py. */
module IndexRecovery {
  import opened Wrappers
  import opened JobProtocol

  /** The steps that the workers, their maintenance loop and the broker take of themselves. */
  predicate IndexMaintenance(e: Event) {
    e.Tick? || e.IndexDispatch? || e.IndexPublishOk? || e.IndexPublishFail? || e.IndexRecover? || e.IndexRecoverDispatch?
    || e.IndexBegin? || e.IndexRedeliver? || e.IndexForget?
  }

  /** The step claims the job or ends it. */
  predicate IndexSettles(i: Indexing, e: Event) {
    || (e.IndexBegin? && IndexClaims(i))
    || (e.IndexPublishFail? && e.indexClaimedAt in i.publishing && IndexGivesUp(i, e.indexClaimedAt))
  }

  predicate IndexAdvances(s: State, events: seq<Event>)
    decreases |events|
  {
    && events != [] && IndexMaintenance(events[0])
    && (IndexSettles(s.index, events[0]) || IndexAdvances(Step(s, events[0]), events[1..]))
  }

  ghost predicate IndexRecoverable(s: State) {
    exists events :: IndexAdvances(s, events)
  }

  ghost predicate IndexUnfinished(i: Indexing) {
    i.status == Some(Queued) || i.status == Some(Running)
  }

  lemma StrandedStep(s: State, e: Event)
    requires IndexStranded(s.index) && IndexMaintenance(e)
    ensures IndexStranded(Step(s, e).index) && !IndexSettles(s.index, e)
  {
  }

  /** No sequence of maintenance steps moves a stranded indexing job. */
  lemma {:induction false} IndexStrandedStaysStranded(s: State, events: seq<Event>)
    requires IndexStranded(s.index)
    ensures !IndexAdvances(s, events)
    decreases |events|
  {
    if events != [] && IndexMaintenance(events[0]) {
      StrandedStep(s, events[0]);
      IndexStrandedStaysStranded(Step(s, events[0]), events[1..]);
    }
  }

  lemma ThenRecoverable(s: State, e: Event)
    requires IndexMaintenance(e) && (IndexSettles(s.index, e) || IndexRecoverable(Step(s, e)))
    ensures IndexRecoverable(s)
  {
    if IndexSettles(s.index, e) {
      assert IndexAdvances(s, [e]);
    } else {
      var rest :| IndexAdvances(Step(s, e), rest);
      assert ([e] + rest)[1..] == rest;
      assert IndexAdvances(s, [e] + rest);
    }
  }

  lemma PublishingIsRecoverable(s: State, t: int)
    requires s.index.status == Some(Queued) && t in s.index.publishing && !s.index.held
    ensures IndexRecoverable(s)
  {
    ThenRecoverable(Step(s, IndexPublishOk(t)), IndexBegin);
    ThenRecoverable(s, IndexPublishOk(t));
  }

  lemma UnsentIsRecoverable(s: State)
    requires s.index.status == Some(Queued) && !s.index.held && s.index.outbox.Some?
    requires s.index.outbox.value.attempts < MAX_OUTBOX_ATTEMPTS && s.index.outbox.value.publishedAt.None?
    ensures IndexRecoverable(s)
  {
    PublishingIsRecoverable(Step(s, IndexDispatch), s.now);
    ThenRecoverable(s, IndexDispatch);
  }

  lemma SentIsRecoverable(s: State)
    requires IndexSound(s.index, s.now) && s.index.status == Some(Queued) && !s.index.held
    requires s.index.outbox.value.attempts < MAX_OUTBOX_ATTEMPTS && s.index.outbox.value.publishedAt.Some?
    ensures IndexRecoverable(s)
  {
    var wait := 2 * INDEX_STALE_SECONDS + 1 + s.now - s.index.outbox.value.publishedAt.value;
    var s1 := Step(s, Tick(wait));
    UnsentIsRecoverable(Step(s1, IndexRecoverDispatch));
    ThenRecoverable(s1, IndexRecoverDispatch);
    ThenRecoverable(s, Tick(wait));
  }

  lemma QueuedIsRecoverable(s: State)
    requires IndexSound(s.index, s.now) && s.index.status == Some(Queued) && !IndexStranded(s.index)
    ensures IndexRecoverable(s)
  {
    if s.index.queue > 0 {
      ThenRecoverable(s, IndexBegin);
    } else if s.index.held {
      ThenRecoverable(Step(s, IndexRedeliver), IndexBegin);
      ThenRecoverable(s, IndexRedeliver);
    } else if t :| t in s.index.publishing {
      PublishingIsRecoverable(s, t);
    } else if s.index.outbox.value.publishedAt.None? {
      UnsentIsRecoverable(s);
    } else {
      SentIsRecoverable(s);
    }
  }

  /** A queued or running indexing job can be brought to a run or an end by maintenance alone exactly when it is not
      stranded. */
  lemma IndexRecoverableUnlessStranded(s: State, events: seq<Event>)
    requires Initial(s) && IndexUnfinished(Run(s, events).index)
    ensures IndexRecoverable(Run(s, events)) <==> !IndexStranded(Run(s, events).index)
  {
    var s' := Run(s, events);
    RunsAreSound(s, events);
    if IndexStranded(s'.index) {
      forall es
        ensures !IndexAdvances(s', es)
      {
        IndexStrandedStaysStranded(s', es);
      }
    } else if s'.index.status == Some(Running) {
      QueuedIsRecoverable(Step(s', IndexRecover));
      ThenRecoverable(s', IndexRecover);
    } else {
      QueuedIsRecoverable(s');
    }
  }

  lemma StepStaysDead(s: State, e: Event)
    requires IndexDeadEnd(s.index)
    ensures IndexDeadEnd(Step(s, e).index)
  {
  }

  /** Without an execution under way it is never indexed: no step of any kind, a new upload included, helps. */
  lemma {:induction false} IndexDeadEndIsForever(s: State, events: seq<Event>)
    requires IndexDeadEnd(s.index)
    ensures IndexDeadEnd(Run(s, events).index)
    decreases |events|
  {
    if events != [] {
      StepStaysDead(s, events[0]);
      IndexDeadEndIsForever(Step(s, events[0]), events[1..]);
    }
  }
}
