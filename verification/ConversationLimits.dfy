/** Where the runtime's promises stop: what the sweeper cannot undo, when an abandonment does
    nothing, and the outcome the schema refuses. */
module ConversationLimits {
  import opened Text
  import opened ConversationModel
  import opened ConversationInvariants
  import opened ConversationIngestion
  import opened ConversationAdmission
  import opened ConversationSweep
  import opened ConversationHistory
  import opened ConversationTheorems

  /******* Entries that can never start *******/

  /** A queue entry whose run no longer waits: it was started or ended by another fact. */
  ghost predicate Stale(s: Store, k: QueueKey) {
    k in s.deferred && s.deferred[k] in s.runs && s.runs[s.deferred[k]].life.status != Pending
  }

  lemma AdmissionKeepsQueue(s: Store, spec: StartSpec, now: int, s': Store)
    requires Admission(s, spec, now, s')
    ensures s'.deferred == s.deferred
  {}

  /** No transaction but a sweep takes entries off the queue. */
  lemma QueueOnlyGrows(s: Store, a: Action, k: QueueKey)
    requires Inv(s) && !a.Promote? && k in s.deferred
    ensures k in Step(s, a).deferred && Step(s, a).deferred[k] == s.deferred[k]
  {
    match a {
      case Start(raw, freshRun, freshMessage, _, now) =>
        StartStep(s, a);
        if Step(s, a) != s { AdmissionKeepsQueue(s, PrepareStart(raw, freshRun, freshMessage), now, Step(s, a)); }
      case Ingest(event) =>
        var effect, parked := IngestStep(s, event);
        if Step(s, a) != s { NextKeepsEntry(s, Prepare(event), effect, parked, k); }
      case Abandon(runIds, now) =>
        if ExpiredBatch(s, runIds, now) { AbandonKeepsQueue(s, runIds, now); }
    }
  }

  lemma NextKeepsEntry(s: Store, e: Event, effect: Effect, parked: bool, k: QueueKey)
    requires Lands(s, e) && Queued(s) && k in s.deferred
    ensures var s' := Next(s, e, effect, parked); k in s'.deferred && s'.deferred[k] == s.deferred[k]
  {
    QueueKeyIsNew(s, e);
  }

  lemma QueueKeyIsNew(s: Store, e: Event)
    requires Queued(s)
    ensures (e.threadId, |Log(s, e.threadId)| + 1) !in s.deferred
  {}

  lemma {:induction false} AbandonKeepsQueue(s: Store, batch: seq<string>, now: int)
    requires Inv(s) && AllRunning(s, batch)
    ensures AbandonAll(s, batch, now).Ok? && AbandonAll(s, batch, now).value.deferred == s.deferred
    decreases |batch|
  {
    if batch != [] {
      AbandonFirst(s, batch[0], now);
      AbandonKeepsInv(s, batch[0], now);
      AbandonOne(s, batch[0], now);
      var s1 := AbandonRun(s, batch[0], now).value;
      RestRunning(s, batch, now, s1);
      AbandonKeepsQueue(s1, batch[1..], now);
    }
  }

  lemma StaleStays(s: Store, a: Action, k: QueueKey)
    requires Inv(s) && Stale(s, k)
    ensures Stale(Step(s, a), k)
  {
    if a.Promote? {
      SweepKeepsStale(s, a.keys, k);
    } else {
      LeftPendingStays(s, a, s.deferred[k]);
      QueueOnlyGrows(s, a, k);
    }
  }

  lemma LeftPendingStays(s: Store, a: Action, r: string)
    requires Inv(s) && r in s.runs && s.runs[r].life.status != Pending
    ensures r in Step(s, a).runs && Step(s, a).runs[r].life.status != Pending
  {
    StepEvolves(s, a);
    assert RunLeq(s.runs[r], Step(s, a).runs[r]);
  }

  lemma SweepKeepsStale(s: Store, keys: seq<QueueKey>, k: QueueKey)
    requires Inv(s) && Stale(s, k)
    ensures Stale(Step(s, Promote(keys)), k)
  {
    SweepStep(s, keys);
    if Step(s, Promote(keys)) != s { StartedKeepsStale(s, keys, Step(s, Promote(keys)), k); }
  }

  lemma StartedKeepsStale(s: Store, keys: seq<QueueKey>, s': Store, k: QueueKey)
    requires Gapless(s) && Queued(s) && StartedAll(s, keys, s') && Stale(s, k)
    requires forall j :: j in keys ==> Waiting(s, j)
    ensures Stale(s', k)
  {
    PromotedRun(s, keys, s', s.deferred[k]);
  }

  lemma {:induction false} StaleForever(s: Store, trace: seq<Action>, k: QueueKey)
    requires Inv(s) && Stale(s, k)
    ensures Stale(Exec(s, trace), k)
    decreases |trace|
  {
    if trace != [] {
      StaleStays(s, trace[0], k);
      StepKeepsInv(s, trace[0]);
      StaleForever(Step(s, trace[0]), trace[1..], k);
    }
  }

  /** A parked start whose run left the waiting state another way stays queued for ever, and
      every pass that selects it rolls back with everything else it selected. */
  lemma StaleEntryPoisonsSweeps(cfg: Config, before: seq<Action>, after: seq<Action>, k: QueueKey, batch: seq<QueueKey>)
    requires Stale(Reached(cfg, before), k)
    ensures k in Reached(cfg, before + after).deferred
    ensures k in batch ==> Step(Reached(cfg, before + after), Promote(batch)) == Reached(cfg, before + after)
  {
    var s := Reached(cfg, before + after);
    ReachedInv(cfg, before);
    StaleForever(Reached(cfg, before), after, k);
    ExecSplit(Init(cfg), before, after);
    ReachedInv(cfg, before + after);
    StalePass(s, k, batch);
  }

  lemma StalePass(s: Store, k: QueueKey, batch: seq<QueueKey>)
    requires Inv(s) && Stale(s, k)
    ensures k in batch ==> Step(s, Promote(batch)) == s
  {
    SweepStep(s, batch);
  }

  /******* Turns that block each other *******/

  /** The queue stays smaller than a batch all along a run. */
  ghost predicate QueueFits(s: Store, trace: seq<Action>)
    decreases |trace|
  {
    |s.deferred| < SWEEP_BATCH && (trace != [] ==> QueueFits(Step(s, trace[0]), trace[1..]))
  }

  /** Two turns parked on one thread. */
  ghost predicate Pair(s: Store, j: QueueKey, k: QueueKey) {
    j in s.deferred && k in s.deferred && j != k && j.0 == k.0
  }

  lemma SweepKeepsPair(s: Store, j: QueueKey, k: QueueKey, batch: seq<QueueKey>)
    requires Inv(s) && Pair(s, j, k) && |s.deferred| < SWEEP_BATCH
    ensures Pair(Step(s, Promote(batch)), j, k)
  {
    if Held(s.runs, j.0) {
      HeldStays(s, j, batch);
      HeldStays(s, k, batch);
    } else {
      TwoParkedTurnsBlock(s, j, k, batch);
    }
  }

  /** A pass leaves the entries of held threads alone. */
  lemma HeldStays(s: Store, k: QueueKey, batch: seq<QueueKey>)
    requires Inv(s) && k in s.deferred && Held(s.runs, k.0)
    ensures k in Step(s, Promote(batch)).deferred
  {
    if k in batch { HeldIsNotSelected(s, k, batch); } else { SweepStep(s, batch); }
  }

  lemma HeldIsNotSelected(s: Store, k: QueueKey, batch: seq<QueueKey>)
    requires Held(s.runs, k.0) && k in batch
    ensures Step(s, Promote(batch)) == s
  {
    assert !Eligible(s, k);
  }

  lemma StepKeepsPair(s: Store, j: QueueKey, k: QueueKey, a: Action)
    requires Inv(s) && Pair(s, j, k) && |s.deferred| < SWEEP_BATCH
    ensures Pair(Step(s, a), j, k)
  {
    if a.Promote? {
      SweepKeepsPair(s, j, k, a.keys);
    } else {
      QueueOnlyGrows(s, a, j);
      QueueOnlyGrows(s, a, k);
    }
  }

  lemma {:induction false} ExecKeepsPair(s: Store, j: QueueKey, k: QueueKey, trace: seq<Action>)
    requires Inv(s) && Pair(s, j, k) && QueueFits(s, trace)
    ensures Pair(Exec(s, trace), j, k)
    decreases |trace|
  {
    if trace != [] {
      StepKeepsPair(s, j, k, trace[0]);
      StepKeepsInv(s, trace[0]);
      ExecKeepsPair(Step(s, trace[0]), j, k, trace[1..]);
    }
  }

  /** Once two turns are parked on one thread, held or free, neither is ever started from the
      queue while the queue fits a batch. */
  lemma ParkedPairStays(cfg: Config, before: seq<Action>, after: seq<Action>, j: QueueKey, k: QueueKey)
    requires Pair(Reached(cfg, before), j, k) && QueueFits(Reached(cfg, before), after)
    ensures Pair(Reached(cfg, before + after), j, k)
  {
    ReachedInv(cfg, before);
    ExecKeepsPair(Reached(cfg, before), j, k, after);
    ExecSplit(Init(cfg), before, after);
  }

  /******* Interrupts that nobody can answer *******/

  /** Some run of the thread resumes the interrupt id. */
  ghost predicate Resumed(s: Store, t: string, id: string) {
    exists q :: q in s.runs && s.runs[q].threadId == t && s.runs[q].resumes == id
  }

  /** A run waits for an answer to its interrupt. */
  ghost predicate Asks(s: Store, t: string, p: string, id: string) {
    && p in s.runs && s.runs[p].threadId == t && s.runs[p].life.status == Interrupted
    && s.runs[p].life.interrupt.Some? && s.runs[p].life.interrupt.value.id == id
  }

  lemma UnresolvedIff(s: Store, t: string, p: string, id: string)
    requires Asks(s, t, p, id)
    ensures Unresolved(s, t, p) <==> !Resumed(s, t, id)
  {}

  lemma ResumedStays(s: Store, s': Store, t: string, p: string, id: string)
    requires Evolves(s, s') && Asks(s, t, p, id)
    ensures Asks(s', t, p, id) && (Resumed(s, t, id) ==> Resumed(s', t, id))
  {
    assert RunLeq(s.runs[p], s'.runs[p]);
    if Resumed(s, t, id) {
      var q :| q in s.runs && s.runs[q].threadId == t && s.runs[q].resumes == id;
      assert RunLeq(s.runs[q], s'.runs[q]);
    }
  }

  /** An interrupted run can still be found by the interrupt query, now or ever, if and only if no
      run of its thread resumes its id yet. An id that was used before is settled from the start. */
  lemma AnswerableIff(cfg: Config, before: seq<Action>, t: string, p: string, id: string)
    requires Asks(Reached(cfg, before), t, p, id)
    ensures (exists after :: Unresolved(Reached(cfg, before + after), t, p)) <==> !Resumed(Reached(cfg, before), t, id)
  {
    var s := Reached(cfg, before);
    if Resumed(s, t, id) {
      forall after ensures !Unresolved(Reached(cfg, before + after), t, p) {
        SettledStays(cfg, before, after, t, p, id);
      }
    } else {
      UnresolvedIff(s, t, p, id);
      assert before + [] == before;
      assert Unresolved(Reached(cfg, before + []), t, p);
    }
  }

  lemma SettledStays(cfg: Config, before: seq<Action>, after: seq<Action>, t: string, p: string, id: string)
    requires Asks(Reached(cfg, before), t, p, id) && Resumed(Reached(cfg, before), t, id)
    ensures !Unresolved(Reached(cfg, before + after), t, p)
  {
    HistoryIsKept(cfg, before, after);
    ResumedStays(Reached(cfg, before), Reached(cfg, before + after), t, p, id);
    UnresolvedIff(Reached(cfg, before + after), t, p, id);
  }

  /** And no later run resumes it: whoever does was there before. */
  lemma NobodyResumesAgain(cfg: Config, before: seq<Action>, after: seq<Action>, t: string, id: string, r: string)
    requires id != "" && Resumed(Reached(cfg, before), t, id)
    requires var s := Reached(cfg, before + after); r in s.runs && s.runs[r].threadId == t && s.runs[r].resumes == id
    ensures r in Reached(cfg, before).runs
  {
    var s, s' := Reached(cfg, before), Reached(cfg, before + after);
    var q :| q in s.runs && s.runs[q].threadId == t && s.runs[q].resumes == id;
    assert Siblings(s', q, r) by {
      HistoryIsKept(cfg, before, after);
      assert RunLeq(s.runs[q], s'.runs[q]);
    }
    ResumedOnce(cfg, before, after, q, r);
  }

  /******* Leases of promoted runs *******/

  /** A pass starts a run without touching its last activity, so the run it has just started can
      be selected as dead at once, if and only if its last fact is older than the lease. */
  lemma PromotedLease(s: Store, batch: seq<QueueKey>, k: QueueKey, now: int)
    requires Inv(s) && k in batch && Step(s, Promote(batch)) != s
    ensures k in s.deferred && s.deferred[k] in s.runs
    ensures ExpiredBatch(Step(s, Promote(batch)), [s.deferred[k]], now)
            <==> s.runs[s.deferred[k]].lastActivityAt < now - s.cfg.runLease
  {
    SweepStep(s, batch);
    assert Waiting(s, k);
    StartedLease(s, batch, Step(s, Promote(batch)), k, now);
  }

  lemma StartedLease(s: Store, batch: seq<QueueKey>, s': Store, k: QueueKey, now: int)
    requires Gapless(s) && Queued(s) && StartedAll(s, batch, s') && k in batch && Waiting(s, k)
    ensures ExpiredBatch(s', [s.deferred[k]], now) <==> s.runs[s.deferred[k]].lastActivityAt < now - s.cfg.runLease
  {
    QueueEntry(s, k);
    var r := s.deferred[k];
    assert s'.runs[r].life.status == Running && s'.runs[r].lastActivityAt == s.runs[r].lastActivityAt;
    assert r in [r];
  }

  /******* Abandonment *******/

  /** Nobody but the sweeper writes source ids of the reserved form. */
  ghost predicate Honest(trace: seq<Action>) {
    forall i, r :: 0 <= i < |trace| && trace[i].Ingest? ==> TrimSpace(trace[i].event.sourceEventId) != AbandonSource(r)
  }

  /** A reserved fact is on a thread only when the run it names has ended. */
  ghost predicate ReservedEnded(s: Store) {
    forall t, f, r :: f in Log(s, t) && f.sourceEventId == AbandonSource(r) ==>
      r in s.runs && Terminal(s.runs[r].life.status)
  }

  lemma ReservedAfter(s: Store, s': Store)
    requires Evolves(s, s') && ReservedEnded(s)
    requires forall t, f, r :: f in Log(s', t) && f !in Log(s, t) && f.sourceEventId == AbandonSource(r) ==>
               r in s'.runs && Terminal(s'.runs[r].life.status)
    ensures ReservedEnded(s')
  {
    forall t, f, r | f in Log(s', t) && f.sourceEventId == AbandonSource(r)
      ensures r in s'.runs && Terminal(s'.runs[r].life.status)
    {
      if f in Log(s, t) { assert RunLeq(s.runs[r], s'.runs[r]); }
    }
  }

  lemma AdmissionReserved(s: Store, spec: StartSpec, now: int, s': Store)
    requires Admission(s, spec, now, s') && ReservedEnded(s)
    ensures ReservedEnded(s')
  {
    AdmissionEvolves(s, spec, now, s');
    UserFactsRead(spec, |Log(s, spec.threadId)|);
    forall t, f | f in Log(s', t) && f !in Log(s, t) ensures f.sourceEventId == "" {
      assert Log(EnsureThread(s, spec).value, t) == Log(s, t);
      assert t != spec.threadId ==> Log(s', t) == Log(s, t);
    }
    assert forall r :: AbandonSource(r) != "";
    ReservedAfter(s, s');
  }

  lemma IngestReserved(s: Store, e: Event, effect: Effect, parked: bool)
    requires Lands(s, e) && Ready(s, e, effect, parked) && ReservedEnded(s)
    requires forall r :: e.sourceEventId == AbandonSource(r) ==> r == e.runId && Terminal(effect.life.status)
    ensures ReservedEnded(Next(s, e, effect, parked))
  {
    var s' := Next(s, e, effect, parked);
    NextEvolves(s, e, effect, parked);
    forall t, f, r | f in Log(s', t) && f !in Log(s, t) && f.sourceEventId == AbandonSource(r)
      ensures r in s'.runs && Terminal(s'.runs[r].life.status)
    {
      NextLog(s, e, effect, parked, t);
    }
    ReservedAfter(s, s');
  }

  lemma {:induction false} AbandonReserved(s: Store, batch: seq<string>, now: int)
    requires Inv(s) && AllRunning(s, batch) && ReservedEnded(s)
    ensures AbandonAll(s, batch, now).Ok? && ReservedEnded(AbandonAll(s, batch, now).value)
    decreases |batch|
  {
    if batch != [] {
      var r := batch[0];
      AbandonFirst(s, r, now);
      AbandonKeepsInv(s, r, now);
      AbandonOne(s, r, now);
      var s1 := AbandonRun(s, r, now).value;
      RestRunning(s, batch, now, s1);
      if Unclaimed(s, r) { AbandonOneReserved(s, r, now); }
      AbandonReserved(s1, batch[1..], now);
    }
  }

  lemma AbandonOneReserved(s: Store, r: string, now: int)
    requires Storable(s) && r in s.runs && s.runs[r].life.status == Running && ReservedEnded(s) && Unclaimed(s, r)
    ensures AbandonRun(s, r, now).Ok? && ReservedEnded(AbandonRun(s, r, now).value)
  {
    AbandonOne(s, r, now);
    forall q | AbandonSource(r) == AbandonSource(q) ensures q == r {
      assert AbandonSource(r)[|"lease-expired:"|..] == r && AbandonSource(q)[|"lease-expired:"|..] == q;
    }
    IngestReserved(s, Abandonment(s, r, now), Effect(AbandonedLife(s.runs[r].life, now), s.messages), false);
  }

  lemma StepReserved(s: Store, a: Action)
    requires Inv(s) && ReservedEnded(s)
    requires a.Ingest? ==> forall r :: TrimSpace(a.event.sourceEventId) != AbandonSource(r)
    ensures ReservedEnded(Step(s, a))
  {
    match a {
      case Start(raw, freshRun, freshMessage, _, now) =>
        StartStep(s, a);
        if Step(s, a) != s { AdmissionReserved(s, PrepareStart(raw, freshRun, freshMessage), now, Step(s, a)); }
      case Ingest(event) =>
        var effect, parked := IngestStep(s, event);
        if Step(s, a) != s { IngestReserved(s, Prepare(event), effect, parked); }
      case Abandon(runIds, now) =>
        if ExpiredBatch(s, runIds, now) { AbandonReserved(s, runIds, now); }
      case Promote(keys) => SweepReserved(s, keys);
    }
  }

  lemma SweepReserved(s: Store, keys: seq<QueueKey>)
    requires Inv(s) && ReservedEnded(s)
    ensures ReservedEnded(Step(s, Promote(keys)))
  {
    SweepEvolves(s, keys);
    SweepKeepsLogs(s, keys);
    ReservedAfter(s, Step(s, Promote(keys)));
  }

  lemma SweepKeepsLogs(s: Store, keys: seq<QueueKey>)
    requires Inv(s)
    ensures forall t :: Log(Step(s, Promote(keys)), t) == Log(s, t)
  {
    SweepStep(s, keys);
  }

  lemma {:induction false} HonestReserved(s: Store, trace: seq<Action>)
    requires Inv(s) && ReservedEnded(s) && Honest(trace)
    ensures ReservedEnded(Exec(s, trace))
    decreases |trace|
  {
    if trace != [] {
      StepKeepsInv(s, trace[0]);
      StepReserved(s, trace[0]);
      assert forall i :: 0 <= i < |trace| - 1 ==> trace[1..][i] == trace[i + 1];
      HonestReserved(Step(s, trace[0]), trace[1..]);
    }
  }

  /** A running run is abandoned by a pass that selects it if and only if no fact of its thread
      carries its reserved source id. */
  lemma AbandonedIff(s: Store, batch: seq<string>, now: int, r: string)
    requires Inv(s) && ExpiredBatch(s, batch, now) && r in batch
    ensures r in Step(s, Abandon(batch, now)).runs
    ensures Step(s, Abandon(batch, now)).runs[r].life.status != Running <==> Unclaimed(s, r)
  {
    AbandonStep(s, batch, now);
    SweptStatus(s, batch, now, Step(s, Abandon(batch, now)), r);
  }

  lemma SweptStatus(s: Store, batch: seq<string>, now: int, s': Store, r: string)
    requires SweptAll(s, batch, now, s') && r in batch && r in s.runs && s.runs[r].life.status == Running
    ensures r in s'.runs && (s'.runs[r].life.status != Running <==> Unclaimed(s, r))
  {}

  lemma HonestUnclaimed(cfg: Config, trace: seq<Action>, r: string)
    requires Honest(trace) && r in Reached(cfg, trace).runs && Reached(cfg, trace).runs[r].life.status == Running
    ensures Unclaimed(Reached(cfg, trace), r)
  {
    InitInv(cfg);
    HonestReserved(Init(cfg), trace);
    var s := Reached(cfg, trace);
    SourceLookup(Log(s, s.runs[r].threadId), AbandonSource(r));
  }

  /** A run's history never holds a second abandonment. */
  lemma AbandonedOnce(cfg: Config, trace: seq<Action>, r: string, t: string, i: int, j: int)
    requires 0 <= i < j < |Log(Reached(cfg, trace), t)|
    requires Log(Reached(cfg, trace), t)[i].sourceEventId == AbandonSource(r)
    ensures Log(Reached(cfg, trace), t)[j].sourceEventId != AbandonSource(r)
  {
    ReachedInv(cfg, trace);
    assert DistinctSources(Log(Reached(cfg, trace), t));
    assert AbandonSource(r)[0] == 'l';
  }

  lemma NobodyHolds(s: Store, s': Store, batch: seq<string>, now: int, r: string)
    requires OneRunner(s) && SweptAll(s, batch, now, s') && r in s.runs && s.runs[r].life.status == Running
    requires r in batch && s'.runs[r].life.status != Running
    ensures !Held(s'.runs, s.runs[r].threadId)
  {
    forall q | q in s'.runs && s'.runs[q].threadId == s.runs[r].threadId ensures s'.runs[q].life.status != Running {
      if s'.runs[q].life.status == Running { assert s.runs[q].life.status == Running && Siblings(s, q, r); }
    }
  }

  lemma AbandonStep(s: Store, batch: seq<string>, now: int)
    requires Inv(s) && ExpiredBatch(s, batch, now)
    ensures SweptAll(s, batch, now, Step(s, Abandon(batch, now)))
  {
    AbandonPass(s, batch, now);
  }

  /** When producers keep off the reserved ids, a pass ends every run it selects with code
      lease_expired and frees its thread, and leaves every other run as it was. */
  lemma AbandonmentTheorem(cfg: Config, trace: seq<Action>, batch: seq<string>, now: int, r: string)
    requires Honest(trace) && ExpiredBatch(Reached(cfg, trace), batch, now) && r in Reached(cfg, trace).runs
    ensures var s, s' := Reached(cfg, trace), Step(Reached(cfg, trace), Abandon(batch, now));
            && s'.runs.Keys == s.runs.Keys
            && (r in batch ==>
                  s'.runs[r].life == AbandonedLife(s.runs[r].life, now) && !Held(s'.runs, s.runs[r].threadId))
            && (r !in batch ==> s'.runs[r] == s.runs[r])
  {
    var s := Reached(cfg, trace);
    assert OneRunner(s) && SweptAll(s, batch, now, Step(s, Abandon(batch, now))) by {
      ReachedInv(cfg, trace);
      AbandonStep(s, batch, now);
    }
    if r in batch {
      HonestUnclaimed(cfg, trace, r);
      NobodyHolds(s, Step(s, Abandon(batch, now)), batch, now, r);
    }
  }

  /******* Cancellation *******/

  /** A fresh event that reports a running run as canceled. */
  ghost predicate ReportsCancel(s: Store, e: Event) {
    && Admit(s, e) == Ok(None) && s.runs[e.runId].life.status == Running
    && e.body.eventType == RUN_FINISHED && StringValue(e.body.payload, "outcome") == "canceled"
  }

  /** A cancellation is recorded if and only if the status CHECK accepts the spelling the
      runtime writes; otherwise the event is refused and the run keeps the thread. */
  lemma CancelIff(s: Store, e: Event)
    requires Inv(s) && e.sourceEventId != "" && ReportsCancel(s, e)
    ensures PersistEvent(s, e).Ok? <==> "canceled" in s.cfg.statusCheck
    ensures PersistEvent(s, e).Ok? ==> PersistEvent(s, e).value.0.runs[e.runId].life.status == Canceled
  {
    var effect := Effect(Finished(s.runs[e.runId].life, Canceled, e.body), s.messages);
    assert Project(s, e.runId, e.body)
           == if "canceled" in s.cfg.statusCheck then Ok(effect) else Err(ConstraintViolation);
    if "canceled" in s.cfg.statusCheck {
      ReadyLands(s, e);
      assert GaplessThread(s, e.threadId);
      RecordIsNext(s, e, effect, false);
    }
  }

  /** The baseline schema spells the status differently, so it refuses every cancellation. */
  lemma BaselineRefusesCancel(s: Store, e: Event)
    requires Inv(s) && e.sourceEventId != "" && ReportsCancel(s, e) && s.cfg.statusCheck == BASELINE_STATUSES
    ensures PersistEvent(s, e).Err?
  {
    CancelIff(s, e);
    BaselineSpelling();
  }

  ghost predicate NoneCanceled(s: Store) {
    forall r :: r in s.runs ==> s.runs[r].life.status != Canceled
  }

  lemma AdmissionCancelsNone(s: Store, spec: StartSpec, now: int, s': Store)
    requires Admission(s, spec, now, s') && NoneCanceled(s)
    ensures NoneCanceled(s')
  {}

  lemma IngestCancelsNone(s: Store, e: Event, effect: Effect, parked: bool)
    requires Lands(s, e) && Ready(s, e, effect, parked) && NoneCanceled(s) && "canceled" !in s.cfg.statusCheck
    ensures NoneCanceled(Next(s, e, effect, parked))
  {
    assert effect.life.status != Canceled;
  }

  lemma StepCancelsNone(s: Store, a: Action)
    requires Inv(s) && NoneCanceled(s) && "canceled" !in s.cfg.statusCheck
    ensures NoneCanceled(Step(s, a))
  {
    match a {
      case Start(raw, freshRun, freshMessage, _, now) =>
        StartStep(s, a);
        if Step(s, a) != s { AdmissionCancelsNone(s, PrepareStart(raw, freshRun, freshMessage), now, Step(s, a)); }
      case Ingest(event) =>
        var effect, parked := IngestStep(s, event);
        if Step(s, a) != s { IngestCancelsNone(s, Prepare(event), effect, parked); }
      case Abandon(runIds, now) =>
        if ExpiredBatch(s, runIds, now) { AbandonStep(s, runIds, now); }
      case Promote(keys) => SweepCancelsNone(s, keys);
    }
  }

  lemma StartedCancelsNone(s: Store, keys: seq<QueueKey>, s': Store)
    requires Gapless(s) && Queued(s) && StartedAll(s, keys, s') && NoneCanceled(s)
    requires forall k :: k in keys ==> Waiting(s, k)
    ensures NoneCanceled(s')
  {
    forall r | r in s'.runs ensures s'.runs[r].life.status != Canceled { PromotedRun(s, keys, s', r); }
  }

  lemma SweepCancelsNone(s: Store, keys: seq<QueueKey>)
    requires Inv(s) && NoneCanceled(s)
    ensures NoneCanceled(Step(s, Promote(keys)))
  {
    SweepStep(s, keys);
    if Step(s, Promote(keys)) != s { StartedCancelsNone(s, keys, Step(s, Promote(keys))); }
  }

  lemma {:induction false} ExecCancelsNone(s: Store, trace: seq<Action>)
    requires Inv(s) && NoneCanceled(s) && "canceled" !in s.cfg.statusCheck
    ensures NoneCanceled(Exec(s, trace))
    decreases |trace|
  {
    if trace != [] {
      StepCancelsNone(s, trace[0]);
      StepKeepsInv(s, trace[0]);
      StepEvolves(s, trace[0]);
      ExecCancelsNone(Step(s, trace[0]), trace[1..]);
    }
  }

  /** Under the baseline schema no run ever ends as canceled. */
  lemma BaselineNeverCancels(cfg: Config, trace: seq<Action>)
    requires cfg.statusCheck == BASELINE_STATUSES
    ensures NoneCanceled(Reached(cfg, trace))
  {
    InitInv(cfg);
    BaselineSpelling();
    ExecCancelsNone(Init(cfg), trace);
  }

  lemma BaselineSpelling()
    ensures "canceled" !in BASELINE_STATUSES
  {
    assert |"canceled"| != |"cancelled"|;
    assert "canceled"[0] == 'c' && "completed"[1] == 'o';
  }
}
