/** The promises of the conversation runtime, over every run of the system. */
module ConversationTheorems {
  import opened Text
  import opened ConversationModel
  import opened ConversationInvariants
  import opened ConversationIngestion
  import opened ConversationAdmission
  import opened ConversationSweep
  import opened ConversationHistory

  ghost function Reached(cfg: Config, trace: seq<Action>): Store {
    Exec(Init(cfg), trace)
  }

  lemma ReachedInv(cfg: Config, trace: seq<Action>)
    ensures Inv(Reached(cfg, trace))
  {
    InitInv(cfg);
    ExecKeepsInv(Init(cfg), trace);
  }

  /** In every reachable state the runs and messages of a thread are the fold of its log in
      sequence order, skipping exactly the starts that are still parked. */
  lemma ReplayTheorem(cfg: Config, trace: seq<Action>, t: string)
    ensures ReplaysThread(Reached(cfg, trace), t)
  {
    ReachedInv(cfg, trace);
  }

  /** Logs are gapless, the outbox mirrors them, one run holds a thread, an interrupt is
      resumed once, and an interrupted run has spoken, in every reachable state. */
  lemma TablesAreSound(cfg: Config, trace: seq<Action>)
    ensures var s := Reached(cfg, trace);
            Owned(s) && Gapless(s) && Published(s) && OneRunner(s) && OneAdmission(s) && OneResume(s)
            && Interruptions(s) && Streams(s)
  {
    ReachedInv(cfg, trace);
  }

  /** Whatever happens later only adds to what a state recorded. */
  lemma HistoryIsKept(cfg: Config, before: seq<Action>, after: seq<Action>)
    ensures Evolves(Reached(cfg, before), Reached(cfg, before + after))
  {
    ReachedInv(cfg, before);
    ExecEvolves(Reached(cfg, before), after);
    ExecSplit(Init(cfg), before, after);
  }

  /******* Parked starts *******/

  /** A start that loses the thread is stored once, queued once and moves the cursor; no run
      and no message changes otherwise. */
  lemma LosingStartIsParked(s: Store, e: Event)
    requires Inv(s) && e.sourceEventId != "" && Admit(s, e) == Ok(None)
    requires e.body.eventType == RUN_STARTED && s.runs[e.runId].life.status == Pending && Held(s.runs, e.threadId)
    ensures PersistEvent(s, e).Ok?
    ensures var (s', f) := PersistEvent(s, e).value;
            var k := (e.threadId, |Log(s, e.threadId)| + 1);
            && Log(s', e.threadId) == Log(s, e.threadId) + [f] && f.sequence == k.1
            && f.sourceEventId == e.sourceEventId
            && k !in s.deferred && s'.deferred == s.deferred[k := e.runId]
            && s'.runs == s.runs[e.runId := s.runs[e.runId].(cursor := e.sourceSequence,
                                                             lastActivityAt := e.body.occurredAt)]
            && s'.messages == s.messages
  {
    ReadyLands(s, e);
    assert GaplessThread(s, e.threadId);
    var effect := Effect(s.runs[e.runId].life, s.messages);
    RecordIsNext(s, e, effect, true);
    NextLog(s, e, effect, true, e.threadId);
  }

  /******* Redelivery *******/

  ghost predicate Stored(s: Store, event: Event) {
    FindSource(Log(s, TrimSpace(event.threadId)), TrimSpace(event.sourceEventId)).Some?
  }

  /** The action delivers a source event or an admission the tables already hold. */
  ghost predicate Repeats(s: Store, a: Action) {
    || (a.Ingest? && Stored(s, a.event))
    || (a.Start? && exists r :: Admitted(s, TrimSpace(a.raw.threadId), TrimSpace(a.raw.idempotencyKey), r))
  }

  /** The event names a run, and that run's thread, tenant and process. */
  predicate InScope(s: Store, e: Event) {
    && e.runId in s.runs && s.runs[e.runId].threadId == e.threadId
    && s.runs[e.runId].accountId == e.accountId && s.runs[e.runId].projectId == e.projectId
    && (e.processId == "" || s.runs[e.runId].processId == "" || s.runs[e.runId].processId == e.processId)
  }

  /** A delivery already stored changes nothing. It is accepted if and only if it is well formed
      and in scope, whatever the state of its run, and it is answered with the stored fact. */
  lemma RedeliveredEvent(s: Store, event: Event)
    requires Stored(s, event)
    ensures Step(s, Ingest(event)) == s
    ensures IngestEvent(s, event).Ok? <==> WellFormed(Prepare(event)) && InScope(s, Prepare(event))
    ensures IngestEvent(s, event).Ok? ==>
              IngestEvent(s, event)
              == Ok((s, FindSource(Log(s, TrimSpace(event.threadId)), TrimSpace(event.sourceEventId)).value))
  {
    StoredIsAdmitted(s, Prepare(event));
  }

  lemma StoredIsAdmitted(s: Store, e: Event)
    requires FindSource(Log(s, e.threadId), e.sourceEventId).Some?
    ensures InScope(s, e) ==> PersistEvent(s, e) == Ok((s, FindSource(Log(s, e.threadId), e.sourceEventId).value))
    ensures !InScope(s, e) ==> PersistEvent(s, e).Err?
  {}

  /** A request already admitted changes nothing. It is accepted if and only if it is well formed
      and of the thread's tenant, whatever interrupts are open, and it is answered with the
      admitted run. */
  lemma RedeliveredStart(s: Store, a: Action)
    requires Owned(s) && a.Start? && Repeats(s, a)
    ensures Step(s, a) == s
    ensures (a.pick.Some? ==> a.pick.value in s.runs) ==>
            var spec := PrepareStart(a.raw, a.freshRun, a.freshMessage);
            var answer := StartRun(s, a.raw, a.freshRun, a.freshMessage, a.pick, a.now);
            && (answer.Ok? <==> WellFormedStart(spec) && TenantFits(s, spec))
            && (answer.Ok? ==> answer.value.0 == s && Admitted(s, spec.threadId, spec.idempotencyKey, answer.value.1))
  {
    if a.pick.Some? ==> a.pick.value in s.runs {
      RepeatedStart(s, PrepareStart(a.raw, a.freshRun, a.freshMessage), a.pick, a.now);
    }
  }

  ghost predicate TenantFits(s: Store, spec: StartSpec) {
    spec.threadId in s.threads ==>
      s.threads[spec.threadId].accountId == spec.accountId && s.threads[spec.threadId].projectId == spec.projectId
  }

  lemma RepeatedStart(s: Store, spec: StartSpec, pick: Option<string>, now: int)
    requires Owned(s) && (pick.Some? ==> pick.value in s.runs)
    requires exists q :: Admitted(s, spec.threadId, spec.idempotencyKey, q)
    ensures PersistStart(s, spec, pick, now).Ok? <==> TenantFits(s, spec)
    ensures PersistStart(s, spec, pick, now).Ok? ==>
              && PersistStart(s, spec, pick, now).value.0 == s
              && Admitted(s, spec.threadId, spec.idempotencyKey, PersistStart(s, spec, pick, now).value.1)
  {
    if !TenantFits(s, spec) { return; }
    EnsureThreadKeepsAdmissions(s, spec);
    assert spec.threadId in s.threads;
  }

  lemma {:induction false} SourceSurvives(log: seq<Fact>, log': seq<Fact>, source: string)
    requires log <= log' && FindSource(log, source).Some?
    ensures FindSource(log', source) == FindSource(log, source)
  {
    if log[0].sourceEventId != source {
      assert log[1..] <= log'[1..];
      SourceSurvives(log[1..], log'[1..], source);
    }
  }

  lemma RepeatsStay(s: Store, s': Store, a: Action)
    requires Evolves(s, s') && Repeats(s, a)
    ensures Repeats(s', a)
  {
    if a.Ingest? {
      SourceSurvives(Log(s, TrimSpace(a.event.threadId)), Log(s', TrimSpace(a.event.threadId)),
                     TrimSpace(a.event.sourceEventId));
    } else {
      var r :| Admitted(s, TrimSpace(a.raw.threadId), TrimSpace(a.raw.idempotencyKey), r);
      assert Admitted(s', TrimSpace(a.raw.threadId), TrimSpace(a.raw.idempotencyKey), r);
    }
  }

  lemma RepeatIsNoStep(s: Store, a: Action)
    requires Inv(s) && Repeats(s, a)
    ensures Step(s, a) == s
  {
    if a.Ingest? { RedeliveredEvent(s, a.event); } else { RedeliveredStart(s, a); }
  }

  /** Once stored, a delivery can be repeated anywhere later in any run without a trace. */
  lemma RedeliveryStutters(cfg: Config, before: seq<Action>, between: seq<Action>, after: seq<Action>, a: Action)
    requires Repeats(Reached(cfg, before), a)
    ensures Reached(cfg, before + between + [a] + after) == Reached(cfg, before + between + after)
  {
    var s := Reached(cfg, before + between);
    ReachedInv(cfg, before + between);
    HistoryIsKept(cfg, before, between);
    RepeatsStay(Reached(cfg, before), s, a);
    RepeatIsNoStep(s, a);
    ExecSplit(Init(cfg), before + between + [a], after);
    ExecSplit(Init(cfg), before + between, [a]);
    ExecSplit(Init(cfg), before + between, after);
    assert Exec(s, [a]) == Exec(Step(s, a), []);
  }

  /** A delivery that was accepted is a repeat from then on. */
  lemma AcceptedRepeats(s: Store, event: Event)
    requires Inv(s) && IngestEvent(s, event).Ok?
    ensures Repeats(Step(s, Ingest(event)), Ingest(event))
  {
    var e := Prepare(event);
    var effect, parked := PersistCases(s, e);
    if Admit(s, e) == Ok(None) { NextStores(s, e, effect, parked); }
  }

  lemma NextStores(s: Store, e: Event, effect: Effect, parked: bool)
    requires Lands(s, e) && FindSource(Log(s, e.threadId), e.sourceEventId).None?
    ensures FindSource(Log(Next(s, e, effect, parked), e.threadId), e.sourceEventId).Some?
  {
    NextLog(s, e, effect, parked, e.threadId);
    SourceOfAppended(Log(s, e.threadId), NewFact(s, e), e.sourceEventId);
  }

  /******* Lifecycles *******/

  lemma AdmissionKeepsRuns(s: Store, spec: StartSpec, now: int, s': Store, r: string)
    requires Admission(s, spec, now, s') && r in s.runs
    ensures r in s'.runs && s'.runs[r] == s.runs[r]
  {}

  lemma StartMoves(s: Store, a: Action, r: string)
    requires Inv(s) && a.Start? && r in s.runs
    ensures r in Step(s, a).runs && Step(s, a).runs[r] == s.runs[r]
  {
    StartStep(s, a);
    if Step(s, a) != s { AdmissionKeepsRuns(s, PrepareStart(a.raw, a.freshRun, a.freshMessage), a.now, Step(s, a), r); }
  }

  lemma IngestMoves(s: Store, event: Event, r: string)
    requires Inv(s) && r in s.runs
    ensures r in Step(s, Ingest(event)).runs && LifeMove(s.runs[r].life, Step(s, Ingest(event)).runs[r].life)
  {
    var effect, parked := IngestStep(s, event);
    if Step(s, Ingest(event)) != s { NextMoves(s, Prepare(event), effect, parked, r); }
  }

  lemma NextMoves(s: Store, e: Event, effect: Effect, parked: bool, r: string)
    requires Lands(s, e) && Ready(s, e, effect, parked) && r in s.runs
    ensures var s' := Next(s, e, effect, parked); r in s'.runs && LifeMove(s.runs[r].life, s'.runs[r].life)
  {
    ReadyGrows(s, e, effect, parked);
  }

  lemma SweepMoves(s: Store, keys: seq<QueueKey>, r: string)
    requires Inv(s) && r in s.runs
    ensures r in Step(s, Promote(keys)).runs && LifeMove(s.runs[r].life, Step(s, Promote(keys)).runs[r].life)
  {
    SweepStep(s, keys);
    if Step(s, Promote(keys)) != s { PromotedRun(s, keys, Step(s, Promote(keys)), r); }
  }

  /** In one step a run moves from pending to running, from running to one terminal status, or
      from pending to error, or not at all. */
  lemma RunsMoveForward(s: Store, a: Action, r: string)
    requires Inv(s) && r in s.runs
    ensures r in Step(s, a).runs && LifeMove(s.runs[r].life, Step(s, a).runs[r].life)
  {
    match a {
      case Start(_, _, _, _, _) => StartMoves(s, a, r);
      case Ingest(event) => IngestMoves(s, event, r);
      case Abandon(runIds, now) => if ExpiredBatch(s, runIds, now) { AbandonPass(s, runIds, now); }
      case Promote(keys) => SweepMoves(s, keys, r);
    }
  }

  /** A finished run keeps its status, outcome, interrupt and error for good, and no event of a
      projected type is accepted for it again. */
  lemma TerminalIsFinal(cfg: Config, before: seq<Action>, after: seq<Action>, r: string, event: Event)
    requires r in Reached(cfg, before).runs && Terminal(Reached(cfg, before).runs[r].life.status)
    ensures var s := Reached(cfg, before + after);
            && r in s.runs && s.runs[r].life == Reached(cfg, before).runs[r].life
            && (TrimSpace(event.runId) == r && !Stored(s, event)
                && (MovesRun(TrimSpace(event.body.eventType)) || MovesMessage(TrimSpace(event.body.eventType))) ==>
                  IngestEvent(s, event).Err?)
  {
    HistoryIsKept(cfg, before, after);
    var s0, s := Reached(cfg, before), Reached(cfg, before + after);
    assert RunLeq(s0.runs[r], s.runs[r]);
    var e := Prepare(event);
    if e.runId == r && Admit(s, e) == Ok(None) && (MovesRun(e.body.eventType) || MovesMessage(e.body.eventType)) {
      assert Project(s, r, e.body) == Err(InvalidTransition);
    }
  }

  /** Of two external facts of a run, the later one has the larger source sequence. */
  lemma {:induction false} SourcesIncrease(log: seq<Fact>, i: int, j: int)
    requires SourceOrdered(log) && 0 <= i < j < |log|
    requires log[i].runId == log[j].runId && log[i].sourceEventId != "" && log[j].sourceEventId != ""
    ensures log[i].sourceSequence < log[j].sourceSequence
  {
    var last := log[|log| - 1];
    if j < |log| - 1 {
      SourcesIncrease(log[..|log| - 1], i, j);
    } else {
      LastBounds(log[..|log| - 1], i, last.runId);
    }
  }

  lemma {:induction false} LastBounds(log: seq<Fact>, i: int, r: string)
    requires SourceOrdered(log) && 0 <= i < |log| && log[i].runId == r && log[i].sourceEventId != ""
    ensures log[i].sourceSequence <= LastSource(log, r)
  {
    if i < |log| - 1 { LastBounds(log[..|log| - 1], i, r); }
  }

  /** Along every log the source sequences of a run grow, and its cursor is the last of them. */
  lemma CursorTheorem(cfg: Config, trace: seq<Action>, t: string, i: int, j: int)
    ensures var s := Reached(cfg, trace);
            && (forall r :: r in s.runs ==> s.runs[r].cursor == LastSource(Log(s, s.runs[r].threadId), r))
            && (0 <= i < j < |Log(s, t)| && Log(s, t)[i].runId == Log(s, t)[j].runId
                && Log(s, t)[i].sourceEventId != "" && Log(s, t)[j].sourceEventId != "" ==>
                  Log(s, t)[i].sourceSequence < Log(s, t)[j].sourceSequence)
  {
    ReachedInv(cfg, trace);
    var log := Log(Reached(cfg, trace), t);
    if 0 <= i < j < |log| && log[i].runId == log[j].runId && log[i].sourceEventId != "" && log[j].sourceEventId != "" {
      SourcesIncrease(log, i, j);
    }
  }

  /******* Interrupts *******/

  /** The request answers the interrupt the query found, or there is none to answer. */
  ghost predicate Answers(s: Store, spec: StartSpec, pick: Option<string>) {
    match pick
    case None => spec.resume.None?
    case Some(p) =>
      && p in s.runs && s.runs[p].life.interrupt.Some?
      && spec.resume == Some(s.runs[p].life.interrupt.value.id)
  }

  /** A new key admits a run if and only if the tenant fits, the ids are new, and the request
      names the latest unresolved interrupt of the thread when there is one. */
  lemma AdmissionIff(s: Store, spec: StartSpec, pick: Option<string>, now: int)
    requires Inv(s) && LatestInterrupt(s, spec.threadId, pick)
    requires forall r :: !Admitted(s, spec.threadId, spec.idempotencyKey, r)
    ensures PersistStart(s, spec, pick, now).Ok? <==>
              TenantFits(s, spec) && Answers(s, spec, pick) && spec.runId !in s.runs && spec.messageId !in s.messages
  {
    if EnsureThread(s, spec).Ok? {
      var s1 := EnsureThread(s, spec).value;
      assert RunByKey(s1, spec.threadId, spec.idempotencyKey).None? by { EnsureThreadKeepsAdmissions(s, spec); }
      assert AppendUserFacts(WithRun(s1, spec, now), spec, UserBodies(spec)).Ok? by {
        EnsureThreadKeepsInv(s, spec);
        NewRunIsAdmitted(s1, spec, now);
      }
      NewKeyIff(s, s1, spec, pick, now);
    }
  }

  lemma NewKeyIff(s: Store, s1: Store, spec: StartSpec, pick: Option<string>, now: int)
    requires EnsureThread(s, spec) == Ok(s1) && RunByKey(s1, spec.threadId, spec.idempotencyKey).None?
    requires pick.Some? ==> pick.value in s.runs
    requires AppendUserFacts(WithRun(s1, spec, now), spec, UserBodies(spec)).Ok?
    ensures PersistStart(s, spec, pick, now).Ok?
            <==> Answers(s, spec, pick) && spec.runId !in s.runs && spec.messageId !in s.messages
  {}

  /** An interrupt id is resumed by at most one run of its thread, ever. */
  lemma ResumedOnce(cfg: Config, before: seq<Action>, after: seq<Action>, q: string, r: string)
    requires q in Reached(cfg, before).runs && Reached(cfg, before).runs[q].resumes != ""
    requires Siblings(Reached(cfg, before + after), q, r)
    requires Reached(cfg, before + after).runs[r].resumes == Reached(cfg, before).runs[q].resumes
    ensures q == r
  {
    HistoryIsKept(cfg, before, after);
    ReachedInv(cfg, before + after);
    assert RunLeq(Reached(cfg, before).runs[q], Reached(cfg, before + after).runs[q]);
  }

  /******* Messages *******/

  /** Ending a message with a text replaces its content by exactly that text; without one the
      streamed content stands. */
  lemma EndingCloses(s: Store, e: Event)
    requires Inv(s) && e.sourceEventId != "" && Admit(s, e) == Ok(None) && s.runs[e.runId].life.status == Running
    requires e.body.eventType == MESSAGE_END && OwnedOpen(s, e.runId, MessageId(e.body)) && MessageId(e.body) != ""
    ensures PersistEvent(s, e).Ok?
    ensures var m := MessageId(e.body);
            var s' := PersistEvent(s, e).value.0;
            && m in s'.messages && s'.messages[m].status == Closed
            && s'.messages[m].completedAt == Some(e.body.occurredAt)
            && s'.messages[m].content ==
                 (if "content" in e.body.payload && e.body.payload["content"].Str? then e.body.payload["content"].text
                  else Deltas(Log(s, e.threadId), m, e.runId))
  {
    ReadyLands(s, e);
    assert GaplessThread(s, e.threadId);
    var m := MessageId(e.body);
    var effect := Effect(s.runs[e.runId].life, s.messages[m := Close(s.messages[m], e.body)]);
    assert Project(s, e.runId, e.body) == Ok(effect);
    RecordIsNext(s, e, effect, false);
  }

  /** A message event of a run that does not own the message leaves its owner and text alone,
      except that an end closes it if it was left open. */
  lemma ReplayedMessageKeepsOwner(s: Store, e: Event)
    requires Inv(s) && e.sourceEventId != "" && Admit(s, e) == Ok(None) && PersistEvent(s, e).Ok?
    requires MovesMessage(e.body.eventType) && Replayed(s, e.runId, MessageId(e.body))
    ensures var m, s' := MessageId(e.body), PersistEvent(s, e).value.0;
            s'.messages ==
              if e.body.eventType == MESSAGE_END && s.messages[m].status == Streaming then
                s.messages[m := Close(s.messages[m], e.body)]
              else s.messages
  {
    var effect, parked := PersistCases(s, e);
    ProjectedMessages(s, e.runId, e.body);
  }
}
