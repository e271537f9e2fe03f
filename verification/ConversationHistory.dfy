/** How the tables change over a whole run of the system. */
module ConversationHistory {
  import opened Text
  import opened ConversationModel
  import opened ConversationInvariants
  import opened ConversationIngestion
  import opened ConversationAdmission
  import opened ConversationSweep

  /******* The order of states *******/

  /** A lifecycle after any number of steps: a pending run may end up anywhere, a running run
      stays or ends, a terminal lifecycle stays exactly as it is. */
  ghost predicate LifeLeq(a: Lifecycle, b: Lifecycle) {
    || a == b
    || a.status == Pending
    || (a.status == Running && Terminal(b.status) && b.startedAt == a.startedAt)
  }

  /** One move: pending to running, running to a terminal status, or pending to error. */
  ghost predicate LifeMove(a: Lifecycle, b: Lifecycle) {
    || a == b
    || (a.status == Pending && b.status == Running
        && b == Started(a, if b.startedAt.Some? then b.startedAt.value else 0))
    || (a.status == Pending && b.status == Failed && b.completedAt.Some?
        && b.outcome == a.outcome && b.startedAt == a.startedAt)
    || (a.status == Running && Terminal(b.status) && b.completedAt.Some? && b.startedAt == a.startedAt)
  }

  /** A message keeps its owner, role and thread; an open one only grows, a closed one is final. */
  ghost predicate MessageLeq(a: Message, b: Message) {
    && b == a.(content := b.content, status := b.status, completedAt := b.completedAt)
    && (a.status == Closed ==> a == b)
    && (b.status == Streaming ==> a.content <= b.content)
  }

  ghost predicate RunLeq(a: Run, b: Run) {
    && b == a.(life := b.life, cursor := b.cursor, lastActivityAt := b.lastActivityAt)
    && LifeLeq(a.life, b.life) && a.cursor <= b.cursor
  }

  /** History is only added to. */
  ghost predicate Evolves(s: Store, s': Store) {
    && s.cfg == s'.cfg
    && (forall t :: t in s.threads ==>
          t in s'.threads && s'.threads[t] == s.threads[t].(nextSequence := s'.threads[t].nextSequence))
    && (forall r :: r in s.runs ==> r in s'.runs && RunLeq(s.runs[r], s'.runs[r]))
    && (forall m :: m in s.messages ==> m in s'.messages && MessageLeq(s.messages[m], s'.messages[m]))
    && (forall t :: Log(s, t) <= Log(s', t))
  }

  lemma EvolvesTransitive(s: Store, s1: Store, s2: Store)
    requires Evolves(s, s1) && Evolves(s1, s2)
    ensures Evolves(s, s2)
  {
    forall t ensures Log(s, t) <= Log(s2, t) {
      assert Log(s, t) <= Log(s1, t) <= Log(s2, t);
    }
    forall m | m in s.messages ensures m in s2.messages && MessageLeq(s.messages[m], s2.messages[m]) {
      assert MessageLeq(s.messages[m], s1.messages[m]) && MessageLeq(s1.messages[m], s2.messages[m]);
    }
  }

  lemma EvolvesReflexive(s: Store)
    ensures Evolves(s, s)
  {}

  /******* Ingestion *******/

  lemma ProjectedMove(s: Store, r: string, b: Body)
    requires r in s.runs && Project(s, r, b).Ok?
    ensures LifeMove(s.runs[r].life, Project(s, r, b).value.life)
  {}

  lemma HandledGrow(s: Store, r: string, b: Body)
    requires r in s.runs && MovesMessage(b.eventType) && HandleMessage(s, r, b).Ok?
    ensures forall m :: m in s.messages ==>
              m in HandleMessage(s, r, b).value && MessageLeq(s.messages[m], HandleMessage(s, r, b).value[m])
  {}

  lemma ReadyGrows(s: Store, e: Event, effect: Effect, parked: bool)
    requires Lands(s, e) && Ready(s, e, effect, parked)
    ensures LifeMove(s.runs[e.runId].life, effect.life)
    ensures forall m :: m in s.messages ==> m in effect.messages && MessageLeq(s.messages[m], effect.messages[m])
  {
    if !parked {
      ProjectedMove(s, e.runId, e.body);
      ProjectedMessages(s, e.runId, e.body);
      if MovesMessage(e.body.eventType) { HandledGrow(s, e.runId, e.body); }
    }
  }

  lemma NextEvolves(s: Store, e: Event, effect: Effect, parked: bool)
    requires Lands(s, e) && Ready(s, e, effect, parked)
    ensures Evolves(s, Next(s, e, effect, parked))
  {
    ReadyGrows(s, e, effect, parked);
    forall t ensures Log(s, t) <= Log(Next(s, e, effect, parked), t) { NextLog(s, e, effect, parked, t); }
  }

  /******* Admission and sweeping *******/

  lemma AdmitEvolves(s: Store, spec: StartSpec, now: int, s': Store)
    requires Fresh(s, spec) && Admits(s, spec, now, s')
    ensures Evolves(s, s')
  {
    forall t ensures Log(s, t) <= Log(s', t) {
      assert t != spec.threadId ==> Log(s', t) == Log(s, t);
    }
  }

  lemma StartedEvolves(s: Store, batch: seq<QueueKey>, s': Store)
    requires Gapless(s) && Queued(s) && StartedAll(s, batch, s') && forall k :: k in batch ==> Waiting(s, k)
    ensures Evolves(s, s')
  {
    forall r | r in s.runs ensures RunLeq(s.runs[r], s'.runs[r]) {
      PromotedRun(s, batch, s', r);
    }
    assert forall t :: Log(s', t) == Log(s, t);
  }

  lemma PromotedRun(s: Store, batch: seq<QueueKey>, s': Store, r: string)
    requires Gapless(s) && Queued(s) && StartedAll(s, batch, s') && r in s.runs
    requires forall k :: k in batch ==> Waiting(s, k)
    ensures s'.runs[r] == s.runs[r] || s'.runs[r] == s.runs[r].(life := s'.runs[r].life)
    ensures LifeMove(s.runs[r].life, s'.runs[r].life)
  {
    if k :| k in batch && k in s.deferred && s.deferred[k] == r {
      QueueEntry(s, k);
      assert Waiting(s, k);
    }
  }

  lemma {:induction false} AbandonEvolves(s: Store, batch: seq<string>, now: int)
    requires Inv(s) && AllRunning(s, batch)
    ensures AbandonAll(s, batch, now).Ok? && Evolves(s, AbandonAll(s, batch, now).value)
    decreases |batch|
  {
    if batch != [] {
      var r := batch[0];
      AbandonFirst(s, r, now);
      AbandonKeepsInv(s, r, now);
      var s1 := AbandonRun(s, r, now).value;
      RestRunning(s, batch, now, s1);
      AbandonOneEvolves(s, r, now);
      AbandonEvolves(s1, batch[1..], now);
      EvolvesTransitive(s, s1, AbandonAll(s1, batch[1..], now).value);
    }
  }

  lemma AbandonOneEvolves(s: Store, r: string, now: int)
    requires Storable(s) && r in s.runs && s.runs[r].life.status == Running
    ensures AbandonRun(s, r, now).Ok? && Evolves(s, AbandonRun(s, r, now).value)
  {
    AbandonOne(s, r, now);
    if Unclaimed(s, r) {
      NextEvolves(s, Abandonment(s, r, now), Effect(AbandonedLife(s.runs[r].life, now), s.messages), false);
    }
  }

  /******* Steps by their effect *******/

  /** The thread row, the run, the user message and its facts, and nothing else. */
  ghost predicate Admission(s: Store, spec: StartSpec, now: int, s': Store) {
    EnsureThread(s, spec).Ok? && Fresh(EnsureThread(s, spec).value, spec)
    && Admits(EnsureThread(s, spec).value, spec, now, s')
  }

  /** An admission step admits one new run or does nothing. */
  lemma StartStep(s: Store, a: Action)
    requires Inv(s) && a.Start?
    ensures Step(s, a) == s || Admission(s, PrepareStart(a.raw, a.freshRun, a.freshMessage), a.now, Step(s, a))
  {
    var spec := PrepareStart(a.raw, a.freshRun, a.freshMessage);
    TrimIdempotent(a.raw.messageId);
    if LatestInterrupt(s, spec.threadId, a.pick) && WellFormedStart(spec) && PersistStart(s, spec, a.pick, a.now).Ok? {
      StartCases(s, spec, a.pick, a.now);
    }
  }

  /** An ingestion step stores one new fact or does nothing. */
  lemma IngestStep(s: Store, event: Event) returns (effect: Effect, parked: bool)
    requires Inv(s)
    ensures var e := Prepare(event);
            || Step(s, Ingest(event)) == s
            || (Lands(s, e) && Ready(s, e, effect, parked) && Step(s, Ingest(event)) == Next(s, e, effect, parked))
  {
    effect, parked := Effect(ADMITTED, s.messages), false;
    if WellFormed(Prepare(event)) && PersistEvent(s, Prepare(event)).Ok? {
      effect, parked := PersistCases(s, Prepare(event));
    }
  }

  lemma AdmissionEvolves(s: Store, spec: StartSpec, now: int, s': Store)
    requires Admission(s, spec, now, s')
    ensures Evolves(s, s')
  {
    var s1 := EnsureThread(s, spec).value;
    assert Evolves(s, s1);
    AdmitEvolves(s1, spec, now, s');
    EvolvesTransitive(s, s1, s');
  }

  /******* Every step, every run *******/

  lemma StepKeepsInv(s: Store, a: Action)
    requires Inv(s)
    ensures Inv(Step(s, a))
  {
    match a {
      case Start(raw, freshRun, freshMessage, pick, now) =>
        if LatestInterrupt(s, TrimSpace(raw.threadId), pick)
           && StartRun(s, raw, freshRun, freshMessage, pick, now).Ok? {
          StartKeepsInv(s, raw, freshRun, freshMessage, pick, now);
        }
      case Ingest(event) =>
        if WellFormed(Prepare(event)) && PersistEvent(s, Prepare(event)).Ok? { PersistKeepsInv(s, Prepare(event)); }
      case Abandon(runIds, now) =>
        if ExpiredBatch(s, runIds, now) { AbandonPass(s, runIds, now); }
      case Promote(keys) =>
        SweepKeepsInv(s, keys);
    }
  }

  lemma SweepEvolves(s: Store, keys: seq<QueueKey>)
    requires Inv(s)
    ensures Evolves(s, Step(s, Promote(keys)))
  {
    SweepStep(s, keys);
    if Step(s, Promote(keys)) == s { EvolvesReflexive(s); } else { StartedEvolves(s, keys, Step(s, Promote(keys))); }
  }

  lemma StepEvolves(s: Store, a: Action)
    requires Inv(s)
    ensures Evolves(s, Step(s, a))
  {
    EvolvesReflexive(s);
    match a {
      case Start(raw, freshRun, freshMessage, _, now) =>
        StartStep(s, a);
        if Step(s, a) != s { AdmissionEvolves(s, PrepareStart(raw, freshRun, freshMessage), now, Step(s, a)); }
      case Ingest(event) =>
        var effect, parked := IngestStep(s, event);
        if Step(s, a) != s { NextEvolves(s, Prepare(event), effect, parked); }
      case Abandon(runIds, now) =>
        if ExpiredBatch(s, runIds, now) { AbandonEvolves(s, runIds, now); }
      case Promote(keys) => SweepEvolves(s, keys);
    }
  }

  lemma InitInv(cfg: Config)
    ensures Inv(Init(cfg))
  {
    var s := Init(cfg);
    forall t ensures GaplessThread(s, t) && ReplaysThread(s, t) {
      assert Parked(s, t) == {};
      assert MessagesOf(s.messages, t) == map[];
    }
  }

  lemma {:induction false} ExecKeepsInv(s: Store, trace: seq<Action>)
    requires Inv(s)
    ensures Inv(Exec(s, trace))
    decreases |trace|
  {
    if trace != [] {
      StepKeepsInv(s, trace[0]);
      ExecKeepsInv(Step(s, trace[0]), trace[1..]);
    }
  }

  lemma {:induction false} ExecEvolves(s: Store, trace: seq<Action>)
    requires Inv(s)
    ensures Evolves(s, Exec(s, trace))
    decreases |trace|
  {
    if trace != [] {
      StepKeepsInv(s, trace[0]);
      StepEvolves(s, trace[0]);
      ExecEvolves(Step(s, trace[0]), trace[1..]);
      EvolvesTransitive(s, Step(s, trace[0]), Exec(s, trace));
    }
  }

  lemma {:induction false} ExecSplit(s: Store, a: seq<Action>, b: seq<Action>)
    ensures Exec(s, a + b) == Exec(Exec(s, a), b)
    decreases |a|
  {
    if a == [] {
      assert a + b == b;
    } else {
      assert (a + b)[1..] == a[1..] + b;
      ExecSplit(Step(s, a[0]), a[1..], b);
    }
  }
}
