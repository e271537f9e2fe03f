/** Runs of the system that end in the states the limits speak of. */
module ConversationWitnesses {
  import opened Text
  import opened ConversationModel
  import opened ConversationInvariants
  import opened ConversationIngestion
  import opened ConversationAdmission
  import opened ConversationSweep
  import opened ConversationHistory
  import opened ConversationTheorems
  import opened ConversationLimits

  /******* One thread, a few turns *******/

  const T := "t"
  const ACCOUNT := "o"
  const PROJECT := "p"

  /** Turn x: a run, a message and a key of that name. */
  function Turn(x: string): StartSpec {
    StartSpec(x, T, "", ACCOUNT, PROJECT, x, "hello", false, None, x, 0)
  }

  function Enter(x: string): Action { Start(Turn(x), "0", "0", None, 0) }

  function Report(x: string, source: string, n: int, eventType: string, payload: Payload): Event {
    Event(T, x, "", ACCOUNT, PROJECT, source, n, Body(eventType, 0, payload))
  }

  /** What the tables hold of the thread. */
  ghost predicate Scene(s: Store, runs: map<string, Run>, deferred: map<QueueKey, string>, n: nat,
                        sources: set<string>) {
    && s.runs == runs && s.deferred == deferred && |Log(s, T)| == n
    && (forall f :: f in Log(s, T) ==> f.sourceEventId in sources)
    && s.messages.Keys <= runs.Keys
    && (T in s.threads ==> s.threads[T].accountId == ACCOUNT && s.threads[T].projectId == PROJECT)
    && (forall r :: r in runs ==> Member(runs[r], r))
  }

  predicate Member(run: Run, r: string) {
    && run.threadId == T && run.processId == "" && run.accountId == ACCOUNT && run.projectId == PROJECT
    && run.idempotencyKey == r && run.life.status != Interrupted
  }

  lemma ConstantsTrimmed()
    ensures TrimSpace(T) == T && TrimSpace(ACCOUNT) == ACCOUNT && TrimSpace(PROJECT) == PROJECT && TrimSpace("") == ""
    ensures TrimSpace("hello") == "hello"
  {
    AlreadyTrimmed(T);
    AlreadyTrimmed(ACCOUNT);
    AlreadyTrimmed(PROJECT);
    AlreadyTrimmed("hello");
  }

  lemma TurnIsPrepared(x: Uuid)
    ensures PrepareStart(Turn(x), "0", "0") == Turn(x) && WellFormedStart(Turn(x))
  {
    ConstantsTrimmed();
  }

  lemma NothingToAnswer(s: Store, x: string)
    requires forall r :: r in s.runs ==> Member(s.runs[r], r)
    requires x !in s.runs
    ensures LatestInterrupt(s, T, None) && forall r :: !Admitted(s, T, x, r)
  {}

  lemma FreshIsAdmitted(s: Store, spec: StartSpec, pick: Option<string>)
    requires Inv(s) && LatestInterrupt(s, spec.threadId, pick) && Answers(s, spec, pick)
    requires forall r :: !Admitted(s, spec.threadId, spec.idempotencyKey, r)
    requires TenantFits(s, spec) && TrimSpace(spec.messageId) == spec.messageId
    requires spec.runId !in s.runs && spec.messageId !in s.messages
    ensures EnsureThread(s, spec).Ok? && PersistStart(s, spec, pick, 0).Ok?
    ensures Admits(EnsureThread(s, spec).value, spec, 0, PersistStart(s, spec, pick, 0).value.0)
  {
    AdmissionIff(s, spec, pick, 0);
    StartCases(s, spec, pick, 0);
  }

  lemma EnterIsPersist(s: Store, x: Uuid)
    requires LatestInterrupt(s, T, None)
    ensures Step(s, Enter(x)) == Settled(s, PersistStart(s, Turn(x), None, 0))
  {
    TurnIsPrepared(x);
    ConstantsTrimmed();
  }

  lemma TurnIsAdmitted(cfg: Config, trace: seq<Action>, x: Uuid)
    requires var s := Reached(cfg, trace);
             x !in s.runs && x !in s.messages && TenantFits(s, Turn(x))
             && forall r :: r in s.runs ==> Member(s.runs[r], r)
    ensures var s := Reached(cfg, trace);
            EnsureThread(s, Turn(x)).Ok? && Admits(EnsureThread(s, Turn(x)).value, Turn(x), 0, Step(s, Enter(x)))
  {
    var s := Reached(cfg, trace);
    NothingToAnswer(s, x);
    EnterIsPersist(s, x);
    ReachedInv(cfg, trace);
    FreshIsAdmitted(s, Turn(x), None);
  }

  lemma AdmittedScene(s: Store, s1: Store, spec: StartSpec, s': Store, sources: set<string>)
    requires EnsureThread(s, spec) == Ok(s1) && spec.threadId == T && Admits(s1, spec, 0, s')
    requires forall f :: f in Log(s, T) ==> f.sourceEventId in sources
    ensures s'.runs == s.runs[spec.runId := NewRun(spec, 0)] && s'.deferred == s.deferred
    ensures |Log(s', T)| == |Log(s, T)| + 3
    ensures s'.messages == s.messages[spec.messageId := UserMessage(spec)]
    ensures forall f :: f in Log(s', T) ==> f.sourceEventId in sources + {""}
    ensures T in s'.threads && s'.threads[T].accountId == spec.accountId && s'.threads[T].projectId == spec.projectId
  {
    assert Log(s1, T) == Log(s, T);
    UserFactsRead(spec, |Log(s, T)|);
  }

  lemma ReachedSnoc(cfg: Config, trace: seq<Action>, a: Action)
    ensures Reached(cfg, trace + [a]) == Step(Reached(cfg, trace), a)
  {
    ExecSplit(Init(cfg), trace, [a]);
    assert Exec(Reached(cfg, trace), [a]) == Exec(Step(Reached(cfg, trace), a), []);
  }

  /** A new turn is admitted. */
  lemma Entered(cfg: Config, trace: seq<Action>, runs: map<string, Run>, deferred: map<QueueKey, string>, n: nat,
                sources: set<string>, x: Uuid)
    requires Scene(Reached(cfg, trace), runs, deferred, n, sources) && x !in runs
    ensures Scene(Reached(cfg, trace + [Enter(x)]), runs[x := NewRun(Turn(x), 0)], deferred, n + 3, sources + {""})
  {
    var s := Reached(cfg, trace);
    TurnIsAdmitted(cfg, trace, x);
    ReachedSnoc(cfg, trace, Enter(x));
    EnteredScene(s, EnsureThread(s, Turn(x)).value, Step(s, Enter(x)), runs, deferred, n, sources, x);
  }

  lemma EnteredScene(s: Store, s1: Store, s': Store, runs: map<string, Run>, deferred: map<QueueKey, string>, n: nat,
                     sources: set<string>, x: string)
    requires Scene(s, runs, deferred, n, sources) && EnsureThread(s, Turn(x)) == Ok(s1) && Admits(s1, Turn(x), 0, s')
    ensures Scene(s', runs[x := NewRun(Turn(x), 0)], deferred, n + 3, sources + {""})
  {
    AdmittedScene(s, s1, Turn(x), s', sources);
  }

  /******* Reports *******/

  lemma ReportIsAdmitted(s: Store, runs: map<string, Run>, deferred: map<QueueKey, string>, n: nat,
                         sources: set<string>, e: Event)
    requires Scene(s, runs, deferred, n, sources) && e.runId in runs && e.sourceEventId !in sources
    requires e == Report(e.runId, e.sourceEventId, e.sourceSequence, e.body.eventType, e.body.payload)
    requires e.sourceSequence > runs[e.runId].cursor
    ensures Admit(s, e) == Ok(None)
  {
    SourceLookup(Log(s, T), e.sourceEventId);
  }

  lemma ReportIsPrepared(e: Event)
    requires e == Report(e.runId, e.sourceEventId, e.sourceSequence, e.body.eventType, e.body.payload)
    requires TrimSpace(e.runId) == e.runId != "" && TrimSpace(e.sourceEventId) == e.sourceEventId != ""
    requires e.sourceSequence > 0
    requires TrimSpace(e.body.eventType) == e.body.eventType != ""
    ensures Prepare(e) == e && WellFormed(e)
  {
    ConstantsTrimmed();
  }

  /** A report the projection accepts, or parks, is stored as the next fact. */
  lemma Reported(s: Store, e: Event, effect: Effect, parked: bool)
    requires Storable(s) && Prepare(e) == e && WellFormed(e) && Ready(s, e, effect, parked)
    ensures Lands(s, e) && Step(s, Ingest(e)) == Next(s, e, effect, parked)
  {
    ReadyLands(s, e);
    assert GaplessThread(s, e.threadId);
    RecordIsNext(s, e, effect, parked);
  }

  function Moved(run: Run, life: Lifecycle, n: int): Run { run.(life := life, cursor := n, lastActivityAt := 0) }

  lemma ReportedScene(s: Store, runs: map<string, Run>, deferred: map<QueueKey, string>, n: nat, sources: set<string>,
                      e: Event, effect: Effect, parked: bool)
    requires Scene(s, runs, deferred, n, sources) && Lands(s, e) && e.threadId == T && e.body.occurredAt == 0
    requires effect.messages == s.messages && effect.life.status != Interrupted
    ensures Scene(Next(s, e, effect, parked), runs[e.runId := Moved(runs[e.runId], effect.life, e.sourceSequence)],
                  if parked then deferred[(T, n + 1) := e.runId] else deferred, n + 1, sources + {e.sourceEventId})
  {
    NextLog(s, e, effect, parked, T);
  }

  lemma Happened(cfg: Config, trace: seq<Action>, runs: map<string, Run>, deferred: map<QueueKey, string>, n: nat,
                 sources: set<string>,
                 e: Event, life: Lifecycle, parked: bool)
    requires Scene(Reached(cfg, trace), runs, deferred, n, sources) && e.runId in runs && e.sourceEventId !in sources
    requires e == Report(e.runId, e.sourceEventId, e.sourceSequence, e.body.eventType, e.body.payload)
    requires Prepare(e) == e && WellFormed(e) && e.sourceSequence > runs[e.runId].cursor && life.status != Interrupted
    requires parked ==> e.body.eventType == RUN_STARTED && life == runs[e.runId].life
    requires Project(Reached(cfg, trace), e.runId, e.body)
             == if parked then Err(RunAlreadyActive) else Ok(Effect(life, Reached(cfg, trace).messages))
    ensures Scene(Reached(cfg, trace + [Ingest(e)]), runs[e.runId := Moved(runs[e.runId], life, e.sourceSequence)],
                  if parked then deferred[(T, n + 1) := e.runId] else deferred, n + 1, sources + {e.sourceEventId})
  {
    var s := Reached(cfg, trace);
    var effect := Effect(life, s.messages);
    ReportIsAdmitted(s, runs, deferred, n, sources, e);
    assert Storable(s) by { ReachedInv(cfg, trace); }
    Reported(s, e, effect, parked);
    ReachedSnoc(cfg, trace, Ingest(e));
    ReportedScene(s, runs, deferred, n, sources, e, effect, parked);
  }

  lemma TypesTrimmed()
    ensures TrimSpace(RUN_STARTED) == RUN_STARTED && TrimSpace(RUN_ERROR) == RUN_ERROR
    ensures TrimSpace(RUN_FINISHED) == RUN_FINISHED
  {
    AlreadyTrimmed(RUN_STARTED);
    AlreadyTrimmed(RUN_ERROR);
    AlreadyTrimmed(RUN_FINISHED);
  }

  function NewTurn(x: string): Run { NewRun(Turn(x), 0) }

  function RunningTurn(x: string): Run { Moved(NewTurn(x), Started(ADMITTED, 0), 1) }

  function ParkedTurn(x: string): Run { Moved(NewTurn(x), ADMITTED, 1) }

  function Begun(x: string, source: string): Event { Report(x, source, 1, RUN_STARTED, map[]) }

  function Failure(x: string, source: string): Event { Report(x, source, 2, RUN_ERROR, map[]) }

  /** A turn reported as started on a free thread runs. */
  lemma Starts(cfg: Config, trace: seq<Action>, runs: map<string, Run>, deferred: map<QueueKey, string>, n: nat,
               sources: set<string>, x: Uuid, source: Uuid)
    requires Scene(Reached(cfg, trace), runs, deferred, n, sources) && x in runs && runs[x] == NewTurn(x)
    requires source !in sources
    requires forall r :: r in runs ==> runs[r].life.status != Running
    ensures Scene(Reached(cfg, trace + [Ingest(Begun(x, source))]), runs[x := RunningTurn(x)], deferred, n + 1,
                  sources + {source})
  {
    TypesTrimmed();
    ReportIsPrepared(Begun(x, source));
    Happened(cfg, trace, runs, deferred, n, sources, Begun(x, source), Started(ADMITTED, 0), false);
  }

  /** A turn reported as started on a held thread is parked. */
  lemma IsParked(cfg: Config, trace: seq<Action>, runs: map<string, Run>, deferred: map<QueueKey, string>, n: nat,
                 sources: set<string>, x: Uuid, source: Uuid, h: string)
    requires Scene(Reached(cfg, trace), runs, deferred, n, sources) && x in runs && runs[x] == NewTurn(x)
    requires source !in sources
    requires h in runs && runs[h].life.status == Running
    ensures Scene(Reached(cfg, trace + [Ingest(Begun(x, source))]), runs[x := ParkedTurn(x)],
                  deferred[(T, n + 1) := x], n + 1, sources + {source})
  {
    TypesTrimmed();
    ReportIsPrepared(Begun(x, source));
    assert Held(Reached(cfg, trace).runs, T) by { assert Member(runs[h], h); }
    Happened(cfg, trace, runs, deferred, n, sources, Begun(x, source), ADMITTED, true);
  }

  function FailedTurn(run: Run): Run { Moved(run, Errored(run.life, Body(RUN_ERROR, 0, map[])), 2) }

  /** A turn that waits or runs can be reported as failed. */
  lemma Fails(cfg: Config, trace: seq<Action>, runs: map<string, Run>, deferred: map<QueueKey, string>, n: nat,
              sources: set<string>, x: Uuid, source: Uuid)
    requires Scene(Reached(cfg, trace), runs, deferred, n, sources) && x in runs && source !in sources
    requires runs[x].cursor == 1 && !Terminal(runs[x].life.status)
    ensures Scene(Reached(cfg, trace + [Ingest(Failure(x, source))]), runs[x := FailedTurn(runs[x])], deferred, n + 1,
                  sources + {source})
  {
    TypesTrimmed();
    ReportIsPrepared(Failure(x, source));
    Happened(cfg, trace, runs, deferred, n, sources, Failure(x, source),
             Errored(runs[x].life, Body(RUN_ERROR, 0, map[])), false);
  }

  /******* The states *******/

  /** Names of three turns and four source events. */
  datatype Names = Names(a: Uuid, b: Uuid, c: Uuid, s1: Uuid, s2: Uuid, s3: Uuid, s4: Uuid)

  predicate Distinct(x: Names) {
    && x.a != x.b && x.a != x.c && x.b != x.c
    && x.s1 != x.s2 && x.s1 != x.s3 && x.s1 != x.s4 && x.s2 != x.s3 && x.s2 != x.s4 && x.s3 != x.s4
  }

  function Cast(x: Names, a: Run, b: Run, c: Run): map<string, Run> { map[x.a := a, x.b := b, x.c := c] }

  const EMPTY: map<QueueKey, string> := map[]

  lemma CastChanges(x: Names, a: Run, b: Run, c: Run, r: Run)
    requires Distinct(x)
    ensures Cast(x, a, b, c)[x.a := r] == Cast(x, r, b, c)
    ensures Cast(x, a, b, c)[x.b := r] == Cast(x, a, r, c)
    ensures Cast(x, a, b, c)[x.c := r] == Cast(x, a, b, r)
  {}

  /** Such names exist. */
  lemma SomeNames() returns (x: Names)
    ensures Distinct(x) && x.a == "a" && x.b == "b" && x.c == "c"
    ensures x.s1 == "1" && x.s2 == "2" && x.s3 == "3" && x.s4 == "4"
  {
    x := Names("a", "b", "c", "1", "2", "3", "4");
  }

  /** Three turns are admitted. */
  lemma EntryScene(cfg: Config, trace: seq<Action>, x: Names)
    requires Distinct(x) && Scene(Reached(cfg, trace), map[], EMPTY, 0, {})
    ensures Scene(Reached(cfg, trace + [Enter(x.a)] + [Enter(x.b)] + [Enter(x.c)]),
                  Cast(x, NewTurn(x.a), NewTurn(x.b), NewTurn(x.c)), EMPTY, 9, {""})
  {
    var runs0: map<string, Run>, none: set<string> := map[], {};
    Entered(cfg, trace, runs0, EMPTY, 0, none, x.a);
    assert none + {""} == {""} && {""} + {""} == {""};
    var runs1 := runs0[x.a := NewTurn(x.a)];
    Entered(cfg, trace + [Enter(x.a)], runs1, EMPTY, 3, {""}, x.b);
    var runs2 := runs1[x.b := NewTurn(x.b)];
    Entered(cfg, trace + [Enter(x.a)] + [Enter(x.b)], runs2, EMPTY, 6, {""}, x.c);
    assert runs2[x.c := NewTurn(x.c)] == Cast(x, NewTurn(x.a), NewTurn(x.b), NewTurn(x.c));
  }

  /** The first turn runs. */
  lemma RunningScene(cfg: Config, trace: seq<Action>, x: Names, source: Uuid)
    requires Distinct(x)
    requires Scene(Reached(cfg, trace), Cast(x, NewTurn(x.a), NewTurn(x.b), NewTurn(x.c)), EMPTY, 9, {""})
    ensures Scene(Reached(cfg, trace + [Ingest(Begun(x.a, source))]),
                  Cast(x, RunningTurn(x.a), NewTurn(x.b), NewTurn(x.c)), EMPTY, 10, {"", source})
  {
    Starts(cfg, trace, Cast(x, NewTurn(x.a), NewTurn(x.b), NewTurn(x.c)), EMPTY, 9, {""}, x.a, source);
    CastChanges(x, NewTurn(x.a), NewTurn(x.b), NewTurn(x.c), RunningTurn(x.a));
    assert {""} + {source} == {"", source};
  }

  /** The second turn is parked behind it. */
  lemma ParkingScene(cfg: Config, trace: seq<Action>, x: Names)
    requires Distinct(x)
    requires Scene(Reached(cfg, trace), Cast(x, RunningTurn(x.a), NewTurn(x.b), NewTurn(x.c)), EMPTY, 10, {"", x.s1})
    ensures Scene(Reached(cfg, trace + [Ingest(Begun(x.b, x.s2))]),
                  Cast(x, RunningTurn(x.a), ParkedTurn(x.b), NewTurn(x.c)),
                  map[(T, 11) := x.b], 11, {"", x.s1, x.s2})
  {
    IsParked(cfg, trace, Cast(x, RunningTurn(x.a), NewTurn(x.b), NewTurn(x.c)), EMPTY, 10, {"", x.s1}, x.b, x.s2, x.a);
    CastChanges(x, RunningTurn(x.a), NewTurn(x.b), NewTurn(x.c), ParkedTurn(x.b));
    assert {"", x.s1} + {x.s2} == {"", x.s1, x.s2};
    assert EMPTY[(T, 11) := x.b] == map[(T, 11) := x.b];
  }

  /** Three admissions, then the first turn is reported as started. */
  function RunningTrace(x: Names, source: string): seq<Action> {
    [] + [Enter(x.a)] + [Enter(x.b)] + [Enter(x.c)] + [Ingest(Begun(x.a, source))]
  }

  function ParkingTrace(x: Names): seq<Action> { RunningTrace(x, x.s1) + [Ingest(Begun(x.b, x.s2))] }

  lemma RunningReached(cfg: Config, x: Names, source: Uuid)
    requires Distinct(x)
    ensures Scene(Reached(cfg, RunningTrace(x, source)), Cast(x, RunningTurn(x.a), NewTurn(x.b), NewTurn(x.c)), EMPTY,
                  10, {"", source})
  {
    assert Scene(Reached(cfg, []), map[], EMPTY, 0, {});
    EntryScene(cfg, [], x);
    RunningScene(cfg, [] + [Enter(x.a)] + [Enter(x.b)] + [Enter(x.c)], x, source);
  }

  lemma ParkingReached(cfg: Config, x: Names)
    requires Distinct(x)
    ensures Scene(Reached(cfg, ParkingTrace(x)), Cast(x, RunningTurn(x.a), ParkedTurn(x.b), NewTurn(x.c)),
                  map[(T, 11) := x.b], 11, {"", x.s1, x.s2})
  {
    RunningReached(cfg, x, x.s1);
    ParkingScene(cfg, RunningTrace(x, x.s1), x);
  }

  /******* A stale entry *******/

  /** The parked turn is reported as failed. */
  function StaleTrace(x: Names): seq<Action> { ParkingTrace(x) + [Ingest(Failure(x.b, x.s3))] }

  lemma StaleScene(cfg: Config, trace: seq<Action>, x: Names)
    requires Distinct(x)
    requires Scene(Reached(cfg, trace), Cast(x, RunningTurn(x.a), ParkedTurn(x.b), NewTurn(x.c)), map[(T, 11) := x.b],
                   11, {"", x.s1, x.s2})
    ensures Stale(Reached(cfg, trace + [Ingest(Failure(x.b, x.s3))]), (T, 11))
  {
    Fails(cfg, trace, Cast(x, RunningTurn(x.a), ParkedTurn(x.b), NewTurn(x.c)), map[(T, 11) := x.b], 11,
          {"", x.s1, x.s2}, x.b, x.s3);
  }

  /** Its queue entry is stale, and no pass that selects it commits. */
  lemma StaleWitness(cfg: Config, x: Names, batch: seq<QueueKey>)
    requires Distinct(x)
    ensures Stale(Reached(cfg, StaleTrace(x)), (T, 11))
    ensures (T, 11) in batch ==> Step(Reached(cfg, StaleTrace(x)), Promote(batch)) == Reached(cfg, StaleTrace(x))
  {
    ParkingReached(cfg, x);
    StaleScene(cfg, ParkingTrace(x), x);
    ReachedInv(cfg, StaleTrace(x));
    StalePass(Reached(cfg, StaleTrace(x)), (T, 11), batch);
  }

  /******* Two parked turns on a free thread *******/

  /** The third turn is parked as well, then the first one fails. */
  function PairTrace(x: Names): seq<Action> {
    ParkingTrace(x) + [Ingest(Begun(x.c, x.s3))] + [Ingest(Failure(x.a, x.s4))]
  }

  lemma SecondParked(cfg: Config, trace: seq<Action>, x: Names)
    requires Distinct(x)
    requires Scene(Reached(cfg, trace), Cast(x, RunningTurn(x.a), ParkedTurn(x.b), NewTurn(x.c)), map[(T, 11) := x.b],
                   11, {"", x.s1, x.s2})
    ensures Scene(Reached(cfg, trace + [Ingest(Begun(x.c, x.s3))]),
                  Cast(x, RunningTurn(x.a), ParkedTurn(x.b), ParkedTurn(x.c)),
                  map[(T, 11) := x.b, (T, 12) := x.c], 12, {"", x.s1, x.s2, x.s3})
  {
    IsParked(cfg, trace, Cast(x, RunningTurn(x.a), ParkedTurn(x.b), NewTurn(x.c)), map[(T, 11) := x.b], 11,
             {"", x.s1, x.s2}, x.c, x.s3, x.a);
    CastChanges(x, RunningTurn(x.a), ParkedTurn(x.b), NewTurn(x.c), ParkedTurn(x.c));
    assert {"", x.s1, x.s2} + {x.s3} == {"", x.s1, x.s2, x.s3};
    assert map[(T, 11) := x.b][(T, 12) := x.c] == map[(T, 11) := x.b, (T, 12) := x.c];
  }

  lemma Freed(cfg: Config, trace: seq<Action>, x: Names)
    requires Distinct(x)
    requires Scene(Reached(cfg, trace), Cast(x, RunningTurn(x.a), ParkedTurn(x.b), ParkedTurn(x.c)),
                   map[(T, 11) := x.b, (T, 12) := x.c], 12, {"", x.s1, x.s2, x.s3})
    ensures var s := Reached(cfg, trace + [Ingest(Failure(x.a, x.s4))]);
            Eligible(s, (T, 11)) && Eligible(s, (T, 12)) && |s.deferred| == 2
  {
    var queue := map[(T, 11) := x.b, (T, 12) := x.c];
    Fails(cfg, trace, Cast(x, RunningTurn(x.a), ParkedTurn(x.b), ParkedTurn(x.c)), queue, 12, {"", x.s1, x.s2, x.s3},
          x.a, x.s4);
    CastChanges(x, RunningTurn(x.a), ParkedTurn(x.b), ParkedTurn(x.c), FailedTurn(RunningTurn(x.a)));
    FreedScene(Reached(cfg, trace + [Ingest(Failure(x.a, x.s4))]), x);
  }

  lemma FreedScene(s: Store, x: Names)
    requires s.runs == Cast(x, FailedTurn(RunningTurn(x.a)), ParkedTurn(x.b), ParkedTurn(x.c))
    requires s.deferred == map[(T, 11) := x.b, (T, 12) := x.c]
    ensures Eligible(s, (T, 11)) && Eligible(s, (T, 12)) && |s.deferred| == 2
  {
    assert s.deferred.Keys == {(T, 11), (T, 12)};
  }

  /** Both turns wait on a free thread, and no pass whatsoever starts anything. */
  lemma PairWitness(cfg: Config, x: Names, batch: seq<QueueKey>)
    requires Distinct(x)
    ensures var s := Reached(cfg, PairTrace(x));
            Eligible(s, (T, 11)) && Eligible(s, (T, 12)) && |s.deferred| == 2 && Step(s, Promote(batch)) == s
  {
    ParkingReached(cfg, x);
    SecondParked(cfg, ParkingTrace(x), x);
    Freed(cfg, ParkingTrace(x) + [Ingest(Begun(x.c, x.s3))], x);
    var s := Reached(cfg, PairTrace(x));
    assert Gapless(s) && Queued(s) by { ReachedInv(cfg, PairTrace(x)); }
    TwoParkedTurnsBlock(s, (T, 11), (T, 12), batch);
  }

  /******* A reserved id that is taken *******/

  lemma SameConfig(cfg: Config, trace: seq<Action>)
    ensures Reached(cfg, trace).cfg == cfg
  {
    HistoryIsKept(cfg, [], trace);
    assert [] + trace == trace;
  }

  lemma ReservedIsTaken(s: Store, x: Names)
    requires Distinct(x)
    requires Scene(s, Cast(x, RunningTurn(x.a), NewTurn(x.b), NewTurn(x.c)), EMPTY, 10, {"", AbandonSource(x.a)})
    requires Cursors(s)
    ensures x.a in s.runs && !Unclaimed(s, x.a)
  {
    SourceLookup(Log(s, T), AbandonSource(x.a));
    LastIsStored(Log(s, T), x.a);
  }

  /** A run whose last source position is not zero has an external fact. */
  lemma {:induction false} LastIsStored(log: seq<Fact>, r: string)
    requires LastSource(log, r) != 0
    ensures exists f :: f in log && f.runId == r && f.sourceEventId != ""
  {
    var f := log[|log| - 1];
    if f.runId == r && f.sourceEventId != "" { assert f in log; } else { LastIsStored(log[..|log| - 1], r); }
  }

  lemma ReservedIsTrimmed(a: Uuid)
    ensures AbandonSource(a) != "" && TrimSpace(AbandonSource(a)) == AbandonSource(a)
  {
    var source := AbandonSource(a);
    assert !IsSpace(a[|a| - 1]) by { assert TrimSpace(a) == a; }
    assert source[0] == 'l' && source[|source| - 1] == a[|a| - 1];
    AlreadyTrimmed(source);
  }

  /** A producer reports the start of a run under the run's reserved id. Once its lease is over the
      run is selected as dead, and abandoning it leaves it running. */
  lemma ReservedWitness(cfg: Config, x: Names)
    requires Distinct(x)
    ensures var s, now := Reached(cfg, RunningTrace(x, AbandonSource(x.a))), cfg.runLease + 1;
            && ExpiredBatch(s, [x.a], now) && !Unclaimed(s, x.a)
            && x.a in Step(s, Abandon([x.a], now)).runs && Step(s, Abandon([x.a], now)).runs[x.a].life.status == Running
  {
    ReservedIsTrimmed(x.a);
    var trace := RunningTrace(x, AbandonSource(x.a));
    var s, now := Reached(cfg, trace), cfg.runLease + 1;
    RunningReached(cfg, x, AbandonSource(x.a));
    SameConfig(cfg, trace);
    assert ExpiredBatch(s, [x.a], now);
    assert Cursors(s) by { ReachedInv(cfg, trace); }
    ReservedIsTaken(s, x);
    ReachedInv(cfg, trace);
    AbandonedIff(s, [x.a], now, x.a);
  }

  /******* A cancellation *******/

  function Cancellation(x: Names): Event { Report(x.a, x.s2, 2, RUN_FINISHED, map["outcome" := Str("canceled")]) }

  /** A running turn is reported as canceled. Under the baseline schema the report is refused, and
      the turn still runs. */
  lemma CancelWitness(cfg: Config, x: Names)
    requires Distinct(x)
    ensures var s := Reached(cfg, RunningTrace(x, x.s1));
            ReportsCancel(s, Cancellation(x))
            && (cfg.statusCheck == BASELINE_STATUSES ==> PersistEvent(s, Cancellation(x)).Err?)
  {
    var s := Reached(cfg, RunningTrace(x, x.s1));
    RunningReached(cfg, x, x.s1);
    CancelIsReported(s, x);
    SameConfig(cfg, RunningTrace(x, x.s1));
    ReachedInv(cfg, RunningTrace(x, x.s1));
    if cfg.statusCheck == BASELINE_STATUSES { BaselineRefusesCancel(s, Cancellation(x)); }
  }

  lemma CancelIsReported(s: Store, x: Names)
    requires Distinct(x) && Scene(s, Cast(x, RunningTurn(x.a), NewTurn(x.b), NewTurn(x.c)), EMPTY, 10, {"", x.s1})
    ensures ReportsCancel(s, Cancellation(x))
  {
    ReportIsAdmitted(s, Cast(x, RunningTurn(x.a), NewTurn(x.b), NewTurn(x.c)), EMPTY, 10, {"", x.s1}, Cancellation(x));
    AlreadyTrimmed("canceled");
  }
}
