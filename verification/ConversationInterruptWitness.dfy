/** A run of the system that ends with an interrupt nobody can answer. */
module ConversationInterruptWitness {
  import opened Text
  import opened ConversationModel
  import opened ConversationInvariants
  import opened ConversationIngestion
  import opened ConversationAdmission
  import opened ConversationSweep
  import opened ConversationTheorems
  import opened ConversationLimits
  import opened ConversationWitnesses

  /** What the tables hold of the thread. */
  datatype Picture = Picture(runs: map<string, Run>, messages: map<string, Message>, sources: set<string>)

  predicate Host(run: Run, r: string) {
    && run.threadId == T && run.processId == "" && run.accountId == ACCOUNT && run.projectId == PROJECT
    && run.idempotencyKey == r
  }

  ghost predicate Shows(s: Store, v: Picture) {
    && s.runs == v.runs && s.messages == v.messages
    && (forall f :: f in Log(s, T) ==> f.sourceEventId in v.sources)
    && (T in s.threads ==> s.threads[T].accountId == ACCOUNT && s.threads[T].projectId == PROJECT)
    && (forall r :: r in v.runs ==> Host(v.runs[r], r))
  }

  /******* Reports *******/

  function Later(v: Picture, e: Event, effect: Effect): Picture
    requires e.runId in v.runs
  {
    Picture(v.runs[e.runId := Moved(v.runs[e.runId], effect.life, e.sourceSequence)], effect.messages,
            v.sources + {e.sourceEventId})
  }

  lemma ShownIsAdmitted(s: Store, v: Picture, e: Event)
    requires Shows(s, v) && e.runId in v.runs && e.sourceEventId !in v.sources
    requires e.sourceSequence > v.runs[e.runId].cursor
    requires e == Report(e.runId, e.sourceEventId, e.sourceSequence, e.body.eventType, e.body.payload)
    ensures Admit(s, e) == Ok(None)
  {
    SourceLookup(Log(s, T), e.sourceEventId);
  }

  lemma NextShows(s: Store, v: Picture, e: Event, effect: Effect)
    requires Shows(s, v) && Lands(s, e) && e.threadId == T && e.body.occurredAt == 0
    ensures Shows(Next(s, e, effect, false), Later(v, e, effect))
  {
    NextLog(s, e, effect, false, T);
  }

  /** A report that the projection accepts is stored. */
  lemma Told(cfg: Config, trace: seq<Action>, v: Picture, e: Event, effect: Effect)
    requires Shows(Reached(cfg, trace), v) && Prepare(e) == e && WellFormed(e)
    requires e.runId in v.runs && e.sourceEventId !in v.sources && e.sourceSequence > v.runs[e.runId].cursor
    requires e == Report(e.runId, e.sourceEventId, e.sourceSequence, e.body.eventType, e.body.payload)
    requires Project(Reached(cfg, trace), e.runId, e.body) == Ok(effect)
    ensures Shows(Reached(cfg, trace + [Ingest(e)]), Later(v, e, effect))
  {
    var s := Reached(cfg, trace);
    ShownIsAdmitted(s, v, e);
    assert Storable(s) by { ReachedInv(cfg, trace); }
    Reported(s, e, effect, false);
    ReachedSnoc(cfg, trace, Ingest(e));
    NextShows(s, v, e, effect);
  }

  /******* A turn that asks *******/

  function Opening(m: string): Payload { map["message_id" := Str(m), "role" := Str("assistant")] }

  function Closing(m: string): Payload { map["message_id" := Str(m)] }

  function Inquiry(i: string): Payload { map["interrupt_id" := Str(i), "type" := Str(i), "prompt" := Str(i)] }

  function Question(i: string): Payload { map["outcome" := Str("interrupt"), "interrupt" := Obj(Inquiry(i))] }

  function Spoken(x: string, status: MessageStatus): Message {
    Message(T, x, "", "assistant", "", status, 0, if status == Closed then Some(0) else None)
  }

  function Asking(i: string): Lifecycle {
    Lifecycle(Interrupted, "interrupt", Some(Interrupt(i, i, i)), "", "", Some(0), Some(0))
  }

  /** What turn x reports: it starts, says something, and asks. */
  function Said(x: string, m: string, i: string, source: seq<string>, k: int): Event
    requires |source| == 4 && 0 <= k < 4
  {
    if k == 0 then Report(x, source[0], 1, RUN_STARTED, map[])
    else if k == 1 then Report(x, source[1], 2, MESSAGE_START, Opening(m))
    else if k == 2 then Report(x, source[2], 3, MESSAGE_END, Closing(m))
    else Report(x, source[3], 4, RUN_FINISHED, Question(i))
  }

  lemma StartProjects(s: Store, x: string, b: Body)
    requires x in s.runs && s.runs[x].threadId == T && s.runs[x].life == ADMITTED && b == Body(RUN_STARTED, 0, map[])
    requires forall r :: r in s.runs ==> s.runs[r].life.status != Running
    ensures Project(s, x, b) == Ok(Effect(Started(ADMITTED, 0), s.messages))
  {}

  lemma OpeningProjects(s: Store, x: string, m: Uuid)
    requires x in s.runs && Host(s.runs[x], x) && s.runs[x].life == Started(ADMITTED, 0) && m !in s.messages
    ensures Project(s, x, Body(MESSAGE_START, 0, Opening(m)))
            == Ok(Effect(Started(ADMITTED, 0), s.messages[m := Spoken(x, Streaming)]))
  {
    AlreadyTrimmed("assistant");
    assert StringValue(Opening(m), "role") == "assistant" && StringValue(Opening(m), "message_id") == m;
  }

  lemma ClosingProjects(s: Store, x: string, m: Uuid)
    requires x in s.runs && Host(s.runs[x], x) && s.runs[x].life == Started(ADMITTED, 0)
    requires m in s.messages && s.messages[m] == Spoken(x, Streaming)
    ensures Project(s, x, Body(MESSAGE_END, 0, Closing(m)))
            == Ok(Effect(Started(ADMITTED, 0), s.messages[m := Spoken(x, Closed)]))
  {
    assert StringValue(Closing(m), "message_id") == m;
  }

  lemma QuestionReads(i: Uuid)
    ensures StringValue(Question(i), "outcome") == "interrupt"
    ensures InterruptOf(Body(RUN_FINISHED, 0, Question(i))) == Interrupt(i, i, i)
  {
    AlreadyTrimmed("interrupt");
    assert MapValue(Question(i), "interrupt") == Inquiry(i);
    InquiryReads(i);
  }

  lemma InquiryReads(i: Uuid)
    ensures var m := Inquiry(i);
            StringValue(m, "interrupt_id") == StringValue(m, "type") == StringValue(m, "prompt") == i
  {}

  lemma QuestionFinishes(i: Uuid)
    ensures Finished(Started(ADMITTED, 0), Interrupted, Body(RUN_FINISHED, 0, Question(i))) == Asking(i)
  {
    QuestionReads(i);
  }

  lemma QuestionProjects(s: Store, x: string, m: string, i: Uuid)
    requires x in s.runs && s.runs[x].life == Started(ADMITTED, 0)
    requires m in s.messages && s.messages[m] == Spoken(x, Closed)
    ensures Project(s, x, Body(RUN_FINISHED, 0, Question(i))) == Ok(Effect(Asking(i), s.messages))
  {
    QuestionReads(i);
    QuestionFinishes(i);
    assert Spoke(s.messages, x);
    assert "interrupted" in CORE_STATUSES;
  }

  lemma SaidIsPrepared(x: Uuid, m: string, i: string, source: seq<string>, k: int)
    requires |source| == 4 && 0 <= k < 4 && TrimSpace(source[k]) == source[k] != ""
    ensures Prepare(Said(x, m, i, source, k)) == Said(x, m, i, source, k) && WellFormed(Said(x, m, i, source, k))
  {
    TypesTrimmed();
    AlreadyTrimmed(MESSAGE_START);
    AlreadyTrimmed(MESSAGE_END);
    ReportIsPrepared(Said(x, m, i, source, k));
  }

  /** The picture after turn x has moved to a lifecycle with its k-th report. */
  function Moves(v: Picture, x: string, life: Lifecycle, k: int, messages: map<string, Message>,
                 source: string): Picture
    requires x in v.runs
  {
    Picture(v.runs[x := Moved(v.runs[x], life, k)], messages, v.sources + {source})
  }

  lemma Begins(cfg: Config, trace: seq<Action>, v: Picture, x: Uuid, m: Uuid, i: Uuid, source: seq<Uuid>)
    requires Shows(Reached(cfg, trace), v) && |source| == 4 && source[0] !in v.sources
    requires x in v.runs && v.runs[x].life == ADMITTED && v.runs[x].cursor == 0
    requires forall r :: r in v.runs ==> v.runs[r].life.status != Running
    ensures Shows(Reached(cfg, trace + [Ingest(Said(x, m, i, source, 0))]),
                  Moves(v, x, Started(ADMITTED, 0), 1, v.messages, source[0]))
  {
    var e := Said(x, m, i, source, 0);
    SaidIsPrepared(x, m, i, source, 0);
    StartProjects(Reached(cfg, trace), x, e.body);
    Told(cfg, trace, v, e, Effect(Started(ADMITTED, 0), v.messages));
  }

  lemma Opens(cfg: Config, trace: seq<Action>, v: Picture, x: Uuid, m: Uuid, i: Uuid, source: seq<Uuid>)
    requires Shows(Reached(cfg, trace), v) && |source| == 4 && source[1] !in v.sources && m !in v.messages
    requires x in v.runs && v.runs[x].life == Started(ADMITTED, 0) && v.runs[x].cursor == 1
    ensures Shows(Reached(cfg, trace + [Ingest(Said(x, m, i, source, 1))]),
                  Moves(v, x, Started(ADMITTED, 0), 2, v.messages[m := Spoken(x, Streaming)], source[1]))
  {
    var e := Said(x, m, i, source, 1);
    SaidIsPrepared(x, m, i, source, 1);
    OpeningProjects(Reached(cfg, trace), x, m);
    Told(cfg, trace, v, e, Effect(Started(ADMITTED, 0), v.messages[m := Spoken(x, Streaming)]));
  }

  lemma Closes(cfg: Config, trace: seq<Action>, v: Picture, x: Uuid, m: Uuid, i: Uuid, source: seq<Uuid>)
    requires Shows(Reached(cfg, trace), v) && |source| == 4 && source[2] !in v.sources
    requires m in v.messages && v.messages[m] == Spoken(x, Streaming)
    requires x in v.runs && v.runs[x].life == Started(ADMITTED, 0) && v.runs[x].cursor == 2
    ensures Shows(Reached(cfg, trace + [Ingest(Said(x, m, i, source, 2))]),
                  Moves(v, x, Started(ADMITTED, 0), 3, v.messages[m := Spoken(x, Closed)], source[2]))
  {
    var e := Said(x, m, i, source, 2);
    SaidIsPrepared(x, m, i, source, 2);
    ClosingProjects(Reached(cfg, trace), x, m);
    Told(cfg, trace, v, e, Effect(Started(ADMITTED, 0), v.messages[m := Spoken(x, Closed)]));
  }

  lemma Interrupts(cfg: Config, trace: seq<Action>, v: Picture, x: Uuid, m: Uuid, i: Uuid, source: seq<Uuid>)
    requires Shows(Reached(cfg, trace), v) && |source| == 4 && source[3] !in v.sources
    requires m in v.messages && v.messages[m] == Spoken(x, Closed)
    requires x in v.runs && v.runs[x].life == Started(ADMITTED, 0) && v.runs[x].cursor == 3
    ensures Shows(Reached(cfg, trace + [Ingest(Said(x, m, i, source, 3))]),
                  Moves(v, x, Asking(i), 4, v.messages, source[3]))
  {
    var e := Said(x, m, i, source, 3);
    SaidIsPrepared(x, m, i, source, 3);
    QuestionProjects(Reached(cfg, trace), x, m, i);
    Told(cfg, trace, v, e, Effect(Asking(i), v.messages));
  }

  function Saying(x: string, m: string, i: string, source: seq<string>): seq<Action>
    requires |source| == 4
  {
    [] + [Ingest(Said(x, m, i, source, 0))] + [Ingest(Said(x, m, i, source, 1))]
    + [Ingest(Said(x, m, i, source, 2))] + [Ingest(Said(x, m, i, source, 3))]
  }

  predicate FourNew(source: seq<string>, sources: set<string>) {
    && |source| == 4 && (forall k :: 0 <= k < 4 ==> source[k] !in sources)
    && (forall k, l :: 0 <= k < l < 4 ==> source[k] != source[l])
  }

  /** The picture after a whole turn that asks. */
  function Asked(v: Picture, x: string, m: string, i: string, source: seq<string>): Picture
    requires x in v.runs && |source| == 4
  {
    Picture(v.runs[x := Moved(v.runs[x], Asking(i), 4)], v.messages[m := Spoken(x, Closed)],
            v.sources + {source[0]} + {source[1]} + {source[2]} + {source[3]})
  }

  lemma TurnAsks(cfg: Config, trace: seq<Action>, v: Picture, x: Uuid, m: Uuid, i: Uuid, source: seq<Uuid>)
    requires Shows(Reached(cfg, trace), v) && FourNew(source, v.sources) && m !in v.messages
    requires x in v.runs && v.runs[x].life == ADMITTED && v.runs[x].cursor == 0
    requires forall r :: r in v.runs ==> v.runs[r].life.status != Running
    ensures Shows(Reached(cfg, trace + Saying(x, m, i, source)), Asked(v, x, m, i, source))
  {
    Speaks(cfg, trace, v, x, m, i, source);
    var said := [Ingest(Said(x, m, i, source, 0))] + [Ingest(Said(x, m, i, source, 1))];
    var v2 := Speaking(v, x, m, source);
    Concludes(cfg, trace + said, v2, x, m, i, source);
    SayingSplits(trace, x, m, i, source);
    SpeakingThenAsked(v, x, m, i, source);
  }

  lemma SayingSplits(trace: seq<Action>, x: string, m: string, i: string, source: seq<string>)
    requires |source| == 4
    ensures trace + ([Ingest(Said(x, m, i, source, 0))] + [Ingest(Said(x, m, i, source, 1))])
            + [Ingest(Said(x, m, i, source, 2))] + [Ingest(Said(x, m, i, source, 3))]
            == trace + Saying(x, m, i, source)
  {}

  lemma SpeakingThenAsked(v: Picture, x: string, m: string, i: string, source: seq<string>)
    requires x in v.runs && |source| == 4
    ensures var w := Speaking(v, x, m, source);
            Picture(w.runs[x := Moved(w.runs[x], Asking(i), 4)], w.messages[m := Spoken(x, Closed)],
                    w.sources + {source[2]} + {source[3]})
            == Asked(v, x, m, i, source)
  {
    var w := Speaking(v, x, m, source);
    assert w.runs[x := Moved(w.runs[x], Asking(i), 4)] == v.runs[x := Moved(v.runs[x], Asking(i), 4)];
    assert w.messages[m := Spoken(x, Closed)] == v.messages[m := Spoken(x, Closed)];
  }

  /** The picture while the turn's message is open. */
  function Speaking(v: Picture, x: string, m: string, source: seq<string>): Picture
    requires x in v.runs && |source| == 4
  {
    Picture(v.runs[x := Moved(v.runs[x], Started(ADMITTED, 0), 2)], v.messages[m := Spoken(x, Streaming)],
            v.sources + {source[0]} + {source[1]})
  }

  lemma Speaks(cfg: Config, trace: seq<Action>, v: Picture, x: Uuid, m: Uuid, i: Uuid, source: seq<Uuid>)
    requires Shows(Reached(cfg, trace), v) && FourNew(source, v.sources) && m !in v.messages
    requires x in v.runs && v.runs[x].life == ADMITTED && v.runs[x].cursor == 0
    requires forall r :: r in v.runs ==> v.runs[r].life.status != Running
    ensures Shows(Reached(cfg, trace + ([Ingest(Said(x, m, i, source, 0))] + [Ingest(Said(x, m, i, source, 1))])),
                  Speaking(v, x, m, source))
  {
    var e0, e1 := Ingest(Said(x, m, i, source, 0)), Ingest(Said(x, m, i, source, 1));
    Begins(cfg, trace, v, x, m, i, source);
    var v1 := Moves(v, x, Started(ADMITTED, 0), 1, v.messages, source[0]);
    assert source[1] !in v1.sources;
    Opens(cfg, trace + [e0], v1, x, m, i, source);
    assert trace + [e0] + [e1] == trace + ([e0] + [e1]);
    assert v1.runs[x := Moved(v1.runs[x], Started(ADMITTED, 0), 2)]
           == v.runs[x := Moved(v.runs[x], Started(ADMITTED, 0), 2)];
  }

  lemma Concludes(cfg: Config, trace: seq<Action>, v: Picture, x: Uuid, m: Uuid, i: Uuid, source: seq<Uuid>)
    requires Shows(Reached(cfg, trace), v) && |source| == 4
    requires source[2] !in v.sources && source[3] !in v.sources && source[2] != source[3]
    requires m in v.messages && v.messages[m] == Spoken(x, Streaming)
    requires x in v.runs && v.runs[x].life == Started(ADMITTED, 0) && v.runs[x].cursor == 2
    ensures Shows(Reached(cfg, trace + [Ingest(Said(x, m, i, source, 2))] + [Ingest(Said(x, m, i, source, 3))]),
                  Picture(v.runs[x := Moved(v.runs[x], Asking(i), 4)], v.messages[m := Spoken(x, Closed)],
                          v.sources + {source[2]} + {source[3]}))
  {
    Closes(cfg, trace, v, x, m, i, source);
    var v1 := Moves(v, x, Started(ADMITTED, 0), 3, v.messages[m := Spoken(x, Closed)], source[2]);
    Interrupts(cfg, trace + [Ingest(Said(x, m, i, source, 2))], v1, x, m, i, source);
    assert v1.runs[x := Moved(v1.runs[x], Asking(i), 4)] == v.runs[x := Moved(v.runs[x], Asking(i), 4)];
  }

  /******* A turn that answers *******/

  function Answer(x: string, i: string): StartSpec { Turn(x).(resume := Some(i)) }

  function Resume(x: string, i: string, p: string): Action { Start(Answer(x, i), "0", "0", Some(p), 0) }

  lemma AnswerIsPrepared(x: Uuid, i: Uuid)
    ensures PrepareStart(Answer(x, i), "0", "0") == Answer(x, i) && WellFormedStart(Answer(x, i))
  {
    ConstantsTrimmed();
  }

  lemma ResumeIsPersist(s: Store, x: Uuid, i: Uuid, p: string)
    requires LatestInterrupt(s, T, Some(p))
    ensures Step(s, Resume(x, i, p)) == Settled(s, PersistStart(s, Answer(x, i), Some(p), 0))
  {
    AnswerIsPrepared(x, i);
    ConstantsTrimmed();
  }

  /** One run asks and nobody has answered. */
  ghost predicate OneQuestion(s: Store, p: string, i: string) {
    && s.runs.Keys == {p} && Host(s.runs[p], p) && s.runs[p].life == Asking(i) && s.runs[p].resumes == "" != i
  }

  lemma QuestionIsLatest(s: Store, p: string, i: string, x: string)
    requires OneQuestion(s, p, i) && x != p
    ensures LatestInterrupt(s, T, Some(p)) && Answers(s, Answer(x, i), Some(p)) && forall r :: !Admitted(s, T, x, r)
  {}

  lemma AnswerIsAdmitted(cfg: Config, trace: seq<Action>, x: Uuid, i: Uuid, p: string)
    requires var s := Reached(cfg, trace);
             OneQuestion(s, p, i) && x != p && x !in s.messages && TenantFits(s, Answer(x, i))
    ensures var s, spec := Reached(cfg, trace), Answer(x, i);
            EnsureThread(s, spec).Ok? && Admits(EnsureThread(s, spec).value, spec, 0, Step(s, Resume(x, i, p)))
  {
    var s := Reached(cfg, trace);
    QuestionIsLatest(s, p, i, x);
    ResumeIsPersist(s, x, i, p);
    ReachedInv(cfg, trace);
    FreshIsAdmitted(s, Answer(x, i), Some(p));
  }

  function Joined(v: Picture, spec: StartSpec): Picture {
    Picture(v.runs[spec.runId := NewRun(spec, 0)], v.messages[spec.messageId := UserMessage(spec)], v.sources + {""})
  }

  lemma AdmittedShows(s: Store, s1: Store, s': Store, v: Picture, spec: StartSpec)
    requires Shows(s, v) && EnsureThread(s, spec) == Ok(s1) && Admits(s1, spec, 0, s')
    requires Host(NewRun(spec, 0), spec.runId)
    ensures Shows(s', Joined(v, spec))
  {
    AdmittedScene(s, s1, spec, s', v.sources);
  }

  lemma FirstShows(cfg: Config, a: Uuid)
    ensures Shows(Reached(cfg, [] + [Enter(a)]), Joined(Picture(map[], map[], {}), Turn(a)))
  {
    var s := Reached(cfg, []);
    TurnIsAdmitted(cfg, [], a);
    ReachedSnoc(cfg, [], Enter(a));
    AdmittedShows(s, EnsureThread(s, Turn(a)).value, Step(s, Enter(a)), Picture(map[], map[], {}), Turn(a));
  }

  lemma AnswerShows(cfg: Config, trace: seq<Action>, v: Picture, x: Uuid, i: Uuid, p: string)
    requires Shows(Reached(cfg, trace), v) && OneQuestion(Reached(cfg, trace), p, i) && x != p && x !in v.messages
    ensures Shows(Reached(cfg, trace + [Resume(x, i, p)]), Joined(v, Answer(x, i)))
  {
    var s := Reached(cfg, trace);
    AnswerIsAdmitted(cfg, trace, x, i, p);
    ReachedSnoc(cfg, trace, Resume(x, i, p));
    AdmittedShows(s, EnsureThread(s, Answer(x, i)).value, Step(s, Resume(x, i, p)), v, Answer(x, i));
  }

  /******* The state *******/

  /** Two turns, one message of each, one interrupt id, and four source events for each turn. */
  datatype Roles = Roles(a: Uuid, b: Uuid, m: Uuid, n: Uuid, i: Uuid, first: seq<Uuid>, second: seq<Uuid>)

  ghost predicate Apart(x: Roles) {
    && x.a != x.b && x.a != x.m && x.a != x.n && x.b != x.m && x.b != x.n && x.m != x.n
    && FourNew(x.first, {""})
    && FourNew(x.second, {""} + {x.first[0]} + {x.first[1]} + {x.first[2]} + {x.first[3]})
  }

  /** The first turn asks, the second answers it and asks again under the same id. */
  function TwiceTrace(x: Roles): seq<Action>
    requires |x.first| == |x.second| == 4
  {
    [] + [Enter(x.a)] + Saying(x.a, x.m, x.i, x.first) + [Resume(x.b, x.i, x.a)] + Saying(x.b, x.n, x.i, x.second)
  }

  function FirstPicture(x: Roles): Picture
    requires |x.first| == 4
  {
    Asked(Joined(Picture(map[], map[], {}), Turn(x.a)), x.a, x.m, x.i, x.first)
  }

  lemma FirstAsks(cfg: Config, x: Roles)
    requires Apart(x)
    ensures Shows(Reached(cfg, [] + [Enter(x.a)] + Saying(x.a, x.m, x.i, x.first)), FirstPicture(x))
    ensures OneQuestion(Reached(cfg, [] + [Enter(x.a)] + Saying(x.a, x.m, x.i, x.first)), x.a, x.i)
  {
    FirstShows(cfg, x.a);
    var v := Joined(Picture(map[], map[], {}), Turn(x.a));
    assert v.sources == {""};
    TurnAsks(cfg, [] + [Enter(x.a)], v, x.a, x.m, x.i, x.first);
  }

  lemma FirstPictureHolds(x: Roles)
    requires Apart(x)
    ensures var v := FirstPicture(x);
            && v.runs.Keys == {x.a} && v.runs[x.a].life == Asking(x.i) && v.messages.Keys == {x.a, x.m}
            && v.sources + {""} == {""} + {x.first[0]} + {x.first[1]} + {x.first[2]} + {x.first[3]}
  {}

  lemma SecondAsks(cfg: Config, trace: seq<Action>, v: Picture, x: Roles)
    requires Apart(x) && Shows(Reached(cfg, trace), v) && OneQuestion(Reached(cfg, trace), x.a, x.i)
    requires v.messages.Keys == {x.a, x.m} && FourNew(x.second, v.sources + {""})
    ensures Shows(Reached(cfg, trace + [Resume(x.b, x.i, x.a)] + Saying(x.b, x.n, x.i, x.second)),
                  Asked(Joined(v, Answer(x.b, x.i)), x.b, x.n, x.i, x.second))
  {
    AnswerShows(cfg, trace, v, x.b, x.i, x.a);
    AnswerIsQuiet(v, x.a, x.b, x.i);
    TurnAsks(cfg, trace + [Resume(x.b, x.i, x.a)], Joined(v, Answer(x.b, x.i)), x.b, x.n, x.i, x.second);
  }

  lemma AnswerIsQuiet(v: Picture, a: string, b: string, i: string)
    requires v.runs.Keys == {a} && v.runs[a].life == Asking(i) && a != b
    ensures var w := Joined(v, Answer(b, i));
            && w.runs[b].life == ADMITTED && w.runs[b].cursor == 0 && w.sources == v.sources + {""}
            && forall r :: r in w.runs ==> w.runs[r].life.status != Running
  {}

  lemma SecondPictureHolds(v: Picture, x: Roles)
    requires Apart(x) && v.runs.Keys == {x.a} && v.runs[x.a].life == Asking(x.i)
    ensures var w := Asked(Joined(v, Answer(x.b, x.i)), x.b, x.n, x.i, x.second);
            && w.runs.Keys == {x.a, x.b} && w.runs[x.a].life == Asking(x.i) && w.runs[x.b].life == Asking(x.i)
            && w.runs[x.b].resumes == x.i && w.runs[x.b].threadId == T
  {}

  lemma NothingIsLatest(s: Store, a: string, b: string, i: string)
    requires s.runs.Keys == {a, b} && s.runs[a].life == Asking(i) && s.runs[b].life == Asking(i)
    requires s.runs[b].resumes == i && s.runs[b].threadId == T
    ensures Asks(s, T, b, i) && Resumed(s, T, i) && LatestInterrupt(s, T, None)
  {
    assert forall p :: p in s.runs ==> p == a || p == b;
  }

  /** The second turn waits for an answer, and the interrupt query has nothing to return: no later
      turn has to answer it, and none can. */
  lemma UnanswerableWitness(cfg: Config, x: Roles)
    requires Apart(x)
    ensures var s := Reached(cfg, TwiceTrace(x));
            Asks(s, T, x.b, x.i) && Resumed(s, T, x.i) && LatestInterrupt(s, T, None)
  {
    FirstAsks(cfg, x);
    FirstPictureHolds(x);
    SecondAsks(cfg, [] + [Enter(x.a)] + Saying(x.a, x.m, x.i, x.first), FirstPicture(x), x);
    SecondPictureHolds(FirstPicture(x), x);
    NothingIsLatest(Reached(cfg, TwiceTrace(x)), x.a, x.b, x.i);
  }

  /** Names of one letter or digit. */
  predicate Plain(c: char) { '0' <= c <= '9' || 'a' <= c <= 'z' }

  function Name(c: char): (x: Uuid)
    requires Plain(c)
    ensures |x| == 1 && x[0] == c
  {
    assert !IsSpace(c);
    [c]
  }

  lemma FourNames(a: char, b: char, c: char, d: char, used: set<string>) returns (source: seq<Uuid>)
    requires Plain(a) && Plain(b) && Plain(c) && Plain(d)
    requires a != b && a != c && a != d && b != c && b != d && c != d
    requires forall x :: x in used ==> x != [a] && x != [b] && x != [c] && x != [d]
    ensures FourNew(source, used) && source == [[a], [b], [c], [d]]
  {
    source := [Name(a), Name(b), Name(c), Name(d)];
  }

  lemma EightNames() returns (first: seq<Uuid>, second: seq<Uuid>)
    ensures FourNew(first, {""}) && FourNew(second, {""} + {first[0]} + {first[1]} + {first[2]} + {first[3]})
  {
    first := FourNames('1', '2', '3', '4', {""});
    second := FourNames('5', '6', '7', '8', {""} + {first[0]} + {first[1]} + {first[2]} + {first[3]});
  }

  /** Such names exist. */
  lemma SomeRoles() returns (x: Roles)
    ensures Apart(x)
  {
    var first, second := EightNames();
    x := Roles(Name('a'), Name('b'), Name('m'), Name('n'), Name('i'), first, second);
  }
}
