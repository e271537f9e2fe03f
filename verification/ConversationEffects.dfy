/** Which events are accepted, and what each kind of them writes. Everything here is said in the
    texts of the events and the columns of the tables. */
module ConversationEffects {
  import opened Text
  import opened ConversationModel
  import opened ConversationInvariants
  import opened ConversationIngestion
  import opened ConversationTheorems
  import opened ConversationLives

  /******* Arrival *******/

  /** A new event of a known run: in its scope, under a source id its thread has not seen, and
      beyond the run's cursor. */
  ghost predicate Arrives(s: Store, e: Event) {
    && InScope(s, e) && e.sourceEventId != "" && e.sourceSequence > s.runs[e.runId].cursor
    && (forall f :: f in Log(s, e.threadId) ==> f.sourceEventId != e.sourceEventId)
  }

  lemma ArrivesIff(s: Store, e: Event)
    requires e.sourceEventId != ""
    ensures Admit(s, e) == Ok(None) <==> Arrives(s, e)
  {
    SourceLookup(Log(s, e.threadId), e.sourceEventId);
  }

  /** The event is stored: one fact at the next sequence, the cursor and last activity of its run,
      and the columns and messages it writes. */
  ghost predicate Stores(s: Store, e: Event, life: Lifecycle, messages: map<string, Message>)
    requires e.runId in s.runs
  {
    PersistEvent(s, e).Ok? &&
    var (s', f) := PersistEvent(s, e).value;
    && f == Fact(e.threadId, e.runId, s.runs[e.runId].processId, |Log(s, e.threadId)| + 1, e.sourceEventId,
                 e.sourceSequence, e.body)
    && Log(s', e.threadId) == Log(s, e.threadId) + [f]
    && (forall t :: t != e.threadId ==> Log(s', t) == Log(s, t))
    && s'.runs == s.runs[e.runId := s.runs[e.runId].(life := life, cursor := e.sourceSequence,
                                                     lastActivityAt := e.body.occurredAt)]
    && s'.messages == messages && s'.deferred == s.deferred
  }

  lemma ProjectedIsStored(s: Store, e: Event, life: Lifecycle, messages: map<string, Message>)
    requires Inv(s) && Arrives(s, e) && Project(s, e.runId, e.body) == Ok(Effect(life, messages))
    ensures Stores(s, e, life, messages)
  {
    ArrivesIff(s, e);
    ReadyLands(s, e);
    assert GaplessThread(s, e.threadId);
    RecordIsNext(s, e, Effect(life, messages), false);
    forall t ensures Log(Next(s, e, Effect(life, messages), false), t)
                     == Log(s, t) + if t == e.threadId then [NewFact(s, e)] else []
    {
      NextLog(s, e, Effect(life, messages), false, t);
    }
  }

  /******* Texts of a payload *******/

  /** The payload has a text under the key that reads so without the white space around it. */
  predicate Says(p: Payload, key: string, text: string) {
    key in p && p[key].Str? && TrimSpace(p[key].text) == text
  }

  /** The payload has a text under the key that is more than white space. */
  predicate Gives(p: Payload, key: string) { key in p && p[key].Str? && TrimSpace(p[key].text) != "" }

  /** What the payload says of an interrupt. */
  predicate Tells(p: Payload, interrupt: Interrupt) {
    && "interrupt" in p && p["interrupt"].Obj? && interrupt.id != "" && interrupt.kind != "" && interrupt.prompt != ""
    && Says(p["interrupt"].fields, "interrupt_id", interrupt.id) && Says(p["interrupt"].fields, "type", interrupt.kind)
    && Says(p["interrupt"].fields, "prompt", interrupt.prompt)
  }

  /******* Runs *******/

  /** The run owns a completed assistant message. */
  ghost predicate HasSpoken(s: Store, r: string) {
    exists m :: m in s.messages && s.messages[m].runId == r && s.messages[m].role == "assistant"
                && s.messages[m].status == Closed
  }

  ghost predicate Free(s: Store, t: string) {
    forall q :: q in s.runs && s.runs[q].threadId == t ==> s.runs[q].life.status != Running
  }

  /** A pending run whose thread is free starts. */
  lemma StartRuns(s: Store, e: Event)
    requires Inv(s) && Lives(s) && Arrives(s, e) && e.body.eventType == "RUN_STARTED"
    requires s.runs[e.runId].life.status == Pending && Free(s, e.threadId)
    ensures Stores(s, e, Lifecycle(Running, "", None, "", "", Some(e.body.occurredAt), None), s.messages)
  {
    assert Lived(s.runs[e.runId].life);
    ProjectedIsStored(s, e, Lifecycle(Running, "", None, "", "", Some(e.body.occurredAt), None), s.messages);
  }

  /** A reported error ends a pending or running run with the code and message it gives. */
  lemma ErrorEnds(s: Store, e: Event, code: string, message: string)
    requires Inv(s) && Lives(s) && Arrives(s, e) && e.body.eventType == "RUN_ERROR"
    requires s.runs[e.runId].life.status in {Pending, Running}
    requires Says(e.body.payload, "code", code) || (code == "" && !Gives(e.body.payload, "code"))
    requires Says(e.body.payload, "message", message) || (message == "" && !Gives(e.body.payload, "message"))
    ensures Stores(s, e, Lifecycle(Failed, "", None, code, message, s.runs[e.runId].life.startedAt,
                                   Some(e.body.occurredAt)), s.messages)
  {
    assert Lived(s.runs[e.runId].life);
    ProjectedIsStored(s, e, Lifecycle(Failed, "", None, code, message, s.runs[e.runId].life.startedAt,
                                      Some(e.body.occurredAt)), s.messages);
  }

  /** A running run reports how it finished. */
  ghost predicate Finishes(s: Store, e: Event, outcome: string) {
    && Inv(s) && Arrives(s, e) && s.runs[e.runId].life.status == Running
    && e.body.eventType == "RUN_FINISHED" && Says(e.body.payload, "outcome", outcome)
  }

  /** What a finish writes once its outcome is read. */
  lemma FinishProjects(s: Store, r: string, b: Body, outcome: string, status: RunStatus)
    requires r in s.runs && s.runs[r].life.status == Running && b.eventType == "RUN_FINISHED"
    requires Says(b.payload, "outcome", outcome) && OutcomeStatus(outcome) == Some(status)
    requires status == Interrupted ==>
               && InterruptOf(b).id != "" && InterruptOf(b).kind != "" && InterruptOf(b).prompt != ""
               && Spoke(s.messages, r)
    requires Wire(status) in s.cfg.statusCheck
    ensures Project(s, r, b) == Ok(Effect(Finished(s.runs[r].life, status, b), s.messages))
  {}

  lemma NormalFinish(s: Store, e: Event)
    requires Finishes(s, e, "normal")
    ensures Stores(s, e, Lifecycle(Completed, "normal", None, "", "", s.runs[e.runId].life.startedAt,
                                   Some(e.body.occurredAt)), s.messages)
  {
    assert "completed" in CORE_STATUSES;
    FinishProjects(s, e.runId, e.body, "normal", Completed);
    ProjectedIsStored(s, e, Lifecycle(Completed, "normal", None, "", "", s.runs[e.runId].life.startedAt,
                                      Some(e.body.occurredAt)), s.messages);
  }

  /** A cancellation is stored when the status constraint accepts its text. */
  lemma CanceledFinish(s: Store, e: Event)
    requires Finishes(s, e, "canceled") && "canceled" in s.cfg.statusCheck
    ensures Stores(s, e, Lifecycle(Canceled, "canceled", None, "", "", s.runs[e.runId].life.startedAt,
                                   Some(e.body.occurredAt)), s.messages)
  {
    FinishProjects(s, e.runId, e.body, "canceled", Canceled);
    ProjectedIsStored(s, e, Lifecycle(Canceled, "canceled", None, "", "", s.runs[e.runId].life.startedAt,
                                      Some(e.body.occurredAt)), s.messages);
  }

  lemma TellsRead(b: Body, interrupt: Interrupt)
    requires Tells(b.payload, interrupt)
    ensures InterruptOf(b) == interrupt
  {}

  lemma InterruptProjects(s: Store, r: string, b: Body, interrupt: Interrupt)
    requires r in s.runs && s.runs[r].life.status == Running && b.eventType == "RUN_FINISHED"
    requires Says(b.payload, "outcome", "interrupt") && Tells(b.payload, interrupt) && Spoke(s.messages, r)
    ensures Project(s, r, b) == Ok(Effect(Lifecycle(Interrupted, "interrupt", Some(interrupt), "", "",
                                                    s.runs[r].life.startedAt, Some(b.occurredAt)), s.messages))
  {
    assert "interrupted" in CORE_STATUSES;
    TellsRead(b, interrupt);
    FinishProjects(s, r, b, "interrupt", Interrupted);
  }

  /** A run that has spoken can ask: its interrupt is stored as the payload tells it. */
  lemma InterruptedFinish(s: Store, e: Event, interrupt: Interrupt)
    requires Finishes(s, e, "interrupt") && HasSpoken(s, e.runId) && Tells(e.body.payload, interrupt)
    ensures Stores(s, e, Lifecycle(Interrupted, "interrupt", Some(interrupt), "", "", s.runs[e.runId].life.startedAt,
                                   Some(e.body.occurredAt)), s.messages)
  {
    assert Spoke(s.messages, e.runId);
    InterruptProjects(s, e.runId, e.body, interrupt);
    ProjectedIsStored(s, e, Lifecycle(Interrupted, "interrupt", Some(interrupt), "", "",
                                      s.runs[e.runId].life.startedAt, Some(e.body.occurredAt)), s.messages);
  }

  lemma AbandonmentFinishes(s: Store, r: string, b: Body, reason: string)
    requires r in s.runs && s.runs[r].life.status == Running && b.eventType == "RUN_FINISHED"
    requires Says(b.payload, "outcome", "abandoned")
    requires if Gives(b.payload, "termination_reason") then Says(b.payload, "termination_reason", reason)
             else reason == "run abandoned: no activity within its lease"
    ensures Project(s, r, b) == Ok(Effect(Lifecycle(Failed, "abandoned", None, "lease_expired", reason,
                                                    s.runs[r].life.startedAt, Some(b.occurredAt)), s.messages))
  {
    assert "error" in CORE_STATUSES;
    FinishProjects(s, r, b, "abandoned", Failed);
  }

  /** An abandoned run ends as an error with the reason given, or with the standard one. */
  lemma AbandonedFinish(s: Store, e: Event, reason: string)
    requires Finishes(s, e, "abandoned")
    requires if Gives(e.body.payload, "termination_reason") then Says(e.body.payload, "termination_reason", reason)
             else reason == "run abandoned: no activity within its lease"
    ensures Stores(s, e, Lifecycle(Failed, "abandoned", None, "lease_expired", reason,
                                   s.runs[e.runId].life.startedAt, Some(e.body.occurredAt)), s.messages)
  {
    AbandonmentFinishes(s, e.runId, e.body, reason);
    ProjectedIsStored(s, e, Lifecycle(Failed, "abandoned", None, "lease_expired", reason,
                                      s.runs[e.runId].life.startedAt, Some(e.body.occurredAt)), s.messages);
  }

  /******* Messages *******/

  /** A running run reports something of a message. */
  ghost predicate Speaks(s: Store, e: Event, eventType: string, id: string) {
    && Inv(s) && Arrives(s, e) && s.runs[e.runId].life.status == Running && e.body.eventType == eventType
    && id != "" && Says(e.body.payload, "message_id", id)
  }

  /** The message is open and the run's own. */
  predicate Streamed(s: Store, r: string, id: string) {
    id in s.messages && s.messages[id].runId == r && s.messages[id].status == Streaming
  }

  /** The message belongs to another run of the thread. */
  predicate Foreign(s: Store, e: Event, id: string) {
    id in s.messages && s.messages[id].threadId == e.threadId && s.messages[id].runId != e.runId
  }

  /** Under a new id a message of any of the three roles is opened, empty. */
  lemma OpeningStarts(s: Store, e: Event, id: string, role: string)
    requires Speaks(s, e, "TEXT_MESSAGE_START", id) && Says(e.body.payload, "role", role)
    requires role in {"assistant", "system", "tool"} && id !in s.messages
    ensures Stores(s, e, s.runs[e.runId].life,
                   s.messages[id := Message(e.threadId, e.runId, s.runs[e.runId].processId, role, "", Streaming,
                                            e.body.occurredAt, None)])
  {
    ProjectedIsStored(s, e, s.runs[e.runId].life,
                      s.messages[id := Message(e.threadId, e.runId, s.runs[e.runId].processId, role, "", Streaming,
                                               e.body.occurredAt, None)]);
  }

  /** A delta is appended to an open message of the run, whatever it holds already. */
  lemma DeltaAppends(s: Store, e: Event, id: string, delta: string)
    requires Speaks(s, e, "TEXT_MESSAGE_CONTENT", id) && Says(e.body.payload, "delta", delta) && delta != ""
    requires Streamed(s, e.runId, id)
    ensures Stores(s, e, s.runs[e.runId].life,
                   s.messages[id := s.messages[id].(content := s.messages[id].content + delta)])
  {
    ProjectedIsStored(s, e, s.runs[e.runId].life,
                      s.messages[id := s.messages[id].(content := s.messages[id].content + delta)]);
  }

  /** The message as an end event leaves it: with the text the event carries, untrimmed, or as it
      was streamed. */
  function Ending(m: Message, e: Event): Message {
    var p := e.body.payload;
    Message(m.threadId, m.runId, m.processId, m.role,
            if "content" in p && p["content"].Str? then p["content"].text else m.content,
            Closed, m.createdAt, Some(e.body.occurredAt))
  }

  /** An end closes an open message, the run's own or one another run of the thread left open. */
  lemma EndCloses(s: Store, e: Event, id: string)
    requires Speaks(s, e, "TEXT_MESSAGE_END", id) && id in s.messages && s.messages[id].status == Streaming
    requires s.messages[id].threadId == e.threadId
    ensures Stores(s, e, s.runs[e.runId].life, s.messages[id := Ending(s.messages[id], e)])
  {
    ProjectedIsStored(s, e, s.runs[e.runId].life, s.messages[id := Ending(s.messages[id], e)]);
  }

  lemma ReplayProjects(s: Store, r: string, b: Body, id: string)
    requires r in s.runs && s.runs[r].life.status == Running && MovesMessage(b.eventType)
    requires id != "" && Says(b.payload, "message_id", id) && Replayed(s, r, id)
    requires || (b.eventType == "TEXT_MESSAGE_START"
                 && StringValue(b.payload, "role") in {"assistant", "system", "tool"})
             || (b.eventType == "TEXT_MESSAGE_CONTENT" && Gives(b.payload, "delta"))
             || (b.eventType == "TEXT_MESSAGE_END" && s.messages[id].status == Closed)
    ensures Project(s, r, b) == Ok(Effect(s.runs[r].life, s.messages))
  {}

  /** What a run repeats of a message another run of its thread owns is stored and changes nothing,
      except that an end closes a message left open. */
  lemma ReplayIsAccepted(s: Store, e: Event, eventType: string, id: string, role: string)
    requires Speaks(s, e, eventType, id) && Foreign(s, e, id)
    requires || (eventType == "TEXT_MESSAGE_START" && role in {"assistant", "system", "tool"}
                 && Says(e.body.payload, "role", role))
             || (eventType == "TEXT_MESSAGE_CONTENT" && Gives(e.body.payload, "delta"))
             || (eventType == "TEXT_MESSAGE_END" && s.messages[id].status == Closed)
    ensures Stores(s, e, s.runs[e.runId].life, s.messages)
  {
    ReplayProjects(s, e.runId, e.body, id);
    ProjectedIsStored(s, e, s.runs[e.runId].life, s.messages);
  }

  /** An event of any other type is stored and changes nothing else, whatever the run's status. */
  lemma OtherEventsAreKept(s: Store, e: Event)
    requires Inv(s) && Arrives(s, e)
    requires e.body.eventType !in {"RUN_STARTED", "RUN_ERROR", "RUN_FINISHED", "TEXT_MESSAGE_START",
                                   "TEXT_MESSAGE_CONTENT", "TEXT_MESSAGE_END"}
    ensures Stores(s, e, s.runs[e.runId].life, s.messages)
  {
    ProjectedIsStored(s, e, s.runs[e.runId].life, s.messages);
  }

  /******* Refusals *******/

  /** The payload lacks what an event of its type must give. */
  ghost predicate Malformed(b: Body) {
    var p := b.payload;
    match b.eventType
    case "RUN_FINISHED" =>
      if Says(p, "outcome", "interrupt") then forall i :: !Tells(p, i)
      else !Says(p, "outcome", "normal") && !Says(p, "outcome", "canceled") && !Says(p, "outcome", "abandoned")
    case "TEXT_MESSAGE_START" =>
      || !Gives(p, "message_id")
      || (!Says(p, "role", "assistant") && !Says(p, "role", "system") && !Says(p, "role", "tool"))
    case "TEXT_MESSAGE_CONTENT" => !Gives(p, "message_id") || !Gives(p, "delta")
    case "TEXT_MESSAGE_END" => !Gives(p, "message_id")
    case _ => false
  }

  /** The status of the run admits events of the type. */
  predicate StatusFits(status: RunStatus, eventType: string) {
    match eventType
    case "RUN_STARTED" => status == Pending
    case "RUN_ERROR" => status in {Pending, Running}
    case "RUN_FINISHED" | "TEXT_MESSAGE_START" | "TEXT_MESSAGE_CONTENT" | "TEXT_MESSAGE_END" => status == Running
    case _ => true
  }

  /** The messages of the thread admit a well-formed event. */
  ghost predicate MessageFits(s: Store, e: Event) {
    var p := e.body.payload;
    match e.body.eventType
    case "RUN_FINISHED" => Says(p, "outcome", "interrupt") ==> HasSpoken(s, e.runId)
    case "TEXT_MESSAGE_START" => exists id :: Says(p, "message_id", id) && (id in s.messages ==> Foreign(s, e, id))
    case "TEXT_MESSAGE_CONTENT" | "TEXT_MESSAGE_END" =>
      exists id :: Says(p, "message_id", id) && (Streamed(s, e.runId, id) || Foreign(s, e, id))
    case _ => true
  }

  /** The status text of a cancellation is one the constraint refuses. */
  predicate Unwritable(s: Store, b: Body) {
    b.eventType == "RUN_FINISHED" && Says(b.payload, "outcome", "canceled") && "canceled" !in s.cfg.statusCheck
  }

  lemma TellsInterrupt(b: Body)
    ensures (exists i :: Tells(b.payload, i))
            <==> InterruptOf(b).id != "" && InterruptOf(b).kind != "" && InterruptOf(b).prompt != ""
  {
    if InterruptOf(b).id != "" && InterruptOf(b).kind != "" && InterruptOf(b).prompt != "" {
      assert Tells(b.payload, InterruptOf(b));
    }
  }

  /** Why an arriving event is refused, if it is. */
  ghost function Refusal(s: Store, e: Event): Option<Error>
    requires e.runId in s.runs
  {
    if !StatusFits(s.runs[e.runId].life.status, e.body.eventType) then Some(InvalidTransition)
    else if Malformed(e.body) then Some(InvalidConversation)
    else if !MessageFits(s, e) then Some(InvalidTransition)
    else if Unwritable(s, e.body) then Some(ConstraintViolation)
    else None
  }

  /** The projection fails in this case only, and with this error. */
  ghost predicate FailsAs<T>(result: Result<T>, refusal: Option<Error>) {
    (result.Err? <==> refusal.Some?) && (result.Err? ==> result.error == refusal.value)
  }

  lemma FinishRefusal(s: Store, e: Event)
    requires e.runId in s.runs && e.body.eventType == "RUN_FINISHED" && s.runs[e.runId].life.status == Running
    ensures FailsAs(FinishRun(s, e.runId, e.body), Refusal(s, e))
  {
    var p := e.body.payload;
    if Says(p, "outcome", "interrupt") {
      InterruptRefusal(s, e);
    } else {
      assert "completed" in CORE_STATUSES && "error" in CORE_STATUSES;
      assert Says(p, "outcome", "canceled") <==> StringValue(p, "outcome") == "canceled";
    }
  }

  lemma InterruptRefusal(s: Store, e: Event)
    requires e.runId in s.runs && e.body.eventType == "RUN_FINISHED" && s.runs[e.runId].life.status == Running
    requires Says(e.body.payload, "outcome", "interrupt")
    ensures FailsAs(FinishRun(s, e.runId, e.body), Refusal(s, e))
  {
    TellsInterrupt(e.body);
    assert "interrupted" in CORE_STATUSES;
    assert Spoke(s.messages, e.runId) <==> HasSpoken(s, e.runId);
  }

  lemma OpeningRefusal(s: Store, e: Event)
    requires e.runId in s.runs && s.runs[e.runId].threadId == e.threadId
    requires e.body.eventType == "TEXT_MESSAGE_START" && s.runs[e.runId].life.status == Running
    ensures FailsAs(StartMessage(s, e.runId, e.body), Refusal(s, e))
  {
    assert Gives(e.body.payload, "message_id") ==> Says(e.body.payload, "message_id", MessageId(e.body));
  }

  lemma DeltaRefusal(s: Store, e: Event)
    requires e.runId in s.runs && s.runs[e.runId].threadId == e.threadId
    requires e.body.eventType == "TEXT_MESSAGE_CONTENT" && s.runs[e.runId].life.status == Running
    ensures FailsAs(AppendContent(s, e.runId, e.body), Refusal(s, e))
  {
    assert Gives(e.body.payload, "message_id") ==> Says(e.body.payload, "message_id", MessageId(e.body));
  }

  lemma EndRefusal(s: Store, e: Event)
    requires e.runId in s.runs && s.runs[e.runId].threadId == e.threadId
    requires e.body.eventType == "TEXT_MESSAGE_END" && s.runs[e.runId].life.status == Running
    ensures FailsAs(EndMessage(s, e.runId, e.body), Refusal(s, e))
  {
    assert Gives(e.body.payload, "message_id") ==> Says(e.body.payload, "message_id", MessageId(e.body));
  }

  /** A start that loses its thread is parked, not refused. */
  lemma ProjectRefusal(s: Store, e: Event)
    requires e.runId in s.runs && s.runs[e.runId].threadId == e.threadId
    ensures var result := Project(s, e.runId, e.body);
            FailsAs(result, Refusal(s, e)) || (result == Err(RunAlreadyActive) && Refusal(s, e).None?
                                               && e.body.eventType == "RUN_STARTED")
    ensures e.body.eventType != "RUN_STARTED" ==> Project(s, e.runId, e.body) != Err(RunAlreadyActive)
  {
    if s.runs[e.runId].life.status == Running {
      match e.body.eventType {
        case "RUN_FINISHED" => FinishRefusal(s, e);
        case "TEXT_MESSAGE_START" => OpeningRefusal(s, e);
        case "TEXT_MESSAGE_CONTENT" => DeltaRefusal(s, e);
        case "TEXT_MESSAGE_END" => EndRefusal(s, e);
        case _ =>
      }
    }
  }

  /** An arriving event is refused if and only if the status of its run, its payload, the messages
      of its thread or the status constraint is against it, and the error says which. */
  lemma RefusedIff(s: Store, e: Event)
    requires Inv(s) && Arrives(s, e)
    ensures FailsAs(PersistEvent(s, e), Refusal(s, e))
  {
    ArrivesIff(s, e);
    ReadyLands(s, e);
    assert GaplessThread(s, e.threadId);
    ProjectRefusal(s, e);
    match Project(s, e.runId, e.body) {
      case Ok(effect) => RecordIsNext(s, e, effect, false);
      case Err(_) => RecordIsNext(s, e, Effect(s.runs[e.runId].life, s.messages), true);
    }
  }

  /******* Deliveries *******/

  /** A required field of an event is blank, or its source position is not positive. */
  predicate Incomplete(e: Event) {
    || e.threadId == "" || e.runId == "" || e.accountId == "" || e.projectId == "" || e.sourceEventId == ""
    || e.body.eventType == "" || e.sourceSequence <= 0
  }

  predicate OfTenant(s: Store, e: Event)
    requires e.runId in s.runs
  {
    && s.runs[e.runId].threadId == e.threadId && s.runs[e.runId].accountId == e.accountId
    && s.runs[e.runId].projectId == e.projectId
  }

  ghost predicate Known(s: Store, e: Event) {
    exists f :: f in Log(s, e.threadId) && f.sourceEventId == e.sourceEventId
  }

  /** The event as it is read: every identifier without the white space around it. */
  predicate ReadsAs(raw: Event, e: Event) {
    && e.threadId == TrimSpace(raw.threadId) && e.runId == TrimSpace(raw.runId)
    && e.processId == TrimSpace(raw.processId) && e.accountId == TrimSpace(raw.accountId)
    && e.projectId == TrimSpace(raw.projectId) && e.sourceEventId == TrimSpace(raw.sourceEventId)
    && e.sourceSequence == raw.sourceSequence
    && e.body == Body(TrimSpace(raw.body.eventType), raw.body.occurredAt, raw.body.payload)
  }

  /** What becomes of a delivery, in every case. */
  lemma DeliveryTheorem(s: Store, raw: Event, e: Event)
    requires Inv(s) && ReadsAs(raw, e)
    ensures Incomplete(e) ==> IngestEvent(s, raw) == Err(InvalidConversation)
    ensures !Incomplete(e) && e.runId !in s.runs ==> IngestEvent(s, raw) == Err(RunNotFound)
    ensures !Incomplete(e) && e.runId in s.runs && !OfTenant(s, e) ==> IngestEvent(s, raw) == Err(TenantMismatch)
    ensures !Incomplete(e) && e.runId in s.runs && OfTenant(s, e) && !InScope(s, e) ==>
              IngestEvent(s, raw) == Err(InvalidConversation)
    ensures !Incomplete(e) && InScope(s, e) && Known(s, e) ==>
              exists f :: f in Log(s, e.threadId) && f.sourceEventId == e.sourceEventId
                          && IngestEvent(s, raw) == Ok((s, f))
    ensures !Incomplete(e) && InScope(s, e) && !Known(s, e) && e.sourceSequence <= s.runs[e.runId].cursor ==>
              IngestEvent(s, raw) == Err(OutOfOrderSourceEvent)
    ensures !Incomplete(e) && Arrives(s, e) ==>
              IngestEvent(s, raw) == PersistEvent(s, e) && FailsAs(IngestEvent(s, raw), Refusal(s, e))
  {
    assert IngestEvent(s, raw) == if Incomplete(e) then Err(InvalidConversation) else PersistEvent(s, e) by {
      assert Prepare(raw) == e;
    }
    if !Incomplete(e) {
      if Arrives(s, e) { RefusedIff(s, e); } else { OutOfPlace(s, e); }
    }
  }

  /** What becomes of an event that does not arrive. */
  lemma OutOfPlace(s: Store, e: Event)
    requires e.sourceEventId != "" && !Arrives(s, e)
    ensures e.runId !in s.runs ==> PersistEvent(s, e) == Err(RunNotFound)
    ensures e.runId in s.runs && !OfTenant(s, e) ==> PersistEvent(s, e) == Err(TenantMismatch)
    ensures e.runId in s.runs && OfTenant(s, e) && !InScope(s, e) ==> PersistEvent(s, e) == Err(InvalidConversation)
    ensures InScope(s, e) && Known(s, e) ==>
              exists f :: f in Log(s, e.threadId) && f.sourceEventId == e.sourceEventId
                          && PersistEvent(s, e) == Ok((s, f))
    ensures InScope(s, e) && !Known(s, e) ==> PersistEvent(s, e) == Err(OutOfOrderSourceEvent)
  {
    SourceLookup(Log(s, e.threadId), e.sourceEventId);
    if InScope(s, e) && Known(s, e) { StoredIsAdmitted(s, e); }
  }
}
