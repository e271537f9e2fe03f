/** Which requests admit a run, what the run's rows are, and which interrupt a request must answer. */
module ConversationRequests {
  import opened Text
  import opened ConversationModel
  import opened ConversationInvariants
  import opened ConversationAdmission
  import opened ConversationTheorems
  import opened ConversationLimits
  import opened ConversationLives

  /******* The interrupt to answer *******/

  /** A run waits for an answer to its interrupt, and no run of the thread has given one. */
  ghost predicate Open(s: Store, t: string, p: string) {
    && p in s.runs && s.runs[p].threadId == t
    && s.runs[p].life.status == Interrupted && s.runs[p].life.interrupt.Some?
    && !Resumed(s, t, s.runs[p].life.interrupt.value.id)
  }

  /** Both runs ended, the first one no later; of two that ended together it was not created later. */
  predicate EndedBefore(a: Run, b: Run) {
    && a.life.completedAt.Some? && b.life.completedAt.Some?
    && a.life.completedAt.value <= b.life.completedAt.value
    && (a.life.completedAt.value == b.life.completedAt.value ==> a.createdAt <= b.createdAt)
  }

  ghost predicate LatestOpen(s: Store, t: string, p: string) {
    Open(s, t, p) && forall q :: Open(s, t, q) ==> EndedBefore(s.runs[q], s.runs[p])
  }

  lemma OpenIff(s: Store, t: string, p: string)
    requires Lives(s)
    ensures Unresolved(s, t, p) <==> Open(s, t, p)
    ensures Open(s, t, p) ==> s.runs[p].life.completedAt.Some?
  {
    if p in s.runs && s.runs[p].threadId == t && s.runs[p].life.status == Interrupted {
      assert Lived(s.runs[p].life);
      UnresolvedIff(s, t, p, s.runs[p].life.interrupt.value.id);
    }
  }

  lemma OrderIff(a: Run, b: Run)
    requires a.life.completedAt.Some? && b.life.completedAt.Some?
    ensures NoLater(a, b) <==> EndedBefore(a, b)
  {}

  /** The query returns a run if and only if its interrupt is the latest open one, and returns
      nothing if and only if none is open. */
  lemma QueryReturnsLatest(s: Store, t: string, pick: Option<string>)
    requires Lives(s)
    ensures LatestInterrupt(s, t, pick) <==>
              match pick
              case None => forall p :: !Open(s, t, p)
              case Some(p) => LatestOpen(s, t, p)
  {
    forall p ensures Unresolved(s, t, p) <==> Open(s, t, p) { OpenIff(s, t, p); }
    if pick.Some? && Open(s, t, pick.value) {
      var p := pick.value;
      forall q | Open(s, t, q) ensures NoLater(s.runs[q], s.runs[p]) <==> EndedBefore(s.runs[q], s.runs[p]) {
        OpenIff(s, t, p);
        OpenIff(s, t, q);
        OrderIff(s.runs[q], s.runs[p]);
      }
    }
  }

  /** The request answers the latest open interrupt of its thread, or there is none to answer. */
  ghost predicate AnswersLatest(s: Store, spec: StartSpec) {
    if forall p :: !Open(s, spec.threadId, p) then spec.resume == None
    else exists p :: LatestOpen(s, spec.threadId, p) && spec.resume == Some(s.runs[p].life.interrupt.value.id)
  }

  lemma AnswersIff(s: Store, spec: StartSpec, pick: Option<string>)
    requires Lives(s) && LatestInterrupt(s, spec.threadId, pick) && Answers(s, spec, pick)
    ensures AnswersLatest(s, spec)
  {
    QueryReturnsLatest(s, spec.threadId, pick);
    if pick.Some? { assert LatestOpen(s, spec.threadId, pick.value); }
  }

  lemma LatestCanBePicked(s: Store, spec: StartSpec) returns (pick: Option<string>)
    requires Lives(s) && AnswersLatest(s, spec)
    ensures LatestInterrupt(s, spec.threadId, pick) && Answers(s, spec, pick)
  {
    pick := None;
    if exists p :: Open(s, spec.threadId, p) {
      var p :| LatestOpen(s, spec.threadId, p) && spec.resume == Some(s.runs[p].life.interrupt.value.id);
      pick := Some(p);
    }
    QueryReturnsLatest(s, spec.threadId, pick);
  }

  /** A new key is admitted, under some answer of the interrupt query, if and only if the tenant
      fits, the ids are new, and the request answers the latest open interrupt when one is open. */
  lemma AdmissionTheorem(cfg: Config, trace: seq<Action>, spec: StartSpec, now: int)
    requires forall r :: !Admitted(Reached(cfg, trace), spec.threadId, spec.idempotencyKey, r)
    ensures var s := Reached(cfg, trace);
            (exists pick :: LatestInterrupt(s, spec.threadId, pick) && PersistStart(s, spec, pick, now).Ok?) <==>
              && TenantFits(s, spec) && AnswersLatest(s, spec)
              && spec.runId !in s.runs && spec.messageId !in s.messages
  {
    var s := Reached(cfg, trace);
    ReachedInv(cfg, trace);
    LifecyclesAreSound(cfg, trace);
    forall pick | LatestInterrupt(s, spec.threadId, pick)
      ensures PersistStart(s, spec, pick, now).Ok? ==>
                && TenantFits(s, spec) && AnswersLatest(s, spec)
                && spec.runId !in s.runs && spec.messageId !in s.messages
    {
      AdmissionIff(s, spec, pick, now);
      if Answers(s, spec, pick) { AnswersIff(s, spec, pick); }
    }
    if AnswersLatest(s, spec) {
      var pick := LatestCanBePicked(s, spec);
      AdmissionIff(s, spec, pick, now);
    }
  }

  /******* Refusals *******/

  /** Why a request under a new key is refused, if it is. */
  ghost function Denial(s: Store, spec: StartSpec, pick: Option<string>): Option<Error>
    requires pick.Some? ==> pick.value in s.runs && s.runs[pick.value].life.interrupt.Some?
  {
    if !TenantFits(s, spec) then Some(TenantMismatch)
    else if pick.None? && spec.resume.Some? then Some(InterruptMismatch)
    else if pick.Some? && spec.resume.None? then Some(InterruptRequired)
    else if pick.Some? && spec.resume.value != s.runs[pick.value].life.interrupt.value.id then Some(InterruptMismatch)
    else if spec.runId in s.runs || spec.messageId in s.messages then Some(ConstraintViolation)
    else None
  }

  /** A request under a new key is refused in these cases only, and with these errors. */
  lemma DeniedIff(s: Store, spec: StartSpec, pick: Option<string>, now: int)
    requires Inv(s) && Lives(s) && LatestInterrupt(s, spec.threadId, pick)
    requires forall r :: !Admitted(s, spec.threadId, spec.idempotencyKey, r)
    ensures pick.Some? ==> pick.value in s.runs && s.runs[pick.value].life.interrupt.Some?
    ensures var answer := PersistStart(s, spec, pick, now);
            && (answer.Err? <==> Denial(s, spec, pick).Some?)
            && (answer.Err? ==> answer.error == Denial(s, spec, pick).value)
  {
    if pick.Some? { OpenIff(s, spec.threadId, pick.value); }
    AdmissionIff(s, spec, pick, now);
    EnsuredOr(s, spec, pick, now);
  }

  /** The errors of the steps before the rows are inserted. */
  lemma EnsuredOr(s: Store, spec: StartSpec, pick: Option<string>, now: int)
    requires pick.Some? ==> pick.value in s.runs && s.runs[pick.value].life.interrupt.Some?
    requires forall r :: !Admitted(s, spec.threadId, spec.idempotencyKey, r)
    ensures Denial(s, spec, pick).Some? ==> PersistStart(s, spec, pick, now) == Err(Denial(s, spec, pick).value)
  {
    if EnsureThread(s, spec).Ok? {
      var s1 := EnsureThread(s, spec).value;
      assert RunByKey(s1, spec.threadId, spec.idempotencyKey).None? by { EnsureThreadKeepsAdmissions(s, spec); }
    }
  }

  /******* Rows *******/

  /** The three facts that put the user's message on the timeline. */
  ghost predicate UserTimeline(facts: seq<Fact>, spec: StartSpec, base: int) {
    var id, user, text := Str(spec.messageId), Str("user"), Str(spec.userMessage);
    facts == [
      Fact(spec.threadId, spec.runId, spec.processId, base + 1, "", 0,
           Body("TEXT_MESSAGE_START", spec.requestedAt, map["message_id" := id, "role" := user])),
      Fact(spec.threadId, spec.runId, spec.processId, base + 2, "", 0,
           Body("TEXT_MESSAGE_CONTENT", spec.requestedAt, map["message_id" := id, "delta" := text])),
      Fact(spec.threadId, spec.runId, spec.processId, base + 3, "", 0,
           Body("TEXT_MESSAGE_END", spec.requestedAt, map["message_id" := id, "role" := user, "content" := text]))]
  }

  /** One pending run, one completed user message, its three facts, the thread, and nothing else. */
  ghost predicate Written(s: Store, spec: StartSpec, now: int, s': Store) {
    && s'.runs == s.runs[spec.runId := Run(spec.threadId, spec.processId, spec.accountId, spec.projectId,
                                           spec.idempotencyKey, if spec.resume.Some? then spec.resume.value else "",
                                           spec.requestedAt, Lifecycle(Pending, "", None, "", "", None, None), 0, now)]
    && s'.messages == s.messages[spec.messageId :=
                                   Message(spec.threadId, spec.runId, spec.processId, "user", spec.userMessage, Closed,
                                           spec.requestedAt, Some(spec.requestedAt))]
    && Log(s, spec.threadId) <= Log(s', spec.threadId)
    && UserTimeline(Log(s', spec.threadId)[|Log(s, spec.threadId)|..], spec, |Log(s, spec.threadId)|)
    && (forall t :: t != spec.threadId ==> Log(s', t) == Log(s, t))
    && s'.threads.Keys == s.threads.Keys + {spec.threadId} && s'.deferred == s.deferred
  }

  /** What an admission writes, the thread included if it is new. */
  lemma AdmissionWrites(s: Store, spec: StartSpec, pick: Option<string>, now: int)
    requires Inv(s) && LatestInterrupt(s, spec.threadId, pick) && TrimSpace(spec.messageId) == spec.messageId
    requires forall r :: !Admitted(s, spec.threadId, spec.idempotencyKey, r)
    requires PersistStart(s, spec, pick, now).Ok?
    ensures var (s', r) := PersistStart(s, spec, pick, now).value; r == spec.runId && Written(s, spec, now, s')
  {
    var s1, s' := EnsureThread(s, spec).value, PersistStart(s, spec, pick, now).value.0;
    assert EnsureThread(s, spec).Ok? && Admits(s1, spec, now, s') by { NewKeyCase(s, spec, pick, now); }
    assert PersistStart(s, spec, pick, now).value.1 == spec.runId by { NewKeyCase(s, spec, pick, now); }
    AdmittedRows(s1, spec, now, s');
    WrittenWithThread(s, spec, now, s1, s');
  }

  lemma WrittenWithThread(s: Store, spec: StartSpec, now: int, s1: Store, s': Store)
    requires EnsureThread(s, spec) == Ok(s1) && Written(s1, spec, now, s')
    ensures Written(s, spec, now, s')
  {
    assert forall t :: Log(s1, t) == Log(s, t);
  }

  lemma AdmittedRows(s: Store, spec: StartSpec, now: int, s': Store)
    requires spec.threadId in s.threads && Admits(s, spec, now, s')
    ensures Written(s, spec, now, s')
  {
    var facts := UserFacts(spec, |Log(s, spec.threadId)|, UserBodies(spec));
    TimelineIs(spec, |Log(s, spec.threadId)|);
    assert Log(s', spec.threadId)[|Log(s, spec.threadId)|..] == facts;
  }

  lemma TimelineIs(spec: StartSpec, base: int)
    ensures UserTimeline(UserFacts(spec, base, UserBodies(spec)), spec, base)
  {
    UserFactsAre(spec, base);
  }

  /******* Requests as they come *******/

  /** The request as it is read: identifiers without the white space around them, and new ids for
      the run and the message where none were given. */
  predicate Requests(raw: StartSpec, freshRun: Uuid, freshMessage: Uuid, spec: StartSpec) {
    && spec.threadId == TrimSpace(raw.threadId) && spec.processId == TrimSpace(raw.processId)
    && spec.accountId == TrimSpace(raw.accountId) && spec.projectId == TrimSpace(raw.projectId)
    && spec.idempotencyKey == TrimSpace(raw.idempotencyKey)
    && spec.runId == (if TrimSpace(raw.runId) == "" then freshRun else TrimSpace(raw.runId))
    && spec.messageId == (if TrimSpace(raw.messageId) == "" then freshMessage else TrimSpace(raw.messageId))
    && spec.userMessage == raw.userMessage && spec.hasAttachments == raw.hasAttachments
    && spec.requestedAt == raw.requestedAt
    && spec.resume == (if raw.resume.Some? then Some(TrimSpace(raw.resume.value)) else None)
  }

  /** A required field is blank, there is neither text nor attachment, or the resume is blank. */
  predicate Lacking(spec: StartSpec) {
    || spec.threadId == "" || spec.accountId == "" || spec.projectId == "" || spec.idempotencyKey == ""
    || (!spec.hasAttachments && TrimSpace(spec.userMessage) == "")
    || (spec.resume.Some? && spec.resume.value == "")
  }

  /** A request is refused as invalid if and only if it lacks something; otherwise it is answered
      as the request that was read. */
  lemma RequestIsRead(s: Store, raw: StartSpec, freshRun: Uuid, freshMessage: Uuid, spec: StartSpec,
                      pick: Option<string>, now: int)
    requires Requests(raw, freshRun, freshMessage, spec) && (pick.Some? ==> pick.value in s.runs)
    ensures spec.runId != "" && spec.messageId != "" && TrimSpace(spec.messageId) == spec.messageId
    ensures StartRun(s, raw, freshRun, freshMessage, pick, now)
            == if Lacking(spec) then Err(InvalidConversation) else PersistStart(s, spec, pick, now)
  {
    TrimIdempotent(raw.messageId);
    assert PrepareStart(raw, freshRun, freshMessage) == spec;
  }
}
