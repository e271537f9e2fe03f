/** The tables of the durable conversation runtime and the transactions that change them.
    Every transaction is a function of the tables: an error leaves them as they were. */
module ConversationModel {
  import opened Text

  datatype Option<+T> = None | Some(value: T)

  datatype Result<+T> = Ok(value: T) | Err(error: Error)

  datatype Error =
    | InvalidConversation
    | ThreadNotFound
    | RunNotFound
    | TenantMismatch
    | RunAlreadyActive
    | InterruptRequired
    | InterruptMismatch
    | OutOfOrderSourceEvent
    | InvalidTransition
    | ConstraintViolation
    | TransactionAborted

  /******* Payloads *******/

  datatype Value = Str(text: string) | Obj(fields: Payload) | Other

  type Payload = map<string, Value>

  function StringValue(p: Payload, key: string): string {
    if key in p && p[key].Str? then TrimSpace(p[key].text) else ""
  }

  function MapValue(p: Payload, key: string): Payload {
    if key in p && p[key].Obj? then p[key].fields else map[]
  }

  /******* Facts *******/

  const RUN_STARTED := "RUN_STARTED"
  const RUN_ERROR := "RUN_ERROR"
  const RUN_FINISHED := "RUN_FINISHED"
  const MESSAGE_START := "TEXT_MESSAGE_START"
  const MESSAGE_CONTENT := "TEXT_MESSAGE_CONTENT"
  const MESSAGE_END := "TEXT_MESSAGE_END"

  predicate MovesRun(eventType: string) {
    eventType in {RUN_STARTED, RUN_ERROR, RUN_FINISHED}
  }

  predicate MovesMessage(eventType: string) {
    eventType in {MESSAGE_START, MESSAGE_CONTENT, MESSAGE_END}
  }

  /** What a projection reads of an event. */
  datatype Body = Body(eventType: string, occurredAt: int, payload: Payload)

  function MessageId(b: Body): string { StringValue(b.payload, "message_id") }

  /** An event reported by a producer. */
  datatype Event = Event(threadId: string, runId: string, processId: string, accountId: string, projectId: string,
                         sourceEventId: string, sourceSequence: int, body: Body)

  /** A row of the event table. */
  datatype Fact = Fact(threadId: string, runId: string, processId: string, sequence: int,
                       sourceEventId: string, sourceSequence: int, body: Body)

  /******* Runs and messages *******/

  datatype RunStatus = Pending | Running | Completed | Interrupted | Canceled | Failed

  predicate Terminal(status: RunStatus) { !status.Pending? && !status.Running? }

  /** The text the runtime writes into the status column. */
  function Wire(status: RunStatus): string {
    match status
    case Pending => "pending"
    case Running => "running"
    case Completed => "completed"
    case Interrupted => "interrupted"
    case Canceled => "canceled"
    case Failed => "error"
  }

  datatype Interrupt = Interrupt(id: string, kind: string, prompt: string)

  datatype Lifecycle = Lifecycle(status: RunStatus, outcome: string, interrupt: Option<Interrupt>,
                                 errorCode: string, errorMessage: string,
                                 startedAt: Option<int>, completedAt: Option<int>)

  const ADMITTED := Lifecycle(Pending, "", None, "", "", None, None)

  datatype Run = Run(threadId: string, processId: string, accountId: string, projectId: string,
                     idempotencyKey: string, resumes: string, createdAt: int,
                     life: Lifecycle, cursor: int, lastActivityAt: int)

  datatype MessageStatus = Streaming | Closed

  datatype Message = Message(threadId: string, runId: string, processId: string, role: string, content: string,
                             status: MessageStatus, createdAt: int, completedAt: Option<int>)

  /******* Tables *******/

  /** The status strings every deployment's CHECK constraint must accept. */
  const CORE_STATUSES: set<string> := {"pending", "running", "completed", "interrupted", "error"}

  datatype ConfigRow = ConfigRow(eventOutbox: bool, runLease: int, statusCheck: set<string>)

  type Config = c: ConfigRow | CORE_STATUSES <= c.statusCheck witness ConfigRow(false, 1, CORE_STATUSES)

  /** The CHECK constraint of the baseline migration. */
  const BASELINE_STATUSES: set<string> := CORE_STATUSES + {"cancelled"}

  datatype Thread = Thread(accountId: string, projectId: string, nextSequence: int)

  type QueueKey = (string, int)

  datatype Store = Store(
    cfg: Config,
    threads: map<string, Thread>,
    runs: map<string, Run>,
    messages: map<string, Message>,
    events: map<string, seq<Fact>>,
    deferred: map<QueueKey, string>,
    outbox: set<QueueKey>)

  function Init(cfg: Config): Store {
    Store(cfg, map[], map[], map[], map[], map[], {})
  }

  function Log(s: Store, t: string): seq<Fact> {
    if t in s.events then s.events[t] else []
  }

  /** The answer of a transaction applied to the tables: an error rolls back. */
  function Settled<T>(s: Store, r: Result<(Store, T)>): Store {
    if r.Ok? then r.value.0 else s
  }

  /******* Projections *******/

  /** What a projection changes: the lifecycle columns of its run and the message table. */
  datatype Effect = Effect(life: Lifecycle, messages: map<string, Message>)

  /** The partial unique index over running runs: some run holds the thread. */
  predicate Held(runs: map<string, Run>, t: string) {
    exists q :: q in runs && runs[q].threadId == t && runs[q].life.status == Running
  }

  function Started(life: Lifecycle, at: int): Lifecycle {
    life.(status := Running, startedAt := Some(at))
  }

  function Errored(life: Lifecycle, b: Body): Lifecycle {
    life.(status := Failed, errorCode := StringValue(b.payload, "code"),
          errorMessage := StringValue(b.payload, "message"), completedAt := Some(b.occurredAt))
  }

  function InterruptOf(b: Body): Interrupt {
    var m := MapValue(b.payload, "interrupt");
    Interrupt(StringValue(m, "interrupt_id"), StringValue(m, "type"), StringValue(m, "prompt"))
  }

  function OutcomeStatus(outcome: string): Option<RunStatus> {
    if outcome == "normal" then Some(Completed)
    else if outcome == "canceled" then Some(Canceled)
    else if outcome == "interrupt" then Some(Interrupted)
    else if outcome == "abandoned" then Some(Failed)
    else None
  }

  /** The lifecycle columns a terminal fact writes. */
  function Finished(life: Lifecycle, status: RunStatus, b: Body): Lifecycle {
    var outcome := StringValue(b.payload, "outcome");
    var reason := StringValue(b.payload, "termination_reason");
    Lifecycle(
      status, outcome,
      if outcome == "interrupt" then Some(InterruptOf(b)) else None,
      if outcome == "abandoned" then "lease_expired" else "",
      if outcome != "abandoned" then ""
      else if reason == "" then "run abandoned: no activity within its lease"
      else reason,
      life.startedAt, Some(b.occurredAt))
  }

  /** The run owns a finished assistant message. */
  predicate Spoke(messages: map<string, Message>, r: string) {
    exists m :: m in messages && messages[m].runId == r
                && messages[m].role == "assistant" && messages[m].status == Closed
  }

  function FinishRun(s: Store, r: string, b: Body): Result<Effect>
    requires r in s.runs
  {
    match OutcomeStatus(StringValue(b.payload, "outcome"))
    case None => Err(InvalidConversation)
    case Some(status) =>
      var interrupt := InterruptOf(b);
      if status.Interrupted? && (interrupt.id == "" || interrupt.kind == "" || interrupt.prompt == "") then
        Err(InvalidConversation)
      else if status.Interrupted? && !Spoke(s.messages, r) then Err(InvalidTransition)
      else if Wire(status) !in s.cfg.statusCheck then Err(ConstraintViolation)
      else Ok(Effect(Finished(s.runs[r].life, status, b), s.messages))
  }

  /** The message belongs to another run of the same thread: the event replays it. */
  predicate Replayed(s: Store, r: string, m: string)
    requires r in s.runs
  {
    m in s.messages && s.messages[m].threadId == s.runs[r].threadId && s.messages[m].runId != r
  }

  predicate OwnedOpen(s: Store, r: string, m: string) {
    m in s.messages && s.messages[m].runId == r && s.messages[m].status == Streaming
  }

  function Close(m: Message, b: Body): Message {
    m.(content := if "content" in b.payload && b.payload["content"].Str? then b.payload["content"].text else m.content,
       status := Closed, completedAt := Some(b.occurredAt))
  }

  function StartMessage(s: Store, r: string, b: Body): Result<map<string, Message>>
    requires r in s.runs
  {
    var id, role := MessageId(b), StringValue(b.payload, "role");
    if id == "" || role !in {"assistant", "system", "tool"} then Err(InvalidConversation)
    else if id !in s.messages then
      Ok(s.messages[id := Message(s.runs[r].threadId, r, s.runs[r].processId, role, "", Streaming, b.occurredAt, None)])
    else if Replayed(s, r, id) then Ok(s.messages)
    else Err(InvalidTransition)
  }

  function AppendContent(s: Store, r: string, b: Body): Result<map<string, Message>>
    requires r in s.runs
  {
    var id, delta := MessageId(b), StringValue(b.payload, "delta");
    if id == "" || delta == "" then Err(InvalidConversation)
    else if OwnedOpen(s, r, id) then
      var m := s.messages[id];
      Ok(s.messages[id := m.(content := m.content + delta)])
    else if Replayed(s, r, id) then Ok(s.messages)
    else Err(InvalidTransition)
  }

  function EndMessage(s: Store, r: string, b: Body): Result<map<string, Message>>
    requires r in s.runs
  {
    var id := MessageId(b);
    if id == "" then Err(InvalidConversation)
    else if OwnedOpen(s, r, id) then Ok(s.messages[id := Close(s.messages[id], b)])
    else if Replayed(s, r, id) then
      Ok(if s.messages[id].status == Streaming then s.messages[id := Close(s.messages[id], b)] else s.messages)
    else Err(InvalidTransition)
  }

  function HandleMessage(s: Store, r: string, b: Body): Result<map<string, Message>>
    requires r in s.runs && MovesMessage(b.eventType)
  {
    if b.eventType == MESSAGE_START then StartMessage(s, r, b)
    else if b.eventType == MESSAGE_CONTENT then AppendContent(s, r, b)
    else EndMessage(s, r, b)
  }

  /** One event applied to the run and message tables. */
  function Project(s: Store, r: string, b: Body): Result<Effect>
    requires r in s.runs
  {
    var life := s.runs[r].life;
    if b.eventType == RUN_STARTED then
      if life.status != Pending then Err(InvalidTransition)
      else if Held(s.runs, s.runs[r].threadId) then Err(RunAlreadyActive)
      else Ok(Effect(Started(life, b.occurredAt), s.messages))
    else if b.eventType == RUN_ERROR then
      if Terminal(life.status) then Err(InvalidTransition)
      else Ok(Effect(Errored(life, b), s.messages))
    else if b.eventType == RUN_FINISHED then
      if life.status != Running then Err(InvalidTransition) else FinishRun(s, r, b)
    else if MovesMessage(b.eventType) then
      if life.status != Running then Err(InvalidTransition)
      else
        match HandleMessage(s, r, b)
        case Ok(messages) => Ok(Effect(life, messages))
        case Err(error) => Err(error)
    else Ok(Effect(life, s.messages))
  }

  /******* The event table *******/

  function FindSource(log: seq<Fact>, source: string): Option<Fact> {
    if log == [] then None
    else if log[0].sourceEventId == source then Some(log[0])
    else FindSource(log[1..], source)
  }

  function FactAt(log: seq<Fact>, n: int): Option<Fact> {
    if log == [] then None else if log[0].sequence == n then Some(log[0]) else FactAt(log[1..], n)
  }

  /** The inserts of one appended fact break a unique index. */
  predicate InsertConflicts(s: Store, f: Fact) {
    || FactAt(Log(s, f.threadId), f.sequence).Some?
    || (f.sourceEventId != "" && FindSource(Log(s, f.threadId), f.sourceEventId).Some?)
    || (s.cfg.eventOutbox && (f.threadId, f.sequence) in s.outbox)
  }

  /** Allocates the thread's next sequence, stores the fact and queues its publication. */
  function AppendFact(s: Store, t: string, r: string, processId: string, source: string, sourceSequence: int, b: Body)
    : Result<(Store, Fact)>
  {
    if t !in s.threads then Err(ThreadNotFound)
    else
      var n := s.threads[t].nextSequence + 1;
      var f := Fact(t, r, processId, n, source, sourceSequence, b);
      if InsertConflicts(s, f) then Err(ConstraintViolation)
      else
        Ok((s.(threads := s.threads[t := s.threads[t].(nextSequence := n)],
               events := s.events[t := Log(s, t) + [f]],
               outbox := if s.cfg.eventOutbox then s.outbox + {(t, n)} else s.outbox), f))
  }

  /******* Ingestion *******/

  function Prepare(e: Event): Event {
    Event(TrimSpace(e.threadId), TrimSpace(e.runId), TrimSpace(e.processId), TrimSpace(e.accountId),
          TrimSpace(e.projectId),
          TrimSpace(e.sourceEventId), e.sourceSequence, e.body.(eventType := TrimSpace(e.body.eventType)))
  }

  predicate WellFormed(e: Event) {
    && e.threadId != "" && e.runId != "" && e.accountId != "" && e.projectId != ""
    && e.sourceEventId != "" && e.body.eventType != "" && e.sourceSequence > 0
  }

  /** The guards before a fact is stored; a delivery already stored comes back as its fact. */
  function Admit(s: Store, e: Event): Result<Option<Fact>> {
    if e.runId !in s.runs then Err(RunNotFound)
    else
      var run := s.runs[e.runId];
      if run.threadId != e.threadId || run.accountId != e.accountId || run.projectId != e.projectId then
        Err(TenantMismatch)
      else if e.processId != "" && run.processId != "" && e.processId != run.processId then Err(InvalidConversation)
      else
        var existing := FindSource(Log(s, e.threadId), e.sourceEventId);
        if existing.Some? then Ok(existing)
        else if e.sourceSequence <= run.cursor then Err(OutOfOrderSourceEvent)
        else Ok(None)
  }

  predicate Parks(e: Event, error: Error) {
    e.body.eventType == RUN_STARTED && error == RunAlreadyActive
  }

  /** Stores an admitted fact with its projection in place, or queued when the start is parked. */
  function Record(s: Store, e: Event, effect: Effect, parked: bool): Result<(Store, Fact)>
    requires e.runId in s.runs
  {
    var run := s.runs[e.runId];
    var projected := s.(runs := s.runs[e.runId := run.(life := effect.life)], messages := effect.messages);
    match AppendFact(projected, e.threadId, e.runId, run.processId, e.sourceEventId, e.sourceSequence, e.body)
    case Err(error) => Err(error)
    case Ok((stored, f)) =>
      var row := run.(life := effect.life, cursor := e.sourceSequence, lastActivityAt := e.body.occurredAt);
      Ok((stored.(deferred := if parked then stored.deferred[(e.threadId, f.sequence) := e.runId] else stored.deferred,
                  runs := stored.runs[e.runId := row]), f))
  }

  function PersistEvent(s: Store, e: Event): Result<(Store, Fact)> {
    match Admit(s, e)
    case Err(error) => Err(error)
    case Ok(Some(f)) => Ok((s, f))
    case Ok(None) =>
      match Project(s, e.runId, e.body)
      case Ok(effect) => Record(s, e, effect, false)
      case Err(error) =>
        if Parks(e, error) then Record(s, e, Effect(s.runs[e.runId].life, s.messages), true) else Err(error)
  }

  function IngestEvent(s: Store, raw: Event): Result<(Store, Fact)> {
    var e := Prepare(raw);
    if WellFormed(e) then PersistEvent(s, e) else Err(InvalidConversation)
  }

  /******* Admission *******/

  datatype StartSpec = StartSpec(runId: string, threadId: string, processId: string, accountId: string,
                                 projectId: string,
                                 messageId: string, userMessage: string, hasAttachments: bool,
                                 resume: Option<string>, idempotencyKey: string, requestedAt: int)

  /** A generated identifier: never empty, no white space around it. */
  type Uuid = u: string | u != "" && TrimSpace(u) == u witness "0"

  function PrepareStart(spec: StartSpec, freshRun: Uuid, freshMessage: Uuid): StartSpec {
    var runId, messageId := TrimSpace(spec.runId), TrimSpace(spec.messageId);
    StartSpec(if runId == "" then freshRun else runId, TrimSpace(spec.threadId), TrimSpace(spec.processId),
              TrimSpace(spec.accountId), TrimSpace(spec.projectId), if messageId == "" then freshMessage else messageId,
              spec.userMessage, spec.hasAttachments,
              if spec.resume.Some? then Some(TrimSpace(spec.resume.value)) else None,
              TrimSpace(spec.idempotencyKey), spec.requestedAt)
  }

  predicate WellFormedStart(spec: StartSpec) {
    && spec.threadId != "" && spec.accountId != "" && spec.projectId != "" && spec.idempotencyKey != ""
    && (TrimSpace(spec.userMessage) != "" || spec.hasAttachments)
    && spec.resume != Some("")
  }

  function EnsureThread(s: Store, spec: StartSpec): Result<Store> {
    if spec.threadId !in s.threads then
      Ok(s.(threads := s.threads[spec.threadId := Thread(spec.accountId, spec.projectId, 0)]))
    else if s.threads[spec.threadId].accountId != spec.accountId
            || s.threads[spec.threadId].projectId != spec.projectId then
      Err(TenantMismatch)
    else Ok(s)
  }

  predicate Admitted(s: Store, t: string, key: string, r: string) {
    r in s.runs && s.runs[r].threadId == t && s.runs[r].idempotencyKey == key
  }

  ghost function RunByKey(s: Store, t: string, key: string): Option<string> {
    if r :| Admitted(s, t, key, r) then Some(r) else None
  }

  predicate Unresolved(s: Store, t: string, p: string) {
    && p in s.runs && s.runs[p].threadId == t && s.runs[p].life.status == Interrupted
    && (forall q :: q in s.runs && s.runs[q].threadId == t && s.runs[p].life.interrupt.Some?
                    ==> s.runs[q].resumes != s.runs[p].life.interrupt.value.id)
  }

  /** Ordering of the interrupt query: latest completion first, then latest creation. */
  predicate NoLater(a: Run, b: Run) {
    var (x, y) := (if a.life.completedAt.Some? then a.life.completedAt.value else 0,
                   if b.life.completedAt.Some? then b.life.completedAt.value else 0);
    x < y || (x == y && a.createdAt <= b.createdAt)
  }

  /** The rows the interrupt query may return: none, or any of the latest unresolved ones. */
  ghost predicate LatestInterrupt(s: Store, t: string, pick: Option<string>) {
    match pick
    case None => forall p :: !Unresolved(s, t, p)
    case Some(p) => Unresolved(s, t, p) && forall q :: Unresolved(s, t, q) ==> NoLater(s.runs[q], s.runs[p])
  }

  function ValidateResume(s: Store, spec: StartSpec, pick: Option<string>): Option<Error>
    requires pick.Some? ==> pick.value in s.runs
  {
    if pick.None? then
      if spec.resume.Some? then Some(InterruptMismatch) else None
    else if spec.resume.None? then Some(InterruptRequired)
    else
      var interrupt := s.runs[pick.value].life.interrupt;
      if interrupt.Some? && interrupt.value.id == spec.resume.value then None else Some(InterruptMismatch)
  }

  function NewRun(spec: StartSpec, now: int): Run {
    Run(spec.threadId, spec.processId, spec.accountId, spec.projectId, spec.idempotencyKey,
        if spec.resume.Some? then spec.resume.value else "", spec.requestedAt, ADMITTED, 0, now)
  }

  function UserMessage(spec: StartSpec): Message {
    Message(spec.threadId, spec.runId, spec.processId, "user", spec.userMessage, Closed, spec.requestedAt,
            Some(spec.requestedAt))
  }

  /** The three facts that put the user's message on the timeline. */
  function UserBodies(spec: StartSpec): seq<Body> {
    var id, role := Str(spec.messageId), Str("user");
    [Body(MESSAGE_START, spec.requestedAt, map["message_id" := id, "role" := role]),
     Body(MESSAGE_CONTENT, spec.requestedAt, map["message_id" := id, "delta" := Str(spec.userMessage)]),
     Body(MESSAGE_END, spec.requestedAt, map["message_id" := id, "role" := role, "content" := Str(spec.userMessage)])]
  }

  function AppendUserFacts(s: Store, spec: StartSpec, bodies: seq<Body>): Result<Store>
    decreases |bodies|
  {
    if bodies == [] then Ok(s)
    else
      match AppendFact(s, spec.threadId, spec.runId, spec.processId, "", 0, bodies[0])
      case Err(error) => Err(error)
      case Ok((s', _)) => AppendUserFacts(s', spec, bodies[1..])
  }

  ghost function PersistStart(s: Store, spec: StartSpec, pick: Option<string>, now: int): Result<(Store, string)>
    requires pick.Some? ==> pick.value in s.runs
  {
    match EnsureThread(s, spec)
    case Err(error) => Err(error)
    case Ok(s1) =>
      match RunByKey(s1, spec.threadId, spec.idempotencyKey)
      case Some(r) => Ok((s1, r))
      case None =>
        match ValidateResume(s1, spec, pick)
        case Some(error) => Err(error)
        case None =>
          if spec.runId in s1.runs || spec.messageId in s1.messages then Err(ConstraintViolation)
          else
            var s2 := s1.(runs := s1.runs[spec.runId := NewRun(spec, now)],
                          messages := s1.messages[spec.messageId := UserMessage(spec)]);
            match AppendUserFacts(s2, spec, UserBodies(spec))
            case Err(error) => Err(error)
            case Ok(s3) => Ok((s3, spec.runId))
  }

  ghost function StartRun(s: Store, raw: StartSpec, freshRun: Uuid, freshMessage: Uuid, pick: Option<string>, now: int)
    : Result<(Store, string)>
    requires pick.Some? ==> pick.value in s.runs
  {
    var spec := PrepareStart(raw, freshRun, freshMessage);
    if WellFormedStart(spec) then PersistStart(s, spec, pick, now) else Err(InvalidConversation)
  }

  /******* Sweeping *******/

  const SWEEP_BATCH := 32

  /** The rows the lease query may return; rows another worker has locked are skipped. */
  predicate ExpiredBatch(s: Store, batch: seq<string>, now: int) {
    && |batch| <= SWEEP_BATCH
    && (forall i, j :: 0 <= i < j < |batch| ==> batch[i] != batch[j])
    && (forall r :: r in batch ==>
          r in s.runs && s.runs[r].life.status == Running && s.runs[r].lastActivityAt < now - s.cfg.runLease)
  }

  function AbandonSource(r: string): string { "lease-expired:" + r }

  /** The terminal fact a dead run never delivered. */
  function Abandonment(s: Store, r: string, now: int): Event
    requires r in s.runs
  {
    var run := s.runs[r];
    Event(run.threadId, r, run.processId, run.accountId, run.projectId, AbandonSource(r), run.cursor + 1,
          Body(RUN_FINISHED, now, map["outcome" := Str("abandoned"), "termination_reason" := Str("lease_expired")]))
  }

  function AbandonRun(s: Store, r: string, now: int): Result<Store> {
    if r !in s.runs then Err(RunNotFound)
    else if s.runs[r].life.status != Running then Ok(s)
    else
      match PersistEvent(s, Abandonment(s, r, now))
      case Err(error) => Err(error)
      case Ok((s', _)) => Ok(s')
  }

  function AbandonAll(s: Store, batch: seq<string>, now: int): Result<Store>
    decreases |batch|
  {
    if batch == [] then Ok(s)
    else
      match AbandonRun(s, batch[0], now)
      case Err(error) => Err(error)
      case Ok(s') => AbandonAll(s', batch[1..], now)
  }

  predicate Eligible(s: Store, k: QueueKey) {
    k in s.deferred && !Held(s.runs, k.0)
  }

  /** The rows the queue query may return: in the order of thread and sequence, whatever the
      collation of thread ids, and everything eligible unless the batch is full. */
  ghost predicate DeferredBatch(s: Store, batch: seq<QueueKey>) {
    && |batch| <= SWEEP_BATCH
    && (forall i, j :: 0 <= i < j < |batch| ==> batch[i] != batch[j])
    && (forall k :: k in batch ==> Eligible(s, k))
    && (forall k, k' :: k in batch && Eligible(s, k') && k'.0 == k.0 && k'.1 < k.1 ==> k' in batch)
    && (forall i, j :: 0 <= i < j < |batch| && batch[i].0 == batch[j].0 ==> batch[i].1 < batch[j].1)
    && (|batch| < SWEEP_BATCH ==> forall k :: Eligible(s, k) ==> k in batch)
  }

  /** One parked projection. There is no savepoint: a start that finds the thread taken
      aborts the transaction, and recording the attempt then fails. */
  function PromoteOne(s: Store, k: QueueKey): Result<Store> {
    if k !in s.deferred then Ok(s)
    else if s.deferred[k] !in s.runs then Err(RunNotFound)
    else
      var r := s.deferred[k];
      match FactAt(Log(s, k.0), k.1)
      case None => Ok(s)
      case Some(f) =>
        match Project(s, r, f.body)
        case Err(RunAlreadyActive) => Err(TransactionAborted)
        case Err(error) => Err(error)
        case Ok(effect) =>
          Ok(s.(runs := s.runs[r := s.runs[r].(life := effect.life)], messages := effect.messages,
                deferred := s.deferred - {k}))
  }

  function PromoteAll(s: Store, batch: seq<QueueKey>): Result<Store>
    decreases |batch|
  {
    if batch == [] then Ok(s)
    else
      match PromoteOne(s, batch[0])
      case Err(error) => Err(error)
      case Ok(s') => PromoteAll(s', batch[1..])
  }

  /******* Runs of the system *******/

  datatype Action =
    | Start(raw: StartSpec, freshRun: Uuid, freshMessage: Uuid, pick: Option<string>, now: int)
    | Ingest(event: Event)
    | Abandon(runIds: seq<string>, now: int)
    | Promote(keys: seq<QueueKey>)

  /** One committed or rolled-back transaction. An action that names a query answer the
      tables do not give is no step. */
  ghost function Step(s: Store, a: Action): Store {
    match a
    case Start(raw, freshRun, freshMessage, pick, now) =>
      if LatestInterrupt(s, TrimSpace(raw.threadId), pick) then
        Settled(s, StartRun(s, raw, freshRun, freshMessage, pick, now))
      else s
    case Ingest(event) => Settled(s, IngestEvent(s, event))
    case Abandon(runIds, now) =>
      if ExpiredBatch(s, runIds, now) && AbandonAll(s, runIds, now).Ok? then AbandonAll(s, runIds, now).value else s
    case Promote(keys) =>
      if DeferredBatch(s, keys) && PromoteAll(s, keys).Ok? then PromoteAll(s, keys).value else s
  }

  ghost function Exec(s: Store, trace: seq<Action>): Store
    decreases |trace|
  {
    if trace == [] then s else Exec(Step(s, trace[0]), trace[1..])
  }
}
