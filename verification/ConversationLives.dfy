/** What the lifecycle columns of a run hold, in every reachable state. */
module ConversationLives {
  import opened ConversationModel
  import opened ConversationInvariants
  import opened ConversationIngestion
  import opened ConversationSweep
  import opened ConversationHistory
  import opened ConversationTheorems

  /** The status decides which columns are set, and to what. */
  ghost predicate Lived(life: Lifecycle) {
    var Lifecycle(status, outcome, interrupt, code, message, startedAt, completedAt) := life;
    match status
    case Pending => life == Lifecycle(Pending, "", None, "", "", None, None)
    case Running => startedAt.Some? && life == Lifecycle(Running, "", None, "", "", startedAt, None)
    case Completed => Ended(life) && life == Lifecycle(Completed, "normal", None, "", "", startedAt, completedAt)
    case Canceled => Ended(life) && life == Lifecycle(Canceled, "canceled", None, "", "", startedAt, completedAt)
    case Interrupted =>
      && Ended(life) && life == Lifecycle(Interrupted, "interrupt", interrupt, "", "", startedAt, completedAt)
      && interrupt.Some? && interrupt.value.id != "" && interrupt.value.kind != "" && interrupt.value.prompt != ""
    case Failed =>
      || (completedAt.Some? && life == Lifecycle(Failed, "", None, code, message, startedAt, completedAt))
      || (Ended(life) && message != ""
          && life == Lifecycle(Failed, "abandoned", None, "lease_expired", message, startedAt, completedAt))
  }

  /** The status a text in the status column stands for. */
  function StatusOf(text: string): Option<RunStatus> {
    match text
    case "pending" => Some(Pending)
    case "running" => Some(Running)
    case "completed" => Some(Completed)
    case "interrupted" => Some(Interrupted)
    case "canceled" => Some(Canceled)
    case "error" => Some(Failed)
    case _ => None
  }

  /** What is written is read back as the same status, and every text that is read is one written. */
  lemma StatusRoundTrip(status: RunStatus, text: string)
    ensures StatusOf(Wire(status)) == Some(status)
    ensures StatusOf(text).Some? ==> Wire(StatusOf(text).value) == text
  {}

  predicate Ended(life: Lifecycle) { life.startedAt.Some? && life.completedAt.Some? }

  ghost predicate Lives(s: Store) { forall r :: r in s.runs ==> Lived(s.runs[r].life) }

  lemma ProjectedLived(s: Store, r: string, b: Body)
    requires r in s.runs && Lived(s.runs[r].life) && Project(s, r, b).Ok?
    ensures Lived(Project(s, r, b).value.life)
  {}

  lemma NextKeepsLives(s: Store, e: Event, effect: Effect, parked: bool)
    requires Lands(s, e) && Ready(s, e, effect, parked) && Lives(s)
    ensures Lives(Next(s, e, effect, parked))
  {
    if !parked { ProjectedLived(s, e.runId, e.body); }
  }

  lemma AdmissionKeepsLives(s: Store, spec: StartSpec, now: int, s': Store)
    requires Admission(s, spec, now, s') && Lives(s)
    ensures Lives(s')
  {}

  lemma AbandonedKeepsLives(s: Store, batch: seq<string>, now: int, s': Store)
    requires Lives(s) && AllRunning(s, batch) && SweptAll(s, batch, now, s')
    ensures Lives(s')
  {
    forall r | r in s'.runs ensures Lived(s'.runs[r].life) {
      if r in batch { assert s'.runs[r] == Swept(s, r, now); }
    }
  }

  lemma StartedKeepsLives(s: Store, batch: seq<QueueKey>, s': Store)
    requires Gapless(s) && Queued(s) && StartedAll(s, batch, s') && Lives(s)
    requires forall k :: k in batch ==> Waiting(s, k)
    ensures Lives(s')
  {
    forall r | r in s'.runs ensures Lived(s'.runs[r].life) {
      if exists k :: k in batch && k in s.deferred && s.deferred[k] == r {
        var k :| k in batch && k in s.deferred && s.deferred[k] == r;
        QueueEntry(s, k);
      }
    }
  }

  lemma StepKeepsLives(s: Store, a: Action)
    requires Inv(s) && Lives(s)
    ensures Lives(Step(s, a))
  {
    match a {
      case Start(raw, freshRun, freshMessage, _, now) =>
        StartStep(s, a);
        if Step(s, a) != s { AdmissionKeepsLives(s, PrepareStart(raw, freshRun, freshMessage), now, Step(s, a)); }
      case Ingest(event) =>
        var effect, parked := IngestStep(s, event);
        if Step(s, a) != s { NextKeepsLives(s, Prepare(event), effect, parked); }
      case Abandon(runIds, now) =>
        if ExpiredBatch(s, runIds, now) {
          AbandonPass(s, runIds, now);
          AbandonedKeepsLives(s, runIds, now, AbandonAll(s, runIds, now).value);
        }
      case Promote(keys) =>
        SweepStep(s, keys);
        if Step(s, a) != s { StartedKeepsLives(s, keys, Step(s, a)); }
    }
  }

  lemma {:induction false} ExecKeepsLives(s: Store, trace: seq<Action>)
    requires Inv(s) && Lives(s)
    ensures Lives(Exec(s, trace))
    decreases |trace|
  {
    if trace != [] {
      StepKeepsLives(s, trace[0]);
      StepKeepsInv(s, trace[0]);
      ExecKeepsLives(Step(s, trace[0]), trace[1..]);
    }
  }

  /** In every reachable state the columns of every run are those of its status: a run that ended
      has both times, an outcome of its own status, and an interrupt only if it is interrupted. */
  lemma LifecyclesAreSound(cfg: Config, trace: seq<Action>)
    ensures Lives(Reached(cfg, trace))
  {
    InitInv(cfg);
    ExecKeepsLives(Init(cfg), trace);
  }
}
