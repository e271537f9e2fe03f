/** The runtime as it runs: transactions that write rows, roll back on error, and loop over the
    rows a sweep selected. Each method is tied to the step it takes. */
module ConversationRuntime {
  import opened Text
  import opened ConversationModel
  import opened ConversationInvariants
  import opened ConversationSweep
  import opened ConversationHistory

  /** The interrupt query always has an answer. */
  lemma {:induction false} LatestAmong(s: Store, candidates: set<string>) returns (p: string)
    requires candidates != {} && forall q :: q in candidates ==> q in s.runs
    ensures p in candidates && forall q :: q in candidates ==> NoLater(s.runs[q], s.runs[p])
    decreases |candidates|
  {
    var first :| first in candidates;
    var rest := candidates - {first};
    assert candidates == rest + {first};
    p := first;
    if rest != {} {
      var best := LatestAmong(s, rest);
      NoLaterOrders(s.runs[first], s.runs[best]);
      if NoLater(s.runs[first], s.runs[best]) { p := best; }
      forall q | q in candidates ensures NoLater(s.runs[q], s.runs[p]) {
        if q != first {
          assert q in rest;
          NoLaterChains(s.runs[q], s.runs[best], s.runs[p]);
        }
      }
    } else {
      assert candidates == {first};
    }
  }

  lemma NoLaterOrders(a: Run, b: Run)
    ensures NoLater(a, a) && NoLater(b, b) && (NoLater(a, b) || NoLater(b, a))
  {}

  lemma NoLaterChains(a: Run, b: Run, c: Run)
    requires NoLater(a, b) && NoLater(b, c)
    ensures NoLater(a, c)
  {}

  lemma InterruptQueryAnswers(s: Store, t: string) returns (pick: Option<string>)
    ensures LatestInterrupt(s, t, pick)
  {
    var candidates := set p | p in s.runs && Unresolved(s, t, p);
    if candidates == {} {
      assert forall p :: Unresolved(s, t, p) ==> p in candidates;
      pick := None;
    } else {
      var p := LatestAmong(s, candidates);
      pick := Some(p);
    }
  }

  class Runtime {
    const cfg: Config
    var threads: map<string, Thread>
    var runs: map<string, Run>
    var messages: map<string, Message>
    var events: map<string, seq<Fact>>
    var deferred: map<QueueKey, string>
    var outbox: set<QueueKey>

    function Tables(): Store
      reads this
    {
      Store(cfg, threads, runs, messages, events, deferred, outbox)
    }

    ghost predicate Valid()
      reads this
    {
      Inv(Tables())
    }

    constructor (cfg: Config)
      ensures Valid() && Tables() == Init(cfg)
    {
      this.cfg := cfg;
      threads, runs, messages, events, deferred, outbox := map[], map[], map[], map[], map[], {};
      new;
      InitInv(cfg);
    }

    /** Rolls the tables back to a saved state. */
    method Rollback(saved: Store)
      requires saved.cfg == cfg
      modifies this
      ensures Tables() == saved
    {
      threads, runs, messages := saved.threads, saved.runs, saved.messages;
      events, deferred, outbox := saved.events, saved.deferred, saved.outbox;
    }

    /******* Projections *******/

    method StartMessage(r: string, b: Body) returns (error: Option<Error>)
      requires r in runs && b.eventType == MESSAGE_START
      modifies this`messages
      ensures match HandleMessage(old(Tables()), r, b)
              case Ok(after) => error == None && messages == after
              case Err(e) => error == Some(e) && messages == old(messages)
    {
      var id, role := MessageId(b), StringValue(b.payload, "role");
      if id == "" || role !in {"assistant", "system", "tool"} { return Some(InvalidConversation); }
      if id !in messages {
        messages := messages[id := Message(runs[r].threadId, r, runs[r].processId, role, "", Streaming, b.occurredAt,
                                           None)];
        return None;
      }
      return if Replayed(Tables(), r, id) then None else Some(InvalidTransition);
    }

    method AppendContent(r: string, b: Body) returns (error: Option<Error>)
      requires r in runs && b.eventType == MESSAGE_CONTENT
      modifies this`messages
      ensures match HandleMessage(old(Tables()), r, b)
              case Ok(after) => error == None && messages == after
              case Err(e) => error == Some(e) && messages == old(messages)
    {
      var id, delta := MessageId(b), StringValue(b.payload, "delta");
      if id == "" || delta == "" { return Some(InvalidConversation); }
      if id in messages && messages[id].runId == r && messages[id].status == Streaming {
        messages := messages[id := messages[id].(content := messages[id].content + delta)];
        return None;
      }
      return if Replayed(Tables(), r, id) then None else Some(InvalidTransition);
    }

    method EndMessage(r: string, b: Body) returns (error: Option<Error>)
      requires r in runs && b.eventType == MESSAGE_END
      modifies this`messages
      ensures match HandleMessage(old(Tables()), r, b)
              case Ok(after) => error == None && messages == after
              case Err(e) => error == Some(e) && messages == old(messages)
    {
      var id := MessageId(b);
      if id == "" { return Some(InvalidConversation); }
      if id in messages && messages[id].runId == r && messages[id].status == Streaming {
        messages := messages[id := Close(messages[id], b)];
        return None;
      }
      if !Replayed(Tables(), r, id) { return Some(InvalidTransition); }
      if messages[id].status == Streaming { messages := messages[id := Close(messages[id], b)]; }
      return None;
    }

    /** Applies an event to its run and the messages, or reports why it cannot be applied. */
    method ApplyProjection(r: string, b: Body) returns (error: Option<Error>)
      requires r in runs
      modifies this`runs, this`messages
      ensures match Project(old(Tables()), r, b)
              case Ok(effect) =>
                error == None && messages == effect.messages
                && runs == old(runs)[r := old(runs)[r].(life := effect.life)]
              case Err(e) => error == Some(e) && messages == old(messages) && runs == old(runs)
    {
      error := None;
      var life := runs[r].life;
      if b.eventType == RUN_STARTED {
        if life.status != Pending { return Some(InvalidTransition); }
        if Held(runs, runs[r].threadId) { return Some(RunAlreadyActive); }
        runs := runs[r := runs[r].(life := Started(life, b.occurredAt))];
      } else if b.eventType == RUN_ERROR {
        if Terminal(life.status) { return Some(InvalidTransition); }
        runs := runs[r := runs[r].(life := Errored(life, b))];
      } else if b.eventType == RUN_FINISHED {
        if life.status != Running { return Some(InvalidTransition); }
        match FinishRun(Tables(), r, b) {
          case Err(e) => return Some(e);
          case Ok(effect) => runs := runs[r := runs[r].(life := effect.life)];
        }
      } else if MovesMessage(b.eventType) {
        if life.status != Running { return Some(InvalidTransition); }
        if b.eventType == MESSAGE_START {
          error := StartMessage(r, b);
        } else if b.eventType == MESSAGE_CONTENT {
          error := AppendContent(r, b);
        } else {
          error := EndMessage(r, b);
        }
        assert error == None ==> runs == runs[r := runs[r].(life := life)];
      } else {
        assert runs == runs[r := runs[r].(life := life)];
      }
    }

    /******* Ingestion *******/

    /** Allocates the next sequence, then inserts the fact and its outbox row. An index in the
        way is an error after the allocation; the transaction undoes it. */
    method Append(t: string, r: string, processId: string, source: string, sourceSequence: int, b: Body)
      returns (result: Result<Fact>)
      modifies this`threads, this`events, this`outbox
      ensures match AppendFact(old(Tables()), t, r, processId, source, sourceSequence, b)
              case Ok((after, f)) => result == Ok(f) && Tables() == after
              case Err(e) => result == Err(e)
    {
      if t !in threads { return Err(ThreadNotFound); }
      var n := threads[t].nextSequence + 1;
      var f := Fact(t, r, processId, n, source, sourceSequence, b);
      var conflict := InsertConflicts(Tables(), f);
      threads := threads[t := threads[t].(nextSequence := n)];
      if conflict { return Err(ConstraintViolation); }
      events := events[t := (if t in events then events[t] else []) + [f]];
      if cfg.eventOutbox { outbox := outbox + {(t, n)}; }
      return Ok(f);
    }

    /** Admission, projection inside a savepoint, the fact, the queue and the cursor, in order. */
    method Persist(e: Event) returns (result: Result<Fact>)
      modifies this
      ensures match PersistEvent(old(Tables()), e)
              case Ok((after, f)) => result == Ok(f) && Tables() == after
              case Err(error) => result == Err(error)
    {
      match Admit(Tables(), e) {
        case Err(error) => return Err(error);
        case Ok(Some(f)) => return Ok(f);
        case Ok(None) =>
      }
      var run := runs[e.runId];
      var failure := ApplyProjection(e.runId, e.body);
      if failure.Some? && !Parks(e, failure.value) { return Err(failure.value); }
      assert failure.Some? ==> runs == runs[e.runId := run.(life := run.life)];
      result := Append(e.threadId, e.runId, run.processId, e.sourceEventId, e.sourceSequence, e.body);
      if result.Err? { return; }
      if failure.Some? { deferred := deferred[(e.threadId, result.value.sequence) := e.runId]; }
      runs := runs[e.runId := runs[e.runId].(cursor := e.sourceSequence, lastActivityAt := e.body.occurredAt)];
    }

    /** One delivery, as one transaction. */
    method Ingest(raw: Event) returns (result: Result<Fact>)
      requires Valid()
      modifies this
      ensures Valid() && Tables() == Step(old(Tables()), Action.Ingest(raw))
      ensures match IngestEvent(old(Tables()), raw)
              case Ok((_, f)) => result == Ok(f)
              case Err(error) => result == Err(error)
    {
      var saved := Tables();
      StepKeepsInv(saved, Action.Ingest(raw));
      var e := Prepare(raw);
      if !WellFormed(e) { return Err(InvalidConversation); }
      result := Persist(e);
      if result.Err? { Rollback(saved); }
    }

    /******* Admission *******/

    method AppendUserMessage(spec: StartSpec) returns (error: Option<Error>)
      modifies this`threads, this`events, this`outbox
      ensures match AppendUserFacts(old(Tables()), spec, UserBodies(spec))
              case Ok(after) => error == None && Tables() == after
              case Err(e) => error == Some(e)
    {
      var bodies := UserBodies(spec);
      var i := 0;
      while i < |bodies|
        invariant 0 <= i <= |bodies|
        invariant AppendUserFacts(old(Tables()), spec, bodies) == AppendUserFacts(Tables(), spec, bodies[i..])
      {
        var appended := Append(spec.threadId, spec.runId, spec.processId, "", 0, bodies[i]);
        if appended.Err? { return Some(appended.error); }
        assert bodies[i..][1..] == bodies[i + 1..];
        i := i + 1;
      }
      return None;
    }

    /** Admits a run, or answers with the run the key admitted before. */
    method Start(raw: StartSpec, freshRun: Uuid, freshMessage: Uuid, pick: Option<string>, now: int)
      returns (result: Result<string>)
      requires Valid() && LatestInterrupt(Tables(), TrimSpace(raw.threadId), pick)
      modifies this
      ensures Valid() && Tables() == Step(old(Tables()), Action.Start(raw, freshRun, freshMessage, pick, now))
      ensures match StartRun(old(Tables()), raw, freshRun, freshMessage, pick, now)
              case Ok((_, r)) => result == Ok(r)
              case Err(error) => result == Err(error)
    {
      var saved := Tables();
      StepKeepsInv(saved, Action.Start(raw, freshRun, freshMessage, pick, now));
      var spec := PrepareStart(raw, freshRun, freshMessage);
      if !WellFormedStart(spec) { return Err(InvalidConversation); }
      result := AdmitRun(spec, pick, now);
      if result.Err? { Rollback(saved); }
    }

    /** The lookup by thread and idempotency key. */
    method FindRun(t: string, key: string) returns (found: Option<string>)
      ensures found.Some? ==> Admitted(Tables(), t, key, found.value)
      ensures found.None? ==> forall r :: !Admitted(Tables(), t, key, r)
    {
      if exists r :: r in runs && Admitted(Tables(), t, key, r) {
        var r :| r in runs && Admitted(Tables(), t, key, r);
        return Some(r);
      }
      return None;
    }

    method AdmitRun(spec: StartSpec, pick: Option<string>, now: int) returns (result: Result<string>)
      requires Valid() && LatestInterrupt(Tables(), spec.threadId, pick)
      modifies this
      ensures match PersistStart(old(Tables()), spec, pick, now)
              case Ok((after, r)) => result == Ok(r) && Tables() == after
              case Err(error) => result == Err(error)
    {
      if spec.threadId !in threads {
        threads := threads[spec.threadId := Thread(spec.accountId, spec.projectId, 0)];
      } else if threads[spec.threadId].accountId != spec.accountId
                || threads[spec.threadId].projectId != spec.projectId {
        return Err(TenantMismatch);
      }
      var known := FindRun(spec.threadId, spec.idempotencyKey);
      if known.Some? {
        OnlyAdmission(old(Tables()), Tables(), spec, known.value);
        return Ok(known.value);
      }
      var refusal := ValidateResume(Tables(), spec, pick);
      if refusal.Some? { return Err(refusal.value); }
      if spec.runId in runs || spec.messageId in messages { return Err(ConstraintViolation); }
      runs := runs[spec.runId := NewRun(spec, now)];
      messages := messages[spec.messageId := UserMessage(spec)];
      var failure := AppendUserMessage(spec);
      return if failure.Some? then Err(failure.value) else Ok(spec.runId);
    }

    /******* Sweeping *******/

    /** Ends the selected dead runs in one transaction and counts them. */
    method AbandonExpiredRuns(batch: seq<string>, now: int) returns (result: Result<nat>)
      requires Valid() && ExpiredBatch(Tables(), batch, now)
      modifies this
      ensures Valid() && Tables() == Step(old(Tables()), Action.Abandon(batch, now))
      ensures result == Ok(|batch|)
    {
      var saved := Tables();
      assert AbandonAll(saved, batch, now).Ok? && Inv(AbandonAll(saved, batch, now).value) by {
        AbandonPass(saved, batch, now);
      }
      result := AbandonBatch(batch, now);
    }

    method AbandonBatch(batch: seq<string>, now: int) returns (result: Result<nat>)
      modifies this
      ensures match AbandonAll(old(Tables()), batch, now)
              case Ok(after) => result == Ok(|batch|) && Tables() == after
              case Err(error) => result == Err(error)
    {
      var abandoned := 0;
      while abandoned < |batch|
        invariant 0 <= abandoned <= |batch|
        invariant AbandonAll(old(Tables()), batch, now) == AbandonAll(Tables(), batch[abandoned..], now)
      {
        assert batch[abandoned..][1..] == batch[abandoned + 1..];
        var failure := AbandonRunRow(batch[abandoned], now);
        if failure.Some? { return Err(failure.value); }
        abandoned := abandoned + 1;
      }
      return Ok(abandoned);
    }

    /** One expired run: its status is read again, and the terminal fact goes through ingestion. */
    method AbandonRunRow(r: string, now: int) returns (failure: Option<Error>)
      modifies this
      ensures match AbandonRun(old(Tables()), r, now)
              case Ok(after) => failure == None && Tables() == after
              case Err(error) => failure == Some(error)
    {
      if r !in runs { return Some(RunNotFound); }
      if runs[r].life.status != Running { return None; }
      var written := Persist(Abandonment(Tables(), r, now));
      return if written.Ok? then None else Some(written.error);
    }

    /** One parked turn. The entry goes when the projection is in place. */
    method ApplyDeferredProjection(k: QueueKey) returns (error: Option<Error>)
      requires Gapless(Tables()) && Queued(Tables()) && k in deferred
      modifies this`runs, this`messages, this`deferred
      ensures match PromoteOne(old(Tables()), k)
              case Ok(after) => error == None && Tables() == after
              case Err(e) => error == Some(e)
    {
      QueueEntry(Tables(), k);
      var r, f := deferred[k], FactAt(events[k.0], k.1);
      error := ApplyProjection(r, f.value.body);
      if error.Some? { return Some(if error.value == RunAlreadyActive then TransactionAborted else error.value); }
      deferred := deferred - {k};
    }

    /** Starts the selected parked turns in one transaction; any failure undoes the whole pass. */
    method ApplyDeferredProjections(batch: seq<QueueKey>) returns (result: Result<nat>)
      requires Valid() && DeferredBatch(Tables(), batch)
      modifies this
      ensures Valid() && Tables() == Step(old(Tables()), Action.Promote(batch))
      ensures result.Ok? <==> PromoteAll(old(Tables()), batch).Ok?
      ensures result.Ok? ==> result.value == |batch|
    {
      SelectedAreQueued(Tables(), batch);
      PassIsStep(Tables(), batch);
      result := PromoteOrRollback(batch);
    }

    method PromoteOrRollback(batch: seq<QueueKey>) returns (result: Result<nat>)
      requires Gapless(Tables()) && Queued(Tables()) && AllQueued(Tables(), batch)
      modifies this
      ensures match PromoteAll(old(Tables()), batch)
              case Ok(after) => result == Ok(|batch|) && Tables() == after
              case Err(e) => result == Err(e) && Tables() == old(Tables())
    {
      var saved := Tables();
      result := PromoteBatch(batch);
      if result.Err? { Rollback(saved); }
    }

    method PromoteBatch(batch: seq<QueueKey>) returns (result: Result<nat>)
      requires Gapless(Tables()) && Queued(Tables()) && AllQueued(Tables(), batch)
      modifies this
      ensures match PromoteAll(old(Tables()), batch)
              case Ok(after) => result == Ok(|batch|) && Tables() == after
              case Err(e) => result == Err(e)
    {
      var applied := 0;
      while applied < |batch|
        invariant 0 <= applied <= |batch|
        invariant PromoteAll(old(Tables()), batch) == PromoteAll(Tables(), batch[applied..])
        invariant Gapless(Tables()) && Queued(Tables())
        invariant forall i :: applied <= i < |batch| ==> batch[i] in deferred
      {
        ghost var before := Tables();
        assert batch[applied..][1..] == batch[applied + 1..];
        PromoteOneCases(before, batch[applied]);
        var failure := ApplyDeferredProjection(batch[applied]);
        if failure.Some? { return Err(failure.value); }
        PromotedKeepsGapless(before, batch[applied]);
        PromotedKeepsQueue(before, batch[applied]);
        applied := applied + 1;
      }
      return Ok(applied);
    }
  }

  lemma PassIsStep(s: Store, batch: seq<QueueKey>)
    requires Inv(s) && DeferredBatch(s, batch)
    ensures Step(s, Action.Promote(batch)) == (if PromoteAll(s, batch).Ok? then PromoteAll(s, batch).value else s)
    ensures Inv(Step(s, Action.Promote(batch)))
  {
    SweepKeepsInv(s, batch);
  }

  /** Keys are unique, so the row the lookup finds is the row the step names. */
  lemma OnlyAdmission(s: Store, s1: Store, spec: StartSpec, r: string)
    requires OneAdmission(s) && EnsureThread(s, spec) == Ok(s1) && Admitted(s1, spec.threadId, spec.idempotencyKey, r)
    ensures RunByKey(s1, spec.threadId, spec.idempotencyKey) == Some(r)
  {
    var q := RunByKey(s1, spec.threadId, spec.idempotencyKey);
    assert q.Some? && Admitted(s1, spec.threadId, spec.idempotencyKey, q.value);
    assert Siblings(s, q.value, r);
  }
}
