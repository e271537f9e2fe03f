/** Ingesting one fact keeps every promise. */
module ConversationIngestion {
  import opened ConversationModel
  import opened ConversationReplay
  import opened ConversationInvariants

  /******* One stored fact *******/

  /** The event addresses a run of its own thread. */
  ghost predicate Lands(s: Store, e: Event) {
    e.runId in s.runs && e.threadId in s.threads && s.runs[e.runId].threadId == e.threadId
  }

  function NewFact(s: Store, e: Event): Fact
    requires e.runId in s.runs
  {
    Fact(e.threadId, e.runId, s.runs[e.runId].processId, |Log(s, e.threadId)| + 1, e.sourceEventId, e.sourceSequence,
         e.body)
  }

  function NewRow(s: Store, e: Event, life: Lifecycle): Run
    requires e.runId in s.runs
  {
    s.runs[e.runId].(life := life, cursor := e.sourceSequence, lastActivityAt := e.body.occurredAt)
  }

  /** The tables after the fact. */
  ghost function Next(s: Store, e: Event, effect: Effect, parked: bool): Store
    requires Lands(s, e)
  {
    var t, n := e.threadId, |Log(s, e.threadId)| + 1;
    Store(s.cfg, s.threads[t := s.threads[t].(nextSequence := n)], s.runs[e.runId := NewRow(s, e, effect.life)],
          effect.messages,
          s.events[t := Log(s, t) + [NewFact(s, e)]],
          if parked then s.deferred[(t, n) := e.runId] else s.deferred,
          if s.cfg.eventOutbox then s.outbox + {(t, n)} else s.outbox)
  }

  lemma NextLog(s: Store, e: Event, effect: Effect, parked: bool, t: string)
    requires Lands(s, e)
    ensures t != e.threadId ==> Log(Next(s, e, effect, parked), t) == Log(s, t)
    ensures t == e.threadId ==> Log(Next(s, e, effect, parked), t) == Log(s, t) + [NewFact(s, e)]
  {}

  /** Under the promises no unique index is in the way: an admitted fact is stored. */
  lemma RecordIsNext(s: Store, e: Event, effect: Effect, parked: bool)
    requires Lands(s, e) && GaplessThread(s, e.threadId) && Published(s)
    requires FindSource(Log(s, e.threadId), e.sourceEventId).None?
    ensures Record(s, e, effect, parked) == Ok((Next(s, e, effect, parked), NewFact(s, e)))
  {
    var t := e.threadId;
    LogFactAt(s, t, |Log(s, t)| + 1);
    var run := s.runs[e.runId];
    var projected := s.(runs := s.runs[e.runId := run.(life := effect.life)], messages := effect.messages);
    assert !InsertConflicts(projected, NewFact(s, e));
    var appended := AppendFact(projected, t, e.runId, run.processId, e.sourceEventId, e.sourceSequence, e.body);
    assert appended.Ok? && appended.value.1 == NewFact(s, e);
    assert appended.value.0.runs[e.runId := NewRow(s, e, effect.life)] == s.runs[e.runId := NewRow(s, e, effect.life)];
  }

  lemma NextKeepsGapless(s: Store, e: Event, effect: Effect, parked: bool)
    requires Lands(s, e) && Gapless(s)
    ensures Gapless(Next(s, e, effect, parked))
  {
    var s' := Next(s, e, effect, parked);
    forall t ensures GaplessThread(s', t) {
      assert GaplessThread(s, t);
      NextLog(s, e, effect, parked, t);
    }
  }

  lemma NextKeepsPublished(s: Store, e: Event, effect: Effect, parked: bool)
    requires Lands(s, e) && Published(s)
    ensures Published(Next(s, e, effect, parked))
  {
    var s' := Next(s, e, effect, parked);
    forall t: string, n: int ensures (t, n) in s'.outbox <==> s'.cfg.eventOutbox && 1 <= n <= |Log(s', t)| {
      NextLog(s, e, effect, parked, t);
    }
  }

  /** The keys and resumes of a thread, which no fact can duplicate. */
  lemma NextKeepsAdmissions(s: Store, e: Event, effect: Effect, parked: bool)
    requires Lands(s, e) && OneAdmission(s) && OneResume(s)
    ensures var s' := Next(s, e, effect, parked); OneAdmission(s') && OneResume(s')
  {
    var s' := Next(s, e, effect, parked);
    forall q, r | Siblings(s', q, r)
      ensures s'.runs[q].idempotencyKey == s'.runs[r].idempotencyKey ==> q == r
      ensures s'.runs[q].resumes != "" && s'.runs[q].resumes == s'.runs[r].resumes ==> q == r
    {
      assert Siblings(s, q, r);
    }
  }

  /** A run takes the thread only when nobody holds it. */
  lemma NextKeepsOneRunner(s: Store, e: Event, effect: Effect, parked: bool)
    requires Lands(s, e) && OneRunner(s)
    requires effect.life.status == Running ==> s.runs[e.runId].life.status == Running || !Held(s.runs, e.threadId)
    ensures OneRunner(Next(s, e, effect, parked))
  {
    var s' := Next(s, e, effect, parked);
    forall q, r | Siblings(s', q, r)
      ensures s'.runs[q].life.status == Running && s'.runs[r].life.status == Running ==> q == r
    {
      assert Siblings(s, q, r);
    }
  }

  lemma NextKeepsQueued(s: Store, e: Event, effect: Effect, parked: bool)
    requires Lands(s, e) && Queued(s) && (parked ==> e.body.eventType == RUN_STARTED)
    ensures Queued(Next(s, e, effect, parked))
  {
    var s' := Next(s, e, effect, parked);
    forall k | k in s'.deferred
      ensures && 1 <= k.1 <= |Log(s', k.0)|
              && Log(s', k.0)[k.1 - 1].body.eventType == RUN_STARTED
              && Log(s', k.0)[k.1 - 1].runId == s'.deferred[k]
    {
      NextLog(s, e, effect, parked, k.0);
    }
  }

  lemma NextKeepsOnceOnly(s: Store, e: Event, effect: Effect, parked: bool)
    requires Lands(s, e) && OnceOnly(s) && FindSource(Log(s, e.threadId), e.sourceEventId).None?
    ensures OnceOnly(Next(s, e, effect, parked))
  {
    var s' := Next(s, e, effect, parked);
    SourceLookup(Log(s, e.threadId), e.sourceEventId);
    forall t ensures DistinctSources(Log(s', t)) {
      assert DistinctSources(Log(s, t));
      NextLog(s, e, effect, parked, t);
    }
  }

  lemma NextKeepsCursors(s: Store, e: Event, effect: Effect, parked: bool)
    requires Lands(s, e) && Cursors(s) && e.sourceEventId != "" && e.sourceSequence > s.runs[e.runId].cursor
    ensures Cursors(Next(s, e, effect, parked))
  {
    var s', f := Next(s, e, effect, parked), NewFact(s, e);
    forall t ensures SourceOrdered(Log(s', t)) {
      NextLog(s, e, effect, parked, t);
      LastOfAppended(Log(s, t), f, e.runId);
    }
    forall r | r in s'.runs ensures s'.runs[r].cursor == LastSource(Log(s', s'.runs[r].threadId), r) {
      NextLog(s, e, effect, parked, s.runs[r].threadId);
      LastOfAppended(Log(s, s.runs[r].threadId), f, r);
    }
  }

  /******* Messages *******/

  /** What one event of a run may do to the message table: open one message of its own, or
      grow or close one open message of its thread. */
  ghost predicate Touches(before: map<string, Message>, after: map<string, Message>, t: string, r: string, b: Body) {
    && (forall m :: m in before ==> m in after)
    && (forall m :: m in after && m !in before ==>
          m == MessageId(b) && b.eventType == MESSAGE_START
          && after[m].threadId == t && after[m].runId == r && after[m].status == Streaming && after[m].content == "")
    && (forall m :: m in before && after[m] != before[m] ==>
          && m == MessageId(b) && before[m].status == Streaming
          && before[m].threadId == t && after[m].threadId == t
          && after[m].runId == before[m].runId && after[m].role == before[m].role
          && (after[m].status == Streaming ==>
                b.eventType == MESSAGE_CONTENT && before[m].runId == r
                && after[m].content == before[m].content + StringValue(b.payload, "delta")))
  }

  lemma HandledTouches(s: Store, r: string, b: Body)
    requires r in s.runs && MovesMessage(b.eventType) && HandleMessage(s, r, b).Ok?
    requires forall m :: m in s.messages && s.messages[m].runId == r ==> s.messages[m].threadId == s.runs[r].threadId
    ensures Touches(s.messages, HandleMessage(s, r, b).value, s.runs[r].threadId, r, b)
  {}

  /** A delta accepted without a change is one another run owns. */
  lemma HandledDelta(s: Store, r: string, b: Body)
    requires r in s.runs && b.eventType == MESSAGE_CONTENT && HandleMessage(s, r, b).Ok?
    ensures MessageId(b) in s.messages
    ensures s.messages[MessageId(b)].runId == r ==>
              HandleMessage(s, r, b).value[MessageId(b)].content
              == s.messages[MessageId(b)].content + StringValue(b.payload, "delta")
  {}

  lemma NextKeepsOwned(s: Store, e: Event, effect: Effect, parked: bool)
    requires Lands(s, e) && Owned(s) && Touches(s.messages, effect.messages, e.threadId, e.runId, e.body)
    ensures Owned(Next(s, e, effect, parked))
  {}

  lemma SpokeStays(s: Store, after: map<string, Message>, t: string, r: string, b: Body, q: string)
    requires Touches(s.messages, after, t, r, b) && Spoke(s.messages, q)
    ensures Spoke(after, q)
  {
    var m :| m in s.messages && s.messages[m].runId == q
               && s.messages[m].role == "assistant" && s.messages[m].status == Closed;
    assert after[m] == s.messages[m];
  }

  lemma NextKeepsInterruptions(s: Store, e: Event, effect: Effect, parked: bool)
    requires Lands(s, e) && Interruptions(s) && Touches(s.messages, effect.messages, e.threadId, e.runId, e.body)
    requires effect.life.status == Interrupted && effect.life != s.runs[e.runId].life ==>
               effect.life.interrupt.Some? && effect.life.interrupt.value.id != "" && Spoke(s.messages, e.runId)
    ensures Interruptions(Next(s, e, effect, parked))
  {
    var s' := Next(s, e, effect, parked);
    forall r | r in s'.runs && s'.runs[r].life.status == Interrupted
      ensures s'.runs[r].life.interrupt.Some? && s'.runs[r].life.interrupt.value.id != "" && Spoke(s'.messages, r)
    {
      SpokeStays(s, effect.messages, e.threadId, e.runId, e.body, r);
    }
  }

  lemma NextKeepsStreams(s: Store, e: Event, effect: Effect, parked: bool)
    requires Lands(s, e) && Streams(s) && Touches(s.messages, effect.messages, e.threadId, e.runId, e.body)
    requires e.body.eventType == MESSAGE_CONTENT ==>
               && MessageId(e.body) in s.messages
               && (s.messages[MessageId(e.body)].runId == e.runId ==>
                     effect.messages[MessageId(e.body)].content
                     == s.messages[MessageId(e.body)].content + StringValue(e.body.payload, "delta"))
    ensures Streams(Next(s, e, effect, parked))
  {
    var s', f := Next(s, e, effect, parked), NewFact(s, e);
    forall t, g, m | g in Log(s', t) && m !in s'.messages ensures !IsDelta(g, m) {
      NextLog(s, e, effect, parked, t);
      assert m !in s.messages;
    }
    forall m | m in s'.messages && s'.messages[m].status == Streaming
      ensures s'.messages[m].content == Deltas(Log(s', s'.messages[m].threadId), m, s'.messages[m].runId)
    {
      var row := s'.messages[m];
      NextLog(s, e, effect, parked, row.threadId);
      DeltasOfAppended(Log(s, row.threadId), f, m, row.runId);
      if m !in s.messages { NoDeltas(Log(s, row.threadId), m, row.runId); }
    }
  }

  /******* Replay *******/

  /** An accepted message event does to the thread's messages what the fold makes of it. */
  lemma HandledIsFolded(s: Store, r: string, f: Fact)
    requires r in s.runs && MovesMessage(f.body.eventType) && HandleMessage(s, r, f.body).Ok?
    requires f.threadId == s.runs[r].threadId && f.runId == r && f.processId == s.runs[r].processId
    requires forall m :: m in s.messages && s.messages[m].runId == r ==> s.messages[m].threadId == s.runs[r].threadId
    ensures MessagesAfter(MessagesOf(s.messages, f.threadId), f)
            == MessagesOf(HandleMessage(s, r, f.body).value, f.threadId)
  {}

  lemma NextReplaysOther(s: Store, e: Event, effect: Effect, parked: bool, t: string)
    requires Lands(s, e) && t != e.threadId && ReplaysThread(s, t)
    requires Touches(s.messages, effect.messages, e.threadId, e.runId, e.body)
    ensures ReplaysThread(Next(s, e, effect, parked), t)
  {
    var s' := Next(s, e, effect, parked);
    NextLog(s, e, effect, parked, t);
    assert Parked(s', t) == Parked(s, t);
    assert MessagesOf(s'.messages, t) == MessagesOf(s.messages, t);
  }

  lemma NextReplaysParked(s: Store, e: Event)
    requires Lands(s, e) && ReplaysThread(s, e.threadId) && GaplessThread(s, e.threadId)
    requires e.body.eventType == RUN_STARTED
    ensures ReplaysThread(Next(s, e, Effect(s.runs[e.runId].life, s.messages), true), e.threadId)
  {
    var t, n := e.threadId, |Log(s, e.threadId)| + 1;
    var s' := Next(s, e, Effect(s.runs[e.runId].life, s.messages), true);
    NextLog(s, e, Effect(s.runs[e.runId].life, s.messages), true, t);
    assert Parked(s', t) == Parked(s, t) + {n};
    FoldIgnoresUnused(Log(s, t), Parked(s, t), n);
    FoldAppend(Log(s, t), NewFact(s, e), Parked(s', t));
  }

  lemma NextReplaysApplied(s: Store, e: Event, effect: Effect)
    requires Lands(s, e) && ReplaysThread(s, e.threadId) && GaplessThread(s, e.threadId) && Queued(s)
    requires effect.life
             == if MovesRun(e.body.eventType) then LifeAfter(s.runs[e.runId].life, e.body) else s.runs[e.runId].life
    requires MessagesOf(effect.messages, e.threadId) ==
               if MovesMessage(e.body.eventType) then MessagesAfter(MessagesOf(s.messages, e.threadId), NewFact(s, e))
               else MessagesOf(s.messages, e.threadId)
    ensures ReplaysThread(Next(s, e, effect, false), e.threadId)
  {
    var t, f := e.threadId, NewFact(s, e);
    var s' := Next(s, e, effect, false);
    NextLog(s, e, effect, false, t);
    assert Parked(s', t) == Parked(s, t);
    assert f.sequence !in Parked(s, t);
    FoldAppend(Log(s, t), f, Parked(s, t));
  }

  /******* Putting it together *******/

  /** A new fact that passed admission, with the projection it is stored with. */
  ghost predicate Ready(s: Store, e: Event, effect: Effect, parked: bool) {
    && e.sourceEventId != "" && Admit(s, e) == Ok(None)
    && (if parked then
          && e.body.eventType == RUN_STARTED
          && Project(s, e.runId, e.body) == Err(RunAlreadyActive)
          && effect == Effect(s.runs[e.runId].life, s.messages)
        else Project(s, e.runId, e.body) == Ok(effect))
  }

  lemma ReadyLands(s: Store, e: Event)
    requires Owned(s) && Admit(s, e) == Ok(None)
    ensures Lands(s, e) && FindSource(Log(s, e.threadId), e.sourceEventId).None?
    ensures e.sourceSequence > s.runs[e.runId].cursor
  {}

  /** What a projection may do to its run. */
  lemma ProjectedLife(s: Store, r: string, b: Body)
    requires r in s.runs && Project(s, r, b).Ok?
    ensures var life := Project(s, r, b).value.life;
            && life == (if MovesRun(b.eventType) then LifeAfter(s.runs[r].life, b) else s.runs[r].life)
            && (life.status == Running ==> s.runs[r].life.status == Running || !Held(s.runs, s.runs[r].threadId))
            && (life.status == Interrupted && life != s.runs[r].life ==>
                  life.interrupt.Some? && life.interrupt.value.id != "" && Spoke(s.messages, r))
  {}

  lemma ProjectedMessages(s: Store, r: string, b: Body)
    requires r in s.runs && Project(s, r, b).Ok?
    ensures MovesMessage(b.eventType) ==> HandleMessage(s, r, b) == Ok(Project(s, r, b).value.messages)
    ensures !MovesMessage(b.eventType) ==> Project(s, r, b).value.messages == s.messages
  {}

  lemma ReadyTouches(s: Store, e: Event, effect: Effect, parked: bool)
    requires Owned(s) && Lands(s, e) && Ready(s, e, effect, parked)
    ensures Touches(s.messages, effect.messages, e.threadId, e.runId, e.body)
  {
    if !parked {
      ProjectedMessages(s, e.runId, e.body);
      if MovesMessage(e.body.eventType) { HandledTouches(s, e.runId, e.body); }
    }
  }

  lemma ReadyReplays(s: Store, e: Event, effect: Effect, parked: bool, t: string)
    requires Owned(s) && Gapless(s) && Queued(s) && Replays(s) && Lands(s, e) && Ready(s, e, effect, parked)
    ensures ReplaysThread(Next(s, e, effect, parked), t)
  {
    assert ReplaysThread(s, t) && GaplessThread(s, t);
    if t != e.threadId {
      ReadyTouches(s, e, effect, parked);
      NextReplaysOther(s, e, effect, parked, t);
    } else if parked {
      NextReplaysParked(s, e);
    } else {
      ProjectedLife(s, e.runId, e.body);
      ProjectedMessages(s, e.runId, e.body);
      if MovesMessage(e.body.eventType) { HandledIsFolded(s, e.runId, NewFact(s, e)); }
      NextReplaysApplied(s, e, effect);
    }
  }

  lemma ReadyStreams(s: Store, e: Event, effect: Effect, parked: bool)
    requires Owned(s) && Streams(s) && Lands(s, e) && Ready(s, e, effect, parked)
    ensures Streams(Next(s, e, effect, parked))
  {
    ReadyTouches(s, e, effect, parked);
    if !parked && e.body.eventType == MESSAGE_CONTENT {
      ProjectedMessages(s, e.runId, e.body);
      HandledDelta(s, e.runId, e.body);
    }
    NextKeepsStreams(s, e, effect, parked);
  }

  lemma ReadyLife(s: Store, e: Event, effect: Effect, parked: bool)
    requires Owned(s) && OneRunner(s) && Interruptions(s) && Lands(s, e) && Ready(s, e, effect, parked)
    ensures OneRunner(Next(s, e, effect, parked)) && Interruptions(Next(s, e, effect, parked))
  {
    ReadyTouches(s, e, effect, parked);
    if !parked { ProjectedLife(s, e.runId, e.body); }
    NextKeepsOneRunner(s, e, effect, parked);
    NextKeepsInterruptions(s, e, effect, parked);
  }

  /** Storing a fact, applied or parked, keeps every promise. */
  lemma NextKeepsInv(s: Store, e: Event, effect: Effect, parked: bool)
    requires Inv(s) && Lands(s, e) && Ready(s, e, effect, parked)
    ensures Inv(Next(s, e, effect, parked))
  {
    ReadyLands(s, e);
    ReadyTouches(s, e, effect, parked);
    NextKeepsOwned(s, e, effect, parked);
    NextKeepsGapless(s, e, effect, parked);
    NextKeepsPublished(s, e, effect, parked);
    NextKeepsAdmissions(s, e, effect, parked);
    NextKeepsQueued(s, e, effect, parked);
    NextKeepsOnceOnly(s, e, effect, parked);
    NextKeepsCursors(s, e, effect, parked);
    ReadyLife(s, e, effect, parked);
    ReadyStreams(s, e, effect, parked);
    forall t ensures ReplaysThread(Next(s, e, effect, parked), t) { ReadyReplays(s, e, effect, parked, t); }
  }

  /** The two ways a delivery can commit: it was stored before and changes nothing, or it is
      new and is stored. */
  lemma PersistCases(s: Store, e: Event) returns (effect: Effect, parked: bool)
    requires Inv(s) && e.sourceEventId != "" && PersistEvent(s, e).Ok?
    ensures e.runId in s.runs
    ensures if Admit(s, e) == Ok(None) then
              Lands(s, e) && Ready(s, e, effect, parked)
              && PersistEvent(s, e).value == (Next(s, e, effect, parked), NewFact(s, e))
            else
              PersistEvent(s, e).value.0 == s && Admit(s, e) == Ok(Some(PersistEvent(s, e).value.1))
  {
    effect, parked := Effect(s.runs[e.runId].life, s.messages), false;
    if Admit(s, e) == Ok(None) {
      ReadyLands(s, e);
      assert GaplessThread(s, e.threadId);
      match Project(s, e.runId, e.body) {
        case Ok(projected) => effect := projected;
        case Err(_) => parked := true;
      }
      RecordIsNext(s, e, effect, parked);
    }
  }

  lemma PersistKeepsInv(s: Store, e: Event)
    requires Inv(s) && e.sourceEventId != "" && PersistEvent(s, e).Ok?
    ensures Inv(PersistEvent(s, e).value.0)
  {
    var effect, parked := PersistCases(s, e);
    if Admit(s, e) == Ok(None) { NextKeepsInv(s, e, effect, parked); }
  }
}
