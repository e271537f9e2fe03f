/** Admitting a run keeps every promise. */
module ConversationAdmission {
  import opened Text
  import opened ConversationModel
  import opened ConversationReplay
  import opened ConversationInvariants

  function UserFacts(spec: StartSpec, base: int, bodies: seq<Body>): seq<Fact> {
    seq(|bodies|,
        i requires 0 <= i < |bodies| => Fact(spec.threadId, spec.runId, spec.processId, base + 1 + i, "", 0, bodies[i]))
  }

  /** Only the thread's log, its counter and the outbox change. */
  ghost predicate Extends(s: Store, s': Store, t: string, facts: seq<Fact>) {
    && t in s.threads
    && s' == s.(threads := s.threads[t := s.threads[t].(nextSequence := |Log(s, t)| + |facts|)],
                events := s'.events, outbox := s'.outbox)
    && Log(s', t) == Log(s, t) + facts
    && (forall t' :: t' != t ==> Log(s', t') == Log(s, t'))
  }

  lemma ExtendsTransitive(s: Store, s1: Store, s2: Store, t: string, a: seq<Fact>, b: seq<Fact>)
    requires Extends(s, s1, t, a) && Extends(s1, s2, t, b)
    ensures Extends(s, s2, t, a + b)
  {
    assert Log(s, t) + a + b == Log(s, t) + (a + b);
    assert s2.threads == s.threads[t := s.threads[t].(nextSequence := |Log(s, t)| + |a + b|)];
  }

  lemma PlatformFactIsAppended(s: Store, t: string, r: string, processId: string, b: Body)
    requires t in s.threads && s.threads[t].nextSequence == |Log(s, t)| && Numbered(Log(s, t)) && Published(s)
    ensures var f := Fact(t, r, processId, |Log(s, t)| + 1, "", 0, b);
            var appended := AppendFact(s, t, r, processId, "", 0, b);
            appended.Ok? && Extends(s, appended.value.0, t, [f]) && Published(appended.value.0)
  {
    FactLookup(Log(s, t), 1, |Log(s, t)| + 1);
    var s' := AppendFact(s, t, r, processId, "", 0, b).value.0;
    forall t' ensures t' != t ==> Log(s', t') == Log(s, t') {}
  }

  lemma {:induction false} UserFactsAreAppended(s: Store, spec: StartSpec, bodies: seq<Body>)
    requires spec.threadId in s.threads && s.threads[spec.threadId].nextSequence == |Log(s, spec.threadId)|
    requires Numbered(Log(s, spec.threadId)) && Published(s)
    ensures AppendUserFacts(s, spec, bodies).Ok?
    ensures var s' := AppendUserFacts(s, spec, bodies).value;
            Extends(s, s', spec.threadId, UserFacts(spec, |Log(s, spec.threadId)|, bodies)) && Published(s')
    decreases |bodies|
  {
    var t, n := spec.threadId, |Log(s, spec.threadId)|;
    if bodies == [] {
      assert s.threads[t := s.threads[t].(nextSequence := n)] == s.threads;
      assert UserFacts(spec, n, bodies) == [];
    } else {
      PlatformFactIsAppended(s, t, spec.runId, spec.processId, bodies[0]);
      var s1 := AppendFact(s, t, spec.runId, spec.processId, "", 0, bodies[0]).value.0;
      UserFactsAreAppended(s1, spec, bodies[1..]);
      var first := [Fact(t, spec.runId, spec.processId, n + 1, "", 0, bodies[0])];
      assert first + UserFacts(spec, n + 1, bodies[1..]) == UserFacts(spec, n, bodies);
      ExtendsTransitive(s, s1, AppendUserFacts(s1, spec, bodies[1..]).value, t, first,
                        UserFacts(spec, n + 1, bodies[1..]));
    }
  }

  /******* The thread row *******/

  /** A new thread has no history, so its row alone disturbs no promise. */
  lemma ThreadRowKeepsInv(s: Store, t: string, row: Thread)
    requires Inv(s) && t !in s.threads && row.nextSequence == 0
    ensures Inv(s.(threads := s.threads[t := row]))
  {
    var s' := s.(threads := s.threads[t := row]);
    ThreadRowKeepsThreads(s, t, row);
    assert OneRunner(s') && OneAdmission(s') && OneResume(s') by {
      assert forall q, r :: Siblings(s', q, r) ==> Siblings(s, q, r);
    }
    assert Owned(s') && Published(s') && Queued(s') && OnceOnly(s') && Cursors(s')
           && Interruptions(s') && Streams(s') by {
      assert forall t' :: Log(s', t') == Log(s, t');
    }
  }

  lemma ThreadRowKeepsThreads(s: Store, t: string, row: Thread)
    requires Gapless(s) && Replays(s) && t !in s.threads && row.nextSequence == 0
    ensures Gapless(s.(threads := s.threads[t := row])) && Replays(s.(threads := s.threads[t := row]))
  {
    var s' := s.(threads := s.threads[t := row]);
    forall t' ensures GaplessThread(s', t') {
      assert GaplessThread(s, t');
    }
    forall t' ensures ReplaysThread(s', t') {
      assert ReplaysThread(s, t');
      assert Parked(s', t') == Parked(s, t');
    }
  }

  lemma EnsureThreadKeepsInv(s: Store, spec: StartSpec)
    requires Inv(s) && EnsureThread(s, spec).Ok?
    ensures Inv(EnsureThread(s, spec).value)
    ensures spec.threadId in EnsureThread(s, spec).value.threads
  {
    if spec.threadId !in s.threads {
      ThreadRowKeepsInv(s, spec.threadId, Thread(spec.accountId, spec.projectId, 0));
    }
  }

  /******* The admission *******/

  /** The run and user message are new to the tables, and the resume names an interrupt nobody resumed. */
  ghost predicate Fresh(s: Store, spec: StartSpec) {
    && spec.threadId in s.threads
    && s.threads[spec.threadId].accountId == spec.accountId && s.threads[spec.threadId].projectId == spec.projectId
    && spec.runId !in s.runs && spec.messageId !in s.messages
    && TrimSpace(spec.messageId) == spec.messageId
    && (forall r :: !Admitted(s, spec.threadId, spec.idempotencyKey, r))
    && (spec.resume.Some? ==>
          forall r :: r in s.runs && s.runs[r].threadId == spec.threadId ==> s.runs[r].resumes != spec.resume.value)
  }

  ghost function WithRun(s: Store, spec: StartSpec, now: int): Store {
    s.(runs := s.runs[spec.runId := NewRun(spec, now)], messages := s.messages[spec.messageId := UserMessage(spec)])
  }

  /** The tables after an admission: one run, one message, three facts. */
  ghost predicate Admits(s: Store, spec: StartSpec, now: int, s': Store) {
    Extends(WithRun(s, spec, now), s', spec.threadId, UserFacts(spec, |Log(s, spec.threadId)|, UserBodies(spec)))
  }

  lemma UserFactsRead(spec: StartSpec, base: int)
    ensures var facts := UserFacts(spec, base, UserBodies(spec));
            && |facts| == 3
            && (forall i :: 0 <= i < 3 ==> facts[i].sequence == base + 1 + i)
            && (forall f :: f in facts ==>
                  f.threadId == spec.threadId && f.runId == spec.runId && f.processId == spec.processId
                  && f.sourceEventId == ""
                  && MovesMessage(f.body.eventType) && MessageId(f.body) == TrimSpace(spec.messageId))
  {
    assert MessageId(UserBodies(spec)[0]) == MessageId(UserBodies(spec)[1]) == MessageId(UserBodies(spec)[2])
           == TrimSpace(spec.messageId);
  }

  lemma AdmitKeepsOwned(s: Store, spec: StartSpec, now: int, s': Store)
    requires Owned(s) && Fresh(s, spec) && Admits(s, spec, now, s')
    ensures Owned(s')
  {}

  lemma AdmitKeepsGapless(s: Store, spec: StartSpec, now: int, s': Store)
    requires Gapless(s) && Fresh(s, spec) && Admits(s, spec, now, s')
    ensures Gapless(s')
  {
    UserFactsRead(spec, |Log(s, spec.threadId)|);
    forall t ensures GaplessThread(s', t) {
      assert GaplessThread(s, t);
      assert t != spec.threadId ==> Log(s', t) == Log(s, t);
    }
  }

  lemma AdmitKeepsRuns(s: Store, spec: StartSpec, now: int, s': Store)
    requires Fresh(s, spec) && Admits(s, spec, now, s') && OneRunner(s) && OneAdmission(s) && OneResume(s)
    ensures OneRunner(s') && OneAdmission(s') && OneResume(s')
  {
    forall q, r | Siblings(s', q, r)
      ensures s'.runs[q].life.status == Running && s'.runs[r].life.status == Running ==> q == r
      ensures s'.runs[q].idempotencyKey == s'.runs[r].idempotencyKey ==> q == r
      ensures s'.runs[q].resumes != "" && s'.runs[q].resumes == s'.runs[r].resumes ==> q == r
    {
      if q != spec.runId && r != spec.runId {
        assert Siblings(s, q, r);
      } else {
        assert !Admitted(s, spec.threadId, spec.idempotencyKey, q);
        assert !Admitted(s, spec.threadId, spec.idempotencyKey, r);
      }
    }
  }

  lemma AdmitKeepsQueued(s: Store, spec: StartSpec, now: int, s': Store)
    requires Fresh(s, spec) && Admits(s, spec, now, s') && Queued(s)
    ensures Queued(s')
  {
    forall k | k in s'.deferred
      ensures && 1 <= k.1 <= |Log(s', k.0)|
              && Log(s', k.0)[k.1 - 1].body.eventType == RUN_STARTED
              && Log(s', k.0)[k.1 - 1].runId == s'.deferred[k]
    {
      assert k.0 != spec.threadId ==> Log(s', k.0) == Log(s, k.0);
    }
  }

  lemma AdmitKeepsOnceOnly(s: Store, spec: StartSpec, now: int, s': Store)
    requires Fresh(s, spec) && Admits(s, spec, now, s') && OnceOnly(s)
    ensures OnceOnly(s')
  {
    UserFactsRead(spec, |Log(s, spec.threadId)|);
    forall t ensures DistinctSources(Log(s', t)) {
      assert DistinctSources(Log(s, t));
      assert t != spec.threadId ==> Log(s', t) == Log(s, t);
    }
  }

  /** Facts the platform writes do not move a source cursor. */
  lemma {:induction false} PlatformFactsKeepCursors(log: seq<Fact>, facts: seq<Fact>, r: string)
    requires forall f :: f in facts ==> f.sourceEventId == ""
    ensures LastSource(log + facts, r) == LastSource(log, r)
    ensures SourceOrdered(log) ==> SourceOrdered(log + facts)
  {
    if facts == [] {
      assert log + facts == log;
    } else {
      var init, last := facts[..|facts| - 1], facts[|facts| - 1];
      assert log + facts == (log + init) + [last];
      PlatformFactsKeepCursors(log, init, r);
      assert last in facts;
      LastOfAppended(log + init, last, r);
    }
  }

  lemma {:induction false} StrangersHaveNoCursor(log: seq<Fact>, r: string)
    requires forall f :: f in log ==> f.runId != r
    ensures LastSource(log, r) == 0
  {
    if log != [] {
      StrangersHaveNoCursor(log[..|log| - 1], r);
      assert log[|log| - 1] in log;
    }
  }

  lemma AdmitKeepsCursors(s: Store, spec: StartSpec, now: int, s': Store)
    requires Gapless(s) && Fresh(s, spec) && Admits(s, spec, now, s') && Cursors(s)
    ensures Cursors(s')
  {
    var facts := UserFacts(spec, |Log(s, spec.threadId)|, UserBodies(spec));
    UserFactsRead(spec, |Log(s, spec.threadId)|);
    forall t ensures SourceOrdered(Log(s', t)) {
      PlatformFactsKeepCursors(Log(s, t), facts, spec.runId);
      assert t != spec.threadId ==> Log(s', t) == Log(s, t);
    }
    forall r | r in s'.runs ensures s'.runs[r].cursor == LastSource(Log(s', s'.runs[r].threadId), r) {
      var t := s'.runs[r].threadId;
      PlatformFactsKeepCursors(Log(s, t), facts, r);
      assert t != spec.threadId ==> Log(s', t) == Log(s, t);
      if r == spec.runId {
        assert GaplessThread(s, t);
        StrangersHaveNoCursor(Log(s, t), r);
      }
    }
  }

  lemma AdmitKeepsMessages(s: Store, spec: StartSpec, now: int, s': Store)
    requires Fresh(s, spec) && Admits(s, spec, now, s') && Interruptions(s)
    ensures Interruptions(s')
  {
    forall r | r in s'.runs && s'.runs[r].life.status == Interrupted
      ensures s'.runs[r].life.interrupt.Some? && s'.runs[r].life.interrupt.value.id != "" && Spoke(s'.messages, r)
    {
      var m :| m in s.messages && s.messages[m].runId == r
               && s.messages[m].role == "assistant" && s.messages[m].status == Closed;
      assert s'.messages[m] == s.messages[m];
    }
  }

  lemma {:induction false} OtherDeltas(log: seq<Fact>, facts: seq<Fact>, m: string, r: string)
    requires forall f :: f in facts ==> !IsDelta(f, m)
    ensures Deltas(log + facts, m, r) == Deltas(log, m, r)
  {
    if facts == [] {
      assert log + facts == log;
    } else {
      var init, last := facts[..|facts| - 1], facts[|facts| - 1];
      assert log + facts == (log + init) + [last];
      OtherDeltas(log, init, m, r);
      assert last in facts;
      DeltasOfAppended(log + init, last, m, r);
    }
  }

  lemma AdmitKeepsStreams(s: Store, spec: StartSpec, now: int, s': Store)
    requires Fresh(s, spec) && Admits(s, spec, now, s') && Streams(s)
    ensures Streams(s')
  {
    var facts := UserFacts(spec, |Log(s, spec.threadId)|, UserBodies(spec));
    UserFactsRead(spec, |Log(s, spec.threadId)|);
    forall t, g, m | g in Log(s', t) && m !in s'.messages ensures !IsDelta(g, m) {
      assert t != spec.threadId ==> Log(s', t) == Log(s, t);
    }
    forall m | m in s'.messages && s'.messages[m].status == Streaming
      ensures s'.messages[m].content == Deltas(Log(s', s'.messages[m].threadId), m, s'.messages[m].runId)
    {
      assert m != spec.messageId;
      var t := s'.messages[m].threadId;
      OtherDeltas(Log(s, t), facts, m, s'.messages[m].runId);
      assert t != spec.threadId ==> Log(s', t) == Log(s, t);
    }
  }

  function Blank(spec: StartSpec, content: string): Message {
    Message(spec.threadId, spec.runId, spec.processId, "user", content, Streaming, spec.requestedAt, None)
  }

  lemma UserStartFolds(v: View, spec: StartSpec, f: Fact, parked: set<int>)
    requires TrimSpace(spec.messageId) == spec.messageId && spec.messageId !in v.messages
    requires f == Fact(spec.threadId, spec.runId, spec.processId, f.sequence, "", 0, UserBodies(spec)[0])
    ensures After(v, f, parked) == v.(messages := v.messages[spec.messageId := Blank(spec, "")])
  {
    assert StringValue(f.body.payload, "role") == "user";
  }

  lemma ContentFolds(v: View, f: Fact, parked: set<int>)
    requires f.body.eventType == MESSAGE_CONTENT && MessageId(f.body) in v.messages
    requires v.messages[MessageId(f.body)].status == Streaming && v.messages[MessageId(f.body)].runId == f.runId
    ensures var m := v.messages[MessageId(f.body)];
            After(v, f, parked)
            == v.(messages := v.messages[MessageId(f.body) :=
                                           m.(content := m.content + StringValue(f.body.payload, "delta"))])
  {}

  lemma UserContentFolds(v: View, spec: StartSpec, f: Fact, parked: set<int>)
    requires TrimSpace(spec.messageId) == spec.messageId
    requires spec.messageId in v.messages && v.messages[spec.messageId] == Blank(spec, "")
    requires f == Fact(spec.threadId, spec.runId, spec.processId, f.sequence, "", 0, UserBodies(spec)[1])
    ensures After(v, f, parked)
            == v.(messages := v.messages[spec.messageId := Blank(spec, TrimSpace(spec.userMessage))])
  {
    assert MessageId(f.body) == spec.messageId && StringValue(f.body.payload, "delta") == TrimSpace(spec.userMessage);
    ContentFolds(v, f, parked);
    assert "" + TrimSpace(spec.userMessage) == TrimSpace(spec.userMessage);
  }

  lemma UserEndFolds(v: View, spec: StartSpec, f: Fact, parked: set<int>, content: string)
    requires TrimSpace(spec.messageId) == spec.messageId
    requires spec.messageId in v.messages && v.messages[spec.messageId] == Blank(spec, content)
    requires f == Fact(spec.threadId, spec.runId, spec.processId, f.sequence, "", 0, UserBodies(spec)[2])
    ensures After(v, f, parked) == v.(messages := v.messages[spec.messageId := UserMessage(spec)])
  {
    assert MessageId(f.body) == spec.messageId;
    assert Close(Blank(spec, content), f.body) == UserMessage(spec);
  }

  /** The three facts fold to the user's message exactly as written. */
  lemma UserFactsFold(log: seq<Fact>, spec: StartSpec, parked: set<int>)
    requires TrimSpace(spec.messageId) == spec.messageId && spec.messageId !in Fold(log, parked).messages
    ensures var v := Fold(log, parked);
            Fold(log + UserFacts(spec, |log|, UserBodies(spec)), parked)
            == v.(messages := v.messages[spec.messageId := UserMessage(spec)])
  {
    var n := |log|;
    var a, b, c := UserFact(spec, n + 1, 0), UserFact(spec, n + 2, 1), UserFact(spec, n + 3, 2);
    UserFactsAre(spec, n);
    ThreeFold(log, a, b, c, parked);
    UserViews(Fold(log, parked), spec, a, b, c, parked);
  }

  function UserFact(spec: StartSpec, n: int, i: int): Fact
    requires 0 <= i < 3
  {
    Fact(spec.threadId, spec.runId, spec.processId, n, "", 0, UserBodies(spec)[i])
  }

  lemma UserFactsAre(spec: StartSpec, base: int)
    ensures UserFacts(spec, base, UserBodies(spec))
            == [UserFact(spec, base + 1, 0), UserFact(spec, base + 2, 1), UserFact(spec, base + 3, 2)]
  {}

  lemma UserViews(v: View, spec: StartSpec, a: Fact, b: Fact, c: Fact, parked: set<int>)
    requires TrimSpace(spec.messageId) == spec.messageId && spec.messageId !in v.messages
    requires a == UserFact(spec, a.sequence, 0) && b == UserFact(spec, b.sequence, 1)
    requires c == UserFact(spec, c.sequence, 2)
    ensures After(After(After(v, a, parked), b, parked), c, parked)
            == v.(messages := v.messages[spec.messageId := UserMessage(spec)])
  {
    var id, content := spec.messageId, TrimSpace(spec.userMessage);
    UserOpened(v, spec, a, b, parked);
    var v2 := v.(messages := v.messages[id := Blank(spec, content)]);
    UserEndFolds(v2, spec, c, parked, content);
    assert v2.messages[id := UserMessage(spec)] == v.messages[id := UserMessage(spec)];
  }

  lemma UserOpened(v: View, spec: StartSpec, a: Fact, b: Fact, parked: set<int>)
    requires TrimSpace(spec.messageId) == spec.messageId && spec.messageId !in v.messages
    requires a == UserFact(spec, a.sequence, 0) && b == UserFact(spec, b.sequence, 1)
    ensures After(After(v, a, parked), b, parked)
            == v.(messages := v.messages[spec.messageId := Blank(spec, TrimSpace(spec.userMessage))])
  {
    var id, blank := spec.messageId, Blank(spec, "");
    UserStartFolds(v, spec, a, parked);
    var v1 := v.(messages := v.messages[id := blank]);
    UserContentFolds(v1, spec, b, parked);
    assert v1.messages[id := Blank(spec, TrimSpace(spec.userMessage))]
           == v.messages[id := Blank(spec, TrimSpace(spec.userMessage))];
  }

  lemma ThreeFold(log: seq<Fact>, a: Fact, b: Fact, c: Fact, parked: set<int>)
    ensures Fold(log + [a, b, c], parked) == After(After(After(Fold(log, parked), a, parked), b, parked), c, parked)
  {
    assert log + [a, b, c] == log + [a] + [b] + [c];
    FoldAppend(log, a, parked);
    FoldAppend(log + [a], b, parked);
    FoldAppend(log + [a] + [b], c, parked);
  }

  lemma MessagesOfPut(messages: map<string, Message>, t: string, id: string, row: Message)
    requires row.threadId == t
    ensures MessagesOf(messages[id := row], t) == MessagesOf(messages, t)[id := row]
  {}

  lemma AdmitReplaysOwn(s: Store, spec: StartSpec, now: int, s': Store)
    requires ReplaysThread(s, spec.threadId) && Fresh(s, spec) && Admits(s, spec, now, s')
    ensures ReplaysThread(s', spec.threadId)
  {
    var t := spec.threadId;
    var v, parked := Fold(Log(s, t), Parked(s, t)), Parked(s, t);
    var v' := v.(messages := v.messages[spec.messageId := UserMessage(spec)]);
    assert Parked(s', t) == parked;
    assert Fold(Log(s', t), parked) == v' by {
      assert spec.messageId !in MessagesOf(s.messages, t);
      UserFactsFold(Log(s, t), spec, parked);
    }
    MessagesOfPut(s.messages, t, spec.messageId, UserMessage(spec));
    assert s'.runs == s.runs[spec.runId := NewRun(spec, now)];
    forall r | r in s'.runs && s'.runs[r].threadId == t ensures s'.runs[r].life == LifeIn(v', r) {}
  }

  lemma AdmitReplays(s: Store, spec: StartSpec, now: int, s': Store, t: string)
    requires ReplaysThread(s, t) && Fresh(s, spec) && Admits(s, spec, now, s')
    ensures ReplaysThread(s', t)
  {
    if t == spec.threadId {
      AdmitReplaysOwn(s, spec, now, s');
    } else {
      assert Parked(s', t) == Parked(s, t);
      assert Log(s', t) == Log(s, t);
      assert MessagesOf(s'.messages, t) == MessagesOf(s.messages, t);
    }
  }

  lemma AdmitKeepsInv(s: Store, spec: StartSpec, now: int, s': Store)
    requires Inv(s) && Fresh(s, spec) && Admits(s, spec, now, s') && Published(s')
    ensures Inv(s')
  {
    AdmitKeepsOwned(s, spec, now, s');
    AdmitKeepsGapless(s, spec, now, s');
    AdmitKeepsRuns(s, spec, now, s');
    AdmitKeepsQueued(s, spec, now, s');
    AdmitKeepsOnceOnly(s, spec, now, s');
    AdmitKeepsCursors(s, spec, now, s');
    AdmitKeepsMessages(s, spec, now, s');
    AdmitKeepsStreams(s, spec, now, s');
    forall t ensures ReplaysThread(s', t) {
      assert ReplaysThread(s, t);
      AdmitReplays(s, spec, now, s', t);
    }
  }

  lemma EnsureThreadKeepsAdmissions(s: Store, spec: StartSpec)
    requires EnsureThread(s, spec).Ok?
    ensures var s1 := EnsureThread(s, spec).value;
            RunByKey(s1, spec.threadId, spec.idempotencyKey).None?
            <==> forall q :: !Admitted(s, spec.threadId, spec.idempotencyKey, q)
    ensures var s1 := EnsureThread(s, spec).value;
            RunByKey(s1, spec.threadId, spec.idempotencyKey).Some? ==>
              Admitted(s, spec.threadId, spec.idempotencyKey, RunByKey(s1, spec.threadId, spec.idempotencyKey).value)
  {
    var s1 := EnsureThread(s, spec).value;
    var t, key := spec.threadId, spec.idempotencyKey;
    assert forall q :: Admitted(s1, t, key, q) <==> Admitted(s, t, key, q);
  }

  /** The resume of an accepted request names an interrupt no run of the thread has resumed. */
  lemma AcceptedResume(s: Store, spec: StartSpec, pick: Option<string>)
    requires LatestInterrupt(s, spec.threadId, pick) && ValidateResume(s, spec, pick).None? && spec.resume.Some?
    ensures forall r :: r in s.runs && s.runs[r].threadId == spec.threadId ==> s.runs[r].resumes != spec.resume.value
  {}

  lemma NewRunIsAdmitted(s1: Store, spec: StartSpec, now: int)
    requires Gapless(s1) && Published(s1) && spec.threadId in s1.threads
    ensures var appended := AppendUserFacts(WithRun(s1, spec, now), spec, UserBodies(spec));
            appended.Ok? && Admits(s1, spec, now, appended.value) && Published(appended.value)
  {
    assert GaplessThread(s1, spec.threadId);
    assert forall t :: Log(WithRun(s1, spec, now), t) == Log(s1, t);
    UserFactsAreAppended(WithRun(s1, spec, now), spec, UserBodies(spec));
  }

  /** A request is answered with the run its key already admitted, or admits a new one. */
  lemma StartCases(s: Store, spec: StartSpec, pick: Option<string>, now: int)
    requires Inv(s) && LatestInterrupt(s, spec.threadId, pick) && TrimSpace(spec.messageId) == spec.messageId
    requires PersistStart(s, spec, pick, now).Ok?
    ensures EnsureThread(s, spec).Ok?
    ensures (exists q :: Admitted(s, spec.threadId, spec.idempotencyKey, q)) ==>
              PersistStart(s, spec, pick, now).value.0 == s
              && Admitted(s, spec.threadId, spec.idempotencyKey, PersistStart(s, spec, pick, now).value.1)
    ensures (forall q :: !Admitted(s, spec.threadId, spec.idempotencyKey, q)) ==>
              var s1 := EnsureThread(s, spec).value;
              && Inv(s1) && Fresh(s1, spec)
              && Admits(s1, spec, now, PersistStart(s, spec, pick, now).value.0)
              && Published(PersistStart(s, spec, pick, now).value.0)
              && PersistStart(s, spec, pick, now).value.1 == spec.runId
  {
    EnsureThreadKeepsAdmissions(s, spec);
    if exists q :: Admitted(s, spec.threadId, spec.idempotencyKey, q) {
      assert spec.threadId in s.threads by { assert Owned(s); }
    } else {
      NewKeyCase(s, spec, pick, now);
    }
  }

  lemma NewKeyCase(s: Store, spec: StartSpec, pick: Option<string>, now: int)
    requires Inv(s) && LatestInterrupt(s, spec.threadId, pick) && TrimSpace(spec.messageId) == spec.messageId
    requires PersistStart(s, spec, pick, now).Ok? && forall q :: !Admitted(s, spec.threadId, spec.idempotencyKey, q)
    ensures EnsureThread(s, spec).Ok?
    ensures var s1, after := EnsureThread(s, spec).value, PersistStart(s, spec, pick, now).value;
            && Inv(s1) && Fresh(s1, spec) && Admits(s1, spec, now, after.0) && Published(after.0)
            && after.1 == spec.runId
  {
    var s1 := EnsureThread(s, spec).value;
    EnsureThreadKeepsAdmissions(s, spec);
    EnsureThreadKeepsInv(s, spec);
    NewRunIsAdmitted(s1, spec, now);
    AcceptedIsFresh(s, s1, spec, pick);
  }

  lemma AcceptedIsFresh(s: Store, s1: Store, spec: StartSpec, pick: Option<string>)
    requires EnsureThread(s, spec) == Ok(s1) && LatestInterrupt(s, spec.threadId, pick)
    requires TrimSpace(spec.messageId) == spec.messageId
    requires forall q :: !Admitted(s, spec.threadId, spec.idempotencyKey, q)
    requires ValidateResume(s, spec, pick).None? && spec.runId !in s.runs && spec.messageId !in s.messages
    ensures Fresh(s1, spec)
  {
    if spec.resume.Some? { AcceptedResume(s, spec, pick); }
    var t, key := spec.threadId, spec.idempotencyKey;
    assert forall r :: Admitted(s1, t, key, r) <==> Admitted(s, t, key, r);
  }

  lemma StartKeepsInv(s: Store, raw: StartSpec, freshRun: Uuid, freshMessage: Uuid, pick: Option<string>, now: int)
    requires Inv(s) && LatestInterrupt(s, TrimSpace(raw.threadId), pick)
    requires StartRun(s, raw, freshRun, freshMessage, pick, now).Ok?
    ensures Inv(StartRun(s, raw, freshRun, freshMessage, pick, now).value.0)
  {
    var spec := PrepareStart(raw, freshRun, freshMessage);
    TrimIdempotent(raw.messageId);
    StartCases(s, spec, pick, now);
    if forall q :: !Admitted(s, spec.threadId, spec.idempotencyKey, q) {
      AdmitKeepsInv(EnsureThread(s, spec).value, spec, now, PersistStart(s, spec, pick, now).value.0);
    }
  }
}
