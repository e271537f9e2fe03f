/** The sweeper: starting parked runs and abandoning dead ones. */
module ConversationSweep {
  import opened Text
  import opened ConversationModel
  import opened ConversationReplay
  import opened ConversationInvariants
  import opened ConversationIngestion

  /******* One parked start *******/

  /** The stored start a queue entry stands for. */
  function ParkedFact(s: Store, k: QueueKey): Fact
    requires 1 <= k.1 <= |Log(s, k.0)|
  {
    Log(s, k.0)[k.1 - 1]
  }

  /** The run behind the entry is still waiting. */
  ghost predicate Waiting(s: Store, k: QueueKey) {
    k in s.deferred && s.deferred[k] in s.runs && s.runs[s.deferred[k]].life.status == Pending
  }

  lemma QueueEntry(s: Store, k: QueueKey)
    requires Gapless(s) && Queued(s) && k in s.deferred
    ensures 1 <= k.1 <= |Log(s, k.0)|
    ensures var f, r := ParkedFact(s, k), s.deferred[k];
            && FactAt(Log(s, k.0), k.1) == Some(f)
            && f.body.eventType == RUN_STARTED && f.runId == r && r in s.runs && s.runs[r].threadId == k.0
  {
    assert GaplessThread(s, k.0);
    LogFactAt(s, k.0, k.1);
    assert ParkedFact(s, k) in Log(s, k.0);
  }

  ghost function Promoted(s: Store, k: QueueKey): Store
    requires k in s.deferred && s.deferred[k] in s.runs && 1 <= k.1 <= |Log(s, k.0)|
  {
    var r := s.deferred[k];
    s.(runs := s.runs[r := s.runs[r].(life := Started(s.runs[r].life, ParkedFact(s, k).body.occurredAt))],
       deferred := s.deferred - {k})
  }

  /** A parked start is applied exactly when its run still waits and its thread is free. */
  lemma PromoteOneCases(s: Store, k: QueueKey)
    requires Gapless(s) && Queued(s) && k in s.deferred
    ensures PromoteOne(s, k).Ok? <==> Waiting(s, k) && !Held(s.runs, k.0)
    ensures 1 <= k.1 <= |Log(s, k.0)| && s.deferred[k] in s.runs
    ensures PromoteOne(s, k).Ok? ==> PromoteOne(s, k).value == Promoted(s, k)
  {
    QueueEntry(s, k);
  }

  lemma PromotedKeepsRuns(s: Store, k: QueueKey)
    requires Gapless(s) && Queued(s) && Waiting(s, k) && !Held(s.runs, k.0) && 1 <= k.1 <= |Log(s, k.0)|
    requires OneRunner(s) && OneAdmission(s) && OneResume(s)
    ensures var s' := Promoted(s, k); OneRunner(s') && OneAdmission(s') && OneResume(s')
  {
    QueueEntry(s, k);
    var s' := Promoted(s, k);
    forall q, r | Siblings(s', q, r)
      ensures s'.runs[q].life.status == Running && s'.runs[r].life.status == Running ==> q == r
      ensures s'.runs[q].idempotencyKey == s'.runs[r].idempotencyKey ==> q == r
      ensures s'.runs[q].resumes != "" && s'.runs[q].resumes == s'.runs[r].resumes ==> q == r
    {
      assert Siblings(s, q, r);
    }
  }

  lemma PromotedKeepsRows(s: Store, k: QueueKey)
    requires Waiting(s, k) && 1 <= k.1 <= |Log(s, k.0)| && Owned(s) && Published(s) && Interruptions(s)
    ensures var s' := Promoted(s, k); Owned(s') && Published(s') && Interruptions(s')
  {
    assert forall t :: Log(Promoted(s, k), t) == Log(s, t);
  }

  lemma PromotedKeepsSources(s: Store, k: QueueKey)
    requires Waiting(s, k) && 1 <= k.1 <= |Log(s, k.0)| && OnceOnly(s) && Cursors(s)
    ensures var s' := Promoted(s, k); OnceOnly(s') && Cursors(s')
  {
    assert forall t :: Log(Promoted(s, k), t) == Log(s, t);
  }

  lemma PromotedKeepsStreams(s: Store, k: QueueKey)
    requires Waiting(s, k) && 1 <= k.1 <= |Log(s, k.0)| && Streams(s)
    ensures Streams(Promoted(s, k))
  {
    assert forall t :: Log(Promoted(s, k), t) == Log(s, t);
  }

  lemma PromotedKeepsGapless(s: Store, k: QueueKey)
    requires Waiting(s, k) && 1 <= k.1 <= |Log(s, k.0)| && Gapless(s)
    ensures Gapless(Promoted(s, k))
  {
    forall t ensures GaplessThread(Promoted(s, k), t) { assert GaplessThread(s, t); }
  }

  /** The start applied now leaves the tables as if it had been applied when it arrived. */
  lemma PromotedReplaysOwn(s: Store, k: QueueKey)
    requires Gapless(s) && Queued(s) && Waiting(s, k) && ReplaysThread(s, k.0) && 1 <= k.1 <= |Log(s, k.0)|
    ensures ReplaysThread(Promoted(s, k), k.0)
  {
    QueueEntry(s, k);
    PromotedFold(s, k);
    assert Log(Promoted(s, k), k.0) == Log(s, k.0);
  }

  lemma PromotedParked(s: Store, k: QueueKey)
    requires k in s.deferred && s.deferred[k] in s.runs && 1 <= k.1 <= |Log(s, k.0)|
    ensures k.1 in Parked(s, k.0) && Parked(Promoted(s, k), k.0) == Parked(s, k.0) - {k.1}
  {
    assert forall j: QueueKey :: j in s.deferred && j.0 == k.0 && j.1 == k.1 ==> j == k;
  }

  lemma PromotedFold(s: Store, k: QueueKey)
    requires Gapless(s) && Queued(s) && Waiting(s, k) && ReplaysThread(s, k.0) && 1 <= k.1 <= |Log(s, k.0)|
    ensures var r, v := s.deferred[k], Fold(Log(s, k.0), Parked(s, k.0));
            && r !in v.lives
            && Fold(Log(s, k.0), Parked(Promoted(s, k), k.0))
               == v.(lives := v.lives[r := Started(ADMITTED, ParkedFact(s, k).body.occurredAt)])
  {
    QueueEntry(s, k);
    var log, parked, r := Log(s, k.0), Parked(s, k.0), s.deferred[k];
    assert GaplessThread(s, k.0);
    if r in Fold(log, parked).lives { FoldedLivesMoved(log, parked, r); }
    PromotedParked(s, k);
    LateStartIsInPlace(log, parked, k.1);
  }

  lemma PromotedReplaysOther(s: Store, k: QueueKey, t: string)
    requires Gapless(s) && Queued(s) && Waiting(s, k) && t != k.0 && ReplaysThread(s, t) && 1 <= k.1 <= |Log(s, k.0)|
    ensures ReplaysThread(Promoted(s, k), t)
  {
    QueueEntry(s, k);
    var s' := Promoted(s, k);
    assert Log(s', t) == Log(s, t);
    assert Parked(s', t) == Parked(s, t);
  }

  lemma PromotedKeepsInv(s: Store, k: QueueKey)
    requires Inv(s) && Waiting(s, k) && !Held(s.runs, k.0) && 1 <= k.1 <= |Log(s, k.0)|
    ensures Inv(Promoted(s, k))
  {
    PromotedKeepsRuns(s, k);
    PromotedKeepsRows(s, k);
    PromotedKeepsSources(s, k);
    PromotedKeepsStreams(s, k);
    PromotedKeepsQueue(s, k);
    PromotedKeepsGapless(s, k);
    forall t ensures ReplaysThread(Promoted(s, k), t) {
      assert ReplaysThread(s, t);
      if t == k.0 {
        PromotedReplaysOwn(s, k);
      } else {
        PromotedReplaysOther(s, k, t);
      }
    }
  }

  /******* A pass over the queue *******/

  ghost predicate DistinctThreads(batch: seq<QueueKey>) {
    forall i, j :: 0 <= i < j < |batch| ==> batch[i].0 != batch[j].0
  }

  /** Every entry can start where it stands. */
  ghost predicate Startable(s: Store, batch: seq<QueueKey>) {
    DistinctThreads(batch) && forall k :: k in batch ==> Waiting(s, k) && !Held(s.runs, k.0)
  }

  /** Starting one entry leaves the entries of other threads as they were. */
  lemma PromotedLeavesOthers(s: Store, k: QueueKey, j: QueueKey)
    requires Gapless(s) && Queued(s) && k in s.deferred && 1 <= k.1 <= |Log(s, k.0)|
    requires s.deferred[k] in s.runs && j in s.deferred && j.0 != k.0
    ensures j in Promoted(s, k).deferred && Promoted(s, k).deferred[j] == s.deferred[j]
    ensures Waiting(Promoted(s, k), j) <==> Waiting(s, j)
    ensures Held(Promoted(s, k).runs, j.0) <==> Held(s.runs, j.0)
  {
    QueueEntry(s, k);
    QueueEntry(s, j);
    var r := s.deferred[k];
    assert forall q :: q in s.runs && s.runs[q].threadId == j.0 ==> Promoted(s, k).runs[q] == s.runs[q];
    if Held(s.runs, j.0) {
      var q :| q in s.runs && s.runs[q].threadId == j.0 && s.runs[q].life.status == Running;
      assert Promoted(s, k).runs[q] == s.runs[q];
    }
  }

  lemma PromotedTakesThread(s: Store, k: QueueKey)
    requires Gapless(s) && Queued(s) && k in s.deferred && 1 <= k.1 <= |Log(s, k.0)| && s.deferred[k] in s.runs
    ensures Held(Promoted(s, k).runs, k.0)
  {
    QueueEntry(s, k);
    assert Promoted(s, k).runs[s.deferred[k]].life.status == Running;
  }

  lemma DistinctCons(k: QueueKey, rest: seq<QueueKey>)
    ensures DistinctThreads([k] + rest) <==> DistinctThreads(rest) && forall j :: j in rest ==> j.0 != k.0
  {
    var batch := [k] + rest;
    if DistinctThreads(batch) {
      assert forall i :: 0 <= i < |rest| ==> rest[i] == batch[i + 1];
      assert forall j :: j in rest ==> j.0 != batch[0].0;
    }
  }

  /** After the first start, the rest can start exactly when all of them could start before. */
  lemma StartableSplit(s: Store, k: QueueKey, rest: seq<QueueKey>)
    requires Gapless(s) && Queued(s) && Waiting(s, k) && !Held(s.runs, k.0) && 1 <= k.1 <= |Log(s, k.0)|
    requires forall j :: j in rest ==> j in s.deferred
    ensures Startable(Promoted(s, k), rest) <==> Startable(s, [k] + rest)
  {
    PromotedTakesThread(s, k);
    DistinctCons(k, rest);
    forall j | j in rest
      ensures j.0 != k.0 ==> (Waiting(Promoted(s, k), j) <==> Waiting(s, j))
      ensures j.0 != k.0 ==> (Held(Promoted(s, k).runs, j.0) <==> Held(s.runs, j.0))
    {
      if j.0 != k.0 { PromotedLeavesOthers(s, k, j); }
    }
    assert forall j :: j in [k] + rest <==> j == k || j in rest;
  }

  lemma PromotedKeepsQueue(s: Store, k: QueueKey)
    requires Queued(s) && Waiting(s, k) && 1 <= k.1 <= |Log(s, k.0)|
    ensures Queued(Promoted(s, k))
  {
    assert forall t :: Log(Promoted(s, k), t) == Log(s, t);
  }

  /** The pass commits exactly when the selected runs still wait and no two share a thread. */
  lemma {:induction false} PromoteAllIff(s: Store, batch: seq<QueueKey>)
    requires Gapless(s) && Queued(s) && (forall k :: k in batch ==> k in s.deferred)
    requires forall i, j :: 0 <= i < j < |batch| ==> batch[i] != batch[j]
    ensures PromoteAll(s, batch).Ok? <==> Startable(s, batch)
    decreases |batch|
  {
    if batch != [] {
      var k, rest := batch[0], batch[1..];
      assert k in batch && batch == [k] + rest;
      forall j | j in rest ensures j in s.deferred && j != k { assert j in batch; }
      PromoteOneCases(s, k);
      if PromoteOne(s, k).Ok? {
        PromotedKeepsGapless(s, k);
        PromotedKeepsQueue(s, k);
        PromoteAllIff(Promoted(s, k), rest);
        StartableSplit(s, k, rest);
      }
    }
  }

  lemma RestQueued(s: Store, k: QueueKey, batch: seq<QueueKey>)
    requires batch != [] && k == batch[0] && AllQueued(s, batch)
    requires s.deferred[k] in s.runs && 1 <= k.1 <= |Log(s, k.0)|
    ensures AllQueued(Promoted(s, k), batch[1..])
  {}

  /** Different entries of the queue. */
  ghost predicate AllQueued(s: Store, batch: seq<QueueKey>) {
    && (forall i :: 0 <= i < |batch| ==> batch[i] in s.deferred)
    && (forall i, j :: 0 <= i < j < |batch| ==> batch[i] != batch[j])
  }

  lemma FirstIsPromoted(s: Store, batch: seq<QueueKey>)
    requires Inv(s) && batch != [] && AllQueued(s, batch) && PromoteAll(s, batch).Ok?
    ensures var k := batch[0];
            && s.deferred[k] in s.runs && 1 <= k.1 <= |Log(s, k.0)|
            && Inv(Promoted(s, k)) && PromoteAll(s, batch) == PromoteAll(Promoted(s, k), batch[1..])
  {
    PromoteOneCases(s, batch[0]);
    PromotedKeepsInv(s, batch[0]);
  }

  lemma {:induction false} PromoteAllKeepsInv(s: Store, batch: seq<QueueKey>)
    requires Inv(s) && AllQueued(s, batch) && PromoteAll(s, batch).Ok?
    ensures Inv(PromoteAll(s, batch).value)
    decreases |batch|
  {
    if batch != [] {
      FirstIsPromoted(s, batch);
      RestQueued(s, batch[0], batch);
      PromoteAllKeepsInv(Promoted(s, batch[0]), batch[1..]);
    }
  }

  /** What a committed pass did: it started the run of every entry and dropped the entries,
      and touched nothing else. */
  ghost predicate StartedAll(s: Store, batch: seq<QueueKey>, s': Store) {
    && s' == s.(runs := s'.runs, deferred := s'.deferred)
    && s'.runs.Keys == s.runs.Keys
    && (forall k :: k in batch && k in s.deferred && s.deferred[k] in s.runs && 1 <= k.1 <= |Log(s, k.0)| ==>
          s'.runs[s.deferred[k]] ==
            s.runs[s.deferred[k]].(life := Started(s.runs[s.deferred[k]].life, ParkedFact(s, k).body.occurredAt)))
    && (forall r :: r in s.runs && (forall k :: k in batch && k in s.deferred ==> s.deferred[k] != r) ==>
          s'.runs[r] == s.runs[r])
    && (forall k :: k in s'.deferred <==> k in s.deferred && k !in batch)
    && (forall k :: k in s'.deferred ==> s'.deferred[k] == s.deferred[k])
  }

  lemma {:induction false} PromoteAllEffect(s: Store, batch: seq<QueueKey>)
    requires Gapless(s) && Queued(s) && Startable(s, batch) && PromoteAll(s, batch).Ok?
    ensures StartedAll(s, batch, PromoteAll(s, batch).value)
    decreases |batch|
  {
    if batch != [] {
      var k, rest := batch[0], batch[1..];
      assert k in batch && batch == [k] + rest;
      DistinctCons(k, rest);
      PromoteOneCases(s, k);
      var s1 := Promoted(s, k);
      PromotedKeepsGapless(s, k);
      PromotedKeepsQueue(s, k);
      forall j | j in rest ensures j in s.deferred { assert j in batch; }
      StartableSplit(s, k, rest);
      PromoteAllEffect(s1, rest);
      PromoteEffectCompose(s, k, rest, PromoteAll(s1, rest).value);
    }
  }

  lemma PromoteEffectCompose(s: Store, k: QueueKey, rest: seq<QueueKey>, s': Store)
    requires Gapless(s) && Queued(s) && Waiting(s, k) && 1 <= k.1 <= |Log(s, k.0)|
    requires forall j :: j in rest ==> j in s.deferred && j.0 != k.0
    requires StartedAll(Promoted(s, k), rest, s')
    ensures StartedAll(s, [k] + rest, s')
  {
    var s1, batch := Promoted(s, k), [k] + rest;
    QueueEntry(s, k);
    assert forall j :: j in batch <==> j == k || j in rest;
    assert forall t :: Log(s1, t) == Log(s, t);
    forall j | j in rest
      ensures j in s1.deferred && s1.deferred[j] == s.deferred[j] && s.deferred[j] != s.deferred[k]
      ensures s1.deferred[j] in s1.runs && s1.runs[s1.deferred[j]] == s.runs[s.deferred[j]]
    {
      OtherEntry(s, k, j);
    }
  }

  lemma OtherEntry(s: Store, k: QueueKey, j: QueueKey)
    requires Gapless(s) && Queued(s) && Waiting(s, k) && 1 <= k.1 <= |Log(s, k.0)| && j in s.deferred && j.0 != k.0
    ensures var s1 := Promoted(s, k);
            && j in s1.deferred && s1.deferred[j] == s.deferred[j] && s.deferred[j] != s.deferred[k]
            && s1.deferred[j] in s1.runs && s1.runs[s1.deferred[j]] == s.runs[s.deferred[j]]
  {
    QueueEntry(s, k);
    QueueEntry(s, j);
  }

  /** The entries a legal selection may hand to the pass. */
  lemma SelectedEntries(s: Store, batch: seq<QueueKey>)
    requires DeferredBatch(s, batch)
    ensures forall k :: k in batch ==> k in s.deferred && !Held(s.runs, k.0)
    ensures Startable(s, batch) <==> DistinctThreads(batch) && forall k :: k in batch ==> Waiting(s, k)
  {
    assert forall k :: k in batch ==> Eligible(s, k);
  }

  lemma {:induction false} QueueShrinks(q: map<QueueKey, string>, q': map<QueueKey, string>, batch: seq<QueueKey>)
    requires forall i, j :: 0 <= i < j < |batch| ==> batch[i] != batch[j]
    requires forall k :: k in batch ==> k in q
    requires forall k :: k in q' <==> k in q && k !in batch
    ensures |q'| == |q| - |batch|
  {
    if batch == [] {
      assert q'.Keys == q.Keys;
    } else {
      var k, rest := batch[0], batch[1..];
      assert batch == [k] + rest && k in batch;
      var q1 := q - {k};
      assert q1.Keys == q.Keys - {k};
      forall j | j in rest ensures j in q1 { assert j in batch; }
      QueueShrinks(q1, q', rest);
    }
  }

  lemma DistinctPair(batch: seq<QueueKey>, j: QueueKey, k: QueueKey)
    requires j in batch && k in batch && j != k && DistinctThreads(batch)
    ensures j.0 != k.0
  {
    var a :| 0 <= a < |batch| && batch[a] == j;
    var b :| 0 <= b < |batch| && batch[b] == k;
    if a < b { assert batch[a].0 != batch[b].0; } else { assert batch[b].0 != batch[a].0; }
  }

  /** The query cannot return a turn without the earlier ones of its thread. */
  lemma EarlierIsSelected(s: Store, batch: seq<QueueKey>, j: QueueKey, k: QueueKey)
    requires DeferredBatch(s, batch) && k in batch && j in s.deferred && j.0 == k.0 && j.1 < k.1
    ensures !DistinctThreads(batch)
  {
    assert Eligible(s, k) && Eligible(s, j);
    if DistinctThreads(batch) { DistinctPair(batch, j, k); }
  }

  lemma SweepIff(s: Store, batch: seq<QueueKey>)
    requires Gapless(s) && Queued(s) && DeferredBatch(s, batch)
    ensures PromoteAll(s, batch).Ok? <==> DistinctThreads(batch) && forall k :: k in batch ==> Waiting(s, k)
  {
    SelectedEntries(s, batch);
    PromoteAllIff(s, batch);
  }

  /** A pass over the rows the queue query returned commits if and only if every selected run
      still waits and no two selected entries share a thread. A committed pass starts every
      selected run on a free thread, each the earliest parked turn of its thread, and takes
      exactly these entries off the queue. */
  lemma SweepPass(s: Store, batch: seq<QueueKey>)
    requires Inv(s) && DeferredBatch(s, batch)
    ensures PromoteAll(s, batch).Ok? <==> DistinctThreads(batch) && forall k :: k in batch ==> Waiting(s, k)
    ensures PromoteAll(s, batch).Ok? ==>
              && StartedAll(s, batch, PromoteAll(s, batch).value)
              && |PromoteAll(s, batch).value.deferred| == |s.deferred| - |batch|
              && (forall k, j :: k in batch && j in s.deferred && j.0 == k.0 ==> k.1 <= j.1)
  {
    SweepIff(s, batch);
    if PromoteAll(s, batch).Ok? {
      SelectedEntries(s, batch);
      PromoteAllEffect(s, batch);
      QueueShrinks(s.deferred, PromoteAll(s, batch).value.deferred, batch);
      forall k, j | k in batch && j in s.deferred && j.0 == k.0 ensures k.1 <= j.1 {
        if j.1 < k.1 { EarlierIsSelected(s, batch, j, k); }
      }
    }
  }

  lemma SelectedAreQueued(s: Store, batch: seq<QueueKey>)
    requires DeferredBatch(s, batch)
    ensures AllQueued(s, batch)
  {
    forall i | 0 <= i < |batch| ensures batch[i] in s.deferred { assert batch[i] in batch && Eligible(s, batch[i]); }
  }

  lemma SweepKeepsInv(s: Store, batch: seq<QueueKey>)
    requires Inv(s)
    ensures Inv(Step(s, Promote(batch)))
  {
    if DeferredBatch(s, batch) && PromoteAll(s, batch).Ok? {
      SelectedAreQueued(s, batch);
      PromoteAllKeepsInv(s, batch);
    }
  }

  /** A sweep step starts every selected run or does nothing. */
  lemma SweepStep(s: Store, batch: seq<QueueKey>)
    requires Inv(s)
    ensures Step(s, Promote(batch)) == s
            || (StartedAll(s, batch, Step(s, Promote(batch))) && forall k :: k in batch ==> Waiting(s, k))
  {
    if DeferredBatch(s, batch) && PromoteAll(s, batch).Ok? { SweepPass(s, batch); }
  }

  lemma {:induction false} DistinctFits(batch: seq<QueueKey>, q: set<QueueKey>)
    requires forall i, j :: 0 <= i < j < |batch| ==> batch[i] != batch[j]
    requires forall k :: k in batch ==> k in q
    ensures |batch| <= |q|
  {
    if batch != [] {
      var k, rest := batch[0], batch[1..];
      forall j | j in rest ensures j in q - {k} { assert j in batch; }
      assert k in batch;
      DistinctFits(rest, q - {k});
    }
  }

  lemma SmallQueueIsSelected(s: Store, batch: seq<QueueKey>, k: QueueKey)
    requires |s.deferred| < SWEEP_BATCH && DeferredBatch(s, batch) && Eligible(s, k)
    ensures k in batch
  {
    assert forall i :: i in batch ==> Eligible(s, i);
    DistinctFits(batch, s.deferred.Keys);
  }

  lemma PairIsSelected(s: Store, j: QueueKey, k: QueueKey, batch: seq<QueueKey>)
    requires Eligible(s, j) && Eligible(s, k) && j != k && j.0 == k.0 && |s.deferred| < SWEEP_BATCH
    requires DeferredBatch(s, batch)
    ensures !DistinctThreads(batch)
  {
    SmallQueueIsSelected(s, batch, j);
    SmallQueueIsSelected(s, batch, k);
    if DistinctThreads(batch) { DistinctPair(batch, j, k); }
  }

  /** Two turns parked on one free thread block the sweeper: while the queue fits one batch,
      every selection it can make contains both and rolls back. */
  lemma TwoParkedTurnsBlock(s: Store, j: QueueKey, k: QueueKey, batch: seq<QueueKey>)
    requires Gapless(s) && Queued(s) && Eligible(s, j) && Eligible(s, k) && j != k && j.0 == k.0
    requires |s.deferred| < SWEEP_BATCH
    ensures Step(s, Promote(batch)) == s && (DeferredBatch(s, batch) ==> PromoteAll(s, batch).Err?)
  {
    if DeferredBatch(s, batch) {
      PairIsSelected(s, j, k, batch);
      SweepIff(s, batch);
    }
  }

  /******* Abandonment *******/

  lemma {:induction false} SourceOfAppended(log: seq<Fact>, f: Fact, source: string)
    ensures FindSource(log + [f], source) ==
              if FindSource(log, source).Some? then FindSource(log, source)
              else if f.sourceEventId == source then Some(f) else None
  {
    if log != [] {
      assert (log + [f])[1..] == log[1..] + [f];
      SourceOfAppended(log[1..], f, source);
    }
  }

  function AbandonedLife(life: Lifecycle, now: int): Lifecycle {
    Lifecycle(Failed, "abandoned", None, "lease_expired", "lease_expired", life.startedAt, Some(now))
  }

  /** The reserved source id of the run's abandonment is not taken on its thread. */
  ghost predicate Unclaimed(s: Store, r: string)
    requires r in s.runs
  {
    FindSource(Log(s, s.runs[r].threadId), AbandonSource(r)).None?
  }

  lemma AbandonmentPayload(s: Store, r: string, now: int)
    requires r in s.runs
    ensures var p := Abandonment(s, r, now).body.payload;
            StringValue(p, "outcome") == "abandoned" && StringValue(p, "termination_reason") == "lease_expired"
  {
    AlreadyTrimmed("abandoned");
    AlreadyTrimmed("lease_expired");
  }

  lemma AbandonmentProjects(s: Store, r: string, now: int)
    requires r in s.runs && s.runs[r].life.status == Running
    ensures Project(s, r, Abandonment(s, r, now).body) == Ok(Effect(AbandonedLife(s.runs[r].life, now), s.messages))
  {
    AbandonmentPayload(s, r, now);
    assert "error" in CORE_STATUSES;
  }

  lemma AbandonmentIsAdmitted(s: Store, r: string, now: int)
    requires r in s.runs
    ensures Unclaimed(s, r) ==> Admit(s, Abandonment(s, r, now)) == Ok(None)
    ensures !Unclaimed(s, r) ==>
              Admit(s, Abandonment(s, r, now)) == Ok(FindSource(Log(s, s.runs[r].threadId), AbandonSource(r)))
  {}

  /** What storing a fact needs of the tables. */
  ghost predicate Storable(s: Store) { Owned(s) && Gapless(s) && Published(s) }

  /** A dead run is ended unless its reserved source id is taken; then nothing happens. */
  lemma AbandonOne(s: Store, r: string, now: int)
    requires Storable(s) && r in s.runs && s.runs[r].life.status == Running
    ensures AbandonRun(s, r, now).Ok?
    ensures !Unclaimed(s, r) ==> AbandonRun(s, r, now).value == s
    ensures Unclaimed(s, r) ==>
              var e, effect := Abandonment(s, r, now), Effect(AbandonedLife(s.runs[r].life, now), s.messages);
              Lands(s, e) && Ready(s, e, effect, false) && AbandonRun(s, r, now).value == Next(s, e, effect, false)
  {
    var e := Abandonment(s, r, now);
    AbandonmentIsAdmitted(s, r, now);
    if Unclaimed(s, r) {
      AbandonmentProjects(s, r, now);
      ReadyLands(s, e);
      assert GaplessThread(s, e.threadId);
      RecordIsNext(s, e, Effect(AbandonedLife(s.runs[r].life, now), s.messages), false);
    }
  }

  lemma AbandonKeepsInv(s: Store, r: string, now: int)
    requires Inv(s) && r in s.runs && s.runs[r].life.status == Running && AbandonRun(s, r, now).Ok?
    ensures Inv(AbandonRun(s, r, now).value)
  {
    AbandonOne(s, r, now);
    if Unclaimed(s, r) {
      NextKeepsInv(s, Abandonment(s, r, now), Effect(AbandonedLife(s.runs[r].life, now), s.messages), false);
    }
  }

  /** The run row a pass leaves behind. */
  ghost function Swept(s: Store, r: string, now: int): Run
    requires r in s.runs
  {
    if Unclaimed(s, r) then
      s.runs[r].(life := AbandonedLife(s.runs[r].life, now), cursor := s.runs[r].cursor + 1, lastActivityAt := now)
    else s.runs[r]
  }

  /** Ending one run changes neither the row nor the reserved id of another. */
  lemma AbandonLeavesOthers(s: Store, r: string, now: int, q: string)
    requires Storable(s) && r in s.runs && s.runs[r].life.status == Running && q in s.runs && q != r
    requires AbandonRun(s, r, now).Ok?
    ensures q in AbandonRun(s, r, now).value.runs && AbandonRun(s, r, now).value.runs[q] == s.runs[q]
    ensures Unclaimed(AbandonRun(s, r, now).value, q) <==> Unclaimed(s, q)
  {
    AbandonOne(s, r, now);
    if Unclaimed(s, r) {
      var e, effect := Abandonment(s, r, now), Effect(AbandonedLife(s.runs[r].life, now), s.messages);
      NextLog(s, e, effect, false, s.runs[q].threadId);
      SourceOfAppended(Log(s, s.runs[q].threadId), NewFact(s, e), AbandonSource(q));
      assert AbandonSource(r)[|"lease-expired:"|..] == r && AbandonSource(q)[|"lease-expired:"|..] == q;
    }
  }

  /** Every selected run is swept, every other run is as it was. */
  ghost predicate SweptAll(s: Store, batch: seq<string>, now: int, s': Store) {
    && s'.runs.Keys == s.runs.Keys
    && (forall r :: r in batch && r in s.runs ==> s'.runs[r] == Swept(s, r, now))
    && (forall r :: r in s.runs && r !in batch ==> s'.runs[r] == s.runs[r])
  }

  /** The first run of a pass is swept and the others are as they were. */
  ghost predicate SweptFirst(s: Store, r: string, now: int, s1: Store) {
    && s1.runs.Keys == s.runs.Keys
    && (r in s.runs ==> s1.runs[r] == Swept(s, r, now))
    && (forall q :: q in s.runs && q != r ==> s1.runs[q] == s.runs[q] && (Unclaimed(s1, q) <==> Unclaimed(s, q)))
  }

  lemma AbandonFirst(s: Store, r: string, now: int)
    requires Storable(s) && r in s.runs && s.runs[r].life.status == Running
    ensures AbandonRun(s, r, now).Ok? && SweptFirst(s, r, now, AbandonRun(s, r, now).value)
  {
    AbandonOne(s, r, now);
    var s1 := AbandonRun(s, r, now).value;
    assert s1.runs.Keys == s.runs.Keys && s1.runs[r] == Swept(s, r, now);
    forall q | q in s.runs && q != r
      ensures s1.runs[q] == s.runs[q] && (Unclaimed(s1, q) <==> Unclaimed(s, q))
    {
      AbandonLeavesOthers(s, r, now, q);
    }
  }

  lemma SweptCompose(s: Store, r: string, rest: seq<string>, now: int, s1: Store, s': Store)
    requires SweptFirst(s, r, now, s1) && SweptAll(s1, rest, now, s') && r !in rest
    ensures SweptAll(s, [r] + rest, now, s')
  {
    assert forall q :: q in [r] + rest <==> q == r || q in rest;
    forall q | q in rest && q in s.runs ensures s'.runs[q] == Swept(s, q, now) {
      assert s1.runs[q] == s.runs[q];
    }
  }

  ghost predicate AllRunning(s: Store, batch: seq<string>) {
    && (forall i, j :: 0 <= i < j < |batch| ==> batch[i] != batch[j])
    && (forall r :: r in batch ==> r in s.runs && s.runs[r].life.status == Running)
  }

  lemma RestRunning(s: Store, batch: seq<string>, now: int, s1: Store)
    requires AllRunning(s, batch) && batch != [] && SweptFirst(s, batch[0], now, s1)
    ensures AllRunning(s1, batch[1..]) && batch[0] !in batch[1..] && batch == [batch[0]] + batch[1..]
  {
    forall q | q in batch[1..] ensures q in s1.runs && s1.runs[q].life.status == Running {
      assert q in batch && q != batch[0];
    }
  }

  /** A pass never fails. It ends every selected run whose reserved id is free with code
      lease_expired, and leaves every other run as it was. */
  lemma {:induction false} AbandonPass(s: Store, batch: seq<string>, now: int)
    requires Inv(s) && AllRunning(s, batch)
    ensures AbandonAll(s, batch, now).Ok? && Inv(AbandonAll(s, batch, now).value)
    ensures SweptAll(s, batch, now, AbandonAll(s, batch, now).value)
    decreases |batch|
  {
    if batch != [] {
      var r := batch[0];
      AbandonFirst(s, r, now);
      AbandonKeepsInv(s, r, now);
      var s1 := AbandonRun(s, r, now).value;
      RestRunning(s, batch, now, s1);
      AbandonPass(s1, batch[1..], now);
      SweptCompose(s, r, batch[1..], now, s1, AbandonAll(s1, batch[1..], now).value);
    }
  }
}
