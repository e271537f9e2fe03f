/** What every transaction keeps. Each predicate is one promise about the tables. */
module ConversationInvariants {
  import opened ConversationModel
  import opened ConversationReplay

  /******* The promises *******/

  /** Runs belong to their thread's tenant; messages belong to a run of their thread. */
  ghost predicate Owned(s: Store) {
    && (forall r :: r in s.runs ==>
          && s.runs[r].threadId in s.threads
          && s.runs[r].accountId == s.threads[s.runs[r].threadId].accountId
          && s.runs[r].projectId == s.threads[s.runs[r].threadId].projectId)
    && (forall m :: m in s.messages ==>
          s.messages[m].runId in s.runs && s.runs[s.messages[m].runId].threadId == s.messages[m].threadId)
  }

  ghost predicate GaplessThread(s: Store, t: string) {
    && (if t in s.threads then s.threads[t].nextSequence == |Log(s, t)| else Log(s, t) == [])
    && Numbered(Log(s, t))
    && (forall f :: f in Log(s, t) ==> f.threadId == t && f.runId in s.runs && s.runs[f.runId].threadId == t)
  }

  /** Position i of a log holds sequence i + 1, and its fact belongs to a run of the thread. */
  ghost predicate Gapless(s: Store) { forall t :: GaplessThread(s, t) }

  /** With the outbox on there is one row for every fact of every log, and no other. */
  ghost predicate Published(s: Store) {
    forall t: string, n: int :: (t, n) in s.outbox <==> s.cfg.eventOutbox && 1 <= n <= |Log(s, t)|
  }

  predicate Siblings(s: Store, q: string, r: string) {
    q in s.runs && r in s.runs && s.runs[q].threadId == s.runs[r].threadId
  }

  /** At most one run of a thread is running. */
  ghost predicate OneRunner(s: Store) {
    forall q, r | Siblings(s, q, r) :: s.runs[q].life.status == Running && s.runs[r].life.status == Running ==> q == r
  }

  /** A parked entry names a start that is in the log. */
  ghost predicate Queued(s: Store) {
    forall k :: k in s.deferred ==>
      && 1 <= k.1 <= |Log(s, k.0)|
      && Log(s, k.0)[k.1 - 1].body.eventType == RUN_STARTED
      && Log(s, k.0)[k.1 - 1].runId == s.deferred[k]
  }

  ghost predicate DistinctSources(log: seq<Fact>) {
    forall i, j :: 0 <= i < j < |log| && log[i].sourceEventId != "" ==> log[i].sourceEventId != log[j].sourceEventId
  }

  /** A source event id occurs once in a thread. */
  ghost predicate OnceOnly(s: Store) { forall t :: DistinctSources(Log(s, t)) }

  /** The source position of the run's last external fact, zero before the first. */
  function LastSource(log: seq<Fact>, r: string): int {
    if log == [] then 0
    else
      var f := log[|log| - 1];
      if f.runId == r && f.sourceEventId != "" then f.sourceSequence else LastSource(log[..|log| - 1], r)
  }

  ghost predicate SourceOrdered(log: seq<Fact>) {
    log == [] ||
    (var f := log[|log| - 1];
     SourceOrdered(log[..|log| - 1]) &&
     (f.sourceEventId != "" ==> f.sourceSequence > LastSource(log[..|log| - 1], f.runId)))
  }

  /** The stored cursor is the run's last source position, and positions only grow. */
  ghost predicate Cursors(s: Store) {
    && (forall t :: SourceOrdered(Log(s, t)))
    && (forall r :: r in s.runs ==> s.runs[r].cursor == LastSource(Log(s, s.runs[r].threadId), r))
  }

  /** An idempotency key admits one run per thread. */
  ghost predicate OneAdmission(s: Store) {
    forall q, r | Siblings(s, q, r) :: s.runs[q].idempotencyKey == s.runs[r].idempotencyKey ==> q == r
  }

  function Parked(s: Store, t: string): set<int> {
    set k | k in s.deferred && k.0 == t :: k.1
  }

  function MessagesOf(messages: map<string, Message>, t: string): map<string, Message> {
    map m | m in messages && messages[m].threadId == t :: messages[m]
  }

  /** The tables of a thread are the fold of its log, parked starts left out. */
  ghost predicate ReplaysThread(s: Store, t: string) {
    var v := Fold(Log(s, t), Parked(s, t));
    && (forall r :: r in s.runs && s.runs[r].threadId == t ==> s.runs[r].life == LifeIn(v, r))
    && (forall r :: r in v.lives ==> r in s.runs && s.runs[r].threadId == t)
    && MessagesOf(s.messages, t) == v.messages
  }

  ghost predicate Replays(s: Store) { forall t :: ReplaysThread(s, t) }

  /** An interrupt is resumed by at most one run of its thread. */
  ghost predicate OneResume(s: Store) {
    forall q, r | Siblings(s, q, r) :: s.runs[q].resumes != "" && s.runs[q].resumes == s.runs[r].resumes ==> q == r
  }

  /** An interrupted run names its interrupt and has said something the user can answer. */
  ghost predicate Interruptions(s: Store) {
    forall r :: r in s.runs && s.runs[r].life.status == Interrupted ==>
      s.runs[r].life.interrupt.Some? && s.runs[r].life.interrupt.value.id != "" && Spoke(s.messages, r)
  }

  predicate IsDelta(f: Fact, m: string) {
    f.body.eventType == MESSAGE_CONTENT && MessageId(f.body) == m
  }

  /** The trimmed deltas a run reported for a message, in order. */
  function Deltas(log: seq<Fact>, m: string, r: string): string {
    if log == [] then ""
    else
      var f := log[|log| - 1];
      Deltas(log[..|log| - 1], m, r) +
      (if IsDelta(f, m) && f.runId == r then StringValue(f.body.payload, "delta") else "")
  }

  /** An open message reads as the deltas its owner reported; deltas only follow a start. */
  ghost predicate Streams(s: Store) {
    && (forall m :: m in s.messages && s.messages[m].status == Streaming ==>
          s.messages[m].content == Deltas(Log(s, s.messages[m].threadId), m, s.messages[m].runId))
    && (forall t, f, m :: f in Log(s, t) && m !in s.messages ==> !IsDelta(f, m))
  }

  ghost predicate Inv(s: Store) {
    && Owned(s) && Gapless(s) && Published(s) && OneRunner(s) && Queued(s) && OnceOnly(s) && Cursors(s)
    && OneAdmission(s) && Replays(s) && OneResume(s) && Interruptions(s) && Streams(s)
  }

  /******* Lookups *******/

  lemma {:induction false} SourceLookup(log: seq<Fact>, source: string)
    ensures FindSource(log, source).None? <==> forall f :: f in log ==> f.sourceEventId != source
    ensures FindSource(log, source).Some? ==>
              FindSource(log, source).value in log && FindSource(log, source).value.sourceEventId == source
  {
    if log != [] {
      SourceLookup(log[1..], source);
      assert forall f :: f in log <==> f == log[0] || f in log[1..];
    }
  }

  lemma {:induction false} FactLookup(log: seq<Fact>, base: int, n: int)
    requires forall i :: 0 <= i < |log| ==> log[i].sequence == base + i
    ensures FactAt(log, n) == if base <= n < base + |log| then Some(log[n - base]) else None
  {
    if log != [] {
      FactLookup(log[1..], base + 1, n);
    }
  }

  lemma LogFactAt(s: Store, t: string, n: int)
    requires GaplessThread(s, t)
    ensures FactAt(Log(s, t), n) == if 1 <= n <= |Log(s, t)| then Some(Log(s, t)[n - 1]) else None
  {
    FactLookup(Log(s, t), 1, n);
  }

  lemma LastOfAppended(log: seq<Fact>, f: Fact, r: string)
    ensures LastSource(log + [f], r)
            == if f.runId == r && f.sourceEventId != "" then f.sourceSequence else LastSource(log, r)
    ensures SourceOrdered(log) && (f.sourceEventId != "" ==> f.sourceSequence > LastSource(log, f.runId)) ==>
              SourceOrdered(log + [f])
  {
    assert (log + [f])[..|log|] == log;
  }

  lemma DeltasOfAppended(log: seq<Fact>, f: Fact, m: string, r: string)
    ensures Deltas(log + [f], m, r) ==
              Deltas(log, m, r) + if IsDelta(f, m) && f.runId == r then StringValue(f.body.payload, "delta") else ""
  {
    assert (log + [f])[..|log|] == log;
  }

  lemma {:induction false} NoDeltas(log: seq<Fact>, m: string, r: string)
    requires forall f :: f in log ==> !IsDelta(f, m)
    ensures Deltas(log, m, r) == ""
  {
    if log != [] {
      NoDeltas(log[..|log| - 1], m, r);
      assert log[|log| - 1] in log;
    }
  }
}
