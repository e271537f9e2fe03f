/** The meaning of a stored history: a left fold of the thread's log that knows nothing of
    guards, transactions or the order in which parked starts were applied. */
module ConversationReplay {
  import opened ConversationModel

  /** What a log says: the lifecycles of the runs that moved, and the messages.
      A run without an entry is still as it was admitted. */
  datatype View = View(lives: map<string, Lifecycle>, messages: map<string, Message>)

  function LifeIn(v: View, r: string): Lifecycle {
    if r in v.lives then v.lives[r] else ADMITTED
  }

  function LifeAfter(life: Lifecycle, b: Body): Lifecycle {
    if b.eventType == RUN_STARTED then Started(life, b.occurredAt)
    else if b.eventType == RUN_ERROR then Errored(life, b)
    else
      match OutcomeStatus(StringValue(b.payload, "outcome"))
      case Some(status) => Finished(life, status, b)
      case None => life.(status := Failed)
  }

  /** A message is opened once, grows by the trimmed deltas of its owner while it streams, and is closed once. */
  function MessagesAfter(messages: map<string, Message>, f: Fact): map<string, Message> {
    var b, id := f.body, MessageId(f.body);
    if b.eventType == MESSAGE_START then
      if id in messages then messages
      else messages[id := Message(f.threadId, f.runId, f.processId, StringValue(b.payload, "role"), "", Streaming,
                                  b.occurredAt, None)]
    else if id !in messages || messages[id].status != Streaming then messages
    else if b.eventType == MESSAGE_END then messages[id := Close(messages[id], b)]
    else if messages[id].runId == f.runId then
      messages[id := messages[id].(content := messages[id].content + StringValue(b.payload, "delta"))]
    else messages
  }

  predicate Skipped(f: Fact, parked: set<int>) {
    f.body.eventType == RUN_STARTED && f.sequence in parked
  }

  function After(v: View, f: Fact, parked: set<int>): View {
    if Skipped(f, parked) then v
    else if MovesRun(f.body.eventType) then v.(lives := v.lives[f.runId := LifeAfter(LifeIn(v, f.runId), f.body)])
    else if MovesMessage(f.body.eventType) then v.(messages := MessagesAfter(v.messages, f))
    else v
  }

  /** The fold of a log in sequence order, leaving out the parked starts. */
  function Fold(log: seq<Fact>, parked: set<int>): View {
    if log == [] then View(map[], map[]) else After(Fold(log[..|log| - 1], parked), log[|log| - 1], parked)
  }

  lemma FoldAppend(log: seq<Fact>, f: Fact, parked: set<int>)
    ensures Fold(log + [f], parked) == After(Fold(log, parked), f, parked)
  {
    assert (log + [f])[..|log|] == log;
  }

  /** A sequence number the log does not contain can be parked or not. */
  lemma {:induction false} FoldIgnoresUnused(log: seq<Fact>, parked: set<int>, n: int)
    requires forall f :: f in log ==> f.sequence != n
    ensures Fold(log, parked + {n}) == Fold(log, parked)
  {
    if log != [] {
      FoldIgnoresUnused(log[..|log| - 1], parked, n);
      assert log[|log| - 1] in log;
    }
  }

  /** An entry of the fold has left the admitted state for good. */
  lemma {:induction false} FoldedLivesMoved(log: seq<Fact>, parked: set<int>, r: string)
    requires r in Fold(log, parked).lives
    ensures Fold(log, parked).lives[r].status != Pending
  {
    var prefix, f := log[..|log| - 1], log[|log| - 1];
    if r in Fold(prefix, parked).lives {
      FoldedLivesMoved(prefix, parked, r);
    }
  }

  predicate Numbered(log: seq<Fact>) {
    forall i :: 0 <= i < |log| ==> log[i].sequence == i + 1
  }

  /** Applying a parked start late is folding it at its own place: nothing the run did in
      between can have moved it. */
  lemma {:induction false} LateStartIsInPlace(log: seq<Fact>, parked: set<int>, n: int)
    requires Numbered(log) && 1 <= n <= |log| && n in parked
    requires log[n - 1].body.eventType == RUN_STARTED
    requires log[n - 1].runId !in Fold(log, parked).lives
    ensures var r, b := log[n - 1].runId, log[n - 1].body;
            var v := Fold(log, parked);
            Fold(log, parked - {n}) == v.(lives := v.lives[r := Started(ADMITTED, b.occurredAt)])
  {
    var prefix, f := log[..|log| - 1], log[|log| - 1];
    var r := log[n - 1].runId;
    if n == |log| {
      FoldIgnoresUnused(prefix, parked - {n}, n);
      assert parked - {n} + {n} == parked;
    } else {
      assert r !in Fold(prefix, parked).lives;
      LateStartIsInPlace(prefix, parked, n);
      var v, v' := Fold(prefix, parked), Fold(prefix, parked - {n});
      if MovesRun(f.body.eventType) && !Skipped(f, parked) {
        assert f.runId != r;
        assert LifeIn(v', f.runId) == LifeIn(v, f.runId);
      }
    }
  }
}
