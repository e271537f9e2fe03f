/** Following a thread by paging through its stored facts while it grows. */
module ConversationSubscription {
  import opened Text
  import opened ConversationModel
  import opened ConversationReplay
  import opened ConversationInvariants
  import opened ConversationTheorems

  const EVENT_BATCH := 256

  function Max(a: int, b: int): int { if a > b then a else b }

  /** The facts beyond a sequence number, in the order of the log. */
  function EventsAfter(log: seq<Fact>, after: int): seq<Fact> {
    if log == [] then []
    else if log[0].sequence > after then [log[0]] + EventsAfter(log[1..], after)
    else EventsAfter(log[1..], after)
  }

  /** One page of the query. */
  function Page(log: seq<Fact>, after: int, limit: nat): seq<Fact> {
    var events := EventsAfter(log, after);
    if |events| <= limit then events else events[..limit]
  }

  lemma {:induction false} EventsAfterFrom(log: seq<Fact>, base: int, after: int)
    requires forall i :: 0 <= i < |log| ==> log[i].sequence == base + i
    ensures var from := Max(0, after + 1 - base);
            EventsAfter(log, after) == if from <= |log| then log[from..] else []
  {
    if log != [] {
      EventsAfterFrom(log[1..], base + 1, after);
    }
  }

  /** On a gapless log the query returns exactly the rest of the log. */
  lemma EventsAfterIsSuffix(log: seq<Fact>, after: int)
    requires Numbered(log)
    ensures EventsAfter(log, after) == if Max(after, 0) <= |log| then log[Max(after, 0)..] else []
  {
    EventsAfterFrom(log, 1, after);
  }

  /** A page is the piece of the log right after the cursor. */
  lemma PageIsPiece(log: seq<Fact>, after: int, page: seq<Fact>)
    requires Numbered(log) && page == Page(log, after, EVENT_BATCH)
    ensures page != [] ==> Max(after, 0) + |page| <= |log|
    ensures forall i :: 0 <= i < |page| ==> page[i] == log[Max(after, 0) + i]
  {
    EventsAfterIsSuffix(log, after);
  }

  /** Behind a short page there is nothing. */
  lemma PageIsLast(log: seq<Fact>, after: int, page: seq<Fact>, cursor: int)
    requires Numbered(log) && page == Page(log, after, EVENT_BATCH) && |page| < EVENT_BATCH
    requires cursor == if page == [] then after else Max(after, 0) + |page|
    ensures EventsAfter(log, cursor) == []
  {
    EventsAfterIsSuffix(log, after);
    EventsAfterIsSuffix(log, cursor);
  }

  /** The logs the queries of a polling loop see: gapless, and never shorter than before. */
  ghost predicate Growing(passes: seq<seq<seq<Fact>>>) {
    && (forall p, i :: 0 <= p < |passes| && 0 <= i < |passes[p]| ==> Numbered(passes[p][i]))
    && (forall p, i, j :: 0 <= p < |passes| && 0 <= i < j < |passes[p]| ==> passes[p][i] <= passes[p][j])
    && (forall p, q, i, j :: 0 <= p < q < |passes| && 0 <= i < |passes[p]| && 0 <= j < |passes[q]| ==>
          passes[p][i] <= passes[q][j])
  }

  /** A log read after all these queries. */
  ghost predicate Extends(passes: seq<seq<seq<Fact>>>, log: seq<Fact>) {
    forall p, i :: 0 <= p < |passes| && 0 <= i < |passes[p]| ==> passes[p][i] <= log
  }

  lemma LaterExtends(passes: seq<seq<seq<Fact>>>, p: int)
    requires Growing(passes) && 0 <= p < |passes| && passes[p] != []
    ensures Extends(passes[..p], passes[p][0])
  {}

  lemma ExtendsSome(passes: seq<seq<seq<Fact>>>, p: int, log: seq<Fact>)
    requires Extends(passes, log) && 0 <= p <= |passes|
    ensures Extends(passes[..p], log)
  {}

  lemma ExtendsFewer(passes: seq<seq<seq<Fact>>>, p: int, log: seq<Fact>)
    requires 0 <= p < |passes| && Extends(passes[..p + 1], log)
    ensures Extends(passes[..p], log) && forall i :: 0 <= i < |passes[p]| ==> passes[p][i] <= log
  {
    assert passes[..p + 1][p] == passes[p];
    assert passes[..p + 1][..p] == passes[..p];
    ExtendsSome(passes[..p + 1], p, log);
  }

  /** A subscriber: where it asked to start, what it was sent, and how far it has read. */
  class Subscriber {
    const after: int
    var sent: seq<Fact>
    var cursor: int

    /** Everything sent is the contiguous piece of the log between the start and the cursor. */
    ghost predicate Follows(log: seq<Fact>)
      reads this
    {
      if sent == [] then cursor == after
      else
        && cursor == Max(after, 0) + |sent| <= |log|
        && sent == log[Max(after, 0)..cursor]
    }

    constructor (after: int)
      ensures this.after == after && sent == [] && cursor == after
    {
      this.after, sent, cursor := after, [], after;
    }

    /** The next fact of the log extends what was sent by one. */
    lemma NextFact(log: seq<Fact>, f: Fact)
      requires Numbered(log) && Follows(log) && 1 <= f.sequence <= |log| && log[f.sequence - 1] == f
      requires f.sequence == Max(cursor, 0) + 1
      ensures sent + [f] == log[Max(after, 0)..f.sequence]
      ensures f.sequence == Max(after, 0) + |sent| + 1
    {}

    /** Sends a page fact by fact; the consumer can go away before any of them. */
    method SendPage(log: seq<Fact>, events: seq<Fact>, budget: nat) returns (open: bool, left: nat)
      requires Numbered(log) && Follows(log) && events == Page(log, cursor, EVENT_BATCH)
      modifies this
      ensures old(sent) <= sent && cursor >= old(cursor) && Follows(log)
      ensures open && |events| < EVENT_BATCH ==> EventsAfter(log, cursor) == []
      ensures |sent| - |old(sent)| + left == budget
      ensures if open then |sent| == |old(sent)| + |events| else left == 0
    {
      var i, start := 0, cursor;
      left := budget;
      PageIsPiece(log, start, events);
      while i < |events|
        invariant 0 <= i <= |events|
        invariant old(sent) <= sent && cursor >= start && Follows(log)
        invariant if i == 0 then cursor == start else cursor == Max(start, 0) + i
        invariant |sent| == |old(sent)| + i && left == budget - i
      {
        var f := events[i];
        assert f == log[Max(start, 0) + i];
        if f.sequence > cursor {
          if left == 0 { return false, left; }
          NextFact(log, f);
          sent, cursor, left := sent + [f], f.sequence, left - 1;
        }
        i := i + 1;
      }
      if |events| < EVENT_BATCH { PageIsLast(log, start, events, cursor); }
      return true, left;
    }

    /** Pages through the log until a short page. Each query may see a longer log than the one
        before; a query can fail and the consumer can go away at any point. On a short page the
        subscriber has been sent every fact the last query could see. */
    method CatchUp(views: seq<seq<Fact>>, budget: nat) returns (open: bool, seen: Option<nat>)
      requires forall i :: 0 <= i < |views| ==> Numbered(views[i])
      requires forall i, j :: 0 <= i < j < |views| ==> views[i] <= views[j]
      requires views != [] ==> Follows(views[0])
      modifies this
      ensures old(sent) <= sent && cursor >= old(cursor)
      ensures views != [] ==> Follows(views[|views| - 1])
      ensures views == [] ==> sent == old(sent) && cursor == old(cursor)
      ensures seen.Some? ==> open && seen.value < |views| && sent == EventsAfter(views[seen.value], after)
      ensures !open ==> |sent| == |old(sent)| + budget
      ensures open && seen.None? ==> |sent| == |old(sent)| + EVENT_BATCH * |views|
    {
      var q, left := 0, budget;
      open, seen := true, None;
      while q < |views|
        invariant 0 <= q <= |views| && open && seen == None
        invariant old(sent) <= sent && cursor >= old(cursor)
        invariant if q < |views| then Follows(views[q]) else views != [] ==> Follows(views[q - 1])
        invariant q == 0 ==> sent == old(sent) && cursor == old(cursor)
        invariant |sent| == |old(sent)| + EVENT_BATCH * q && left == budget - EVENT_BATCH * q
      {
        var events := Page(views[q], cursor, EVENT_BATCH);
        open, left := SendPage(views[q], events, left);
        FollowsLonger(views, q);
        if !open { return; }
        if |events| < EVENT_BATCH {
          SentAll(views[q]);
          return true, Some(q);
        }
        q := q + 1;
      }
    }

    /** What was sent stays right when the log grows. */
    lemma FollowsLonger(views: seq<seq<Fact>>, q: int)
      requires forall i, j :: 0 <= i < j < |views| ==> views[i] <= views[j]
      requires 0 <= q < |views| && Follows(views[q])
      ensures forall i :: q <= i < |views| ==> Follows(views[i])
    {}

    lemma FollowsOn(log: seq<Fact>, log': seq<Fact>)
      requires Follows(log) && log <= log'
      ensures Follows(log')
    {}

    /** One pass of the polling loop. */
    method Pass(passes: seq<seq<seq<Fact>>>, p: nat, budget: nat) returns (open: bool, seen: Option<nat>)
      requires Growing(passes) && p < |passes| && forall log :: Extends(passes[..p], log) ==> Follows(log)
      modifies this
      ensures forall log :: Extends(passes[..p + 1], log) ==> Follows(log)
      ensures seen.Some? ==> open && seen.value < |passes[p]| && sent == EventsAfter(passes[p][seen.value], after)
      ensures !open ==> budget <= |sent|
      ensures open && seen.None? ==> |sent| >= EVENT_BATCH * |passes[p]|
    {
      var views := passes[p];
      if views != [] { LaterExtends(passes, p); }
      open, seen := CatchUp(views, budget);
      forall log | Extends(passes[..p + 1], log) ensures Follows(log) {
        ExtendsFewer(passes, p, log);
        if views != [] { FollowsOn(views[|views| - 1], log); }
      }
    }

    /** The polling loop: one catch-up pass after the other, each over the logs its queries see.
        The subscriber has been sent a contiguous piece of every later log, and after a last pass
        that ended on a short page, all that its last query could see. */
    method Follow(passes: seq<seq<seq<Fact>>>, budgets: seq<nat>) returns (open: bool, seen: Option<nat>)
      requires |budgets| == |passes| && Growing(passes) && sent == [] && cursor == after
      modifies this
      ensures forall log :: Extends(passes, log) ==> Follows(log)
      ensures seen.Some? ==> open && passes != [] && seen.value < |passes[|passes| - 1]|
                             && sent == EventsAfter(passes[|passes| - 1][seen.value], after)
      ensures !open ==> exists p :: 0 <= p < |passes| && budgets[p] <= |sent|
      ensures open && seen.None? && passes != [] ==> |sent| >= EVENT_BATCH * |passes[|passes| - 1]|
    {
      var p := 0;
      open, seen := true, None;
      while p < |passes|
        invariant 0 <= p <= |passes| && open
        invariant forall log :: Extends(passes[..p], log) ==> Follows(log)
        invariant seen.Some? ==>
                    p > 0 && seen.value < |passes[p - 1]| && sent == EventsAfter(passes[p - 1][seen.value], after)
        invariant seen.None? && p > 0 ==> |sent| >= EVENT_BATCH * |passes[p - 1]|
      {
        open, seen := Pass(passes, p, budgets[p]);
        if !open {
          forall log | Extends(passes, log) ensures Follows(log) { ExtendsSome(passes, p + 1, log); }
          return;
        }
        p := p + 1;
      }
      assert passes[..p] == passes;
    }

    lemma SentAll(log: seq<Fact>)
      requires Numbered(log) && Follows(log) && EventsAfter(log, cursor) == []
      ensures sent == EventsAfter(log, after)
    {
      EventsAfterIsSuffix(log, cursor);
      EventsAfterIsSuffix(log, after);
    }
  }

  /******* Snapshots *******/

  function EventLimit(requested: int): nat {
    if requested <= 0 || requested > 1000 then 200 else requested
  }

  /** The last facts of a log, oldest first. */
  function RecentEvents(log: seq<Fact>, limit: nat): seq<Fact> {
    if |log| <= limit then log else log[|log| - limit..]
  }

  /** A read of the thread: its recent facts and the cursor to follow it from. */
  function Snapshot(s: Store, t: string, accountId: string, projectId: string, limit: int): Result<(seq<Fact>, int)> {
    if TrimSpace(t) == "" || TrimSpace(accountId) == "" || TrimSpace(projectId) == "" then Err(InvalidConversation)
    else if t in s.threads && s.threads[t].accountId == accountId && s.threads[t].projectId == projectId then
      Ok((RecentEvents(Log(s, t), EventLimit(limit)), s.threads[t].nextSequence))
    else Err(ThreadNotFound)
  }

  function Smaller(a: int, b: int): int { if a < b then a else b }

  /** The thread exists and belongs to the tenant who asks. */
  predicate Reading(s: Store, t: string, accountId: string, projectId: string) {
    t in s.threads && s.threads[t].accountId == accountId && s.threads[t].projectId == projectId
  }

  /** A thread can be read if and only if it exists and belongs to the tenant who asks. */
  lemma SnapshotIff(s: Store, t: string, accountId: string, projectId: string, limit: int)
    requires TrimSpace(t) != "" && TrimSpace(accountId) != "" && TrimSpace(projectId) != ""
    ensures Snapshot(s, t, accountId, projectId, limit).Ok? <==> Reading(s, t, accountId, projectId)
    ensures Snapshot(s, t, accountId, projectId, limit).Err? ==>
              Snapshot(s, t, accountId, projectId, limit) == Err(ThreadNotFound)
  {}

  /** A snapshot followed by everything after its cursor, read at any later time, is one
      contiguous piece of the log that ends where the log ends: no gap, no repeat. */
  lemma SnapshotThenFollow(cfg: Config, before: seq<Action>, after: seq<Action>, t: string, accountId: string,
                           projectId: string, limit: int)
    requires Snapshot(Reached(cfg, before), t, accountId, projectId, limit).Ok?
    ensures Reading(Reached(cfg, before), t, accountId, projectId)
    ensures var (recent, cursor) := Snapshot(Reached(cfg, before), t, accountId, projectId, limit).value;
            var log := Log(Reached(cfg, before + after), t);
            && |recent| <= cursor <= |log|
            && |recent| == Smaller(cursor, if 1 <= limit <= 1000 then limit else 200)
            && recent + EventsAfter(log, cursor) == log[cursor - |recent|..]
            && forall i :: cursor - |recent| <= i < |log| ==> log[i].sequence == i + 1
  {
    var s, s' := Reached(cfg, before), Reached(cfg, before + after);
    assert GaplessThread(s, t) && GaplessThread(s', t) by {
      ReachedInv(cfg, before);
      ReachedInv(cfg, before + after);
    }
    assert Log(s, t) <= Log(s', t) by { HistoryIsKept(cfg, before, after); }
    RecentThenLater(Log(s, t), Log(s', t), EventLimit(limit));
  }

  lemma RecentThenLater(log: seq<Fact>, log': seq<Fact>, limit: nat)
    requires Numbered(log') && log <= log'
    ensures var recent := RecentEvents(log, limit); recent + EventsAfter(log', |log|) == log'[|log| - |recent|..]
  {
    EventsAfterIsSuffix(log', |log|);
  }

  /******* Subscriptions to a running system *******/

  /** The log of a thread as each query finds it: after some number of steps of one run, never
      fewer than the query before. */
  ghost predicate Seen(cfg: Config, trace: seq<Action>, t: string, passes: seq<seq<seq<Fact>>>, ends: seq<seq<nat>>) {
    && |ends| == |passes|
    && (forall p :: 0 <= p < |passes| ==> |ends[p]| == |passes[p]|)
    && (forall p, i :: 0 <= p < |passes| && 0 <= i < |passes[p]| ==>
          ends[p][i] <= |trace| && passes[p][i] == Log(Reached(cfg, trace[..ends[p][i]]), t))
    && (forall p, i, j :: 0 <= p < |passes| && 0 <= i < j < |passes[p]| ==> ends[p][i] <= ends[p][j])
    && (forall p, q, i, j :: 0 <= p < q < |passes| && 0 <= i < |passes[p]| && 0 <= j < |passes[q]| ==>
          ends[p][i] <= ends[q][j])
  }

  lemma LogGrows(cfg: Config, trace: seq<Action>, t: string, m: nat, n: nat)
    requires m <= n <= |trace|
    ensures Log(Reached(cfg, trace[..m]), t) <= Log(Reached(cfg, trace[..n]), t)
    ensures Numbered(Log(Reached(cfg, trace[..m]), t))
  {
    assert trace[..m] + trace[m..n] == trace[..n];
    HistoryIsKept(cfg, trace[..m], trace[m..n]);
    assert GaplessThread(Reached(cfg, trace[..m]), t) by { ReachedInv(cfg, trace[..m]); }
  }

  /** The logs of any run of the system are as a polling loop needs them. */
  lemma SeenIsGrowing(cfg: Config, trace: seq<Action>, t: string, passes: seq<seq<seq<Fact>>>, ends: seq<seq<nat>>)
    requires Seen(cfg, trace, t, passes, ends)
    ensures Growing(passes) && Extends(passes, Log(Reached(cfg, trace), t))
  {
    assert trace[..|trace|] == trace;
    forall p, i | 0 <= p < |passes| && 0 <= i < |passes[p]|
      ensures Numbered(passes[p][i]) && passes[p][i] <= Log(Reached(cfg, trace), t)
    {
      LogGrows(cfg, trace, t, ends[p][i], |trace|);
    }
    forall p, i, j | 0 <= p < |passes| && 0 <= i < j < |passes[p]| ensures passes[p][i] <= passes[p][j] {
      LogGrows(cfg, trace, t, ends[p][i], ends[p][j]);
    }
    forall p, q, i, j | 0 <= p < q < |passes| && 0 <= i < |passes[p]| && 0 <= j < |passes[q]|
      ensures passes[p][i] <= passes[q][j]
    {
      LogGrows(cfg, trace, t, ends[p][i], ends[q][j]);
    }
  }

  /** However a run of the system and the queries of a subscriber interleave, what the subscriber
      is sent is the piece of the thread's log that begins after its start: consecutive sequence
      numbers, no gap and no repeat, and the cursor is the last of them. After a pass that ended on
      a short page, nothing its last query could see is missing; a last pass ends so unless its
      consumer went away or all of its pages were full. */
  method SubscribeThread(ghost cfg: Config, ghost trace: seq<Action>, ghost t: string, ghost ends: seq<seq<nat>>,
                         after: int, passes: seq<seq<seq<Fact>>>, budgets: seq<nat>)
    returns (sent: seq<Fact>, cursor: int, seen: Option<nat>)
    requires Seen(cfg, trace, t, passes, ends) && |budgets| == |passes|
    ensures sent == [] ==> cursor == after
    ensures sent != [] ==> cursor == Max(after, 0) + |sent| <= |Log(Reached(cfg, trace), t)|
                           && sent == Log(Reached(cfg, trace), t)[Max(after, 0)..cursor]
    ensures forall i :: 0 <= i < |sent| ==> sent[i].sequence == Max(after, 0) + 1 + i
    ensures seen.Some? ==> passes != [] && seen.value < |passes[|passes| - 1]|
                           && sent == EventsAfter(passes[|passes| - 1][seen.value], after)
    ensures seen.None? && passes != [] ==>
              (exists p :: 0 <= p < |passes| && budgets[p] <= |sent|) || |sent| >= 256 * |passes[|passes| - 1]|
  {
    SeenIsGrowing(cfg, trace, t, passes, ends);
    ghost var log := Log(Reached(cfg, trace), t);
    assert Numbered(log) by {
      assert trace[..|trace|] == trace;
      LogGrows(cfg, trace, t, |trace|, |trace|);
    }
    var subscriber := new Subscriber(after);
    var open;
    open, seen := subscriber.Follow(passes, budgets);
    assert subscriber.Follows(log);
    sent, cursor := subscriber.sent, subscriber.cursor;
    assert forall i :: 0 <= i < |sent| ==> sent[i] == log[Max(after, 0) + i];
  }
}
