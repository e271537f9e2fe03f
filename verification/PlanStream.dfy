/** Subscribing to a plan: stored events are replayed, events stored while the live feed was being
    opened are caught up, and the live feed is filtered to what comes after. */
module PlanStream {

  datatype PlanEvent = PlanEvent(sequence: int, plan: string, account: string, project: string, node: string,
                                 run: string, payload: string)

  datatype Scope = Scope(plan: string, account: string, project: string, node: string, run: string, after: int)

  predicate Matches(e: PlanEvent, scope: Scope) {
    && e.plan == scope.plan && e.account == scope.account && e.project == scope.project
    && (scope.node == "" || e.node == scope.node) && (scope.run == "" || e.run == scope.run)
  }

  /** The events of a scope after a sequence: what a list of the store returns, and what passes
      the filter on the live feed. */
  function Select(events: seq<PlanEvent>, scope: Scope, after: int): seq<PlanEvent> {
    if events == [] then []
    else
      var e := events[|events| - 1];
      Select(events[..|events| - 1], scope, after) + if e.sequence > after && Matches(e, scope) then [e] else []
  }

  /** The store assigns sequences in commit order. */
  ghost predicate Ordered(log: seq<PlanEvent>) {
    forall i, j :: 0 <= i < j < |log| ==> log[i].sequence < log[j].sequence
  }

  function Last(after: int, events: seq<PlanEvent>): int {
    if events == [] then after
    else
      var last, e := Last(after, events[..|events| - 1]), events[|events| - 1];
      if e.sequence > last then e.sequence else last
  }

  /******* Laws *******/

  lemma {:induction false} SelectAppend(a: seq<PlanEvent>, b: seq<PlanEvent>, scope: Scope, after: int)
    ensures Select(a + b, scope, after) == Select(a, scope, after) + Select(b, scope, after)
    decreases |b|
  {
    if b == [] {
      assert a + b == a;
    } else {
      var init := b[..|b| - 1];
      SelectAppend(a, init, scope, after);
      assert (a + b)[..|a + b| - 1] == a + init;
    }
  }

  /** The last sequence is one of the events' or the one started from, and bounds them all. */
  lemma {:induction false} LastBounds(after: int, events: seq<PlanEvent>)
    ensures Last(after, events) >= after && forall e :: e in events ==> e.sequence <= Last(after, events)
    ensures Last(after, events) == after || exists e :: e in events && e.sequence == Last(after, events)
  {
    if events != [] {
      var init, e := events[..|events| - 1], events[|events| - 1];
      LastBounds(after, init);
      assert events == init + [e];
    }
  }

  lemma {:induction false} SelectMembers(events: seq<PlanEvent>, scope: Scope, after: int)
    ensures forall e :: e in Select(events, scope, after) <==> e in events && e.sequence > after && Matches(e, scope)
  {
    if events != [] {
      var init, e := events[..|events| - 1], events[|events| - 1];
      SelectMembers(init, scope, after);
      assert events == init + [e];
    }
  }

  lemma {:induction false} SelectNone(events: seq<PlanEvent>, scope: Scope, after: int)
    requires forall e :: e in events && Matches(e, scope) ==> e.sequence <= after
    ensures Select(events, scope, after) == []
  {
    if events != [] {
      var init, e := events[..|events| - 1], events[|events| - 1];
      assert events == init + [e];
      SelectNone(init, scope, after);
    }
  }

  /** Two cursors select the same events if no event of the scope lies between them. */
  lemma {:induction false} SelectSame(events: seq<PlanEvent>, scope: Scope, after: int, after': int)
    requires forall e :: e in events ==> (e.sequence > after <==> e.sequence > after')
    ensures Select(events, scope, after) == Select(events, scope, after')
  {
    if events != [] {
      var init, e := events[..|events| - 1], events[|events| - 1];
      assert events == init + [e];
      SelectSame(init, scope, after, after');
    }
  }

  /** Listing a grown log from the last sequence listed before gives exactly the new events. */
  lemma ListFromLast(log: seq<PlanEvent>, tail: seq<PlanEvent>, scope: Scope, after: int)
    requires Ordered(log + tail)
    ensures var last := Last(after, Select(log, scope, after));
            Select(log + tail, scope, last) == Select(tail, scope, after)
  {
    var listed := Select(log, scope, after);
    var last := Last(after, listed);
    LastBounds(after, listed);
    SelectMembers(log, scope, after);
    SelectAppend(log, tail, scope, last);
    SelectNone(log, scope, last);
    forall e | e in tail ensures e.sequence > after <==> e.sequence > last {
      if e.sequence > after && last != after {
        var d :| d in listed && d.sequence == last;
        var i :| 0 <= i < |log| && log[i] == d;
        var j :| 0 <= j < |tail| && tail[j] == e;
        assert (log + tail)[i] == d && (log + tail)[|log| + j] == e;
      }
    }
    SelectSame(tail, scope, last, after);
  }

  lemma {:induction false} LastAppend(after: int, a: seq<PlanEvent>, b: seq<PlanEvent>)
    ensures Last(Last(after, a), b) == Last(after, a + b)
    decreases |b|
  {
    if b == [] {
      assert a + b == a;
    } else {
      var init := b[..|b| - 1];
      LastAppend(after, a, init);
      assert (a + b)[..|a + b| - 1] == a + init;
    }
  }

  /** Replay and catch-up together are one list of the log as it was at the catch-up. */
  lemma CatchUpIsExact(log: seq<PlanEvent>, during: seq<PlanEvent>, scope: Scope, after: int)
    requires Ordered(log + during)
    ensures var replay := Select(log, scope, after);
            var caughtUp := Select(log + during, scope, Last(after, replay));
            && replay + caughtUp == Select(log + during, scope, after)
            && Last(Last(after, replay), caughtUp) == Last(after, Select(log + during, scope, after))
  {
    ListFromLast(log, during, scope, after);
    SelectAppend(log, during, scope, after);
    LastAppend(after, Select(log, scope, after), Select(during, scope, after));
  }

  /** What the feed repeats of the listed log is filtered out, and what follows is let through. */
  lemma FeedIsExact(stored: seq<PlanEvent>, later: seq<PlanEvent>, repeated: nat, scope: Scope, after: int)
    requires Ordered(stored + later) && repeated <= |stored|
    ensures var last := Last(after, Select(stored, scope, after));
            Select((stored + later)[repeated..], scope, last) == Select(later, scope, after)
  {
    var listed := Select(stored, scope, after);
    var last := Last(after, listed);
    LastBounds(after, listed);
    SelectMembers(stored, scope, after);
    assert (stored + later)[repeated..] == stored[repeated..] + later;
    SelectAppend(stored[repeated..], later, scope, last);
    SelectNone(stored[repeated..], scope, last);
    ListFromLast(stored, later, scope, after);
    SelectAppend(stored, later, scope, last);
    SelectNone(stored, scope, last);
  }

  /** A feed that already applies the scope and the replayed sequence passes the same events. */
  lemma {:induction false} PrefilteredFeed(feed: seq<PlanEvent>, scope: Scope, replayed: int, last: int)
    requires replayed <= last
    ensures Select(Select(feed, scope, replayed), scope, last) == Select(feed, scope, last)
  {
    if feed != [] {
      var init, e := feed[..|feed| - 1], feed[|feed| - 1];
      PrefilteredFeed(init, scope, replayed, last);
      SelectAppend(Select(init, scope, replayed), if e.sequence > replayed && Matches(e, scope) then [e] else [],
                   scope, last);
      assert Select([e], scope, last) == if e.sequence > last && Matches(e, scope) then [e] else [];
    }
  }

  /** Wherever appends fall between the first list, the opening of the live feed and the second
      list, and however much before the second list the feed still repeats: replay, catch-up and
      filtered feed are the events of the scope after the cursor, each once, in order. */
  lemma HandoffIsExact(log: seq<PlanEvent>, during: seq<PlanEvent>, later: seq<PlanEvent>, repeated: nat, scope: Scope)
    requires Ordered(log + during + later) && repeated <= |log + during|
    ensures var replay := Select(log, scope, scope.after);
            var replayed := Last(scope.after, replay);
            var caughtUp := Select(log + during, scope, replayed);
            var feed := (log + during + later)[repeated..];
            replay + caughtUp + Select(feed, scope, Last(replayed, caughtUp))
            == Select(log + during + later, scope, scope.after)
  {
    var stored := log + during;
    assert Ordered(stored) by {
      forall i, j | 0 <= i < j < |stored| ensures stored[i].sequence < stored[j].sequence {
        assert stored[i] == (stored + later)[i] && stored[j] == (stored + later)[j];
      }
    }
    CatchUpIsExact(log, during, scope, scope.after);
    FeedIsExact(stored, later, repeated, scope, scope.after);
    SelectAppend(stored, later, scope, scope.after);
  }

  /******* The loops *******/

  method LastPlanEventSequence(after: int, events: seq<PlanEvent>) returns (last: int)
    ensures last == Last(after, events)
  {
    last := after;
    var i := 0;
    while i < |events|
      invariant 0 <= i <= |events| && last == Last(after, events[..i])
    {
      assert events[..i + 1][..i] == events[..i];
      if events[i].sequence > last { last := events[i].sequence; }
      i := i + 1;
    }
    assert events[..i] == events;
  }

  function Take(events: seq<PlanEvent>, n: nat): seq<PlanEvent> { if n < |events| then events[..n] else events }

  /** A subscription whose consumer closes it after a number of events. */
  class Subscription {
    var sent: seq<PlanEvent>
    const closeAfter: nat

    constructor (closeAfter: nat)
      ensures this.closeAfter == closeAfter && sent == []
    {
      this.closeAfter, sent := closeAfter, [];
    }

    /** Sends stored events until they are through or the consumer has closed. */
    method ReplayPlanEvents(events: seq<PlanEvent>) returns (finished: bool)
      requires |sent| <= closeAfter
      modifies this
      ensures sent == Take(old(sent) + events, closeAfter)
      ensures finished <==> |old(sent) + events| <= closeAfter
    {
      var i := 0;
      while i < |events|
        invariant 0 <= i <= |events| && sent == old(sent) + events[..i] && |sent| <= closeAfter
      {
        if |sent| == closeAfter {
          assert (old(sent) + events)[..closeAfter] == old(sent) + events[..i];
          return false;
        }
        sent := sent + [events[i]];
        i := i + 1;
      }
      assert events[..i] == events;
      return true;
    }

    /** Sends what the live feed yields after a sequence, within the scope. */
    method ForwardLivePlanEvents(feed: seq<PlanEvent>, scope: Scope, liveAfter: int)
      requires |sent| <= closeAfter
      modifies this
      ensures sent == Take(old(sent) + Select(feed, scope, liveAfter), closeAfter)
    {
      var i := 0;
      while i < |feed|
        invariant 0 <= i <= |feed| && |sent| <= closeAfter
        invariant sent == old(sent) + Select(feed[..i], scope, liveAfter)
      {
        assert feed[..i + 1][..i] == feed[..i];
        if feed[i].sequence > liveAfter && Matches(feed[i], scope) {
          if |sent| == closeAfter {
            assert feed == feed[..i] + feed[i..];
            SelectAppend(feed[..i], feed[i..], scope, liveAfter);
            assert (old(sent) + Select(feed, scope, liveAfter))[..closeAfter] == sent;
            return;
          }
          sent := sent + [feed[i]];
        }
        i := i + 1;
      }
      assert feed[..i] == feed;
    }

    /** SubscribePlan over a log that grows between its steps. A consumer that never closes gets
        exactly the events of the scope after its cursor; one that closes gets a prefix of them. */
    method SubscribePlan(scope: Scope, log: seq<PlanEvent>, during: seq<PlanEvent>, later: seq<PlanEvent>,
                         repeated: nat)
      requires Ordered(log + during + later) && repeated <= |log + during| && sent == []
      modifies this
      ensures sent == Take(Select(log + during + later, scope, scope.after), closeAfter)
    {
      HandoffIsExact(log, during, later, repeated, scope);
      var events := Select(log, scope, scope.after);
      var replayed := LastPlanEventSequence(scope.after, events);
      var caughtUp := Select(log + during, scope, replayed);
      var liveAfter := LastPlanEventSequence(replayed, caughtUp);
      var finished := ReplayPlanEvents(events + caughtUp);
      assert [] + (events + caughtUp) == events + caughtUp;
      if finished {
        ForwardLivePlanEvents((log + during + later)[repeated..], scope, liveAfter);
      }
    }
  }

  /** An event is delivered if and only if it is stored after the cursor, for the plan and tenant of
      the scope, and for its node and run where the scope names them. */
  lemma DeliveredIff(log: seq<PlanEvent>, scope: Scope, e: PlanEvent)
    ensures e in Select(log, scope, scope.after) <==>
              && e in log && e.sequence > scope.after
              && e.plan == scope.plan && e.account == scope.account && e.project == scope.project
              && (scope.node != "" ==> e.node == scope.node) && (scope.run != "" ==> e.run == scope.run)
  {
    SelectMembers(log, scope, scope.after);
  }

  /** What is delivered is in strictly ascending order. */
  lemma {:induction false} SelectOrdered(log: seq<PlanEvent>, scope: Scope, after: int)
    requires Ordered(log)
    ensures Ordered(Select(log, scope, after))
  {
    if log != [] {
      var init, e := log[..|log| - 1], log[|log| - 1];
      SelectOrdered(init, scope, after);
      SelectMembers(init, scope, after);
      var selected := Select(init, scope, after);
      forall i | 0 <= i < |selected| ensures selected[i].sequence < e.sequence {
        assert selected[i] in selected;
        var j :| 0 <= j < |init| && init[j] == selected[i];
        assert log[j] == selected[i];
      }
    }
  }
}
