/** The timers of a process over its chain of continuations. */
module ProcessTimers {
  import opened Arithmetic
  import opened Timestamps

  /** A timer as specified: at a fixed time or, if that is the zero time, some seconds after the
      process started. */
  datatype TimerSpec = TimerSpec(id: string, fireAt: Moment, afterSeconds: int)

  datatype Timer = Timer(spec: TimerSpec, at: Moment, fired: bool)

  /** The workflow's clock counts nanoseconds; a calendar writes its instants as times in UTC. */
  type UtcMoment = t: Time | Real(t) && t.offset == 0 witness ZERO

  type Calendar = int -> UtcMoment

  function DueTime(spec: TimerSpec, now: int, calendar: Calendar): Moment {
    if IsZero(spec.fireAt) then calendar(now + spec.afterSeconds * SECOND) else spec.fireAt
  }

  /** The timers of an execution: the carried ones, or, if none are carried, new ones counted
      from the current time. */
  function Timers(carried: seq<Timer>, specs: seq<TimerSpec>, now: int, calendar: Calendar): seq<Timer> {
    if carried != [] then carried
    else seq(|specs|, i requires 0 <= i < |specs| => Timer(specs[i], DueTime(specs[i], now, calendar), false))
  }

  /** The timers that get a future. */
  function Armed(timers: seq<Timer>): set<nat> { set i: nat | i < |timers| && !timers[i].fired }

  /******* The input of the next execution *******/

  /** A time field of the input, written as text and read back; the zero instant is left out. */
  function Carried(t: Moment): Parsed { if IsZero(t) then Parsed(ZERO) else Parse(Format(t)) }

  datatype Reading = Read(timers: seq<Timer>) | Unreadable

  function Reread(timers: seq<Timer>): Reading {
    if timers == [] then Read([])
    else
      var init, timer := timers[..|timers| - 1], timers[|timers| - 1];
      match (Reread(init), Carried(timer.at), Carried(timer.spec.fireAt))
      case (Read(carried), Parsed(at), Parsed(fireAt)) =>
        Read(carried + [Timer(timer.spec.(fireAt := fireAt), at, timer.fired)])
      case _ => Unreadable
  }

  /** What a timer is after it was carried. */
  function Kept(timer: Timer): Timer {
    Timer(timer.spec.(fireAt := Normal(timer.spec.fireAt)), Normal(timer.at), timer.fired)
  }

  lemma CarriedIsNormal(t: Moment)
    ensures Carried(t) == Parsed(Normal(t))
  {
    TimeRoundTrip(t);
  }

  /** The input can always be read, and every timer comes back. */
  lemma {:induction false} RereadKeeps(timers: seq<Timer>)
    ensures Reread(timers).Read? && |Reread(timers).timers| == |timers|
    ensures forall i :: 0 <= i < |timers| ==> Reread(timers).timers[i] == Kept(timers[i])
  {
    if timers != [] {
      var timer := timers[|timers| - 1];
      RereadKeeps(timers[..|timers| - 1]);
      CarriedIsNormal(timer.at);
      CarriedIsNormal(timer.spec.fireAt);
    }
  }

  /** A due time is carried exactly: if it is the zero instant at all, it is the zero time in UTC. */
  lemma DueIsNormal(spec: TimerSpec, now: int, calendar: Calendar)
    ensures Normal(DueTime(spec, now, calendar)) == DueTime(spec, now, calendar)
  {}

  /******* Chains of executions *******/

  /** How an activity or a received message leaves the process. */
  datatype Outcome = Running | Terminal

  /** A request of the fire activity, and the key of the signal it sends. */
  datatype Request = Request(timer: nat, key: string)

  /** The key of a firing, with its due time as text. */
  function Key(process: string, id: string, at: Moment): string { process + ":timer:" + (id + ":" + Format(at)) }

  /** The state of a chain: the current execution's timers and pending futures, every fire
      activity requested so far, and the lifecycle. */
  datatype Process = Process(id: string, specs: seq<TimerSpec>, timers: seq<Timer>, pending: set<nat>,
                             requests: seq<Request>, outcome: Outcome)

  datatype Step =
    | Fire(timer: nat, outcome: Outcome)
    | Receive(outcome: Outcome)
    | Continue(now: int)

  function Begin(id: string, specs: seq<TimerSpec>, now: int, calendar: Calendar, outcome: Outcome): Process {
    var timers := Timers([], specs, now, calendar);
    Process(id, specs, timers, Armed(timers), [], outcome)
  }

  /** Futures fire in any order, messages arrive in any order, and the loop may continue as new
      whenever it is not terminal. */
  function Next(p: Process, a: Step, calendar: Calendar): Process {
    if p.outcome == Terminal then p
    else
      match a
      case Fire(i, outcome) =>
        if i !in p.pending || i >= |p.timers| then p
        else
          p.(timers := p.timers[i := p.timers[i].(fired := true)], pending := p.pending - {i},
             requests := p.requests + [Request(i, Key(p.id, p.timers[i].spec.id, p.timers[i].at))], outcome := outcome)
      case Receive(outcome) => p.(outcome := outcome)
      case Continue(now) =>
        match Reread(p.timers)
        case Unreadable => p.(outcome := Terminal)
        case Read(carried) =>
          var timers := Timers(carried, p.specs, now, calendar);
          p.(timers := timers, pending := Armed(timers))
  }

  function Exec(p: Process, trace: seq<Step>, calendar: Calendar): Process
    decreases |trace|
  {
    if trace == [] then p else Exec(Next(p, trace[0], calendar), trace[1..], calendar)
  }

  /******* What every chain keeps *******/

  predicate Requested(requests: seq<Request>, i: nat) { exists q :: q in requests && q.timer == i }

  ghost predicate Once(requests: seq<Request>) {
    forall i, j :: 0 <= i < j < |requests| ==> requests[i].timer != requests[j].timer
  }

  /** The timers of the first execution, fired or not. */
  ghost predicate Original(p: Process, specs: seq<TimerSpec>, start: int, calendar: Calendar) {
    && |p.timers| == |specs|
    && (forall i :: 0 <= i < |specs| ==>
          p.timers[i].spec.id == specs[i].id && p.timers[i].at == DueTime(specs[i], start, calendar))
  }

  /** The pending futures are exactly those of the timers that have not fired, and those that have
      were requested, once each, with the key their first due time gives. */
  ghost predicate Inv(p: Process, id: string, specs: seq<TimerSpec>, start: int, calendar: Calendar) {
    && p.id == id && p.specs == specs && Original(p, specs, start, calendar) && p.pending == Armed(p.timers)
    && (forall i: nat :: Requested(p.requests, i) <==> i < |p.timers| && p.timers[i].fired)
    && (forall q :: q in p.requests ==>
          q.timer < |specs| && q.key == Key(id, specs[q.timer].id, DueTime(specs[q.timer], start, calendar)))
    && Once(p.requests)
  }

  lemma FireKeepsInv(p: Process, a: Step, id: string, specs: seq<TimerSpec>, start: int, calendar: Calendar)
    requires Inv(p, id, specs, start, calendar) && a.Fire?
    ensures Inv(Next(p, a, calendar), id, specs, start, calendar)
  {
    if p.outcome == Running && a.timer in p.pending {
      var p' := Next(p, a, calendar);
      var q := p'.requests[|p.requests|];
      forall i: nat ensures Requested(p'.requests, i) <==> i < |p'.timers| && p'.timers[i].fired {
        RequestedAfter(p.requests, q, i);
      }
      forall i | 0 <= i < |p.requests| ensures p.requests[i].timer != a.timer {
        assert p.requests[i] in p.requests && Requested(p.requests, p.requests[i].timer);
      }
    }
  }

  lemma RequestedAfter(requests: seq<Request>, q: Request, i: nat)
    ensures Requested(requests + [q], i) <==> Requested(requests, i) || i == q.timer
  {
    if Requested(requests, i) {
      var r :| r in requests && r.timer == i;
      assert r in requests + [q];
    }
    assert q in requests + [q];
  }

  lemma ContinueKeepsInv(p: Process, a: Step, id: string, specs: seq<TimerSpec>, start: int, calendar: Calendar)
    requires Inv(p, id, specs, start, calendar) && a.Continue?
    ensures Inv(Next(p, a, calendar), id, specs, start, calendar)
  {
    if p.outcome == Running {
      ContinueKeepsTimers(p, a, calendar);
      OriginalIsKept(p, Next(p, a, calendar), specs, start, calendar);
    }
  }

  lemma ContinueKeepsTimers(p: Process, a: Step, calendar: Calendar)
    requires a.Continue? && p.outcome == Running && |p.timers| == |p.specs|
    ensures var p' := Next(p, a, calendar);
            && p' == p.(timers := p'.timers, pending := Armed(p'.timers)) && |p'.timers| == |p.timers|
            && forall i :: 0 <= i < |p.timers| ==> p'.timers[i] == Kept(p.timers[i])
  {
    RereadKeeps(p.timers);
  }

  lemma OriginalIsKept(p: Process, p': Process, specs: seq<TimerSpec>, start: int, calendar: Calendar)
    requires Original(p, specs, start, calendar) && |p'.timers| == |p.timers|
    requires forall i :: 0 <= i < |p.timers| ==> p'.timers[i] == Kept(p.timers[i])
    ensures Original(p', specs, start, calendar)
  {
    forall i | 0 <= i < |specs|
      ensures p'.timers[i].spec.id == specs[i].id && p'.timers[i].at == DueTime(specs[i], start, calendar)
    {
      DueIsNormal(specs[i], start, calendar);
    }
  }

  lemma {:induction false} ExecKeepsInv(p: Process, trace: seq<Step>, id: string, specs: seq<TimerSpec>, start: int,
                                        calendar: Calendar)
    requires Inv(p, id, specs, start, calendar)
    ensures Inv(Exec(p, trace, calendar), id, specs, start, calendar)
    decreases |trace|
  {
    if trace != [] {
      match trace[0] {
        case Fire(_, _) => FireKeepsInv(p, trace[0], id, specs, start, calendar);
        case Receive(_) =>
        case Continue(_) => ContinueKeepsInv(p, trace[0], id, specs, start, calendar);
      }
      ExecKeepsInv(Next(p, trace[0], calendar), trace[1..], id, specs, start, calendar);
    }
  }

  /** Over any chain of continuations and any interleaving of messages and firings: a timer keeps
      the due time of the first execution; its fire activity is requested at most once, with the
      key that due time gives; it has fired exactly when it was requested, and it has a pending
      future exactly when it has not. */
  lemma TimersOverChains(id: string, specs: seq<TimerSpec>, start: int, calendar: Calendar, outcome: Outcome,
                         trace: seq<Step>, i: nat)
    requires i < |specs|
    ensures var p := Exec(Begin(id, specs, start, calendar, outcome), trace, calendar);
            var due := if IsZero(specs[i].fireAt) then calendar(start + specs[i].afterSeconds * 1_000_000_000)
                       else specs[i].fireAt;
            && i < |p.timers| && p.timers[i].spec.id == specs[i].id && p.timers[i].at == due
            && (p.timers[i].fired <==> Requested(p.requests, i)) && (i in p.pending <==> !p.timers[i].fired)
            && (forall q :: q in p.requests && q.timer == i ==>
                  q.key == id + ":timer:" + specs[i].id + ":" + Format(due))
            && (forall j, k :: 0 <= j < k < |p.requests| ==> p.requests[j].timer != p.requests[k].timer)
  {
    ExecKeepsInv(Begin(id, specs, start, calendar, outcome), trace, id, specs, start, calendar);
    KeyText(id, specs[i].id, DueTime(specs[i], start, calendar));
  }

  lemma KeyText(process: string, id: string, at: Moment)
    ensures Key(process, id, at) == process + ":timer:" + id + ":" + Format(at)
  {
    assert process + ":timer:" + (id + ":" + Format(at)) == process + ":timer:" + id + ":" + Format(at);
  }

  /** A ready future of a running process is acted upon: the timer has fired, its one request is the
      last one made, no other timer is touched, and the activity decides how the process goes on. */
  lemma FiringIsRequested(id: string, specs: seq<TimerSpec>, start: int, calendar: Calendar, begun: Outcome,
                          trace: seq<Step>, i: nat, outcome: Outcome)
    requires i < |specs|
    requires var p := Exec(Begin(id, specs, start, calendar, begun), trace, calendar);
             p.outcome == Running && i < |p.timers| && !p.timers[i].fired
    ensures var p := Exec(Begin(id, specs, start, calendar, begun), trace, calendar);
            var p' := Next(p, Fire(i, outcome), calendar);
            && p'.requests == p.requests + [Request(i, Key(id, specs[i].id, DueTime(specs[i], start, calendar)))]
            && |p'.timers| == |p.timers| && p'.timers[i] == p.timers[i].(fired := true)
            && (forall j :: 0 <= j < |p.timers| && j != i ==> p'.timers[j] == p.timers[j])
            && p'.pending == p.pending - {i} && p'.outcome == outcome
  {
    ExecKeepsInv(Begin(id, specs, start, calendar, begun), trace, id, specs, start, calendar);
  }

  /** A process that a message or an activity has ended does nothing more. */
  lemma EndedIsFinal(p: Process, outcome: Outcome, trace: seq<Step>, calendar: Calendar)
    requires p.outcome == Running
    ensures Next(p, Receive(outcome), calendar) == p.(outcome := outcome)
    ensures outcome == Terminal ==>
              Exec(Next(p, Receive(outcome), calendar), trace, calendar) == Next(p, Receive(outcome), calendar)
  {
    TerminalStays(p.(outcome := Terminal), trace, calendar);
  }

  lemma {:induction false} TerminalStays(p: Process, trace: seq<Step>, calendar: Calendar)
    requires p.outcome == Terminal
    ensures Exec(p, trace, calendar) == p
    decreases |trace|
  {
    if trace != [] { TerminalStays(p, trace[1..], calendar); }
  }

  lemma FiredStaysOnce(p: Process, a: Step, calendar: Calendar, i: nat)
    requires i < |p.timers| && p.timers[i].fired
    ensures var p' := Next(p, a, calendar); |p'.timers| == |p.timers| && p'.timers[i].fired
  {
    if a.Continue? { RereadKeeps(p.timers); }
  }

  lemma {:induction false} FiredStays(p: Process, trace: seq<Step>, calendar: Calendar, i: nat)
    requires i < |p.timers| && p.timers[i].fired
    ensures var p' := Exec(p, trace, calendar); |p'.timers| == |p.timers| && p'.timers[i].fired
    decreases |trace|
  {
    if trace != [] {
      FiredStaysOnce(p, trace[0], calendar, i);
      FiredStays(Next(p, trace[0], calendar), trace[1..], calendar, i);
    }
  }

  /** A fired timer is never armed again, whatever continuations follow. */
  lemma FiredIsNeverRearmed(id: string, specs: seq<TimerSpec>, start: int, calendar: Calendar, outcome: Outcome,
                            trace: seq<Step>, more: seq<Step>, i: nat)
    requires var p := Exec(Begin(id, specs, start, calendar, outcome), trace, calendar);
             i < |p.timers| && p.timers[i].fired
    ensures i !in Exec(Exec(Begin(id, specs, start, calendar, outcome), trace, calendar), more, calendar).pending
  {
    var p := Exec(Begin(id, specs, start, calendar, outcome), trace, calendar);
    ExecKeepsInv(Begin(id, specs, start, calendar, outcome), trace, id, specs, start, calendar);
    ExecKeepsInv(p, more, id, specs, start, calendar);
    FiredStays(p, more, calendar, i);
  }

  /******* Idempotency keys *******/

  /** Of the shape of a written time, what is enough to find where it starts. */
  predicate Stamp(s: string) {
    20 <= |s| <= 35 && (forall i :: 0 <= i < 13 ==> s[i] != ':') && IsDigit(s[2]) && IsDigit(s[14]) && s[16] == ':'
  }

  lemma FormatIsStamp(t: Moment)
    ensures Stamp(Format(t))
  {
    var s := Format(t);
    DateRoundTrip(t);
    ClockRoundTrip(t);
    FormatDateHasNoColon(t);
    ZoneLength(t.offset);
    assert s[..11] == FormatDate(t) && s[11..19] == FormatClock(t);
    forall i | 0 <= i < 13 ensures s[i] != ':' {
      if i < 11 {
        assert s[i] == FormatDate(t)[i];
      } else {
        assert s[i] == FormatClock(t)[i - 11] == Digits(t.hour, 2)[i - 11];
      }
    }
    assert s[2] == FormatDate(t)[2] == Digits(t.year, 4)[2];
    assert s[14] == FormatClock(t)[3] == Digits(t.minute, 2)[0];
    assert s[16] == FormatClock(t)[5];
  }

  lemma FormatDateHasNoColon(t: Moment)
    ensures forall i :: 0 <= i < 11 ==> FormatDate(t)[i] != ':'
  {
    DateRoundTrip(t);
    var s := FormatDate(t);
    assert s[..4] == Digits(t.year, 4) && s[5..7] == Digits(t.month, 2) && s[8..10] == Digits(t.day, 2);
    forall i | 0 <= i < 11 ensures s[i] != ':' {
      if i < 4 { assert s[i] == s[..4][i]; }
      else if 5 <= i < 7 { assert s[i] == s[5..7][i - 5]; }
      else if 8 <= i < 10 { assert s[i] == s[8..10][i - 8]; }
    }
  }

  lemma ZoneLength(offset: int)
    requires -DAY_MINUTES < offset < DAY_MINUTES
    ensures 1 <= |FormatZone(offset)| <= 6
  {}

  lemma Overlap(id: string, s: string, id': string, s': string)
    requires id + ":" + s == id' + ":" + s' && |s| < |s'|
    ensures s'[|s'| - |s| - 1] == ':' && s'[|s'| - |s|..] == s
  {
    var whole, d := id + ":" + s, |s'| - |s|;
    assert forall i :: 0 <= i < |s'| ==> whole[|id'| + 1 + i] == s'[i];
    assert forall i :: 0 <= i < |s| ==> whole[|id| + 1 + i] == s[i];
    assert whole[|id|] == ':';
  }

  /** A time cannot be the end of a longer time, after a colon. */
  lemma StampsDoNotNest(s: string, s': string)
    requires Stamp(s) && Stamp(s') && |s| < |s'|
    ensures s'[|s'| - |s| - 1] != ':' || s'[|s'| - |s|..] != s
  {
    var d := |s'| - |s|;
    assert d <= 15;
    assert d == 14 ==> s'[d..][2] == s'[16];
  }

  lemma SameEnd(id: string, s: string, id': string, s': string)
    requires Stamp(s) && Stamp(s') && id + ":" + s == id' + ":" + s'
    ensures id == id' && s == s'
  {
    if |s| < |s'| {
      Overlap(id, s, id', s');
      StampsDoNotNest(s, s');
    } else if |s'| < |s| {
      Overlap(id', s', id, s);
      StampsDoNotNest(s', s);
    } else {
      var whole := id + ":" + s;
      assert whole[..|id|] == id && whole[|id| + 1..] == s;
      assert whole[..|id'|] == id' && whole[|id'| + 1..] == s';
    }
  }

  /** Firings of one process with the same key are firings of the same timer at the same time. */
  lemma KeysAreDistinct(process: string, id: string, at: Moment, id': string, at': Moment)
    requires Key(process, id, at) == Key(process, id', at')
    ensures id == id' && at == at'
  {
    SameTail(process + ":timer:", id + ":" + Format(at), id' + ":" + Format(at'), Key(process, id, at));
    FormatIsStamp(at);
    FormatIsStamp(at');
    SameEnd(id, Format(at), id', Format(at'));
    TimeRoundTrip(at);
    TimeRoundTrip(at');
  }

  lemma SameTail(head: string, tail: string, tail': string, whole: string)
    requires head + tail == whole == head + tail'
    ensures tail == tail'
  {
    assert tail == whole[|head|..] && tail' == whole[|head|..];
  }

  /** When timer ids are distinct, no two requests of a chain carry the same key. */
  lemma RequestKeysAreDistinct(id: string, specs: seq<TimerSpec>, start: int, calendar: Calendar, outcome: Outcome,
                               trace: seq<Step>, j: int, k: int)
    requires forall i, i' :: 0 <= i < i' < |specs| ==> specs[i].id != specs[i'].id
    requires 0 <= j < k < |Exec(Begin(id, specs, start, calendar, outcome), trace, calendar).requests|
    ensures var requests := Exec(Begin(id, specs, start, calendar, outcome), trace, calendar).requests;
            requests[j].key != requests[k].key
  {
    ExecKeepsInv(Begin(id, specs, start, calendar, outcome), trace, id, specs, start, calendar);
    KeysDiffer(Exec(Begin(id, specs, start, calendar, outcome), trace, calendar).requests, id, specs, start, calendar,
               j, k);
  }

  lemma KeysDiffer(requests: seq<Request>, id: string, specs: seq<TimerSpec>, start: int, calendar: Calendar, j: int,
                   k: int)
    requires forall i, i' :: 0 <= i < i' < |specs| ==> specs[i].id != specs[i'].id
    requires forall q :: q in requests ==>
               q.timer < |specs| && q.key == Key(id, specs[q.timer].id, DueTime(specs[q.timer], start, calendar))
    requires Once(requests) && 0 <= j < k < |requests|
    ensures requests[j].key != requests[k].key
  {
    var a, b := requests[j], requests[k];
    assert a in requests && b in requests && a.timer != b.timer;
    DifferentKeys(id, specs, a.timer, DueTime(specs[a.timer], start, calendar), b.timer,
                  DueTime(specs[b.timer], start, calendar));
  }

  lemma DifferentKeys(id: string, specs: seq<TimerSpec>, a: nat, at: Moment, b: nat, at': Moment)
    requires forall i, i' :: 0 <= i < i' < |specs| ==> specs[i].id != specs[i'].id
    requires a < |specs| && b < |specs| && a != b
    ensures Key(id, specs[a].id, at) != Key(id, specs[b].id, at')
  {
    assert specs[if a < b then a else b].id != specs[if a < b then b else a].id;
    if Key(id, specs[a].id, at) == Key(id, specs[b].id, at') { KeysAreDistinct(id, specs[a].id, at, specs[b].id, at'); }
  }

  /******* In place *******/

  class WorkflowTimers {
    const process: string
    const specs: seq<TimerSpec>
    const calendar: Calendar
    var timers: seq<Timer>
    var pending: set<nat>
    var requests: seq<Request>
    var outcome: Outcome

    function View(): Process
      reads this
    {
      Process(process, specs, timers, pending, requests, outcome)
    }

    /** The timer slice of an execution; it has no futures yet. */
    constructor (process: string, carried: seq<Timer>, specs: seq<TimerSpec>, now: int, calendar: Calendar,
                 requests: seq<Request>, outcome: Outcome)
      ensures View() == Process(process, specs, Timers(carried, specs, now, calendar), {}, requests, outcome)
      ensures this.calendar == calendar
    {
      this.process, this.specs, this.calendar := process, specs, calendar;
      this.requests, this.outcome := requests, outcome;
      pending, timers := {}, carried;
      new;
      if carried == [] {
        var i := 0;
        while i < |specs|
          invariant 0 <= i <= |specs|
          invariant View() == Process(process, specs, Timers([], specs[..i], now, calendar), {}, requests, outcome)
        {
          timers := timers + [Timer(specs[i], DueTime(specs[i], now, calendar), false)];
          i := i + 1;
        }
        assert specs[..i] == specs;
      }
    }

    /** Gives every timer that has not fired a future. */
    method AddToSelector()
      requires pending == {}
      modifies this`pending
      ensures View() == old(View()).(pending := Armed(timers))
    {
      var i := 0;
      while i < |timers|
        invariant 0 <= i <= |timers| && pending == set k: nat | k < i && !timers[k].fired
      {
        if !timers[i].fired { pending := pending + {i}; }
        i := i + 1;
      }
    }

    /** The first execution of a process is the beginning of its chain. */
    static method StartExecution(process: string, specs: seq<TimerSpec>, now: int, calendar: Calendar, outcome: Outcome)
      returns (execution: WorkflowTimers)
      ensures fresh(execution) && execution.calendar == calendar
      ensures execution.View() == Begin(process, specs, now, calendar, outcome)
    {
      execution := new WorkflowTimers(process, [], specs, now, calendar, [], outcome);
      execution.AddToSelector();
    }

    /** A future is ready. The timer is marked before its activity is requested, and the request
        is the step of the chain: every claim about chains holds of it. */
    method OnTimer(i: nat, result: Outcome)
      requires outcome == Running && i in pending && i < |timers|
      modifies this
      ensures View() == Next(old(View()), Fire(i, result), calendar)
    {
      pending := pending - {i};
      var timer := timers[i].(fired := true);
      timers := timers[i := timer];
      requests := requests + [Request(i, Key(process, timer.spec.id, timer.at))];
      outcome := result;
    }

    method OnMessage(result: Outcome)
      requires outcome == Running
      modifies this
      ensures View() == Next(old(View()), Receive(result), calendar)
    {
      outcome := result;
    }

    /** Hands the timers to the next execution, which arms those that have not fired. */
    method ContinueAsNew(now: int) returns (next: WorkflowTimers)
      requires outcome == Running
      ensures fresh(next) && next.calendar == calendar
      ensures next.View() == Next(View(), Continue(now), calendar)
    {
      RereadKeeps(timers);
      next := new WorkflowTimers(process, Reread(timers).timers, specs, now, calendar, requests, outcome);
      next.AddToSelector();
    }
  }
}
