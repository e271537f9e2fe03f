/** What a plan that is started again after its workflow closed can apply a second time. */
module PlanRestarts {
  import opened PlanCommandCodec
  import opened PlanCommands
  import opened PlanCommandTheorems

  /******* How many chains there are *******/

  /** The restarts of a run that found a closed workflow. */
  ghost function Restarts(s: State, trace: seq<Step>): nat
    decreases |trace|
  {
    if trace == [] then 0
    else (if trace[0] == Restart && s.ended then 1 else 0) + Restarts(Next(s, trace[0]), trace[1..])
  }

  /** There is one chain more for every restart of a closed workflow, and for nothing else. */
  lemma {:induction false} ChainsAreRestarts(s: State, trace: seq<Step>)
    ensures |Chains(Exec(s, trace))| == |Chains(s)| + Restarts(s, trace)
    decreases |trace|
  {
    if trace != [] { ChainsAreRestarts(Next(s, trace[0]), trace[1..]); }
  }

  /******* Keys that are done with *******/

  ghost predicate NoneDispatching(couriers: seq<Courier>, key: string) {
    forall c :: c in couriers && c.key == key ==> c.stage != Dispatching
  }

  ghost predicate NotIn(records: seq<Record>, key: string) {
    forall c :: c in records ==> c.key != key
  }

  /** The command is delivered, nobody is about to dispatch it, it is in no channel, and the current
      chain has not applied it. */
  ghost predicate Settled(s: State, key: string) {
    && key in s.tables.commands && s.tables.commands[key].status == Delivered
    && NoneDispatching(s.couriers, key)
    && NotIn(s.tables.signals, key) && NotIn(s.tables.controls, key) && NotIn(s.applied, key)
  }

  lemma SubmitKeepsSettled(s: State, r: Request, key: string)
    requires Settled(s, key)
    ensures Settled(Submitted(s, r), key)
  {}

  lemma RecoverKeepsSettled(s: State, k: string, key: string)
    requires Books(s) && Settled(s, key)
    ensures Settled(Recovered(s, k), key)
  {
    if k in s.tables.commands { assert RowSound(s.tables, k); }
  }

  /** A courier that is not about to dispatch the key does not send it and does not become one. */
  lemma PerformKeepsSettled(t: Tables, courier: Courier, luck: Luck, key: string)
    requires courier.sent.key == courier.key && (courier.key == key ==> courier.stage != Dispatching)
    ensures var p := Perform(t, courier, luck);
            && (NotIn(t.signals, key) ==> NotIn(p.tables.signals, key))
            && (NotIn(t.controls, key) ==> NotIn(p.tables.controls, key))
            && NoneDispatching(p.next, key)
  {}

  lemma ReplacedKeepsSettled(couriers: seq<Courier>, i: int, next: seq<Courier>, key: string)
    requires 0 <= i < |couriers| && NoneDispatching(couriers, key) && NoneDispatching(next, key)
    ensures NoneDispatching(Replace(couriers, i, next), key)
  {
    forall c | c in Replace(couriers, i, next) && c.key == key ensures c.stage != Dispatching {
      ReplaceKeeps(couriers, i, next, c);
    }
  }

  lemma AdvanceKeepsSettled(s: State, i: int, luck: Luck, key: string)
    requires Books(s) && Settled(s, key) && 0 <= i < |s.couriers|
    ensures Settled(Advanced(s, i, luck), key)
  {
    var courier := s.couriers[i];
    assert courier in s.couriers && courier.sent.key == courier.key by { assert CourierSound(s.tables, courier); }
    PerformKeepsSettled(s.tables, courier, luck, key);
    PerformGrows(s.tables, courier, luck);
    ReplacedKeepsSettled(s.couriers, i, Perform(s.tables, courier, luck).next, key);
  }

  lemma DrainKeepsSettled(channel: seq<Record>, processed: set<string>, applied: seq<Record>,
                       effect: Record -> Verdict, key: string)
    requires NotIn(channel, key) && NotIn(applied, key)
    ensures var d := Drain(channel, processed, applied, effect); NotIn(d.rest, key) && NotIn(d.applied, key)
  {
    var tail := DrainKeeps(channel, processed, applied, effect);
  }

  /** Steps of the workflow touch neither rows nor couriers. */
  lemma WorkflowKeepsSettled(s: State, a: Step, key: string)
    requires Settled(s, key) && (a.DrainSignals? || a.DrainControls? || a.ContinueAsNew? || a.Restart? || a.Close?)
    ensures Settled(Next(s, a), key)
  {
    if a.DrainSignals? {
      DrainKeepsSettled(s.tables.signals, s.processedSignals, s.applied, a.effect, key);
    } else if a.DrainControls? {
      DrainKeepsSettled(s.tables.controls, s.processedControls, s.applied, a.effect, key);
    }
  }

  lemma NextKeepsSettled(s: State, a: Step, key: string)
    requires Books(s) && Settled(s, key)
    ensures Settled(Next(s, a), key)
  {
    match a {
      case Submit(r) => SubmitKeepsSettled(s, r, key);
      case Recover(k) => RecoverKeepsSettled(s, k, key);
      case Advance(i, luck) => if 0 <= i < |s.couriers| { AdvanceKeepsSettled(s, i, luck, key); }
      case Crash(i) => if 0 <= i < |s.couriers| { ReplacedKeepsSettled(s.couriers, i, [], key); }
      case DrainSignals(_) => WorkflowKeepsSettled(s, a, key);
      case DrainControls(_) => WorkflowKeepsSettled(s, a, key);
      case Close => WorkflowKeepsSettled(s, a, key);
      case Restart => WorkflowKeepsSettled(s, a, key);
      case ContinueAsNew(_, _, _, _) => WorkflowKeepsSettled(s, a, key);
    }
  }

  lemma {:induction false} ExecKeepsSettled(s: State, trace: seq<Step>, key: string)
    requires Inv(s) && Settled(s, key)
    ensures Settled(Exec(s, trace), key)
    decreases |trace|
  {
    if trace != [] {
      NextKeepsSettled(s, trace[0], key);
      NextKeepsInv(s, trace[0]);
      ExecKeepsSettled(Next(s, trace[0]), trace[1..], key);
    }
  }

  /******* Keys that are not *******/

  lemma ExecSnoc(s: State, trace: seq<Step>, a: Step)
    ensures Exec(s, trace + [a]) == Next(Exec(s, trace), a)
  {
    ExecSplit(s, trace, [a]);
    assert Exec(Exec(s, trace), [a]) == Exec(Next(Exec(s, trace), a), []);
  }

  function Stops(c: Record): Verdict { Stop }

  function Proceeds(c: Record): Verdict { Proceed }

  lemma DrainOne(c: Record, effect: Record -> Verdict)
    requires c.key != ""
    ensures Drain([c], {}, [], effect) == Drained([], {c.key}, [c], effect(c))
  {
    assert [c][1..] == [] && [] + [c] == [c];
    assert effect(c) == Proceed ==> Drain([c], {}, [], effect) == Drain([], {} + {c.key}, [c], effect);
  }

  /** A chain that has just begun. */
  ghost predicate New(s: State) {
    && s.tables.signals == [] && s.tables.controls == [] && s.processedSignals == {} && s.processedControls == {}
    && s.applied == [] && !s.ended
  }

  function DrainOf(action: Action): Step {
    if action == PlanSignal then DrainSignals(Proceeds) else DrainControls(Proceeds)
  }

  /** A courier that dispatches in a new chain has its command applied by the next drain. */
  lemma DispatchIsApplied(s: State, i: int)
    requires New(s) && 0 <= i < |s.couriers| && s.couriers[i].stage == Dispatching && s.couriers[i].sent.key != ""
    ensures var c := s.couriers[i].sent;
            Next(Next(s, Advance(i, Done)), DrainOf(c.action)).applied == [c]
  {
    var c := s.couriers[i].sent;
    var s1 := Next(s, Advance(i, Done));
    assert if c.action == PlanSignal then s1.tables.signals == [c] else s1.tables.controls == [c];
    DrainOne(c, Proceeds);
  }

  lemma ExecTwo(s: State, a: Step, b: Step)
    ensures Exec(s, [a, b]) == Next(Next(s, a), b)
  {
    assert [a, b][1..] == [b] && [b][1..] == [];
    assert Exec(s, [a, b]) == Exec(Next(s, a), [b]);
    assert Exec(Next(s, a), [b]) == Exec(Next(Next(s, a), b), []);
  }

  lemma CourierReapplies(s: State, c: Courier) returns (more: seq<Step>)
    requires New(s) && c in s.couriers && c.stage == Dispatching && c.sent.key == c.key != ""
    ensures c.key in Keys(Exec(s, more).applied)
  {
    var i :| 0 <= i < |s.couriers| && s.couriers[i] == c;
    DispatchIsApplied(s, i);
    more := [Advance(i, Done), DrainOf(c.sent.action)];
    ExecTwo(s, Advance(i, Done), DrainOf(c.sent.action));
    assert c.sent in [c.sent];
  }

  lemma UndeliveredReapplies(s: State, key: string) returns (more: seq<Step>)
    requires New(s) && key in s.tables.commands && RowSound(s.tables, key) && s.tables.commands[key].status != Delivered
    ensures key in Keys(Exec(s, more).applied)
  {
    var c := s.tables.commands[key].command;
    var courier := Reconciler(c);
    RebuiltRecord(c);
    RebuiltIsKin(c);
    var s1 := Next(s, Recover(key));
    assert courier in s1.couriers;
    var rest := CourierReapplies(s1, courier);
    more := [Recover(key)] + rest;
    assert more[1..] == rest;
  }

  /** After a restart the new chain can come to apply a command that was recorded before it if and
      only if the command is not marked delivered, or somebody is still about to dispatch it. */
  lemma ReappliedIff(s: State, key: string)
    requires Inv(s) && s.ended && key in s.tables.commands
    ensures (exists more :: key in Keys(Exec(Next(s, Restart), more).applied))
            <==> s.tables.commands[key].status != Delivered || !NoneDispatching(s.couriers, key)
  {
    var s1 := Next(s, Restart);
    NextKeepsInv(s, Restart);
    if s.tables.commands[key].status != Delivered {
      assert RowSound(s1.tables, key);
      var more := UndeliveredReapplies(s1, key);
    } else if !NoneDispatching(s.couriers, key) {
      var c :| c in s1.couriers && c.key == key && c.stage == Dispatching;
      assert CourierSound(s1.tables, c);
      var more := CourierReapplies(s1, c);
    } else {
      forall more ensures key !in Keys(Exec(s1, more).applied) { ExecKeepsSettled(s1, more, key); }
    }
  }

  /** So in every run: a key the closed chain applied can be applied again exactly then. */
  lemma RestartTheorem(trace: seq<Step>, key: string)
    requires var s := Exec(INITIAL, trace); s.ended && key in Keys(s.applied)
    ensures var s := Exec(INITIAL, trace);
            && key in s.tables.commands
            && ((exists more :: key in Keys(Exec(Next(s, Restart), more).applied))
                <==> s.tables.commands[key].status != Delivered || !NoneDispatching(s.couriers, key))
  {
    var s := Exec(INITIAL, trace);
    ExecKeepsInv(INITIAL, trace);
    var c :| c in s.applied && c.key == key;
    assert Known(s.tables, c);
    ReappliedIff(s, key);
  }

  /******* Two runs in which it happens *******/

  /** A signal reaches the workflow without its caller learning of it; the workflow applies it and
      stops. */
  function StoppedTrace(r: Request): seq<Step> { [] + [Submit(r)] + [Advance(0, DoneUnseen)] + [DrainSignals(Stops)] }

  /** The plan is started again and the reconciler delivers the signal again. */
  function RestartTrace(r: Request): seq<Step> {
    StoppedTrace(r) + [Restart] + [Recover(Envelope(r).key)] + [Advance(1, Done)] + [DrainSignals(Proceeds)]
  }

  lemma StoppedState(r: Request)
    requires Valid(r) && r.SignalRequest?
    ensures var c, s := Envelope(r), Exec(INITIAL, StoppedTrace(r));
            && s.tables.commands == map[c.key := Row(c, Pending)] && s.couriers == [Courier(c.key, c, Failing)]
            && s.applied == [c] && s.past == [] && s.ended
  {
    var c := Envelope(r);
    EnvelopeKeyed(r);
    ExecSnoc(INITIAL, [], Submit(r));
    ExecSnoc(INITIAL, [] + [Submit(r)], Advance(0, DoneUnseen));
    ExecSnoc(INITIAL, [] + [Submit(r)] + [Advance(0, DoneUnseen)], DrainSignals(Stops));
    var s1 := Next(INITIAL, Submit(r));
    assert s1.couriers == [Courier(c.key, c, Dispatching)];
    var s2 := Next(s1, Advance(0, DoneUnseen));
    assert s2.tables.signals == [c] && s2.couriers == [Courier(c.key, c, Failing)];
    DrainOne(c, Stops);
  }

  lemma AppliedAgain(s: State, c: Record, sent: Record)
    requires s.tables.commands == map[c.key := Row(c, Pending)] && s.couriers == [Courier(c.key, c, Failing)] && s.ended
    requires Rebuilt(c) == Decoded(sent) && sent.action == PlanSignal && sent.key == c.key != ""
    ensures var s' := Next(Next(Next(Next(s, Restart), Recover(c.key)), Advance(1, Done)), DrainSignals(Proceeds));
            Chains(s') == s.past + [s.applied] + [[sent]]
  {
    var s1 := Next(s, Restart);
    var s2 := Next(s1, Recover(c.key));
    assert s2.couriers == [Courier(c.key, c, Failing)] + [Courier(c.key, sent, Dispatching)];
    LastAdvances(s2, [Courier(c.key, c, Failing)], Courier(c.key, sent, Dispatching));
    var s3 := Next(s2, Advance(1, Done));
    assert s3.tables.signals == [sent] && s3.applied == [] && s3.processedSignals == {};
    DrainOne(sent, Proceeds);
  }

  /** Both chains apply the signal, which was never marked delivered. */
  lemma RestartRepeats(r: Request)
    requires Valid(r) && r.SignalRequest?
    ensures var chains := Chains(Exec(INITIAL, RestartTrace(r)));
            |chains| == 2 && |chains[0]| == |chains[1]| == 1 && chains[0][0].key == chains[1][0].key == Envelope(r).key
  {
    var c, t := Envelope(r), StoppedTrace(r);
    EnvelopeKeyed(r);
    RebuiltIff(r);
    StoppedState(r);
    AppliedAgain(Exec(INITIAL, t), c, Rebuilt(c).value);
    ExecSnoc(INITIAL, t, Restart);
    ExecSnoc(INITIAL, t + [Restart], Recover(c.key));
    ExecSnoc(INITIAL, t + [Restart] + [Recover(c.key)], Advance(1, Done));
    ExecSnoc(INITIAL, t + [Restart] + [Recover(c.key)] + [Advance(1, Done)], DrainSignals(Proceeds));
  }

  /** Two calls with one key record a signal; the first delivers it, and the workflow stops. */
  function DeliveredTrace(r: Request): seq<Step> {
    [] + [Submit(r)] + [Submit(r)] + [Advance(0, Done)] + [Advance(0, Done)] + [Advance(0, Done)]
    + [DrainSignals(Stops)]
  }

  lemma TwoCalls(r: Request)
    requires Valid(r) && r.SignalRequest?
    ensures var c := Envelope(r); var waiting := Courier(c.key, c, Dispatching);
            Exec(INITIAL, [] + [Submit(r)] + [Submit(r)])
            == INITIAL.(tables := INITIAL.tables.(commands := map[c.key := Row(c, Pending)]),
                        couriers := [waiting, waiting])
  {
    EnvelopeKeyed(r);
    ExecSnoc(INITIAL, [], Submit(r));
    ExecSnoc(INITIAL, [] + [Submit(r)], Submit(r));
  }

  lemma FirstAdvances(s: State, c: Courier, rest: seq<Courier>)
    requires s.couriers == [c] + rest
    ensures var p := Perform(s.tables, c, Done);
            Next(s, Advance(0, Done)) == s.(tables := p.tables, couriers := p.next + rest)
  {
    assert Replace(s.couriers, 0, Perform(s.tables, c, Done).next) == Perform(s.tables, c, Done).next + rest;
  }

  /** The first call runs to its end. */
  lemma FirstCall(s: State, c: Record)
    requires c.key != "" && c.action == PlanSignal
    requires s == INITIAL.(tables := INITIAL.tables.(commands := map[c.key := Row(c, Pending)]),
                           couriers := [Courier(c.key, c, Dispatching), Courier(c.key, c, Dispatching)])
    ensures var a := Advance(0, Done); var s' := Next(Next(Next(s, a), a), a);
            && s'.tables == Tables(map[c.key := Row(c, Delivered)], map[c.key := c], {c.key}, [c], [])
            && s' == s.(tables := s'.tables, couriers := [Courier(c.key, c, Dispatching)])
  {
    var rest := [Courier(c.key, c, Dispatching)];
    FirstAdvances(s, Courier(c.key, c, Dispatching), rest);
    var s1 := Next(s, Advance(0, Done));
    FirstAdvances(s1, Courier(c.key, c, Auditing), rest);
    var s2 := Next(s1, Advance(0, Done));
    FirstAdvances(s2, Courier(c.key, c, Marking), rest);
  }

  lemma DeliveredState(r: Request)
    requires Valid(r) && r.SignalRequest?
    ensures var c, s := Envelope(r), Exec(INITIAL, DeliveredTrace(r));
            && s.tables.commands == map[c.key := Row(c, Delivered)] && s.couriers == [Courier(c.key, c, Dispatching)]
            && s.applied == [c] && s.past == [] && s.ended
  {
    var c, t := Envelope(r), [] + [Submit(r)] + [Submit(r)];
    EnvelopeKeyed(r);
    TwoCalls(r);
    FirstCall(Exec(INITIAL, t), c);
    ExecSnoc(INITIAL, t, Advance(0, Done));
    ExecSnoc(INITIAL, t + [Advance(0, Done)], Advance(0, Done));
    ExecSnoc(INITIAL, t + [Advance(0, Done)] + [Advance(0, Done)], Advance(0, Done));
    ExecSnoc(INITIAL, t + [Advance(0, Done)] + [Advance(0, Done)] + [Advance(0, Done)], DrainSignals(Stops));
    DrainOne(c, Stops);
  }

  /** The signal is marked delivered before the restart, and the second call, which was still about
      to dispatch it, has the new chain apply it again. */
  lemma DeliveredRepeats(r: Request)
    requires Valid(r) && r.SignalRequest?
    ensures var c, s := Envelope(r), Exec(INITIAL, DeliveredTrace(r));
            && s.tables.commands == map[c.key := Row(c, Delivered)]
            && Chains(Exec(INITIAL, DeliveredTrace(r) + [Restart] + [Advance(0, Done)] + [DrainSignals(Proceeds)]))
               == [[c], [c]]
  {
    var c, t := Envelope(r), DeliveredTrace(r);
    EnvelopeKeyed(r);
    DeliveredState(r);
    var s1 := Next(Exec(INITIAL, t), Restart);
    DispatchIsApplied(s1, 0);
    ExecSnoc(INITIAL, t, Restart);
    ExecSnoc(INITIAL, t + [Restart], Advance(0, Done));
    ExecSnoc(INITIAL, t + [Restart] + [Advance(0, Done)], DrainSignals(Proceeds));
  }
}
