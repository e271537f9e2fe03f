/** What every interleaving of callers, reconcilers, crashes, drains and continuations keeps. */
module PlanCommandTheorems {
  import opened PlanCommandCodec
  import opened PlanCommands

  /******* The invariant *******/

  /** The key was recorded, for a command of the same action. */
  predicate Known(t: Tables, c: Record) {
    c.key != "" && c.key in t.commands && t.commands[c.key].command.action == c.action
  }

  ghost predicate FromRequest(c: Record) { exists r :: Valid(r) && Envelope(r) == c }

  /** The envelope is the recorded one or the one rebuilt from it. */
  predicate Recorded(t: Tables, c: Record) {
    Known(t, c) && (c == t.commands[c.key].command || Rebuilt(t.commands[c.key].command) == Decoded(c))
  }

  ghost predicate CourierSound(t: Tables, courier: Courier) {
    && courier.sent.key == courier.key && Recorded(t, courier.sent)
    && (courier.stage in {Auditing, Marking, AuditingOnly} ==> courier.key in t.dispatched)
  }

  /** Stored commands came from requests, and a delivered one was dispatched and audited with its
      own envelope. */
  ghost predicate RowSound(t: Tables, key: string)
    requires key in t.commands
  {
    var row := t.commands[key];
    && row.command.key == key && key != "" && FromRequest(row.command)
    && (row.status == Delivered ==> key in t.dispatched && key in t.audits && t.audits[key] == row.command)
  }

  ghost predicate Books(s: State) {
    && (forall k :: k in s.tables.commands ==> RowSound(s.tables, k))
    && (forall k :: k in s.tables.audits ==> s.tables.audits[k].key == k && Recorded(s.tables, s.tables.audits[k]))
    && (forall courier :: courier in s.couriers ==> CourierSound(s.tables, courier))
  }

  ghost predicate Channel(t: Tables, channel: seq<Record>, action: Action) {
    forall c :: c in channel ==> c.action == action && Known(t, c)
  }

  ghost predicate DistinctKeys(applied: seq<Record>) {
    forall i, j :: 0 <= i < j < |applied| ==> applied[i].key != applied[j].key
  }

  function KeysOf(applied: seq<Record>, action: Action): set<string> {
    set c | c in applied && c.action == action :: c.key
  }

  /** Channels hold known commands of their action, what was applied is known and distinct, and
      the processed keys are exactly the applied ones. */
  ghost predicate Ledger(s: State) {
    && Channel(s.tables, s.tables.signals, PlanSignal) && Channel(s.tables, s.tables.controls, PlanControl)
    && (forall c :: c in s.applied ==> Known(s.tables, c)) && DistinctKeys(s.applied)
    && s.processedSignals == KeysOf(s.applied, PlanSignal) && s.processedControls == KeysOf(s.applied, PlanControl)
  }

  ghost predicate Inv(s: State) { Books(s) && Ledger(s) && forall chain :: chain in s.past ==> DistinctKeys(chain) }

  /******* Couriers *******/

  /** Nothing recorded is lost or rewritten. */
  ghost predicate Grows(t: Tables, t': Tables) {
    && (forall k :: k in t.commands ==> k in t'.commands && t'.commands[k].command == t.commands[k].command
                                        && (t.commands[k].status == Delivered ==> t'.commands[k].status == Delivered))
    && (forall k :: k in t.audits ==> k in t'.audits && t'.audits[k] == t.audits[k])
    && t.dispatched <= t'.dispatched
  }

  lemma KnownGrows(t: Tables, t': Tables, c: Record)
    requires Known(t, c) && Grows(t, t')
    ensures Known(t', c)
  {}

  lemma RecordedGrows(t: Tables, t': Tables, c: Record)
    requires Recorded(t, c) && Grows(t, t')
    ensures Recorded(t', c)
  {}

  lemma SoundGrows(t: Tables, t': Tables, courier: Courier)
    requires CourierSound(t, courier) && Grows(t, t')
    ensures CourierSound(t', courier)
  {}

  lemma RebuiltIsKin(c: Record)
    requires Rebuilt(c).Decoded?
    ensures Rebuilt(c).value.action == c.action && Rebuilt(c).value.key == c.key
  {}

  lemma ReconcilerSound(t: Tables, key: string)
    requires key in t.commands && RowSound(t, key)
    ensures CourierSound(t, Reconciler(t.commands[key].command))
  {
    var c := t.commands[key].command;
    if Rebuilt(c).Decoded? { RebuiltIsKin(c); }
  }

  /** A recorded command is a sound new row, or the row that was there. */
  lemma RecordCommandSound(t: Tables, c: Record, key: string)
    requires FromRequest(c) && c.key != "" && (key in t.commands ==> RowSound(t, key))
    requires key in RecordCommand(t, c).tables.commands
    ensures Grows(t, RecordCommand(t, c).tables) && RowSound(RecordCommand(t, c).tables, key)
  {}

  lemma EnvelopeKeyed(r: Request)
    requires Valid(r)
    ensures FromRequest(Envelope(r)) && Envelope(r).key != ""
  {}

  lemma NewCourierSound(t: Tables, t': Tables, c: Record, stage: Stage)
    requires RecordCommand(t, c) == Answer(t', true) && c.key != "" && c.key in t'.commands && RowSound(t', c.key)
    requires stage == if t'.commands[c.key].status == Delivered then AuditingOnly else Dispatching
    ensures CourierSound(t', Courier(c.key, c, stage))
  {}

  lemma SubmittedKeepsInv(s: State, r: Request)
    requires Inv(s)
    ensures Inv(Submitted(s, r)) && Grows(s.tables, Submitted(s, r).tables)
  {
    var s' := Submitted(s, r);
    if s' != s {
      var c, t, t' := Envelope(r), s.tables, s'.tables;
      EnvelopeKeyed(r);
      forall k | k in t'.commands ensures RowSound(t', k) { RecordCommandSound(t, c, k); }
      RecordCommandSound(t, c, c.key);
      forall k | k in t'.audits ensures Recorded(t', t'.audits[k]) { assert Recorded(t, t.audits[k]); }
      NewCourierSound(t, t', c, if t'.commands[c.key].status == Delivered then AuditingOnly else Dispatching);
      forall courier | courier in s.couriers ensures CourierSound(t', courier) { SoundGrows(t, t', courier); }
      LedgerGrows(s, s');
    }
  }

  lemma LedgerGrows(s: State, s': State)
    requires Ledger(s) && Grows(s.tables, s'.tables)
    requires Channel(s'.tables, s'.tables.signals, PlanSignal) && Channel(s'.tables, s'.tables.controls, PlanControl)
    requires s'.applied == s.applied && s'.processedSignals == s.processedSignals
    requires s'.processedControls == s.processedControls
    ensures Ledger(s')
  {
    forall c | c in s.applied ensures Known(s'.tables, c) { KnownGrows(s.tables, s'.tables, c); }
  }

  lemma RecoveredKeepsInv(s: State, key: string)
    requires Inv(s)
    ensures Inv(Recovered(s, key)) && Grows(s.tables, Recovered(s, key).tables)
  {
    if key in s.tables.commands { ReconcilerSound(s.tables, key); }
  }

  lemma PerformGrows(t: Tables, courier: Courier, luck: Luck)
    ensures Grows(t, Perform(t, courier, luck).tables)
  {}

  /** One operation of a sound courier keeps every row sound. */
  lemma PerformKeepsRow(t: Tables, courier: Courier, luck: Luck, key: string)
    requires CourierSound(t, courier) && key in t.commands && RowSound(t, key)
    ensures key in Perform(t, courier, luck).tables.commands && RowSound(Perform(t, courier, luck).tables, key)
  {
    var t' := Perform(t, courier, luck).tables;
    if courier.stage == Marking && t' != t {
      assert courier.key in t.dispatched;
    }
  }

  lemma PerformAddsNoRow(t: Tables, courier: Courier, luck: Luck)
    requires CourierSound(t, courier)
    ensures Perform(t, courier, luck).tables.commands.Keys == t.commands.Keys
  {}

  lemma PerformKeepsAudit(t: Tables, courier: Courier, luck: Luck, key: string)
    requires CourierSound(t, courier) && key in Perform(t, courier, luck).tables.audits
    requires key in t.audits ==> t.audits[key].key == key && Recorded(t, t.audits[key])
    ensures var t' := Perform(t, courier, luck).tables; t'.audits[key].key == key && Recorded(t', t'.audits[key])
  {
    var t' := Perform(t, courier, luck).tables;
    PerformGrows(t, courier, luck);
    PerformAudits(t, courier, luck, key);
    RecordedGrows(t, t', t'.audits[key]);
  }

  /** An audit found afterwards was there before or is the courier's. */
  lemma PerformAudits(t: Tables, courier: Courier, luck: Luck, key: string)
    requires key in Perform(t, courier, luck).tables.audits
    ensures var c := Perform(t, courier, luck).tables.audits[key];
            (key in t.audits && c == t.audits[key]) || (c == courier.sent && c.key == key)
  {}

  /** It leaves a sound courier or none. */
  lemma PerformLeavesSound(t: Tables, courier: Courier, luck: Luck, c: Courier)
    requires CourierSound(t, courier) && c in Perform(t, courier, luck).next
    ensures CourierSound(Perform(t, courier, luck).tables, c)
  {
    PerformGrows(t, courier, luck);
  }

  lemma ReplaceKeeps(couriers: seq<Courier>, i: int, next: seq<Courier>, c: Courier)
    requires 0 <= i < |couriers| && c in Replace(couriers, i, next)
    ensures c in couriers || c in next
  {}

  lemma PerformChannels(t: Tables, courier: Courier, luck: Luck)
    requires CourierSound(t, courier) && Channel(t, t.signals, PlanSignal) && Channel(t, t.controls, PlanControl)
    ensures var t' := Perform(t, courier, luck).tables;
            Channel(t', t'.signals, PlanSignal) && Channel(t', t'.controls, PlanControl)
  {
    var t' := Perform(t, courier, luck).tables;
    PerformGrows(t, courier, luck);
    PerformSends(t, courier, luck);
    forall c | Known(t, c) ensures Known(t', c) { KnownGrows(t, t', c); }
  }

  /** What is new in a channel is what the courier sends. */
  lemma PerformSends(t: Tables, courier: Courier, luck: Luck)
    ensures var t' := Perform(t, courier, luck).tables;
            && (forall c :: c in t'.signals ==> c in t.signals || (c == courier.sent && c.action == PlanSignal))
            && (forall c :: c in t'.controls ==> c in t.controls || (c == courier.sent && c.action == PlanControl))
  {}

  lemma AdvancedKeepsInv(s: State, i: int, luck: Luck)
    requires Inv(s) && 0 <= i < |s.couriers|
    ensures Inv(Advanced(s, i, luck)) && Grows(s.tables, Advanced(s, i, luck).tables)
  {
    var s' := Advanced(s, i, luck);
    var p := Perform(s.tables, s.couriers[i], luck);
    PerformGrows(s.tables, s.couriers[i], luck);
    PerformAddsNoRow(s.tables, s.couriers[i], luck);
    forall k | k in s'.tables.commands ensures RowSound(s'.tables, k) {
      PerformKeepsRow(s.tables, s.couriers[i], luck, k);
    }
    forall k | k in s'.tables.audits ensures s'.tables.audits[k].key == k && Recorded(s'.tables, s'.tables.audits[k]) {
      PerformKeepsAudit(s.tables, s.couriers[i], luck, k);
    }
    forall c | c in s'.couriers ensures CourierSound(s'.tables, c) {
      ReplaceKeeps(s.couriers, i, p.next, c);
      if c in s.couriers {
        SoundGrows(s.tables, s'.tables, c);
      } else {
        PerformLeavesSound(s.tables, s.couriers[i], luck, c);
      }
    }
    PerformChannels(s.tables, s.couriers[i], luck);
    LedgerGrows(s, s');
  }

  lemma CrashKeepsInv(s: State, i: int)
    requires Inv(s) && 0 <= i < |s.couriers|
    ensures Inv(s.(couriers := Replace(s.couriers, i, [])))
  {
    forall c | c in Replace(s.couriers, i, []) ensures CourierSound(s.tables, c) {
      ReplaceKeeps(s.couriers, i, [], c);
    }
  }

  /******* Draining *******/

  /** What was applied before only stands in front. */
  lemma {:induction false} DrainAppends(channel: seq<Record>, processed: set<string>, applied: seq<Record>,
                                        effect: Record -> Verdict)
    ensures var d := Drain(channel, processed, [], effect);
            Drain(channel, processed, applied, effect) == d.(applied := applied + d.applied)
    decreases |channel|
  {
    if channel != [] {
      var c, rest := channel[0], channel[1..];
      if c.key != "" && c.key in processed {
        DrainAppends(rest, processed, applied, effect);
      } else if c.key != "" && effect(c) == Proceed {
        DrainAppends(rest, processed + {c.key}, applied + [c], effect);
        DrainAppends(rest, processed + {c.key}, [c], effect);
        var d := Drain(rest, processed + {c.key}, [], effect);
        assert (applied + [c]) + d.applied == applied + ([c] + d.applied);
        assert [] + [c] == [c];
      } else {
        assert [] + [c] == [c];
      }
    }
  }

  /** A drain applies only commands of the channel, with keys not processed before, each once. */
  ghost predicate Fresh(channel: seq<Record>, processed: set<string>, applied: seq<Record>) {
    && (forall c :: c in applied ==> c in channel && c.key !in processed)
    && DistinctKeys(applied)
  }

  lemma FreshCons(channel: seq<Record>, processed: set<string>, applied: seq<Record>)
    requires channel != [] && channel[0].key !in processed && Fresh(channel[1..], processed + {channel[0].key}, applied)
    ensures Fresh(channel, processed, [channel[0]] + applied)
  {
    var all := [channel[0]] + applied;
    forall c | c in all ensures c in channel && c.key !in processed {
      if c != channel[0] { assert c in applied; }
    }
    forall i, j | 0 <= i < j < |all| ensures all[i].key != all[j].key {
      assert all[j] == applied[j - 1] && applied[j - 1] in applied;
    }
  }

  lemma {:induction false} DrainIsFresh(channel: seq<Record>, processed: set<string>, effect: Record -> Verdict)
    ensures Fresh(channel, processed, Drain(channel, processed, [], effect).applied)
    decreases |channel|
  {
    if channel != [] {
      var c, rest := channel[0], channel[1..];
      assert [] + [c] == [c];
      if c.key != "" && c.key in processed {
        DrainIsFresh(rest, processed, effect);
      } else if c.key != "" && effect(c) == Proceed {
        DrainIsFresh(rest, processed + {c.key}, effect);
        DrainAppends(rest, processed + {c.key}, [c], effect);
        FreshCons(channel, processed, Drain(rest, processed + {c.key}, [], effect).applied);
      }
    }
  }

  function Keys(applied: seq<Record>): set<string> { set c | c in applied :: c.key }

  lemma KeysCons(c: Record, applied: seq<Record>)
    ensures Keys([c] + applied) == {c.key} + Keys(applied)
  {
    assert forall x :: x in [c] + applied <==> x == c || x in applied;
  }

  /** It marks exactly the keys it applies, and one that ends with an empty channel has marked
      every key that was in it. */
  lemma {:induction false} DrainMarks(channel: seq<Record>, processed: set<string>, effect: Record -> Verdict)
    ensures var d := Drain(channel, processed, [], effect);
            && d.processed == processed + Keys(d.applied)
            && (forall c :: c in d.rest ==> c in channel)
            && (d.verdict == Proceed ==> d.rest == [] && forall c :: c in channel ==> c.key in d.processed)
    decreases |channel|
  {
    if channel != [] {
      var c, rest := channel[0], channel[1..];
      assert [] + [c] == [c];
      if c.key != "" && c.key in processed {
        DrainMarks(rest, processed, effect);
      } else if c.key != "" && effect(c) == Proceed {
        DrainMarks(rest, processed + {c.key}, effect);
        DrainAppends(rest, processed + {c.key}, [c], effect);
        KeysCons(c, Drain(rest, processed + {c.key}, [], effect).applied);
      } else if c.key != "" {
        KeysCons(c, []);
        assert [c] + [] == [c];
      }
    }
  }

  /** The three together, for a drain that continues earlier ones. */
  lemma DrainKeeps(channel: seq<Record>, processed: set<string>, applied: seq<Record>, effect: Record -> Verdict)
    returns (tail: seq<Record>)
    ensures var d := Drain(channel, processed, applied, effect);
            && d.applied == applied + tail && Fresh(channel, processed, tail) && d.processed == processed + Keys(tail)
            && (forall c :: c in d.rest ==> c in channel)
            && (d.verdict == Proceed ==> d.rest == [] && forall c :: c in channel ==> c.key in d.processed)
  {
    DrainAppends(channel, processed, applied, effect);
    DrainIsFresh(channel, processed, effect);
    DrainMarks(channel, processed, effect);
    tail := Drain(channel, processed, [], effect).applied;
  }

  lemma DistinctAppend(a: seq<Record>, b: seq<Record>)
    requires DistinctKeys(a) && DistinctKeys(b) && forall x, y :: x in a && y in b ==> x.key != y.key
    ensures DistinctKeys(a + b)
  {
    forall i, j | 0 <= i < j < |a + b| ensures (a + b)[i].key != (a + b)[j].key {
      if i < |a| <= j { assert a[i] in a && b[j - |a|] in b; }
    }
  }

  /** Two known commands with one key have one action, so a key applied on either channel is in
      the processed keys of the only channel it can come from. */
  lemma DrainKeepsDistinct(s: State, channel: seq<Record>, action: Action, effect: Record -> Verdict)
    requires Ledger(s) && Channel(s.tables, channel, action)
    ensures var d := Drain(channel, KeysOf(s.applied, action), s.applied, effect);
            DistinctKeys(d.applied) && forall c :: c in d.applied ==> Known(s.tables, c)
  {
    var tail := DrainKeeps(channel, KeysOf(s.applied, action), s.applied, effect);
    forall x, y | x in s.applied && y in tail ensures x.key != y.key {
      assert Known(s.tables, x) && Known(s.tables, y) && y.action == action;
      assert x.action == action ==> x.key in KeysOf(s.applied, action);
    }
    DistinctAppend(s.applied, tail);
  }

  lemma DrainKeepsProcessed(s: State, channel: seq<Record>, action: Action, other: Action, effect: Record -> Verdict)
    requires Channel(s.tables, channel, action) && other != action
    ensures var d := Drain(channel, KeysOf(s.applied, action), s.applied, effect);
            KeysOf(d.applied, action) == d.processed && KeysOf(d.applied, other) == KeysOf(s.applied, other)
  {
    var tail := DrainKeeps(channel, KeysOf(s.applied, action), s.applied, effect);
    var all := Drain(channel, KeysOf(s.applied, action), s.applied, effect).applied;
    assert forall c :: c in all <==> c in s.applied || c in tail;
    assert forall c :: c in tail ==> c.action == action;
  }

  lemma DrainStepKeepsInv(s: State, a: Step)
    requires Inv(s) && (a.DrainSignals? || a.DrainControls?)
    ensures Inv(Next(s, a)) && Grows(s.tables, Next(s, a).tables)
  {
    if !s.ended {
      var signals := a.DrainSignals?;
      var channel := if signals then s.tables.signals else s.tables.controls;
      var action, other := if signals then PlanSignal else PlanControl, if signals then PlanControl else PlanSignal;
      var _ := DrainKeeps(channel, KeysOf(s.applied, action), s.applied, a.effect);
      DrainKeepsDistinct(s, channel, action, a.effect);
      DrainKeepsProcessed(s, channel, action, other, a.effect);
      SameBooks(s, Next(s, a));
      SameKnown(s, Next(s, a));
    }
  }

  /** Rows and couriers do not depend on what is in the channels. */
  lemma SameBooks(s: State, s': State)
    requires Books(s) && s'.couriers == s.couriers
    requires s'.tables == s.tables.(signals := s'.tables.signals, controls := s'.tables.controls)
    ensures Books(s')
  {
    forall k | k in s'.tables.commands ensures RowSound(s'.tables, k) { assert RowSound(s.tables, k); }
    forall k | k in s'.tables.audits ensures Recorded(s'.tables, s'.tables.audits[k]) {
      assert Recorded(s.tables, s.tables.audits[k]);
    }
    forall c | c in s'.couriers ensures CourierSound(s'.tables, c) { assert CourierSound(s.tables, c); }
  }

  lemma SameKnown(s: State, s': State)
    requires s'.tables == s.tables.(signals := s'.tables.signals, controls := s'.tables.controls)
    ensures forall c :: Known(s.tables, c) <==> Known(s'.tables, c)
  {}

  lemma CarriedKeys(keys: seq<string>, processed: set<string>)
    requires (set k | k in keys) == processed && "" !in processed
    ensures Held(Restore(keys)) == processed
  {
    RestoreHolds(keys);
    assert forall k :: k in keys ==> k in processed;
  }

  lemma ContinueKeepsInv(s: State, a: Step)
    requires Inv(s) && a.ContinueAsNew?
    ensures Inv(Next(s, a)) && Grows(s.tables, Next(s, a).tables)
    ensures Next(s, a).processedSignals == s.processedSignals && Next(s, a).processedControls == s.processedControls
  {
    if !s.ended && Carries(s, a) {
      CarriedKeys(a.carriedSignals, s.processedSignals);
      CarriedKeys(a.carriedControls, s.processedControls);
      SameBooks(s, Next(s, a));
      SameKnown(s, Next(s, a));
    }
  }

  lemma RestartKeepsInv(s: State)
    requires Inv(s)
    ensures Inv(Next(s, Restart)) && Grows(s.tables, Next(s, Restart).tables)
  {
    if s.ended {
      var s' := Next(s, Restart);
      SameBooks(s, s');
      assert KeysOf([], PlanSignal) == {} && KeysOf([], PlanControl) == {};
      forall chain | chain in s'.past ensures DistinctKeys(chain) { assert chain in s.past || chain == s.applied; }
    }
  }

  /******* Every run *******/

  lemma NextKeepsInv(s: State, a: Step)
    requires Inv(s)
    ensures Inv(Next(s, a)) && Grows(s.tables, Next(s, a).tables)
  {
    match a {
      case Submit(r) => SubmittedKeepsInv(s, r);
      case Recover(key) => RecoveredKeepsInv(s, key);
      case Advance(i, luck) => if 0 <= i < |s.couriers| { AdvancedKeepsInv(s, i, luck); }
      case Crash(i) => if 0 <= i < |s.couriers| { CrashKeepsInv(s, i); }
      case DrainSignals(_) => DrainStepKeepsInv(s, a);
      case DrainControls(_) => DrainStepKeepsInv(s, a);
      case Close => SameBooks(s, Next(s, a));
      case Restart => RestartKeepsInv(s);
      case ContinueAsNew(_, _, _, _) => ContinueKeepsInv(s, a);
    }
  }

  lemma {:induction false} ExecKeepsInv(s: State, trace: seq<Step>)
    requires Inv(s)
    ensures Inv(Exec(s, trace)) && Grows(s.tables, Exec(s, trace).tables)
    decreases |trace|
  {
    if trace != [] {
      NextKeepsInv(s, trace[0]);
      ExecKeepsInv(Next(s, trace[0]), trace[1..]);
    }
  }

  /** A key is applied at most once over every whole chain of executions, on either channel. */
  lemma AppliedAtMostOnce(trace: seq<Step>, n: nat, i: int, j: int)
    requires n < |Chains(Exec(INITIAL, trace))|
    requires var applied := Chains(Exec(INITIAL, trace))[n]; 0 <= i < j < |applied|
    ensures var applied := Chains(Exec(INITIAL, trace))[n]; applied[i].key != applied[j].key
  {
    ExecKeepsInv(INITIAL, trace);
    var s := Exec(INITIAL, trace);
    assert n < |s.past| ==> Chains(s)[n] == s.past[n] && s.past[n] in s.past;
    assert DistinctKeys(Chains(s)[n]);
  }

  /** A command marked delivered was signalled to the workflow and has its audit record, and both
      stay so whatever happens later. */
  lemma DeliveredIsSignalledAndAudited(trace: seq<Step>, more: seq<Step>, key: string)
    requires var t := Exec(INITIAL, trace).tables; key in t.commands && t.commands[key].status == Delivered
    ensures var t, t' := Exec(INITIAL, trace).tables, Exec(Exec(INITIAL, trace), more).tables;
            && key in t'.commands && t'.commands[key] == t.commands[key]
            && key in t'.dispatched && key in t'.audits && t'.audits[key] == t.commands[key].command
  {
    ExecKeepsInv(INITIAL, trace);
    ExecKeepsInv(Exec(INITIAL, trace), more);
    assert RowSound(Exec(INITIAL, trace).tables, key);
  }

  ghost predicate AppliedOnce(applied: seq<Record>, key: string) {
    exists i :: 0 <= i < |applied| && applied[i].key == key
                && forall j :: 0 <= j < |applied| && j != i ==> applied[j].key != key
  }

  lemma DistinctIsOnce(applied: seq<Record>, i: int)
    requires DistinctKeys(applied) && 0 <= i < |applied|
    ensures AppliedOnce(applied, applied[i].key)
  {
    forall j | 0 <= j < |applied| && j != i ensures applied[j].key != applied[i].key {
      if j > i { assert applied[i].key != applied[j].key; }
    }
  }

  lemma DrainedIsApplied(channel: seq<Record>, applied: seq<Record>, action: Action, effect: Record -> Verdict,
                         c: Record)
    requires c in channel && Drain(channel, KeysOf(applied, action), applied, effect).verdict == Proceed
    ensures var all := Drain(channel, KeysOf(applied, action), applied, effect).applied;
            exists i :: 0 <= i < |all| && all[i].key == c.key
  {
    var tail := DrainKeeps(channel, KeysOf(applied, action), applied, effect);
    var all := Drain(channel, KeysOf(applied, action), applied, effect).applied;
    assert c.key in KeysOf(applied, action) || c.key in Keys(tail);
    var d :| d in all && d.key == c.key;
    var i :| 0 <= i < |all| && all[i] == d;
  }

  /** A drain that empties its channel leaves each command that was in it applied exactly once. */
  lemma DrainedExactlyOnce(trace: seq<Step>, a: Step, c: Record)
    requires a.DrainSignals? || a.DrainControls?
    requires var s := Exec(INITIAL, trace);
             !s.ended && !Next(s, a).ended && c in (if a.DrainSignals? then s.tables.signals else s.tables.controls)
    ensures AppliedOnce(Next(Exec(INITIAL, trace), a).applied, c.key)
  {
    var s := Exec(INITIAL, trace);
    assert Ledger(s) by { ExecKeepsInv(INITIAL, trace); }
    if a.DrainSignals? {
      DrainedOnce(s, s.tables.signals, PlanSignal, a.effect, c);
    } else {
      DrainedOnce(s, s.tables.controls, PlanControl, a.effect, c);
    }
  }

  lemma DrainedOnce(s: State, channel: seq<Record>, action: Action, effect: Record -> Verdict, c: Record)
    requires Ledger(s) && Channel(s.tables, channel, action) && c in channel
    requires Drain(channel, KeysOf(s.applied, action), s.applied, effect).verdict == Proceed
    ensures AppliedOnce(Drain(channel, KeysOf(s.applied, action), s.applied, effect).applied, c.key)
  {
    DrainedIsApplied(channel, s.applied, action, effect, c);
    DrainKeepsDistinct(s, channel, action, effect);
    var applied := Drain(channel, KeysOf(s.applied, action), s.applied, effect).applied;
    var i :| 0 <= i < |applied| && applied[i].key == c.key;
    DistinctIsOnce(applied, i);
  }

  /******* Redelivery *******/

  lemma RebuiltRecord(c: Record)
    requires FromRequest(c)
    ensures Rebuilt(c).Decoded? && (Rebuilt(c).value == c <==> !BareRecord(c))
  {
    var r :| Valid(r) && Envelope(r) == c;
    RebuiltIff(r);
    BareEnvelope(r);
  }

  /** What the reconciler does undisturbed: take a command up and perform its three operations. */
  ghost function Redelivery(key: string, n: nat): seq<Step> {
    [Recover(key), Advance(n, Done), Advance(n, Done), Advance(n, Done)]
  }

  lemma ExecFour(s: State, a: Step, b: Step, c: Step, d: Step)
    ensures Exec(s, [a, b, c, d]) == Next(Next(Next(Next(s, a), b), c), d)
  {
    assert [a, b, c, d][1..] == [b, c, d] && [b, c, d][1..] == [c, d] && [c, d][1..] == [d] && [d][1..] == [];
    assert Exec(s, [a, b, c, d]) == Exec(Next(s, a), [b, c, d]);
    assert Exec(Next(s, a), [b, c, d]) == Exec(Next(Next(s, a), b), [c, d]);
    assert Exec(Next(Next(s, a), b), [c, d]) == Exec(Next(Next(Next(s, a), b), c), [d]);
  }

  lemma LastAdvances(s: State, others: seq<Courier>, c: Courier)
    requires s.couriers == others + [c]
    ensures var p := Perform(s.tables, c, Done);
            Next(s, Advance(|others|, Done)) == s.(tables := p.tables, couriers := others + p.next)
  {
    var next := Perform(s.tables, c, Done).next;
    assert Replace(others + [c], |others|, next) == others + next;
  }

  /** The tables after an undisturbed redelivery of an envelope. */
  function Redelivered(t: Tables, key: string, sent: Record): Tables {
    var audited := RecordAudit(SignalWorkflow(t, sent), sent);
    if audited.ok then MarkDelivered(audited.tables, key).tables else audited.tables
  }

  lemma RedeliverySteps(s: State, key: string, sent: Record)
    requires key in s.tables.commands && s.tables.commands[key].status != Delivered
    requires s.tables.commands[key].command.key == key && Rebuilt(s.tables.commands[key].command) == Decoded(sent)
    ensures Exec(s, Redelivery(key, |s.couriers|)) == s.(tables := Redelivered(s.tables, key, sent))
  {
    var n := |s.couriers|;
    var s1 := s.(couriers := s.couriers + [Courier(key, sent, Dispatching)]);
    assert Next(s, Recover(key)) == s1;
    ThreeOperations(s1, s.couriers, key, sent);
    ExecFour(s, Recover(key), Advance(n, Done), Advance(n, Done), Advance(n, Done));
  }

  lemma ThreeOperations(s: State, others: seq<Courier>, key: string, sent: Record)
    requires s.couriers == others + [Courier(key, sent, Dispatching)]
    ensures var a := Advance(|others|, Done);
            Next(Next(Next(s, a), a), a) == s.(tables := Redelivered(s.tables, key, sent), couriers := others)
  {
    var a, t2 := Advance(|others|, Done), SignalWorkflow(s.tables, sent);
    var audited := RecordAudit(t2, sent);
    var s2 := s.(tables := t2, couriers := others + [Courier(key, sent, Auditing)]);
    var s3 := s.(tables := audited.tables,
                 couriers := others + if audited.ok then [Courier(key, sent, Marking)] else []);
    assert Next(s, a) == s2 by { LastAdvances(s, others, Courier(key, sent, Dispatching)); }
    assert Next(s2, a) == s3 by { LastAdvances(s2, others, Courier(key, sent, Auditing)); }
    LastOperation(s3, others, key, sent, audited.ok);
  }

  lemma LastOperation(s: State, others: seq<Courier>, key: string, sent: Record, ok: bool)
    requires s.couriers == others + if ok then [Courier(key, sent, Marking)] else []
    ensures Next(s, Advance(|others|, Done))
            == s.(tables := if ok then MarkDelivered(s.tables, key).tables else s.tables, couriers := others)
  {
    if ok { LastAdvances(s, others, Courier(key, sent, Marking)); }
    assert others + [] == others;
  }

  /** The command is delivered exactly when the envelope sent is the recorded one. If it is not,
      the audit that is left, if there was none, carries the other envelope. */
  lemma RedeliveredIff(t: Tables, key: string, sent: Record)
    requires key in t.commands && t.commands[key].status != Delivered && Known(t, sent) && sent.key == key
    requires t.commands[key].command.key == key
    requires key in t.audits ==> t.audits[key] == t.commands[key].command || t.audits[key] == sent
    ensures var t' := Redelivered(t, key, sent); var c := t.commands[key].command;
            && key in t'.commands && t'.commands[key].command == c && key in t'.audits
            && (t'.commands[key].status == Delivered <==> sent == c)
            && (t'.audits[key] == c <==> sent == c || (key in t.audits && t.audits[key] == c))
            && sent in (if c.action == PlanSignal then t'.signals else t'.controls)
  {
    var t2 := SignalWorkflow(t, sent);
    assert sent in (if sent.action == PlanSignal then t2.signals else t2.controls);
  }

  /** Whatever was lost on the way, an undisturbed reconciler puts a recorded, undelivered command
      back into its channel, and marks it delivered exactly when it is not a signal whose payload
      was nil. Such a signal, if it had no audit yet, is left with an audit that is not its own. */
  lemma RedeliveryIff(trace: seq<Step>, key: string)
    requires var t := Exec(INITIAL, trace).tables; key in t.commands && t.commands[key].status != Delivered
    ensures var s := Exec(INITIAL, trace);
            var c, t' := s.tables.commands[key].command, Exec(s, Redelivery(key, |s.couriers|)).tables;
            && key in t'.commands && t'.commands[key].command == c && key in t'.audits
            && (t'.commands[key].status == Delivered <==> !BareRecord(c))
            && (BareRecord(c) && key !in s.tables.audits ==> t'.audits[key] != c)
            && (exists m :: m in (if c.action == PlanSignal then t'.signals else t'.controls) && m.key == key)
  {
    var s := Exec(INITIAL, trace);
    ExecKeepsInv(INITIAL, trace);
    RedeliveryFrom(s, key);
  }

  lemma RedeliveryFrom(s: State, key: string)
    requires Books(s) && key in s.tables.commands && s.tables.commands[key].status != Delivered
    ensures var c, t' := s.tables.commands[key].command, Exec(s, Redelivery(key, |s.couriers|)).tables;
            && key in t'.commands && t'.commands[key].command == c && key in t'.audits
            && (t'.commands[key].status == Delivered <==> !BareRecord(c))
            && (BareRecord(c) && key !in s.tables.audits ==> t'.audits[key] != c)
            && (exists m :: m in (if c.action == PlanSignal then t'.signals else t'.controls) && m.key == key)
  {
    assert RowSound(s.tables, key);
    var c := s.tables.commands[key].command;
    RebuiltRecord(c);
    RebuiltIsKin(c);
    var sent := Rebuilt(c).value;
    assert key in s.tables.audits ==> Recorded(s.tables, s.tables.audits[key]);
    RedeliverySteps(s, key, sent);
    RedeliveredIff(s.tables, key, sent);
  }

  /** A key whose audit carries another envelope than its command is never delivered. */
  lemma ForeignAuditBlocks(trace: seq<Step>, more: seq<Step>, key: string)
    requires var t := Exec(INITIAL, trace).tables;
             key in t.commands && key in t.audits && t.audits[key] != t.commands[key].command
    ensures var t := Exec(Exec(INITIAL, trace), more).tables; key in t.commands && t.commands[key].status != Delivered
  {
    ExecKeepsInv(INITIAL, trace);
    ExecKeepsInv(Exec(INITIAL, trace), more);
    assert RowSound(Exec(Exec(INITIAL, trace), more).tables, key);
  }

  lemma {:induction false} ExecSplit(s: State, a: seq<Step>, b: seq<Step>)
    ensures Exec(s, a + b) == Exec(Exec(s, a), b)
    decreases |a|
  {
    if a == [] {
      assert a + b == b;
    } else {
      ExecSplit(Next(s, a[0]), a[1..], b);
      assert (a + b)[1..] == a[1..] + b;
    }
  }

  /** A caller records a signal with a nil payload and stops; the reconciler delivers it once.
      Whatever anybody does afterwards, the command is not delivered and stays up for recovery. */
  lemma BareSignalNeverDelivered(r: Request, more: seq<Step>)
    requires Valid(r) && Bare(r)
    ensures var key := Envelope(r).key;
            var t := Exec(Exec(INITIAL, [Submit(r), Crash(0)] + Redelivery(key, 0)), more).tables;
            key in t.commands && t.commands[key].status != Delivered
  {
    var key := Envelope(r).key;
    var start := [Submit(r), Crash(0)];
    var s := Exec(INITIAL, start);
    assert s.tables.commands[key] == Row(Envelope(r), Pending) && key !in s.tables.audits && s.couriers == [] by {
      assert start[1..] == [Crash(0)] && [Crash(0)][1..] == [];
      assert Exec(INITIAL, start) == Exec(Next(INITIAL, Submit(r)), [Crash(0)]);
      assert Next(INITIAL, Submit(r)).couriers == [Courier(key, Envelope(r), Dispatching)];
    }
    BareEnvelope(r);
    RedeliveryIff(start, key);
    ExecSplit(INITIAL, start, Redelivery(key, 0));
    ForeignAuditBlocks(start + Redelivery(key, 0), more, key);
  }
}
