/** What dispatching a command does, and in which order the workflow applies what was dispatched. */
module PlanDispatch {
  import opened PlanCommandCodec
  import opened PlanCommands
  import opened PlanCommandTheorems
  import opened PlanCommandRuntime
  import opened PlanRestarts

  /******* One delivery *******/

  function ChannelOf(t: Tables, action: Action): seq<Record> {
    match action
    case PlanSignal => t.signals
    case PlanControl => t.controls
  }

  /** How an uninterrupted delivery leaves its command. A dispatch that was not acknowledged marks it
      failed; one that was acknowledged and audited with the recorded envelope marks it delivered. */
  function StatusAfter(t: Tables, key: string, sent: Record, lucks: Lucks): Status
    requires key in t.commands
  {
    var row := t.commands[key];
    if lucks.first != Done then (if lucks.second == Undone then row.status else Failed)
    else if lucks.second == Done && lucks.third != Undone && sent == row.command
            && (key !in t.audits || t.audits[key] == sent) then Delivered
    else row.status
  }

  /** The last of the channel is what was sent, unless nothing was; the audit is the first one
      written; and no other command is touched. */
  lemma DeliveryOutcome(t: Tables, key: string, sent: Record, lucks: Lucks)
    requires key in t.commands && t.commands[key].status != Delivered && sent.key == key
    ensures var t' := Delivery(t, Courier(key, sent, Dispatching), lucks);
            && t'.commands == t.commands[key := Row(t.commands[key].command, StatusAfter(t, key, sent, lucks))]
            && t'.audits == (if key !in t.audits && lucks.first == Done && lucks.second != Undone
                             then t.audits[key := sent] else t.audits)
            && Sends(t, sent, lucks.first != Undone, t')
  {
    var t1 := if lucks.first == Undone then t else SignalWorkflow(t, sent);
    assert Sends(t, sent, lucks.first != Undone, t1);
    if lucks.first == Done { AuditThenMark(t1, key, sent, lucks); }
  }

  /** The channel of the command has it at its end, or not, and the other channel is as it was. */
  ghost predicate Sends(t: Tables, c: Record, sent: bool, t': Tables) {
    && ChannelOf(t', c.action) == ChannelOf(t, c.action) + (if sent then [c] else [])
    && forall action :: action != c.action ==> ChannelOf(t', action) == ChannelOf(t, action)
  }

  lemma AuditThenMark(t: Tables, key: string, sent: Record, lucks: Lucks)
    requires key in t.commands && t.commands[key].status != Delivered && sent.key == key && lucks.first == Done
    ensures var p := Perform(t, Courier(key, sent, Auditing), lucks.second);
            var t' := if p.next == [] then p.tables else Perform(p.tables, p.next[0], lucks.third).tables;
            && t'.commands == t.commands[key := Row(t.commands[key].command, StatusAfter(t, key, sent, lucks))]
            && t'.audits == (if key !in t.audits && lucks.second != Undone then t.audits[key := sent] else t.audits)
            && t'.signals == t.signals && t'.controls == t.controls
  {}

  /** A stored command that cannot be rebuilt is marked failed, unless that fails; it is neither
      dispatched nor audited, and no other command is touched. */
  lemma UnreadableIsFailed(t: Tables, row: Row, lucks: Lucks)
    requires Rebuilt(row.command).Refused? && row.status != Delivered
    requires row.command.key in t.commands && t.commands[row.command.key].status != Delivered
    ensures var key := row.command.key;
            Deliver(t, row, lucks)
            == t.(commands := if lucks.first == Undone then t.commands
                              else t.commands[key := Row(t.commands[key].command, Failed)])
    ensures !Acknowledged(t, Reconciler(row.command), lucks)
  {}

  /******* Calls *******/

  /** A caller is taken on if and only if its request is valid and its key is new or was recorded with
      the same envelope. A new command is recorded as pending; a delivered one is only audited again. */
  lemma SubmitIff(s: State, r: Request)
    ensures var c, s' := Envelope(r), Next(s, Submit(r));
            if Valid(r) && (c.key in s.tables.commands ==> s.tables.commands[c.key].command == c) then
              var known := c.key in s.tables.commands;
              var delivered := known && s.tables.commands[c.key].status == Delivered;
              && s'.couriers == s.couriers + [Courier(c.key, c, if delivered then AuditingOnly else Dispatching)]
              && s'.tables.commands
                 == (if known then s.tables.commands else s.tables.commands[c.key := Row(c, Pending)])
              && s' == s.(tables := s.tables.(commands := s'.tables.commands), couriers := s'.couriers)
            else s' == s
  {}

  /** A repeated call of a delivered command writes the audit if it was missing, and nothing else. */
  lemma AuditAgain(t: Tables, c: Record, luck: Luck)
    ensures Perform(t, Courier(c.key, c, AuditingOnly), luck)
            == Progress(if luck == Undone || c.key in t.audits then t else t.(audits := t.audits[c.key := c]), [])
  {}

  /** A chain that has ended applies nothing more; it ends when its plan is closed or a drain stops. */
  lemma EndedIsQuiet(s: State, a: Step)
    ensures s.ended && !a.Restart? ==> Next(s, a).ended && Next(s, a).applied == s.applied
    ensures Next(s, Close).ended
    ensures !s.ended && (a.DrainSignals? || a.DrainControls?) ==>
              var action := if a.DrainSignals? then PlanSignal else PlanControl;
              (Next(s, a).ended
               <==> Drain(ChannelOf(s.tables, action), Processed(s, action), s.applied, a.effect).verdict != Proceed)
  {}

  /******* The order of a drain *******/

  /** The first message with its key on the channel, and the key is new. */
  predicate First(channel: seq<Record>, processed: set<string>, i: int)
    requires 0 <= i < |channel|
  {
    channel[i].key != "" && channel[i].key !in processed && forall j :: 0 <= j < i ==> channel[j].key != channel[i].key
  }

  /** The first messages with new keys among the first n of the channel, in their order. */
  function Firsts(channel: seq<Record>, processed: set<string>, n: nat): seq<Record>
    requires n <= |channel|
  {
    if n == 0 then []
    else
      Firsts(channel, processed, n - 1) + if First(channel, processed, n - 1) then [channel[n - 1]] else []
  }

  /** The keys known after a message, and what it adds to what is applied. */
  function Seen(c: Record, processed: set<string>): set<string> {
    if c.key == "" || c.key in processed then processed else processed + {c.key}
  }

  function Added(c: Record, processed: set<string>): seq<Record> {
    if c.key == "" || c.key in processed then [] else [c]
  }

  lemma {:induction false} FirstsCons(channel: seq<Record>, processed: set<string>, n: nat)
    requires 0 < n <= |channel|
    ensures var c, rest := channel[0], channel[1..];
            Firsts(channel, processed, n) == Added(c, processed) + Firsts(rest, Seen(c, processed), n - 1)
  {
    var c, rest := channel[0], channel[1..];
    if n == 1 {
      FirstIsFirst(channel, processed);
    } else {
      FirstsCons(channel, processed, n - 1);
      FirstOfRest(channel, processed, n - 1);
      FirstsStep(channel, processed, rest, Seen(c, processed), Added(c, processed), n);
    }
  }

  lemma FirstIsFirst(channel: seq<Record>, processed: set<string>)
    requires channel != []
    ensures Firsts(channel, processed, 1) == Added(channel[0], processed)
  {
    assert Firsts(channel, processed, 0) == [];
  }

  lemma FirstsStep(channel: seq<Record>, processed: set<string>, rest: seq<Record>, seen: set<string>,
                   added: seq<Record>, n: nat)
    requires 1 < n <= |channel| && |rest| == |channel| - 1 && rest[n - 2] == channel[n - 1]
    requires Firsts(channel, processed, n - 1) == added + Firsts(rest, seen, n - 2)
    requires First(channel, processed, n - 1) <==> First(rest, seen, n - 2)
    ensures Firsts(channel, processed, n) == added + Firsts(rest, seen, n - 1)
  {
    var last := if First(rest, seen, n - 2) then [rest[n - 2]] else [];
    assert (added + Firsts(rest, seen, n - 2)) + last == added + (Firsts(rest, seen, n - 2) + last);
  }

  lemma FirstOfRest(channel: seq<Record>, processed: set<string>, i: int)
    requires 0 < i < |channel|
    ensures First(channel, processed, i) <==> First(channel[1..], Seen(channel[0], processed), i - 1)
  {
    var c, rest := channel[0], channel[1..];
    if First(rest, Seen(c, processed), i - 1) {
      forall j | 0 <= j < i ensures channel[j].key != channel[i].key {
        if j > 0 { assert rest[j - 1].key != rest[i - 1].key; }
      }
    }
    if First(channel, processed, i) {
      forall j | 0 <= j < i - 1 ensures rest[j].key != rest[i - 1].key { assert channel[j + 1].key != channel[i].key; }
    }
  }

  /** How many messages a drain takes off its channel. */
  function Taken(channel: seq<Record>, processed: set<string>, effect: Record -> Verdict): int {
    |channel| - |Drain(channel, processed, [], effect).rest|
  }

  /** A drain and the one it goes on with after its first message. */
  lemma DrainStep(channel: seq<Record>, processed: set<string>, effect: Record -> Verdict)
    requires channel != []
    ensures var c, rest := channel[0], channel[1..];
            var d, d' := Drain(channel, processed, [], effect), Drain(rest, Seen(c, processed), [], effect);
            if c.key == "" then d.rest == rest && d.applied == [] && d.verdict == Fail
            else if c.key in processed || effect(c) == Proceed then
              d.rest == d'.rest && d.applied == Added(c, processed) + d'.applied && d.verdict == d'.verdict
            else d.rest == rest && d.applied == [c] && d.verdict == effect(c)
  {
    var c, rest := channel[0], channel[1..];
    assert [] + [c] == [c];
    if c.key != "" && c.key !in processed && effect(c) == Proceed {
      DrainAppends(rest, processed + {c.key}, [c], effect);
    }
  }

  /** A drain takes messages off the front of its channel and applies, in their order, the first one
      of every new key. */
  lemma {:induction false} DrainTakesFirsts(channel: seq<Record>, processed: set<string>, effect: Record -> Verdict)
    ensures var d, n := Drain(channel, processed, [], effect), Taken(channel, processed, effect);
            0 <= n <= |channel| && d.rest == channel[n..] && d.applied == Firsts(channel, processed, n)
    decreases |channel|
  {
    if channel != [] {
      var c, rest := channel[0], channel[1..];
      DrainStep(channel, processed, effect);
      DrainTakesFirsts(rest, Seen(c, processed), effect);
      FirstsCons(channel, processed, Taken(channel, processed, effect));
    }
  }

  /** It goes on to the end of the channel unless a message has no key, or an effect does not let it
      proceed; then this message is the last it takes and the reason is its verdict. */
  lemma {:induction false} DrainVerdict(channel: seq<Record>, processed: set<string>, effect: Record -> Verdict)
    ensures var d, n := Drain(channel, processed, [], effect), Taken(channel, processed, effect);
            && 0 <= n <= |channel|
            && (forall i :: 0 <= i < n - 1 ==>
                  channel[i].key != "" && (First(channel, processed, i) ==> effect(channel[i]) == Proceed))
            && (d.verdict != Proceed ==>
                  n > 0 && if channel[n - 1].key == "" then d.verdict == Fail
                           else First(channel, processed, n - 1) && d.verdict == effect(channel[n - 1]))
            && (d.verdict == Proceed ==>
                  && n == |channel|
                  && (n > 0 ==> channel[n - 1].key != ""
                                && (First(channel, processed, n - 1) ==> effect(channel[n - 1]) == Proceed)))
    decreases |channel|
  {
    if channel != [] {
      var c, rest := channel[0], channel[1..];
      DrainStep(channel, processed, effect);
      if c.key != "" && (c.key in processed || effect(c) == Proceed) {
        DrainVerdict(rest, Seen(c, processed), effect);
        var n := Taken(channel, processed, effect);
        forall i | 0 < i < n
          ensures First(channel, processed, i) <==> First(rest, Seen(c, processed), i - 1)
        {
          FirstOfRest(channel, processed, i);
        }
        forall i | 0 <= i < n - 1
          ensures channel[i].key != "" && (First(channel, processed, i) ==> effect(channel[i]) == Proceed)
        {
          if i > 0 { assert rest[i - 1] == channel[i]; }
        }
      }
    }
  }

  /******* The order of a chain *******/

  predicate Is(c: Record, action: Action, key: string) { c.action == action && c.key == key }

  ghost predicate Has(line: seq<Record>, action: Action, key: string) {
    exists i :: 0 <= i < |line| && Is(line[i], action, key)
  }

  /** Whatever carries the second key stands behind something that carries the first. */
  ghost predicate Leads(line: seq<Record>, action: Action, first: string, second: string) {
    forall j :: 0 <= j < |line| && Is(line[j], action, second) ==>
                  exists i :: 0 <= i < j && Is(line[i], action, first)
  }

  /** What the chain has applied, and behind it what waits on a channel. */
  function Line(s: State, action: Action): seq<Record> { s.applied + ChannelOf(s.tables, action) }

  /** The first key was dispatched, and everything of the second key came later. */
  ghost predicate Ahead(s: State, action: Action, first: string, second: string) {
    Leads(Line(s, action), action, first, second) && Has(Line(s, action), action, first)
  }

  lemma LeadsPrefix(a: seq<Record>, b: seq<Record>, action: Action, first: string, second: string)
    requires Leads(a + b, action, first, second)
    ensures Leads(a, action, first, second)
  {
    forall j | 0 <= j < |a| && Is(a[j], action, second) ensures exists i :: 0 <= i < j && Is(a[i], action, first) {
      assert (a + b)[j] == a[j];
      var i :| 0 <= i < j && Is((a + b)[i], action, first);
      assert (a + b)[i] == a[i];
    }
  }

  lemma LeadsAppend(a: seq<Record>, b: seq<Record>, action: Action, first: string, second: string)
    requires Leads(a, action, first, second) && Has(a, action, first)
    ensures Leads(a + b, action, first, second) && Has(a + b, action, first)
  {
    var k :| 0 <= k < |a| && Is(a[k], action, first);
    assert (a + b)[k] == a[k];
    forall j | 0 <= j < |a + b| && Is((a + b)[j], action, second)
      ensures exists i :: 0 <= i < j && Is((a + b)[i], action, first)
    {
      if j < |a| {
        assert (a + b)[j] == a[j];
        var i :| 0 <= i < j && Is(a[i], action, first);
        assert (a + b)[i] == a[i];
      }
    }
  }

  /** Messages of the other channel do not matter. */
  lemma LeadsInsert(a: seq<Record>, m: seq<Record>, b: seq<Record>, action: Action, first: string, second: string)
    requires Leads(a + b, action, first, second) && Has(a + b, action, first)
    requires forall c :: c in m ==> c.action != action
    ensures Leads(a + m + b, action, first, second) && Has(a + m + b, action, first)
  {
    var before, after := a + b, a + m + b;
    forall i | 0 <= i < |before| ensures after[if i < |a| then i else i + |m|] == before[i] {}
    var k :| 0 <= k < |before| && Is(before[k], action, first);
    assert after[if k < |a| then k else k + |m|] == before[k];
    forall j | 0 <= j < |after| && Is(after[j], action, second)
      ensures exists i :: 0 <= i < j && Is(after[i], action, first)
    {
      var j' := if j < |a| then j else j - |m|;
      assert before[j'] == after[j];
      var i :| 0 <= i < j' && Is(before[i], action, first);
      assert after[if i < |a| then i else i + |m|] == before[i];
    }
  }

  /** A message can be dropped if it is not of the first key, or that key stands before it. */
  lemma LeadsDrop(a: seq<Record>, c: Record, b: seq<Record>, action: Action, first: string, second: string)
    requires Leads(a + ([c] + b), action, first, second) && Has(a + ([c] + b), action, first)
    requires Is(c, action, first) ==> Has(a, action, first)
    ensures Leads(a + b, action, first, second) && Has(a + b, action, first)
  {
    var before, after := a + ([c] + b), a + b;
    forall i | 0 <= i < |after| ensures after[i] == before[if i < |a| then i else i + 1] {}
    if Has(a, action, first) {
      LeadsPrefix(a, [c] + b, action, first, second);
      LeadsAppend(a, b, action, first, second);
    } else {
      var k :| 0 <= k < |before| && Is(before[k], action, first);
      assert k != |a|;
      assert after[if k < |a| then k else k - 1] == before[k];
      forall j | 0 <= j < |after| && Is(after[j], action, second)
        ensures exists i :: 0 <= i < j && Is(after[i], action, first)
      {
        var j' := if j < |a| then j else j + 1;
        var i :| 0 <= i < j' && Is(before[i], action, first);
        assert i != |a|;
        assert after[if i < |a| then i else i - 1] == before[i];
      }
    }
  }

  lemma {:induction false} DrainKeepsLeads(channel: seq<Record>, processed: set<string>, applied: seq<Record>,
                                           effect: Record -> Verdict, action: Action, first: string, second: string)
    requires Leads(applied + channel, action, first, second) && Has(applied + channel, action, first)
    requires first != "" && (first in processed ==> Has(applied, action, first))
    requires forall c :: c in channel ==> c.action == action
    ensures var d := Drain(channel, processed, applied, effect);
            Leads(d.applied + d.rest, action, first, second) && Has(d.applied + d.rest, action, first)
    decreases |channel|
  {
    if channel != [] {
      var c, rest := channel[0], channel[1..];
      assert channel == [c] + rest;
      assert c in channel && forall x :: x in rest ==> x in channel;
      if c.key == "" || c.key in processed {
        LeadsDrop(applied, c, rest, action, first, second);
        if c.key != "" { DrainKeepsLeads(rest, processed, applied, effect, action, first, second); }
      } else {
        assert applied + channel == (applied + [c]) + rest;
        if first in processed + {c.key} { HasAppend(applied, c, action, first); }
        if effect(c) == Proceed {
          DrainKeepsLeads(rest, processed + {c.key}, applied + [c], effect, action, first, second);
        }
      }
    }
  }

  lemma HasAppend(applied: seq<Record>, c: Record, action: Action, key: string)
    requires c.action == action && (c.key == key || Has(applied, action, key))
    ensures Has(applied + [c], action, key)
  {
    if c.key == key {
      assert Is((applied + [c])[|applied|], action, key);
    } else {
      var i :| 0 <= i < |applied| && Is(applied[i], action, key);
      assert (applied + [c])[i] == applied[i];
    }
  }

  /** The step belongs to the same chain, and it loses nothing of the channel before the key was
      applied. */
  ghost predicate Keeps(s: State, a: Step, action: Action, key: string) {
    && (a.Restart? ==> !s.ended)
    && (a.ContinueAsNew? ==>
          Has(s.applied, action, key)
          || ChannelOf(s.tables, action) == (if action == PlanSignal then a.signals else a.controls))
  }

  ghost predicate AllKeep(s: State, trace: seq<Step>, action: Action, key: string)
    decreases |trace|
  {
    trace == [] || (Keeps(s, trace[0], action, key) && AllKeep(Next(s, trace[0]), trace[1..], action, key))
  }

  lemma ProcessedIsApplied(s: State, action: Action, key: string)
    requires key in KeysOf(s.applied, action)
    ensures Has(s.applied, action, key)
  {
    var c :| c in s.applied && c.action == action && c.key == key;
    var i :| 0 <= i < |s.applied| && s.applied[i] == c;
    assert Is(s.applied[i], action, key);
  }

  lemma AdvanceKeepsAhead(s: State, i: int, luck: Luck, action: Action, first: string, second: string)
    requires 0 <= i < |s.couriers| && Ahead(s, action, first, second)
    ensures Ahead(Advanced(s, i, luck), action, first, second)
  {
    var t, t' := s.tables, Perform(s.tables, s.couriers[i], luck).tables;
    var sent := s.couriers[i].sent;
    assert ChannelOf(t', action) == ChannelOf(t, action) || ChannelOf(t', action) == ChannelOf(t, action) + [sent];
    if ChannelOf(t', action) != ChannelOf(t, action) {
      assert s.applied + (ChannelOf(t, action) + [sent]) == Line(s, action) + [sent];
      LeadsAppend(Line(s, action), [sent], action, first, second);
    }
  }

  lemma OtherDrainKeepsLeads(applied: seq<Record>, channel: seq<Record>, processed: set<string>,
                             effect: Record -> Verdict, waiting: seq<Record>, action: Action, first: string,
                             second: string)
    requires Leads(applied + waiting, action, first, second) && Has(applied + waiting, action, first)
    requires forall c :: c in channel ==> c.action != action
    ensures var all := Drain(channel, processed, applied, effect).applied;
            Leads(all + waiting, action, first, second) && Has(all + waiting, action, first)
  {
    var tail := DrainKeeps(channel, processed, applied, effect);
    LeadsInsert(applied, tail, waiting, action, first, second);
  }

  lemma DrainKeepsAhead(s: State, a: Step, action: Action, first: string, second: string)
    requires Ledger(s) && Ahead(s, action, first, second) && first != "" && (a.DrainSignals? || a.DrainControls?)
    ensures Ahead(Next(s, a), action, first, second)
  {
    if !s.ended {
      var drained := if a.DrainSignals? then PlanSignal else PlanControl;
      var channel, processed := ChannelOf(s.tables, drained), KeysOf(s.applied, drained);
      if drained == action {
        if first in processed { ProcessedIsApplied(s, action, first); }
        DrainKeepsLeads(channel, processed, s.applied, a.effect, action, first, second);
      } else {
        var waiting := ChannelOf(s.tables, action);
        OtherDrainKeepsLeads(s.applied, channel, processed, a.effect, waiting, action, first, second);
      }
    }
  }

  lemma ContinueKeepsAhead(s: State, a: Step, action: Action, first: string, second: string)
    requires Ahead(s, action, first, second) && a.ContinueAsNew? && Keeps(s, a, action, first)
    ensures Ahead(Next(s, a), action, first, second)
  {
    if !s.ended && Carries(s, a) && Has(s.applied, action, first) {
      LeadsPrefix(s.applied, ChannelOf(s.tables, action), action, first, second);
      LeadsAppend(s.applied, ChannelOf(Next(s, a).tables, action), action, first, second);
    }
  }

  lemma NextKeepsAhead(s: State, a: Step, action: Action, first: string, second: string)
    requires Ledger(s) && Ahead(s, action, first, second) && first != "" && Keeps(s, a, action, first)
    ensures Ahead(Next(s, a), action, first, second)
  {
    match a {
      case Submit(_) =>
      case Recover(_) =>
      case Advance(i, luck) => if 0 <= i < |s.couriers| { AdvanceKeepsAhead(s, i, luck, action, first, second); }
      case Crash(_) =>
      case DrainSignals(_) => DrainKeepsAhead(s, a, action, first, second);
      case DrainControls(_) => DrainKeepsAhead(s, a, action, first, second);
      case Close =>
      case Restart =>
      case ContinueAsNew(_, _, _, _) => ContinueKeepsAhead(s, a, action, first, second);
    }
  }

  lemma {:induction false} ExecKeepsAhead(s: State, trace: seq<Step>, action: Action, first: string, second: string)
    requires Inv(s) && Ahead(s, action, first, second) && first != "" && AllKeep(s, trace, action, first)
    ensures Ahead(Exec(s, trace), action, first, second)
    decreases |trace|
  {
    if trace != [] {
      NextKeepsAhead(s, trace[0], action, first, second);
      NextKeepsInv(s, trace[0]);
      ExecKeepsAhead(Next(s, trace[0]), trace[1..], action, first, second);
    }
  }

  /** A dispatch puts the command at the end of its channel. */
  lemma DispatchIsLast(s: State, i: int, luck: Luck)
    requires 0 <= i < |s.couriers| && s.couriers[i].stage == Dispatching && luck != Undone
    ensures var c, s' := s.couriers[i].sent, Next(s, Advance(i, luck));
            && ChannelOf(s'.tables, c.action) == ChannelOf(s.tables, c.action) + [c]
            && Line(s', c.action) == Line(s, c.action) + [c]
  {
    var c := s.couriers[i].sent;
    assert s.applied + (ChannelOf(s.tables, c.action) + [c]) == Line(s, c.action) + [c];
  }

  /** Of two commands of one channel the one that was dispatched first is applied first: however the
      run goes on, in the same chain and without a continuation that loses the first command, nothing
      that carries the second key is applied before something that carries the first. */
  lemma DispatchOrder(trace: seq<Step>, i: int, luck: Luck, more: seq<Step>, second: string)
    requires var s := Exec(INITIAL, trace);
             0 <= i < |s.couriers| && s.couriers[i].stage == Dispatching && luck != Undone
    requires var s := Exec(INITIAL, trace);
             var c, s' := s.couriers[i].sent, Next(s, Advance(i, luck));
             !Has(Line(s', c.action), c.action, second) && AllKeep(s', more, c.action, c.key)
    ensures var s := Exec(INITIAL, trace);
            var c := s.couriers[i].sent;
            Leads(Exec(Next(s, Advance(i, luck)), more).applied, c.action, c.key, second)
  {
    var s := Exec(INITIAL, trace);
    var c, s' := s.couriers[i].sent, Next(s, Advance(i, luck));
    ExecKeepsInv(INITIAL, trace);
    NextKeepsInv(s, Advance(i, luck));
    DispatchIsLast(s, i, luck);
    HasAppend(Line(s, c.action), c, c.action, c.key);
    assert c.key != "" by { assert CourierSound(s.tables, s.couriers[i]); }
    ExecKeepsAhead(s', more, c.action, c.key, second);
    LeadsPrefix(Exec(s', more).applied, ChannelOf(Exec(s', more).tables, c.action), c.action, c.key, second);
  }

  /******* What a loss can do *******/

  lemma {:induction false} KeySequence(keys: set<string>) returns (line: seq<string>)
    ensures forall k :: k in line <==> k in keys
    decreases |keys|
  {
    line := [];
    if keys != {} {
      var k :| k in keys;
      var rest := KeySequence(keys - {k});
      line := rest + [k];
    }
  }

  lemma DrainSingle(c: Record, processed: set<string>, applied: seq<Record>)
    requires c.key != "" && c.key !in processed
    ensures Drain([c], processed, applied, Proceeds) == Drained([], processed + {c.key}, applied + [c], Proceed)
  {
    assert [c][1..] == [];
    assert Drain([c], processed, applied, Proceeds) == Drain([], processed + {c.key}, applied + [c], Proceeds);
  }

  function Processed(s: State, action: Action): set<string> {
    match action
    case PlanSignal => s.processedSignals
    case PlanControl => s.processedControls
  }

  /** One message waits on a channel, and its drain applies it. */
  lemma DrainsOne(s: State, c: Record)
    requires !s.ended && ChannelOf(s.tables, c.action) == [c] && c.key != "" && c.key !in Processed(s, c.action)
    ensures var s' := Next(s, DrainOf(c.action));
            && s'.applied == s.applied + [c] && ChannelOf(s'.tables, c.action) == [] && !s'.ended
            && Processed(s', c.action) == Processed(s, c.action) + {c.key}
            && s'.couriers == s.couriers && s'.tables.commands == s.tables.commands
  {
    DrainSingle(c, Processed(s, c.action), s.applied);
  }

  /** A continuation that inherits one message of a channel and nothing else. */
  lemma LosesRest(s: State, c: Record) returns (a: Step)
    requires "" !in s.processedSignals && "" !in s.processedControls
    requires !s.ended && c in ChannelOf(s.tables, c.action)
    ensures a.ContinueAsNew? && Carries(s, a)
    ensures Next(s, a) == s.(tables := Next(s, a).tables) && Next(s, a).tables.commands == s.tables.commands
    ensures ChannelOf(Next(s, a).tables, c.action) == [c]
  {
    var signals := KeySequence(s.processedSignals);
    var controls := KeySequence(s.processedControls);
    a := ContinueAsNew(signals, controls, if c.action == PlanSignal then [c] else [],
                       if c.action == PlanControl then [c] else []);
    assert (set k | k in signals) == s.processedSignals && (set k | k in controls) == s.processedControls;
    CarriedKeys(signals, s.processedSignals);
    CarriedKeys(controls, s.processedControls);
  }

  /** The reconciler takes a command up again, dispatches it, and the workflow applies it. */
  lemma RedeliveredIsApplied(s: State, key: string, sent: Record)
    requires !s.ended && key in s.tables.commands && s.tables.commands[key].status != Delivered
    requires s.tables.commands[key].command.key == key && Rebuilt(s.tables.commands[key].command) == Decoded(sent)
    requires sent.key == key != "" && ChannelOf(s.tables, sent.action) == [] && key !in Processed(s, sent.action)
    ensures Next(Next(Next(s, Recover(key)), Advance(|s.couriers|, Done)), DrainOf(sent.action)).applied
            == s.applied + [sent]
  {
    var courier := Courier(key, sent, Dispatching);
    var s1 := Next(s, Recover(key));
    assert s1.couriers == s.couriers + [courier];
    LastAdvances(s1, s.couriers, courier);
    var s2 := Next(s1, Advance(|s.couriers|, Done));
    assert ChannelOf(s2.tables, sent.action) == [sent];
    DrainsOne(s2, sent);
  }

  lemma ExecFive(s: State, a: Step, b: Step, c: Step, d: Step, e: Step)
    ensures Exec(s, [] + [a] + [b] + [c] + [d] + [e]) == Next(Next(Next(Next(Next(s, a), b), c), d), e)
  {
    ExecSnoc(s, [], a);
    ExecSnoc(s, [] + [a], b);
    ExecSnoc(s, [] + [a] + [b], c);
    ExecSnoc(s, [] + [a] + [b] + [c], d);
    ExecSnoc(s, [] + [a] + [b] + [c] + [d], e);
  }

  lemma AppliedKeys(s: State, action: Action, key: string)
    requires Ledger(s) && key !in Keys(s.applied)
    ensures key !in Processed(s, action)
  {}

  lemma AppliedAreKeyed(s: State)
    requires Ledger(s)
    ensures "" !in s.processedSignals && "" !in s.processedControls
  {}

  /** The loss is what matters: in every reachable state in which a recorded command of a channel is
      neither delivered nor applied, and another one waits there, a continuation that inherits only
      the other one lets it be applied first, and the reconciler brings the lost one in behind it. */
  lemma LossReverses(trace: seq<Step>, first: string, c: Record) returns (more: seq<Step>, sent: Record)
    requires var s := Exec(INITIAL, trace);
             && !s.ended && c in ChannelOf(s.tables, c.action) && c.key !in Keys(s.applied) && first != c.key
             && first in s.tables.commands && s.tables.commands[first].status != Delivered
             && s.tables.commands[first].command.action == c.action && first !in Keys(s.applied)
    ensures sent.key == first && sent.action == c.action
    ensures Exec(Exec(INITIAL, trace), more).applied == Exec(INITIAL, trace).applied + [c] + [sent]
  {
    var s := Exec(INITIAL, trace);
    ExecKeepsInv(INITIAL, trace);
    assert RowSound(s.tables, first);
    RebuiltRecord(s.tables.commands[first].command);
    RebuiltIsKin(s.tables.commands[first].command);
    sent := Rebuilt(s.tables.commands[first].command).value;
    AppliedKeys(s, c.action, first);
    AppliedKeys(s, c.action, c.key);
    assert c.key != "" by { assert Known(s.tables, c); }
    AppliedAreKeyed(s);
    var lossy := LosesRest(s, c);
    var s1 := Next(s, lossy);
    DrainsOne(s1, c);
    var s2 := Next(s1, DrainOf(c.action));
    RedeliveredIsApplied(s2, first, sent);
    ExecFive(s, lossy, DrainOf(c.action), Recover(first), Advance(|s.couriers|, Done), DrainOf(c.action));
    more := [] + [lossy] + [DrainOf(c.action)] + [Recover(first)] + [Advance(|s.couriers|, Done)]
            + [DrainOf(c.action)];
  }
}
