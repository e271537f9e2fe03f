/** The outbox tables and the workflow's receive loop, updated in place. */
module PlanCommandRuntime {
  import opened PlanCommandCodec
  import opened PlanCommands

  /** What becomes of the operations of one delivery, in the order they are made. */
  datatype Lucks = Lucks(first: Luck, second: Luck, third: Luck)

  /** A delivery by somebody who is not interrupted: operations until the courier is done. */
  function Delivery(t: Tables, courier: Courier, lucks: Lucks): Tables {
    var p := Perform(t, courier, lucks.first);
    if p.next == [] then p.tables
    else
      var p' := Perform(p.tables, p.next[0], lucks.second);
      if p'.next == [] then p'.tables else Perform(p'.tables, p'.next[0], lucks.third).tables
  }

  /** An uninterrupted delivery is a run of the protocol, and it leaves no courier behind. */
  lemma DeliveryIsARun(s: State, courier: Courier, lucks: Lucks)
    requires s.couriers == [courier]
    ensures Exec(s, [Advance(0, lucks.first), Advance(0, lucks.second), Advance(0, lucks.third)])
            == s.(tables := Delivery(s.tables, courier, lucks), couriers := [])
  {
    var s1 := Next(s, Advance(0, lucks.first));
    var s2 := Next(s1, Advance(0, lucks.second));
    var s3 := Next(s2, Advance(0, lucks.third));
    OnlyCourier(s, courier, lucks.first);
    if s1.couriers != [] {
      OnlyCourier(s1, s1.couriers[0], lucks.second);
      if s2.couriers != [] { OnlyCourier(s2, s2.couriers[0], lucks.third); }
    }
    assert s3 == s.(tables := Delivery(s.tables, courier, lucks), couriers := []);
    var trace := [Advance(0, lucks.first), Advance(0, lucks.second), Advance(0, lucks.third)];
    assert trace[1..] == [Advance(0, lucks.second), Advance(0, lucks.third)]
           && trace[1..][1..] == [Advance(0, lucks.third)];
    assert Exec(s, trace) == Exec(s1, trace[1..]);
    assert Exec(s1, trace[1..]) == Exec(s2, [Advance(0, lucks.third)]);
    assert Exec(s2, [Advance(0, lucks.third)]) == Exec(s3, []);
  }

  lemma OnlyCourier(s: State, courier: Courier, luck: Luck)
    requires s.couriers == [courier]
    ensures var p := Perform(s.tables, courier, luck);
            && Next(s, Advance(0, luck)) == s.(tables := p.tables, couriers := p.next)
            && (p.next == [] || p.next == [p.next[0]])
  {
    var p := Perform(s.tables, courier, luck);
    assert Replace([courier], 0, p.next) == p.next;
  }

  function Deliver(t: Tables, row: Row, lucks: Lucks): Tables {
    if row.status == Delivered then t else Delivery(t, Reconciler(row.command), lucks)
  }

  /** Deliveries of stored commands, one after the other. */
  function Deliveries(t: Tables, rows: seq<Row>, lucks: seq<Lucks>): Tables
    requires |lucks| == |rows|
    decreases |rows|
  {
    if rows == [] then t
    else
      var n := |rows| - 1;
      Deliver(Deliveries(t, rows[..n], lucks[..n]), rows[n], lucks[n])
  }

  /** Every operation was made, succeeded, and its result was seen. */
  predicate Acknowledged(t: Tables, courier: Courier, lucks: Lucks) {
    match courier.stage
    case AuditingOnly => lucks.first == Done && RecordAudit(t, courier.sent).ok
    case Dispatching =>
      var audited := RecordAudit(SignalWorkflow(t, courier.sent), courier.sent);
      lucks == Lucks(Done, Done, Done) && audited.ok && MarkDelivered(audited.tables, courier.key).ok
    case _ => false
  }

  /** How many of the deliveries were acknowledged. */
  function Acknowledgements(t: Tables, rows: seq<Row>, lucks: seq<Lucks>): nat
    requires |lucks| == |rows|
    decreases |rows|
  {
    if rows == [] then 0
    else
      var n := |rows| - 1;
      var t', row := Deliveries(t, rows[..n], lucks[..n]), rows[n];
      Acknowledgements(t, rows[..n], lucks[..n])
      + if row.status == Delivered || Acknowledged(t', Reconciler(row.command), lucks[n]) then 1 else 0
  }

  class Outbox {
    var commands: map<string, Row>
    var audits: map<string, Record>
    var dispatched: set<string>
    var signals: seq<Record>
    var controls: seq<Record>

    function View(): Tables
      reads this
    {
      Tables(commands, audits, dispatched, signals, controls)
    }

    constructor ()
      ensures View() == INITIAL.tables
    {
      commands, audits, dispatched, signals, controls := map[], map[], {}, [], [];
    }

    method RecordPlanCommand(c: Record) returns (stored: Decoded<Row>)
      modifies this
      ensures View() == RecordCommand(old(View()), c).tables
      ensures stored.Decoded? <==> RecordCommand(old(View()), c).ok
      ensures stored.Decoded? ==> c.key in commands && stored.value == commands[c.key] && stored.value.command == c
    {
      if c.key in commands {
        if commands[c.key].command != c { return Refused; }
        return Decoded(commands[c.key]);
      }
      commands := commands[c.key := Row(c, Pending)];
      return Decoded(commands[c.key]);
    }

    method RecordPlanAudit(c: Record, luck: Luck) returns (ok: bool)
      modifies this`audits
      ensures View() == if luck == Undone then old(View()) else RecordAudit(old(View()), c).tables
      ensures ok <==> luck == Done && RecordAudit(old(View()), c).ok
    {
      if luck == Undone { return false; }
      if c.key in audits { return luck == Done && audits[c.key] == c; }
      audits := audits[c.key := c];
      return luck == Done;
    }

    method MarkPlanCommandDelivered(key: string, luck: Luck) returns (ok: bool)
      modifies this`commands
      ensures View() == if luck == Undone then old(View()) else MarkDelivered(old(View()), key).tables
      ensures ok <==> luck == Done && MarkDelivered(old(View()), key).ok
    {
      if luck == Undone || key !in commands || key !in audits || audits[key] != commands[key].command { return false; }
      commands := commands[key := commands[key].(status := Delivered)];
      return luck == Done;
    }

    method MarkPlanCommandFailed(key: string, luck: Luck)
      modifies this`commands
      ensures View() == if luck == Undone then old(View()) else MarkFailed(old(View()), key).tables
    {
      if luck == Undone || key !in commands || commands[key].status == Delivered { return; }
      commands := commands[key := commands[key].(status := Failed)];
    }

    method SignalPlanWorkflow(c: Record, luck: Luck) returns (ok: bool)
      modifies this`dispatched, this`signals, this`controls
      ensures View() == if luck == Undone then old(View()) else SignalWorkflow(old(View()), c)
      ensures ok <==> luck == Done
    {
      if luck == Undone { return false; }
      dispatched := dispatched + {c.key};
      match c.action {
        case PlanSignal => signals := signals + [c];
        case PlanControl => controls := controls + [c];
      }
      return luck == Done;
    }

    /** Dispatch, audit, mark: the common end of a call and of a redelivery. */
    method Dispatch(key: string, sent: Record, lucks: Lucks) returns (ok: bool)
      modifies this
      ensures View() == Delivery(old(View()), Courier(key, sent, Dispatching), lucks)
      ensures ok <==> Acknowledged(old(View()), Courier(key, sent, Dispatching), lucks)
      ensures ok ==> key in commands && commands[key].status == Delivered
    {
      ok := SignalPlanWorkflow(sent, lucks.first);
      if !ok {
        MarkPlanCommandFailed(key, lucks.second);
        return;
      }
      ok := RecordPlanAudit(sent, lucks.second);
      if !ok { return; }
      ok := MarkPlanCommandDelivered(key, lucks.third);
    }

    /** SignalPlan and ControlPlan after validation: record, then dispatch, or only audit again
        what was delivered before. */
    method SubmitPlanCommand(r: Request, lucks: Lucks) returns (ok: bool)
      requires Valid(r)
      modifies this
      ensures var s := Next(State(old(View()), [], {}, {}, [], false, []), Submit(r));
              && View() == (if s.couriers == [] then old(View()) else Delivery(s.tables, s.couriers[0], lucks))
              && (ok <==> s.couriers != [] && Acknowledged(s.tables, s.couriers[0], lucks))
      ensures ok ==> Envelope(r).key in commands && commands[Envelope(r).key].status == Delivered
    {
      var c := Envelope(r);
      var stored := RecordPlanCommand(c);
      if stored.Refused? { return false; }
      if stored.value.status == Delivered {
        ok := RecordPlanAudit(c, lucks.first);
        return;
      }
      ok := Dispatch(c.key, c, lucks);
    }

    method DeliverPlanCommand(row: Row, lucks: Lucks) returns (ok: bool)
      modifies this
      ensures View() == Deliver(old(View()), row, lucks)
      ensures ok <==> row.status == Delivered || Acknowledged(old(View()), Reconciler(row.command), lucks)
      ensures ok && row.status != Delivered ==>
                row.command.key in commands && commands[row.command.key].status == Delivered
    {
      if row.status == Delivered { return true; }
      match Rebuilt(row.command) {
        case Refused =>
          MarkPlanCommandFailed(row.command.key, lucks.first);
          return false;
        case Decoded(sent) =>
          ok := Dispatch(row.command.key, sent, lucks);
      }
    }

    /** One reconciler pass over the commands it listed. */
    method RecoverPlanCommands(rows: seq<Row>, lucks: seq<Lucks>) returns (delivered: nat, failed: nat)
      requires |lucks| == |rows|
      modifies this
      ensures View() == Deliveries(old(View()), rows, lucks)
      ensures delivered == Acknowledgements(old(View()), rows, lucks) && failed == |rows| - delivered
    {
      delivered, failed := 0, 0;
      var i := 0;
      while i < |rows|
        invariant 0 <= i <= |rows| && delivered == Acknowledgements(old(View()), rows[..i], lucks[..i])
        invariant failed == i - delivered
        invariant View() == Deliveries(old(View()), rows[..i], lucks[..i])
      {
        assert rows[..i + 1][..i] == rows[..i] && lucks[..i + 1][..i] == lucks[..i];
        var ok := DeliverPlanCommand(rows[i], lucks[i]);
        if ok { delivered := delivered + 1; } else { failed := failed + 1; }
        i := i + 1;
      }
      assert rows[..i] == rows && lucks[..i] == lucks;
    }
  }

  class Workflow {
    var processed: map<string, bool>
    var channel: seq<Record>
    var applied: seq<Record>

    /** The keys given to a continuation are the ones it starts from. */
    constructor (carried: seq<string>, channel: seq<Record>, applied: seq<Record>)
      ensures processed == Restore(carried) && this.channel == channel && this.applied == applied
    {
      this.channel, this.applied := channel, applied;
      processed := map[];
      new;
      var i := 0;
      while i < |carried|
        invariant 0 <= i <= |carried|
        invariant processed == Restore(carried[..i]) && this.channel == channel && this.applied == applied
      {
        assert carried[..i + 1][..i] == carried[..i];
        if carried[i] != "" { processed := processed[carried[i] := true]; }
        i := i + 1;
      }
      assert carried[..i] == carried;
    }

    /** The receive loop of one channel. */
    method DrainChannel(effect: Record -> Verdict) returns (verdict: Verdict)
      modifies this
      ensures var d := Drain(old(channel), Held(old(processed)), old(applied), effect);
              channel == d.rest && Held(processed) == d.processed && applied == d.applied && verdict == d.verdict
    {
      ghost var expected := Drain(channel, Held(processed), applied, effect);
      while channel != []
        invariant Drain(channel, Held(processed), applied, effect) == expected
        decreases |channel|
      {
        var c := channel[0];
        channel := channel[1..];
        if c.key == "" { return Fail; }
        if c.key !in processed || !processed[c.key] {
          ghost var before := Held(processed);
          processed := processed[c.key := true];
          assert Held(processed) == before + {c.key};
          applied := applied + [c];
          verdict := effect(c);
          if verdict != Proceed { return; }
        }
      }
      return Proceed;
    }

    /** The keys handed to the next execution: restored, they are the keys held now. */
    method CarriedKeys() returns (keys: seq<string>)
      ensures (set k | k in keys) == Held(processed)
      ensures Held(Restore(keys)) == Held(processed)
    {
      keys := [];
      var left := processed.Keys;
      while left != {}
        invariant left <= processed.Keys && "" !in keys
        invariant forall k :: k in keys <==> k in Held(processed) && k !in left
        decreases |left|
      {
        var k :| k in left;
        left := left - {k};
        if k != "" && processed[k] { keys := keys + [k]; }
      }
      RestoreHolds(keys);
    }
  }
}
