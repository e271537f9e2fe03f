/** The command outbox of a plan and the workflow that consumes it. Callers and the reconciler
    record, dispatch, audit and mark commands one operation at a time, any of them can stop
    between two operations, and the workflow drops keys it has seen. */
module PlanCommands {
  import opened PlanCommandCodec

  datatype Status = Pending | Delivered | Failed

  datatype Row = Row(command: Record, status: Status)

  /** The command and audit tables, both keyed by idempotency key, the two signal channels of the
      workflow, and the keys that were ever put into them. */
  datatype Tables = Tables(
    commands: map<string, Row>,
    audits: map<string, Record>,
    dispatched: set<string>,
    signals: seq<Record>,
    controls: seq<Record>)

  datatype Answer = Answer(tables: Tables, ok: bool)

  /******* Store operations *******/

  /** A new key is stored as pending; a used one must come with the same envelope. */
  function RecordCommand(t: Tables, c: Record): Answer {
    if c.key in t.commands then Answer(t, t.commands[c.key].command == c)
    else Answer(t.(commands := t.commands[c.key := Row(c, Pending)]), true)
  }

  function RecordAudit(t: Tables, c: Record): Answer {
    if c.key in t.audits then Answer(t, t.audits[c.key] == c)
    else Answer(t.(audits := t.audits[c.key := c]), true)
  }

  /** Only a command whose audit carries its own envelope can become delivered. */
  function MarkDelivered(t: Tables, key: string): Answer {
    if key !in t.commands || key !in t.audits || t.audits[key] != t.commands[key].command then Answer(t, false)
    else Answer(t.(commands := t.commands[key := t.commands[key].(status := Delivered)]), true)
  }

  /** Delivered is terminal. */
  function MarkFailed(t: Tables, key: string): Answer {
    if key !in t.commands || t.commands[key].status == Delivered then Answer(t, false)
    else Answer(t.(commands := t.commands[key := t.commands[key].(status := Failed)]), true)
  }

  function SignalWorkflow(t: Tables, c: Record): Tables {
    var sent := t.(dispatched := t.dispatched + {c.key});
    match c.action
    case PlanSignal => sent.(signals := t.signals + [c])
    case PlanControl => sent.(controls := t.controls + [c])
  }

  /******* The workflow's side *******/

  /** How a drain ended: channel empty, plan stopped on purpose, or error. */
  datatype Verdict = Proceed | Stop | Fail

  datatype Drained = Drained(rest: seq<Record>, processed: set<string>, applied: seq<Record>, verdict: Verdict)

  /** Receives until the channel is empty. A key seen before is dropped; a new key is marked
      before its effect is attempted. */
  function Drain(channel: seq<Record>, processed: set<string>, applied: seq<Record>, effect: Record -> Verdict): Drained
    decreases |channel|
  {
    if channel == [] then Drained([], processed, applied, Proceed)
    else
      var c, rest := channel[0], channel[1..];
      if c.key == "" then Drained(rest, processed, applied, Fail)
      else if c.key in processed then Drain(rest, processed, applied, effect)
      else if effect(c) == Proceed then Drain(rest, processed + {c.key}, applied + [c], effect)
      else Drained(rest, processed + {c.key}, applied + [c], effect(c))
  }

  /** The keys a processed map holds. */
  function Held(processed: map<string, bool>): set<string> {
    set k | k in processed && processed[k] && k != ""
  }

  /** Rebuilds the processed map from the keys a continuation carries. */
  function Restore(keys: seq<string>): map<string, bool> {
    if keys == [] then map[]
    else
      var processed := Restore(keys[..|keys| - 1]);
      if keys[|keys| - 1] == "" then processed else processed[keys[|keys| - 1] := true]
  }

  /** A continuation knows exactly the nonempty keys it was given, in whatever order. */
  lemma {:induction false} RestoreHolds(keys: seq<string>)
    ensures Held(Restore(keys)) == set k | k in keys && k != ""
  {
    if keys != [] {
      var init, last := keys[..|keys| - 1], keys[|keys| - 1];
      RestoreHolds(init);
      assert keys == init + [last];
      forall k ensures k in Held(Restore(keys)) <==> k in keys && k != "" {
        assert k in keys <==> k in init || k == last;
        assert k in Held(Restore(init)) <==> k in init && k != "";
      }
    }
  }

  /******* The protocol *******/

  /** The next operation of somebody who is delivering a command. */
  datatype Stage = Dispatching | Auditing | Marking | Failing | AuditingOnly

  /** A caller or a reconciler at work on a command, and the envelope it sends and audits. */
  datatype Courier = Courier(key: string, sent: Record, stage: Stage)

  /** The tables, the couriers at work, the current chain of executions and what it has applied,
      and what the chains before it applied. */
  datatype State = State(
    tables: Tables,
    couriers: seq<Courier>,
    processedSignals: set<string>,
    processedControls: set<string>,
    applied: seq<Record>,
    ended: bool,
    past: seq<seq<Record>>)

  const INITIAL := State(Tables(map[], map[], {}, [], []), [], {}, {}, [], false, [])

  /** What every chain of executions has applied, the closed ones first. */
  function Chains(s: State): seq<seq<Record>> { s.past + [s.applied] }

  /** What became of an operation on a remote service: done, not done, or done and reported as
      an error. */
  datatype Luck = Done | Undone | DoneUnseen

  datatype Step =
    | Submit(request: Request)
    | Recover(key: string)
    | Advance(courier: int, luck: Luck)
    | Crash(courier: int)
    | DrainSignals(effect: Record -> Verdict)
    | DrainControls(effect: Record -> Verdict)
    | Close
    | Restart
    | ContinueAsNew(carriedSignals: seq<string>, carriedControls: seq<string>, signals: seq<Record>,
                    controls: seq<Record>)

  /** A caller records its command before anything else. A delivered command is only audited again. */
  function Submitted(s: State, r: Request): State {
    var c := Envelope(r);
    var answer := RecordCommand(s.tables, c);
    if !Valid(r) || !answer.ok then s
    else
      var stage := if answer.tables.commands[c.key].status == Delivered then AuditingOnly else Dispatching;
      s.(tables := answer.tables, couriers := s.couriers + [Courier(c.key, c, stage)])
  }

  /** The courier of a reconciler that takes up a stored command. */
  function Reconciler(c: Record): Courier {
    match Rebuilt(c)
    case Decoded(sent) => Courier(c.key, sent, Dispatching)
    case Refused => Courier(c.key, c, Failing)
  }

  function Recovered(s: State, key: string): State {
    if key in s.tables.commands && s.tables.commands[key].status != Delivered then
      s.(couriers := s.couriers + [Reconciler(s.tables.commands[key].command)])
    else s
  }

  /** What one operation leaves of a courier: the next stage, or nothing. */
  datatype Progress = Progress(tables: Tables, next: seq<Courier>)

  function Perform(t: Tables, courier: Courier, luck: Luck): Progress {
    var Courier(key, sent, stage) := courier;
    match stage
    case Dispatching =>
      Progress(if luck == Undone then t else SignalWorkflow(t, sent),
               [courier.(stage := if luck == Done then Auditing else Failing)])
    case Auditing =>
      if luck == Undone then Progress(t, [])
      else
        var answer := RecordAudit(t, sent);
        Progress(answer.tables, if luck == Done && answer.ok then [courier.(stage := Marking)] else [])
    case AuditingOnly => Progress(if luck == Undone then t else RecordAudit(t, sent).tables, [])
    case Marking => Progress(if luck == Undone then t else MarkDelivered(t, key).tables, [])
    case Failing => Progress(if luck == Undone then t else MarkFailed(t, key).tables, [])
  }

  function Replace(couriers: seq<Courier>, i: int, next: seq<Courier>): seq<Courier>
    requires 0 <= i < |couriers|
  {
    couriers[..i] + next + couriers[i + 1..]
  }

  function Advanced(s: State, i: int, luck: Luck): State
    requires 0 <= i < |s.couriers|
  {
    var progress := Perform(s.tables, s.couriers[i], luck);
    s.(tables := progress.tables, couriers := Replace(s.couriers, i, progress.next))
  }

  /** A continuation starts from the carried keys; what it inherits of the channels is some of
      what was in them. */
  ghost predicate Carries(s: State, a: Step)
    requires a.ContinueAsNew?
  {
    && (set k | k in a.carriedSignals) == s.processedSignals && (set k | k in a.carriedControls) == s.processedControls
    && (forall c :: c in a.signals ==> c in s.tables.signals)
    && (forall c :: c in a.controls ==> c in s.tables.controls)
  }

  ghost function Next(s: State, a: Step): State {
    match a
    case Submit(r) => Submitted(s, r)
    case Recover(key) => Recovered(s, key)
    case Advance(i, luck) => if 0 <= i < |s.couriers| then Advanced(s, i, luck) else s
    case Crash(i) => if 0 <= i < |s.couriers| then s.(couriers := Replace(s.couriers, i, [])) else s
    case DrainSignals(effect) =>
      if s.ended then s
      else
        var d := Drain(s.tables.signals, s.processedSignals, s.applied, effect);
        s.(tables := s.tables.(signals := d.rest), processedSignals := d.processed, applied := d.applied,
           ended := d.verdict != Proceed)
    case DrainControls(effect) =>
      if s.ended then s
      else
        var d := Drain(s.tables.controls, s.processedControls, s.applied, effect);
        s.(tables := s.tables.(controls := d.rest), processedControls := d.processed, applied := d.applied,
           ended := d.verdict != Proceed)
    case Close => s.(ended := true)
    case Restart =>
      // A start that is delivered again after the workflow closed opens a new chain, which knows
      // nothing of the old one.
      if !s.ended then s
      else
        s.(tables := s.tables.(signals := [], controls := []), processedSignals := {}, processedControls := {},
           applied := [], ended := false, past := s.past + [s.applied])
    case ContinueAsNew(carriedSignals, carriedControls, signals, controls) =>
      if s.ended || !Carries(s, a) then s
      else
        s.(tables := s.tables.(signals := signals, controls := controls),
           processedSignals := Held(Restore(carriedSignals)), processedControls := Held(Restore(carriedControls)))
  }

  ghost function Exec(s: State, trace: seq<Step>): State
    decreases |trace|
  {
    if trace == [] then s else Exec(Next(s, trace[0]), trace[1..])
  }
}
