/** How a signal or a control request becomes the payload of a recorded plan command, what JSON
    storage does to that payload, and how the reconciler rebuilds the request from it. */
module PlanCommandCodec {
  import opened Timestamps

  /** A map that can be nil. */
  datatype NilableMap<+V> = NilMap | Map(entries: map<string, V>)

  /** The dynamic values a payload holds: Go's typed ones and the ones JSON produces. */
  datatype Any =
    | Null
    | SignalType(name: string)
    | Operation(name: string)
    | Text(text: string)
    | Number(value: int)
    | Flag(on: bool)
    | Instant(time: Moment)
    | NilStrings
    | Strings(strings: map<string, string>)
    | NilObject
    | Object(fields: map<string, Any>)
    | List(items: seq<Any>)

  datatype Decoded<+T> = Decoded(value: T) | Refused

  datatype Signal = Signal(kind: string, key: string, actor: string, payload: NilableMap<Any>, sentAt: Moment)

  datatype Control = Control(operation: string, key: string, actor: string, metadata: NilableMap<string>,
                             requestedAt: Moment)

  datatype Request = SignalRequest(signal: Signal) | ControlRequest(control: Control)

  datatype Action = PlanSignal | PlanControl

  /** A recorded command; its audit record carries the same envelope. */
  datatype Record = Record(action: Action, key: string, actor: string, payload: map<string, Any>)

  /******* JSON *******/

  /** What a value is after it was marshalled, stored and unmarshalled. */
  function Json(a: Any): Any {
    match a
    case Null | NilStrings | NilObject => Null
    case SignalType(name) => Text(name)
    case Operation(name) => Text(name)
    case Instant(time) => Text(Format(time))
    case Strings(m) => Object(TextFields(m))
    case Object(m) => Object(map k | k in m :: Json(m[k]))
    case List(items) => List(seq(|items|, i requires 0 <= i < |items| => Json(items[i])))
    case Text(_) | Number(_) | Flag(_) => a
  }

  function JsonFields(m: map<string, Any>): map<string, Any> { map k | k in m :: Json(m[k]) }

  function TextFields(m: map<string, string>): map<string, Any> { map k | k in m :: Text(m[k]) }

  /** A value that JSON has a form for. */
  predicate Plain(a: Any) {
    match a
    case Null | Text(_) | Number(_) | Flag(_) => true
    case Object(m) => forall k :: k in m ==> Plain(m[k])
    case List(items) => forall i :: 0 <= i < |items| ==> Plain(items[i])
    case _ => false
  }

  /** Whatever was stored comes back as such a value. */
  lemma {:induction false} JsonIsPlain(a: Any)
    ensures Plain(Json(a))
  {
    match a {
      case Object(m) =>
        forall k | k in m ensures Plain(Json(m[k])) { JsonIsPlain(m[k]); }
      case List(items) =>
        forall i | 0 <= i < |items| ensures Plain(Json(items[i])) { JsonIsPlain(items[i]); }
      case _ =>
    }
  }

  /** Such a value comes back as itself. */
  lemma {:induction false} PlainIsKept(a: Any)
    requires Plain(a)
    ensures Json(a) == a
  {
    match a {
      case Object(m) =>
        forall k | k in m ensures Json(m[k]) == m[k] { PlainIsKept(m[k]); }
        assert (map k | k in m :: Json(m[k])) == m;
      case List(items) =>
        forall i | 0 <= i < |items| ensures Json(items[i]) == items[i] { PlainIsKept(items[i]); }
      case _ =>
    }
  }

  /** Stored values stay as they are when they are stored again. */
  lemma JsonIdempotent(a: Any)
    ensures Json(Json(a)) == Json(a)
  {
    JsonIsPlain(a);
    PlainIsKept(Json(a));
  }

  lemma JsonFieldsIdempotent(m: map<string, Any>)
    ensures JsonFields(JsonFields(m)) == JsonFields(m)
  {
    forall k | k in m ensures Json(Json(m[k])) == Json(m[k]) { JsonIdempotent(m[k]); }
  }

  function Stored(r: Record): Record { r.(payload := JsonFields(r.payload)) }

  /******* Requests *******/

  const NODE_RETRY := "plan.node.retry"

  const SIGNALS := {"plan.approve", "plan.reject", "user.message", "user.approval", "user.reject",
                    "tool.result", "human.feedback", "config.patch", "memory.patch"}

  const OPERATIONS := {"pause", "resume", "cancel"}

  predicate NamesNode(payload: NilableMap<Any>) {
    && payload.Map? && "node_id" in payload.entries
    && payload.entries["node_id"].Text? && payload.entries["node_id"].text != ""
  }

  predicate ValidSignal(s: Signal) {
    && s.kind != "" && s.key != "" && s.actor != ""
    && (if s.kind == NODE_RETRY then NamesNode(s.payload) else s.kind in SIGNALS)
  }

  predicate ValidControl(c: Control) { c.operation in OPERATIONS && c.actor != "" }

  /** What a caller may submit. */
  predicate Valid(r: Request) {
    match r
    case SignalRequest(s) => ValidSignal(s)
    case ControlRequest(c) => ValidControl(c) && c.key != ""
  }

  /** The fields of a command payload; a zero time is left out. */
  function Payload(first: string, a: Any, second: string, b: Any, third: string, t: Moment): map<string, Any> {
    var fields := map[first := a, second := b];
    if IsZero(t) then fields else fields[third := Instant(t)]
  }

  function ObjectOf(m: NilableMap<Any>): Any { if m.NilMap? then NilObject else Object(m.entries) }

  function StringsOf(m: NilableMap<string>): Any { if m.NilMap? then NilStrings else Strings(m.entries) }

  const TYPE := "type"
  const PAYLOAD := "payload"
  const SENT_AT := "sent_at"
  const OPERATION := "operation"
  const METADATA := "metadata"
  const REQUESTED_AT := "requested_at"

  function RecordSignal(s: Signal): Record {
    Record(PlanSignal, s.key, s.actor,
           Payload(TYPE, SignalType(s.kind), PAYLOAD, ObjectOf(s.payload), SENT_AT, s.sentAt))
  }

  function RecordControl(c: Control): Record {
    Record(PlanControl, c.key, c.actor,
           Payload(OPERATION, Operation(c.operation), METADATA, StringsOf(c.metadata), REQUESTED_AT, c.requestedAt))
  }

  function RecordRequest(r: Request): Record {
    match r
    case SignalRequest(s) => RecordSignal(s)
    case ControlRequest(c) => RecordControl(c)
  }

  /******* Rebuilding *******/

  /** A missing field reads as null: every decoder treats the two alike. */
  function Field(payload: map<string, Any>, key: string): Any {
    if key in payload then payload[key] else Null
  }

  function SignalTypeOf(a: Any): Decoded<string> {
    match a
    case SignalType(name) => Decoded(name)
    case Text(text) => Decoded(text)
    case _ => Refused
  }

  function OperationOf(a: Any): Decoded<string> {
    match a
    case Operation(name) => Decoded(name)
    case Text(text) => Decoded(text)
    case _ => Refused
  }

  function MapOf(a: Any): Decoded<NilableMap<Any>> {
    match a
    case Null | NilStrings => Decoded(Map(map[]))
    case NilObject => Decoded(NilMap)
    case Object(m) => Decoded(Map(m))
    case Strings(m) => Decoded(Map(TextFields(m)))
    case _ => Refused
  }

  predicate AllText(m: map<string, Any>) { forall k :: k in m ==> m[k].Text? }

  function Texts(m: map<string, Any>): map<string, string>
    requires AllText(m)
  {
    map k | k in m :: m[k].text
  }

  function StringMapOf(a: Any): Decoded<NilableMap<string>> {
    match a
    case Null | NilStrings => Decoded(NilMap)
    case NilObject => Decoded(Map(map[]))
    case Strings(m) => Decoded(Map(m))
    case Object(m) => if AllText(m) then Decoded(Map(Texts(m))) else Refused
    case _ => Refused
  }

  function TimeOf(a: Any): Decoded<Moment> {
    match a
    case Null => Decoded(ZERO)
    case Instant(t) => Decoded(t)
    case Text(text) => (match Parse(text) case Parsed(t) => Decoded(t) case Malformed => Refused)
    case _ => Refused
  }

  function SignalOf(key: string, actor: string, first: Any, second: Any, third: Any): Decoded<Signal> {
    var kind, payload, sentAt := SignalTypeOf(first), MapOf(second), TimeOf(third);
    if kind.Refused? || payload.Refused? || sentAt.Refused? then Refused
    else
      var s := Signal(kind.value, key, actor, payload.value, sentAt.value);
      if ValidSignal(s) then Decoded(s) else Refused
  }

  function ControlOf(key: string, actor: string, first: Any, second: Any, third: Any): Decoded<Control> {
    var operation, metadata, requestedAt := OperationOf(first), StringMapOf(second), TimeOf(third);
    if operation.Refused? || metadata.Refused? || requestedAt.Refused? then Refused
    else
      var c := Control(operation.value, key, actor, metadata.value, requestedAt.value);
      if ValidControl(c) then Decoded(c) else Refused
  }

  function SignalFrom(r: Record): Decoded<Signal> {
    SignalOf(r.key, r.actor, Field(r.payload, TYPE), Field(r.payload, PAYLOAD), Field(r.payload, SENT_AT))
  }

  function ControlFrom(r: Record): Decoded<Control> {
    ControlOf(r.key, r.actor, Field(r.payload, OPERATION), Field(r.payload, METADATA), Field(r.payload, REQUESTED_AT))
  }

  function RequestFrom(r: Record): Decoded<Request> {
    match r.action
    case PlanSignal => (match SignalFrom(r) case Decoded(s) => Decoded(SignalRequest(s)) case Refused => Refused)
    case PlanControl => (match ControlFrom(r) case Decoded(c) => Decoded(ControlRequest(c)) case Refused => Refused)
  }

  /** The conversion loop for metadata that came back from JSON: it gives up at the first value
      that is not a string. */
  method StringEntries(m: map<string, Any>) returns (r: Decoded<NilableMap<string>>)
    ensures r.Refused? <==> !AllText(m)
    ensures AllText(m) ==> r == Decoded(Map(Texts(m)))
  {
    var converted: map<string, string> := map[];
    var left := m.Keys;
    while left != {}
      invariant left <= m.Keys && converted.Keys == m.Keys - left
      invariant forall k :: k in converted ==> m[k] == Text(converted[k])
      decreases |left|
    {
      var k :| k in left;
      if !m[k].Text? { return Refused; }
      converted := converted[k := m[k].text];
      left := left - {k};
    }
    assert converted == Texts(m);
    return Decoded(Map(converted));
  }

  /******* Round trips *******/

  /** The payload a stored signal comes back with: nil has become empty, and every value is what
      JSON made of it. */
  function Reread(payload: NilableMap<Any>): NilableMap<Any> {
    Map(if payload.NilMap? then map[] else JsonFields(payload.entries))
  }

  function TimeValue(t: Moment): Any { if IsZero(t) then Null else Instant(t) }

  lemma PayloadFields(first: string, a: Any, second: string, b: Any, third: string, t: Moment)
    requires first != second && first != third && second != third
    ensures var m := Payload(first, a, second, b, third, t);
            && Field(m, first) == a && Field(m, second) == b && Field(m, third) == TimeValue(t)
            && Field(JsonFields(m), first) == Json(a) && Field(JsonFields(m), second) == Json(b)
            && Field(JsonFields(m), third) == Json(TimeValue(t))
  {}

  lemma TimeValueRoundTrip(t: Moment)
    ensures TimeOf(TimeValue(t)) == TimeOf(Json(TimeValue(t))) == Decoded(Normal(t))
  {
    if !IsZero(t) { TimeTextRoundTrip(t, Format(t)); }
  }

  lemma TimeTextRoundTrip(t: Moment, text: string)
    requires text == Format(t)
    ensures TimeOf(Text(text)) == Decoded(t)
  {
    TimeRoundTrip(t);
  }

  lemma MapRoundTrip(m: NilableMap<Any>)
    ensures MapOf(ObjectOf(m)) == Decoded(m) && MapOf(Json(ObjectOf(m))) == Decoded(Reread(m))
  {}

  lemma StringMapRoundTrip(m: NilableMap<string>)
    ensures StringMapOf(StringsOf(m)) == StringMapOf(Json(StringsOf(m))) == Decoded(m)
  {
    if m.Map? {
      assert Texts(TextFields(m.entries)) == m.entries;
    }
  }

  lemma RereadIsValid(s: Signal)
    requires ValidSignal(s)
    ensures ValidSignal(s.(sentAt := Normal(s.sentAt)))
    ensures ValidSignal(s.(payload := Reread(s.payload), sentAt := Normal(s.sentAt)))
  {}

  /** A signal rebuilt from the record its caller holds is the signal. Rebuilt from the stored
      record it has the same type, key, actor and time, and the stored form of its payload. */
  lemma SignalRoundTrip(s: Signal)
    requires ValidSignal(s)
    ensures SignalFrom(RecordSignal(s)) == Decoded(s.(sentAt := Normal(s.sentAt)))
    ensures SignalFrom(Stored(RecordSignal(s))) == Decoded(s.(payload := Reread(s.payload), sentAt := Normal(s.sentAt)))
  {
    PayloadFields(TYPE, SignalType(s.kind), PAYLOAD, ObjectOf(s.payload), SENT_AT, s.sentAt);
    SignalDecodes(s);
  }

  /** A signal whose payload holds only what JSON has a form for comes back from storage whole; a
      nil payload comes back empty. */
  lemma PlainSignalReturns(s: Signal)
    requires ValidSignal(s) && (s.payload.Map? ==> forall k :: k in s.payload.entries ==> Plain(s.payload.entries[k]))
    ensures SignalFrom(Stored(RecordSignal(s)))
            == Decoded(s.(payload := if s.payload.NilMap? then Map(map[]) else s.payload, sentAt := Normal(s.sentAt)))
  {
    SignalRoundTrip(s);
    if s.payload.Map? { PlainFieldsAreKept(s.payload.entries); }
  }

  lemma PlainFieldsAreKept(m: map<string, Any>)
    requires forall k :: k in m ==> Plain(m[k])
    ensures JsonFields(m) == m
  {
    forall k | k in m ensures Json(m[k]) == m[k] { PlainIsKept(m[k]); }
  }

  lemma SignalDecodes(s: Signal)
    requires ValidSignal(s)
    ensures SignalOf(s.key, s.actor, SignalType(s.kind), ObjectOf(s.payload), TimeValue(s.sentAt))
            == Decoded(s.(sentAt := Normal(s.sentAt)))
    ensures SignalOf(s.key, s.actor, Json(SignalType(s.kind)), Json(ObjectOf(s.payload)), Json(TimeValue(s.sentAt)))
            == Decoded(s.(payload := Reread(s.payload), sentAt := Normal(s.sentAt)))
  {
    TimeValueRoundTrip(s.sentAt);
    MapRoundTrip(s.payload);
    RereadIsValid(s);
    SignalFromParts(SignalType(s.kind), ObjectOf(s.payload), TimeValue(s.sentAt), s.(sentAt := Normal(s.sentAt)));
    SignalFromParts(Json(SignalType(s.kind)), Json(ObjectOf(s.payload)), Json(TimeValue(s.sentAt)),
                    s.(payload := Reread(s.payload), sentAt := Normal(s.sentAt)));
  }

  lemma SignalFromParts(first: Any, second: Any, third: Any, s: Signal)
    requires SignalTypeOf(first) == Decoded(s.kind) && MapOf(second) == Decoded(s.payload)
    requires TimeOf(third) == Decoded(s.sentAt)
    requires ValidSignal(s)
    ensures SignalOf(s.key, s.actor, first, second, third) == Decoded(s)
  {}

  /** A control request comes back whole, from memory and from storage. */
  lemma ControlRoundTrip(c: Control)
    requires ValidControl(c)
    ensures ControlFrom(RecordControl(c)) == Decoded(c.(requestedAt := Normal(c.requestedAt)))
    ensures ControlFrom(Stored(RecordControl(c))) == Decoded(c.(requestedAt := Normal(c.requestedAt)))
  {
    PayloadFields(OPERATION, Operation(c.operation), METADATA, StringsOf(c.metadata), REQUESTED_AT, c.requestedAt);
    ControlDecodes(c);
  }

  lemma ControlDecodes(c: Control)
    requires ValidControl(c)
    ensures ControlOf(c.key, c.actor, Operation(c.operation), StringsOf(c.metadata), TimeValue(c.requestedAt))
            == Decoded(c.(requestedAt := Normal(c.requestedAt)))
    ensures ControlOf(c.key, c.actor, Json(Operation(c.operation)), Json(StringsOf(c.metadata)),
                      Json(TimeValue(c.requestedAt)))
            == Decoded(c.(requestedAt := Normal(c.requestedAt)))
  {
    TimeValueRoundTrip(c.requestedAt);
    StringMapRoundTrip(c.metadata);
    var back := c.(requestedAt := Normal(c.requestedAt));
    ControlFromParts(Operation(c.operation), StringsOf(c.metadata), TimeValue(c.requestedAt), back);
    ControlFromParts(Json(Operation(c.operation)), Json(StringsOf(c.metadata)), Json(TimeValue(c.requestedAt)), back);
  }

  lemma ControlFromParts(first: Any, second: Any, third: Any, c: Control)
    requires OperationOf(first) == Decoded(c.operation) && StringMapOf(second) == Decoded(c.metadata)
    requires TimeOf(third) == Decoded(c.requestedAt) && ValidControl(c)
    ensures ControlOf(c.key, c.actor, first, second, third) == Decoded(c)
  {}

  /** The envelope the reconciler writes for a command read from storage. */
  function Rebuilt(r: Record): Decoded<Record> {
    match RequestFrom(r)
    case Decoded(request) => Decoded(Stored(RecordRequest(request)))
    case Refused => Refused
  }

  /** The envelope of a submitted request, as stored. */
  function Envelope(r: Request): Record { Stored(RecordRequest(r)) }

  /** A signal without a payload. */
  predicate Bare(r: Request) { r.SignalRequest? && r.signal.payload.NilMap? }

  /** Reconstruction never fails on what a caller recorded, and it keeps action, key and actor.
      It reproduces the stored envelope exactly when the request is not a signal with a nil
      payload: that payload is recorded as null and rebuilt as an empty object. */
  lemma RebuiltIff(r: Request)
    requires Valid(r)
    ensures Rebuilt(Envelope(r)).Decoded?
    ensures var e := Rebuilt(Envelope(r)).value;
            e.action == Envelope(r).action && e.key == Envelope(r).key && e.actor == Envelope(r).actor
    ensures Rebuilt(Envelope(r)).value == Envelope(r) <==> !Bare(r)
  {
    match r {
      case SignalRequest(s) =>
        SignalRoundTrip(s);
        SignalEnvelopes(s);
      case ControlRequest(c) =>
        ControlRoundTrip(c);
    }
  }

  lemma JsonUpdate(m: map<string, Any>, key: string, a: Any)
    ensures JsonFields(m[key := a]) == JsonFields(m)[key := Json(a)]
  {}

  lemma PayloadUpdate(first: string, a: Any, second: string, b: Any, b': Any, third: string, t: Moment)
    requires first != second && first != third && second != third
    ensures second in Payload(first, a, second, b, third, t) && Payload(first, a, second, b, third, t)[second] == b
    ensures Payload(first, a, second, b', third, Normal(t)) == Payload(first, a, second, b, third, t)[second := b']
  {}

  lemma SamePayload(first: string, a: Any, second: string, b: Any, b': Any, third: string, t: Moment)
    requires first != second && first != third && second != third
    ensures JsonFields(Payload(first, a, second, b, third, t))
            == JsonFields(Payload(first, a, second, b', third, Normal(t)))
            <==> Json(b) == Json(b')
  {
    PayloadUpdate(first, a, second, b, b', third, t);
    SamePut(Payload(first, a, second, b, third, t), second, b');
  }

  lemma SamePut(m: map<string, Any>, key: string, b: Any)
    requires key in m
    ensures JsonFields(m) == JsonFields(m[key := b]) <==> Json(m[key]) == Json(b)
  {
    JsonUpdate(m, key, b);
    var j := JsonFields(m);
    assert j[key] == Json(m[key]);
    assert j[key := Json(b)] == j <==> j[key] == Json(b);
  }

  lemma SignalEnvelopes(s: Signal)
    ensures var back := s.(payload := Reread(s.payload), sentAt := Normal(s.sentAt));
            Stored(RecordSignal(s)) == Stored(RecordSignal(back)) <==> s.payload.Map?
  {
    SamePayload(TYPE, SignalType(s.kind), PAYLOAD, ObjectOf(s.payload), ObjectOf(Reread(s.payload)), SENT_AT, s.sentAt);
    if s.payload.Map? {
      JsonFieldsIdempotent(s.payload.entries);
    }
  }

  /** How a stored command shows that its signal had a nil payload. */
  predicate BareRecord(c: Record) { c.action == PlanSignal && Field(c.payload, PAYLOAD) == Null }

  lemma BareEnvelope(r: Request)
    ensures BareRecord(Envelope(r)) <==> Bare(r)
  {
    if r.SignalRequest? {
      var s := r.signal;
      PayloadFields(TYPE, SignalType(s.kind), PAYLOAD, ObjectOf(s.payload), SENT_AT, s.sentAt);
    }
  }

  /******* Records nobody recorded *******/

  /** The types a signal can have, apart from the retry of a node. */
  predicate KnownType(name: string) {
    || name == "plan.approve" || name == "plan.reject" || name == "user.message" || name == "user.approval"
    || name == "user.reject" || name == "tool.result" || name == "human.feedback" || name == "config.patch"
    || name == "memory.patch"
  }

  /** The value is nothing or a map. */
  predicate MapLike(a: Any) { a.Null? || a.NilStrings? || a.NilObject? || a.Strings? || a.Object? }

  /** The value is nothing or a time, as such or as text. */
  predicate TimeLike(a: Any) { a.Null? || a.Instant? || (a.Text? && Parse(a.text).Parsed?) }

  predicate HasNode(a: Any) {
    || (a.Object? && "node_id" in a.fields && a.fields["node_id"].Text? && a.fields["node_id"].text != "")
    || (a.Strings? && "node_id" in a.strings && a.strings["node_id"] != "")
  }

  /** A signal can be rebuilt from a record if and only if the record has a key and an actor, names
      a known type, and its payload and time are of their kind; the retry of a node must name it. */
  lemma SignalRebuildsIff(r: Record, kind: string)
    requires Field(r.payload, "type") in {Text(kind), SignalType(kind)}
    ensures SignalFrom(r).Decoded? <==>
              && r.key != "" && r.actor != ""
              && MapLike(Field(r.payload, "payload")) && TimeLike(Field(r.payload, "sent_at"))
              && (KnownType(kind) || (kind == "plan.node.retry" && HasNode(Field(r.payload, "payload"))))
    ensures SignalFrom(r).Decoded? ==>
              var s := SignalFrom(r).value; s.kind == kind && s.key == r.key && s.actor == r.actor
  {}

  /** A record whose type is not a text is refused. */
  lemma UntypedIsRefused(r: Record)
    requires !Field(r.payload, "type").Text? && !Field(r.payload, "type").SignalType?
    ensures SignalFrom(r).Refused?
  {}

  /** A control request can be rebuilt if and only if the record has an actor, names one of the three
      operations, its metadata are texts and its time is one. */
  lemma ControlRebuildsIff(r: Record, operation: string)
    requires Field(r.payload, "operation") in {Text(operation), Operation(operation)}
    ensures ControlFrom(r).Decoded? <==>
              var metadata := Field(r.payload, "metadata");
              && r.actor != "" && (operation == "pause" || operation == "resume" || operation == "cancel")
              && MapLike(metadata)
              && (metadata.Object? ==> forall k :: k in metadata.fields ==> metadata.fields[k].Text?)
              && TimeLike(Field(r.payload, "requested_at"))
    ensures ControlFrom(r).Decoded? ==>
              var c := ControlFrom(r).value; c.operation == operation && c.key == r.key && c.actor == r.actor
  {}

  lemma UnnamedIsRefused(r: Record)
    requires !Field(r.payload, "operation").Text? && !Field(r.payload, "operation").Operation?
    ensures ControlFrom(r).Refused?
  {}
}
