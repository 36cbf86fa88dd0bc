/** The process protocol's messages: validation, their Bridge Value form, and the way back. */
module Protocol {
  import opened Bytes
  import opened Text
  import opened BridgeValue
  import opened WireParser
  import opened Options

  const PROTOCOL_VERSION: i64 := 1

  datatype MessageBody =
    | Hello
    | Load(packageRoot: Text, entrypoint: Text, pluginId: u64, session: u64)
    | Enable
    | Invoke(operation: Text, input: seq<byte>, callbackId: u64)
    | Disable
    | Shutdown
    | OkReply
    | ResultReply(output: seq<byte>)
    | ErrorReply(code: Text, message: Text)
    | BridgeInvoke(operation: Text, input: seq<byte>)
    | RetainHandle(objectId: u64, generation: u64)
    | ReleaseHandle(objectId: u64, generation: u64)
    | CallbackResult(output: seq<byte>)
    | CallbackError(code: Text)

  datatype Message = Message(requestId: u64, body: MessageBody)

  // ---------------------------------------------------------------- validation

  predicate IsId(n: u64) { 0 < n <= I64_MAX }

  predicate UsesEvenRequestId(body: MessageBody) {
    body.BridgeInvoke? || body.RetainHandle? || body.ReleaseHandle? || body.CallbackResult? || body.CallbackError?
  }

  predicate ValidBody(body: MessageBody) {
    match body
    case Load(packageRoot, entrypoint, pluginId, session) =>
      !Blank(packageRoot) && !Blank(entrypoint) && IsId(pluginId) && IsId(session)
    case Invoke(operation, _, callbackId) => !Blank(operation) && callbackId <= I64_MAX
    case ErrorReply(code, message) => IsErrorCode(code) && !Blank(message) && |message| <= MAX_MESSAGE
    case BridgeInvoke(operation, _) => !Blank(operation)
    case RetainHandle(objectId, generation) => IsId(objectId) && IsId(generation)
    case ReleaseHandle(objectId, generation) => IsId(objectId) && IsId(generation)
    case CallbackError(code) => IsErrorCode(code)
    case _ => true
  }

  /** What `Message::new` admits. */
  predicate ValidMessage(m: Message) {
    IsId(m.requestId) && (m.requestId % 2 == 0 <==> UsesEvenRequestId(m.body)) && ValidBody(m.body)
  }

  /** The valid messages kind by kind: what the parent sends and what answers it has an odd identifier, what the
      child asks back and what answers that an even one. */
  lemma ValidByKind(m: Message)
    ensures ValidMessage(m) <==>
              && 1 <= m.requestId < 0x8000_0000_0000_0000
              && match m.body
                 case Hello => m.requestId % 2 == 1
                 case Load(packageRoot, entrypoint, pluginId, session) =>
                   && m.requestId % 2 == 1 && !Blank(packageRoot) && !Blank(entrypoint)
                   && 1 <= pluginId < 0x8000_0000_0000_0000 && 1 <= session < 0x8000_0000_0000_0000
                 case Enable => m.requestId % 2 == 1
                 case Invoke(operation, _, callbackId) =>
                   m.requestId % 2 == 1 && !Blank(operation) && callbackId < 0x8000_0000_0000_0000
                 case Disable => m.requestId % 2 == 1
                 case Shutdown => m.requestId % 2 == 1
                 case OkReply => m.requestId % 2 == 1
                 case ResultReply(_) => m.requestId % 2 == 1
                 case ErrorReply(code, message) =>
                   m.requestId % 2 == 1 && IsErrorCode(code) && !Blank(message) && |message| <= 4096
                 case BridgeInvoke(operation, _) => m.requestId % 2 == 0 && !Blank(operation)
                 case RetainHandle(objectId, generation) =>
                   && m.requestId % 2 == 0
                   && 1 <= objectId < 0x8000_0000_0000_0000 && 1 <= generation < 0x8000_0000_0000_0000
                 case ReleaseHandle(objectId, generation) =>
                   && m.requestId % 2 == 0
                   && 1 <= objectId < 0x8000_0000_0000_0000 && 1 <= generation < 0x8000_0000_0000_0000
                 case CallbackResult(_) => m.requestId % 2 == 0
                 case CallbackError(code) => m.requestId % 2 == 0 && IsErrorCode(code)
  {
    hide Blank, Scanned, ValidUtf8;
  }

  // ---------------------------------------------------------------- kinds

  datatype Kind =
    | KHello | KLoad | KEnable | KInvoke | KDisable | KShutdown | KOk | KResult | KError
    | KBridgeInvoke | KRetain | KRelease | KCallbackResult | KCallbackError

  function KindName(k: Kind): string {
    match k
    case KHello => "hello"
    case KLoad => "load"
    case KEnable => "enable"
    case KInvoke => "invoke"
    case KDisable => "disable"
    case KShutdown => "shutdown"
    case KOk => "ok"
    case KResult => "result"
    case KError => "error"
    case KBridgeInvoke => "bridge-invoke"
    case KRetain => "retain-handle"
    case KRelease => "release-handle"
    case KCallbackResult => "callback-result"
    case KCallbackError => "callback-error"
  }

  /** Length and first letter tell the kinds apart. */
  function Mark(k: Kind): (nat, nat) {
    match k
    case KHello => (5, 104)
    case KLoad => (4, 108)
    case KEnable => (6, 101)
    case KInvoke => (6, 105)
    case KDisable => (7, 100)
    case KShutdown => (8, 115)
    case KOk => (2, 111)
    case KResult => (6, 114)
    case KError => (5, 101)
    case KBridgeInvoke => (13, 98)
    case KRetain => (13, 114)
    case KRelease => (14, 114)
    case KCallbackResult => (15, 99)
    case KCallbackError => (14, 99)
  }

  function KindText(k: Kind): (t: Text)
    ensures t != [] && (|t|, t[0]) == Mark(k)
  {
    Lit(KindName(k))
  }

  lemma MarksDiffer(a: Kind, b: Kind)
    requires Mark(a) == Mark(b)
    ensures a == b
  {
  }

  function KindFromText(t: Text): (r: Option<Kind>)
    ensures r.Some? ==> KindText(r.value) == t
  {
    if t == KindText(KHello) then Some(KHello)
    else if t == KindText(KLoad) then Some(KLoad)
    else if t == KindText(KEnable) then Some(KEnable)
    else if t == KindText(KInvoke) then Some(KInvoke)
    else if t == KindText(KDisable) then Some(KDisable)
    else if t == KindText(KShutdown) then Some(KShutdown)
    else if t == KindText(KOk) then Some(KOk)
    else if t == KindText(KResult) then Some(KResult)
    else if t == KindText(KError) then Some(KError)
    else if t == KindText(KBridgeInvoke) then Some(KBridgeInvoke)
    else if t == KindText(KRetain) then Some(KRetain)
    else if t == KindText(KRelease) then Some(KRelease)
    else if t == KindText(KCallbackResult) then Some(KCallbackResult)
    else if t == KindText(KCallbackError) then Some(KCallbackError)
    else None
  }

  lemma SomeKindMatches(k: Kind)
    ensures KindFromText(KindText(k)).Some?
  {
    hide KindName, Ascii, ValidUtf8, Mark;
    match k
    case _ =>
  }

  lemma KindRoundTrip(k: Kind)
    ensures KindFromText(KindText(k)) == Some(k)
  {
    hide KindFromText, KindName, Ascii, ValidUtf8, Mark;
    SomeKindMatches(k);
    MarksDiffer(KindFromText(KindText(k)).value, k);
  }

  // ---------------------------------------------------------------- body to value

  function KindOf(body: MessageBody): Kind {
    match body
    case Hello => KHello
    case Load(_, _, _, _) => KLoad
    case Enable => KEnable
    case Invoke(_, _, _) => KInvoke
    case Disable => KDisable
    case Shutdown => KShutdown
    case OkReply => KOk
    case ResultReply(_) => KResult
    case ErrorReply(_, _) => KError
    case BridgeInvoke(_, _) => KBridgeInvoke
    case RetainHandle(_, _) => KRetain
    case ReleaseHandle(_, _) => KRelease
    case CallbackResult(_) => KCallbackResult
    case CallbackError(_) => KCallbackError
  }

  function TextEntry(name: string, t: Text): Entry { Entry(Lit(name), String(t)) }
  function BlobEntry(name: string, data: seq<byte>): Entry { Entry(Lit(name), Bytes(data)) }
  function IdEntry(name: string, id: u64): Entry
    requires id <= I64_MAX
  {
    Entry(Lit(name), Integer(id))
  }

  /** The payload fields in their canonical order. */
  function Fields(body: MessageBody): seq<Entry>
    requires ValidBody(body)
  {
    match body
    case Load(packageRoot, entrypoint, pluginId, session) =>
      [TextEntry("packageRoot", packageRoot), TextEntry("entrypoint", entrypoint),
       IdEntry("pluginId", pluginId), IdEntry("session", session)]
    case Invoke(operation, input, callbackId) =>
      [TextEntry("operation", operation), BlobEntry("input", input), IdEntry("callbackId", callbackId)]
    case ResultReply(output) => [BlobEntry("output", output)]
    case ErrorReply(code, message) => [TextEntry("code", code), TextEntry("message", message)]
    case BridgeInvoke(operation, input) => [TextEntry("operation", operation), BlobEntry("input", input)]
    case RetainHandle(objectId, generation) => [IdEntry("objectId", objectId), IdEntry("generation", generation)]
    case ReleaseHandle(objectId, generation) => [IdEntry("objectId", objectId), IdEntry("generation", generation)]
    case CallbackResult(output) => [BlobEntry("output", output)]
    case CallbackError(code) => [TextEntry("code", code)]
    case _ => []
  }

  /** The names on the wire: each kind, and its fields with their values. */
  lemma WireNames(body: MessageBody)
    requires ValidBody(body)
    ensures var kind := KindText(KindOf(body));
            match body
            case Hello => kind == Lit("hello") && Fields(body) == []
            case Load(root, entrypoint, pluginId, session) =>
              && kind == Lit("load")
              && Fields(body) == [Entry(Lit("packageRoot"), String(root)), Entry(Lit("entrypoint"), String(entrypoint)),
                                  Entry(Lit("pluginId"), Integer(pluginId)), Entry(Lit("session"), Integer(session))]
            case Enable => kind == Lit("enable") && Fields(body) == []
            case Invoke(operation, input, callbackId) =>
              && kind == Lit("invoke")
              && Fields(body) == [Entry(Lit("operation"), String(operation)), Entry(Lit("input"), Bytes(input)),
                                  Entry(Lit("callbackId"), Integer(callbackId))]
            case Disable => kind == Lit("disable") && Fields(body) == []
            case Shutdown => kind == Lit("shutdown") && Fields(body) == []
            case OkReply => kind == Lit("ok") && Fields(body) == []
            case ResultReply(output) => kind == Lit("result") && Fields(body) == [Entry(Lit("output"), Bytes(output))]
            case ErrorReply(code, message) =>
              && kind == Lit("error")
              && Fields(body) == [Entry(Lit("code"), String(code)), Entry(Lit("message"), String(message))]
            case BridgeInvoke(operation, input) =>
              && kind == Lit("bridge-invoke")
              && Fields(body) == [Entry(Lit("operation"), String(operation)), Entry(Lit("input"), Bytes(input))]
            case RetainHandle(objectId, generation) =>
              && kind == Lit("retain-handle")
              && Fields(body) == [Entry(Lit("objectId"), Integer(objectId)),
                                  Entry(Lit("generation"), Integer(generation))]
            case ReleaseHandle(objectId, generation) =>
              && kind == Lit("release-handle")
              && Fields(body) == [Entry(Lit("objectId"), Integer(objectId)),
                                  Entry(Lit("generation"), Integer(generation))]
            case CallbackResult(output) =>
              kind == Lit("callback-result") && Fields(body) == [Entry(Lit("output"), Bytes(output))]
            case CallbackError(code) =>
              kind == Lit("callback-error") && Fields(body) == [Entry(Lit("code"), String(code))]
  {
    hide Ascii, ValidUtf8, Blank, Scanned;
  }

  function Envelope(requestId: u64, kind: Text, payload: Value): seq<Entry>
    requires requestId <= I64_MAX
  {
    [Entry(Lit("protocolVersion"), Integer(PROTOCOL_VERSION)), IdEntry("requestId", requestId),
     TextEntry("kind", kind), Entry(Lit("payload"), payload)]
  }

  function MessageValue(m: Message): Value
    requires ValidBody(m.body) && m.requestId <= I64_MAX
  {
    Map(Envelope(m.requestId, KindText(KindOf(m.body)), Map(Fields(m.body))))
  }

  /** `Message::to_wire`. */
  function MessageToWire(m: Message): Option<seq<byte>> {
    if !ValidBody(m.body) || m.requestId > I64_MAX then None
    else
      match ToWire(MessageValue(m))
      case Ok(bytes) => Some(bytes)
      case Err(_) => None
  }

  // ---------------------------------------------------------------- value to body

  /** The value under the first entry with this key. */
  function Field(entries: seq<Entry>, name: Text): Option<Value> {
    if entries == [] then None
    else if entries[0].key == name then Some(entries[0].value)
    else Field(entries[1..], name)
  }

  /** The entries of a map with exactly the named fields. */
  function ExactMap(v: Value, names: seq<Text>): Option<seq<Entry>> {
    if v.Map? && |v.entries| == |names| && (forall i :: 0 <= i < |names| ==> Field(v.entries, names[i]).Some?)
    then Some(v.entries) else None
  }

  function TextField(entries: seq<Entry>, name: string): Option<Text> {
    match Field(entries, Lit(name))
    case Some(String(t)) => Some(t)
    case _ => None
  }

  function BlobField(entries: seq<Entry>, name: string): Option<seq<byte>> {
    match Field(entries, Lit(name))
    case Some(Bytes(data)) => Some(data)
    case _ => None
  }

  function PositiveField(entries: seq<Entry>, name: string): Option<u64> {
    match Field(entries, Lit(name))
    case Some(Integer(n)) => if n > 0 then Some(n) else None
    case _ => None
  }

  function NonnegativeField(entries: seq<Entry>, name: string): Option<u64> {
    match Field(entries, Lit(name))
    case Some(Integer(n)) => if n >= 0 then Some(n) else None
    case _ => None
  }

  function Checked(body: MessageBody): Option<MessageBody> {
    if ValidBody(body) then Some(body) else None
  }

  function Bare(payload: Value, body: MessageBody): Option<MessageBody> {
    match ExactMap(payload, [])
    case Some(_) => Checked(body)
    case None => None
  }

  function ReadLoad(payload: Value): Option<MessageBody> {
    match ExactMap(payload, [Lit("packageRoot"), Lit("entrypoint"), Lit("pluginId"), Lit("session")])
    case None => None
    case Some(e) =>
      match (TextField(e, "packageRoot"), TextField(e, "entrypoint"),
             PositiveField(e, "pluginId"), PositiveField(e, "session"))
      case (Some(root), Some(entry), Some(pluginId), Some(session)) => Checked(Load(root, entry, pluginId, session))
      case _ => None
  }

  function ReadInvoke(payload: Value): Option<MessageBody> {
    match ExactMap(payload, [Lit("operation"), Lit("input"), Lit("callbackId")])
    case None => None
    case Some(e) =>
      match (TextField(e, "operation"), BlobField(e, "input"), NonnegativeField(e, "callbackId"))
      case (Some(operation), Some(input), Some(callbackId)) => Checked(Invoke(operation, input, callbackId))
      case _ => None
  }

  function ReadError(payload: Value): Option<MessageBody> {
    match ExactMap(payload, [Lit("code"), Lit("message")])
    case None => None
    case Some(e) =>
      match (TextField(e, "code"), TextField(e, "message"))
      case (Some(code), Some(message)) => Checked(ErrorReply(code, message))
      case _ => None
  }

  function ReadBridgeInvoke(payload: Value): Option<MessageBody> {
    match ExactMap(payload, [Lit("operation"), Lit("input")])
    case None => None
    case Some(e) =>
      match (TextField(e, "operation"), BlobField(e, "input"))
      case (Some(operation), Some(input)) => Checked(BridgeInvoke(operation, input))
      case _ => None
  }

  function ReadHandleCall(payload: Value, retain: bool): Option<MessageBody> {
    match ExactMap(payload, [Lit("objectId"), Lit("generation")])
    case None => None
    case Some(e) =>
      match (PositiveField(e, "objectId"), PositiveField(e, "generation"))
      case (Some(objectId), Some(generation)) =>
        Checked(if retain then RetainHandle(objectId, generation) else ReleaseHandle(objectId, generation))
      case _ => None
  }

  function ReadOutput(payload: Value, callback: bool): Option<MessageBody> {
    match ExactMap(payload, [Lit("output")])
    case None => None
    case Some(e) =>
      match BlobField(e, "output")
      case Some(output) => Checked(if callback then CallbackResult(output) else ResultReply(output))
      case None => None
  }

  function ReadCallbackError(payload: Value): Option<MessageBody> {
    match ExactMap(payload, [Lit("code")])
    case None => None
    case Some(e) =>
      match TextField(e, "code")
      case Some(code) => Checked(CallbackError(code))
      case None => None
  }

  /** Decodes one exact kind-specific payload. */
  function BodyFromValue(kind: Text, payload: Value): Option<MessageBody> {
    match KindFromText(kind)
    case None => None
    case Some(k) => BodyOfKind(k, payload)
  }

  function BodyOfKind(k: Kind, payload: Value): Option<MessageBody> {
    match k
    case KHello => Bare(payload, Hello)
    case KLoad => ReadLoad(payload)
    case KEnable => Bare(payload, Enable)
    case KInvoke => ReadInvoke(payload)
    case KDisable => Bare(payload, Disable)
    case KShutdown => Bare(payload, Shutdown)
    case KOk => Bare(payload, OkReply)
    case KResult => ReadOutput(payload, false)
    case KError => ReadError(payload)
    case KBridgeInvoke => ReadBridgeInvoke(payload)
    case KRetain => ReadHandleCall(payload, true)
    case KRelease => ReadHandleCall(payload, false)
    case KCallbackResult => ReadOutput(payload, true)
    case KCallbackError => ReadCallbackError(payload)
  }

  function MessageFromValue(v: Value): Option<Message> {
    match ExactMap(v, [Lit("protocolVersion"), Lit("requestId"), Lit("kind"), Lit("payload")])
    case None => None
    case Some(e) =>
      if Field(e, Lit("protocolVersion")) != Some(Integer(PROTOCOL_VERSION)) then None
      else
        match (PositiveField(e, "requestId"), TextField(e, "kind"), Field(e, Lit("payload")))
        case (Some(requestId), Some(kind), Some(payload)) =>
          (match BodyFromValue(kind, payload)
           case None => None
           case Some(body) =>
             var m := Message(requestId, body);
             if ValidMessage(m) then Some(m) else None)
        case _ => None
  }

  /** `Message::from_wire`. */
  function MessageFromWire(input: seq<byte>): Option<Message> {
    match FromWire(input)
    case Err(_) => None
    case Ok(v) => MessageFromValue(v)
  }

  // ---------------------------------------------------------------- field order

  /** `entries` holds exactly the fields of `canonical`, in any order. */
  predicate Reorders(entries: seq<Entry>, canonical: seq<Entry>) {
    && |entries| == |canonical|
    && (forall i :: 0 <= i < |canonical| ==> Field(entries, canonical[i].key) == Some(canonical[i].value))
  }

  function Without(entries: seq<Entry>, j: nat): seq<Entry>
    requires j < |entries|
  {
    entries[..j] + entries[j + 1..]
  }

  lemma {:induction false} FieldIndex(entries: seq<Entry>, name: Text) returns (j: nat)
    requires Field(entries, name).Some?
    ensures j < |entries| && entries[j] == Entry(name, Field(entries, name).value)
  {
    hide ValidUtf8;
    if entries[0].key == name {
      j := 0;
    } else {
      var k := FieldIndex(entries[1..], name);
      j := k + 1;
    }
  }

  lemma {:induction false} FieldWithout(entries: seq<Entry>, j: nat, name: Text)
    requires j < |entries| && entries[j].key != name
    ensures Field(Without(entries, j), name) == Field(entries, name)
  {
    hide ValidUtf8;
    if j == 0 {
      assert Without(entries, j) == entries[1..];
    } else {
      assert Without(entries, j)[0] == entries[0];
      assert Without(entries, j)[1..] == Without(entries[1..], j - 1);
      FieldWithout(entries[1..], j - 1, name);
    }
  }

  lemma {:induction false} CostWithout(entries: seq<Entry>, j: nat)
    requires j < |entries|
    ensures CostOfEntries(entries) == CostOfEntry(entries[j]).Plus(CostOfEntries(Without(entries, j)))
    ensures WellFormedEntries(entries)
       <==> && WellFormedEntries(Without(entries, j))
            && |entries[j].key| <= MAX_STRING_BYTES && WellFormed(entries[j].value)
  {
    hide CostOf, WellFormed, ValidUtf8;
    if j == 0 {
      assert Without(entries, j) == entries[1..];
    } else {
      assert Without(entries, j)[0] == entries[0];
      assert Without(entries, j)[1..] == Without(entries[1..], j - 1);
      CostWithout(entries[1..], j - 1);
    }
  }

  /** Reordering fields changes neither the cost nor the well-formedness of a map. */
  lemma {:induction false} ReorderingCostsNothing(entries: seq<Entry>, canonical: seq<Entry>)
    requires UniqueKeys(canonical) && Reorders(entries, canonical)
    ensures CostOfEntries(entries) == CostOfEntries(canonical)
    ensures WellFormedEntries(entries) <==> WellFormedEntries(canonical)
    decreases canonical
  {
    hide CostOf, WellFormed, ValidUtf8;
    if canonical == [] {
    } else {
      var f, more := canonical[0], canonical[1..];
      var j := FieldIndex(entries, f.key);
      var rest := Without(entries, j);
      assert forall i :: 0 <= i < |more| ==> more[i] == canonical[i + 1];
      forall i | 0 <= i < |more| ensures Field(rest, more[i].key) == Some(more[i].value) {
        FieldWithout(entries, j, more[i].key);
      }
      CostWithout(entries, j);
      ReorderingCostsNothing(rest, more);
    }
  }

  /** In its own order every field list reorders itself. */
  lemma {:induction false} OwnOrder(entries: seq<Entry>)
    requires UniqueKeys(entries)
    ensures Reorders(entries, entries)
  {
    hide ValidUtf8;
    forall i | 0 <= i < |entries| ensures Field(entries, entries[i].key) == Some(entries[i].value) {
      OwnField(entries, i);
    }
  }

  lemma {:induction false} OwnField(entries: seq<Entry>, i: nat)
    requires UniqueKeys(entries) && i < |entries|
    ensures Field(entries, entries[i].key) == Some(entries[i].value)
  {
    hide ValidUtf8;
    if i > 0 {
      var more := entries[1..];
      assert forall k :: 0 <= k < |more| ==> more[k] == entries[k + 1];
      assert entries[0].key != entries[i].key;
      OwnField(more, i - 1);
    }
  }

  lemma FieldsAreUnique(body: MessageBody)
    requires ValidBody(body)
    ensures UniqueKeys(Fields(body)) && |Fields(body)| <= 4
  {
    hide ValidUtf8, Blank, Scanned;
  }

  lemma EnvelopeIsUnique(requestId: u64, kind: Text, payload: Value)
    requires requestId <= I64_MAX
    ensures UniqueKeys(Envelope(requestId, kind, payload)) && |Envelope(requestId, kind, payload)| == 4
  {
    hide ValidUtf8;
  }

  // ---------------------------------------------------------------- decoding means reordered fields

  lemma BareBodyMeans(payload: Value, body: MessageBody)
    requires body.Hello? || body.Enable? || body.Disable? || body.Shutdown? || body.OkReply?
    ensures Bare(payload, body) == Some(body)
       <==> ValidBody(body) && payload.Map? && Reorders(payload.entries, Fields(body))
  {
  }

  /** A payload decodes to a body exactly when it holds that body's fields, in any order. */
  lemma BodyMeansFields(k: Kind, payload: Value, body: MessageBody)
    ensures BodyOfKind(k, payload) == Some(body)
       <==> ValidBody(body) && KindOf(body) == k && payload.Map? && Reorders(payload.entries, Fields(body))
  {
    hide Field, Fields, Reorders, KindName, Ascii, ValidUtf8, ValidBody;
    if BodyOfKind(k, payload) == Some(body) {
      BodyHasKind(k, payload);
    }
    match body
    case Load(_, _, _, _) => LoadMeans(payload, body);
    case Invoke(_, _, _) => InvokeMeans(payload, body);
    case ErrorReply(_, _) => ErrorMeans(payload, body);
    case BridgeInvoke(_, _) => BridgeInvokeMeans(payload, body);
    case RetainHandle(_, _) => HandleCallMeans(payload, true, body);
    case ReleaseHandle(_, _) => HandleCallMeans(payload, false, body);
    case CallbackResult(_) => OutputMeans(payload, true, body);
    case ResultReply(_) => OutputMeans(payload, false, body);
    case CallbackError(_) => CallbackErrorMeans(payload, body);
    case _ => BareBodyMeans(payload, body);
  }

  lemma BodyHasKind(k: Kind, payload: Value)
    requires BodyOfKind(k, payload).Some?
    ensures KindOf(BodyOfKind(k, payload).value) == k
  {
    hide Field, Ascii, ValidUtf8, ValidBody, ExactMap, TextField, BlobField, PositiveField, NonnegativeField;
  }

  lemma LoadMeans(payload: Value, body: MessageBody)
    requires body.Load?
    ensures ReadLoad(payload) == Some(body)
       <==> ValidBody(body) && payload.Map? && Reorders(payload.entries, Fields(body))
  {
    hide Field, Ascii, ValidUtf8, Blank;
    if ReadLoad(payload) == Some(body) {
      var f := Fields(body);
      assert forall i :: 0 <= i < 4 ==> Field(payload.entries, f[i].key) == Some(f[i].value);
    }
    if ValidBody(body) && payload.Map? && Reorders(payload.entries, Fields(body)) {
      var f := Fields(body);
      assert Field(payload.entries, f[0].key).Some? && Field(payload.entries, f[1].key).Some?
          && Field(payload.entries, f[2].key).Some? && Field(payload.entries, f[3].key).Some?;
    }
  }

  lemma InvokeMeans(payload: Value, body: MessageBody)
    requires body.Invoke?
    ensures ReadInvoke(payload) == Some(body)
       <==> ValidBody(body) && payload.Map? && Reorders(payload.entries, Fields(body))
  {
    hide Field, Ascii, ValidUtf8, Blank;
    if ValidBody(body) && payload.Map? && Reorders(payload.entries, Fields(body)) {
      var f := Fields(body);
      assert Field(payload.entries, f[0].key).Some? && Field(payload.entries, f[1].key).Some?
          && Field(payload.entries, f[2].key).Some?;
    }
  }

  lemma ErrorMeans(payload: Value, body: MessageBody)
    requires body.ErrorReply?
    ensures ReadError(payload) == Some(body)
       <==> ValidBody(body) && payload.Map? && Reorders(payload.entries, Fields(body))
  {
    hide Field, Ascii, ValidUtf8, Blank, Scanned;
    if ValidBody(body) && payload.Map? && Reorders(payload.entries, Fields(body)) {
      var f := Fields(body);
      assert Field(payload.entries, f[0].key).Some? && Field(payload.entries, f[1].key).Some?;
    }
  }

  lemma BridgeInvokeMeans(payload: Value, body: MessageBody)
    requires body.BridgeInvoke?
    ensures ReadBridgeInvoke(payload) == Some(body)
       <==> ValidBody(body) && payload.Map? && Reorders(payload.entries, Fields(body))
  {
    hide Field, Ascii, ValidUtf8, Blank;
    if ValidBody(body) && payload.Map? && Reorders(payload.entries, Fields(body)) {
      var f := Fields(body);
      assert Field(payload.entries, f[0].key).Some? && Field(payload.entries, f[1].key).Some?;
    }
  }

  lemma HandleCallMeans(payload: Value, retain: bool, body: MessageBody)
    requires if retain then body.RetainHandle? else body.ReleaseHandle?
    ensures ReadHandleCall(payload, retain) == Some(body)
       <==> ValidBody(body) && payload.Map? && Reorders(payload.entries, Fields(body))
  {
    hide Field, Ascii, ValidUtf8;
    if ValidBody(body) && payload.Map? && Reorders(payload.entries, Fields(body)) {
      var f := Fields(body);
      assert Field(payload.entries, f[0].key).Some? && Field(payload.entries, f[1].key).Some?;
    }
  }

  lemma OutputMeans(payload: Value, callback: bool, body: MessageBody)
    requires if callback then body.CallbackResult? else body.ResultReply?
    ensures ReadOutput(payload, callback) == Some(body)
       <==> ValidBody(body) && payload.Map? && Reorders(payload.entries, Fields(body))
  {
    hide Field, Ascii, ValidUtf8;
    if payload.Map? && Reorders(payload.entries, Fields(body)) {
      assert Field(payload.entries, Fields(body)[0].key).Some?;
    }
  }

  lemma CallbackErrorMeans(payload: Value, body: MessageBody)
    requires body.CallbackError?
    ensures ReadCallbackError(payload) == Some(body)
       <==> ValidBody(body) && payload.Map? && Reorders(payload.entries, Fields(body))
  {
    hide Field, Ascii, ValidUtf8, Scanned;
    if ValidBody(body) && payload.Map? && Reorders(payload.entries, Fields(body)) {
      assert Field(payload.entries, Fields(body)[0].key).Some?;
    }
  }

  /** `v` holds the message's envelope and payload fields, each in any order. */
  predicate Spells(v: Value, m: Message)
    requires ValidMessage(m)
  {
    && v.Map?
    && (var payload := Field(v.entries, Lit("payload"));
        && payload.Some? && payload.value.Map?
        && Reorders(v.entries, Envelope(m.requestId, KindText(KindOf(m.body)), payload.value))
        && Reorders(payload.value.entries, Fields(m.body)))
  }

  lemma EnvelopeMeans(v: Value, requestId: u64, kind: Text, payload: Value)
    requires v.Map? && IsId(requestId)
    ensures Reorders(v.entries, Envelope(requestId, kind, payload))
       <==> && ExactMap(v, [Lit("protocolVersion"), Lit("requestId"), Lit("kind"), Lit("payload")]).Some?
            && Field(v.entries, Lit("protocolVersion")) == Some(Integer(PROTOCOL_VERSION))
            && PositiveField(v.entries, "requestId") == Some(requestId)
            && TextField(v.entries, "kind") == Some(kind)
            && Field(v.entries, Lit("payload")) == Some(payload)
  {
    hide Field, Ascii, ValidUtf8;
    var f := Envelope(requestId, kind, payload);
    if Reorders(v.entries, f) {
      assert Field(v.entries, f[0].key).Some? && Field(v.entries, f[1].key).Some?
          && Field(v.entries, f[2].key).Some? && Field(v.entries, f[3].key).Some?;
    }
  }

  /** A value decodes to a message exactly when it spells that message. */
  lemma MessageMeansSpelling(v: Value, m: Message)
    ensures MessageFromValue(v) == Some(m) <==> ValidMessage(m) && Spells(v, m)
  {
    hide Field, Ascii, ValidUtf8, Blank, Scanned, Reorders, BodyOfKind, KindFromText, ValidBody, KindText;
    hide ExactMap, TextField, PositiveField;
    if MessageFromValue(v) == Some(m) {
      var e := ExactMap(v, [Lit("protocolVersion"), Lit("requestId"), Lit("kind"), Lit("payload")]);
      ExactMapIsMap(v, [Lit("protocolVersion"), Lit("requestId"), Lit("kind"), Lit("payload")]);
      var kind, payload := TextField(e.value, "kind").value, Field(e.value, Lit("payload")).value;
      var k := KindFromText(kind).value;
      BodyMeansFields(k, payload, m.body);
      EnvelopeMeans(v, m.requestId, kind, payload);
    }
    if ValidMessage(m) && Spells(v, m) {
      var kind, payload := KindText(KindOf(m.body)), Field(v.entries, Lit("payload")).value;
      EnvelopeMeans(v, m.requestId, kind, payload);
      ExactMapIsMap(v, [Lit("protocolVersion"), Lit("requestId"), Lit("kind"), Lit("payload")]);
      KindRoundTrip(KindOf(m.body));
      BodyMeansFields(KindOf(m.body), payload, m.body);
    }
  }

  lemma ExactMapIsMap(v: Value, names: seq<Text>)
    requires ExactMap(v, names).Some?
    ensures v.Map? && ExactMap(v, names).value == v.entries
  {
  }

  // ---------------------------------------------------------------- round trips

  /** Spelling a message in another field order costs the same and is just as well-formed. */
  lemma SpellingsCostTheSame(v: Value, m: Message)
    requires ValidMessage(m) && Spells(v, m)
    ensures CostOf(v) == CostOf(MessageValue(m))
    ensures WellFormed(v) ==> WellFormed(MessageValue(m))
  {
    hide Field, KindText, ValidUtf8, Blank, Scanned, ValidBody, Fields, Reorders, Envelope, CostOfEntries;
    hide WellFormedEntries;
    var payload := Field(v.entries, Lit("payload")).value;
    var fields := Fields(m.body);
    var kind := KindText(KindOf(m.body));
    var outer := Envelope(m.requestId, kind, payload);
    FieldsAreUnique(m.body);
    ReorderingCostsNothing(payload.entries, fields);
    EnvelopeIsUnique(m.requestId, kind, payload);
    ReorderingCostsNothing(v.entries, outer);
    EnvelopeIsUnique(m.requestId, kind, Map(fields));
    SamePayloadCost(m.requestId, kind, payload, Map(fields));
    SameLength(v.entries, outer);
    SameLength(payload.entries, fields);
  }

  lemma SameLength(entries: seq<Entry>, canonical: seq<Entry>)
    requires Reorders(entries, canonical)
    ensures |entries| == |canonical|
  {
  }

  lemma SamePayloadCost(requestId: u64, kind: Text, a: Value, b: Value)
    requires requestId <= I64_MAX && CostOf(a) == CostOf(b)
    ensures CostOfEntries(Envelope(requestId, kind, a)) == CostOfEntries(Envelope(requestId, kind, b))
    ensures WellFormed(a) && WellFormedEntries(Envelope(requestId, kind, b)) && WellFormed(b)
        ==> WellFormedEntries(Envelope(requestId, kind, a))
    ensures WellFormedEntries(Envelope(requestId, kind, a)) ==> WellFormed(a)
    ensures WellFormed(b) && WellFormedEntries(Envelope(requestId, kind, a))
        ==> WellFormedEntries(Envelope(requestId, kind, b))
  {
    hide CostOf, WellFormed, ValidUtf8, Ascii;
    var e, f := Envelope(requestId, kind, a), Envelope(requestId, kind, b);
    var last, other := e[3], f[3];
    assert Without(e, 3) == Without(f, 3) == e[..3];
    CostWithout(e, 3);
    CostWithout(f, 3);
  }

  /** The canonical value of a message spells it. */
  lemma MessageValueSpells(m: Message)
    requires ValidMessage(m)
    ensures Spells(MessageValue(m), m)
  {
    hide Field, KindText, ValidUtf8, Blank, Scanned, ValidBody, Fields, Reorders;
    var fields, kind := Fields(m.body), KindText(KindOf(m.body));
    FieldsAreUnique(m.body);
    OwnOrder(fields);
    EnvelopeIsUnique(m.requestId, kind, Map(fields));
    OwnField(Envelope(m.requestId, kind, Map(fields)), 3);
    OwnOrder(Envelope(m.requestId, kind, Map(fields)));
  }

  /** Every message that encodes decodes back to itself. */
  lemma MessageRoundTrip(m: Message)
    requires ValidMessage(m) && MessageToWire(m).Some?
    ensures MessageFromWire(MessageToWire(m).value) == Some(m)
  {
    hide FromWire, Encodable, Enc, MessageValue, MessageFromValue, Spells, ValidBody;
    EncodeThenDecode(MessageValue(m));
    MessageValueSpells(m);
    MessageMeansSpelling(MessageValue(m), m);
  }

  /** Decoding ignores the order of the envelope's fields and of the payload's fields. */
  lemma FieldOrderIsIgnored(v: Value, m: Message)
    requires ToWire(v).Ok? && ValidMessage(m)
    ensures MessageFromWire(ToWire(v).value) == Some(m) <==> Spells(v, m)
  {
    hide FromWire, Encodable, Enc, MessageFromValue, Spells, ValidBody;
    EncodeThenDecode(v);
    MessageMeansSpelling(v, m);
  }

  /** Whatever decodes re-encodes canonically, in the same number of bytes, to the same message. */
  lemma DecodedMessagesReencode(input: seq<byte>)
    requires MessageFromWire(input).Some?
    ensures var m := MessageFromWire(input).value;
            && ValidMessage(m) && MessageToWire(m).Some?
            && |MessageToWire(m).value| == |input|
            && MessageFromWire(MessageToWire(m).value) == Some(m)
  {
    hide FromWire, Enc, CostOf, WellFormed, MessageFromValue, Spells, ValidBody, MessageValue;
    var v, m := FromWire(input).value, MessageFromWire(input).value;
    DecodeThenEncode(input);
    MessageMeansSpelling(v, m);
    SpellingsCostTheSame(v, m);
    SizeIsLength(v);
    SizeIsLength(MessageValue(m));
    MessageRoundTrip(m);
  }
}
