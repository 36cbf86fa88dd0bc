/** Host failures as the process protocol reports them: every one becomes a valid error body. */
module HostErrors {
  import opened Bytes
  import opened Text
  import opened Decimals
  import opened Protocol
  import BridgeValue

  datatype HostError =
    | Io(detail: Text) | Library(detail: Text)
    | EntrypointEscape | MissingQuerySymbol
    | QueryStatus(status: int) | UnsupportedPluginAbi(abi: u32)
    | InvalidPluginTable
    | PluginStatus(status: int) | UnknownPayload(id: u64)
    | InvalidState(detail: Text)
    | EngineClosed | InvalidHostResult | JavaBridge | JniPanic

  function Code(e: HostError): string {
    match e
    case Io(_) => "payload-io"
    case Library(_) => "library-load"
    case EntrypointEscape => "entrypoint-escape"
    case MissingQuerySymbol => "missing-query"
    case QueryStatus(_) => "query-status"
    case UnsupportedPluginAbi(_) => "unsupported-abi"
    case InvalidPluginTable => "invalid-plugin-table"
    case PluginStatus(_) => "plugin-status"
    case UnknownPayload(_) => "unknown-payload"
    case InvalidState(_) => "invalid-state"
    case EngineClosed => "engine-closed"
    case InvalidHostResult => "invalid-host-result"
    case JavaBridge => "bridge-callback"
    case JniPanic => "native-panic"
  }

  /** The fixed beginning of a failure's text. */
  function Lead(e: HostError): string {
    match e
    case Io(_) => "payload I/O failed: "
    case Library(_) => "dynamic library loading failed: "
    case EntrypointEscape => "payload entrypoint escapes its package root"
    case MissingQuerySymbol => "payload does not export hmcl_plugin_query_v1"
    case QueryStatus(_) => "payload query returned status "
    case UnsupportedPluginAbi(_) => "payload returned unsupported plugin ABI "
    case InvalidPluginTable => "payload returned an incomplete plugin function table"
    case PluginStatus(_) => "payload callback returned status "
    case UnknownPayload(_) => "unknown payload handle "
    case InvalidState(_) => "invalid payload state: "
    case EngineClosed => "native engine is closed"
    case InvalidHostResult => "invalid Host callback result"
    case JavaBridge => "Java Runtime Bridge call failed"
    case JniPanic => "native Host panicked at the JNI boundary"
  }

  function Detail(e: HostError): Text {
    match e
    case Io(detail) => detail
    case Library(detail) => detail
    case InvalidState(detail) => detail
    case QueryStatus(status) => Decimal(status)
    case UnsupportedPluginAbi(abi) => Decimal(abi)
    case PluginStatus(status) => Decimal(status)
    case UnknownPayload(id) => Decimal(id)
    case _ => []
  }

  lemma ScalarStays(a: seq<byte>, b: seq<byte>)
    requires ScalarLength(a) > 0
    ensures ScalarLength(a + b) == ScalarLength(a)
  {
    var s := a + b;
    assert s[0] == a[0];
    assert |a| > 1 ==> s[1] == a[1];
    assert |a| > 2 ==> s[2] == a[2];
    assert |a| > 3 ==> s[3] == a[3];
  }

  lemma {:induction false} Utf8Concat(a: seq<byte>, b: seq<byte>)
    requires ValidUtf8(a) && ValidUtf8(b)
    ensures ValidUtf8(a + b)
  {
    hide ScalarLength;
    if a == [] {
      assert a + b == b;
    } else {
      var n := ScalarLength(a);
      ScalarStays(a, b);
      assert (a + b)[n..] == a[n..] + b;
      Utf8Concat(a[n..], b);
    }
  }

  function Display(e: HostError): Text {
    Utf8Concat(Lit(Lead(e)), Detail(e));
    Lit(Lead(e)) + Detail(e)
  }

  predicate Letter(c: char) { 'a' <= c <= 'z' }

  /** Lower-case words joined by single dashes. */
  predicate Kebab(s: string) {
    && 0 < |s| <= 128 && Letter(s[0]) && Letter(s[|s| - 1])
    && (forall i :: 0 <= i < |s| ==> Letter(s[i]) || s[i] == '-')
    && (forall i :: 0 <= i < |s| - 1 ==> s[i] != '-' || s[i + 1] != '-')
  }

  lemma KebabIsCode(s: string)
    requires Kebab(s)
    ensures IsErrorCode(Lit(s))
  {
    hide ValidUtf8;
    var t := Lit(s);
    assert forall i :: 0 <= i < |t| ==> t[i] == s[i] as int % 128;
    forall i | 0 <= i < |t| - 1 ensures t[i] !in {DASH} || t[i + 1] !in {DASH} {
      assert s[i] != '-' || s[i + 1] != '-';
    }
  }

  lemma LoadCodesAreKebab()
    ensures Kebab("payload-io") && Kebab("library-load") && Kebab("entrypoint-escape") && Kebab("missing-query")
    ensures Kebab("query-status") && Kebab("unsupported-abi") && Kebab("invalid-plugin-table")
  {
  }

  lemma CallCodesAreKebab()
    ensures Kebab("plugin-status") && Kebab("unknown-payload") && Kebab("invalid-state") && Kebab("engine-closed")
    ensures Kebab("invalid-host-result") && Kebab("bridge-callback") && Kebab("native-panic")
  {
  }

  /** Which failure is reported under which code. */
  lemma FailureCodes(e: HostError)
    ensures match e
            case Io(_) => Code(e) == "payload-io"
            case Library(_) => Code(e) == "library-load"
            case EntrypointEscape => Code(e) == "entrypoint-escape"
            case MissingQuerySymbol => Code(e) == "missing-query"
            case QueryStatus(_) => Code(e) == "query-status"
            case UnsupportedPluginAbi(_) => Code(e) == "unsupported-abi"
            case InvalidPluginTable => Code(e) == "invalid-plugin-table"
            case PluginStatus(_) => Code(e) == "plugin-status"
            case UnknownPayload(_) => Code(e) == "unknown-payload"
            case InvalidState(_) => Code(e) == "invalid-state"
            case EngineClosed => Code(e) == "engine-closed"
            case InvalidHostResult => Code(e) == "invalid-host-result"
            case JavaBridge => Code(e) == "bridge-callback"
            case JniPanic => Code(e) == "native-panic"
  {
  }

  /** And under which text: a fixed one, or one that ends in what the failure carries. */
  lemma FailureTexts(e: HostError)
    ensures match e
            case Io(detail) => Display(e) == Lit("payload I/O failed: ") + detail
            case Library(detail) => Display(e) == Lit("dynamic library loading failed: ") + detail
            case EntrypointEscape => Display(e) == Lit("payload entrypoint escapes its package root")
            case MissingQuerySymbol => Display(e) == Lit("payload does not export hmcl_plugin_query_v1")
            case QueryStatus(status) => Display(e) == Lit("payload query returned status ") + Decimal(status)
            case UnsupportedPluginAbi(abi) =>
              Display(e) == Lit("payload returned unsupported plugin ABI ") + Decimal(abi)
            case InvalidPluginTable => Display(e) == Lit("payload returned an incomplete plugin function table")
            case PluginStatus(status) => Display(e) == Lit("payload callback returned status ") + Decimal(status)
            case UnknownPayload(id) => Display(e) == Lit("unknown payload handle ") + Decimal(id)
            case InvalidState(detail) => Display(e) == Lit("invalid payload state: ") + detail
            case EngineClosed => Display(e) == Lit("native engine is closed")
            case InvalidHostResult => Display(e) == Lit("invalid Host callback result")
            case JavaBridge => Display(e) == Lit("Java Runtime Bridge call failed")
            case JniPanic => Display(e) == Lit("native Host panicked at the JNI boundary")
  {
    hide Ascii, ValidUtf8, Decimal;
    assert Display(e) == Lit(Lead(e)) + Detail(e);
  }

  /** What sets a code apart: its length, its first letter and its third. */
  function Sign(e: HostError): (nat, char, char) {
    match e
    case Io(_) => (10, 'p', 'y')
    case Library(_) => (12, 'l', 'b')
    case EntrypointEscape => (17, 'e', 't')
    case MissingQuerySymbol => (13, 'm', 's')
    case QueryStatus(_) => (12, 'q', 'e')
    case UnsupportedPluginAbi(_) => (15, 'u', 's')
    case InvalidPluginTable => (20, 'i', 'v')
    case PluginStatus(_) => (13, 'p', 'u')
    case UnknownPayload(_) => (15, 'u', 'k')
    case InvalidState(_) => (13, 'i', 'v')
    case EngineClosed => (13, 'e', 'g')
    case InvalidHostResult => (19, 'i', 'v')
    case JavaBridge => (15, 'b', 'i')
    case JniPanic => (12, 'n', 't')
  }

  lemma CodeHasSign(e: HostError)
    ensures |Code(e)| >= 3 && (|Code(e)|, Code(e)[0], Code(e)[2]) == Sign(e)
  {
  }

  /** The parent tells any two kinds of failure apart by their codes. */
  lemma CodesTellFailures(e: HostError, f: HostError)
    requires Code(e) == Code(f)
    ensures Sign(e) == Sign(f)
    ensures e.Io? == f.Io? && e.Library? == f.Library? && e.EntrypointEscape? == f.EntrypointEscape?
    ensures e.MissingQuerySymbol? == f.MissingQuerySymbol? && e.QueryStatus? == f.QueryStatus?
    ensures e.UnsupportedPluginAbi? == f.UnsupportedPluginAbi? && e.InvalidPluginTable? == f.InvalidPluginTable?
    ensures e.PluginStatus? == f.PluginStatus? && e.UnknownPayload? == f.UnknownPayload?
    ensures e.InvalidState? == f.InvalidState? && e.EngineClosed? == f.EngineClosed?
    ensures e.InvalidHostResult? == f.InvalidHostResult? && e.JavaBridge? == f.JavaBridge? && e.JniPanic? == f.JniPanic?
  {
    hide Code;
    CodeHasSign(e);
    CodeHasSign(f);
  }

  /** The code of every host failure passes the error-code check. */
  lemma CodesAreValid(e: HostError)
    ensures IsErrorCode(Lit(Code(e)))
  {
    hide Kebab, Scanned;
    LoadCodesAreKebab();
    CallCodesAreKebab();
    KebabIsCode(Code(e));
  }

  lemma DashedBridgeCodesAreKebab()
    ensures Kebab("invalid-argument") && Kebab("invalid-result") && Kebab("permission-denied") && Kebab("stale-handle")
  {
  }

  lemma OtherBridgeCodesAreKebab()
    ensures Kebab("type-mismatch") && Kebab("callback-failed")
    ensures Kebab("cancelled") && Kebab("unavailable") && Kebab("internal")
  {
  }

  /** And so does the code of every bridge error. */
  lemma BridgeCodesAreValid(c: BridgeValue.ErrorCode)
    ensures IsErrorCode(BridgeValue.WireCode(c))
  {
    hide Kebab, Scanned;
    DashedBridgeCodesAreKebab();
    OtherBridgeCodesAreKebab();
    KebabIsCode(BridgeValue.CodeName(c));
  }

  predicate StartsWithLetter(t: seq<byte>) { t != [] && (0x41 <= t[0] <= 0x5A || 0x61 <= t[0] <= 0x7A) }

  predicate Capital(c: char) { 'A' <= c <= 'Z' }

  lemma LeadLetters()
    ensures "payload I/O failed: "[0] == 'p'
    ensures "dynamic library loading failed: "[0] == 'd'
    ensures "payload entrypoint escapes its package root"[0] == 'p'
    ensures "payload does not export hmcl_plugin_query_v1"[0] == 'p'
    ensures "payload query returned status "[0] == 'p'
    ensures "payload returned unsupported plugin ABI "[0] == 'p'
    ensures "payload returned an incomplete plugin function table"[0] == 'p'
    ensures "payload callback returned status "[0] == 'p'
    ensures "unknown payload handle "[0] == 'u'
    ensures "invalid payload state: "[0] == 'i'
    ensures "native engine is closed"[0] == 'n'
    ensures "invalid Host callback result"[0] == 'i'
    ensures "Java Runtime Bridge call failed"[0] == 'J'
    ensures "native Host panicked at the JNI boundary"[0] == 'n'
  {
  }

  lemma LeadsStartWithLetters(e: HostError)
    ensures Lead(e) != "" && (Letter(Lead(e)[0]) || Capital(Lead(e)[0]))
  {
    LeadLetters();
  }

  lemma DisplayStartsWithLetter(e: HostError)
    ensures StartsWithLetter(Display(e))
  {
    hide Lead, Detail, ValidUtf8;
    LeadsStartWithLetters(e);
    assert Display(e)[0] == Ascii(Lead(e))[0] == Lead(e)[0] as int % 128;
  }

  lemma TextThatStartsWithALetter(t: Text)
    requires StartsWithLetter(t)
    ensures !Blank(t)
  {
    assert ScalarLength(t) == 1;
    assert !Whitespace(t[..1]);
  }

  /** Whatever the failure, and however long its text, the body that reports it is valid. */
  method ErrorBody(e: HostError) returns (body: MessageBody)
    ensures body.ErrorReply? && ValidBody(body)
    ensures body.code == Lit(Code(e)) && body.message <= Display(e)
    ensures |Display(e)| <= MAX_MESSAGE ==> body.message == Display(e)
    ensures |Display(e)| > MAX_MESSAGE ==> |body.message| >= MAX_MESSAGE - 3
  {
    hide ValidUtf8, Code, Lead, Detail, Ascii, Blank, Scanned;
    CodesAreValid(e);
    DisplayStartsWithLetter(e);
    var message := Truncate(Display(e));
    TextThatStartsWithALetter(message);
    body := ErrorReply(Lit(Code(e)), message);
  }
}
