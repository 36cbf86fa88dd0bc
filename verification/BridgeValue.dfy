/** Bridge Value v1: the values, what makes one encodable, and the canonical bytes of each. */
module BridgeValue {
  import opened Bytes
  import opened Text

  const MAX_DEPTH: nat := 31
  const MAX_STRING_BYTES: nat := 1024 * 1024
  const MAX_BYTE_BYTES: nat := 16 * 1024 * 1024
  const MAX_CONTAINER_ENTRIES: nat := 1024
  const MAX_TOTAL_CONTENT_BYTES: nat := 16 * 1024 * 1024
  const MAX_TOTAL_VALUES: nat := 65_536
  const MAX_METADATA_BYTES: nat := 128

  datatype ErrorCode =
    | InvalidArgument | InvalidResult | PermissionDenied | StaleHandle | TypeMismatch
    | Cancelled | CallbackFailed | Unavailable | Internal

  datatype Result<+T> = Ok(value: T) | Err(error: ErrorCode)

  datatype HandleValue = HandleValue(objectId: u64, generation: u64, typeName: Text) {
    predicate Valid() {
      0 < objectId <= I64_MAX && 0 < generation <= I64_MAX && TypeName(typeName)
    }
  }

  /** A float is its 64-bit pattern, so equality of values is equality of bits. */
  datatype Value =
    | Null
    | Bool(flag: bool)
    | Integer(n: i64)
    | Float(bits: u64)
    | String(text: Text)
    | Bytes(data: seq<byte>)
    | Array(items: seq<Value>)
    | Map(entries: seq<Entry>)
    | Handle(handle: HandleValue)
    | Error(code: ErrorCode)

  datatype Entry = Entry(key: Text, value: Value)

  /** binary64 is finite unless its exponent field is all ones (section 3.4 of IEEE 754-2019). */
  predicate Finite(bits: u64) { (bits / 0x10_0000_0000_0000) % 2048 != 2047 }

  function CodeLength(code: ErrorCode): (n: nat)
    ensures 8 <= n <= 17
  {
    match code
    case InvalidArgument => 16
    case InvalidResult => 14
    case PermissionDenied => 17
    case StaleHandle => 12
    case TypeMismatch => 13
    case Cancelled => 9
    case CallbackFailed => 15
    case Unavailable => 11
    case Internal => 8
  }

  function CodeName(code: ErrorCode): (s: string)
    ensures |s| == CodeLength(code)
  {
    match code
    case InvalidArgument => "invalid-argument"
    case InvalidResult => "invalid-result"
    case PermissionDenied => "permission-denied"
    case StaleHandle => "stale-handle"
    case TypeMismatch => "type-mismatch"
    case Cancelled => "cancelled"
    case CallbackFailed => "callback-failed"
    case Unavailable => "unavailable"
    case Internal => "internal"
  }

  function WireCode(code: ErrorCode): Text { Lit(CodeName(code)) }

  function CodeFromWire(s: Text): (r: Result<ErrorCode>)
    ensures r.Ok? ==> WireCode(r.value) == s
  {
    if s == WireCode(InvalidArgument) then Ok(InvalidArgument)
    else if s == WireCode(InvalidResult) then Ok(InvalidResult)
    else if s == WireCode(PermissionDenied) then Ok(PermissionDenied)
    else if s == WireCode(StaleHandle) then Ok(StaleHandle)
    else if s == WireCode(TypeMismatch) then Ok(TypeMismatch)
    else if s == WireCode(Cancelled) then Ok(Cancelled)
    else if s == WireCode(CallbackFailed) then Ok(CallbackFailed)
    else if s == WireCode(Unavailable) then Ok(Unavailable)
    else if s == WireCode(Internal) then Ok(Internal)
    else Err(InvalidResult)
  }

  lemma CodesDifferInLength(a: ErrorCode, b: ErrorCode)
    requires |WireCode(a)| == |WireCode(b)|
    ensures a == b
  {
    assert |CodeName(a)| == CodeLength(a) && |CodeName(b)| == CodeLength(b);
  }

  lemma WireCodeRoundTrip(code: ErrorCode)
    ensures CodeFromWire(WireCode(code)) == Ok(code)
  {
    hide CodeName;
    var r := CodeFromWire(WireCode(code));
    if r.Ok? {
      CodesDifferInLength(r.value, code);
    }
  }

  // ---------------------------------------------------------------- cost of a value

  /** What a value spends: values, content bytes, nesting, and wire bytes. */
  datatype Cost = Cost(values: nat, content: nat, height: nat, size: nat) {
    function Plus(other: Cost): Cost {
      Cost(values + other.values, content + other.content, Max(height, other.height), size + other.size)
    }
  }

  function Max(a: nat, b: nat): nat { if a > b then a else b }

  const NO_COST := Cost(0, 0, 0, 0)

  /** A contained value costs one level more, plus `key` content bytes and its framing. */
  function Nested(c: Cost): Cost { c.(height := c.height + 1) }
  function Keyed(c: Cost, key: nat): Cost {
    Cost(c.values, c.content + key, c.height + 1, c.size + key + 6)
  }

  function CostOf(v: Value): (c: Cost)
    ensures c.values >= 1
    decreases v, 1
  {
    match v
    case Null => Cost(1, 0, 0, 3)
    case Bool(_) => Cost(1, 0, 0, 3)
    case Integer(_) => Cost(1, 0, 0, 11)
    case Float(_) => Cost(1, 0, 0, 11)
    case String(text) => Cost(1, |text|, 0, 7 + |text|)
    case Bytes(data) => Cost(1, |data|, 0, 7 + |data|)
    case Array(items) => Cost(1, 0, 0, 7).Plus(CostOfItems(items))
    case Map(entries) => Cost(1, 0, 0, 7).Plus(CostOfEntries(entries))
    case Handle(handle) => Cost(1, 0, 0, 26 + |handle.typeName|)
    case Error(code) => Cost(1, 0, 0, 7 + |WireCode(code)|)
  }

  function CostOfItems(items: seq<Value>): Cost
    decreases items, 0
  {
    if items == [] then NO_COST else Nested(CostOf(items[0])).Plus(CostOfItems(items[1..]))
  }

  function CostOfEntries(entries: seq<Entry>): Cost
    decreases entries, 0
  {
    if entries == [] then NO_COST
    else Keyed(CostOf(entries[0].value), |entries[0].key|).Plus(CostOfEntries(entries[1..]))
  }

  // ---------------------------------------------------------------- well-formedness

  predicate UniqueKeys(entries: seq<Entry>) {
    forall i, j :: 0 <= i < j < |entries| ==> entries[i].key != entries[j].key
  }

  /** Everything the format demands of a value by itself, apart from the three budgets. */
  predicate WellFormed(v: Value)
    decreases v, 1
  {
    match v
    case Float(bits) => Finite(bits)
    case String(text) => |text| <= MAX_STRING_BYTES
    case Bytes(data) => |data| <= MAX_BYTE_BYTES
    case Array(items) => |items| <= MAX_CONTAINER_ENTRIES && WellFormedItems(items)
    case Map(entries) =>
      |entries| <= MAX_CONTAINER_ENTRIES && UniqueKeys(entries) && WellFormedEntries(entries)
    case Handle(handle) => handle.Valid()
    case _ => true
  }

  predicate WellFormedItems(items: seq<Value>)
    decreases items, 0
  {
    items == [] || (WellFormed(items[0]) && WellFormedItems(items[1..]))
  }

  predicate WellFormedEntries(entries: seq<Entry>)
    decreases entries, 0
  {
    entries == []
    || (|entries[0].key| <= MAX_STRING_BYTES && WellFormed(entries[0].value) && WellFormedEntries(entries[1..]))
  }

  // ---------------------------------------------------------------- budgets

  /** How much of the two running budgets is used up. */
  datatype Budget = Budget(values: nat, content: nat) {
    function Spend(c: Cost): Budget { Budget(values + c.values, content + c.content) }
  }

  predicate Affordable(c: Cost, depth: nat, b: Budget) {
    && depth + c.height <= MAX_DEPTH
    && b.values + c.values <= MAX_TOTAL_VALUES
    && b.content + c.content <= MAX_TOTAL_CONTENT_BYTES
  }

  predicate Fits(v: Value, depth: nat, b: Budget) { WellFormed(v) && Affordable(CostOf(v), depth, b) }

  predicate FitsItems(items: seq<Value>, depth: nat, b: Budget) {
    WellFormedItems(items) && Affordable(CostOfItems(items), depth, b)
  }

  predicate FitsEntries(entries: seq<Entry>, depth: nat, b: Budget) {
    WellFormedEntries(entries) && UniqueKeys(entries) && Affordable(CostOfEntries(entries), depth, b)
  }

  predicate Encodable(v: Value) { Fits(v, 0, Budget(0, 0)) }

  // ---------------------------------------------------------------- canonical bytes

  function Tag(v: Value): byte {
    match v
    case Null => 0
    case Bool(_) => 1
    case Integer(_) => 2
    case Float(_) => 3
    case String(_) => 4
    case Bytes(_) => 5
    case Array(_) => 6
    case Map(_) => 7
    case Handle(_) => 8
    case Error(_) => 9
  }

  function Length(n: nat): seq<byte> { BigEndian(n, 4) }
  function EncText(s: Text): seq<byte> { [0xdb] + Length(|s|) + s }
  function EncU64(n: u64): seq<byte> { [0xcf] + U64(n) }
  function EncHandle(h: HandleValue): seq<byte> {
    [0x93] + EncU64(h.objectId) + EncU64(h.generation) + EncText(h.typeName)
  }

  function Enc(v: Value): seq<byte>
    decreases v, 2
  {
    [0x92, Tag(v)] + Body(v)
  }

  function Body(v: Value): seq<byte>
    decreases v, 1
  {
    match v
    case Null => [0xc0]
    case Bool(flag) => [if flag then 0xc3 else 0xc2]
    case Integer(n) => [0xd3] + U64(Unsigned(n))
    case Float(bits) => [0xcb] + U64(bits)
    case String(text) => EncText(text)
    case Bytes(data) => [0xc6] + Length(|data|) + data
    case Array(items) => [0xdd] + Length(|items|) + EncItems(items)
    case Map(entries) => [0xdd] + Length(|entries|) + EncEntries(entries)
    case Handle(handle) => EncHandle(handle)
    case Error(code) => EncText(WireCode(code))
  }

  function EncItems(items: seq<Value>): seq<byte>
    decreases items, 0
  {
    if items == [] then [] else Enc(items[0]) + EncItems(items[1..])
  }

  function EncEntries(entries: seq<Entry>): seq<byte>
    decreases entries, 0
  {
    if entries == [] then [] else [0x92] + EncText(entries[0].key) + Enc(entries[0].value) + EncEntries(entries[1..])
  }

  /** What `to_wire` returns. */
  function ToWire(v: Value): Result<seq<byte>> {
    if Encodable(v) then Ok(Enc(v)) else Err(InvalidArgument)
  }

  // ---------------------------------------------------------------- the running budgets, one element at a time

  lemma FitsItemsUnfolds(items: seq<Value>, depth: nat, b: Budget)
    requires items != []
    ensures FitsItems(items, depth, b)
       <==> Fits(items[0], depth + 1, b) && FitsItems(items[1..], depth, b.Spend(CostOf(items[0])))
  {
  }

  /** One map entry at `depth`: its key and then its value. */
  predicate FitsEntry(e: Entry, depth: nat, b: Budget) {
    && |e.key| <= MAX_STRING_BYTES
    && b.content + |e.key| <= MAX_TOTAL_CONTENT_BYTES
    && Fits(e.value, depth + 1, Budget(b.values, b.content + |e.key|))
  }

  function CostOfEntry(e: Entry): Cost { Keyed(CostOf(e.value), |e.key|) }

  /** The entries fit, and no key is among the ones already `seen`. */
  predicate FitsUnseen(entries: seq<Entry>, seen: set<Text>, depth: nat, b: Budget) {
    FitsEntries(entries, depth, b) && forall i :: 0 <= i < |entries| ==> entries[i].key !in seen
  }

  lemma FitsUnseenUnfolds(entries: seq<Entry>, seen: set<Text>, depth: nat, b: Budget)
    requires entries != []
    ensures FitsUnseen(entries, seen, depth, b)
       <==> && entries[0].key !in seen
            && FitsEntry(entries[0], depth, b)
            && FitsUnseen(entries[1..], seen + {entries[0].key}, depth, b.Spend(CostOfEntry(entries[0])))
  {
    hide CostOf, WellFormed, ValidUtf8;
    var rest := entries[1..];
    assert forall j :: 1 <= j < |entries| ==> entries[j] == rest[j - 1];
    assert forall j :: 0 <= j < |rest| ==> rest[j] == entries[j + 1];
  }

  // ---------------------------------------------------------------- size

  /** The cost function's size is the length of the encoding. */
  lemma {:induction false} SizeIsLength(v: Value)
    ensures |Enc(v)| == CostOf(v).size
    decreases v, 1
  {
    hide BigEndian, ValidUtf8, CodeName, WellFormed;
    match v
    case Array(items) => ItemsSizeIsLength(items);
    case Map(entries) => EntriesSizeIsLength(entries);
    case _ =>
  }

  lemma {:induction false} ItemsSizeIsLength(items: seq<Value>)
    ensures |EncItems(items)| == CostOfItems(items).size
    decreases items, 0
  {
    hide BigEndian, ValidUtf8, CodeName, WellFormed;
    if items != [] {
      SizeIsLength(items[0]);
      ItemsSizeIsLength(items[1..]);
    }
  }

  lemma {:induction false} EntriesSizeIsLength(entries: seq<Entry>)
    ensures |EncEntries(entries)| == CostOfEntries(entries).size
    decreases entries, 0
  {
    hide BigEndian, ValidUtf8, CodeName, WellFormed;
    if entries != [] {
      SizeIsLength(entries[0].value);
      EntriesSizeIsLength(entries[1..]);
    }
  }

  predicate Bounded(c: Cost) { c.content + 3 * c.values <= c.size <= c.content + 160 * c.values }

  lemma {:induction false} CostIsBounded(v: Value)
    requires WellFormed(v)
    ensures Bounded(CostOf(v)) && CostOf(v).size <= CostOf(v).content + 160 * CostOf(v).values - 6
    decreases v, 1
  {
    match v
    case Array(items) => ItemsCostIsBounded(items);
    case Map(entries) => EntriesCostIsBounded(entries);
    case _ =>
  }

  lemma {:induction false} ItemsCostIsBounded(items: seq<Value>)
    requires WellFormedItems(items)
    ensures Bounded(CostOfItems(items))
    decreases items, 0
  {
    if items != [] {
      CostIsBounded(items[0]);
      ItemsCostIsBounded(items[1..]);
    }
  }

  lemma {:induction false} EntriesCostIsBounded(entries: seq<Entry>)
    requires WellFormedEntries(entries)
    ensures Bounded(CostOfEntries(entries))
    decreases entries, 0
  {
    if entries != [] {
      CostIsBounded(entries[0].value);
      EntriesCostIsBounded(entries[1..]);
    }
  }

  const MAX_WIRE_BYTES: nat := 27_262_976

  /** Every encoding is between content + 3 and content + 160 bytes per value, so it has a 32-bit length. */
  lemma EncodingSize(v: Value)
    requires Encodable(v)
    ensures CostOf(v).content + 3 * CostOf(v).values <= |Enc(v)| <= CostOf(v).content + 160 * CostOf(v).values
    ensures 3 <= |Enc(v)| <= MAX_WIRE_BYTES < U32_LIMIT
  {
    SizeIsLength(v);
    CostIsBounded(v);
  }
}
