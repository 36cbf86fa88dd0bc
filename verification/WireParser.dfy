/** Decoding as a function of the unread bytes, and its exact agreement with the canonical bytes. */
module WireParser {
  import opened Bytes
  import opened Text
  import opened BridgeValue

  /** A failed read, or a value with the bytes still unread and the budgets used so far. */
  datatype Read<+T> = Fail | Got(value: T, rest: seq<byte>, used: Budget)

  // ---------------------------------------------------------------- primitive reads

  function Take(s: seq<byte>, n: nat, b: Budget): Read<seq<byte>> {
    if n <= |s| then Got(s[..n], s[n..], b) else Fail
  }

  function Expect(s: seq<byte>, expected: byte, b: Budget): Read<byte> {
    if s != [] && s[0] == expected then Got(expected, s[1..], b) else Fail
  }

  function ReadLength(s: seq<byte>, b: Budget): Read<u32> {
    match Take(s, 4, b)
    case Fail => Fail
    case Got(bytes, rest, used) => Got(ReadU32(bytes), rest, used)
  }

  function ReadWord(s: seq<byte>, marker: byte, b: Budget): Read<u64> {
    match Expect(s, marker, b)
    case Fail => Fail
    case Got(_, rest, _) =>
      match Take(rest, 8, b)
      case Fail => Fail
      case Got(bytes, rest, used) => Got(ReadU64(bytes), rest, used)
  }

  /** A marker and a length no greater than `limit`. */
  function ReadSize(s: seq<byte>, marker: byte, limit: nat, b: Budget): Read<u32> {
    match Expect(s, marker, b)
    case Fail => Fail
    case Got(_, rest, _) =>
      match ReadLength(rest, b)
      case Fail => Fail
      case Got(n, rest, used) => if n > limit then Fail else Got(n, rest, used)
  }

  function Charge(n: nat, limit: nat, b: Budget): Read<()> {
    if n > limit || b.content + n > MAX_TOTAL_CONTENT_BYTES then Fail
    else Got((), [], Budget(b.values, b.content + n))
  }

  function ReadUtf8(s: seq<byte>, n: nat, b: Budget): Read<Text> {
    match Take(s, n, b)
    case Fail => Fail
    case Got(bytes, rest, used) => if ValidUtf8(bytes) then Got(bytes, rest, used) else Fail
  }

  function ReadString(s: seq<byte>, limit: nat, b: Budget): Read<Text> {
    match ReadSize(s, 0xdb, limit, b)
    case Fail => Fail
    case Got(n, rest, _) =>
      match Charge(n, limit, b)
      case Fail => Fail
      case Got(_, _, used) => ReadUtf8(rest, n, used)
  }

  function ReadMetadata(s: seq<byte>, limit: nat, b: Budget): Read<Text> {
    match ReadSize(s, 0xdb, limit, b)
    case Fail => Fail
    case Got(n, rest, _) => ReadUtf8(rest, n, b)
  }

  function ReadBlob(s: seq<byte>, b: Budget): Read<seq<byte>> {
    match ReadSize(s, 0xc6, U32_LIMIT, b)
    case Fail => Fail
    case Got(n, rest, _) =>
      match Charge(n, MAX_BYTE_BYTES, b)
      case Fail => Fail
      case Got(_, _, used) => Take(rest, n, used)
  }

  function ReadHandle(s: seq<byte>, b: Budget): Read<HandleValue> {
    match Expect(s, 0x93, b)
    case Fail => Fail
    case Got(_, rest, _) =>
      match ReadWord(rest, 0xcf, b)
      case Fail => Fail
      case Got(objectId, rest, _) =>
        match ReadWord(rest, 0xcf, b)
        case Fail => Fail
        case Got(generation, rest, _) =>
          match ReadMetadata(rest, MAX_METADATA_BYTES, b)
          case Fail => Fail
          case Got(name, rest, used) =>
            var handle := HandleValue(objectId, generation, name);
            if handle.Valid() then Got(handle, rest, used) else Fail
  }

  // ---------------------------------------------------------------- values

  function ReadValue(s: seq<byte>, depth: nat, b: Budget): Read<Value>
    requires depth <= MAX_DEPTH + 1
    decreases MAX_DEPTH + 1 - depth, 0
  {
    if depth > MAX_DEPTH || b.values >= MAX_TOTAL_VALUES then Fail
    else
      match Expect(s, 0x92, b)
      case Fail => Fail
      case Got(_, rest, _) =>
        if rest == [] then Fail else ReadBody(rest[0], rest[1..], depth, Budget(b.values + 1, b.content))
  }

  function ReadBody(tag: byte, s: seq<byte>, depth: nat, b: Budget): Read<Value>
    requires depth <= MAX_DEPTH
    decreases MAX_DEPTH - depth, |s| + MAX_CONTAINER_ENTRIES + 2
  {
    if tag == 6 then
      match ReadSize(s, 0xdd, MAX_CONTAINER_ENTRIES, b)
      case Fail => Fail
      case Got(n, rest, used) =>
        (match ReadItems(n, rest, depth, used)
         case Fail => Fail
         case Got(items, rest, used) => Got(Array(items), rest, used))
    else if tag == 7 then
      match ReadSize(s, 0xdd, MAX_CONTAINER_ENTRIES, b)
      case Fail => Fail
      case Got(n, rest, used) =>
        (match ReadEntries(n, {}, rest, depth, used)
         case Fail => Fail
         case Got(entries, rest, used) => Got(Map(entries), rest, used))
    else ReadLeaf(tag, s, b)
  }

  function ReadLeaf(tag: byte, s: seq<byte>, b: Budget): Read<Value> {
    match tag
    case 0 => (match Expect(s, 0xc0, b) case Fail => Fail case Got(_, rest, used) => Got(Null, rest, used))
    case 1 =>
      if s != [] && s[0] == 0xc2 then Got(Bool(false), s[1..], b)
      else if s != [] && s[0] == 0xc3 then Got(Bool(true), s[1..], b)
      else Fail
    case 2 =>
      (match ReadWord(s, 0xd3, b) case Fail => Fail case Got(n, rest, used) => Got(Integer(Signed(n)), rest, used))
    case 3 =>
      (match ReadWord(s, 0xcb, b)
       case Fail => Fail
       case Got(bits, rest, used) => if Finite(bits) then Got(Float(bits), rest, used) else Fail)
    case 4 =>
      (match ReadString(s, MAX_STRING_BYTES, b)
       case Fail => Fail
       case Got(text, rest, used) => Got(String(text), rest, used))
    case 5 =>
      (match ReadBlob(s, b) case Fail => Fail case Got(data, rest, used) => Got(Bytes(data), rest, used))
    case 8 =>
      (match ReadHandle(s, b) case Fail => Fail case Got(handle, rest, used) => Got(Handle(handle), rest, used))
    case 9 =>
      (match ReadMetadata(s, MAX_METADATA_BYTES, b)
       case Fail => Fail
       case Got(name, rest, used) =>
         match CodeFromWire(name) case Err(_) => Fail case Ok(code) => Got(Error(code), rest, used))
    case _ => Fail
  }

  /** `n` values inside a container at `depth`. */
  function ReadItems(n: nat, s: seq<byte>, depth: nat, b: Budget): Read<seq<Value>>
    requires depth <= MAX_DEPTH
    decreases MAX_DEPTH - depth, n + 1
  {
    if n == 0 then Got([], s, b)
    else
      match ReadValue(s, depth + 1, b)
      case Fail => Fail
      case Got(item, rest, used) =>
        match ReadItems(n - 1, rest, depth, used)
        case Fail => Fail
        case Got(items, rest, used) => Got([item] + items, rest, used)
  }

  /** `n` map entries inside a map at `depth`, none with a key in `seen`. */
  function ReadEntries(n: nat, seen: set<Text>, s: seq<byte>, depth: nat, b: Budget): Read<seq<Entry>>
    requires depth <= MAX_DEPTH
    decreases MAX_DEPTH - depth, n + 1
  {
    if n == 0 then Got([], s, b)
    else
      match ReadKey(seen, s, b)
      case Fail => Fail
      case Got(key, rest, used) =>
        match ReadValue(rest, depth + 1, used)
        case Fail => Fail
        case Got(value, rest, used) =>
          match ReadEntries(n - 1, seen + {key}, rest, depth, used)
          case Fail => Fail
          case Got(entries, rest, used) => Got([Entry(key, value)] + entries, rest, used)
  }

  function ReadKey(seen: set<Text>, s: seq<byte>, b: Budget): Read<Text> {
    match Expect(s, 0x92, b)
    case Fail => Fail
    case Got(_, rest, _) =>
      match ReadString(rest, MAX_STRING_BYTES, b)
      case Fail => Fail
      case Got(key, rest, used) => if key in seen then Fail else Got(key, rest, used)
  }

  /** What `from_wire` returns: one whole value and nothing after it. */
  function FromWire(s: seq<byte>): Result<Value> {
    match ReadValue(s, 0, Budget(0, 0))
    case Got(v, rest, _) => if rest == [] then Ok(v) else Err(InvalidResult)
    case Fail => Err(InvalidResult)
  }

  // ---------------------------------------------------------------- primitive reads invert primitive writes

  lemma ExpectHit(x: byte, rest: seq<byte>, b: Budget)
    ensures Expect([x] + rest, x, b) == Got(x, rest, b)
  {
    assert ([x] + rest)[1..] == rest;
  }

  lemma TakeHit(s: seq<byte>, rest: seq<byte>, b: Budget)
    ensures Take(s + rest, |s|, b) == Got(s, rest, b)
  {
    assert (s + rest)[..|s|] == s && (s + rest)[|s|..] == rest;
  }

  lemma WordHit(n: u64, marker: byte, rest: seq<byte>, b: Budget)
    ensures ReadWord([marker] + U64(n) + rest, marker, b) == Got(n, rest, b)
  {
    assert [marker] + U64(n) + rest == [marker] + (U64(n) + rest);
    ExpectHit(marker, U64(n) + rest, b);
    TakeHit(U64(n), rest, b);
    WordsRoundTrip(0, n, 0);
  }

  lemma SizeHit(n: u32, marker: byte, limit: nat, rest: seq<byte>, b: Budget)
    requires n <= limit
    ensures ReadSize([marker] + Length(n) + rest, marker, limit, b) == Got(n, rest, b)
  {
    assert [marker] + Length(n) + rest == [marker] + (Length(n) + rest);
    ExpectHit(marker, Length(n) + rest, b);
    TakeHit(Length(n), rest, b);
    WordsRoundTrip(n, 0, 0);
  }

  lemma TextHit(t: Text, limit: nat, rest: seq<byte>, b: Budget)
    requires |t| <= limit <= MAX_STRING_BYTES
    ensures ReadMetadata(EncText(t) + rest, limit, b) == Got(t, rest, b)
    ensures b.content + |t| <= MAX_TOTAL_CONTENT_BYTES
        ==> ReadString(EncText(t) + rest, limit, b) == Got(t, rest, Budget(b.values, b.content + |t|))
  {
    assert EncText(t) + rest == [0xdb] + Length(|t|) + (t + rest);
    SizeHit(|t|, 0xdb, limit, t + rest, b);
    TakeHit(t, rest, b);
    TakeHit(t, rest, Budget(b.values, b.content + |t|));
  }

  lemma BlobHit(data: seq<byte>, rest: seq<byte>, b: Budget)
    requires |data| <= MAX_BYTE_BYTES && b.content + |data| <= MAX_TOTAL_CONTENT_BYTES
    ensures ReadBlob([0xc6] + Length(|data|) + data + rest, b)
         == Got(data, rest, Budget(b.values, b.content + |data|))
  {
    assert [0xc6] + Length(|data|) + data + rest == [0xc6] + Length(|data|) + (data + rest);
    SizeHit(|data|, 0xc6, U32_LIMIT, data + rest, b);
    TakeHit(data, rest, Budget(b.values, b.content + |data|));
  }

  lemma HandleHit(h: HandleValue, rest: seq<byte>, b: Budget)
    requires h.Valid()
    ensures ReadHandle(EncHandle(h) + rest, b) == Got(h, rest, b)
  {
    var third := EncText(h.typeName) + rest;
    var second := EncU64(h.generation) + third;
    var first := EncU64(h.objectId) + second;
    assert EncHandle(h) + rest == [0x93] + first;
    ExpectHit(0x93, first, b);
    WordHit(h.objectId, 0xcf, second, b);
    WordHit(h.generation, 0xcf, third, b);
    TextHit(h.typeName, MAX_METADATA_BYTES, rest, b);
  }

  lemma LeafHit(v: Value, rest: seq<byte>, b: Budget)
    requires !v.Array? && !v.Map? && WellFormed(v)
    requires b.content + CostOf(v).content <= MAX_TOTAL_CONTENT_BYTES
    ensures ReadLeaf(Tag(v), Body(v) + rest, b) == Got(v, rest, Budget(b.values, b.content + CostOf(v).content))
  {
    hide ReadWord, ReadString, ReadBlob, ReadHandle, ReadMetadata, CodeFromWire, CodeName, EncHandle, EncText;
    hide BigEndian, ValidUtf8, Scanned, WellFormedItems, WellFormedEntries;
    match v
    case Null => ExpectHit(0xc0, rest, b);
    case Bool(flag) => assert (Body(v) + rest)[1..] == rest;
    case Integer(n) => WordHit(Unsigned(n), 0xd3, rest, b);
    case Float(bits) => WordHit(bits, 0xcb, rest, b);
    case String(text) => TextHit(text, MAX_STRING_BYTES, rest, b);
    case Bytes(data) => BlobHit(data, rest, b);
    case Handle(handle) => HandleHit(handle, rest, b);
    case Error(code) =>
      TextHit(WireCode(code), MAX_METADATA_BYTES, rest, b);
      WireCodeRoundTrip(code);
  }

  lemma KeyHit(key: Text, seen: set<Text>, rest: seq<byte>, b: Budget)
    requires key !in seen && |key| <= MAX_STRING_BYTES && b.content + |key| <= MAX_TOTAL_CONTENT_BYTES
    ensures ReadKey(seen, [0x92] + EncText(key) + rest, b) == Got(key, rest, Budget(b.values, b.content + |key|))
  {
    hide ReadString, EncText, ValidUtf8;
    assert [0x92] + EncText(key) + rest == [0x92] + (EncText(key) + rest);
    ExpectHit(0x92, EncText(key) + rest, b);
    TextHit(key, MAX_STRING_BYTES, rest, b);
  }

  // ---------------------------------------------------------------- encode, then decode

  lemma HeaderHit(tag: byte, t: seq<byte>, depth: nat, b: Budget)
    requires depth <= MAX_DEPTH && b.values < MAX_TOTAL_VALUES
    ensures ReadValue([0x92, tag] + t, depth, b) == ReadBody(tag, t, depth, Budget(b.values + 1, b.content))
  {
    hide ReadBody;
    var s := [0x92, tag] + t;
    assert s[1..] == [tag] + t && s[1..][1..] == t;
  }

  /** Reading an encoding consumes exactly that encoding, whatever follows it. */
  lemma {:induction false} ReadsBack(v: Value, rest: seq<byte>, depth: nat, b: Budget)
    requires Fits(v, depth, b)
    ensures ReadValue(Enc(v) + rest, depth, b) == Got(v, rest, b.Spend(CostOf(v)))
    decreases v, 2
  {
    hide ReadValue, ReadBody, Body, WellFormed, CostOf, Tag, ValidUtf8;
    BodyReadsBack(v, rest, depth, Budget(b.values + 1, b.content));
    assert Enc(v) + rest == [0x92, Tag(v)] + (Body(v) + rest);
    HeaderHit(Tag(v), Body(v) + rest, depth, b);
  }

  lemma {:induction false} BodyReadsBack(v: Value, rest: seq<byte>, depth: nat, b: Budget)
    requires b.values > 0 && Fits(v, depth, Budget(b.values - 1, b.content))
    ensures ReadBody(Tag(v), Body(v) + rest, depth, b)
         == Got(v, rest, Budget(b.values - 1, b.content).Spend(CostOf(v)))
    decreases v, 1
  {
    hide ReadSize, ReadItems, ReadEntries, ReadLeaf, EncItems, EncEntries, EncText, EncHandle, BigEndian;
    hide ValidUtf8, CostOfItems, CostOfEntries, CodeName, Scanned;
    match v
    case Array(items) =>
      assert Body(v) + rest == [0xdd] + Length(|items|) + (EncItems(items) + rest);
      SizeHit(|items|, 0xdd, MAX_CONTAINER_ENTRIES, EncItems(items) + rest, b);
      ReadsItemsBack(items, rest, depth, b);
    case Map(entries) =>
      assert Body(v) + rest == [0xdd] + Length(|entries|) + (EncEntries(entries) + rest);
      SizeHit(|entries|, 0xdd, MAX_CONTAINER_ENTRIES, EncEntries(entries) + rest, b);
      ReadsEntriesBack(entries, {}, rest, depth, b);
    case _ =>
      LeafHit(v, rest, b);
  }

  lemma {:induction false} ReadsItemsBack(items: seq<Value>, rest: seq<byte>, depth: nat, b: Budget)
    requires depth <= MAX_DEPTH && FitsItems(items, depth, b)
    ensures ReadItems(|items|, EncItems(items) + rest, depth, b) == Got(items, rest, b.Spend(CostOfItems(items)))
    decreases items, 0
  {
    hide ReadValue, Enc, CostOf, WellFormed, ValidUtf8;
    if items == [] {
      assert EncItems(items) + rest == rest;
    } else {
      FitsItemsUnfolds(items, depth, b);
      var tail := EncItems(items[1..]) + rest;
      assert EncItems(items) + rest == Enc(items[0]) + tail;
      ReadsBack(items[0], tail, depth + 1, b);
      ReadsItemsBack(items[1..], rest, depth, b.Spend(CostOf(items[0])));
      assert [items[0]] + items[1..] == items;
    }
  }

  lemma {:induction false} ReadsEntriesBack(
    entries: seq<Entry>, seen: set<Text>, rest: seq<byte>, depth: nat, b: Budget)
    requires depth <= MAX_DEPTH && FitsUnseen(entries, seen, depth, b)
    ensures ReadEntries(|entries|, seen, EncEntries(entries) + rest, depth, b)
         == Got(entries, rest, b.Spend(CostOfEntries(entries)))
    decreases entries, 0
  {
    hide ReadValue, ReadKey, Enc, EncText, CostOf, WellFormed, ValidUtf8;
    if entries == [] {
      assert EncEntries(entries) + rest == rest;
    } else {
      FitsUnseenUnfolds(entries, seen, depth, b);
      var e, more := entries[0], entries[1..];
      var tail := EncEntries(more) + rest;
      var b1 := Budget(b.values, b.content + |e.key|);
      assert EncEntries(entries) + rest == [0x92] + EncText(e.key) + (Enc(e.value) + tail);
      KeyHit(e.key, seen, Enc(e.value) + tail, b);
      ReadsBack(e.value, tail, depth + 1, b1);
      ReadsEntriesBack(more, seen + {e.key}, rest, depth, b1.Spend(CostOf(e.value)));
      assert [e] + more == entries;
    }
  }

  // ---------------------------------------------------------------- decode, then encode

  lemma ExpectMeans(s: seq<byte>, x: byte, b: Budget)
    requires Expect(s, x, b).Got?
    ensures s == [x] + Expect(s, x, b).rest && Expect(s, x, b).used == b
  {
  }

  lemma WordMeans(s: seq<byte>, marker: byte, b: Budget)
    requires ReadWord(s, marker, b).Got?
    ensures s == [marker] + U64(ReadWord(s, marker, b).value) + ReadWord(s, marker, b).rest
    ensures ReadWord(s, marker, b).used == b
    ensures U64(Unsigned(Signed(ReadWord(s, marker, b).value))) == U64(ReadWord(s, marker, b).value)
  {
    var t := s[1..];
    WordBytesRoundTrip([0, 0, 0, 0], t[..8]);
    assert s == [marker] + t[..8] + t[8..];
  }

  lemma SizeMeans(s: seq<byte>, marker: byte, limit: nat, b: Budget)
    requires ReadSize(s, marker, limit, b).Got?
    ensures var r := ReadSize(s, marker, limit, b);
            s == [marker] + Length(r.value) + r.rest && r.value <= limit && r.used == b
  {
    hide BigEndian, FromBigEndian;
    var t := s[1..];
    WordBytesRoundTrip(t[..4], [0, 0, 0, 0, 0, 0, 0, 0]);
    assert s == [marker] + t[..4] + t[4..];
  }

  lemma MetadataMeans(s: seq<byte>, limit: nat, b: Budget)
    requires ReadMetadata(s, limit, b).Got?
    ensures var r := ReadMetadata(s, limit, b);
            s == EncText(r.value) + r.rest && |r.value| <= limit && r.used == b
  {
    hide BigEndian, FromBigEndian, ReadSize;
    SizeMeans(s, 0xdb, limit, b);
  }

  lemma StringMeans(s: seq<byte>, limit: nat, b: Budget)
    requires ReadString(s, limit, b).Got?
    ensures var r := ReadString(s, limit, b);
            && s == EncText(r.value) + r.rest && |r.value| <= limit
            && r.used == Budget(b.values, b.content + |r.value|)
            && r.used.content <= MAX_TOTAL_CONTENT_BYTES
  {
    hide BigEndian, FromBigEndian, ReadSize;
    SizeMeans(s, 0xdb, limit, b);
  }

  lemma KeyMeans(seen: set<Text>, s: seq<byte>, b: Budget)
    requires ReadKey(seen, s, b).Got?
    ensures var r := ReadKey(seen, s, b);
            && s == [0x92] + EncText(r.value) + r.rest && |r.value| <= MAX_STRING_BYTES && r.value !in seen
            && r.used == Budget(b.values, b.content + |r.value|)
            && r.used.content <= MAX_TOTAL_CONTENT_BYTES
  {
    hide ReadString, EncText, ValidUtf8;
    ExpectMeans(s, 0x92, b);
    StringMeans(s[1..], MAX_STRING_BYTES, b);
  }

  lemma BlobMeans(s: seq<byte>, b: Budget)
    requires ReadBlob(s, b).Got?
    ensures var r := ReadBlob(s, b);
            && s == [0xc6] + Length(|r.value|) + r.value + r.rest && |r.value| <= MAX_BYTE_BYTES
            && r.used == Budget(b.values, b.content + |r.value|)
            && r.used.content <= MAX_TOTAL_CONTENT_BYTES
  {
    hide BigEndian, FromBigEndian, ReadSize;
    SizeMeans(s, 0xc6, U32_LIMIT, b);
  }

  lemma HandleMeans(s: seq<byte>, b: Budget)
    requires ReadHandle(s, b).Got?
    ensures var r := ReadHandle(s, b);
            s == EncHandle(r.value) + r.rest && r.value.Valid() && r.used == b
  {
    hide ReadWord, Expect, BigEndian, ValidUtf8, ReadMetadata, Scanned;
    ExpectMeans(s, 0x93, b);
    var s1 := Expect(s, 0x93, b).rest;
    WordMeans(s1, 0xcf, b);
    var s2 := ReadWord(s1, 0xcf, b).rest;
    WordMeans(s2, 0xcf, b);
    var s3 := ReadWord(s2, 0xcf, b).rest;
    MetadataMeans(s3, MAX_METADATA_BYTES, b);
    var r := ReadHandle(s, b);
    assert s == [0x93] + (EncU64(r.value.objectId) +
          (EncU64(r.value.generation) + (EncText(r.value.typeName) + r.rest)));
  }

  lemma LeafMeans(tag: byte, s: seq<byte>, b: Budget)
    requires ReadLeaf(tag, s, b).Got? && b.content <= MAX_TOTAL_CONTENT_BYTES
    ensures var r := ReadLeaf(tag, s, b);
            && tag == Tag(r.value) && s == Body(r.value) + r.rest && WellFormed(r.value)
            && CostOf(r.value).height == 0 && CostOf(r.value).values == 1
            && r.used == Budget(b.values, b.content + CostOf(r.value).content)
            && r.used.content <= MAX_TOTAL_CONTENT_BYTES
  {
    hide ReadWord, ReadString, ReadBlob, ReadHandle, ReadMetadata, CodeFromWire, CodeName, EncHandle, EncText;
    hide BigEndian, ValidUtf8, Scanned;
    match tag
    case 0 => ExpectMeans(s, 0xc0, b);
    case 1 =>
    case 2 => WordMeans(s, 0xd3, b);
    case 3 => WordMeans(s, 0xcb, b);
    case 4 => StringMeans(s, MAX_STRING_BYTES, b);
    case 5 => BlobMeans(s, b);
    case 8 => HandleMeans(s, b);
    case 9 => MetadataMeans(s, MAX_METADATA_BYTES, b);
    case _ =>
  }

  /** Both budgets are within their limits. */
  predicate Within(b: Budget) { b.values <= MAX_TOTAL_VALUES && b.content <= MAX_TOTAL_CONTENT_BYTES }

  lemma HeaderMeans(s: seq<byte>, depth: nat, b: Budget)
    requires depth <= MAX_DEPTH + 1 && ReadValue(s, depth, b).Got?
    ensures depth <= MAX_DEPTH && b.values < MAX_TOTAL_VALUES && |s| >= 2 && s == [0x92, s[1]] + s[2..]
    ensures ReadValue(s, depth, b) == ReadBody(s[1], s[2..], depth, Budget(b.values + 1, b.content))
  {
    hide ReadBody;
    assert s[1..][0] == s[1] && s[1..][1..] == s[2..];
  }

  /** Whatever is read was an encoding that fits, and exactly its cost was spent. */
  lemma {:induction false} ReadMeans(s: seq<byte>, depth: nat, b: Budget)
    requires depth <= MAX_DEPTH + 1 && Within(b) && ReadValue(s, depth, b).Got?
    ensures var r := ReadValue(s, depth, b);
            s == Enc(r.value) + r.rest && Fits(r.value, depth, b) && r.used == b.Spend(CostOf(r.value))
    decreases MAX_DEPTH + 1 - depth, 0
  {
    hide ReadValue, ReadBody, Body, WellFormed, CostOf, Tag, ValidUtf8;
    HeaderMeans(s, depth, b);
    BodyMeans(s[1], s[2..], depth, Budget(b.values + 1, b.content));
    var r := ReadValue(s, depth, b);
    assert [0x92, s[1]] + (Body(r.value) + r.rest) == [0x92, s[1]] + Body(r.value) + r.rest;
  }

  lemma {:induction false} BodyMeans(tag: byte, s: seq<byte>, depth: nat, b: Budget)
    requires depth <= MAX_DEPTH && Within(b) && b.values > 0 && ReadBody(tag, s, depth, b).Got?
    ensures var r, b0 := ReadBody(tag, s, depth, b), Budget(b.values - 1, b.content);
            && tag == Tag(r.value) && s == Body(r.value) + r.rest
            && Fits(r.value, depth, b0) && r.used == b0.Spend(CostOf(r.value))
    decreases MAX_DEPTH - depth, MAX_CONTAINER_ENTRIES + 2
  {
    hide ReadSize, ReadItems, ReadEntries, ReadLeaf, EncItems, EncEntries, EncText, EncHandle, BigEndian;
    hide ValidUtf8, CostOfItems, CostOfEntries, CodeName, Scanned;
    if tag == 6 || tag == 7 {
      SizeMeans(s, 0xdd, MAX_CONTAINER_ENTRIES, b);
      var size := ReadSize(s, 0xdd, MAX_CONTAINER_ENTRIES, b);
      if tag == 6 {
        ReadItemsMean(size.value, size.rest, depth, b);
      } else {
        ReadEntriesMean(size.value, {}, size.rest, depth, b);
      }
    } else {
      LeafMeans(tag, s, b);
    }
  }

  lemma {:induction false} ReadItemsMean(n: nat, s: seq<byte>, depth: nat, b: Budget)
    requires depth <= MAX_DEPTH && Within(b) && ReadItems(n, s, depth, b).Got?
    ensures var r := ReadItems(n, s, depth, b);
            && |r.value| == n && s == EncItems(r.value) + r.rest
            && FitsItems(r.value, depth, b) && r.used == b.Spend(CostOfItems(r.value))
    decreases MAX_DEPTH - depth, n + 1
  {
    hide ReadValue, Enc, CostOf, WellFormed, ValidUtf8;
    if n > 0 {
      ReadMeans(s, depth + 1, b);
      var first := ReadValue(s, depth + 1, b);
      ReadItemsMean(n - 1, first.rest, depth, first.used);
      var r := ReadItems(n, s, depth, b);
      assert r.value[0] == first.value && r.value[1..] == ReadItems(n - 1, first.rest, depth, first.used).value;
      FitsItemsUnfolds(r.value, depth, b);
    }
  }

  lemma {:induction false} ReadEntriesMean(n: nat, seen: set<Text>, s: seq<byte>, depth: nat, b: Budget)
    requires depth <= MAX_DEPTH && Within(b) && ReadEntries(n, seen, s, depth, b).Got?
    ensures var r := ReadEntries(n, seen, s, depth, b);
            && |r.value| == n && s == EncEntries(r.value) + r.rest
            && FitsUnseen(r.value, seen, depth, b) && r.used == b.Spend(CostOfEntries(r.value))
    decreases MAX_DEPTH - depth, n + 1
  {
    hide ReadValue, ReadKey, Enc, EncText, CostOf, WellFormed, ValidUtf8;
    if n > 0 {
      var key := ReadKey(seen, s, b);
      KeyMeans(seen, s, b);
      ReadMeans(key.rest, depth + 1, key.used);
      var first := ReadValue(key.rest, depth + 1, key.used);
      var more := ReadEntries(n - 1, seen + {key.value}, first.rest, depth, first.used);
      ReadEntriesMean(n - 1, seen + {key.value}, first.rest, depth, first.used);
      var r := ReadEntries(n, seen, s, depth, b);
      assert r.value[0] == Entry(key.value, first.value) && r.value[1..] == more.value;
      FitsUnseenUnfolds(r.value, seen, depth, b);
      assert s == [0x92] + EncText(key.value) + Enc(first.value) + (EncEntries(more.value) + r.rest);
    }
  }

  // ---------------------------------------------------------------- the two-way inverse

  /** Every value that encodes decodes back to itself. */
  lemma EncodeThenDecode(v: Value)
    requires ToWire(v).Ok?
    ensures FromWire(ToWire(v).value) == Ok(v)
  {
    ReadsBack(v, [], 0, Budget(0, 0));
    assert Enc(v) + [] == Enc(v);
  }

  /** Every accepted byte string is the one encoding of its value: the wire form is canonical. */
  lemma DecodeThenEncode(s: seq<byte>)
    requires FromWire(s).Ok?
    ensures ToWire(FromWire(s).value) == Ok(s)
  {
    hide ReadValue, Enc, CostOf, WellFormed, ValidUtf8;
    ReadMeans(s, 0, Budget(0, 0));
    var v := FromWire(s).value;
    assert Enc(v) + [] == Enc(v);
  }

  /** Decoding succeeds on exactly the encodings, budgets included. */
  lemma DecodesExactlyEncodings(s: seq<byte>, v: Value)
    ensures FromWire(s) == Ok(v) <==> ToWire(v) == Ok(s)
  {
    hide ReadValue, Enc, CostOf, WellFormed;
    if FromWire(s) == Ok(v) { DecodeThenEncode(s); }
    if ToWire(v) == Ok(s) { EncodeThenDecode(v); }
  }

  /** No encoding is a proper prefix of another. */
  lemma EncodingsArePrefixFree(v: Value, w: Value, rest: seq<byte>)
    requires Encodable(v) && Encodable(w) && Enc(w) == Enc(v) + rest
    ensures v == w && rest == []
  {
    hide ReadValue, Enc, CostOf, WellFormed;
    ReadsBack(v, rest, 0, Budget(0, 0));
    ReadsBack(w, [], 0, Budget(0, 0));
    assert Enc(w) + [] == Enc(w);
  }
}
