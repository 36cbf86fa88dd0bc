/** The encoder and decoder as they run: an output buffer, a read offset and running counters. */
module Codec {
  import opened Bytes
  import opened Text
  import opened BridgeValue
  import opened WireParser

  class Encoder {
    var output: seq<byte>
    var contentBytes: nat
    var values: nat

    constructor ()
      ensures output == [] && Used() == Budget(0, 0)
    {
      output, contentBytes, values := [], 0, 0;
    }

    ghost function Used(): Budget
      reads this
    {
      Budget(values, contentBytes)
    }

    method AddContent(length: nat, limit: nat) returns (r: Result<()>)
      requires contentBytes <= MAX_TOTAL_CONTENT_BYTES && limit <= MAX_BYTE_BYTES
      modifies this`contentBytes
      ensures r == if length <= limit && old(contentBytes) + length <= MAX_TOTAL_CONTENT_BYTES
                   then Ok(()) else Err(InvalidArgument)
      ensures r.Ok? ==> contentBytes == old(contentBytes) + length
    {
      if length > limit {
        return Err(InvalidArgument);
      }
      if contentBytes + length > U64_MAX {
        return Err(InvalidArgument);
      }
      contentBytes := contentBytes + length;
      if contentBytes > MAX_TOTAL_CONTENT_BYTES {
        return Err(InvalidArgument);
      }
      return Ok(());
    }

    method WriteLength(length: nat) returns (r: Result<()>)
      modifies this`output
      ensures r == if length < U32_LIMIT then Ok(()) else Err(InvalidArgument)
      ensures r.Ok? ==> output == old(output) + Length(length)
    {
      if length >= U32_LIMIT {
        return Err(InvalidArgument);
      }
      output := output + Length(length);
      return Ok(());
    }

    method WriteString(value: Text) returns (r: Result<()>)
      requires |value| <= MAX_STRING_BYTES
      modifies this`output
      ensures r == Ok(()) && output == old(output) + EncText(value)
    {
      output := output + [0xdb];
      r := WriteLength(|value|);
      output := output + value;
    }

    /** A string whose bytes count as content. */
    method PutString(value: Text) returns (r: Result<()>)
      requires contentBytes <= MAX_TOTAL_CONTENT_BYTES
      modifies this`output, this`contentBytes
      ensures r == if |value| <= MAX_STRING_BYTES && old(contentBytes) + |value| <= MAX_TOTAL_CONTENT_BYTES
                   then Ok(()) else Err(InvalidArgument)
      ensures r.Ok? ==> output == old(output) + EncText(value) && contentBytes == old(contentBytes) + |value|
    {
      r := AddContent(|value|, MAX_STRING_BYTES);
      if r.Err? { return; }
      r := WriteString(value);
    }

    method PutMetadata(value: Text) returns (r: Result<()>)
      modifies this`output
      ensures r == if |value| <= MAX_METADATA_BYTES then Ok(()) else Err(InvalidArgument)
      ensures r.Ok? ==> output == old(output) + EncText(value)
    {
      if |value| > MAX_METADATA_BYTES {
        return Err(InvalidArgument);
      }
      r := WriteString(value);
    }

    method PutBlob(data: seq<byte>) returns (r: Result<()>)
      requires contentBytes <= MAX_TOTAL_CONTENT_BYTES
      modifies this`output, this`contentBytes
      ensures r == if |data| <= MAX_BYTE_BYTES && old(contentBytes) + |data| <= MAX_TOTAL_CONTENT_BYTES
                   then Ok(()) else Err(InvalidArgument)
      ensures r.Ok? ==> output == old(output) + ([0xc6] + Length(|data|) + data)
      ensures r.Ok? ==> contentBytes == old(contentBytes) + |data|
    {
      r := AddContent(|data|, MAX_BYTE_BYTES);
      if r.Err? { return; }
      output := output + [0xc6];
      r := WriteLength(|data|);
      output := output + data;
    }

    method ContainerLength(length: nat) returns (r: Result<()>)
      modifies this`output
      ensures r == if length <= MAX_CONTAINER_ENTRIES then Ok(()) else Err(InvalidArgument)
      ensures r.Ok? ==> output == old(output) + ([0xdd] + Length(length))
    {
      if length > MAX_CONTAINER_ENTRIES {
        return Err(InvalidArgument);
      }
      output := output + [0xdd];
      r := WriteLength(length);
    }

    method PutHandle(h: HandleValue) returns (r: Result<()>)
      modifies this`output
      ensures r == if h.Valid() then Ok(()) else Err(InvalidArgument)
      ensures r.Ok? ==> output == old(output) + EncHandle(h)
    {
      hide EncU64, EncText, Scanned, IsName, TypeName, ValidUtf8;
      var named := IsValidTypeName(h.typeName);
      if h.objectId == 0 || h.generation == 0 || h.objectId > I64_MAX || h.generation > I64_MAX || !named {
        return Err(InvalidArgument);
      }
      output := output + [0x93];
      output := output + EncU64(h.objectId);
      output := output + EncU64(h.generation);
      r := PutMetadata(h.typeName);
    }

    /** Everything but the two containers, after the common header. */
    method PutLeaf(value: Value) returns (r: Result<()>)
      requires contentBytes <= MAX_TOTAL_CONTENT_BYTES && !value.Array? && !value.Map?
      modifies this`output, this`contentBytes
      ensures r == if WellFormed(value) && old(contentBytes) + CostOf(value).content <= MAX_TOTAL_CONTENT_BYTES
                   then Ok(()) else Err(InvalidArgument)
      ensures r.Ok? ==> output == old(output) + Body(value)
      ensures r.Ok? ==> contentBytes == old(contentBytes) + CostOf(value).content
    {
      hide EncText, EncHandle, BigEndian, ValidUtf8, Scanned, CodeName;
      match value {
        case Null => output := output + [0xc0]; r := Ok(());
        case Bool(flag) => output := output + [if flag then 0xc3 else 0xc2]; r := Ok(());
        case Integer(n) => output := output + ([0xd3] + U64(Unsigned(n))); r := Ok(());
        case Float(bits) =>
          if !Finite(bits) {
            return Err(InvalidArgument);
          }
          output := output + ([0xcb] + U64(bits));
          r := Ok(());
        case String(text) => r := PutString(text);
        case Bytes(data) => r := PutBlob(data);
        case Handle(handle) => r := PutHandle(handle);
        case Error(code) => r := PutMetadata(WireCode(code));
      }
    }

    /** What follows the header, once the value itself has been counted. */
    method PutBody(value: Value, depth: nat) returns (r: Result<()>)
      requires Within(Used()) && values > 0 && depth <= MAX_DEPTH
      modifies this
      ensures var b := Budget(old(values) - 1, old(contentBytes));
              && r == (if Fits(value, depth, b) then Ok(()) else Err(InvalidArgument))
              && (r.Ok? ==> output == old(output) + Body(value) && Used() == b.Spend(CostOf(value)))
      decreases value, 1
    {
      hide EncText, EncHandle, EncItems, EncEntries, WellFormedItems, WellFormedEntries, CostOfItems, CostOfEntries;
      hide BigEndian, ValidUtf8, Scanned, CodeName;
      if value.Array? {
        r := ContainerLength(|value.items|);
        if r.Err? { return; }
        r := PutItems(value.items, depth);
      } else if value.Map? {
        r := ContainerLength(|value.entries|);
        if r.Err? { return; }
        r := PutEntries(value.entries, depth);
      } else {
        r := PutLeaf(value);
      }
    }

    /** Encodes one value: it succeeds exactly when the value fits what is left of both budgets. */
    method PutValue(value: Value, depth: nat) returns (r: Result<()>)
      requires Within(Used())
      modifies this
      ensures r == if Fits(value, depth, old(Used())) then Ok(()) else Err(InvalidArgument)
      ensures r.Ok? ==> output == old(output) + Enc(value) && Used() == old(Used()).Spend(CostOf(value))
      decreases value, 2
    {
      hide Body, CostOf, WellFormed, ValidUtf8, Tag;
      if depth > MAX_DEPTH || values >= MAX_TOTAL_VALUES {
        return Err(InvalidArgument);
      }
      values := values + 1;
      output := output + [0x92, Tag(value)];
      r := PutBody(value, depth);
    }

    method PutItems(items: seq<Value>, depth: nat) returns (r: Result<()>)
      requires Within(Used()) && depth <= MAX_DEPTH
      modifies this
      ensures r == if FitsItems(items, depth, old(Used())) then Ok(()) else Err(InvalidArgument)
      ensures r.Ok? ==> output == old(output) + EncItems(items) && Used() == old(Used()).Spend(CostOfItems(items))
      decreases items, 0
    {
      hide Enc, CostOf, WellFormed, Fits;
      for i := 0 to |items|
        invariant Within(Used())
        invariant FitsItems(items, depth, old(Used())) <==> FitsItems(items[i..], depth, Used())
        invariant output + EncItems(items[i..]) == old(output) + EncItems(items)
        invariant Used().Spend(CostOfItems(items[i..])) == old(Used()).Spend(CostOfItems(items))
      {
        assert items[i..][0] == items[i] && items[i..][1..] == items[i + 1..];
        FitsItemsUnfolds(items[i..], depth, Used());
        r := PutValue(items[i], depth + 1);
        if r.Err? { return; }
        FitsMeansWithin(items[i], depth + 1);
      }
      r := Ok(());
    }

    /** After a value that fitted, both budgets are still within their limits. */
    lemma FitsMeansWithin(v: Value, depth: nat)
      ensures forall b: Budget :: Fits(v, depth, b) ==> Within(b.Spend(CostOf(v)))
    {
      hide CostOf, WellFormed;
    }

    method PutEntry(e: Entry, depth: nat) returns (r: Result<()>)
      requires Within(Used()) && depth <= MAX_DEPTH
      modifies this
      ensures r == if FitsEntry(e, depth, old(Used())) then Ok(()) else Err(InvalidArgument)
      ensures r.Ok? ==> output == old(output) + ([0x92] + EncText(e.key) + Enc(e.value))
      ensures r.Ok? ==> Used() == old(Used()).Spend(CostOfEntry(e)) && Within(Used())
      decreases e, 3
    {
      hide Enc, EncText, CostOf, WellFormed, ValidUtf8;
      output := output + [0x92];
      r := PutString(e.key);
      if r.Err? { return; }
      r := PutValue(e.value, depth + 1);
    }

    method PutEntries(entries: seq<Entry>, depth: nat) returns (r: Result<()>)
      requires Within(Used()) && depth <= MAX_DEPTH
      modifies this
      ensures r == if FitsEntries(entries, depth, old(Used())) then Ok(()) else Err(InvalidArgument)
      ensures r.Ok? ==> output == old(output) + EncEntries(entries)
      ensures r.Ok? ==> Used() == old(Used()).Spend(CostOfEntries(entries))
      decreases entries, 0
    {
      hide Enc, EncText, CostOf, WellFormed, Fits, ValidUtf8;
      var keys: set<Text> := {};
      for i := 0 to |entries|
        invariant Within(Used())
        invariant FitsEntries(entries, depth, old(Used())) <==> FitsUnseen(entries[i..], keys, depth, Used())
        invariant output + EncEntries(entries[i..]) == old(output) + EncEntries(entries)
        invariant Used().Spend(CostOfEntries(entries[i..])) == old(Used()).Spend(CostOfEntries(entries))
      {
        var e := entries[i];
        assert entries[i..][0] == e && entries[i..][1..] == entries[i + 1..];
        FitsUnseenUnfolds(entries[i..], keys, depth, Used());
        if e.key in keys {
          return Err(InvalidArgument);
        }
        keys := keys + {e.key};
        r := PutEntry(e, depth);
        if r.Err? { return; }
      }
      r := Ok(());
    }
  }

  class Decoder {
    const input: seq<byte>
    var offset: nat
    var contentBytes: nat
    var values: nat

    constructor (input: seq<byte>)
      ensures this.input == input && Valid() && offset == 0 && Used() == Budget(0, 0)
    {
      this.input := input;
      offset, contentBytes, values := 0, 0, 0;
    }

    ghost predicate Valid()
      reads this
    {
      offset <= |input| && Within(Used())
    }

    ghost function Used(): Budget
      reads this
    {
      Budget(values, contentBytes)
    }

    ghost function Rest(): seq<byte>
      reads this
    {
      if offset <= |input| then input[offset..] else []
    }

    /** The outcome is the one the specification computes, and on success so is the new position. */
    ghost predicate Answers<T>(r: Result<T>, spec: Read<T>)
      reads this
    {
      match spec
      case Fail => r == Err(InvalidResult)
      case Got(v, rest, used) => r == Ok(v) && Rest() == rest && Used() == used && Valid()
    }

    method NextByte() returns (r: Result<byte>)
      requires offset <= |input|
      modifies this`offset
      ensures old(offset) <= offset <= |input|
      ensures r == if old(Rest()) == [] then Err(InvalidResult) else Ok(old(Rest())[0])
      ensures r.Ok? ==> Rest() == old(Rest())[1..]
    {
      if offset >= |input| {
        return Err(InvalidResult);
      }
      r := Ok(input[offset]);
      offset := offset + 1;
    }

    method ExpectByte(expected: byte) returns (r: Result<byte>)
      requires Valid()
      modifies this`offset
      ensures old(offset) <= offset <= |input|
      ensures Answers(r, Expect(old(Rest()), expected, old(Used())))
    {
      r := NextByte();
      if r.Ok? && r.value != expected {
        r := Err(InvalidResult);
      }
    }

    method TakeBytes(length: nat) returns (r: Result<seq<byte>>)
      requires Valid()
      modifies this`offset
      ensures old(offset) <= offset <= |input|
      ensures Answers(r, Take(old(Rest()), length, old(Used())))
    {
      var end := offset + length;
      if end > |input| {  // a sum that overflows is past the end too
        return Err(InvalidResult);
      }
      r := Ok(input[offset..end]);
      assert Rest()[..length] == input[offset..end] && Rest()[length..] == input[end..];
      offset := end;
    }

    method Word(marker: byte) returns (r: Result<u64>)
      requires Valid()
      modifies this`offset
      ensures old(offset) <= offset <= |input|
      ensures Answers(r, ReadWord(old(Rest()), marker, old(Used())))
    {
      var m := ExpectByte(marker);
      if m.Err? { return Err(m.error); }
      var bytes := TakeBytes(8);
      if bytes.Err? { return Err(bytes.error); }
      r := Ok(ReadU64(bytes.value));
    }

    method Size(marker: byte, limit: nat) returns (r: Result<u32>)
      requires Valid()
      modifies this`offset
      ensures old(offset) <= offset <= |input|
      ensures Answers(r, ReadSize(old(Rest()), marker, limit, old(Used())))
    {
      var m := ExpectByte(marker);
      if m.Err? { return Err(m.error); }
      var bytes := TakeBytes(4);
      if bytes.Err? { return Err(bytes.error); }
      var n := ReadU32(bytes.value);
      r := if n > limit then Err(InvalidResult) else Ok(n);
    }

    method AddContent(length: nat, limit: nat) returns (r: Result<()>)
      requires Valid() && limit <= MAX_BYTE_BYTES
      modifies this`contentBytes
      ensures r.Ok? <==> Charge(length, limit, old(Used())).Got?
      ensures r.Ok? ==> Used() == Charge(length, limit, old(Used())).used && Valid()
      ensures r.Err? ==> r.error == InvalidResult
    {
      if length > limit {
        return Err(InvalidResult);
      }
      if contentBytes + length > U64_MAX {
        return Err(InvalidResult);
      }
      contentBytes := contentBytes + length;
      if contentBytes > MAX_TOTAL_CONTENT_BYTES {
        return Err(InvalidResult);
      }
      return Ok(());
    }

    method Utf8(length: nat) returns (r: Result<Text>)
      requires Valid()
      modifies this`offset
      ensures old(offset) <= offset <= |input|
      ensures Answers(r, ReadUtf8(old(Rest()), length, old(Used())))
    {
      var bytes := TakeBytes(length);
      if bytes.Err? { return Err(bytes.error); }
      r := if ValidUtf8(bytes.value) then Ok(bytes.value) else Err(InvalidResult);
    }

    method GetString(limit: nat) returns (r: Result<Text>)
      requires Valid() && limit <= MAX_STRING_BYTES
      modifies this`offset, this`contentBytes
      ensures old(offset) <= offset <= |input|
      ensures Answers(r, ReadString(old(Rest()), limit, old(Used())))
    {
      hide ReadSize, ReadUtf8, ValidUtf8;
      var n := Size(0xdb, limit);
      if n.Err? { return Err(n.error); }
      var charged := AddContent(n.value, limit);
      if charged.Err? { return Err(charged.error); }
      r := Utf8(n.value);
    }

    method GetMetadata(limit: nat) returns (r: Result<Text>)
      requires Valid()
      modifies this`offset
      ensures old(offset) <= offset <= |input|
      ensures Answers(r, ReadMetadata(old(Rest()), limit, old(Used())))
    {
      hide ReadSize, ReadUtf8, ValidUtf8;
      var n := Size(0xdb, limit);
      if n.Err? { return Err(n.error); }
      r := Utf8(n.value);
    }

    method GetBlob() returns (r: Result<seq<byte>>)
      requires Valid()
      modifies this`offset, this`contentBytes
      ensures old(offset) <= offset <= |input|
      ensures Answers(r, ReadBlob(old(Rest()), old(Used())))
    {
      hide ReadSize, Take, ValidUtf8;
      var n := Size(0xc6, U32_LIMIT);
      if n.Err? { return Err(n.error); }
      var charged := AddContent(n.value, MAX_BYTE_BYTES);
      if charged.Err? { return Err(charged.error); }
      r := TakeBytes(n.value);
    }

    method GetHandle() returns (r: Result<HandleValue>)
      requires Valid()
      modifies this`offset
      ensures old(offset) <= offset <= |input|
      ensures Answers(r, ReadHandle(old(Rest()), old(Used())))
    {
      hide ReadWord, Expect, ReadMetadata, ValidUtf8, Scanned;
      var m := ExpectByte(0x93);
      if m.Err? { return Err(m.error); }
      var objectId := Word(0xcf);
      if objectId.Err? { return Err(objectId.error); }
      var generation := Word(0xcf);
      if generation.Err? { return Err(generation.error); }
      var name := GetMetadata(MAX_METADATA_BYTES);
      if name.Err? { return Err(name.error); }
      var named := IsValidTypeName(name.value);
      var h := HandleValue(objectId.value, generation.value, name.value);
      if h.objectId == 0 || h.generation == 0 || h.objectId > I64_MAX || h.generation > I64_MAX || !named {
        return Err(InvalidResult);
      }
      r := Ok(h);
    }

    method GetLeaf(tag: byte) returns (r: Result<Value>)
      requires Valid()
      modifies this
      ensures old(offset) <= offset <= |input|
      ensures Answers(r, ReadLeaf(tag, old(Rest()), old(Used())))
    {
      hide ReadWord, ReadString, ReadBlob, ReadHandle, ReadMetadata, CodeFromWire, ValidUtf8, Scanned;
      match tag {
        case 0 =>
          var m := ExpectByte(0xc0);
          r := if m.Ok? then Ok(Null) else Err(m.error);
        case 1 =>
          var b := NextByte();
          r := if b.Err? then Err(b.error)
               else if b.value == 0xc2 then Ok(Bool(false))
               else if b.value == 0xc3 then Ok(Bool(true))
               else Err(InvalidResult);
        case 2 =>
          var n := Word(0xd3);
          r := if n.Ok? then Ok(Integer(Signed(n.value))) else Err(n.error);
        case 3 =>
          var bits := Word(0xcb);
          r := if bits.Err? then Err(bits.error)
               else if Finite(bits.value) then Ok(Float(bits.value))
               else Err(InvalidResult);
        case 4 =>
          var text := GetString(MAX_STRING_BYTES);
          r := if text.Ok? then Ok(String(text.value)) else Err(text.error);
        case 5 =>
          var data := GetBlob();
          r := if data.Ok? then Ok(Bytes(data.value)) else Err(data.error);
        case 8 =>
          var handle := GetHandle();
          r := if handle.Ok? then Ok(Handle(handle.value)) else Err(handle.error);
        case 9 =>
          var name := GetMetadata(MAX_METADATA_BYTES);
          if name.Err? { return Err(name.error); }
          var code := CodeFromWire(name.value);
          r := if code.Ok? then Ok(Error(code.value)) else Err(InvalidResult);
        case _ =>
          r := Err(InvalidResult);
      }
    }

    method GetValue(depth: nat) returns (r: Result<Value>)
      requires Valid() && depth <= MAX_DEPTH + 1
      modifies this
      ensures old(offset) <= offset <= |input|
      ensures Answers(r, ReadValue(old(Rest()), depth, old(Used())))
      decreases MAX_DEPTH + 1 - depth, 0
    {
      hide ReadBody, ValidUtf8;
      if depth > MAX_DEPTH || values >= MAX_TOTAL_VALUES {
        return Err(InvalidResult);
      }
      values := values + 1;
      var m := ExpectByte(0x92);
      if m.Err? { return Err(m.error); }
      var tag := NextByte();
      if tag.Err? { return Err(tag.error); }
      r := GetBody(tag.value, depth);
    }

    method GetBody(tag: byte, depth: nat) returns (r: Result<Value>)
      requires Valid() && depth <= MAX_DEPTH
      modifies this
      ensures old(offset) <= offset <= |input|
      ensures Answers(r, ReadBody(tag, old(Rest()), depth, old(Used())))
      decreases MAX_DEPTH - depth, MAX_CONTAINER_ENTRIES + 2
    {
      hide ReadSize, ReadItems, ReadEntries, ReadLeaf, ValidUtf8;
      if tag == 6 {
        var n := Size(0xdd, MAX_CONTAINER_ENTRIES);
        if n.Err? { return Err(n.error); }
        SizeWithinLimit(0xdd, MAX_CONTAINER_ENTRIES);
        var items := GetItems(n.value, depth);
        r := if items.Ok? then Ok(Array(items.value)) else Err(items.error);
      } else if tag == 7 {
        var n := Size(0xdd, MAX_CONTAINER_ENTRIES);
        if n.Err? { return Err(n.error); }
        SizeWithinLimit(0xdd, MAX_CONTAINER_ENTRIES);
        var entries := GetEntries(n.value, depth);
        r := if entries.Ok? then Ok(Map(entries.value)) else Err(entries.error);
      } else {
        r := GetLeaf(tag);
      }
    }

    lemma SizeWithinLimit(marker: byte, limit: nat)
      ensures forall s, b :: ReadSize(s, marker, limit, b).Got? ==> ReadSize(s, marker, limit, b).value <= limit
    {
    }

    method GetItems(n: nat, depth: nat) returns (r: Result<seq<Value>>)
      requires Valid() && depth <= MAX_DEPTH && n <= MAX_CONTAINER_ENTRIES
      modifies this
      ensures old(offset) <= offset <= |input|
      ensures Answers(r, ReadItems(n, old(Rest()), depth, old(Used())))
      decreases MAX_DEPTH - depth, n + 1
    {
      hide ReadValue, ValidUtf8;
      var items: seq<Value> := [];
      PrependedNothing(ReadItems(n, Rest(), depth, Used()));
      for i := 0 to n
        invariant Valid() && old(offset) <= offset
        invariant ReadItems(n, old(Rest()), depth, old(Used()))
               == Prepended(items, ReadItems(n - i, Rest(), depth, Used()))
      {
        ghost var before := ReadItems(n - i, Rest(), depth, Used());
        var item := GetValue(depth + 1);
        if item.Err? { return Err(item.error); }
        assert before == Prepended([item.value], ReadItems(n - i - 1, Rest(), depth, Used()));
        PrependedAgain(items, item.value, ReadItems(n - i - 1, Rest(), depth, Used()));
        items := items + [item.value];
      }
      r := Ok(items);
      assert items + [] == items;
    }

    method GetKey(keys: set<Text>) returns (r: Result<Text>)
      requires Valid()
      modifies this`offset, this`contentBytes
      ensures old(offset) <= offset <= |input|
      ensures Answers(r, ReadKey(keys, old(Rest()), old(Used())))
    {
      hide ReadString, ValidUtf8;
      var m := ExpectByte(0x92);
      if m.Err? { return Err(m.error); }
      r := GetString(MAX_STRING_BYTES);
      if r.Ok? && r.value in keys {
        r := Err(InvalidResult);
      }
    }

    method GetEntries(n: nat, depth: nat) returns (r: Result<seq<Entry>>)
      requires Valid() && depth <= MAX_DEPTH && n <= MAX_CONTAINER_ENTRIES
      modifies this
      ensures old(offset) <= offset <= |input|
      ensures Answers(r, ReadEntries(n, {}, old(Rest()), depth, old(Used())))
      decreases MAX_DEPTH - depth, n + 1
    {
      hide ReadValue, ReadKey, ValidUtf8;
      var entries: seq<Entry> := [];
      var keys: set<Text> := {};
      PrependedNothing(ReadEntries(n, {}, Rest(), depth, Used()));
      for i := 0 to n
        invariant Valid() && old(offset) <= offset
        invariant ReadEntries(n, {}, old(Rest()), depth, old(Used()))
               == Prepended(entries, ReadEntries(n - i, keys, Rest(), depth, Used()))
      {
        ghost var before := ReadEntries(n - i, keys, Rest(), depth, Used());
        var key := GetKey(keys);
        if key.Err? { return Err(key.error); }
        keys := keys + {key.value};
        var value := GetValue(depth + 1);
        if value.Err? { return Err(value.error); }
        var e := Entry(key.value, value.value);
        assert before == Prepended([e], ReadEntries(n - i - 1, keys, Rest(), depth, Used()));
        PrependedAgain(entries, e, ReadEntries(n - i - 1, keys, Rest(), depth, Used()));
        entries := entries + [e];
      }
      r := Ok(entries);
      assert entries + [] == entries;
    }
  }

  /** A read of the remaining elements, with the ones already read put in front. */
  function Prepended<T>(done: seq<T>, r: Read<seq<T>>): Read<seq<T>> {
    match r
    case Fail => Fail
    case Got(more, rest, used) => Got(done + more, rest, used)
  }

  lemma PrependedAgain<T>(done: seq<T>, x: T, r: Read<seq<T>>)
    ensures Prepended(done, Prepended([x], r)) == Prepended(done + [x], r)
  {
    if r.Got? {
      assert done + ([x] + r.value) == done + [x] + r.value;
    }
  }

  lemma PrependedNothing<T>(r: Read<seq<T>>)
    ensures Prepended([], r) == r
  {
    if r.Got? {
      assert [] + r.value == r.value;
    }
  }

  /** `Value::to_wire`. */
  method EncodeValue(v: Value) returns (r: Result<seq<byte>>)
    ensures r == ToWire(v)
    ensures r.Ok? ==> FromWire(r.value) == Ok(v) && 3 <= |r.value| <= MAX_WIRE_BYTES
    ensures r.Err? ==> r.error == InvalidArgument
  {
    hide Enc, CostOf, WellFormed, ReadValue;
    var encoder := new Encoder();
    var done := encoder.PutValue(v, 0);
    if done.Err? {
      return Err(done.error);
    }
    EncodeThenDecode(v);
    EncodingSize(v);
    r := Ok(encoder.output);
    assert encoder.output == Enc(v);
  }

  /** `Value::from_wire`: it accepts exactly the encodings, and returns the value encoded. */
  method DecodeValue(input: seq<byte>) returns (r: Result<Value>)
    ensures r == FromWire(input)
    ensures r.Ok? ==> ToWire(r.value) == Ok(input)
    ensures r.Err? ==> r.error == InvalidResult && forall v :: ToWire(v) != Ok(input)
  {
    hide ReadValue, Enc, CostOf, WellFormed, ValidUtf8;
    var decoder := new Decoder(input);
    r := decoder.GetValue(0);
    if r.Ok? && decoder.offset != |input| {
      r := Err(InvalidResult);
    }
    forall v ensures FromWire(input) == Ok(v) <==> ToWire(v) == Ok(input) {
      DecodesExactlyEncodings(input, v);
    }
  }
}
