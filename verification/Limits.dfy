/** What the wire format accepts and what its bytes are, told in numbers: the limits as sharp bounds, and the
    byte strings that the Java side pins. */
module Limits {
  import opened Bytes
  import opened Text
  import opened BridgeValue
  import opened WireParser
  import opened Replies

  // ---------------------------------------------------------------- what encodes

  /** The values without children. */
  lemma LeavesEncode(flag: bool, n: i64, bits: u64, t: Text, data: seq<byte>, h: HandleValue, c: ErrorCode)
    ensures Encodable(Null) && Encodable(Bool(flag)) && Encodable(Integer(n)) && Encodable(Error(c))
    ensures Encodable(String(t)) <==> |t| <= 1_048_576
    ensures Encodable(Bytes(data)) <==> |data| <= 16_777_216
    ensures Encodable(Handle(h)) <==>
              && 1 <= h.objectId < 0x8000_0000_0000_0000 && 1 <= h.generation < 0x8000_0000_0000_0000
              && |h.typeName| <= 128 && IsName(h.typeName, {0x2E, 0x2D})
    ensures Encodable(Float(bits)) <==>
              || bits < 0x7ff0_0000_0000_0000
              || 0x8000_0000_0000_0000 <= bits < 0xfff0_0000_0000_0000
  {
    hide Scanned, ValidUtf8, CodeName, IsName;
    ScannedIffName(h.typeName, {DOT, DASH});
    FiniteRanges(bits);
  }

  /** A float is finite on two ranges of bit patterns, one for each sign: everything below the infinities. */
  lemma FiniteRanges(bits: u64)
    ensures Finite(bits) <==>
              || bits < 0x7ff0_0000_0000_0000
              || 0x8000_0000_0000_0000 <= bits < 0xfff0_0000_0000_0000
  {
  }

  lemma ArrayCost(items: seq<Value>)
    ensures CostOf(Array(items)) == Cost(1, 0, 0, 7).Plus(CostOfItems(items))
    ensures WellFormed(Array(items)) <==> |items| <= 1024 && WellFormedItems(items)
  {
    hide CostOfItems, CostOfEntries, WellFormedItems, WellFormedEntries, ValidUtf8, WireCode, Scanned;
  }

  lemma ItemsCost(items: seq<Value>)
    requires items != []
    ensures CostOfItems(items) == Nested(CostOf(items[0])).Plus(CostOfItems(items[1..]))
    ensures WellFormedItems(items) <==> WellFormed(items[0]) && WellFormedItems(items[1..])
  {
  }

  lemma NoItems()
    ensures CostOfItems([]) == NO_COST && WellFormedItems([]) && WellFormed(Null) && CostOf(Null) == Cost(1, 0, 0, 3)
  {
  }

  /** A null inside `depth` arrays. */
  function Nest(depth: nat): Value {
    if depth == 0 then Null else Array([Nest(depth - 1)])
  }

  lemma {:induction false} NestCost(depth: nat)
    ensures WellFormed(Nest(depth)) && CostOf(Nest(depth)) == Cost(depth + 1, 0, depth, 7 * depth + 3)
  {
    hide CostOf, CostOfItems, WellFormed, WellFormedItems;
    NoItems();
    if depth > 0 {
      NestCost(depth - 1);
      var items := [Nest(depth - 1)];
      assert items[1..] == [];
      ItemsCost(items);
      ArrayCost(items);
    }
  }

  /** Arrays nest 31 deep and no deeper. */
  lemma NestingLimit(depth: nat)
    ensures Encodable(Nest(depth)) <==> depth <= 31
  {
    NestCost(depth);
  }

  function Copies(v: Value, n: nat): seq<Value> {
    if n == 0 then [] else [v] + Copies(v, n - 1)
  }

  lemma {:induction false} CopiesAreFormed(v: Value, n: nat)
    requires WellFormed(v)
    ensures WellFormedItems(Copies(v, n)) && |Copies(v, n)| == n
  {
    hide CostOf, CostOfItems, WellFormed, WellFormedItems;
    NoItems();
    if n > 0 {
      CopiesAreFormed(v, n - 1);
      OneMoreCopy(v, n - 1);
    }
  }

  lemma OneMoreCopy(v: Value, n: nat)
    ensures CostOfItems(Copies(v, n + 1)) == Nested(CostOf(v)).Plus(CostOfItems(Copies(v, n)))
    ensures WellFormedItems(Copies(v, n + 1)) <==> WellFormed(v) && WellFormedItems(Copies(v, n))
  {
    hide CostOf, CostOfItems, WellFormed, WellFormedItems;
    assert Copies(v, n + 1)[1..] == Copies(v, n);
    ItemsCost(Copies(v, n + 1));
  }

  lemma {:induction false} CopiesCost(v: Value, n: nat)
    ensures var c := CostOfItems(Copies(v, n));
            && c.values == Product(n, CostOf(v).values) && c.content == Product(n, CostOf(v).content)
            && c.height == if n == 0 then 0 else CostOf(v).height + 1
  {
    hide CostOf, CostOfItems, WellFormed, WellFormedItems, Product;
    if n == 0 {
      NoItems();
      Products(0, CostOf(v).values);
      Products(0, CostOf(v).content);
    } else {
      CopiesCost(v, n - 1);
      OneMoreCopy(v, n - 1);
      hide Copies;
      Distribute(n - 1, CostOf(v).values);
      Distribute(n - 1, CostOf(v).content);
    }
  }

  function Product(n: nat, x: nat): nat { n * x }

  lemma Products(n: nat, x: nat)
    ensures Product(0, x) == 0 && Product(n, 1) == n && Product(n, 0) == 0
  {
  }

  lemma Distribute(n: nat, x: nat)
    ensures Product(n + 1, x) == Product(n, x) + x
  {
  }

  /** A container has at most 1,024 elements. */
  lemma ElementLimit(n: nat)
    ensures Encodable(Array(Copies(Null, n))) <==> n <= 1024
  {
    hide CostOf, CostOfItems, WellFormed, WellFormedItems, Product;
    NoItems();
    Products(n, 0);
    CopiesAreFormed(Null, n);
    CopiesCost(Null, n);
    ArrayCost(Copies(Null, n));
  }

  /** A whole value consists of at most 65,536 values, itself included. */
  lemma ValueLimit(m: nat, n: nat)
    requires n <= 1024
    ensures Encodable(Array(Copies(Array(Copies(Null, n)), m))) <==> m <= 1024 && 1 + Product(m, 1 + n) <= 65_536
  {
    hide CostOf, CostOfItems, WellFormed, WellFormedItems, Product;
    NoItems();
    Products(n, 0);
    CopiesAreFormed(Null, n);
    CopiesCost(Null, n);
    ArrayCost(Copies(Null, n));
    var row := Array(Copies(Null, n));
    Products(m, 0);
    CopiesAreFormed(row, m);
    CopiesCost(row, m);
    ArrayCost(Copies(row, m));
  }

  /** Strings, byte strings and keys share one budget of sixteen mebibytes, and keys of a map differ. */
  lemma ContentLimits(k: Text, l: Text, a: seq<byte>, b: seq<byte>)
    ensures Encodable(Array([Bytes(a), Bytes(b)])) <==> |a| + |b| <= 16_777_216
    ensures Encodable(Map([Entry(k, Bytes(a))])) <==> |k| <= 1_048_576 && |k| + |a| <= 16_777_216
    ensures Encodable(Map([Entry(k, Bytes(a)), Entry(l, Bytes(b))])) <==>
              k != l && |k| <= 1_048_576 && |l| <= 1_048_576 && |k| + |a| + |l| + |b| <= 16_777_216
  {
    hide ValidUtf8, CostOf, CostOfItems, CostOfEntries, WellFormed, WellFormedItems, WellFormedEntries;
    NoItems();
    BlobCost(a);
    BlobCost(b);
    var items, item := [Bytes(a), Bytes(b)], [Bytes(b)];
    assert items[1..] == item && item[1..] == [];
    ItemsCost(items);
    ItemsCost(item);
    ArrayCost(items);
    OneEntryCost(Entry(k, Bytes(a)));
    OneEntryCost(Entry(l, Bytes(b)));
    var one, two, rest := [Entry(k, Bytes(a))], [Entry(k, Bytes(a)), Entry(l, Bytes(b))], [Entry(l, Bytes(b))];
    assert two[1..] == rest;
    EntriesCost(two);
    EntriesWellFormed(two);
    MapCost(one);
    MapCost(two);
    assert two[0].key == k && two[1].key == l;
  }

  lemma BlobCost(data: seq<byte>)
    ensures CostOf(Bytes(data)) == Cost(1, |data|, 0, 7 + |data|)
    ensures WellFormed(Bytes(data)) <==> |data| <= 16_777_216
  {
  }

  lemma OneEntryCost(e: Entry)
    ensures CostOfEntries([e]) == Keyed(CostOf(e.value), |e.key|)
    ensures WellFormedEntries([e]) <==> |e.key| <= 1_048_576 && WellFormed(e.value)
  {
    hide ValidUtf8;
    assert [e][1..] == [];
  }

  // ---------------------------------------------------------------- bytes

  /** Words are written most significant byte first. */
  lemma WordBytes(n: u32)
    ensures U32(n) == [n / 0x100_0000, n / 0x1_0000 % 256, n / 256 % 256, n % 256]
  {
    assert BigEndian(n, 4) == BigEndian(n / 256, 3) + [n % 256];
    assert BigEndian(n / 256, 3) == BigEndian(n / 256 / 256, 2) + [n / 256 % 256];
    assert BigEndian(n / 256 / 256, 2) == BigEndian(n / 256 / 256 / 256, 1) + [n / 256 / 256 % 256];
    assert BigEndian(n / 256 / 256 / 256, 1) == [] + [n / 256 / 256 / 256 % 256];
  }
}
