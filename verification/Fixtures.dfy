/** The exact bytes both sides of the boundary are held to. */
module Fixtures {
  import opened Bytes
  import opened Text
  import opened Options
  import opened BridgeValue
  import opened WireParser
  import opened Protocol
  import opened Frames
  import opened Replies
  import opened Limits

  lemma SmallWords(n: nat)
    requires n < 256
    ensures Length(n) == [0, 0, 0, n] && U64(n) == [0, 0, 0, 0, 0, 0, 0, n]
  {
    WordBytes(n);
    assert BigEndian(n, 8) == BigEndian(0, 7) + [n];
    ZeroBytes(7);
  }

  lemma {:induction false} ZeroBytes(width: nat)
    ensures BigEndian(0, width) == seq(width, _ => 0)
  {
    if width > 0 {
      ZeroBytes(width - 1);
    }
  }

  lemma NullBytes()
    ensures ToWire(Null) == Ok([0x92, 0x00, 0xc0])
  {
    hide ValidUtf8;
    NoItems();
    assert Encodable(Null);
    assert Enc(Null) == [0x92, 0x00, 0xc0];
  }

  lemma ShortText(s: string)
    requires |s| < 256
    ensures EncText(Lit(s)) == [0xdb, 0, 0, 0, |s|] + Lit(s)
  {
    SmallWords(|s|);
  }

  /** One field of a map, followed by others. */
  lemma FieldBytes(key: string, v: Value, rest: seq<Entry>)
    requires |key| < 256
    ensures EncEntries([Entry(Lit(key), v)] + rest) ==
            [0x92, 0xdb, 0, 0, 0, |key|] + Lit(key) + Enc(v) + EncEntries(rest)
  {
    hide Enc, BigEndian, Ascii;
    ShortText(key);
    var entries := [Entry(Lit(key), v)] + rest;
    assert entries[1..] == rest;
  }

  lemma NoEntries()
    ensures EncEntries([]) == []
  {
  }

  lemma SmallInteger(n: nat)
    requires n < 256
    ensures Enc(Integer(n)) == [0x92, 0x02, 0xd3, 0, 0, 0, 0, 0, 0, 0, n]
  {
    SmallWords(n);
  }

  lemma ShortString(s: string)
    requires |s| < 256
    ensures Enc(String(Lit(s))) == [0x92, 0x04, 0xdb, 0, 0, 0, |s|] + Lit(s)
  {
    hide Ascii, BigEndian;
    ShortText(s);
  }

  lemma MapBytes(entries: seq<Entry>)
    requires |entries| < 256
    ensures Enc(Map(entries)) == [0x92, 0x07, 0xdd, 0, 0, 0, |entries|] + EncEntries(entries)
  {
    hide EncEntries, EncItems, EncText, EncHandle, BigEndian, ValidUtf8, WireCode;
    SmallWords(|entries|);
    assert Body(Map(entries)) == [0xdd] + Length(|entries|) + EncEntries(entries);
    assert Enc(Map(entries)) == [0x92, 0x07] + Body(Map(entries));
  }

  /** The value of a hello with identifier seven. */
  function HelloBytes(): seq<byte> {
    [0x92, 0x07, 0xdd, 0, 0, 0, 0x04] +
    ([0x92, 0xdb, 0, 0, 0, 0x0f] + Lit("protocolVersion") + [0x92, 0x02, 0xd3, 0, 0, 0, 0, 0, 0, 0, 0x01] +
     ([0x92, 0xdb, 0, 0, 0, 0x09] + Lit("requestId") + [0x92, 0x02, 0xd3, 0, 0, 0, 0, 0, 0, 0, 0x07] +
      ([0x92, 0xdb, 0, 0, 0, 0x04] + Lit("kind") + ([0x92, 0x04, 0xdb, 0, 0, 0, 0x05] + Lit("hello")) +
       ([0x92, 0xdb, 0, 0, 0, 0x07] + Lit("payload") + ([0x92, 0x07, 0xdd, 0, 0, 0, 0] + []) + []))))
  }

  lemma HelloEncodes()
    ensures Enc(MessageValue(Message(7, Hello))) == HelloBytes()
  {
    hide Enc, EncEntries, BigEndian, Ascii, ValidUtf8, KindName;
    var payload := Map([]);
    var e := Envelope(7, KindText(KHello), payload);
    KindIsHello();
    MapBytes(e);
    MapBytes([]);
    NoEntries();
    SmallInteger(1);
    SmallInteger(7);
    ShortString("hello");
    assert e == [Entry(Lit("protocolVersion"), Integer(1))] + e[1..];
    assert e[1..] == [Entry(Lit("requestId"), Integer(7))] + e[2..];
    assert e[2..] == [Entry(Lit("kind"), String(Lit("hello")))] + e[3..];
    assert e[3..] == [Entry(Lit("payload"), payload)] + [];
    FieldBytes("protocolVersion", Integer(1), e[1..]);
    FieldBytes("requestId", Integer(7), e[2..]);
    FieldBytes("kind", String(Lit("hello")), e[3..]);
    FieldBytes("payload", payload, []);
  }

  lemma KindIsHello()
    ensures KindText(KHello) == Lit("hello") && KindOf(Hello) == KHello && Fields(Hello) == []
  {
    hide Ascii, ValidUtf8;
  }

  lemma HelloFrames()
    ensures IsFrameable(Message(7, Hello))
  {
    hide ValidUtf8, KindText, WellFormed, CostOf, FrameOf, CostOfEntries, WellFormedEntries;
    FramesWhenPayloadFits(Message(7, Hello));
    KindLengths(KHello);
    MapCost([]);
    NothingIsWellFormed();
  }

  /** The frame of that hello: the length in four bytes, most significant first, then the value. */
  lemma HelloFrame()
    ensures FrameOf(Message(7, Hello)) == Some([0, 0, 0, 0x6b] + HelloBytes())
  {
    hide Enc, ValidUtf8, CostOf, WellFormed, BigEndian, KindText, Ascii;
    HelloFrames();
    HelloEncodes();
    SmallWords(107);
    assert |HelloBytes()| == 107;
  }

  /** A map with a string, a handle and an error, as the Java side writes it. */
  lemma CompositeBytes()
    ensures Enc(Map([Entry(Lit("message"), String(Lit("Aura"))),
                     Entry(Lit("handle"), Handle(HandleValue(9, 3, Lit("ui.page")))),
                     Entry(Lit("error"), Error(PermissionDenied))])) ==
            [0x92, 0x07, 0xdd, 0, 0, 0, 0x03] +
            ([0x92, 0xdb, 0, 0, 0, 0x07] + Lit("message") + ([0x92, 0x04, 0xdb, 0, 0, 0, 0x04] + Lit("Aura")) +
             ([0x92, 0xdb, 0, 0, 0, 0x06] + Lit("handle") +
              ([0x92, 0x08, 0x93, 0xcf, 0, 0, 0, 0, 0, 0, 0, 0x09, 0xcf, 0, 0, 0, 0, 0, 0, 0, 0x03,
                0xdb, 0, 0, 0, 0x07] + Lit("ui.page")) +
              ([0x92, 0xdb, 0, 0, 0, 0x05] + Lit("error") +
               ([0x92, 0x09, 0xdb, 0, 0, 0, 0x11] + Lit("permission-denied")) + [])))
  {
    hide Enc, EncEntries, BigEndian, Ascii, ValidUtf8;
    var handle, error := Handle(HandleValue(9, 3, Lit("ui.page"))), Error(PermissionDenied);
    var e := [Entry(Lit("message"), String(Lit("Aura"))), Entry(Lit("handle"), handle), Entry(Lit("error"), error)];
    MapBytes(e);
    NoEntries();
    ShortString("Aura");
    HandleBytes(9, 3, "ui.page");
    ErrorBytes(PermissionDenied);
    assert CodeName(PermissionDenied) == "permission-denied" && |CodeName(PermissionDenied)| == 0x11;
    hide CodeName, Lit;
    assert e == [Entry(Lit("message"), String(Lit("Aura")))] + e[1..];
    assert e[1..] == [Entry(Lit("handle"), handle)] + e[2..];
    assert e[2..] == [Entry(Lit("error"), error)] + [];
    FieldBytes("message", String(Lit("Aura")), e[1..]);
    FieldBytes("handle", handle, e[2..]);
    FieldBytes("error", error, []);
  }

  lemma HandleBytes(objectId: nat, generation: nat, typeName: string)
    requires objectId < 256 && generation < 256 && |typeName| < 256
    ensures Enc(Handle(HandleValue(objectId, generation, Lit(typeName)))) ==
            [0x92, 0x08, 0x93, 0xcf, 0, 0, 0, 0, 0, 0, 0, objectId, 0xcf, 0, 0, 0, 0, 0, 0, 0, generation,
             0xdb, 0, 0, 0, |typeName|] + Lit(typeName)
  {
    hide BigEndian, Ascii, ValidUtf8;
    SmallWords(objectId);
    SmallWords(generation);
    ShortText(typeName);
  }

  /** Every error category is its code after the tag nine. */
  lemma ErrorBytes(c: BridgeValue.ErrorCode)
    ensures Enc(Error(c)) == [0x92, 0x09, 0xdb, 0, 0, 0, |CodeName(c)|] + Lit(CodeName(c))
  {
    hide BigEndian, Ascii, ValidUtf8;
    ShortText(CodeName(c));
  }
}
