/** Which replies of the process server can be framed: every one but an oversized result. */
module Replies {
  import opened Bytes
  import opened Text
  import opened Options
  import opened BridgeValue
  import opened Protocol
  import opened Frames

  /** The largest result whose frame is within the limit. */
  const MAX_RESULT: nat := MAX_FRAME_BYTES - 127

  lemma LeafCost(n: i64, t: Text)
    ensures CostOf(Integer(n)) == Cost(1, 0, 0, 11) && CostOf(String(t)) == Cost(1, |t|, 0, 7 + |t|)
    ensures WellFormed(Integer(n)) && (WellFormed(String(t)) <==> |t| <= MAX_STRING_BYTES)
  {
  }

  lemma EnvelopeCost(requestId: u64, kind: Text, payload: Value)
    requires requestId <= I64_MAX
    ensures var p := CostOf(payload);
            CostOfEntries(Envelope(requestId, kind, payload)) ==
            Cost(3 + p.values, 35 + |kind| + p.content, Max(1, p.height + 1), 88 + |kind| + p.size)
  {
    hide ValidUtf8, CostOf, CostOfEntries, Ascii;
    LeafCost(PROTOCOL_VERSION, kind);
    LeafCost(requestId, kind);
    NothingIsWellFormed();
    var e := Envelope(requestId, kind, payload);
    EntriesCost(e);
    EntriesCost(e[1..]);
    EntriesCost(e[2..]);
    EntriesCost(e[3..]);
    assert e[1..][1..] == e[2..] && e[2..][1..] == e[3..] && e[3..][1..] == [];
    assert e[1..][0] == e[1] && e[2..][0] == e[2] && e[3..][0] == e[3];
  }

  lemma EntriesCost(entries: seq<Entry>)
    requires entries != []
    ensures CostOfEntries(entries) ==
            Keyed(CostOf(entries[0].value), |entries[0].key|).Plus(CostOfEntries(entries[1..]))
  {
  }

  lemma EntriesWellFormed(entries: seq<Entry>)
    requires entries != []
    ensures WellFormedEntries(entries) <==>
              |entries[0].key| <= MAX_STRING_BYTES && WellFormed(entries[0].value) && WellFormedEntries(entries[1..])
  {
  }

  lemma MapCost(entries: seq<Entry>)
    ensures CostOf(Map(entries)) == Cost(1, 0, 0, 7).Plus(CostOfEntries(entries))
    ensures WellFormed(Map(entries)) <==>
              |entries| <= MAX_CONTAINER_ENTRIES && UniqueKeys(entries) && WellFormedEntries(entries)
  {
    hide CostOfItems, CostOfEntries, WellFormedItems, WellFormedEntries, UniqueKeys, ValidUtf8, WireCode, Scanned;
  }

  lemma EnvelopeIsWellFormed(requestId: u64, kind: Text, payload: Value)
    requires requestId <= I64_MAX
    ensures WellFormed(Map(Envelope(requestId, kind, payload))) <==> |kind| <= MAX_STRING_BYTES && WellFormed(payload)
  {
    hide ValidUtf8, WellFormed, WellFormedEntries, UniqueKeys;
    var e := Envelope(requestId, kind, payload);
    EnvelopeIsUnique(requestId, kind, payload);
    MapCost(e);
    assert e[1..][1..] == e[2..] && e[2..][1..] == e[3..] && e[3..][1..] == [];
    EntriesWellFormed(e);
    EntriesWellFormed(e[1..]);
    EntriesWellFormed(e[2..]);
    EntriesWellFormed(e[3..]);
    LeafCost(PROTOCOL_VERSION, kind);
    LeafCost(requestId, kind);
    NothingIsWellFormed();
  }

  lemma NothingIsWellFormed()
    ensures WellFormedEntries([]) && CostOfEntries([]) == NO_COST
  {
  }

  lemma KindLengths(k: Kind)
    ensures |KindText(k)| == Mark(k).0 <= 15
  {
    hide KindName, ValidUtf8, Ascii;
  }

  /** A message frames exactly when its payload fits what the envelope leaves of each budget. */
  lemma FramesWhenPayloadFits(m: Message)
    requires ValidMessage(m)
    ensures var p := CostOf(Map(Fields(m.body)));
            var kind := |KindText(KindOf(m.body))|;
            FrameOf(m).Some? <==>
              && WellFormed(Map(Fields(m.body))) && p.height + 1 <= MAX_DEPTH && 4 + p.values <= MAX_TOTAL_VALUES
              && 35 + kind + p.content <= MAX_TOTAL_CONTENT_BYTES && 95 + kind + p.size <= MAX_FRAME_BYTES
  {
    hide ValidUtf8, KindText, KindOf, Fields, Mark, WellFormed, CostOf, CostOfEntries, Envelope, Enc, Blank, Scanned;
    var payload := Map(Fields(m.body));
    var kind := KindText(KindOf(m.body));
    KindLengths(KindOf(m.body));
    EnvelopeCost(m.requestId, kind, payload);
    EnvelopeIsWellFormed(m.requestId, kind, payload);
    MapCost(Envelope(m.requestId, kind, payload));
    SizeIsLength(MessageValue(m));
  }

  lemma OutputCost(output: seq<byte>)
    ensures var f := [BlobEntry("output", output)];
            && CostOf(Map(f)) == Cost(2, 6 + |output|, 1, 26 + |output|)
            && (WellFormed(Map(f)) <==> |output| <= MAX_BYTE_BYTES)
  {
    hide ValidUtf8;
    var f := [BlobEntry("output", output)];
    assert f[1..] == [];
    EntriesCost(f);
    MapCost(f);
    NothingIsWellFormed();
  }

  lemma FailureCost(code: Text, message: Text)
    ensures var f := [TextEntry("code", code), TextEntry("message", message)];
            && CostOf(Map(f)) == Cost(3, 11 + |code| + |message|, 1, 44 + |code| + |message|)
            && (WellFormed(Map(f)) <== |code| <= MAX_STRING_BYTES && |message| <= MAX_STRING_BYTES)
  {
    hide ValidUtf8, CostOf, CostOfEntries, WellFormed, WellFormedEntries, Ascii;
    var f := [TextEntry("code", code), TextEntry("message", message)];
    assert f[1..] == [f[1]] && f[1..][1..] == [];
    LeafCost(0, code);
    LeafCost(0, message);
    EntriesCost(f);
    EntriesCost(f[1..]);
    EntriesWellFormed(f);
    EntriesWellFormed(f[1..]);
    MapCost(f);
    NothingIsWellFormed();
    assert |f[0].key| == 4 && |f[1].key| == 7;
  }

  /** A result frames exactly when it is at most 127 bytes short of the frame limit. */
  lemma ResultFrames(requestId: u64, output: seq<byte>)
    requires IsId(requestId) && requestId % 2 == 1
    ensures FrameOf(Message(requestId, ResultReply(output))).Some? <==> |output| <= MAX_RESULT
  {
    hide ValidUtf8, KindText, WellFormed, CostOf, FrameOf;
    FramesWhenPayloadFits(Message(requestId, ResultReply(output)));
    KindLengths(KResult);
    OutputCost(output);
  }

  /** The reply a callback waits for can be read back whenever its output leaves room for the envelope. */
  lemma CallbackResultFrames(callbackId: u64, output: seq<byte>)
    requires IsId(callbackId) && callbackId % 2 == 0
    ensures ValidMessage(Message(callbackId, CallbackResult(output)))
    ensures IsFrameable(Message(callbackId, CallbackResult(output))) <==> |output| <= MAX_FRAME_BYTES - 136
  {
    hide ValidUtf8, KindText, WellFormed, CostOf, FrameOf;
    FramesWhenPayloadFits(Message(callbackId, CallbackResult(output)));
    KindLengths(KCallbackResult);
    OutputCost(output);
  }

  lemma OkFrames(requestId: u64)
    requires IsId(requestId) && requestId % 2 == 1
    ensures IsFrameable(Message(requestId, OkReply))
  {
    hide ValidUtf8, KindText, WellFormed, CostOf, FrameOf, CostOfEntries, WellFormedEntries;
    FramesWhenPayloadFits(Message(requestId, OkReply));
    KindLengths(KOk);
    MapCost([]);
    NothingIsWellFormed();
  }

  lemma ErrorFrames(requestId: u64, body: MessageBody)
    requires IsId(requestId) && requestId % 2 == 1 && body.ErrorReply? && ValidBody(body)
    ensures IsFrameable(Message(requestId, body))
  {
    hide ValidUtf8, KindText, WellFormed, CostOf, FrameOf, Blank, Scanned;
    FramesWhenPayloadFits(Message(requestId, body));
    KindLengths(KError);
    FailureCost(body.code, body.message);
  }
}
