/** What the process server does on its two streams, as a language of events. */
module ServerTrace {
  import opened Bytes
  import opened Options
  import opened Protocol

  datatype TraceEvent =
    | Request(m: Message)   // a parent command, read by the serve loop
    | Refused(m: Message)   // an even message read by the serve loop
    | CallOut(m: Message)   // a callback request, wholly written
    | Reply(m: Message)     // its reply, delivered to the call
    | Stray(m: Message)     // anything else read where the reply was due: dropped
    | Response(m: Message)  // the response to a command, wholly written
    | End                   // the loop is over; only callbacks of the final close may follow

  datatype Phase =
    | Idle
    | Busy(request: u64) | Calling(request: u64, callback: u64)
    | Over | LateCalling(callback: u64)

  predicate Open(p: Phase, request: u64) { (p.Busy? || p.Calling?) && p.request == request }

  predicate Late(p: Phase) { p.Over? || p.LateCalling? }

  function Next(p: Phase, e: TraceEvent): Option<Phase> {
    match e
    case Request(m) => if p.Idle? && m.requestId % 2 == 1 then Some(Busy(m.requestId)) else None
    case Refused(m) => if p.Idle? && m.requestId % 2 == 0 then Some(Over) else None
    case CallOut(m) =>
      if m.requestId % 2 == 1 then None
      else if p.Busy? || p.Calling? then Some(Calling(p.request, m.requestId))
      else if Late(p) then Some(LateCalling(m.requestId))
      else None
    case Reply(m) =>
      if p.Calling? && m.requestId == p.callback then Some(Busy(p.request))
      else if p.LateCalling? && m.requestId == p.callback then Some(Over)
      else None
    case Stray(m) =>
      if p.Calling? && m.requestId != p.callback then Some(Busy(p.request))
      else if p.LateCalling? && m.requestId != p.callback then Some(Over)
      else None
    case Response(m) => if Open(p, m.requestId) then Some(Idle) else None
    case End => if Late(p) then None else Some(Over)
  }

  /** Where a log ends, if the protocol allows it. */
  function Scan(log: seq<TraceEvent>): Option<Phase> {
    if log == [] then Some(Idle)
    else
      match Scan(log[..|log| - 1])
      case None => None
      case Some(p) => Next(p, log[|log| - 1])
  }

  /** The commands taken up, and the responses given, in order. */
  function Requests(log: seq<TraceEvent>): seq<Message> {
    if log == [] then []
    else
      var before, e := Requests(log[..|log| - 1]), log[|log| - 1];
      if e.Request? then before + [e.m] else before
  }

  function Responses(log: seq<TraceEvent>): seq<Message> {
    if log == [] then []
    else
      var before, e := Responses(log[..|log| - 1]), log[|log| - 1];
      if e.Response? then before + [e.m] else before
  }

  function Ids(messages: seq<Message>): seq<u64> {
    if messages == [] then [] else Ids(messages[..|messages| - 1]) + [messages[|messages| - 1].requestId]
  }

  /** The callback requests written. */
  function Callbacks(log: seq<TraceEvent>): seq<Message> {
    if log == [] then []
    else
      var before, e := Callbacks(log[..|log| - 1]), log[|log| - 1];
      if e.CallOut? then before + [e.m] else before
  }

  /** The messages read, and the messages written, in order. */
  function Reads(log: seq<TraceEvent>): seq<Message> {
    if log == [] then []
    else
      var before, e := Reads(log[..|log| - 1]), log[|log| - 1];
      if e.Request? || e.Refused? || e.Reply? || e.Stray? then before + [e.m] else before
  }

  function Writes(log: seq<TraceEvent>): seq<Message> {
    if log == [] then []
    else
      var before, e := Writes(log[..|log| - 1]), log[|log| - 1];
      if e.CallOut? || e.Response? then before + [e.m] else before
  }

  lemma IdsAppend(messages: seq<Message>, m: Message)
    ensures Ids(messages + [m]) == Ids(messages) + [m.requestId]
  {
    assert (messages + [m])[..|messages|] == messages;
  }

  lemma Appended(log: seq<TraceEvent>, e: TraceEvent)
    requires Scan(log).Some?
    ensures Scan(log + [e]) == Next(Scan(log).value, e)
    ensures Requests(log + [e]) == if e.Request? then Requests(log) + [e.m] else Requests(log)
    ensures Responses(log + [e]) == if e.Response? then Responses(log) + [e.m] else Responses(log)
    ensures Callbacks(log + [e]) == if e.CallOut? then Callbacks(log) + [e.m] else Callbacks(log)
    ensures Reads(log + [e]) ==
            if e.Request? || e.Refused? || e.Reply? || e.Stray? then Reads(log) + [e.m] else Reads(log)
    ensures Writes(log + [e]) == if e.CallOut? || e.Response? then Writes(log) + [e.m] else Writes(log)
  {
    assert (log + [e])[..|log|] == log;
  }

  /** The request being served, if any. */
  function Pending(p: Phase): seq<u64> {
    if p.Busy? || p.Calling? then [p.request] else []
  }

  /** Every request gets at most one response, carrying its own identifier, in request order; while one is
      being served it is the last. */
  lemma {:induction false} ResponsesFollowRequests(log: seq<TraceEvent>)
    requires Scan(log).Some?
    ensures Ids(Responses(log)) <= Ids(Requests(log)) && |Ids(Requests(log))| <= |Ids(Responses(log))| + 1
    ensures !Late(Scan(log).value) ==> Ids(Requests(log)) == Ids(Responses(log)) + Pending(Scan(log).value)
  {
    if log != [] {
      var before, e := log[..|log| - 1], log[|log| - 1];
      ResponsesFollowRequests(before);
      assert log == before + [e];
      Appended(before, e);
      hide Requests, Responses, Scan, Reads, Writes, Callbacks, Ids;
      if e.Request? {
        IdsAppend(Requests(before), e.m);
      } else if e.Response? {
        IdsAppend(Responses(before), e.m);
      }
    } else {
      assert Ids([]) == [];
    }
  }

  /** A reply reaches only the call with its identifier, the one made just before. */
  lemma {:induction false} RepliesFollowTheirCalls(log: seq<TraceEvent>, i: nat)
    requires Scan(log).Some? && i < |log| && log[i].Reply?
    ensures i > 0 && log[i - 1].CallOut? && log[i - 1].m.requestId == log[i].m.requestId
  {
    ScanOfPrefix(log, i + 1);
    ScanOfPrefix(log, i);
    assert log[..i + 1][..i] == log[..i];
    if i > 0 {
      ScanOfPrefix(log, i - 1);
      assert log[..i][..i - 1] == log[..i - 1];
    }
  }

  lemma {:induction false} ScanOfPrefix(log: seq<TraceEvent>, n: nat)
    requires Scan(log).Some? && n <= |log|
    ensures Scan(log[..n]).Some?
  {
    if n < |log| {
      ScanOfPrefix(log[..|log| - 1], n);
      assert log[..|log| - 1][..n] == log[..n];
    } else {
      assert log[..n] == log;
    }
  }

  /** Between a command and its response only callbacks appear, all with even identifiers. */
  lemma OnlyCallbacksInBetween(log: seq<TraceEvent>, i: nat)
    requires Scan(log).Some? && i < |log|
    ensures log[i].CallOut? || log[i].Reply? ==> log[i].m.requestId % 2 == 0
    ensures log[i].Request? || log[i].Response? ==> log[i].m.requestId % 2 == 1
    ensures Scan(log[..i]).Some?
    ensures Pending(Scan(log[..i]).value) != [] ==> !log[i].Request? && !log[i].Refused?
  {
    ScanOfPrefix(log, i + 1);
    ScanOfPrefix(log, i);
    assert log[..i + 1][..i] == log[..i];
    PhaseIsSound(log[..i]);
  }

  lemma {:induction false} PhaseIsSound(log: seq<TraceEvent>)
    requires Scan(log).Some?
    ensures var p := Scan(log).value;
            && (p.Busy? || p.Calling? ==> p.request % 2 == 1)
            && (p.Calling? || p.LateCalling? ==> p.callback % 2 == 0)
  {
    if log != [] {
      PhaseIsSound(log[..|log| - 1]);
    }
  }

  /** The messages whose identifiers leave `p` modulo two. */
  function OfParity(messages: seq<Message>, p: nat): seq<Message> {
    if messages == [] then []
    else
      var before, m := OfParity(messages[..|messages| - 1], p), messages[|messages| - 1];
      if m.requestId % 2 == p then before + [m] else before
  }

  /** So the parent tells the responses from the callback requests by the parity of their identifiers. */
  lemma {:induction false} WritesByParity(log: seq<TraceEvent>)
    requires Scan(log).Some?
    ensures OfParity(Writes(log), 1) == Responses(log) && OfParity(Writes(log), 0) == Callbacks(log)
  {
    if log != [] {
      var before, e := log[..|log| - 1], log[|log| - 1];
      WritesByParity(before);
      PhaseIsSound(before);
      if e.CallOut? || e.Response? {
        assert Writes(log)[..|Writes(log)| - 1] == Writes(before);
      }
    }
  }

  // ---------------------------------------------------------------- callback identifiers

  /** The identifier the `k`-th `fetch_add(2)` returns: the counter starts at two and wraps. */
  function IdAt(k: nat): u64 { (2 + 2 * k) % TWO_64 }

  predicate Usable(id: u64) { 0 < id <= I64_MAX }

  predicate Increasing(ids: seq<u64>) { forall i, j :: 0 <= i < j < |ids| ==> ids[i] < ids[j] }

  /** The usable identifiers of the first `n` calls strictly increase exactly when there are at most 2^63. */
  lemma IdsIncreaseExactlyUntilTheWrap(n: nat)
    ensures (forall i, j :: 0 <= i < j < n && Usable(IdAt(i)) && Usable(IdAt(j)) ==> IdAt(i) < IdAt(j)) <==> n <= TWO_63
  {
    if n > TWO_63 {
      IdsRepeatAfterTheWrap();
    } else {
      forall i, j | 0 <= i < j < n && Usable(IdAt(i)) && Usable(IdAt(j)) ensures IdAt(i) < IdAt(j) {
        BeforeTheWrap(i);
        BeforeTheWrap(j);
      }
    }
  }

  lemma BeforeTheWrap(k: nat)
    requires k < TWO_63 && Usable(IdAt(k))
    ensures IdAt(k) == 2 + 2 * k && IdAt(k) % 2 == 0
  {
  }

  /** The input that shows it: the first call and the one after 2^63 others carry the same identifier. */
  lemma IdsRepeatAfterTheWrap()
    ensures IdAt(0) == 2 && IdAt(TWO_63) == 2 && Usable(2)
  {
  }

  lemma IdsAreEven(k: nat)
    ensures IdAt(k) % 2 == 0 && (IdAt(k) + 2) % TWO_64 == IdAt(k + 1)
  {
  }
}
