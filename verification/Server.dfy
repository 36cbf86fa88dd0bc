/** The stdio process server: its serve loop, the lifecycle commands, and nested callbacks. */
module Server {
  import opened Bytes
  import opened Text
  import opened Options
  import opened Protocol
  import opened Frames
  import opened HostErrors
  import opened ServerTrace
  import Replies

  datatype State = AwaitHello | AwaitLoad | Loaded | Closed

  /** The only ways the state moves. */
  predicate Moves(before: State, after: State) {
    || before == after
    || (before.AwaitHello? && after.AwaitLoad?)
    || (before.AwaitLoad? && after.Loaded?)
    || (before.Loaded? && after.Closed?)
  }

  /** What the engine answers to one command. */
  datatype Answer = Done(output: seq<byte>) | Failed(error: HostError)

  /** A host operation the plugin asks for while a command runs. */
  datatype PluginCall =
    | Operation(operation: Text, input: seq<byte>)
    | Retain(objectId: u64, generation: u64)
    | Release(objectId: u64, generation: u64)

  /** The engine's part of one command: what the plugin asks for meanwhile, and the answer. */
  datatype Work = Work(calls: seq<PluginCall>, answer: Answer)

  datatype Verdict = Accept(body: MessageBody) | Decline(error: HostError)

  /** What a state that is not `Loaded` answers to the commands that need a payload. */
  function Unready(state: State): HostError {
    match state
    case AwaitHello => InvalidState(Lit("hello is required"))
    case AwaitLoad => InvalidState(Lit("payload is not loaded"))
    case _ => HostError.EngineClosed
  }

  /** The lifecycle: the next state and the verdict on a command, given the engine's answer. */
  function Judge(state: State, body: MessageBody, answer: Answer): (State, Verdict) {
    match body
    case Hello =>
      if state.AwaitHello? then (AwaitLoad, Accept(OkReply))
      else (state, Decline(InvalidState(Lit("hello already completed"))))
    case Load(_, _, _, _) =>
      if !state.AwaitLoad? then (state, Decline(InvalidState(Lit("payload load is not available"))))
      else if answer.Failed? then (state, Decline(answer.error))
      else (Loaded, Accept(OkReply))
    case _ =>
      if !state.Loaded? then (state, Decline(Unready(state)))
      else if answer.Failed? then (state, Decline(answer.error))
      else if body.Shutdown? then (Closed, Accept(OkReply))
      else if body.Invoke? then (state, Accept(ResultReply(answer.output)))
      else (state, Accept(OkReply))
  }

  /** Commands are accepted only in the order hello, load, any number of enable, invoke and disable, shutdown. */
  lemma CommandsInOrder(state: State, body: MessageBody, answer: Answer)
    requires ParentCommand(body)
    ensures var (after, verdict) := Judge(state, body, answer);
            && Moves(state, after)
            && (verdict.Decline? ==> after == state)
            && (verdict.Accept? ==>
                  && IsResponse(verdict.body) && (after != state <==> body.Hello? || body.Load? || body.Shutdown?)
                  && (body.Hello? <==> state.AwaitHello?) && (body.Load? <==> state.AwaitLoad?)
                  && (verdict.body.ResultReply? <==> body.Invoke?))
  {
    hide ValidUtf8, Ascii;
  }

  /** The engine's part of the `k`-th command; past the list it does nothing and succeeds. */
  function WorkAt(works: seq<Work>, k: nat): Work {
    if k < |works| then works[k] else Work([], Done([]))
  }

  /** The state a run of commands leads to, one verdict after the other. */
  function StateAfter(commands: seq<Message>, works: seq<Work>): State {
    if commands == [] then AwaitHello
    else
      var k := |commands| - 1;
      Judge(StateAfter(commands[..k], works), commands[k].body, WorkAt(works, k).answer).0
  }

  function VerdictAt(commands: seq<Message>, works: seq<Work>, k: nat): Verdict
    requires k < |commands|
  {
    Judge(StateAfter(commands[..k], works), commands[k].body, WorkAt(works, k).answer).1
  }

  /** A response tells a verdict: its body, or the error's code and as much of its text as fits. */
  predicate Tells(response: MessageBody, verdict: Verdict) {
    match verdict
    case Accept(body) => response == body
    case Decline(error) =>
      response.ErrorReply? && response.code == Lit(Code(error)) && response.message <= Display(error)
  }

  /** What the plugin asks for while one command is handled: only a loaded payload's plugin runs. */
  function Asks(state: State, body: MessageBody, work: Work): seq<PluginCall> {
    if state.Loaded? && ParentCommand(body) && !body.Hello? && !body.Load? then work.calls else []
  }

  function AllAsked(commands: seq<Message>, works: seq<Work>): seq<PluginCall> {
    if commands == [] then []
    else
      var k := |commands| - 1;
      AllAsked(commands[..k], works) + Asks(StateAfter(commands[..k], works), commands[k].body, WorkAt(works, k))
  }

  /** The callback that asks the parent for it. */
  function Asked(call: PluginCall): MessageBody {
    match call
    case Operation(operation, input) => MessageBody.BridgeInvoke(operation, input)
    case Retain(objectId, generation) => RetainHandle(objectId, generation)
    case Release(objectId, generation) => ReleaseHandle(objectId, generation)
  }

  /** The request written for one callback: none if no such message can be framed. */
  function Outgoing(id: u64, body: MessageBody): seq<Message> {
    if IsFrameable(Message(id, body)) then [Message(id, body)] else []
  }

  /** The requests written for these calls, whose identifiers are drawn from the `base`-th on. */
  function Sent(base: nat, calls: seq<PluginCall>): seq<Message> {
    if calls == [] then []
    else
      var k := |calls| - 1;
      Sent(base, calls[..k]) + Outgoing(IdAt(base + k), Asked(calls[k]))
  }

  /** The body of each request, by what the plugin asks for. */
  lemma AskedBodies(operation: Text, input: seq<byte>, objectId: u64, generation: u64)
    ensures Asked(Operation(operation, input)) == MessageBody.BridgeInvoke(operation, input)
    ensures Asked(Retain(objectId, generation)) == RetainHandle(objectId, generation)
    ensures Asked(Release(objectId, generation)) == ReleaseHandle(objectId, generation)
  {
  }

  /** When every call can be framed, each is one request, in order, under its own identifier. */
  lemma {:induction false} SentAre(base: nat, calls: seq<PluginCall>)
    requires forall i :: 0 <= i < |calls| ==> IsFrameable(Message(IdAt(base + i), Asked(calls[i])))
    ensures |Sent(base, calls)| == |calls|
    ensures forall i :: 0 <= i < |calls| ==> Sent(base, calls)[i] == Message(IdAt(base + i), Asked(calls[i]))
  {
    hide IsFrameable, IdAt, Asked;
    if calls != [] {
      var before := calls[..|calls| - 1];
      forall i | 0 <= i < |before| ensures IsFrameable(Message(IdAt(base + i), Asked(before[i]))) {
        assert before[i] == calls[i];
      }
      SentAre(base, before);
      forall i | 0 <= i < |calls| ensures Sent(base, calls)[i] == Message(IdAt(base + i), Asked(calls[i])) {
        assert i < |before| ==> before[i] == calls[i];
      }
    }
  }

  /** From `base` identifiers drawn and `before` requests written, these calls and no others lead to `taken`
      and, if no fault is to come, to `now`. */
  predicate Drew(
    base: nat, before: seq<Message>, calls: seq<PluginCall>, taken: nat, now: seq<Message>, calm: bool)
  {
    taken == base + |calls| && (calm ==> now == before + Sent(base, calls))
  }

  lemma DrewNothing(base: nat, before: seq<Message>, calm: bool)
    ensures Drew(base, before, [], base, before, calm)
  {
  }

  lemma DrewBoth(
    base: nat, before: seq<Message>, a: seq<PluginCall>, t: nat, mid: seq<Message>, b: seq<PluginCall>,
    u: nat, now: seq<Message>, calm: bool, still: bool)
    requires Drew(base, before, a, t, mid, calm) && Drew(t, mid, b, u, now, still) && (calm ==> still)
    ensures Drew(base, before, a + b, u, now, calm) && a + [] == a && [] + b == b
  {
    hide Sent;
    SentSplits(base, a, b);
    assert before + Sent(base, a) + Sent(base + |a|, b) == before + (Sent(base, a) + Sent(base + |a|, b));
  }

  lemma DrewOneMore(
    base: nat, before: seq<Message>, calls: seq<PluginCall>, i: nat, t: nat, mid: seq<Message>, now: seq<Message>,
    calm: bool)
    requires i < |calls| && Drew(base, before, calls[..i], t, mid, calm)
    requires calm ==> now == mid + Outgoing(IdAt(t), Asked(calls[i]))
    ensures Drew(base, before, calls[..i + 1], t + 1, now, calm)
  {
    hide Sent, Outgoing, IdAt, Asked;
    SentOneMore(base, calls, i);
  }

  lemma SentOneMore(base: nat, calls: seq<PluginCall>, i: nat)
    requires i < |calls|
    ensures Sent(base, calls[..i + 1]) == Sent(base, calls[..i]) + Outgoing(IdAt(base + i), Asked(calls[i]))
  {
    hide Outgoing, IdAt, Asked;
    assert calls[..i + 1][..i] == calls[..i];
  }

  lemma {:induction false} SentSplits(base: nat, a: seq<PluginCall>, b: seq<PluginCall>)
    ensures Sent(base, a + b) == Sent(base, a) + Sent(base + |a|, b)
  {
    hide Outgoing, IdAt, Asked;
    if b == [] {
      assert a + b == a;
    } else {
      var k := |b| - 1;
      assert (a + b)[..|a + b| - 1] == a + b[..k];
      SentSplits(base, a, b[..k]);
    }
  }

  /** The `k`-th response carries the identifier of the `k`-th command and tells its verdict. */
  predicate Scripted(commands: seq<Message>, responses: seq<Message>, works: seq<Work>) {
    && |responses| <= |commands|
    && forall k :: 0 <= k < |responses| ==>
         && responses[k].requestId == commands[k].requestId
         && Tells(responses[k].body, VerdictAt(commands, works, k))
  }

  lemma OneMoreCommand(commands: seq<Message>, m: Message, responses: seq<Message>, works: seq<Work>)
    requires Scripted(commands, responses, works)
    ensures Scripted(commands + [m], responses, works)
    ensures StateAfter(commands + [m], works) ==
            Judge(StateAfter(commands, works), m.body, WorkAt(works, |commands|).answer).0
    ensures VerdictAt(commands + [m], works, |commands|) ==
            Judge(StateAfter(commands, works), m.body, WorkAt(works, |commands|).answer).1
    ensures AllAsked(commands + [m], works) ==
            AllAsked(commands, works) + Asks(StateAfter(commands, works), m.body, WorkAt(works, |commands|))
  {
    hide Judge, Tells;
    assert (commands + [m])[..|commands|] == commands;
    forall k | 0 <= k < |responses|
      ensures VerdictAt(commands + [m], works, k) == VerdictAt(commands, works, k)
    {
      assert (commands + [m])[..k] == commands[..k];
    }
  }

  lemma OneMoreResponse(commands: seq<Message>, responses: seq<Message>, r: Message, works: seq<Work>)
    requires Scripted(commands, responses, works) && |responses| < |commands|
    requires r.requestId == commands[|responses|].requestId
    requires Tells(r.body, VerdictAt(commands, works, |responses|))
    ensures Scripted(commands, responses + [r], works)
  {
    hide Judge, Tells, StateAfter;
    assert forall k :: 0 <= k < |responses| ==> (responses + [r])[k] == responses[k];
  }

  /** What the script means for the parent: an invoke that is answered at all is answered with the engine's own
      output; an error while a payload is loaded is the engine's own; any other answer is plain. */
  predicate Reports(commands: seq<Message>, responses: seq<Message>, works: seq<Work>) {
    && |responses| <= |commands|
    && forall k :: 0 <= k < |responses| ==>
         var (body, answer, r) := (commands[k].body, WorkAt(works, k).answer, responses[k].body);
         && (body.Invoke? && !r.ErrorReply? ==> answer.Done? && r == ResultReply(answer.output))
         && (!body.Invoke? && !r.ErrorReply? ==> r == OkReply)
         && (StateAfter(commands[..k], works).Loaded? && !body.Hello? && !body.Load? ==>
               (r.ErrorReply? <==> answer.Failed?)
               && (answer.Failed? ==> r.code == Lit(Code(answer.error)) && r.message <= Display(answer.error)))
  }

  lemma ScriptedReports(commands: seq<Message>, responses: seq<Message>, works: seq<Work>)
    requires Scripted(commands, responses, works)
    ensures Reports(commands, responses, works)
  {
    hide StateAfter, Display, Code, Lit;
  }

  lemma NothingYet(works: seq<Work>, base: nat)
    ensures Requests([]) == [] && Responses([]) == [] && Scan([]) == Some(Idle) && IdAt(0) == 2
    ensures Reads([]) == [] && Writes([]) == [] && Callbacks([]) == [] && Stream([]) == []
    ensures StateAfter([], works) == AwaitHello && Scripted([], [], works)
    ensures AllAsked([], works) == [] && Sent(base, []) == []
  {
  }

  function Rank(state: State): nat {
    match state
    case AwaitHello => 0
    case AwaitLoad => 1
    case Loaded => 2
    case Closed => 3
  }

  lemma JudgeMoves(state: State, body: MessageBody, work: Work)
    ensures Rank(state) <= Rank(Judge(state, body, work.answer).0)
    ensures !ParentCommand(body) ==> Judge(state, body, work.answer).0 == state && Asks(state, body, work) == []
    ensures Judge(state, body, work.answer).1.Accept? ==>
              var (before, after) := (Rank(state), Rank(Judge(state, body, work.answer).0));
              if body.Hello? then before == 0 && after == 1
              else if body.Load? then before == 1 && after == 2
              else before == 2 && after == if body.Shutdown? then 3 else 2
  {
  }

  lemma {:induction false} RankGrows(commands: seq<Message>, works: seq<Work>, i: nat, j: nat)
    requires i <= j <= |commands|
    ensures Rank(StateAfter(commands[..i], works)) <= Rank(StateAfter(commands[..j], works))
  {
    hide Judge;
    if i < j {
      RankGrows(commands, works, i, j - 1);
      var before, m := commands[..j - 1], commands[j - 1];
      assert commands[..j] == before + [m];
      OneMoreCommand(before, m, [], works);
      JudgeMoves(StateAfter(before, works), m.body, WorkAt(works, j - 1));
    }
  }

  /** Over a whole run the accepted commands are one hello, then one load, then others up to one shutdown. */
  lemma AcceptedInOrder(commands: seq<Message>, works: seq<Work>, i: nat, j: nat)
    requires i < j < |commands| && VerdictAt(commands, works, i).Accept? && VerdictAt(commands, works, j).Accept?
    ensures !commands[j].body.Hello? && !commands[i].body.Shutdown?
    ensures commands[j].body.Load? ==> commands[i].body.Hello?
  {
    hide Judge;
    RankGrows(commands, works, i + 1, j);
    assert commands[..i + 1][..i] == commands[..i];
    JudgeMoves(StateAfter(commands[..i], works), commands[i].body, WorkAt(works, i));
    JudgeMoves(StateAfter(commands[..j], works), commands[j].body, WorkAt(works, j));
  }

  datatype Delivered = Got(body: MessageBody) | Lost(error: HostError)

  /** How the loop ends. */
  datatype Exit = EndOfInput | ShutDown | BadInput | EvenRequest | ChildOnlyBody | Unframeable | StreamFault

  predicate ParentCommand(body: MessageBody) {
    body.Hello? || body.Load? || body.Enable? || body.Invoke? || body.Disable? || body.Shutdown?
  }

  predicate IsResponse(body: MessageBody) {
    (body.OkReply? || body.ResultReply? || body.ErrorReply?) && ValidBody(body)
  }

  /** What one read of a frame finds, barring a fault. */
  function Found(rest: seq<byte>): FrameResult {
    match FirstFrame(rest)
    case CleanEnd => EndOfStream
    case Frame(m, _) => Received(m)
    case Broken => InvalidData
  }

  /** What a call with identifier `id` is delivered when the parent's stream goes on with `rest`. */
  function Delivery(rest: seq<byte>, id: u64): Delivered {
    match Found(rest)
    case Received(m) => if m.requestId == id then Got(m.body) else Lost(InvalidHostResult)
    case _ => Lost(InvalidHostResult)
  }

  /** What becomes of one call: a request that cannot be framed is lost, any other gets its delivery. */
  function Fate(id: u64, body: MessageBody, rest: seq<byte>): Delivered {
    if IsFrameable(Message(id, body)) then Delivery(rest, id) else Lost(InvalidHostResult)
  }

  /** What the plugin's bridge operation makes of a delivery. */
  function Outcome(d: Delivered): Answer {
    match d
    case Got(CallbackResult(output)) => Done(output)
    case Got(CallbackError(_)) => Failed(JavaBridge)
    case Got(_) => Failed(InvalidHostResult)
    case Lost(error) => Failed(error)
  }

  /** How far the messages read account for the input: exactly, with `rest` still to come, while every read
      ended on a frame boundary; if one did not and no stream call faulted, the input is broken, and all its
      whole frames have been read. */
  predicate Accounted(input: seq<byte>, rest: seq<byte>, seen: seq<Message>, synced: bool, torn: bool) {
    if synced then !torn && AllFrames(input) == (seen + AllFrames(rest).0, AllFrames(rest).1)
    else torn || (AllFrames(input).0 <= seen && !AllFrames(input).1)
  }

  lemma Advances(
    input: seq<byte>, seen: seq<Message>, rest: seq<byte>, m: Message, left: seq<byte>, synced: bool, torn: bool)
    requires Accounted(input, rest, seen, synced, torn)
    requires AllFrames(rest).0 == [m] + AllFrames(left).0 && AllFrames(rest).1 == AllFrames(left).1
    ensures Accounted(input, left, seen + [m], synced, torn)
  {
    hide AllFrames;
    assert seen + ([m] + AllFrames(left).0) == seen + [m] + AllFrames(left).0;
  }

  class Server {
    const reader: Reader
    const writer: Writer
    var state: State
    var nextCallbackId: u64 // starts at two; nothing draws from it before a load
    var plugin: u64         // the payload's plugin and session, once loaded
    var session: u64
    ghost var log: seq<TraceEvent>
    ghost var taken: nat    // identifiers drawn from the counter
    ghost var loads: nat    // loads that succeeded
    ghost var synced: bool  // every read so far ended on a frame boundary
    ghost var torn: bool    // a read so far met a fault
    ghost var whole: bool   // no write so far met a fault

    constructor (reader: Reader, writer: Writer)
      requires reader.pos == 0 && writer.written == []
      ensures Valid() && this.reader == reader && this.writer == writer
      ensures state == AwaitHello && log == [] && loads == 0 && taken == 0 && !torn && whole
    {
      hide AllFrames, Stream, IsFrameable, Scan, Reads, Writes, Requests, Responses, Callbacks, IdAt, Usable;
      this.reader, this.writer := reader, writer;
      state, nextCallbackId, plugin, session := AwaitHello, 2, 0, 0;
      log, taken, loads, synced, torn, whole := [], 0, 0, true, false, true;
      new;
      NothingYet([], 0);
      assert reader.Rest() == reader.data;
      assert [] + AllFrames(reader.data).0 == AllFrames(reader.data).0;
    }

    /** No stream call will fault. */
    ghost predicate Calm()
      reads reader, writer
    {
      Fault !in reader.plan && Fault !in writer.plan
    }

    /** Without a fault to come, reads and writes stay as faithful as they were. */
    twostate predicate Undisturbed()
      reads this, reader, writer
    {
      old(Calm()) ==> Calm() && torn == old(torn) && whole == old(whole)
    }

    /** These calls were made and no others: each drew one identifier and, without a fault, put its request on
        the writer if it can be framed. */
    twostate predicate Sends(calls: seq<PluginCall>)
      reads this, reader, writer
    {
      Drew(old(taken), old(Callbacks(log)), calls, taken, Callbacks(log), old(Calm()))
    }

    /** The identifiers the counter has given out so far. */
    ghost predicate Numbered()
      reads this`nextCallbackId, this`taken, this`log
    {
      && nextCallbackId == IdAt(taken)
      && (forall id :: id in Ids(Callbacks(log)) ==> Usable(id) && id % 2 == 0)
      && (taken <= TWO_63 ==>
            Increasing(Ids(Callbacks(log))) && forall id :: id in Ids(Callbacks(log)) ==> id < 2 + 2 * taken)
    }

    /** What the log says of the two streams. */
    ghost predicate Faithful()
      reads this`log, this`synced, this`torn, this`whole, reader, writer
    {
      && reader.pos <= |reader.data|
      && Accounted(reader.data, reader.Rest(), Reads(log), synced, torn)
      && (whole ==> writer.written == Stream(Writes(log)) && Frameable(Writes(log)))
    }

    ghost predicate Valid()
      reads this, reader, writer
    {
      && Scan(log).Some? && Numbered() && Faithful()
      && loads == (if state.Loaded? || state.Closed? then 1 else 0)
    }

    /** Nothing but callbacks of the request being served, or of the final close, was added. */
    twostate predicate Called()
      reads this
    {
      && old(Scan(log)).Some? && Scan(log).Some?
      && (forall r :: Open(old(Scan(log)).value, r) ==> Open(Scan(log).value, r))
      && (Late(old(Scan(log)).value) ==> Late(Scan(log).value))
      && (!old(Scan(log)).value.Idle? ==> !Scan(log).value.Idle?)
      && Requests(log) == old(Requests(log)) && Responses(log) == old(Responses(log))
      && old(log) <= log && (synced ==> old(synced))
    }

    /** Records one event. */
    ghost method Record(e: TraceEvent)
      requires Scan(log).Some? && Next(Scan(log).value, e).Some?
      modifies this`log
      ensures log == old(log) + [e] && Scan(log) == Next(old(Scan(log)).value, e)
      ensures Requests(log) == if e.Request? then old(Requests(log)) + [e.m] else old(Requests(log))
      ensures Responses(log) == if e.Response? then old(Responses(log)) + [e.m] else old(Responses(log))
      ensures Callbacks(log) == if e.CallOut? then old(Callbacks(log)) + [e.m] else old(Callbacks(log))
      ensures Reads(log) ==
              if e.Request? || e.Refused? || e.Reply? || e.Stray? then old(Reads(log)) + [e.m] else old(Reads(log))
      ensures Writes(log) == if e.CallOut? || e.Response? then old(Writes(log)) + [e.m] else old(Writes(log))
    {
      Appended(log, e);
      log := log + [e];
    }

    /** One frame off the reader; the caller records what became of it. */
    method Take() returns (r: FrameResult)
      requires Valid()
      modifies this`synced, this`torn, reader
      ensures reader.pos <= |reader.data| && (synced ==> old(synced))
      ensures torn == (old(torn) || r.IoError?)
      ensures Fault !in old(reader.plan) ==> r != IoError && Fault !in reader.plan
      ensures r != IoError ==> r == Found(old(reader.Rest()))
      ensures r != IoError ==>
                match FirstFrame(old(reader.Rest()))
                case CleanEnd => r == EndOfStream
                case Frame(m, rest) => r == Received(m) && reader.Rest() == rest
                case Broken => r == InvalidData
      ensures r.Received? ==> Accounted(reader.data, reader.Rest(), Reads(log) + [r.message], synced, torn)
      ensures !r.Received? ==> Faithful() && (r.EndOfStream? || !synced)
      ensures r.EndOfStream? ==> reader.Rest() == [] && synced == old(synced)
      ensures r.Received? ==> |reader.Rest()| < |old(reader.Rest())| && ValidMessage(r.message)
      ensures |reader.Rest()| <= |old(reader.Rest())|
    {
      hide FirstFrame, AllFrames, ValidMessage, Reads, Writes, Scan, Callbacks, Stream, IsFrameable;
      ghost var seen, rest := Reads(log), reader.Rest();
      FramesUnfold(rest);
      r := reader.ReadFrame();
      if r.Received? {
        Advances(reader.data, seen, rest, r.message, reader.Rest(), synced, torn);
      }
      if r.InvalidData? || r.IoError? {
        synced := false;
        torn := torn || r.IoError?;
      }
    }

    /** Puts one message on the writer; the caller records it when it was written. */
    method Put(m: Message) returns (r: FrameWritten)
      requires Valid() && ValidMessage(m)
      modifies this`whole, writer
      ensures Fault !in old(writer.plan) ==> r != WriteFault && Fault !in writer.plan
      ensures r.Rejected? <==> FrameOf(m).None?
      ensures !r.WriteFault? ==> whole == old(whole)
      ensures r.Rejected? ==> Faithful() && writer.written == old(writer.written)
      ensures r.WriteFault? ==> !whole && Faithful()
      ensures r.Written? ==>
                && writer.written == old(writer.written) + FrameBytes(m)
                && (whole ==> writer.written == Stream(Writes(log) + [m]) && Frameable(Writes(log) + [m]))
    {
      hide MessageToWire, ValidMessage, Reads, Writes, Scan, Callbacks, AllFrames;
      r := writer.WriteFrame(m);
      if r.WriteFault? {
        whole := false;
      } else if r.Written? && whole {
        StreamAppends(Writes(log), m);
      }
    }

    /** Draws the next identifier and writes one callback request. */
    method Send(body: MessageBody) returns (id: u64, error: Option<HostError>)
      requires Valid() && !Scan(log).value.Idle?
      modifies this`nextCallbackId, this`taken, this`log, this`whole, writer
      ensures Valid() && Called()
      ensures taken == old(taken) + 1 && id == IdAt(old(taken))
      ensures Undisturbed() && (Fault !in old(writer.plan) ==> Fault !in writer.plan)
      ensures Fault !in old(writer.plan) && error.Some? ==> error == Some(InvalidHostResult)
      ensures error.None? || error.value.InvalidHostResult? ==> whole == old(whole)
      ensures Fault !in old(writer.plan) && IsFrameable(Message(id, body)) ==> error.None?
      ensures error.None? ==>
                IsFrameable(Message(id, body)) && writer.written == old(writer.written) + FrameBytes(Message(id, body))
      ensures error.Some? ==> log == old(log)
      ensures error.None? ==> log == old(log) + [CallOut(Message(id, body))]
      ensures Callbacks(log) == old(Callbacks(log)) + if error.None? then [Message(id, body)] else []
      ensures error.None? ==> Scan(log).value.Calling? || Scan(log).value.LateCalling?
      ensures error.None? ==> Scan(log).value.callback == id
    {
      hide ValidMessage, FrameOf, AllFrames, Stream, Reads, Writes, Scan, Callbacks, Ids, Requests, Responses;
      hide Increasing;
      hide IsFrameable;
      id := nextCallbackId;
      FrameableIsValid(Message(id, body));
      IdsAreEven(taken);
      nextCallbackId := (id + 2) % TWO_64;
      taken := taken + 1;
      if id == 0 || id > I64_MAX {
        return id, Some(InvalidHostResult);
      }
      var m := Message(id, body);
      if !ValidMessage(m) {
        return id, Some(InvalidHostResult);
      }
      var w := Put(m);
      match w {
        case Rejected => return id, Some(InvalidHostResult);
        case WriteFault => return id, Some(Io([]));
        case Written =>
      }
      if taken <= TWO_63 {
        BeforeTheWrap(taken - 1);
        AppendIncreases(Ids(Callbacks(log)), id);
      }
      IdsAppend(Callbacks(log), m);
      Record(CallOut(m));
      error := None;
    }

    /** Reads one message; only one with the awaited identifier is the reply. */
    method Await(id: u64) returns (r: Delivered)
      requires Valid()
      requires Scan(log).value.Calling? || Scan(log).value.LateCalling?
      requires Scan(log).value.callback == id
      modifies this`log, this`synced, this`torn, reader
      ensures Valid() && Called()
      ensures |reader.Rest()| <= |old(reader.Rest())|
      ensures Undisturbed()
      ensures Fault !in old(reader.plan) ==> r == Delivery(old(reader.Rest()), id) && Fault !in reader.plan
      ensures r.Got? || r.error.InvalidHostResult? ==> torn == old(torn)
      ensures Fault !in old(reader.plan) ==>
                match FirstFrame(old(reader.Rest()))
                case Frame(m, _) => r == if m.requestId == id then Got(m.body) else Lost(InvalidHostResult)
                case _ => r == Lost(InvalidHostResult)
      ensures r.Got? ==> r == Delivery(old(reader.Rest()), id) && log == old(log) + [Reply(Message(id, r.body))]
      ensures Callbacks(log) == old(Callbacks(log))
    {
      hide ValidMessage, FrameOf, AllFrames, Stream, Reads, Writes, Scan, Callbacks, Ids, Requests, Responses;
      hide Increasing;
      hide Found, FirstFrame, Usable;
      var read := Take();
      match read {
        case EndOfStream => return Lost(InvalidHostResult);
        case InvalidData => return Lost(InvalidHostResult);
        case IoError => return Lost(Io([]));
        case Received(reply) =>
          if reply.requestId != id {
            Record(Stray(reply));
            return Lost(InvalidHostResult);
          }
          Record(Reply(reply));
          r := Got(reply.body);
      }
    }

    /** One callback to the parent: its request, then the reply with the same identifier. */
    method Call(body: MessageBody) returns (r: Delivered)
      requires Valid() && !Scan(log).value.Idle?
      modifies this`nextCallbackId, this`taken, this`log, this`synced, this`torn, this`whole, reader, writer
      ensures Valid() && Called() && taken == old(taken) + 1
      ensures |reader.Rest()| <= |old(reader.Rest())|
      ensures Undisturbed() && (old(Calm()) ==> r == Fate(IdAt(old(taken)), body, old(reader.Rest())))
      ensures old(Calm()) ==>
                r == if IsFrameable(Message(IdAt(old(taken)), body)) then Delivery(old(reader.Rest()), IdAt(old(taken)))
                     else Lost(InvalidHostResult)
      ensures old(Calm()) ==> Callbacks(log) == old(Callbacks(log)) + Outgoing(IdAt(old(taken)), body)
      ensures r.Got? ==>
                var id := IdAt(old(taken));
                log == old(log) + [CallOut(Message(id, body))] + [Reply(Message(id, r.body))]
    {
      hide ValidMessage, FrameOf, AllFrames, Stream, Reads, Writes, Scan, Callbacks, Ids, Requests, Responses;
      hide Increasing, Faithful, Numbered;
      var id, error := Send(body);
      if error.Some? {
        return Lost(error.value);
      }
      r := Await(id);
    }

    /** The plugin's bridge operation: the parent's output, or a failure. */
    method BridgeInvoke(forPlugin: u64, forSession: u64, operation: Text, input: seq<byte>) returns (r: Answer)
      requires Valid() && !Scan(log).value.Idle?
      modifies this`nextCallbackId, this`taken, this`log, this`synced, this`torn, this`whole, reader, writer
      ensures Valid() && Called()
      ensures |reader.Rest()| <= |old(reader.Rest())|
      ensures Undisturbed()
      ensures taken == old(taken) + if forPlugin == plugin && forSession == session then 1 else 0
      ensures forPlugin != plugin || forSession != session ==> r == Failed(InvalidHostResult) && log == old(log)
      ensures old(Calm()) && forPlugin == plugin && forSession == session ==>
                var body := MessageBody.BridgeInvoke(operation, input);
                && r == Outcome(Fate(IdAt(old(taken)), body, old(reader.Rest())))
                && Callbacks(log) == old(Callbacks(log)) + Outgoing(IdAt(old(taken)), body)
                && match Fate(IdAt(old(taken)), body, old(reader.Rest()))
                   case Got(CallbackResult(output)) => r == Done(output)
                   case Got(CallbackError(_)) => r == Failed(JavaBridge)
                   case Got(_) => r == Failed(InvalidHostResult)
                   case Lost(error) => r == Failed(error)
      ensures r.Done? ==>
                var id := IdAt(old(taken));
                log == old(log) + [CallOut(Message(id, MessageBody.BridgeInvoke(operation, input)))] +
                                  [Reply(Message(id, CallbackResult(r.output)))]
    {
      hide ValidMessage, FrameOf, AllFrames, Stream, Reads, Writes, Scan, Callbacks, Ids, Requests, Responses;
      hide Increasing, Faithful, Numbered, ValidUtf8, ValidBody, Ascii;
      if forPlugin != plugin || forSession != session {
        return Failed(InvalidHostResult);
      }
      var reply := Call(MessageBody.BridgeInvoke(operation, input));
      match reply
      case Got(CallbackResult(output)) => r := Done(output);
      case Got(CallbackError(_)) => r := Failed(JavaBridge);
      case Got(_) => r := Failed(InvalidHostResult);
      case Lost(error) => r := Failed(error);
    }

    /** A retain or release: only an empty result confirms it. */
    method HandleCall(forSession: u64, body: MessageBody) returns (error: Option<HostError>)
      requires Valid() && !Scan(log).value.Idle?
      modifies this`nextCallbackId, this`taken, this`log, this`synced, this`torn, this`whole, reader, writer
      ensures Valid() && Called()
      ensures |reader.Rest()| <= |old(reader.Rest())|
      ensures Undisturbed()
      ensures taken == old(taken) + if forSession == session then 1 else 0
      ensures forSession != session ==> error == Some(InvalidHostResult) && log == old(log)
      ensures old(Calm()) && forSession == session ==>
                && (error.None? <==> Fate(IdAt(old(taken)), body, old(reader.Rest())) == Got(CallbackResult([])))
                && Callbacks(log) == old(Callbacks(log)) + Outgoing(IdAt(old(taken)), body)
                && match Fate(IdAt(old(taken)), body, old(reader.Rest()))
                   case Got(CallbackError(_)) => error == Some(JavaBridge)
                   case Got(reply) => error.None? || error == Some(InvalidHostResult)
                   case Lost(e) => error == Some(e)
      ensures error.None? ==>
                var id := IdAt(old(taken));
                log == old(log) + [CallOut(Message(id, body))] + [Reply(Message(id, CallbackResult([])))]
    {
      hide ValidMessage, FrameOf, AllFrames, Stream, Reads, Writes, Scan, Callbacks, Ids, Requests, Responses;
      hide Increasing, Faithful, Numbered, ValidUtf8, ValidBody, Ascii;
      if forSession != session {
        return Some(InvalidHostResult);
      }
      var reply := Call(body);
      match reply
      case Got(CallbackResult(output)) => error := if output == [] then None else Some(InvalidHostResult);
      case Got(CallbackError(_)) => error := Some(JavaBridge);
      case Got(_) => error := Some(InvalidHostResult);
      case Lost(e) => error := Some(e);
    }

    /** Everything the plugin asks for during one command, whatever becomes of each call. */
    method RunCalls(calls: seq<PluginCall>)
      requires Valid() && !Scan(log).value.Idle?
      modifies this`nextCallbackId, this`taken, this`log, this`synced, this`torn, this`whole, reader, writer
      ensures Valid() && Called() && Sends(calls) && Undisturbed()
      ensures |reader.Rest()| <= |old(reader.Rest())|
    {
      hide ValidMessage, FrameOf, AllFrames, Stream, Reads, Writes, Scan, Callbacks, Ids, Requests, Responses;
      hide Drew, Outgoing, IdAt, Fate, Increasing, Faithful, Numbered, ValidUtf8, ValidBody, Ascii;
      assert calls[..0] == [];
      DrewNothing(taken, Callbacks(log), Calm());
      for i := 0 to |calls|
        invariant Valid() && Called() && !Scan(log).value.Idle?
        invariant |reader.Rest()| <= |old(reader.Rest())| && Undisturbed()
        invariant Sends(calls[..i])
      {
        ghost var base, before := taken, Callbacks(log);
        match calls[i] {
          case Operation(operation, input) =>
            var output := BridgeInvoke(plugin, session, operation, input);
          case Retain(objectId, generation) =>
            var error := HandleCall(session, RetainHandle(objectId, generation));
          case Release(objectId, generation) =>
            var error := HandleCall(session, ReleaseHandle(objectId, generation));
        }
        DrewOneMore(old(taken), old(Callbacks(log)), calls, i, base, before, Callbacks(log), old(Calm()));
      }
      assert calls[..|calls|] == calls;
    }

    /** One command. The payload's plugin is called, and so can call back, only once it is loaded. */
    method Handle(body: MessageBody, work: Work) returns (verdict: Verdict)
      requires Valid() && ParentCommand(body) && !Scan(log).value.Idle?
      modifies this`state, this`plugin, this`session, this`nextCallbackId, this`taken, this`log
      modifies this`loads, this`synced, this`torn, this`whole, reader, writer
      ensures Valid() && Called()
      ensures (state, verdict) == Judge(old(state), body, work.answer)
      ensures !old(state).Loaded? ==> log == old(log)
      ensures Sends(Asks(old(state), body, work)) && Undisturbed()
      ensures Sends(if old(state).Loaded? && (body.Enable? || body.Invoke? || body.Disable? || body.Shutdown?)
                    then work.calls else [])
      ensures old(state).Loaded? && body.Invoke? && work.answer.Done? ==>
                verdict == Accept(ResultReply(work.answer.output))
      ensures old(state).Loaded? && (body.Enable? || body.Disable? || body.Shutdown?) && work.answer.Done? ==>
                verdict == Accept(OkReply)
      ensures old(state).Loaded? && !body.Hello? && !body.Load? && work.answer.Failed? ==>
                verdict == Decline(work.answer.error)
      ensures body.Hello? ==>
                verdict == if old(state).AwaitHello? then Accept(OkReply)
                           else Decline(InvalidState(Lit("hello already completed")))
      ensures body.Load? ==>
                verdict == if !old(state).AwaitLoad? then Decline(InvalidState(Lit("payload load is not available")))
                           else if work.answer.Failed? then Decline(work.answer.error)
                           else Accept(OkReply)
      ensures !old(state).Loaded? && !body.Hello? && !body.Load? ==>
                match old(state)
                case AwaitHello => verdict == Decline(InvalidState(Lit("hello is required")))
                case AwaitLoad => verdict == Decline(InvalidState(Lit("payload is not loaded")))
                case _ => verdict == Decline(HostError.EngineClosed)
      ensures if verdict.Accept? && body.Hello? then state == AwaitLoad
              else if verdict.Accept? && body.Load? then state == Loaded
              else if verdict.Accept? && body.Shutdown? then state == Closed
              else state == old(state)
      ensures |reader.Rest()| <= |old(reader.Rest())|
    {
      hide ValidMessage, FrameOf, AllFrames, Stream, Reads, Writes, Scan, Callbacks, Ids, Requests, Responses;
      hide Increasing, Faithful, Numbered, ValidUtf8, ValidBody, Ascii;
      if body.Hello? {
        if state != AwaitHello {
          return Decline(InvalidState(Lit("hello already completed")));
        }
        state := AwaitLoad;
        return Accept(OkReply);
      }
      if body.Load? {
        if state != AwaitLoad {
          return Decline(InvalidState(Lit("payload load is not available")));
        }
        if work.answer.Failed? {
          return Decline(work.answer.error);
        }
        state, plugin, session := Loaded, body.pluginId, body.session;
        loads := loads + 1;
        return Accept(OkReply);
      }
      if state != Loaded {
        return Decline(Unready(state));
      }
      RunCalls(work.calls);
      if work.answer.Failed? {
        return Decline(work.answer.error);
      }
      if body.Shutdown? {
        state := Closed;
        return Accept(OkReply);
      }
      verdict := Accept(if body.Invoke? then ResultReply(work.answer.output) else OkReply);
    }

    /** The response to a command: only an oversized result cannot be framed. */
    method Respond(requestId: u64, response: MessageBody) returns (r: FrameWritten)
      requires Valid() && Open(Scan(log).value, requestId) && IsId(requestId) && requestId % 2 == 1
      requires IsResponse(response)
      modifies this`log, this`whole, writer
      ensures Valid() && Undisturbed()
      ensures Fault !in old(writer.plan) ==> r != WriteFault && Fault !in writer.plan
      ensures !r.WriteFault? ==> whole == old(whole)
      ensures r.Written? ==> writer.written == old(writer.written) + FrameBytes(Message(requestId, response))
      ensures r.Rejected? ==> writer.written == old(writer.written)
      ensures r.Rejected? <==> response.ResultReply? && |response.output| > Replies.MAX_RESULT
      ensures Requests(log) == old(Requests(log)) && Callbacks(log) == old(Callbacks(log))
      ensures r.Written? ==> log == old(log) + [Response(Message(requestId, response))] && Scan(log) == Some(Idle)
      ensures r.Written? ==> Responses(log) == old(Responses(log)) + [Message(requestId, response)]
      ensures !r.Written? ==> log == old(log)
    {
      hide AllFrames, Stream, Reads, Writes, Scan, Callbacks, Ids, Requests, Responses, Increasing, ValidUtf8;
      hide FrameOf, Blank, Scanned;
      var m := Message(requestId, response);
      match response {
        case ResultReply(output) => Replies.ResultFrames(requestId, output);
        case OkReply => Replies.OkFrames(requestId);
        case _ => Replies.ErrorFrames(requestId, response);
      }
      r := Put(m);
      if r.Written? {
        Record(Response(m));
      }
    }

    /** One message for the loop: an odd one is a command to answer, an even one ends the loop. */
    method Receive() returns (r: FrameResult)
      requires Valid() && Scan(log) == Some(Idle)
      modifies this`log, this`synced, this`torn, reader
      ensures Valid() && Responses(log) == old(Responses(log)) && Callbacks(log) == old(Callbacks(log))
      ensures Undisturbed() && torn == (old(torn) || r.IoError?) && (r.IoError? ==> !old(Calm()))
      ensures Fault !in old(reader.plan) ==> r == Found(old(reader.Rest())) && Fault !in reader.plan
      ensures r.EndOfStream? ==> reader.Rest() == []
      ensures r.InvalidData? ==> !synced
      ensures |reader.Rest()| <= |old(reader.Rest())|
      ensures !r.Received? ==> log == old(log)
      ensures r.Received? ==> IsId(r.message.requestId) && |reader.Rest()| < |old(reader.Rest())|
      ensures r.Received? && r.message.requestId % 2 == 0 ==>
                && log == old(log) + [Refused(r.message)] && Scan(log) == Some(Over)
                && Requests(log) == old(Requests(log))
      ensures r.Received? && r.message.requestId % 2 == 1 ==>
                && log == old(log) + [Request(r.message)] && Scan(log) == Some(Busy(r.message.requestId))
                && Requests(log) == old(Requests(log)) + [r.message]
    {
      hide FrameOf, AllFrames, Stream, Reads, Writes, Scan, Callbacks, Ids, Requests, Responses;
      hide Increasing;
      hide ValidUtf8, ValidBody, Ascii;
      hide Found, FirstFrame, Usable;
      r := Take();
      if r.Received? {
        Record(if r.message.requestId % 2 == 0 then Refused(r.message) else Request(r.message));
      }
    }

    /** Serves one command to its response. */
    method Answer(m: Message, work: Work) returns (written: FrameWritten, response: MessageBody, close: bool)
      requires Valid() && Open(Scan(log).value, m.requestId) && IsId(m.requestId) && m.requestId % 2 == 1
      requires ParentCommand(m.body)
      modifies this`state, this`plugin, this`session, this`nextCallbackId, this`taken, this`log
      modifies this`loads, this`synced, this`torn, this`whole, reader, writer
      ensures Valid() && |reader.Rest()| <= |old(reader.Rest())| && Requests(log) == old(Requests(log))
      ensures Undisturbed() && (old(Calm()) ==> !written.WriteFault?)
      ensures Sends(Asks(old(state), m.body, work))
      ensures state == Judge(old(state), m.body, work.answer).0 && Moves(old(state), state)
      ensures Tells(response, Judge(old(state), m.body, work.answer).1)
      ensures close <==> old(state) == Loaded && state == Closed
      ensures written.Rejected? <==> response.ResultReply? && |response.output| > Replies.MAX_RESULT
      ensures written.Rejected? ==> state == old(state)
      ensures written.Written? ==>
                && |log| > 0 && log[|log| - 1] == Response(Message(m.requestId, response)) && Scan(log) == Some(Idle)
                && Responses(log) == old(Responses(log)) + [Message(m.requestId, response)]
      ensures !written.Written? ==> Open(Scan(log).value, m.requestId) && Responses(log) == old(Responses(log))
    {
      hide ValidMessage, FrameOf, AllFrames, Stream, Reads, Writes, Scan, Callbacks, Ids, Requests, Responses;
      hide Increasing, ValidUtf8, ValidBody, Ascii, Faithful, Numbered;
      CommandsInOrder(state, m.body, work.answer);
      var verdict := Handle(m.body, work);
      match verdict {
        case Accept(body) => response := body;
        case Decline(error) => response := ErrorBody(error);
      }
      written := Respond(m.requestId, response);
      close := m.body.Shutdown? && verdict.Accept?;
    }

    /** What the loop leaves behind: the responses tell, one by one and in order, the verdicts of the lifecycle
        on the commands taken up, the state is the lifecycle's, and each exit says why the loop ended. */
    ghost predicate Ended(exit: Exit, unframed: Option<MessageBody>, works: seq<Work>)
      reads this, reader, writer
    {
      var commands, responses := Requests(log), Responses(log);
      && Valid() && Late(Scan(log).value)
      && state == StateAfter(commands, works) && Scripted(commands, responses, works)
      && |commands| <= |responses| + 1
      && (!exit.StreamFault? ==> (|commands| == |responses| <==> !exit.ChildOnlyBody? && !exit.Unframeable?))
      && (exit.EndOfInput? ==> reader.Rest() == [])
      && ((exit.EndOfInput? || exit.BadInput?) && !torn ==> AllFrames(reader.data).0 <= Reads(log))
      && (exit.EndOfInput? && !torn && AllFrames(reader.data).1 ==> Reads(log) == AllFrames(reader.data).0)
      && (exit.BadInput? && !torn ==> !AllFrames(reader.data).1)
      && (exit.EvenRequest? ==> exists m :: Refused(m) in log && m.requestId % 2 == 0)
      && (exit.ChildOnlyBody? ==> |commands| > 0 && !ParentCommand(commands[|commands| - 1].body))
      && (exit.ShutDown? <==> state == Closed && !exit.StreamFault?)
      && (exit.Unframeable? <==> unframed.Some?)
      && (unframed.Some? ==>
            && unframed.value.ResultReply? && |unframed.value.output| > Replies.MAX_RESULT
            && Tells(unframed.value, VerdictAt(commands, works, |responses|)))
    }

    /** The end of the loop when there is no command to take up. */
    method Stop(next: FrameResult, works: seq<Work>, atClose: seq<PluginCall>) returns (exit: Exit)
      requires Valid() && state != Closed && |Requests(log)| == |Responses(log)|
      requires state == StateAfter(Requests(log), works) && Scripted(Requests(log), Responses(log), works)
      requires if next.Received?
               then Scan(log) == Some(Over) && next.message.requestId % 2 == 0 && Refused(next.message) in log
               else Scan(log) == Some(Idle)
      requires (next.EndOfStream? ==> reader.Rest() == []) && (next.InvalidData? ==> !synced)
      modifies this`nextCallbackId, this`taken, this`log, this`synced, this`torn, this`whole, reader, writer
      ensures Ended(exit, None, works) && Undisturbed() && Requests(log) == old(Requests(log))
      ensures exit == match next
                      case EndOfStream => EndOfInput
                      case InvalidData => BadInput
                      case IoError => StreamFault
                      case Received(_) => EvenRequest
      ensures Sends(if state.Loaded? then atClose else [])
    {
      hide ValidMessage, FrameOf, AllFrames, Stream, Reads, Writes, Scan, Callbacks, Ids, Requests, Responses;
      hide Increasing, ValidUtf8, ValidBody, Ascii, Faithful, Numbered, Found, Valid, Calm, Accounted;
      hide Judge, Tells, VerdictAt, StateAfter, Scripted, Drew;
      if next.Received? {
        DrewNothing(taken, Callbacks(log), Calm());
        if state == Loaded {
          RunCalls(atClose);
        }
        assert Refused(next.message) in log;
        return EvenRequest;
      }
      Finish(atClose);
      if !next.IoError? {
        InputRead(this);
      }
      exit := if next.EndOfStream? then EndOfInput else if next.InvalidData? then BadInput else StreamFault;
    }

    /** The loop over whatever the streams hold and the engine answers; `works` is the engine's part. */
    method Serve(works: seq<Work>, atClose: seq<PluginCall>) returns (exit: Exit, unframed: Option<MessageBody>)
      requires Valid() && state == AwaitHello && log == []
      modifies this`state, this`plugin, this`session, this`nextCallbackId, this`taken, this`log
      modifies this`loads, this`synced, this`torn, this`whole, reader, writer
      ensures Ended(exit, unframed, works) && Undisturbed() && (exit.StreamFault? ==> !old(Calm()))
      ensures Reports(Requests(log), Responses(log), works)
      ensures Sends(AllAsked(Requests(log), works) + if state.Loaded? then atClose else [])
    {
      hide ValidMessage, FrameOf, AllFrames, Stream, Reads, Writes, Scan, Callbacks, Ids, Requests, Responses;
      hide Increasing, ValidUtf8, ValidBody, Ascii, Faithful, Numbered, Found, Valid, Calm, Accounted;
      hide Judge, Tells, VerdictAt, StateAfter, Scripted, AllAsked, Asks, Drew, Reports;
      unframed := None;
      var turn := 0;
      NothingYet(works, taken);
      DrewNothing(taken, Callbacks(log), Calm());
      while true
        invariant Valid() && Scan(log) == Some(Idle) && state != Closed && Undisturbed()
        invariant turn == |Requests(log)| == |Responses(log)| && Scripted(Requests(log), Responses(log), works)
        invariant state == StateAfter(Requests(log), works) && Sends(AllAsked(Requests(log), works))
        decreases |reader.Rest()|
      {
        ghost var commands := Requests(log);
        ghost var asked := AllAsked(commands, works);
        var next := Receive();
        ghost var base, before, calm := taken, Callbacks(log), Calm();
        assert next.Received? ==> log[|log| - 1] in log;
        if !next.Received? || next.message.requestId % 2 == 0 {
          exit := Stop(next, works, atClose);
          ghost var closing := if state.Loaded? then atClose else [];
          DrewBoth(old(taken), old(Callbacks(log)), asked, base, before, closing, taken, Callbacks(log),
                   old(Calm()), calm);
          ScriptedReports(Requests(log), Responses(log), works);
          return exit, None;
        }
        var m := next.message;
        OneMoreCommand(commands, m, Responses(log), works);
        var over;
        ghost var more := Asks(state, m.body, WorkAt(works, turn));
        over, unframed := Turn(m, turn, works, atClose);
        ghost var closing := if over.Some? && state.Loaded? then atClose else [];
        DrewBoth(old(taken), old(Callbacks(log)), asked, base, before, more + closing, taken, Callbacks(log),
                 old(Calm()), calm);
        assert asked + (more + closing) == asked + more + closing && asked + more + [] == asked + more;
        turn := turn + 1;
        if over.Some? {
          ScriptedReports(Requests(log), Responses(log), works);
          return over.value, unframed;
        }
      }
    }

    /** One command from its receipt to its response, or to the end of the loop. */
    method Turn(m: Message, turn: nat, works: seq<Work>, atClose: seq<PluginCall>)
      returns (over: Option<Exit>, unframed: Option<MessageBody>)
      requires Valid() && Scan(log) == Some(Busy(m.requestId)) && IsId(m.requestId) && m.requestId % 2 == 1
      requires state != Closed && Scripted(Requests(log), Responses(log), works)
      requires |Requests(log)| == turn + 1 && |Responses(log)| == turn && Requests(log)[turn] == m
      requires (StateAfter(Requests(log), works), VerdictAt(Requests(log), works, turn)) ==
               Judge(state, m.body, WorkAt(works, turn).answer)
      modifies this`state, this`plugin, this`session, this`nextCallbackId, this`taken, this`log
      modifies this`loads, this`synced, this`torn, this`whole, reader, writer
      ensures Undisturbed() && Requests(log) == old(Requests(log)) && |reader.Rest()| <= |old(reader.Rest())|
      ensures Sends(Asks(old(state), m.body, WorkAt(works, turn)) +
                    if over.Some? && state.Loaded? then atClose else [])
      ensures over.Some? ==> Ended(over.value, unframed, works) && (over.value.StreamFault? ==> !old(Calm()))
      ensures over.None? ==>
                && Valid() && Scan(log) == Some(Idle) && state != Closed && state == StateAfter(Requests(log), works)
                && |Requests(log)| == |Responses(log)| && Scripted(Requests(log), Responses(log), works)
    {
      hide ValidMessage, FrameOf, AllFrames, Stream, Reads, Writes, Scan, Callbacks, Ids, Requests, Responses;
      hide Increasing, ValidUtf8, ValidBody, Ascii, Faithful, Numbered, Found, Valid, Calm, Accounted;
      hide Judge, Tells, VerdictAt, StateAfter, Scripted, AllAsked, Asks, Drew, ParentCommand;
      var work := WorkAt(works, turn);
      ghost var commands, responses := Requests(log), Responses(log);
      JudgeMoves(state, m.body, work);
      ghost var asked := Asks(state, m.body, work);
      if !ParentCommand(m.body) {
        Finish(atClose);
        assert asked == [] && [] + atClose == atClose && asked + [] == [];
        return Some(ChildOnlyBody), None;
      }
      var written, response, close := Answer(m, work);
      ghost var base, before, calm := taken, Callbacks(log), Calm();
      assert asked + [] == asked;
      if !written.Written? {
        Finish(atClose);
        ghost var closing := if state.Loaded? then atClose else [];
        DrewBoth(old(taken), old(Callbacks(log)), asked, base, before, closing, taken, Callbacks(log),
                 old(Calm()), calm);
        if written.Rejected? {
          return Some(Unframeable), Some(response);
        }
        return Some(StreamFault), None;
      }
      OneMoreResponse(commands, responses, Message(m.requestId, response), works);
      if close {
        Finish([]);
        DrewBoth(old(taken), old(Callbacks(log)), asked, base, before, [], taken, Callbacks(log), old(Calm()), calm);
        return Some(ShutDown), None;
      }
      over, unframed := None, None;
    }

    /** The end of the loop, and the engine's close if it is still there. */
    method Finish(atClose: seq<PluginCall>)
      requires Valid() && !Late(Scan(log).value)
      modifies this`nextCallbackId, this`taken, this`log, this`synced, this`torn, this`whole, reader, writer
      ensures Valid() && Late(Scan(log).value) && old(log) <= log && Undisturbed()
      ensures Sends(if state.Loaded? then atClose else [])
      ensures |reader.Rest()| <= |old(reader.Rest())| && (synced ==> old(synced))
      ensures Requests(log) == old(Requests(log)) && Responses(log) == old(Responses(log))
    {
      hide ValidMessage, FrameOf, AllFrames, Stream, Reads, Writes, Scan, Callbacks, Ids, Requests, Responses;
      hide Increasing, ValidUtf8, ValidBody, Ascii;
      DrewNothing(taken, Callbacks(log), Calm());
      Record(End);
      if state == Loaded {
        RunCalls(atClose);
      }
    }
  }

  /** With nothing left to read, or a read that ended off a frame boundary, the log has every whole message of
      the input, and nothing else if the input ends cleanly. */
  lemma InputRead(s: Server)
    requires s.Valid() && (s.reader.Rest() == [] || !s.synced)
    ensures !s.torn ==> AllFrames(s.reader.data).0 <= Reads(s.log)
    ensures !s.torn && AllFrames(s.reader.data).1 ==> s.synced && Reads(s.log) == AllFrames(s.reader.data).0
  {
    FramesUnfold([]);
    assert FirstFrame([]).CleanEnd?;
    assert Reads(s.log) + [] == Reads(s.log);
  }

  /** The parent, reading what was written, gets exactly the logged messages. */
  lemma OutputReadsBack(s: Server)
    requires s.Valid() && s.whole
    ensures AllFrames(s.writer.written) == (Writes(s.log), true)
  {
    StreamReadsBack(Writes(s.log));
  }

  /** The process from its first byte to its last. Whatever the input, and whatever schedule of short reads,
      interrupts and short writes the two streams follow without a fault: the output is exactly the frames of
      the logged callback requests and responses; its odd messages tell, in order, the verdicts of the
      lifecycle on the commands taken up; and a process that stops reading at the end of the input, or at bad
      input, has taken every whole message off it. */
  method RunStdio(reader: Reader, writer: Writer, works: seq<Work>, atClose: seq<PluginCall>)
    returns (s: Server, exit: Exit)
    requires reader.pos == 0 && writer.written == []
    modifies reader, writer
    ensures fresh(s) && s.reader == reader && s.writer == writer && s.Valid()
    ensures Scripted(Requests(s.log), Responses(s.log), works) && |Requests(s.log)| <= |Responses(s.log)| + 1
    ensures Reports(Requests(s.log), Responses(s.log), works)
    ensures var asked := AllAsked(Requests(s.log), works) + if s.state.Loaded? then atClose else [];
            && (|asked| <= TWO_63 ==> Increasing(Ids(Callbacks(s.log))))
            && (Fault !in old(reader.plan) && Fault !in old(writer.plan) ==> Callbacks(s.log) == Sent(0, asked))
    ensures Fault !in old(reader.plan) && Fault !in old(writer.plan) ==>
              && !exit.StreamFault?
              && AllFrames(writer.written) == (Writes(s.log), true)
              && OfParity(AllFrames(writer.written).0, 1) == Responses(s.log)
              && OfParity(AllFrames(writer.written).0, 0) == Callbacks(s.log)
              && (exit.EndOfInput? || exit.BadInput? ==> AllFrames(reader.data).0 <= Reads(s.log))
              && (exit.EndOfInput? && AllFrames(reader.data).1 ==> Reads(s.log) == AllFrames(reader.data).0)
              && (exit.BadInput? ==> !AllFrames(reader.data).1)
  {
    hide AllFrames, Stream, Reads, Writes, Scan, Callbacks, Requests, Responses, Increasing, Scripted;
    hide Accounted, IsFrameable, IdAt, OfParity, Reports, AllAsked, Sent;
    s := new Server(reader, writer);
    var unframed;
    exit, unframed := s.Serve(works, atClose);
    WritesByParity(s.log);
    NothingYet(works, 0);
    if s.whole {
      OutputReadsBack(s);
    }
  }

  lemma AppendIncreases(ids: seq<u64>, id: u64)
    requires Increasing(ids) && forall x :: x in ids ==> x < id
    ensures Increasing(ids + [id])
  {
    forall i, j | 0 <= i < j < |ids| + 1 ensures (ids + [id])[i] < (ids + [id])[j] {
      assert ids[i] in ids;
    }
  }

  lemma FrameableIsValid(m: Message)
    ensures IsFrameable(m) <==> ValidMessage(m) && FrameOf(m).Some?
    ensures ValidMessage(m) ==> IsId(m.requestId)
  {
    hide ValidBody, FrameOf;
  }

  lemma {:induction false} StreamAppends(ms: seq<Message>, m: Message)
    ensures Stream(ms + [m]) == Stream(ms) + FrameBytes(m)
  {
    hide FrameBytes;
    if ms == [] {
      assert ms + [m] == [m];
      assert [m][1..] == [];
    } else {
      assert (ms + [m])[1..] == ms[1..] + [m];
      StreamAppends(ms[1..], m);
    }
  }
}
