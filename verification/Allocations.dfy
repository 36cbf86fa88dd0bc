/** The embedded host's allocation table as an ownership ledger, and one whole embedded invocation over it. */
module Allocations {
  import opened Bytes
  import opened Options
  import opened BridgeValue
  import opened WireParser

  type Address = nat  // zero is the null pointer

  /** The descriptor that carries ownership of an allocation. */
  datatype Owned = Owned(data: Address, len: nat, capacity: nat) {
    predicate ValidLayout() {
      if capacity == 0 then data == 0 && len == 0 else data != 0 && len <= capacity
    }

    predicate SatisfiesRequest(requested: nat) {
      ValidLayout() && len == 0 && capacity >= requested
    }
  }

  const EMPTY := Owned(0, 0, 0)

  /** Boxed slices by address: never null, never empty. */
  type Table = map<Address, seq<byte>>

  predicate WellFormedTable(t: Table) { forall p :: p in t ==> p != 0 && t[p] != [] }

  // ---------------------------------------------------------------- the ledger

  datatype Event = Issued(token: Address) | Consumed(token: Address)

  /** Replays events over the live tokens: issuing a live token or consuming a dead one is not possible. */
  function Replay(live: set<Address>, log: seq<Event>): Option<set<Address>>
    decreases |log|
  {
    if log == [] then Some(live)
    else
      match log[0]
      case Issued(p) => if p in live then None else Replay(live + {p}, log[1..])
      case Consumed(p) => if p in live then Replay(live - {p}, log[1..]) else None
  }

  function Count(log: seq<Event>, event: Event): nat {
    if log == [] then 0 else (if log[0] == event then 1 else 0) + Count(log[1..], event)
  }

  lemma {:induction false} ReplaySplits(live: set<Address>, a: seq<Event>, b: seq<Event>)
    requires Replay(live, a).Some?
    ensures Replay(live, a + b) == Replay(Replay(live, a).value, b)
    decreases |a|
  {
    if a == [] {
      assert a + b == b;
    } else {
      assert (a + b)[1..] == a[1..] + b;
      match a[0]
      case Issued(p) => ReplaySplits(live + {p}, a[1..], b);
      case Consumed(p) => ReplaySplits(live - {p}, a[1..], b);
    }
  }

  /** In a ledger that replays, the difference of issues and consumptions of a token is whether it is live
      now less whether it was before: one that ends where it began consumes each token once per issue. */
  lemma {:induction false} LedgerBalances(live: set<Address>, log: seq<Event>, p: Address)
    requires Replay(live, log).Some?
    ensures Count(log, Issued(p)) + (if p in live then 1 else 0) ==
            Count(log, Consumed(p)) + (if p in Replay(live, log).value then 1 else 0)
    decreases |log|
  {
    if log != [] {
      match log[0]
      case Issued(q) => LedgerBalances(live + {q}, log[1..], p);
      case Consumed(q) => LedgerBalances(live - {q}, log[1..], p);
    }
  }

  // ---------------------------------------------------------------- the host side

  class HostCallbacks {
    var allocations: Table
    ghost var log: seq<Event>
    ghost var releases: seq<Owned>  // descriptors passed to the release callback

    constructor ()
      ensures Valid() && allocations == map[] && log == [] && releases == []
    {
      allocations, log, releases := map[], [], [];
      new;
      assert allocations.Keys == {};
    }

    ghost predicate Valid()
      reads this
    {
      WellFormedTable(allocations) && Replay({}, log) == Some(allocations.Keys)
    }

    /** Some address the allocator does not have out. */
    static method NewAddress(taken: set<Address>) returns (p: Address)
      ensures p != 0 && p !in taken
    {
      p := 1;
      var seen: set<Address> := {};
      while p in taken
        invariant p != 0 && seen <= taken && (forall q :: q in seen ==> q < p)
        decreases taken - seen
      {
        seen := seen + {p};
        p := p + 1;
      }
    }

    method Allocate(length: nat, initialized: Option<seq<byte>>) returns (r: Option<Owned>)
      requires Valid()
      modifies this
      ensures releases == old(releases)
      ensures Valid()
      ensures r.None? <==> length > 0 && initialized.Some? && |initialized.value| != length
      ensures r.None? || length == 0 ==> allocations == old(allocations) && log == old(log)
      ensures r.Some? && length == 0 ==> r.value == EMPTY
      ensures r.Some? && length > 0 ==>
                && r.value.ValidLayout() && r.value.capacity == length
                && r.value.len == (if initialized.Some? then length else 0)
                && r.value.data !in old(allocations) && r.value.data in allocations
                && |allocations[r.value.data]| == length
                && allocations == old(allocations)[r.value.data := allocations[r.value.data]]
                && (initialized.Some? ==> allocations[r.value.data] == initialized.value)
                && log == old(log) + [Issued(r.value.data)]
    {
      if length == 0 {
        return Some(EMPTY);
      }
      var allocation := seq(length, i => 0 as byte);
      if initialized.Some? {
        if |initialized.value| != length {
          return None;
        }
        allocation := initialized.value;
      }
      var pointer := NewAddress(allocations.Keys);
      ReplaySplits({}, log, [Issued(pointer)]);
      assert Replay(allocations.Keys, [Issued(pointer)]) == Some(allocations.Keys + {pointer}) by {
        assert [Issued(pointer)][1..] == [];
      }
      assert allocations[pointer := allocation].Keys == allocations.Keys + {pointer};
      allocations := allocations[pointer := allocation];
      log := log + [Issued(pointer)];
      r := Some(Owned(pointer, if initialized.Some? then length else 0, length));
    }

    /** Takes a token off the table; a descriptor that does not match what it names is refused, but the
        allocation is gone all the same. */
    method Remove(b: Owned) returns (r: Option<seq<byte>>)
      requires Valid() && b.capacity != 0
      modifies this
      ensures releases == old(releases)
      ensures Valid()
      ensures allocations == old(allocations) - {b.data}
      ensures log == old(log) + if b.data in old(allocations) then [Consumed(b.data)] else []
      ensures r == if b.data in old(allocations) && |old(allocations)[b.data]| == b.capacity && b.len <= b.capacity
                   then Some(old(allocations)[b.data]) else None
    {
      if b.data !in allocations {
        assert allocations - {b.data} == allocations;
        return None;
      }
      var allocation := allocations[b.data];
      ReplaySplits({}, log, [Consumed(b.data)]);
      assert Replay(allocations.Keys, [Consumed(b.data)]) == Some(allocations.Keys - {b.data}) by {
        assert [Consumed(b.data)][1..] == [];
      }
      assert (allocations - {b.data}).Keys == allocations.Keys - {b.data};
      allocations := allocations - {b.data};
      log := log + [Consumed(b.data)];
      if |allocation| != b.capacity || b.len > b.capacity {
        return None;
      }
      r := Some(allocation);
    }

    /** What the release callback does with a descriptor, well formed or not. */
    twostate predicate Released(b: Owned, ok: bool)
      reads this
    {
      && releases == old(releases) + [b]
      && (if b.capacity == 0 then allocations == old(allocations) && log == old(log) && ok == (b == EMPTY)
          else
            && allocations == old(allocations) - {b.data}
            && log == old(log) + (if b.data in old(allocations) then [Consumed(b.data)] else [])
            && ok == (b.data in old(allocations) && |old(allocations)[b.data]| == b.capacity && b.len <= b.capacity))
    }

    method Release(b: Owned) returns (ok: bool)
      requires Valid()
      modifies this
      ensures Valid() && Released(b, ok)
    {
      releases := releases + [b];
      if b.capacity == 0 {
        return b.data == 0 && b.len == 0;
      }
      var allocation := Remove(b);
      ok := allocation.Some?;
    }

    /** The bytes a plugin returned, the token consumed. */
    method TakeOutput(b: Owned) returns (r: Option<seq<byte>>)
      requires Valid()
      modifies this
      ensures releases == old(releases)
      ensures Valid()
      ensures b.capacity == 0 ==>
                allocations == old(allocations) && log == old(log) && r == (if b == EMPTY then Some([]) else None)
      ensures b.capacity != 0 ==> allocations == old(allocations) - {b.data}
      ensures b.capacity != 0 && b.data in old(allocations) ==> log == old(log) + [Consumed(b.data)]
      ensures b.capacity != 0 && b.data !in old(allocations) ==> log == old(log) && r == None
      ensures b.capacity != 0 && b.data in old(allocations) ==>
                r == if |old(allocations)[b.data]| == b.capacity && b.len <= b.capacity
                     then Some(old(allocations)[b.data][..b.len]) else None
    {
      if b.capacity == 0 {
        return if b.data == 0 && b.len == 0 then Some([]) else None;
      }
      var allocation := Remove(b);
      r := if allocation.None? then None else Some(allocation.value[..b.len]);
    }

    /** The plugin writes through the pointer it was given. */
    method Write(b: Owned, bytes: seq<byte>)
      requires Valid() && b.data in allocations && 0 < |bytes| <= |allocations[b.data]|
      modifies this
      ensures releases == old(releases)
      ensures Valid() && log == old(log)
      ensures allocations == old(allocations)[b.data := bytes + old(allocations)[b.data][|bytes|..]]
    {
      assert allocations[b.data := bytes + allocations[b.data][|bytes|..]].Keys == allocations.Keys;
      allocations := allocations[b.data := bytes + allocations[b.data][|bytes|..]];
    }
  }

  // ---------------------------------------------------------------- the SDK side

  /** Unique ownership of one host buffer: whoever takes it out of `buffer` is the one that disposes of it. */
  class HostBuffer {
    const host: HostCallbacks
    var buffer: Option<Owned>

    constructor (host: HostCallbacks, buffer: Owned)
      ensures this.host == host && this.buffer == Some(buffer)
    {
      this.host, this.buffer := host, Some(buffer);
    }

    method Release() returns (ok: bool)
      requires buffer.Some? && host.Valid()
      modifies this, host
      ensures host.Valid() && buffer == None && host.Released(old(buffer).value, ok)
    {
      var b := buffer.value;
      buffer := None;
      ok := host.Release(b);
    }

    /** The drop: nothing if the buffer has been taken, its one release otherwise. */
    method Drop() returns (failed: bool)
      requires host.Valid()
      modifies this, host
      ensures host.Valid() && buffer == None
      ensures old(buffer).Some? ==> host.Released(old(buffer).value, !failed)
      ensures old(buffer).None? ==>
                !failed && host.allocations == old(host.allocations) && host.log == old(host.log)
                && host.releases == old(host.releases)
    {
      if buffer.None? {
        return false;
      }
      var ok := Release();
      failed := !ok;
    }

    method IntoBuffer() returns (b: Owned)
      requires buffer.Some?
      modifies this
      ensures buffer == None && old(buffer) == Some(b)
    {
      b := buffer.value;
      buffer := None;
    }
  }

  class PluginContext {
    const host: HostCallbacks
    const active: bool  // whether leases on the host are still granted
    var cleanupFailures: nat

    constructor (host: HostCallbacks, active: bool)
      ensures this.host == host && this.active == active && cleanupFailures == 0
    {
      this.host, this.active, cleanupFailures := host, active, 0;
    }

    /** What becomes of a buffer the host returned, malformed or not: its token is released exactly once, by
        the explicit release, whose failure is the caller's, or by the drop, whose failure is counted. */
    method Receive(output: Owned) returns (r: Result<seq<byte>>)
      requires host.Valid()
      requires output.ValidLayout() && output.len > 0 ==>
                 output.data in host.allocations && output.len <= |host.allocations[output.data]|
      modifies this, host
      ensures host.Valid() && (host.Released(output, true) || host.Released(output, false))
      ensures !output.ValidLayout() ==>
                && r == Err(InvalidResult)
                && host.Released(output, cleanupFailures == old(cleanupFailures))
                && cleanupFailures <= old(cleanupFailures) + 1
      ensures output.ValidLayout() ==> cleanupFailures == old(cleanupFailures) && host.Released(output, r.Ok?)
      ensures output.ValidLayout() && r.Err? ==> r.error == InvalidArgument
      ensures r.Ok? ==> r.value == if output.len == 0 then [] else old(host.allocations)[output.data][..output.len]
    {
      var owned := new HostBuffer(host, output);
      if !output.ValidLayout() {
        var failed := owned.Drop();
        cleanupFailures := cleanupFailures + if failed then 1 else 0;
        return Err(InvalidResult);
      }
      var bytes := if output.len == 0 then [] else host.allocations[output.data][..output.len];
      var ok := owned.Release();
      r := if ok then Ok(bytes) else Err(InvalidArgument);
    }

    /** A synchronous host operation; `bridge` is what the launcher answers, if it does not fail. */
    method Invoke(input: Value, bridge: Option<seq<byte>>) returns (r: Result<Value>)
      requires host.Valid()
      modifies this, host
      ensures host.Valid() && host.allocations == old(host.allocations) && cleanupFailures == old(cleanupFailures)
      ensures Contained(old(host.allocations.Keys), old(host.log), host.log)
      ensures r == if !active then Err(Unavailable)
                   else if !Encodable(input) then Err(InvalidArgument)
                   else if bridge.None? then Err(Unavailable)
                   else FromWire(bridge.value)
    {
      ContainedSame(host.allocations.Keys, host.log);
      if !active {
        return Err(Unavailable);
      }
      var wire := ToWire(input);
      if wire.Err? {
        return Err(wire.error);
      }
      if bridge.None? {
        return Err(Unavailable);
      }
      var output := host.Allocate(|bridge.value|, bridge);
      if output.value != EMPTY {
        assert host.allocations[output.value.data][..output.value.len] == bridge.value;
        IssuedThenConsumed(old(host.allocations.Keys), old(host.log), output.value.data);
      }
      var bytes := Receive(output.value);
      r := FromWire(bytes.value);
    }

    /** Copies bytes, if there are any, into a buffer the host allocated for them; a buffer that does not
        satisfy the request is dropped, and so released exactly once. */
    method Fill(output: Owned, bytes: seq<byte>) returns (r: Result<Owned>)
      requires host.Valid()
      requires bytes != [] && output.SatisfiesRequest(|bytes|) ==>
                 output.data in host.allocations && |host.allocations[output.data]| == output.capacity
      modifies this, host
      ensures host.Valid()
      ensures r.Ok? <==> output.SatisfiesRequest(|bytes|)
      ensures r.Err? ==> r.error == InvalidResult && host.Released(output, cleanupFailures == old(cleanupFailures))
      ensures old(cleanupFailures) <= cleanupFailures <= old(cleanupFailures) + 1
      ensures r.Ok? ==>
                && r.value == output.(len := |bytes|) && cleanupFailures == old(cleanupFailures)
                && host.log == old(host.log) && host.releases == old(host.releases)
                && host.allocations ==
                   if bytes == [] then old(host.allocations) else
                     old(host.allocations)[output.data := bytes + old(host.allocations)[output.data][|bytes|..]]
    {
      var owned := new HostBuffer(host, output);
      if !output.SatisfiesRequest(|bytes|) {
        var failed := owned.Drop();
        cleanupFailures := cleanupFailures + if failed then 1 else 0;
        return Err(InvalidResult);
      }
      if bytes != [] {
        host.Write(output, bytes);
      }
      owned.buffer := Some(output.(len := |bytes|));
      var token := owned.IntoBuffer();
      r := Ok(token);
    }

    /** Copies bytes into a fresh host allocation and gives the token to the caller; no bytes need no token. */
    method AllocateWire(bytes: seq<byte>) returns (r: Result<Owned>)
      requires host.Valid()
      modifies this, host
      ensures host.Valid() && cleanupFailures == old(cleanupFailures)
      ensures r.Ok? <==> active
      ensures r.Err? ==> r.error == Unavailable
      ensures r.Ok? && bytes == [] ==> r.value == EMPTY
      ensures r.Err? || bytes == [] ==> host.allocations == old(host.allocations) && host.log == old(host.log)
      ensures r.Ok? && bytes != [] ==>
                && r.value.data !in old(host.allocations) && r.value.len == r.value.capacity == |bytes|
                && host.allocations == old(host.allocations)[r.value.data := bytes]
                && host.log == old(host.log) + [Issued(r.value.data)]
    {
      if !active {
        return Err(Unavailable);
      }
      var output := host.Allocate(|bytes|, None);
      if bytes != [] {
        assert bytes + host.allocations[output.value.data][|bytes|..] == bytes;
      }
      r := Fill(output.value, bytes);
    }
  }

  /** The log grew by events that leave the live tokens as they were. */
  ghost predicate Contained(live: set<Address>, before: seq<Event>, after: seq<Event>) {
    && |before| <= |after| && after[..|before|] == before
    && Replay(live, after[|before|..]) == Some(live)
  }

  lemma IssuedThenConsumed(live: set<Address>, log: seq<Event>, p: Address)
    requires p !in live
    ensures Contained(live, log, log + [Issued(p)] + [Consumed(p)])
  {
    var tail := [Issued(p), Consumed(p)];
    assert log + [Issued(p)] + [Consumed(p)] == log + tail;
    assert (log + tail)[|log|..] == tail;
    assert tail[1..] == [Consumed(p)] && [Consumed(p)][1..] == [];
    assert Replay(live + {p}, [Consumed(p)]) == Some(live + {p} - {p});
    assert live + {p} - {p} == live;
  }

  lemma ContainedSame(live: set<Address>, log: seq<Event>)
    ensures Contained(live, log, log)
  {
    assert log[|log|..] == [];
  }

  lemma ContainedChains(live: set<Address>, a: seq<Event>, b: seq<Event>, c: seq<Event>)
    requires Contained(live, a, b) && Contained(live, b, c)
    ensures Contained(live, a, c)
  {
    assert c[|a|..] == b[|a|..] + c[|b|..];
    assert c[..|a|] == b[..|a|];
    ReplaySplits(live, b[|a|..], c[|b|..]);
  }

  // ---------------------------------------------------------------- one invocation, end to end

  /** A host operation the plugin performs while it runs, and the launcher's answer. */
  datatype Nested = Nested(input: Value, bridge: Option<seq<byte>>)

  /** How the plugin's own invoke ends. */
  datatype Finish = Returns(value: Value) | Fails | Panics

  datatype Status = Success | BadArgument | HostError | PluginError

  class Invocation {
    /** The SDK's side: decode, admit, run the plugin, encode, hand over the result's token. A panic leaves
        through the same drops. */
    static method InvokeInner(
      context: PluginContext, operationIsText: bool, input: seq<byte>, admitted: bool,
      calls: seq<Nested>, finish: Finish)
      returns (status: Status, output: Owned)
      requires context.host.Valid()
      modifies context, context.host
      ensures context.host.Valid() && context.cleanupFailures == old(context.cleanupFailures)
      ensures status.Success? <==> operationIsText && FromWire(input).Ok? && admitted && finish.Returns? &&
                                   Encodable(finish.value) && context.active
      ensures status.BadArgument? <==> !operationIsText || FromWire(input).Err?
      ensures status.HostError? <==>
                && operationIsText && FromWire(input).Ok? && admitted && finish.Returns? && Encodable(finish.value)
                && !context.active
      ensures !status.Success? ==>
                && output == EMPTY && context.host.allocations == old(context.host.allocations)
                && Contained(old(context.host.allocations.Keys), old(context.host.log), context.host.log)
      ensures status.Success? ==>
                && output.data !in old(context.host.allocations) && output.len == output.capacity == |Enc(finish.value)|
                && context.host.allocations == old(context.host.allocations)[output.data := Enc(finish.value)]
                && |context.host.log| > 0 && context.host.log[|context.host.log| - 1] == Issued(output.data)
                && Contained(old(context.host.allocations.Keys), old(context.host.log),
                             context.host.log[..|context.host.log| - 1])
    {
      output := EMPTY;
      ghost var live := context.host.allocations.Keys;
      ghost var before := context.host.log;
      ContainedSame(live, before);
      if !operationIsText || FromWire(input).Err? {
        return BadArgument, EMPTY;
      }
      if !admitted {
        return PluginError, EMPTY;
      }
      for i := 0 to |calls|
        invariant context.host.Valid() && context.host.allocations == old(context.host.allocations)
        invariant context.cleanupFailures == old(context.cleanupFailures)
        invariant Contained(live, before, context.host.log)
      {
        ghost var middle := context.host.log;
        var answer := context.Invoke(calls[i].input, calls[i].bridge);
        ContainedChains(live, before, middle, context.host.log);
      }
      if !finish.Returns? {
        return PluginError, EMPTY;
      }
      var wire := ToWire(finish.value);
      if wire.Err? {
        return PluginError, EMPTY;
      }
      EncodingSize(finish.value);
      ghost var called := context.host.log;
      var token := context.AllocateWire(wire.value);
      if token.Err? {
        return HostError, EMPTY;
      }
      assert context.host.log[..|context.host.log| - 1] == called;
      return Success, token.value;
    }

    /** The engine's side: whatever happens inside, the allocation table ends as it began and every token
        issued on the way is consumed exactly once; a success delivers the bytes of the plugin's value. */
    static method Invoke(
      context: PluginContext, enabled: bool, operationIsText: bool, input: seq<byte>, admitted: bool,
      calls: seq<Nested>, finish: Finish)
      returns (r: Option<seq<byte>>)
      requires context.host.Valid()
      modifies context, context.host
      ensures context.host.Valid() && context.host.allocations == old(context.host.allocations)
      ensures Contained(old(context.host.allocations.Keys), old(context.host.log), context.host.log)
      ensures context.cleanupFailures == old(context.cleanupFailures)
      ensures r.Some? <==> enabled && operationIsText && FromWire(input).Ok? && admitted && finish.Returns? &&
                           Encodable(finish.value) && context.active
      ensures r.Some? ==> FromWire(r.value) == Ok(finish.value) && ToWire(finish.value) == Ok(r.value)
    {
      hide FromWire, Enc, Encodable;
      ghost var live := context.host.allocations.Keys;
      ghost var before := context.host.log;
      if !enabled {
        ContainedSame(live, before);
        return None;
      }
      var status, output := InvokeInner(context, operationIsText, input, admitted, calls, finish);
      if !status.Success? {
        return None;
      }
      ghost var inner := context.host.log[..|context.host.log| - 1];
      assert context.host.log == inner + [Issued(output.data)];
      EncodeThenDecode(finish.value);
      assert Enc(finish.value)[..output.len] == Enc(finish.value);
      r := context.host.TakeOutput(output);
      IssuedThenConsumed(live, inner, output.data);
      ContainedChains(live, before, inner, context.host.log);
    }
  }

  /** What `Contained` means for each token: over the invocation it was consumed as often as it was issued. */
  lemma EachTokenConsumedOnce(live: set<Address>, before: seq<Event>, after: seq<Event>, p: Address)
    requires Contained(live, before, after)
    ensures Count(after[|before|..], Issued(p)) == Count(after[|before|..], Consumed(p))
  {
    LedgerBalances(live, after[|before|..], p);
  }
}
