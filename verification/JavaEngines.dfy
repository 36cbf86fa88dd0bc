/** The Java side's two handle tables: native payloads and sessions below, public identifiers above. */
module JavaEngines {
  import opened Bytes
  import opened Options
  import opened Decimals
  import opened Sequences

  type Id = seq<byte>  // an identifier as a string

  datatype Mode = Embedded | Isolated | Other

  /** A payload context; `serial` stands for its object identity. */
  datatype Context = Context(serial: nat, mode: Mode)

  /** What a call into native code, or into another process, comes back with. */
  datatype Native<+T> = Return(value: T) | Throw

  /** Printed from a positive signed 64-bit number. */
  predicate PositiveId(id: Id) {
    && ParseUnsigned(id).Some? && 0 < ParseUnsigned(id).value <= I64_MAX
    && Digits(ParseUnsigned(id).value) == id
  }

  /** The identifier a native payload number is printed as. */
  function Printed(n: i64): Id { if n > 0 then Digits(n) else [] }

  lemma PrintedIdsArePositive(n: i64)
    requires n > 0
    ensures PositiveId(Printed(n)) && ParseUnsigned(Printed(n)) == Some(n)
  {
    DigitsParse(n);
  }

  // ---------------------------------------------------------------- the native tables

  datatype Tables = Tables(contexts: map<Id, Context>, sessions: map<i64, Context>, links: map<Id, i64>)

  const NO_TABLES := Tables(map[], map[], map[])

  function Enter(t: Tables, p: Id, n: i64, c: Context): Tables {
    Tables(t.contexts[p := c], t.sessions[n := c], t.links[p := n])
  }

  function Leave(t: Tables, p: Id): Tables {
    if p in t.links then Tables(t.contexts - {p}, t.sessions - {t.links[p]}, t.links - {p}) else t
  }

  /** Payload contexts and payload sessions have equal keys, payload to session is one-to-one onto the live
      sessions, and both routes lead to the same context. */
  ghost predicate Linked(t: Tables) {
    && t.contexts.Keys == t.links.Keys
    && (forall p :: p in t.links ==> t.links[p] in t.sessions && t.sessions[t.links[p]] == t.contexts[p])
    && (forall p, q :: p in t.links && q in t.links && t.links[p] == t.links[q] ==> p == q)
    && (forall n :: n in t.sessions ==> exists p :: p in t.links && t.links[p] == n)
  }

  lemma EnterKeepsLinks(t: Tables, p: Id, n: i64, c: Context)
    requires Linked(t) && p !in t.contexts && n !in t.sessions
    ensures Linked(Enter(t, p, n, c))
  {
    var u := Enter(t, p, n, c);
    assert u.links[p] == n;
    forall m | m in u.sessions ensures exists q :: q in u.links && u.links[q] == m {
      if m != n {
        var q :| q in t.links && t.links[q] == m;
        assert u.links[q] == m;
      }
    }
  }

  lemma LeaveKeepsLinks(t: Tables, p: Id)
    requires Linked(t)
    ensures Linked(Leave(t, p))
  {
    if p !in t.links {
      return;
    }
    var u := Leave(t, p);
    forall m | m in u.sessions ensures exists q :: q in u.links && u.links[q] == m {
      var q :| q in t.links && t.links[q] == m;
      assert q != p && u.links[q] == m;
    }
  }

  /** Sessions are numbered below the next one; payloads are embedded and carry printed positive numbers. */
  ghost predicate Numbered(t: Tables, sessions: set<i64>, next: i64) {
    && 0 < next && (forall n :: n in sessions ==> 0 < n < next) && t.sessions.Keys <= sessions
    && (forall p :: p in t.contexts ==> PositiveId(p) && t.contexts[p].mode.Embedded?)
  }

  lemma NumbersStart(t: Tables, sessions: set<i64>, next: i64)
    requires Numbered(t, sessions, next)
    ensures 0 < next
  {
  }

  lemma NumbersGrow(t: Tables, sessions: set<i64>, next: i64)
    requires Numbered(t, sessions, next) && next < I64_MAX
    ensures Numbered(t, sessions + {next}, next + 1) && next !in t.sessions && next !in sessions
    ensures forall p, c: Context :: PositiveId(p) && c.mode.Embedded? ==>
              Numbered(Enter(t, p, next, c), sessions + {next}, next + 1)
  {
    hide PositiveId;
  }

  class RustNativeEngine {
    var handle: i64
    var closed: bool
    var payloadContexts: map<Id, Context>
    var sessionContexts: map<i64, Context>
    var payloadSessions: map<Id, i64>
    var nextSession: i64
    ghost var sessions: set<i64>  // every session number ever given to native code

    constructor ()
      ensures Valid() && !closed && handle == 0 && Maps() == NO_TABLES && sessions == {}
    {
      handle, closed, nextSession := 0, false, 1;
      payloadContexts, sessionContexts, payloadSessions, sessions := map[], map[], map[], {};
    }

    function Maps(): Tables
      reads this
    {
      Tables(payloadContexts, sessionContexts, payloadSessions)
    }

    ghost predicate Valid()
      reads this
    {
      Linked(Maps()) && Numbered(Maps(), sessions, nextSession) && (!closed && handle == 0 ==> Maps() == NO_TABLES)
    }

    method Initialize(create: Native<i64>) returns (ok: bool)
      requires Valid()
      modifies this`handle
      ensures Valid()
      ensures ok <==> !closed && (old(handle) != 0 || (create.Return? && create.value != 0))
      ensures ok ==> handle == (if old(handle) != 0 then old(handle) else create.value) && handle != 0
      ensures !ok ==> handle == old(handle)
    {
      hide Linked, Numbered;
      if closed {
        return false;
      }
      if handle != 0 {
        return true;
      }
      if create.Throw? || create.value == 0 {
        return false;
      }
      handle := create.value;
      ok := true;
    }

    /** `native` is what loading the payload comes back with: anything at all. Once the session number has
        been given to native code it is spent, whatever comes back. */
    method LoadPayload(context: Context, native: Native<i64>) returns (id: Option<Id>)
      requires Valid()
      modifies this
      ensures Valid() && handle == old(handle) && closed == old(closed)
      ensures id.Some? ==> 0 < old(nextSession)
      ensures id.Some? <==>
                && !closed && handle != 0 && context.mode.Embedded? && old(nextSession) < I64_MAX
                && native.Return? && native.value > 0 && Printed(native.value) !in old(payloadContexts)
      ensures id.Some? ==>
                && id.value == Printed(native.value) && old(nextSession) !in old(sessions)
                && Maps() == Enter(old(Maps()), id.value, old(nextSession), context)
                && payloadContexts == old(payloadContexts)[id.value := context]
                && sessionContexts == old(sessionContexts)[old(nextSession) := context]
                && payloadSessions == old(payloadSessions)[id.value := old(nextSession)]
      ensures id.None? ==> Maps() == old(Maps())
      ensures if !closed && handle != 0 && context.mode.Embedded? && old(nextSession) < I64_MAX
              then old(nextSession) !in old(sessions) && sessions == old(sessions) + {old(nextSession)} &&
                   nextSession == old(nextSession) + 1
              else sessions == old(sessions) && nextSession == old(nextSession)
    {
      hide Linked, PositiveId, Printed, Numbered;
      if closed || handle == 0 || !context.mode.Embedded? {
        return None;
      }
      NumbersStart(Maps(), sessions, nextSession);
      var session := nextSession;
      if session <= 0 || session == I64_MAX {
        return None;
      }
      NumbersGrow(Maps(), sessions, session);
      nextSession := nextSession + 1;
      sessions := sessions + {session};
      sessionContexts := sessionContexts[session := context];
      assert sessionContexts - {session} == old(sessionContexts);
      if native.Throw? || native.value <= 0 {
        sessionContexts := sessionContexts - {session};
        return None;
      }
      var payloadId := Printed(native.value);
      if payloadId in payloadContexts {
        sessionContexts := sessionContexts - {session};
        return None;
      }
      PrintedIdsArePositive(native.value);
      EnterKeepsLinks(old(Maps()), payloadId, session, context);
      payloadContexts := payloadContexts[payloadId := context];
      payloadSessions := payloadSessions[payloadId := session];
      id := Some(payloadId);
    }

    /** The native number of a live payload: exactly the one its identifier was printed from. */
    method RequirePayload(id: Id) returns (native: Option<i64>)
      requires Valid()
      ensures native.Some? <==> !closed && handle != 0 && id in payloadContexts
      ensures native.Some? ==> native.value > 0 && Printed(native.value) == id
    {
      hide Linked, Digits, ValueOf;
      if closed || handle == 0 || id !in payloadContexts {
        return None;
      }
      native := Positive(ParseUnsigned(id));
    }

    method UnloadPayload(id: Id, native: Native<()>) returns (ok: bool)
      requires Valid()
      modifies this
      ensures Valid() && handle == old(handle) && closed == old(closed) && sessions == old(sessions)
      ensures nextSession == old(nextSession)
      ensures ok <==> !closed && handle != 0 && id in old(payloadContexts) && native.Return?
      ensures Maps() == if ok then Leave(old(Maps()), id) else old(Maps())
      ensures ok ==>
                && payloadContexts == old(payloadContexts) - {id} && payloadSessions == old(payloadSessions) - {id}
                && id in old(payloadSessions)
                && sessionContexts == old(sessionContexts) - {old(payloadSessions)[id]}
    {
      hide Linked, PositiveId, Digits;
      var number := RequirePayload(id);
      if number.None? || native.Throw? {
        return false;
      }
      LeaveKeepsLinks(Maps(), id);
      LinkedKeys(Maps());
      var session := payloadSessions[id];
      payloadContexts := payloadContexts - {id};
      payloadSessions := payloadSessions - {id};
      sessionContexts := sessionContexts - {session};
      ok := true;
    }

    /** Every table is emptied, unless destroying the native engine throws: then all of them stay as they
        were although the engine is closed. */
    method Close(destroy: Native<()>) returns (ok: bool)
      requires Valid()
      modifies this
      ensures Valid() && closed
      ensures ok <==> old(closed) || old(handle) == 0 || destroy.Return?
      ensures !old(closed) ==> handle == 0
      ensures Maps() == if !old(closed) && ok then NO_TABLES else old(Maps())
    {
      if closed {
        return true;
      }
      closed := true;
      var closing := handle;
      handle := 0;
      if closing != 0 && destroy.Throw? {
        return false;
      }
      payloadContexts, payloadSessions, sessionContexts := map[], map[], map[];
      ok := true;
    }

    /** The context behind a session number that native code presents. */
    method RequireSession(session: i64) returns (context: Option<Context>)
      requires Valid()
      ensures context.Some? <==> session in sessionContexts
      ensures context.Some? ==>
                exists p :: p in payloadContexts && p in payloadSessions
                  && payloadSessions[p] == session && payloadContexts[p] == context.value
    {
      hide Numbered;
      context := if session in sessionContexts then Some(sessionContexts[session]) else None;
    }
  }

  function Positive(n: Option<u64>): Option<i64> {
    if n.Some? && 0 < n.value <= I64_MAX then Some(n.value) else None
  }

  lemma LinkedKeys(t: Tables)
    requires Linked(t)
    ensures t.contexts.Keys == t.links.Keys
  {
  }

  // ---------------------------------------------------------------- the public table

  datatype Backend = Inner(nativeId: Id) | Process(serial: nat)

  predicate Distinct(order: seq<Id>) { forall i, j :: 0 <= i < j < |order| ==> order[i] != order[j] }

  lemma {:induction false} WithoutKeepsDistinct(order: seq<Id>, id: Id)
    requires Distinct(order)
    ensures Distinct(Without(order, id))
  {
    if order != [] {
      WithoutKeepsDistinct(order[1..], id);
      WithoutMembers(order[1..], id);
      var kept, rest := Without(order, id), Without(order[1..], id);
      if order[0] != id {
        forall i, j | 0 <= i < j < |kept| ensures kept[i] != kept[j] {
          assert kept[j] == rest[j - 1] && rest[j - 1] in rest;
          if i > 0 {
            assert kept[i] == rest[i - 1];
          }
        }
      }
    }
  }

  /** The processes behind a list of identifiers, last first. */
  function ProcessesReversed(order: seq<Id>, payloads: map<Id, Backend>): seq<nat> {
    if order == [] then []
    else
      var last := order[|order| - 1];
      (if last in payloads && payloads[last].Process? then [payloads[last].serial] else []) +
      ProcessesReversed(order[..|order| - 1], payloads)
  }

  /** How many of these closes are made: all of them, or up to the first that throws. */
  function Reached(serials: seq<nat>, throwing: set<nat>): seq<nat> {
    if serials == [] then []
    else if serials[0] in throwing then [serials[0]]
    else [serials[0]] + Reached(serials[1..], throwing)
  }

  predicate AnyThrows(serials: seq<nat>, throwing: set<nat>) {
    exists i :: 0 <= i < |serials| && serials[i] in throwing
  }

  lemma ReachedUnfolds(serial: nat, rest: seq<nat>, throwing: set<nat>)
    ensures Reached([serial] + rest, throwing) ==
            if serial in throwing then [serial] else [serial] + Reached(rest, throwing)
    ensures AnyThrows([serial] + rest, throwing) <==> serial in throwing || AnyThrows(rest, throwing)
  {
    var all := [serial] + rest;
    assert all[1..] == rest && all[0] == serial;
    assert forall i :: 0 <= i < |rest| ==> all[i + 1] == rest[i];
  }

  lemma ProcessesUnfold(order: seq<Id>, payloads: map<Id, Backend>, index: nat)
    requires index < |order| && order[index] in payloads
    ensures ProcessesReversed(order[..index + 1], payloads) ==
            if payloads[order[index]].Process?
              then [payloads[order[index]].serial] + ProcessesReversed(order[..index], payloads)
            else ProcessesReversed(order[..index], payloads)
  {
    assert order[..index + 1][..index] == order[..index];
  }

  /** The processes of a list in two parts are those of the second part, then those of the first. */
  lemma {:induction false} ProcessesOfParts(a: seq<Id>, b: seq<Id>, payloads: map<Id, Backend>)
    ensures ProcessesReversed(a + b, payloads) == ProcessesReversed(b, payloads) + ProcessesReversed(a, payloads)
  {
    if b == [] {
      assert a + b == a;
    } else {
      var last := b[|b| - 1];
      assert (a + b)[..|a + b| - 1] == a + b[..|b| - 1];
      ProcessesOfParts(a, b[..|b| - 1], payloads);
    }
  }

  lemma ProcessesOfOne(id: Id, payloads: map<Id, Backend>)
    ensures ProcessesReversed([id], payloads) ==
            if id in payloads && payloads[id].Process? then [payloads[id].serial] else []
  {
    assert [id][..0] == [];
  }

  /** So of two processes the one loaded later closes first, and every process is on the list. */
  lemma LaterClosesFirst(order: seq<Id>, payloads: map<Id, Backend>, i: nat, j: nat)
    requires i < j < |order|
    requires order[i] in payloads && payloads[order[i]].Process? && order[j] in payloads && payloads[order[j]].Process?
    ensures exists m: nat, n: nat ::
              && m < n < |ProcessesReversed(order, payloads)|
              && ProcessesReversed(order, payloads)[m] == payloads[order[j]].serial
              && ProcessesReversed(order, payloads)[n] == payloads[order[i]].serial
  {
    hide ProcessesReversed;
    var front, mid, back := order[..i], order[i + 1..j], order[j + 1..];
    assert order == front + ([order[i]] + (mid + ([order[j]] + back)));
    ProcessesOfParts(front, [order[i]] + (mid + ([order[j]] + back)), payloads);
    ProcessesOfParts([order[i]], mid + ([order[j]] + back), payloads);
    ProcessesOfParts(mid, [order[j]] + back, payloads);
    ProcessesOfParts([order[j]], back, payloads);
    ProcessesOfOne(order[i], payloads);
    ProcessesOfOne(order[j], payloads);
    var m := |ProcessesReversed(back, payloads)|;
    var n := m + 1 + |ProcessesReversed(mid, payloads)|;
    var all := ProcessesReversed(order, payloads);
    assert all[m] == payloads[order[j]].serial && all[n] == payloads[order[i]].serial;
  }

  /** The closes made: all of them if none throws, and otherwise those up to the first that does. */
  lemma {:induction false} ReachedStopsAtThrow(serials: seq<nat>, throwing: set<nat>)
    ensures Reached(serials, throwing) <= serials
    ensures !AnyThrows(serials, throwing) ==> Reached(serials, throwing) == serials
    ensures AnyThrows(serials, throwing) ==>
              var made := Reached(serials, throwing);
              made != [] && made[|made| - 1] in throwing && forall i :: 0 <= i < |made| - 1 ==> made[i] !in throwing
  {
    if serials != [] && serials[0] !in throwing {
      ReachedStopsAtThrow(serials[1..], throwing);
      assert serials == [serials[0]] + serials[1..];
      ReachedUnfolds(serials[0], serials[1..], throwing);
    }
  }

  // ---------------------------------------------------------------- routes

  /** Each live embedded identifier leads to a native payload with the context it was loaded with, no two to
      the same one, and every native payload has such an identifier. */
  ghost predicate Routed(payloads: map<Id, Backend>, loadedWith: map<Id, Context>, contexts: map<Id, Context>) {
    && (forall id :: id in payloads && payloads[id].Inner? ==>
          id in loadedWith && payloads[id].nativeId in contexts && contexts[payloads[id].nativeId] == loadedWith[id])
    && (forall a, b :: a in payloads && b in payloads && payloads[a].Inner? && payloads[a] == payloads[b] ==> a == b)
    && (forall n :: n in contexts ==> exists id :: id in payloads && payloads[id] == Inner(n))
  }

  lemma InnerRouted(
    payloads: map<Id, Backend>, loadedWith: map<Id, Context>, contexts: map<Id, Context>, id: Id, n: Id, c: Context)
    requires Routed(payloads, loadedWith, contexts) && id !in payloads && n !in contexts
    ensures Routed(payloads[id := Inner(n)], loadedWith[id := c], contexts[n := c])
  {
    var after := payloads[id := Inner(n)];
    assert after[id] == Inner(n);
    forall m | m in contexts[n := c] ensures exists j :: j in after && after[j] == Inner(m) {
      if m != n {
        var j :| j in payloads && payloads[j] == Inner(m);
        assert after[j] == Inner(m);
      }
    }
  }

  lemma ProcessRouted(
    payloads: map<Id, Backend>, loadedWith: map<Id, Context>, contexts: map<Id, Context>,
    id: Id, serial: nat, c: Context)
    requires Routed(payloads, loadedWith, contexts) && id !in payloads
    ensures Routed(payloads[id := Process(serial)], loadedWith[id := c], contexts)
  {
    var after := payloads[id := Process(serial)];
    forall m | m in contexts ensures exists j :: j in after && after[j] == Inner(m) {
      var j :| j in payloads && payloads[j] == Inner(m);
      assert after[j] == Inner(m);
    }
  }

  lemma RemovalRouted(payloads: map<Id, Backend>, loadedWith: map<Id, Context>, contexts: map<Id, Context>, id: Id)
    requires Routed(payloads, loadedWith, contexts) && id in payloads
    ensures Routed(payloads - {id}, loadedWith,
                   if payloads[id].Inner? then contexts - {payloads[id].nativeId} else contexts)
  {
    var after := payloads - {id};
    var left := if payloads[id].Inner? then contexts - {payloads[id].nativeId} else contexts;
    forall j | j in after && after[j].Inner?
      ensures j in loadedWith && after[j].nativeId in left && left[after[j].nativeId] == loadedWith[j]
    {
      assert payloads[j] == after[j] && j != id;
    }
    forall m | m in left ensures exists j :: j in after && after[j] == Inner(m) {
      var j :| j in payloads && payloads[j] == Inner(m);
      assert j != id && after[j] == Inner(m);
    }
  }

  /** Identifiers already issued are printed numbers below the next one. */
  ghost predicate Counted(issued: set<Id>, next: i64) {
    0 <= next && forall id :: id in issued ==> PositiveId(id) && (next > 0 ==> ParseUnsigned(id).value < next)
  }

  function Following(n: i64): i64 { if n == I64_MAX then 0 else n + 1 }

  lemma NextIsFresh(issued: set<Id>, next: i64)
    requires Counted(issued, next) && 0 < next
    ensures Digits(next) !in issued && Counted(issued + {Digits(next)}, Following(next))
  {
    PrintedIdsArePositive(next);
    hide Digits, ValueOf;
  }

  ghost predicate Listed(order: seq<Id>, payloads: map<Id, Backend>) {
    Distinct(order) && forall id :: id in order <==> id in payloads
  }

  lemma AppendListed(order: seq<Id>, payloads: map<Id, Backend>, id: Id, b: Backend)
    requires Listed(order, payloads) && id !in payloads
    ensures Listed(order + [id], payloads[id := b])
  {
    forall i, j | 0 <= i < j < |order| + 1 ensures (order + [id])[i] != (order + [id])[j] {
      assert order[i] in order;
    }
  }

  lemma RemoveListed(order: seq<Id>, payloads: map<Id, Backend>, id: Id)
    requires Listed(order, payloads)
    ensures Listed(Without(order, id), payloads - {id})
  {
    WithoutKeepsDistinct(order, id);
    WithoutMembers(order, id);
  }

  class RustRuntimeEngine {
    const embedded: RustNativeEngine
    var order: seq<Id>
    var payloads: map<Id, Backend>
    var nextPayloadId: i64
    var closed: bool
    ghost var issued: set<Id>                // every public identifier ever allocated
    ghost var loadedWith: map<Id, Context>   // the context each payload was loaded with
    ghost var closes: seq<nat>               // processes whose close was called

    constructor (embedded: RustNativeEngine)
      requires embedded.Valid() && !embedded.closed && embedded.Maps() == NO_TABLES
      ensures Valid() && this.embedded == embedded && !closed && payloads == map[] && issued == {} && closes == []
    {
      this.embedded := embedded;
      order, payloads, nextPayloadId, closed := [], map[], 1, false;
      issued, loadedWith, closes := {}, map[], [];
    }

    ghost predicate Valid()
      reads this, embedded
    {
      && embedded.Valid() && Counted(issued, nextPayloadId) && Listed(order, payloads)
      && payloads.Keys <= issued
      && (!closed ==> !embedded.closed && Routed(payloads, loadedWith, embedded.payloadContexts))
    }

    /** Identifiers count up from one and end after the greatest signed number. */
    method AllocatePayloadId() returns (id: Option<Id>)
      requires Counted(issued, nextPayloadId)
      modifies this`nextPayloadId, this`issued
      ensures Counted(issued, nextPayloadId)
      ensures id.Some? <==> old(nextPayloadId) > 0
      ensures id.Some? ==>
                id.value !in old(issued) && issued == old(issued) + {id.value} && id.value == Digits(old(nextPayloadId))
      ensures id.Some? ==> nextPayloadId == Following(old(nextPayloadId))
      ensures id.Some? ==> nextPayloadId == if old(nextPayloadId) == I64_MAX then 0 else old(nextPayloadId) + 1
      ensures id.None? ==> issued == old(issued) && nextPayloadId == old(nextPayloadId)
    {
      hide Counted, Digits;
      var payloadId := nextPayloadId;
      if payloadId <= 0 {
        return None;
      }
      NextIsFresh(issued, payloadId);
      nextPayloadId := if payloadId == I64_MAX then 0 else payloadId + 1;
      id := Some(Digits(payloadId));
      issued := issued + {id.value};
    }

    /** The backend a load that succeeded leaves behind. */
    static function Chosen(context: Context, native: Native<i64>, start: Native<nat>): Backend {
      if context.mode.Embedded? && native.Return? then Inner(Printed(native.value))
      else if start.Return? then Process(start.value)
      else Process(0)
    }

    /** `native` and `start` are what the chosen backend comes back with. The identifier is used up by every
        load of an open engine, even one that fails. */
    method LoadPayload(context: Context, native: Native<i64>, start: Native<nat>) returns (id: Option<Id>)
      requires Valid()
      modifies this, embedded
      ensures Valid() && closed == old(closed) && closes == old(closes)
      ensures context.mode.Embedded? ==>
                (id.Some? <==>
                   && !closed && old(nextPayloadId) > 0 && embedded.handle != 0 && old(embedded.nextSession) < I64_MAX
                   && native.Return? && native.value > 0
                   && Printed(native.value) !in old(embedded.payloadContexts))
      ensures context.mode.Isolated? ==> (id.Some? <==> !closed && old(nextPayloadId) > 0 && start.Return?)
      ensures context.mode.Other? ==> id.None?
      ensures id.Some? ==>
                && id.value == Digits(old(nextPayloadId)) && id.value !in old(issued)
                && order == old(order) + [id.value] && loadedWith == old(loadedWith)[id.value := context]
                && payloads == old(payloads)[id.value := Chosen(context, native, start)]
                && (context.mode.Embedded? ==> payloads[id.value] == Inner(Printed(native.value)))
                && (context.mode.Isolated? ==> start.Return? && payloads[id.value] == Process(start.value))
      ensures id.None? ==> payloads == old(payloads) && order == old(order) && loadedWith == old(loadedWith)
      ensures id.None? || !context.mode.Embedded? ==> embedded.Maps() == old(embedded.Maps())
      ensures if !closed && old(nextPayloadId) > 0
              then issued == old(issued) + {Digits(old(nextPayloadId))}
                   && nextPayloadId == Following(old(nextPayloadId))
              else issued == old(issued) && nextPayloadId == old(nextPayloadId)
    {
      hide Counted, Listed, Routed, Linked, Numbered, Digits, Printed;
      if closed {
        return None;
      }
      var payloadId := AllocatePayloadId();
      if payloadId.None? {
        return None;
      }
      var key := payloadId.value;
      var backend: Backend;
      match context.mode {
        case Embedded =>
          var inner := embedded.LoadPayload(context, native);
          if inner.None? {
            return None;
          }
          InnerRouted(payloads, loadedWith, old(embedded.payloadContexts), key, inner.value, context);
          backend := Inner(inner.value);
        case Isolated =>
          if start.Throw? {
            return None;
          }
          ProcessRouted(payloads, loadedWith, embedded.payloadContexts, key, start.value, context);
          backend := Process(start.value);
        case Other => return None;
      }
      AppendListed(order, payloads, key, backend);
      payloads := payloads[key := backend];
      loadedWith := loadedWith[key := context];
      order := order + [key];
      id := Some(key);
    }

    /** Where a public identifier of an embedded payload leads: to its native number, whose payload and
        session both carry the context it was loaded with. */
    method Resolve(id: Id) returns (native: Option<i64>)
      requires Valid()
      ensures native.Some? <==> !closed && embedded.handle != 0 && id in payloads && payloads[id].Inner?
      ensures native.Some? ==> LeadsTo(id, native.value)
    {
      hide Counted, Listed, Numbered, Printed;
      if closed || id !in payloads || !payloads[id].Inner? {
        return None;
      }
      native := embedded.RequirePayload(payloads[id].nativeId);
    }

    ghost predicate LeadsTo(id: Id, native: i64)
      reads this, embedded
    {
      var p := Printed(native);
      && id in loadedWith && p in embedded.payloadContexts && embedded.payloadContexts[p] == loadedWith[id]
      && p in embedded.payloadSessions && embedded.payloadSessions[p] in embedded.sessionContexts
      && embedded.sessionContexts[embedded.payloadSessions[p]] == loadedWith[id]
    }

    /** A process is forgotten whether its shutdown throws or not; an embedded payload only when it unloads. */
    method UnloadPayload(id: Id, native: Native<()>, shutdown: Native<()>) returns (ok: bool)
      requires Valid()
      modifies this, embedded
      ensures Valid() && closed == old(closed) && issued == old(issued) && closes == old(closes)
      ensures loadedWith == old(loadedWith) && nextPayloadId == old(nextPayloadId)
      ensures order == if payloads == old(payloads) then old(order) else Without(old(order), id)
      ensures embedded.Maps() ==
              if ok && id in old(payloads) && old(payloads)[id].Inner?
              then Leave(old(embedded.Maps()), old(payloads)[id].nativeId)
              else old(embedded.Maps())
      ensures closed || id !in old(payloads) ==> !ok && payloads == old(payloads)
      ensures !closed && id in old(payloads) && old(payloads)[id].Process? ==>
                ok == shutdown.Return? && payloads == old(payloads) - {id}
      ensures !closed && id in old(payloads) && old(payloads)[id].Inner? ==>
                && (ok <==> embedded.handle != 0 && native.Return?)
                && payloads == (if ok then old(payloads) - {id} else old(payloads))
    {
      hide Counted, Listed, Linked, Numbered, Digits, Printed;
      if closed || id !in payloads {
        return false;
      }
      RemovalRouted(payloads, loadedWith, embedded.payloadContexts, id);
      if payloads[id].Inner? {
        LinkedKeys(embedded.Maps());
        ok := embedded.UnloadPayload(payloads[id].nativeId, native);
        if !ok {
          return;
        }
      } else {
        ok := shutdown.Return?;
      }
      RemoveListed(order, payloads, id);
      payloads := payloads - {id};
      order := Without(order, id);
    }

    /** Processes close in reverse load order, up to the first that throws. */
    method CloseProcesses(throwing: set<nat>) returns (thrown: bool)
      requires Listed(order, payloads)
      modifies this`closes
      ensures var serials := ProcessesReversed(order, payloads);
              closes == old(closes) + Reached(serials, throwing) && thrown == AnyThrows(serials, throwing)
    {
      hide Reached, AnyThrows, ProcessesReversed;
      var index := |order|;
      assert order[..index] == order;
      while index > 0
        invariant 0 <= index <= |order|
        invariant var serials, rest := ProcessesReversed(order, payloads), ProcessesReversed(order[..index], payloads);
                  && old(closes) + Reached(serials, throwing) == closes + Reached(rest, throwing)
                  && AnyThrows(serials, throwing) == AnyThrows(rest, throwing)
      {
        index := index - 1;
        assert order[index] in order;
        var backend := payloads[order[index]];
        ProcessesUnfold(order, payloads, index);
        if backend.Process? {
          ReachedUnfolds(backend.serial, ProcessesReversed(order[..index], payloads), throwing);
          ghost var before, rest := closes, Reached(ProcessesReversed(order[..index], payloads), throwing);
          assert before + ([backend.serial] + rest) == before + [backend.serial] + rest;
          closes := closes + [backend.serial];
          if backend.serial in throwing {
            return true;
          }
        }
      }
      NothingReached(order, payloads, throwing);
      thrown := false;
    }

    /** Then the embedded engine closes. The tables are emptied exactly when no process close throws; if one
        does, the processes before it and the embedded engine are never closed. */
    method Close(throwing: set<nat>, destroy: Native<()>) returns (ok: bool)
      requires Valid()
      modifies this, embedded
      ensures Valid() && closed && issued == old(issued)
      ensures old(closed) ==>
                ok && payloads == old(payloads) && closes == old(closes) && embedded.closed == old(embedded.closed)
      ensures !old(closed) ==>
                var serials := ProcessesReversed(old(order), old(payloads));
                && closes == old(closes) + Reached(serials, throwing)
                && (AnyThrows(serials, throwing) ==> !ok && payloads == old(payloads) && !embedded.closed)
                && (!AnyThrows(serials, throwing) ==>
                      payloads == map[] && order == [] && embedded.closed
                      && (ok <==> old(embedded.handle) == 0 || destroy.Return?))
      ensures embedded.Maps() == if !old(closed) && ok then NO_TABLES else old(embedded.Maps())
    {
      hide Counted, Linked, Numbered, Digits, Routed, Reached, AnyThrows, ProcessesReversed;
      if closed {
        return true;
      }
      closed := true;
      var thrown := CloseProcesses(throwing);
      if thrown {
        return false;
      }
      payloads, order := map[], [];
      ok := embedded.Close(destroy);
    }
  }

  lemma NothingReached(order: seq<Id>, payloads: map<Id, Backend>, throwing: set<nat>)
    ensures var none := ProcessesReversed(order[..0], payloads);
            none == [] && Reached(none, throwing) == [] && !AnyThrows(none, throwing)
  {
  }
}
